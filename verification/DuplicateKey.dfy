/**
 * Recognising a duplicate-key error, packages/persistence/src/mongo-errors.ts: a search through
 * errors that hold errors, possibly in a cycle, with one set of seen objects for the whole search.
 */
module DuplicateKey {
  import opened Wrappers

  type ObjectId = nat

  /** The value of a field: an object of the error graph, or something without fields. */
  datatype Value = Reference(id: ObjectId) | Primitive

  datatype Code = NumberCode(n: int) | TextCode(s: string) | NoCode

  /** An object as far as it is read; writeErrors is None when the field is not an array. */
  datatype ErrorObject = ErrorObject(
    code: Code, codeName: Option<string>, message: Option<string>, errmsg: Option<string>,
    hasKeyPattern: bool, hasKeyValue: bool,
    writeErrors: Option<seq<Value>>, errorResponse: Value, cause: Value)

  /** String.prototype.includes. */
  predicate Includes(text: string, part: string) {
    |part| <= |text| && (text[..|part|] == part || (text != [] && Includes(text[1..], part)))
  }

  ghost predicate OccursAt(text: string, part: string, i: nat) {
    i + |part| <= |text| && text[i..i + |part|] == part
  }

  ghost predicate Occurs(text: string, part: string) {
    exists i: nat :: OccursAt(text, part, i)
  }

  lemma OccursLater(text: string, part: string, i: nat)
    requires text != []
    ensures OccursAt(text[1..], part, i) <==> OccursAt(text, part, i + 1)
  {
    if i + 1 + |part| <= |text| {
      assert text[1..][i..i + |part|] == text[i + 1..i + 1 + |part|];
    }
  }

  lemma {:induction false} IncludesIff(text: string, part: string)
    ensures Includes(text, part) <==> Occurs(text, part)
  {
    if |part| <= |text| && text[..|part|] == part {
      assert OccursAt(text, part, 0);
    } else if |part| > |text| {
      assert forall i: nat :: !OccursAt(text, part, i);
    } else {
      assert text != [];
      IncludesIff(text[1..], part);
      hide OccursAt, Includes;
      if i: nat :| OccursAt(text[1..], part, i) {
        OccursLater(text, part, i);
      }
      if i: nat :| OccursAt(text, part, i) {
        assert i > 0 by {
          NotAtStart(text, part);
        }
        OccursLater(text, part, i - 1);
      }
      IncludesTail(text, part);
    }
  }

  lemma NotAtStart(text: string, part: string)
    requires !(|part| <= |text| && text[..|part|] == part)
    ensures !OccursAt(text, part, 0)
  {
  }

  lemma IncludesTail(text: string, part: string)
    requires !(|part| <= |text| && text[..|part|] == part) && text != [] && |part| <= |text|
    ensures Includes(text, part) <==> Includes(text[1..], part)
  {
  }

  function JoinedText(e: ErrorObject): string {
    match (e.message, e.errmsg)
    case (Some(m), Some(r)) => m + " " + r
    case (Some(m), None) => m
    case (None, Some(r)) => r
    case (None, None) => ""
  }

  /** The object itself says that it is a duplicate-key error. */
  predicate IsDuplicate(e: ErrorObject) {
    var text := JoinedText(e);
    || e.code == NumberCode(11000) || e.code == TextCode("11000") || e.code == NumberCode(11001)
    || e.codeName == Some("DuplicateKey")
    || Includes(text, "E11000") || Includes(text, "duplicate key")
    || ((e.hasKeyPattern || e.hasKeyValue) && (Includes(text, "E11000") || Includes(text, "dup key")))
  }

  /** Its message and its errmsg, joined by a space when it has both. */
  ghost predicate Mentions(e: ErrorObject, part: string) {
    if e.message.Some? && e.errmsg.Some? then Occurs(e.message.value + " " + e.errmsg.value, part)
    else (e.message.Some? && Occurs(e.message.value, part)) || (e.errmsg.Some? && Occurs(e.errmsg.value, part))
  }

  /** By its code, by its name, or by what it says; a key pattern or value makes a shorter text enough. */
  lemma DuplicateIff(e: ErrorObject)
    ensures IsDuplicate(e)
       <==> || e.code in {NumberCode(11000), NumberCode(11001), TextCode("11000")}
            || e.codeName == Some("DuplicateKey")
            || Mentions(e, "E11000") || Mentions(e, "duplicate key")
            || ((e.hasKeyPattern || e.hasKeyValue) && Mentions(e, "dup key"))
  {
    hide Includes, OccursAt, Occurs;
    var text := JoinedText(e);
    NotInEmpty("E11000");
    NotInEmpty("duplicate key");
    NotInEmpty("dup key");
    IncludesIff(text, "E11000");
    IncludesIff(text, "duplicate key");
    IncludesIff(text, "dup key");
  }

  lemma NotInEmpty(part: string)
    requires part != ""
    ensures !Occurs("", part)
  {
  }

  /** The objects an error holds, in the order they are visited. */
  function Children(e: ErrorObject): seq<Value> {
    (if e.writeErrors.Some? then e.writeErrors.value else []) + [e.errorResponse, e.cause]
  }

  /** What an error holds: its cause, its error response and its write errors. */
  ghost predicate Holds(e: ErrorObject, v: Value) {
    v == e.cause || v == e.errorResponse || (e.writeErrors.Some? && v in e.writeErrors.value)
  }

  ghost predicate Resolved(graph: seq<ErrorObject>, v: Value) {
    v.Reference? ==> v.id < |graph|
  }

  /** Every reference leads to an object of the graph; cycles are allowed. */
  ghost predicate Closed(graph: seq<ErrorObject>) {
    forall i, v :: 0 <= i < |graph| && Holds(graph[i], v) ==> Resolved(graph, v)
  }

  // ---------- reachability ----------

  /** A chain of objects from the value to the object at its end, each held by the one before. */
  ghost predicate Path(graph: seq<ErrorObject>, v: Value, path: seq<ObjectId>) {
    && path != []
    && v == Reference(path[0])
    && (forall i :: 0 <= i < |path| ==> path[i] < |graph|)
    && (forall i :: 0 <= i < |path| - 1 ==> Holds(graph[path[i]], Reference(path[i + 1])))
  }

  /** Some object that can be reached through cause, errorResponse or writeErrors is a duplicate-key error. */
  ghost predicate ReachesDuplicate(graph: seq<ErrorObject>, v: Value) {
    exists path: seq<ObjectId> :: Path(graph, v, path) && IsDuplicate(graph[path[|path| - 1]])
  }

  lemma ChildReaches(graph: seq<ErrorObject>, id: ObjectId, child: Value)
    requires id < |graph| && child in Children(graph[id]) && ReachesDuplicate(graph, child)
    ensures ReachesDuplicate(graph, Reference(id))
  {
    var path :| Path(graph, child, path) && IsDuplicate(graph[path[|path| - 1]]);
    var longer := [id] + path;
    assert forall i :: 0 < i < |longer| ==> longer[i] == path[i - 1];
    assert Path(graph, Reference(id), longer);
    assert longer[|longer| - 1] == path[|path| - 1];
  }

  /** Everything reachable from a set that is closed under holding lies in the set. */
  lemma {:induction false} ClosedSetHolds(
      graph: seq<ErrorObject>, v: Value, path: seq<ObjectId>, seen: set<ObjectId>, i: nat)
    requires Path(graph, v, path) && path[0] in seen && i < |path|
    requires forall n :: n in seen ==> n < |graph|
    requires forall n, c: ObjectId :: n in seen && Reference(c) in Children(graph[n]) ==> c in seen
    ensures path[i] in seen
  {
    if i > 0 {
      ClosedSetHolds(graph, v, path, seen, i - 1);
    }
  }

  predicate Exists(graph: seq<ErrorObject>, id: ObjectId) {
    id < |graph|
  }

  function All(graph: seq<ErrorObject>): set<ObjectId> {
    set id: ObjectId | id < |graph| && Exists(graph, id)
  }

  class Visitor {
    const graph: seq<ErrorObject>
    var seen: set<ObjectId>

    constructor (errors: seq<ErrorObject>)
      ensures graph == errors && seen == {}
    {
      graph, seen := errors, {};
    }

    ghost predicate Valid()
      reads this
    {
      Closed(graph) && seen <= All(graph)
    }

    /** Objects that were seen since before, and from which nothing was found. */
    ghost predicate Cleared(before: set<ObjectId>)
      reads this
      requires Valid()
    {
      forall n :: n in seen && n !in before ==>
        && !IsDuplicate(graph[n])
        && forall c: ObjectId :: Reference(c) in Children(graph[n]) ==> c in seen
    }

    method Visit(value: Value) returns (found: bool)
      requires Valid() && Resolved(graph, value)
      modifies this
      ensures Valid() && old(seen) <= seen
      ensures found ==> ReachesDuplicate(graph, value)
      ensures !found ==> Cleared(old(seen)) && (value.Reference? ==> value.id in seen)
      decreases All(graph) - seen, 0
    {
      if value.Primitive? || value.id in seen {
        return false;
      }
      var id := value.id;
      var record := graph[id];
      seen := seen + {id};
      if IsDuplicate(record) {
        assert Path(graph, value, [id]);
        return true;
      }
      found := VisitAny(id, Children(record));
    }

    /** The children of one object, until one of them leads to a duplicate-key error. */
    method VisitAny(id: ObjectId, children: seq<Value>) returns (found: bool)
      requires Valid() && id in seen && children == Children(graph[id]) && !IsDuplicate(graph[id])
      modifies this
      ensures Valid() && old(seen) <= seen
      ensures found ==> ReachesDuplicate(graph, Reference(id))
      ensures !found ==> Cleared(old(seen)) && forall c: ObjectId :: Reference(c) in children ==> c in seen
      decreases All(graph) - seen, 1
    {
      for k := 0 to |children|
        invariant Valid() && old(seen) <= seen && Cleared(old(seen))
        invariant forall c: ObjectId :: Reference(c) in children[..k] ==> c in seen
      {
        label before:
        found := Visit(children[k]);
        if found {
          ChildReaches(graph, id, children[k]);
          return;
        }
        assert children[..k + 1] == children[..k] + [children[k]];
      }
      assert children[..|children|] == children;
      found := false;
    }
  }

  /**
   * isDuplicateKeyError: true exactly when a duplicate-key error can be reached, on every error
   * graph, cycles included.
   */
  method IsDuplicateKeyError(graph: seq<ErrorObject>, error: Value) returns (found: bool)
    requires Closed(graph) && Resolved(graph, error)
    ensures found <==> ReachesDuplicate(graph, error)
  {
    var visitor := new Visitor(graph);
    found := visitor.Visit(error);
    if !found {
      forall path: seq<ObjectId> | Path(graph, error, path)
        ensures !IsDuplicate(graph[path[|path| - 1]])
      {
        ClosedSetHolds(graph, error, path, visitor.seen, |path| - 1);
      }
    }
  }
}
