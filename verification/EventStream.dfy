/**
 * The event stream of a simulation, apps/api/src/simulations/simulations.controller.ts: a cursor
 * that resumes after the last delivered event. Server-sent events, section 9.2 of the WHATWG HTML
 * Standard.
 */
module EventStream {
  import opened Wrappers
  import opened RunStore

  /** A run as one poll sees it; the ids of its events are texts on the wire. */
  datatype Snapshot = Snapshot(events: seq<StreamEvent>, status: RunStatus)

  datatype StreamEvent = StreamEvent(id: string, kind: EventType, data: EventData)

  /** What is written for one event, with the status of the run when it was sent. */
  datatype Frame = Frame(event: StreamEvent, status: RunStatus)

  predicate Ends(status: RunStatus) {
    status == RunStatus.COMPLETED || status == RunStatus.FAILED
  }

  /** Array.prototype.findIndex plus one: 0 when no event has the id. */
  function After(events: seq<StreamEvent>, cursor: string): (n: nat)
    ensures n <= |events|
    ensures n > 0 ==> events[n - 1].id == cursor
    ensures n == 0 ==> forall i :: 0 <= i < |events| ==> events[i].id != cursor
  {
    if events == [] then 0
    else if events[0].id == cursor then 1
    else
      var n := After(events[1..], cursor);
      if n == 0 then 0 else n + 1
  }

  /** An empty cursor stands for none. */
  function Start(events: seq<StreamEvent>, cursor: string): (n: nat)
    ensures n <= |events|
  {
    if cursor == "" then 0 else After(events, cursor)
  }

  /** The events of a snapshot after the cursor. */
  function Fresh(current: Snapshot, cursor: string): seq<StreamEvent> {
    current.events[Start(current.events, cursor)..]
  }

  function Frames(events: seq<StreamEvent>, status: RunStatus): (frames: seq<Frame>)
    ensures |frames| == |events|
  {
    seq(|events|, i requires 0 <= i < |events| => Frame(events[i], status))
  }

  function CursorAfter(cursor: string, sent: seq<StreamEvent>): string {
    if sent == [] then cursor else sent[|sent| - 1].id
  }

  /** What one connection delivers for the polls it gets to see, in order. */
  function Deliver(cursor: string, polls: seq<Snapshot>): seq<Frame>
    decreases polls
  {
    if polls == [] then []
    else
      var events := Fresh(polls[0], cursor);
      Frames(events, polls[0].status)
      + if Ends(polls[0].status) then [] else Deliver(CursorAfter(cursor, events), polls[1..])
  }

  lemma DeliverUnfolds(cursor: string, polls: seq<Snapshot>, k: nat)
    requires k < |polls|
    ensures Ends(polls[k].status)
        ==> Deliver(cursor, polls[k..]) == Frames(Fresh(polls[k], cursor), polls[k].status) + []
    ensures !Ends(polls[k].status)
        ==> Deliver(cursor, polls[k..])
              == Frames(Fresh(polls[k], cursor), polls[k].status)
                 + Deliver(CursorAfter(cursor, Fresh(polls[k], cursor)), polls[k + 1..])
  {
    assert polls[k..][0] == polls[k] && polls[k..][1..] == polls[k + 1..];
  }

  lemma NothingToDeliver(cursor: string)
    ensures Deliver(cursor, []) == []
  {
  }

  class Connection {
    var cursor: string
    var written: seq<Frame>

    constructor (lastEventId: Option<string>)
      ensures cursor == (if lastEventId.Some? then lastEventId.value else "") && written == []
    {
      cursor := if lastEventId.Some? then lastEventId.value else "";
      written := [];
    }

    method Replay(current: Snapshot)
      modifies this
      ensures var events := Fresh(current, old(cursor));
              && written == old(written) + Frames(events, current.status)
              && cursor == CursorAfter(old(cursor), events)
    {
      var events := Fresh(current, cursor);
      for i := 0 to |events|
        invariant written == old(written) + Frames(events[..i], current.status)
        invariant cursor == CursorAfter(old(cursor), events[..i])
      {
        written := written + [Frame(events[i], current.status)];
        cursor := events[i].id;
        assert Frames(events[..i + 1], current.status)
            == Frames(events[..i], current.status) + [Frame(events[i], current.status)];
      }
      assert events[..|events|] == events;
    }

    /** The first read, and then one poll at a time until the run has ended or polls stop coming. */
    method Stream(polls: seq<Snapshot>)
      modifies this
      ensures written == old(written) + Deliver(old(cursor), polls)
    {
      hide Deliver, Fresh, Frames, CursorAfter;
      var k := 0;
      assert polls[0..] == polls;
      while k < |polls|
        invariant 0 <= k <= |polls|
        invariant old(written) + Deliver(old(cursor), polls) == written + Deliver(cursor, polls[k..])
      {
        DeliverUnfolds(cursor, polls, k);
        Replay(polls[k]);
        if Ends(polls[k].status) {
          assert written + [] == written;
          return;
        }
        k := k + 1;
      }
      NothingToDeliver(cursor);
      assert polls[k..] == [] && written + [] == written;
    }
  }

  // ---------- what a connection delivers ----------

  /** Ids tell events apart, and none is empty. */
  ghost predicate UniqueIds(log: seq<StreamEvent>) {
    && (forall i :: 0 <= i < |log| ==> log[i].id != "")
    && (forall i, j :: 0 <= i < j < |log| ==> log[i].id != log[j].id)
  }

  /** Polls are seen in order, and the log of a run only grows. */
  ghost predicate Growing(polls: seq<Snapshot>) {
    && (forall i, j :: 0 <= i < j < |polls| ==> polls[i].events <= polls[j].events)
    && (forall i :: 0 <= i < |polls| ==> UniqueIds(polls[i].events))
  }

  /** The last poll that is served: the first one that sees the run ended, or the last. */
  function Last(polls: seq<Snapshot>): (log: seq<StreamEvent>) {
    if polls == [] then []
    else if polls[0].status == RunStatus.COMPLETED || polls[0].status == RunStatus.FAILED || |polls| == 1
    then polls[0].events
    else Last(polls[1..])
  }

  function Events(frames: seq<Frame>): (events: seq<StreamEvent>)
    ensures |events| == |frames|
  {
    seq(|frames|, i requires 0 <= i < |frames| => frames[i].event)
  }

  /** The cursor of a client that has received the first n events of the log. */
  ghost predicate Received(log: seq<StreamEvent>, n: nat, cursor: string) {
    n <= |log| && (if n == 0 then cursor == "" else log[n - 1].id == cursor)
  }

  lemma StartAfterReceived(log: seq<StreamEvent>, n: nat, cursor: string)
    requires UniqueIds(log) && Received(log, n, cursor)
    ensures Start(log, cursor) == n
  {
  }

  lemma FreshAfterReceived(poll: Snapshot, n: nat, cursor: string)
    requires UniqueIds(poll.events) && Received(poll.events, n, cursor)
    ensures Fresh(poll, cursor) == poll.events[n..]
  {
    StartAfterReceived(poll.events, n, cursor);
  }

  lemma EventsOfFrames(events: seq<StreamEvent>, status: RunStatus, more: seq<Frame>)
    ensures Events(Frames(events, status) + more) == events + Events(more)
  {
  }

  lemma {:induction false} LastExtends(polls: seq<Snapshot>)
    requires Growing(polls) && polls != []
    ensures polls[0].events <= Last(polls) && UniqueIds(Last(polls))
  {
    if |polls| > 1 && !Ends(polls[0].status) {
      LastExtends(polls[1..]);
    }
  }

  lemma FirstUnique(polls: seq<Snapshot>)
    requires polls != [] && Growing(polls)
    ensures UniqueIds(polls[0].events)
  {
    hide UniqueIds;
  }

  lemma LastUnfolds(polls: seq<Snapshot>)
    requires polls != []
    ensures Last(polls) == if Ends(polls[0].status) || |polls| == 1 then polls[0].events else Last(polls[1..])
  {
  }

  lemma GrowingTail(polls: seq<Snapshot>)
    requires Growing(polls) && |polls| > 1
    ensures Growing(polls[1..]) && polls[0].events <= polls[1].events
  {
    hide UniqueIds;
    var rest := polls[1..];
    assert forall i :: 0 <= i < |rest| ==> rest[i] == polls[i + 1];
  }

  lemma PrefixJoin(log: seq<StreamEvent>, longer: seq<StreamEvent>, n: nat, k: nat, m: nat)
    requires log <= longer && n <= k <= |log| && k <= m <= |longer|
    ensures longer[n..m] == log[n..k] + longer[k..m]
  {
    assert longer[n..k] == log[n..k];
  }

  /** One poll, and then the rest of the connection. */
  lemma PollDelivers(cursor: string, polls: seq<Snapshot>)
    requires polls != []
    ensures var sent := Fresh(polls[0], cursor);
            Events(Deliver(cursor, polls))
            == sent + if Ends(polls[0].status) then [] else Events(Deliver(CursorAfter(cursor, sent), polls[1..]))
  {
    hide Deliver, Events, Frames, Fresh, CursorAfter;
    var sent := Fresh(polls[0], cursor);
    assert polls[0..] == polls;
    DeliverUnfolds(cursor, polls, 0);
    EventsOfFrames(sent, polls[0].status,
                   if Ends(polls[0].status) then [] else Deliver(CursorAfter(cursor, sent), polls[1..]));
    NoEvents();
  }

  lemma NoEvents()
    ensures Events([]) == []
  {
  }

  /** A connection delivers exactly the events after its cursor, in order and each of them once. */
  lemma {:induction false} DeliversSuffix(cursor: string, polls: seq<Snapshot>, n: nat)
    requires polls != [] && Growing(polls) && Received(polls[0].events, n, cursor)
    ensures n <= |Last(polls)| && Events(Deliver(cursor, polls)) == Last(polls)[n..]
    decreases |polls|
  {
    hide Start, Fresh, Events, Deliver, CursorAfter, UniqueIds, Last, Growing, Ends;
    var log := polls[0].events;
    assert UniqueIds(log) by {
      FirstUnique(polls);
    }
    FreshAfterReceived(polls[0], n, cursor);
    LastExtends(polls);
    LastUnfolds(polls);
    PollDelivers(cursor, polls);
    if |polls| == 1 {
      assert polls[1..] == [];
      NothingToDeliver(CursorAfter(cursor, log[n..]));
      NoEvents();
    } else if !Ends(polls[0].status) {
      GrowingTail(polls);
      NextReceived(log, n, cursor, polls[1].events);
      DeliversSuffix(CursorAfter(cursor, log[n..]), polls[1..], |log|);
      PrefixJoin(log, Last(polls), n, |log|, |Last(polls)|);
      assert Last(polls)[n..] == log[n..] + Last(polls)[|log|..];
    }
  }

  lemma NextReceived(log: seq<StreamEvent>, n: nat, cursor: string, longer: seq<StreamEvent>)
    requires Received(log, n, cursor) && log <= longer
    ensures Received(longer, |log|, CursorAfter(cursor, log[n..]))
  {
  }

  /** An id that is not in the log replays it from the start. */
  lemma UnknownIdReplaysAll(cursor: string, polls: seq<Snapshot>)
    requires polls != [] && Growing(polls) && polls[0].events != []
    requires forall i :: 0 <= i < |polls[0].events| ==> polls[0].events[i].id != cursor
    ensures Events(Deliver(cursor, polls)) == Last(polls)
    ensures Start(polls[0].events, "") == 0
  {
    DeliversSuffix("", polls, 0);
    assert Start(polls[0].events, cursor) == 0;
    assert Deliver(cursor, polls) == Deliver("", polls);
  }

  // ---------- reconnecting ----------

  /** A connection that breaks after the client has received the first frames of it. */
  datatype Session = Session(polls: seq<Snapshot>, received: nat)

  function Take(frames: seq<Frame>, n: nat): seq<Frame> {
    if n < |frames| then frames[..n] else frames
  }

  /** Everything a client receives that reconnects with the last id it has received. */
  function Reconnect(cursor: string, sessions: seq<Session>): seq<StreamEvent>
    decreases sessions
  {
    if sessions == [] then []
    else
      var got := Events(Take(Deliver(cursor, sessions[0].polls), sessions[0].received));
      got + Reconnect(CursorAfter(cursor, got), sessions[1..])
  }

  /** Each session is polled in order, and starts from a log at least as long as the one before saw. */
  ghost predicate InOrder(sessions: seq<Session>) {
    && (forall s :: 0 <= s < |sessions| ==> sessions[s].polls != [] && Growing(sessions[s].polls))
    && (forall s, t :: 0 <= s < t < |sessions| ==> Last(sessions[s].polls) <= sessions[t].polls[0].events)
  }

  /**
   * Over any number of broken connections, what the client has received is one piece of the log
   * after its first cursor: nothing is lost, repeated or out of order.
   */
  lemma {:induction false} ReconnectingLosesNothing(cursor: string, sessions: seq<Session>, n: nat) returns (m: nat)
    requires sessions != [] && InOrder(sessions) && Received(sessions[0].polls[0].events, n, cursor)
    ensures n <= m <= |Last(sessions[|sessions| - 1].polls)|
    ensures Reconnect(cursor, sessions) == Last(sessions[|sessions| - 1].polls)[n..m]
    decreases |sessions|
  {
    hide Deliver, Growing, UniqueIds, Last, Take, Events, CursorAfter;
    var got, k := SessionGets(cursor, sessions[0], n);
    var next := CursorAfter(cursor, got);
    var rest := sessions[1..];
    if rest == [] {
      m := k;
      assert Reconnect(next, rest) == [];
    } else {
      SessionsExtend(sessions);
      m := ReconnectingLosesNothing(next, rest, k);
      assert rest[|rest| - 1] == sessions[|sessions| - 1];
      PrefixJoin(Last(sessions[0].polls), Last(sessions[|sessions| - 1].polls), n, k, m);
    }
  }

  /** One session: the client gets a piece of the log that the session saw, and its cursor moves to the end of it. */
  lemma SessionGets(cursor: string, session: Session, n: nat) returns (got: seq<StreamEvent>, k: nat)
    requires session.polls != [] && Growing(session.polls) && Received(session.polls[0].events, n, cursor)
    ensures got == Events(Take(Deliver(cursor, session.polls), session.received))
    ensures n <= k <= |Last(session.polls)| && got == Last(session.polls)[n..k]
    ensures Received(Last(session.polls), k, CursorAfter(cursor, got))
  {
    hide Deliver;
    DeliversSuffix(cursor, session.polls, n);
    LastExtends(session.polls);
    var sent := Deliver(cursor, session.polls);
    got := Events(Take(sent, session.received));
    k := n + |got|;
    assert got == Events(sent)[..|got|];
  }

  lemma SessionsExtend(sessions: seq<Session>)
    requires InOrder(sessions) && |sessions| > 1
    ensures Last(sessions[0].polls) <= sessions[1].polls[0].events
    ensures Last(sessions[0].polls) <= Last(sessions[|sessions| - 1].polls)
    ensures InOrder(sessions[1..])
  {
    var t := |sessions| - 1;
    LastExtends(sessions[t].polls);
    assert Last(sessions[0].polls) <= sessions[t].polls[0].events <= Last(sessions[t].polls);
  }

  // ---------- polls out of order ----------

  /** Polls of one log that is still running, seen in any order. */
  ghost predicate PollsOf(log: seq<StreamEvent>, polls: seq<Snapshot>) {
    UniqueIds(log) && forall i :: 0 <= i < |polls| ==> polls[i].events <= log && !Ends(polls[i].status)
  }

  ghost predicate NoRepeats(events: seq<StreamEvent>) {
    forall i, j :: 0 <= i < j < |events| ==> events[i] != events[j]
  }

  /** Polls that see an event at all see no fewer than any poll before them, nor than the first n. */
  ghost predicate NeverShorter(polls: seq<Snapshot>, n: nat) {
    && (forall j :: 0 <= j < |polls| && polls[j].events != [] ==> n <= |polls[j].events|)
    && (forall i, j :: 0 <= i < j < |polls| && polls[j].events != [] ==> |polls[i].events| <= |polls[j].events|)
  }

  lemma NeverShorterUnfolds(polls: seq<Snapshot>, n: nat)
    requires polls != []
    ensures polls[0].events == [] ==> (NeverShorter(polls, n) <==> NeverShorter(polls[1..], n))
    ensures polls[0].events != [] ==>
              (NeverShorter(polls, n) <==> n <= |polls[0].events| && NeverShorter(polls[1..], |polls[0].events|))
  {
    var m := |polls[0].events|;
    assert forall j :: 1 <= j < |polls| ==> polls[j] == polls[1..][j - 1];
    if m > 0 && n <= m && NeverShorter(polls[1..], m) {
      forall j | 0 <= j < |polls| && polls[j].events != []
        ensures n <= |polls[j].events| && m <= |polls[j].events|
      {
        assert j == 0 || polls[j] == polls[1..][j - 1];
      }
    }
  }

  /** A poll behind the cursor does not hold its id, and is sent from the start. */
  lemma StartOf(log: seq<StreamEvent>, n: nat, cursor: string, m: nat)
    requires UniqueIds(log) && Received(log, n, cursor) && m <= |log|
    ensures Start(log[..m], cursor) == if n <= m then n else 0
  {
    if n <= m {
      assert UniqueIds(log[..m]) && Received(log[..m], n, cursor);
      StartAfterReceived(log[..m], n, cursor);
    } else {
      assert log[n - 1].id == cursor;
      assert forall i :: 0 <= i < m ==> log[..m][i].id != cursor;
    }
  }

  lemma RepeatedAt(events: seq<StreamEvent>, i: nat, j: nat)
    requires i < j < |events| && events[i] == events[j]
    ensures !NoRepeats(events)
  {
  }

  lemma PieceHasNoRepeats(log: seq<StreamEvent>, m: nat)
    requires UniqueIds(log) && m <= |log|
    ensures NoRepeats(log[..m])
  {
  }

  /** With the first n events received already, the polls repeat one exactly when one of them falls behind. */
  lemma {:induction false} RepeatsIffShorter(log: seq<StreamEvent>, cursor: string, polls: seq<Snapshot>, n: nat)
    requires PollsOf(log, polls) && Received(log, n, cursor)
    ensures NoRepeats(log[..n] + Events(Deliver(cursor, polls))) <==> NeverShorter(polls, n)
    decreases |polls|
  {
    hide Deliver, Events, Start, UniqueIds, NoRepeats, NeverShorter, CursorAfter;
    if polls == [] {
      NothingToDeliver(cursor);
      NoEvents();
      assert log[..n] + [] == log[..n];
      PieceHasNoRepeats(log, n);
      NoPolls(n);
    } else {
      var m := |polls[0].events|;
      assert polls[0].events == log[..m];
      StartOf(log, n, cursor, m);
      PollDelivers(cursor, polls);
      NeverShorterUnfolds(polls, n);
      if m == 0 {
        NothingNew(log, cursor, polls, n);
        RepeatsIffShorter(log, cursor, polls[1..], n);
      } else if n <= m {
        var next := CursorAfter(cursor, log[..m][n..]);
        NextReceived(log[..m], n, cursor, log);
        RepeatsIffShorter(log, next, polls[1..], m);
        assert log[..n] + (log[..m][n..] + Events(Deliver(next, polls[1..])))
            == log[..m] + Events(Deliver(next, polls[1..]));
      } else {
        var all := log[..n] + Events(Deliver(cursor, polls));
        assert all[0] == log[0] == all[n];
        RepeatedAt(all, 0, n);
      }
    }
  }

  lemma NoPolls(n: nat)
    ensures NeverShorter([], n)
  {
  }

  lemma NothingNew(log: seq<StreamEvent>, cursor: string, polls: seq<Snapshot>, n: nat)
    requires polls != [] && polls[0].events == [] && !Ends(polls[0].status)
    ensures Events(Deliver(cursor, polls)) == Events(Deliver(cursor, polls[1..]))
  {
    PollDelivers(cursor, polls);
    assert Fresh(polls[0], cursor) == [];
    hide Deliver;
  }

  /**
   * Polls of a running log, seen in any order, deliver an event twice exactly when some poll that is
   * not empty is shorter than one before it.
   */
  lemma StalePollRepeatsIff(log: seq<StreamEvent>, polls: seq<Snapshot>)
    requires PollsOf(log, polls)
    ensures NoRepeats(Events(Deliver("", polls)))
       <==> forall i, j :: 0 <= i < j < |polls| && polls[j].events != [] ==> |polls[i].events| <= |polls[j].events|
  {
    hide Deliver, Events, NoRepeats;
    RepeatsIffShorter(log, "", polls, 0);
    assert log[..0] + Events(Deliver("", polls)) == Events(Deliver("", polls));
  }
}
