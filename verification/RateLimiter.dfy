/** The fixed-window rate limiter, MemoryRateLimiter of apps/api/src/http.ts. */
module RateLimiter {
  import opened Wrappers

  datatype Window = Window(count: nat, resetAt: int)

  datatype Limits = Limits(windowMs: int, max: int)

  // ---------- one key ----------

  /** The window of a key after a request at now, and whether the request is accepted. */
  function ConsumeOne(limits: Limits, current: Option<Window>, now: int): (Window, bool) {
    if current.None? || current.value.resetAt <= now then (Window(1, now + limits.windowMs), true)
    else if current.value.count >= limits.max then (current.value, false)
    else (Window(current.value.count + 1, current.value.resetAt), true)
  }

  /** The window of a key after requests at these times. */
  function WindowAfter(limits: Limits, times: seq<int>): (w: Option<Window>)
    ensures w.None? <==> times == []
  {
    if times == [] then None
    else Some(ConsumeOne(limits, WindowAfter(limits, times[..|times| - 1]), times[|times| - 1]).0)
  }

  /** The last of these requests is accepted. */
  predicate LastAccepted(limits: Limits, times: seq<int>)
    requires times != []
  {
    ConsumeOne(limits, WindowAfter(limits, times[..|times| - 1]), times[|times| - 1]).1
  }

  /** How many of the requests are accepted in the windowMs milliseconds from t on. */
  function AcceptedFrom(limits: Limits, times: seq<int>, t: int): nat {
    if times == [] then 0
    else
      var last := times[|times| - 1];
      AcceptedFrom(limits, times[..|times| - 1], t)
      + if LastAccepted(limits, times) && t <= last < t + limits.windowMs then 1 else 0
  }

  ghost predicate NonDecreasing(times: seq<int>) {
    forall i, j :: 0 <= i < j < |times| ==> times[i] <= times[j]
  }

  /** The limiter's last window: when it started, and how the accepted requests lie around its start. */
  ghost predicate Bounded(limits: Limits, times: seq<int>, t: int) {
    times != [] ==>
      var w := WindowAfter(limits, times).value;
      var start := w.resetAt - limits.windowMs;
      && 1 <= w.count <= limits.max
      && start <= times[|times| - 1]
      && (t >= w.resetAt ==> AcceptedFrom(limits, times, t) == 0)
      && (t == start ==> AcceptedFrom(limits, times, t) <= w.count)
      && (t > start ==> AcceptedFrom(limits, times, t) <= w.count - 1)
      && (t > start - limits.windowMs ==> AcceptedFrom(limits, times, t) <= limits.max - 1 + w.count)
      && AcceptedFrom(limits, times, t) <= 2 * limits.max - 1
  }

  lemma {:induction false} AlwaysBounded(limits: Limits, times: seq<int>, t: int)
    requires limits.windowMs > 0 && limits.max > 0 && NonDecreasing(times)
    ensures Bounded(limits, times, t)
  {
    if times != [] {
      var n := |times| - 1;
      var front := times[..n];
      AlwaysBounded(limits, front, t);
      if front != [] {
        assert front[n - 1] <= times[n];
      } else {
        assert AcceptedFrom(limits, front, t) == 0;
      }
    }
  }

  /** In any windowMs milliseconds a key has at most 2 * max - 1 accepted requests. */
  lemma AtMostTwiceTheLimit(limits: Limits, times: seq<int>, t: int)
    requires limits.windowMs > 0 && limits.max > 0 && NonDecreasing(times)
    ensures AcceptedFrom(limits, times, t) <= 2 * limits.max - 1
  {
    AlwaysBounded(limits, times, t);
  }

  /** In the limiter's own window a key has at most max accepted requests. */
  lemma AtMostMaxPerWindow(limits: Limits, times: seq<int>)
    requires limits.windowMs > 0 && limits.max > 0 && NonDecreasing(times) && times != []
    ensures AcceptedFrom(limits, times, WindowAfter(limits, times).value.resetAt - limits.windowMs) <= limits.max
  {
    AlwaysBounded(limits, times, WindowAfter(limits, times).value.resetAt - limits.windowMs);
  }

  // ---------- the bound is reached ----------

  function Repeat(times: seq<int>, at: int, n: nat): seq<int> {
    if n == 0 then times else Repeat(times, at, n - 1) + [at]
  }

  lemma SnocAccepted(limits: Limits, times: seq<int>, at: int, t: int)
    ensures var (next, accepted) := ConsumeOne(limits, WindowAfter(limits, times), at);
            && WindowAfter(limits, times + [at]) == Some(next)
            && AcceptedFrom(limits, times + [at], t)
               == AcceptedFrom(limits, times, t) + (if accepted && t <= at < t + limits.windowMs then 1 else 0)
  {
    assert (times + [at])[..|times|] == times;
  }

  /** Requests within a window that has room are all accepted. */
  lemma {:induction false} RepeatAccepted(limits: Limits, times: seq<int>, at: int, n: nat, t: int, w: Window)
    requires WindowAfter(limits, times) == Some(w) && w.resetAt > at && w.count + n <= limits.max
    ensures WindowAfter(limits, Repeat(times, at, n)) == Some(Window(w.count + n, w.resetAt))
    ensures AcceptedFrom(limits, Repeat(times, at, n), t)
         == AcceptedFrom(limits, times, t) + (if t <= at < t + limits.windowMs then n else 0)
  {
    hide WindowAfter, AcceptedFrom;
    if n > 0 {
      RepeatAccepted(limits, times, at, n - 1, t, w);
      SnocAccepted(limits, Repeat(times, at, n - 1), at, t);
    }
  }

  lemma {:induction false} RepeatNonDecreasing(times: seq<int>, at: int, n: nat)
    requires NonDecreasing(times) && forall i :: 0 <= i < |times| ==> times[i] <= at
    ensures NonDecreasing(Repeat(times, at, n))
    ensures forall i :: 0 <= i < |Repeat(times, at, n)| ==> Repeat(times, at, n)[i] <= at
  {
    if n > 0 {
      RepeatNonDecreasing(times, at, n - 1);
    }
  }

  /** One request at 0, the rest of the limit just before the window ends, and a full limit just after. */
  function Burst(limits: Limits): seq<int>
    requires limits.max > 0
  {
    Repeat(Repeat([0], limits.windowMs - 1, limits.max - 1), limits.windowMs, limits.max)
  }

  /** These 2 * max requests are all accepted, and all but the first lie within one windowMs. */
  lemma BoundIsReached(limits: Limits)
    requires limits.windowMs > 1 && limits.max > 0
    ensures NonDecreasing(Burst(limits))
    ensures AcceptedFrom(limits, Burst(limits), limits.windowMs - 1) == 2 * limits.max - 1
  {
    hide WindowAfter, AcceptedFrom, Repeat;
    var t := limits.windowMs - 1;
    var late := Repeat([0], t, limits.max - 1);
    FirstWindow(limits, t);
    RepeatAccepted(limits, [0], t, limits.max - 1, t, Window(1, limits.windowMs));
    SnocAccepted(limits, late, limits.windowMs, t);
    RepeatAccepted(limits, late + [limits.windowMs], limits.windowMs, limits.max - 1, t,
                   Window(1, 2 * limits.windowMs));
    RepeatFirst(late, limits.windowMs, limits.max);
    RepeatNonDecreasing([0], t, limits.max - 1);
    RepeatNonDecreasing(late, limits.windowMs, limits.max);
  }

  lemma FirstWindow(limits: Limits, t: int)
    requires t > 0
    ensures WindowAfter(limits, [0]) == Some(Window(1, limits.windowMs)) && AcceptedFrom(limits, [0], t) == 0
  {
    assert [0][..0] == [];
  }

  lemma {:induction false} RepeatFirst(times: seq<int>, at: int, n: nat)
    requires n > 0
    ensures Repeat(times, at, n) == Repeat(times + [at], at, n - 1)
  {
    if n > 1 {
      RepeatFirst(times, at, n - 1);
    } else {
      assert Repeat(times, at, 0) == times;
    }
  }

  // ---------- all keys ----------

  datatype Hit = Hit(key: string, now: int)

  /** The times at which a key was used. */
  function TimesOf(hits: seq<Hit>, key: string): seq<int> {
    if hits == [] then []
    else
      var last := hits[|hits| - 1];
      TimesOf(hits[..|hits| - 1], key) + if last.key == key then [last.now] else []
  }

  function Lookup(windows: map<string, Window>, key: string): Option<Window> {
    if key in windows then Some(windows[key]) else None
  }

  function Consume(limits: Limits, windows: map<string, Window>, hit: Hit): (map<string, Window>, bool) {
    var (next, accepted) := ConsumeOne(limits, Lookup(windows, hit.key), hit.now);
    (windows[hit.key := next], accepted)
  }

  function WindowsAfter(limits: Limits, hits: seq<Hit>): map<string, Window> {
    if hits == [] then map[] else Consume(limits, WindowsAfter(limits, hits[..|hits| - 1]), hits[|hits| - 1]).0
  }

  /** Keys do not affect each other: a key's window depends on the requests of that key only. */
  lemma {:induction false} KeysAreIndependent(limits: Limits, hits: seq<Hit>, key: string)
    ensures Lookup(WindowsAfter(limits, hits), key) == WindowAfter(limits, TimesOf(hits, key))
  {
    if hits != [] {
      var n := |hits| - 1;
      KeysAreIndependent(limits, hits[..n], key);
      var times := TimesOf(hits[..n], key);
      assert (times + [hits[n].now])[..|times|] == times;
      assert times + [] == times;
    }
  }

  /** So is whether a request is accepted. */
  lemma AcceptedByKey(limits: Limits, hits: seq<Hit>, hit: Hit)
    ensures Consume(limits, WindowsAfter(limits, hits), hit).1
         == LastAccepted(limits, TimesOf(hits, hit.key) + [hit.now])
  {
    KeysAreIndependent(limits, hits, hit.key);
    var times := TimesOf(hits, hit.key);
    assert (times + [hit.now])[..|times|] == times;
  }

  class MemoryRateLimiter {
    const limits: Limits
    var windows: map<string, Window>

    constructor (windowMs: int, max: int)
      ensures limits == Limits(windowMs, max) && windows == map[]
    {
      limits, windows := Limits(windowMs, max), map[];
    }

    method ConsumeKey(key: string, now: int) returns (accepted: bool)
      modifies `windows
      ensures (windows, accepted) == Consume(limits, old(windows), Hit(key, now))
    {
      if key !in windows || windows[key].resetAt <= now {
        windows := windows[key := Window(1, now + limits.windowMs)];
        return true;
      }
      if windows[key].count >= limits.max {
        assert windows == windows[key := windows[key]];
        return false;
      }
      windows := windows[key := Window(windows[key].count + 1, windows[key].resetAt)];
      accepted := true;
    }
  }
}
