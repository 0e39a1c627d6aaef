/** The sliding-window limiter. `history` is bookkeeping of the model: every event
    ever accepted for a key, which the limiter itself forgets. */
module RateLimiter {

  /** The events after `low`, in order. */
  function After(events: seq<real>, low: real): seq<real> {
    if events == [] then []
    else
      var last := events[|events| - 1];
      var earlier := After(events[..|events| - 1], low);
      if last > low then earlier + [last] else earlier
  }

  /** How many events lie in the half-open interval from `low` up to `high`. */
  function CountWithin(events: seq<real>, low: real, high: real): nat {
    if events == [] then 0
    else
      var last := events[|events| - 1];
      CountWithin(events[..|events| - 1], low, high) + if low < last <= high then 1 else 0
  }

  predicate Nondecreasing(events: seq<real>) {
    forall i, k :: 0 <= i < k < |events| ==> events[i] <= events[k]
  }

  /** Any `max` events later, at least a window has passed. */
  predicate Spaced(events: seq<real>, max: nat, window: real) {
    forall i :: 0 <= i && i + max < |events| ==> events[i] <= events[i + max] - window
  }

  /** On a sorted history the events after `low` are a suffix of it. */
  lemma {:induction false} AfterIsSuffix(events: seq<real>, low: real)
    requires Nondecreasing(events)
    ensures |After(events, low)| <= |events|
    ensures After(events, low) == events[|events| - |After(events, low)|..]
    ensures forall i :: 0 <= i < |events| - |After(events, low)| ==> events[i] <= low
    ensures forall i :: |events| - |After(events, low)| <= i < |events| ==> events[i] > low
  {
    if events != [] {
      var n := |events| - 1;
      AfterIsSuffix(events[..n], low);
      if events[n] <= low {
        assert forall i :: 0 <= i < n ==> events[i] <= low;
      }
    }
  }

  /** Dropping events from the front while they are too old is keeping the others. */
  lemma {:induction false} DropOldFirst(events: seq<real>, low: real)
    requires events != [] && events[0] <= low
    ensures After(events, low) == After(events[1..], low)
  {
    var n := |events| - 1;
    if n == 0 {
      assert events[1..] == [];
      assert events[..0] == [];
    } else {
      DropOldFirst(events[..n], low);
      assert events[..n][1..] == events[1..][..n - 1];
    }
  }

  lemma AllRecent(events: seq<real>, low: real)
    requires Nondecreasing(events) && (events == [] || events[0] > low)
    ensures After(events, low) == events
  {
    AfterIsSuffix(events, low);
  }

  lemma {:induction false} CountIsAfter(events: seq<real>, low: real, high: real)
    requires forall i :: 0 <= i < |events| ==> events[i] <= high
    ensures CountWithin(events, low, high) == |After(events, low)|
  {
    if events != [] {
      CountIsAfter(events[..|events| - 1], low, high);
    }
  }

  /** No window ever holds more than `max` accepted events, wherever it ends. */
  lemma {:induction false} WindowsHoldAtMostMax(events: seq<real>, max: nat, window: real, end: real)
    requires Nondecreasing(events) && Spaced(events, max, window)
    ensures CountWithin(events, end - window, end) <= max
  {
    if events != [] {
      var n := |events| - 1;
      if events[n] > end {
        WindowsHoldAtMostMax(events[..n], max, window, end);
      } else {
        CountIsAfter(events, end - window, end);
        AfterIsSuffix(events, end - window);
        if n >= max {
          assert events[n - max] <= events[n - max + max] - window;
        }
      }
    }
  }

  lemma {:induction false} DroppedDoNotMatter(all: seq<real>, k: nat, low: real)
    requires k <= |all| && forall i :: 0 <= i < k ==> all[i] <= low
    ensures After(all[k..], low) == After(all, low)
  {
    if k == 0 {
      assert all[0..] == all;
    } else {
      DropOldFirst(all, low);
      DroppedDoNotMatter(all[1..], k - 1, low);
      assert all[1..][k - 1..] == all[k..];
    }
  }

  /** `q` is a suffix of `all`, the accepted events of a key up to `last`, and what
      it lacks is older than the window. */
  predicate Remembers(all: seq<real>, q: seq<real>, max: nat, window: real, last: real) {
    && Nondecreasing(all)
    && Spaced(all, max, window)
    && (forall i :: 0 <= i < |all| ==> all[i] <= last)
    && |q| <= |all|
    && q == all[|all| - |q|..]
    && forall i :: 0 <= i < |all| - |q| ==> all[i] <= last - window
  }

  lemma SuffixRemembers(all: seq<real>, max: nat, window: real, now: real)
    requires Nondecreasing(all) && Spaced(all, max, window)
    requires forall i :: 0 <= i < |all| ==> all[i] <= now
    ensures Remembers(all, After(all, now - window), max, window, now)
  {
    AfterIsSuffix(all, now - window);
  }

  /** A check at `now` trims the queue to the events in the window. */
  lemma TrimmedRemembers(all: seq<real>, q: seq<real>, max: nat, window: real, last: real, now: real)
    requires Remembers(all, q, max, window, last) && (all != [] ==> last <= now)
    ensures After(q, now - window) == After(all, now - window)
    ensures Remembers(all, After(all, now - window), max, window, now)
  {
    DroppedDoNotMatter(all, |all| - |q|, now - window);
    SuffixRemembers(all, max, window, now);
  }

  /** Accepting below the limit keeps any `max` events a window apart. */
  lemma AcceptRemembers(all: seq<real>, q: seq<real>, max: nat, window: real, now: real)
    requires Remembers(all, q, max, window, now) && |q| < max
    ensures Remembers(all + [now], q + [now], max, window, now)
  {
    var n := |all|;
    forall i | 0 <= i && i + max < n + 1
      ensures (all + [now])[i] <= (all + [now])[i + max] - window
    {
      assert i + max < n ==> all[i] <= all[i + max] - window;
    }
  }

  lemma LaterRemembers(all: seq<real>, q: seq<real>, max: nat, window: real, last: real, now: real)
    requires Remembers(all, q, max, window, last) && last <= now
    ensures Remembers(all, q, max, window, now)
  {
  }

  /** Pops from the front while the front is too old. */
  method Trim(queue: seq<real>, low: real) returns (q: seq<real>)
    requires Nondecreasing(queue)
    ensures q == After(queue, low)
  {
    q := queue;
    while q != [] && q[0] <= low
      invariant Nondecreasing(q) && After(q, low) == After(queue, low)
    {
      DropOldFirst(q, low);
      q := q[1..];
    }
    AllRecent(q, low);
  }

  function Lookup(m: map<string, seq<real>>, key: string): seq<real> {
    if key in m then m[key] else []
  }

  /** Every key's queue remembers its accepted events. */
  predicate AllRemember(history: map<string, seq<real>>, events: map<string, seq<real>>, max: nat, window: real,
                        last: real)
  {
    && events.Keys == history.Keys
    && forall key {:trigger Remembers(history[key], events[key], max, window, last)} :: key in history ==>
         Remembers(history[key], events[key], max, window, last)
  }

  lemma LookupRemembers(history: map<string, seq<real>>, events: map<string, seq<real>>, max: nat, window: real,
                        last: real, key: string)
    requires AllRemember(history, events, max, window, last)
    ensures Remembers(Lookup(history, key), Lookup(events, key), max, window, last)
  {
    if key in history {
      assert Remembers(history[key], events[key], max, window, last);
    }
  }

  lemma UpdateRemembers(history: map<string, seq<real>>, events: map<string, seq<real>>, max: nat, window: real,
                        last: real, now: real, key: string, all: seq<real>, q: seq<real>)
    requires AllRemember(history, events, max, window, last) && (history != map[] ==> last <= now)
    requires Remembers(all, q, max, window, now)
    ensures AllRemember(history[key := all], events[key := q], max, window, now)
  {
    var history', events' := history[key := all], events[key := q];
    forall other | other in history'
      ensures Remembers(history'[other], events'[other], max, window, now)
    {
      if other != key {
        assert Remembers(history[other], events[other], max, window, last);
        LaterRemembers(history[other], events[other], max, window, last, now);
      }
    }
  }

  /** The events after the window's start are those within it. */
  lemma RecentAreCounted(history: map<string, seq<real>>, events: map<string, seq<real>>, max: nat, window: real,
                         last: real, now: real, key: string)
    requires AllRemember(history, events, max, window, last) && (history != map[] ==> last <= now)
    ensures CountWithin(Lookup(history, key), now - window, now) == |After(Lookup(history, key), now - window)|
  {
    LookupRemembers(history, events, max, window, last, key);
    CountIsAfter(Lookup(history, key), now - window, now);
  }

  /** One key's part of a check. */
  method CheckQueue(queue: seq<real>, max: nat, window: real, now: real, key: string, ghost last: real,
                    ghost history: map<string, seq<real>>, ghost events: map<string, seq<real>>)
    returns (q: seq<real>, accepted: bool)
    requires AllRemember(history, events, max, window, last) && (history != map[] ==> last <= now)
    requires queue == Lookup(events, key)
    ensures var all := Lookup(history, key);
            && (accepted <==> |After(all, now - window)| < max)
            && q == (if accepted then After(all, now - window) + [now] else After(all, now - window))
            && AllRemember(history[key := if accepted then all + [now] else all], events[key := q], max, window, now)
  {
    ghost var all := Lookup(history, key);
    LookupRemembers(history, events, max, window, last, key);
    TrimmedRemembers(all, queue, max, window, last, now);
    q := Trim(queue, now - window);
    accepted := |q| < max;
    if accepted {
      AcceptRemembers(all, q, max, window, now);
      q := q + [now];
      all := all + [now];
    }
    UpdateRemembers(history, events, max, window, last, now, key, all, q);
  }

  class SlidingWindowLimiter {
    const max: nat
    const window: real
    var events: map<string, seq<real>>
    ghost var history: map<string, seq<real>>
    ghost var last: real

    constructor (max: nat, window: real)
      ensures Valid() && this.max == max && this.window == window
      ensures events == map[] && history == map[]
    {
      this.max, this.window := max, window;
      events, history, last := map[], map[], 0.0;
    }

    ghost predicate Valid()
      reads this
    {
      AllRemember(history, events, max, window, last)
    }

    /** Accepts an event at `now` exactly when fewer than `max` accepted events of
        this key are younger than the window; what it then holds of the key is the
        in-window suffix of the accepted history. */
    method Check(key: string, now: real) returns (accepted: bool)
      requires Valid() && (history != map[] ==> last <= now)
      modifies this
      ensures Valid() && last == now
      ensures accepted <==> CountWithin(Lookup(old(history), key), now - window, now) < max
      ensures var all := Lookup(old(history), key);
              var recent := After(all, now - window);
              && (accepted <==> |recent| < max)
              && history == old(history)[key := if accepted then all + [now] else all]
              && events == old(events)[key := if accepted then recent + [now] else recent]
    {
      var q;
      RecentAreCounted(history, events, max, window, last, now, key);
      q, accepted := CheckQueue(Lookup(events, key), max, window, now, key, last, history, events);
      events := events[key := q];
      ghost var all := Lookup(history, key);
      history := history[key := if accepted then all + [now] else all];
      last := now;
    }

    /** Forgets everything. */
    method Reset()
      requires Valid()
      modifies this
      ensures Valid() && events == map[] && history == map[]
    {
      events, history := map[], map[];
    }
  }

  /** The limit holds for every key and every window, wherever it ends. */
  lemma LimitHolds(limiter: SlidingWindowLimiter, key: string, end: real)
    requires limiter.Valid()
    ensures CountWithin(Lookup(limiter.history, key), end - limiter.window, end) <= limiter.max
  {
    LookupRemembers(limiter.history, limiter.events, limiter.max, limiter.window, limiter.last, key);
    WindowsHoldAtMostMax(Lookup(limiter.history, key), limiter.max, limiter.window, end);
  }
}
