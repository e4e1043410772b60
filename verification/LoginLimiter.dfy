/** go-backend/internal/api/ratelimit.go: the fixed-window login limiter with its garbage collector.
    Times are integers (nanoseconds); the clock may stand still but does not run backwards. */
module LoginLimiter {

  type Key = string

  datatype Window = Window(count: int, reset: int)

  type Hits = map<Key, Window>

  /** One attempt: a missing or expired window is replaced by a fresh one, whatever the maximum. */
  function Allow(max: int, interval: int, hits: Hits, key: Key, now: int): (Hits, bool) {
    if key !in hits || now > hits[key].reset then (hits[key := Window(1, now + interval)], true)
    else if hits[key].count >= max then (hits, false)
    else (hits[key := hits[key].(count := hits[key].count + 1)], true)
  }

  function Collect(hits: Hits, now: int): Hits {
    map k | k in hits && !(now > hits[k].reset) :: hits[k]
  }

  datatype Event = Attempt(key: Key, time: int) | Gc(time: int)

  predicate Clocked(events: seq<Event>) {
    forall i, j :: 0 <= i < j < |events| ==> events[i].time <= events[j].time
  }

  /** The table after a history; with `gc` false the collector steps do nothing. */
  function After(max: int, interval: int, events: seq<Event>, gc: bool): Hits {
    if events == [] then map[]
    else
      var hits := After(max, interval, events[..|events| - 1], gc);
      match events[|events| - 1]
      case Attempt(key, time) => Allow(max, interval, hits, key, time).0
      case Gc(time) => if gc then Collect(hits, time) else hits
  }

  /** The answer to a further attempt. */
  predicate Answer(max: int, interval: int, events: seq<Event>, key: Key, now: int, gc: bool) {
    Allow(max, interval, After(max, interval, events, gc), key, now).1
  }

  // ----- The collector cannot be observed -----

  /** The collected table misses only windows that have expired by `now`. */
  predicate Collected(small: Hits, full: Hits, now: int) {
    && (forall k :: k in small ==> k in full && small[k] == full[k])
    && (forall k :: k in full && k !in small ==> now > full[k].reset)
  }

  lemma {:induction false} GcKeepsLiveWindows(max: int, interval: int, events: seq<Event>, now: int)
    requires Clocked(events) && (forall i :: 0 <= i < |events| ==> events[i].time <= now)
    ensures Collected(After(max, interval, events, true), After(max, interval, events, false), now)
  {
    if events != [] {
      var past, ev := events[..|events| - 1], events[|events| - 1];
      GcKeepsLiveWindows(max, interval, past, ev.time);
    }
  }

  /** For every history of attempts and collections on a clock that never runs backwards, the limiter
      answers the next attempt exactly as one that never collects. */
  lemma GcIsInvisible(max: int, interval: int, events: seq<Event>, key: Key, now: int)
    requires Clocked(events) && (forall i :: 0 <= i < |events| ==> events[i].time <= now)
    ensures Answer(max, interval, events, key, now, true) == Answer(max, interval, events, key, now, false)
  {
    GcKeepsLiveWindows(max, interval, events, now);
  }

  // ----- How many attempts fit into one interval -----

  function AtLeastOne(max: int): int {
    if max < 1 then 1 else max
  }

  /** Allowed attempts of `key` at times in the closed span [a, a + interval]. */
  function CountAllowed(max: int, interval: int, events: seq<Event>, key: Key, a: int, gc: bool): nat {
    if events == [] then 0
    else
      var past, ev := events[..|events| - 1], events[|events| - 1];
      CountAllowed(max, interval, past, key, a, gc) +
      if ev.Attempt? && ev.key == key && a <= ev.time <= a + interval && Answer(max, interval, past, key, ev.time, gc)
      then 1 else 0
  }

  lemma {:induction false} CountsAgree(max: int, interval: int, events: seq<Event>, key: Key, a: int)
    requires Clocked(events)
    ensures CountAllowed(max, interval, events, key, a, true) == CountAllowed(max, interval, events, key, a, false)
  {
    if events != [] {
      CountsAgree(max, interval, events[..|events| - 1], key, a);
      GcIsInvisible(max, interval, events[..|events| - 1], key, events[|events| - 1].time);
    }
  }

  /** What the current window of the key says about the count, depending on where the window starts. */
  predicate CountFits(m: int, interval: int, hits: Hits, key: Key, a: int, count: int, last: int) {
    if key !in hits then count == 0
    else
      var n := hits[key].count;
      var start := hits[key].reset - interval;
      && 1 <= n <= m && start <= last
      && (last < a ==> count == 0)
      && (start < a ==> count <= n - 1)
      && (a <= start <= a + interval ==> count <= m - 1 + n)
      && count <= 2 * m - 1
  }

  lemma FitsStep(max: int, interval: int, hits: Hits, key: Key, a: int, count: int, last: int, now: int)
    requires CountFits(AtLeastOne(max), interval, hits, key, a, count, last) && last <= now
    ensures var (hits', ok) := Allow(max, interval, hits, key, now);
            var count' := if ok && a <= now <= a + interval then count + 1 else count;
            CountFits(AtLeastOne(max), interval, hits', key, a, count', now)
  {
  }

  lemma {:induction false} CountInvariant(max: int, interval: int, events: seq<Event>, key: Key, a: int, last: int)
    requires Clocked(events) && (forall i :: 0 <= i < |events| ==> events[i].time <= last)
    ensures CountFits(AtLeastOne(max), interval, After(max, interval, events, false), key, a,
                      CountAllowed(max, interval, events, key, a, false), last)
  {
    if events != [] {
      var past, ev := events[..|events| - 1], events[|events| - 1];
      CountInvariant(max, interval, past, key, a, ev.time);
      if ev.Attempt? {
        FitsStep(max, interval, After(max, interval, past, false), ev.key, a,
                 CountAllowed(max, interval, past, ev.key, a, false), ev.time, ev.time) by {
          CountInvariant(max, interval, past, ev.key, a, ev.time);
        }
      }
    }
  }

  /** In every history, collections included, any closed span as long as the interval holds at most
      2 * max - 1 allowed attempts of a key (1 when the maximum is below one). */
  lemma SpanBound(max: int, interval: int, events: seq<Event>, key: Key, a: int)
    requires Clocked(events)
    ensures CountAllowed(max, interval, events, key, a, true) <= 2 * AtLeastOne(max) - 1
  {
    CountsAgree(max, interval, events, key, a);
    if events != [] {
      CountInvariant(max, interval, events, key, a, events[|events| - 1].time);
    }
  }

  // ----- Nobody is refused without cause -----

  lemma {:induction false} WindowStarted(max: int, interval: int, events: seq<Event>, key: Key, now: int)
    requires interval >= 0 && Clocked(events) && (forall i :: 0 <= i < |events| ==> events[i].time <= now)
    ensures var hits := After(max, interval, events, false);
            key in hits ==> hits[key].reset - interval <= now
  {
    if events != [] {
      WindowStarted(max, interval, events[..|events| - 1], key, now);
    }
  }

  lemma {:induction false} WindowCounted(max: int, interval: int, events: seq<Event>, key: Key)
    requires interval >= 0 && Clocked(events)
    ensures var hits := After(max, interval, events, false);
            key in hits ==> CountAllowed(max, interval, events, key, hits[key].reset - interval, false) >= hits[key].count
  {
    if events != [] {
      WindowCounted(max, interval, events[..|events| - 1], key);
      WindowStarted(max, interval, events[..|events| - 1], key, events[|events| - 1].time);
    }
  }

  /** In every history, collections included, an attempt is refused only when at least the maximum of attempts with that
      key have been allowed in a span that began no more than an interval ago. */
  lemma {:induction false} RefusedOnlyWhenFull(max: int, interval: int, events: seq<Event>, key: Key, now: int)
    returns (start: int)
    requires interval >= 0 && Clocked(events) && (forall i :: 0 <= i < |events| ==> events[i].time <= now)
    requires !Answer(max, interval, events, key, now, true)
    ensures now - interval <= start <= now && CountAllowed(max, interval, events, key, start, true) >= max
  {
    GcIsInvisible(max, interval, events, key, now);
    WindowCounted(max, interval, events, key);
    WindowStarted(max, interval, events, key, now);
    start := After(max, interval, events, false)[key].reset - interval;
    CountsAgree(max, interval, events, key, start);
  }

  // ----- The bound is attained -----

  function Burst(n: nat, key: Key, time: int): seq<Event> {
    seq(n, i => Attempt(key, time))
  }

  /** The key's window after a history, and how many of its attempts in the span were allowed. */
  predicate Stands(max: int, interval: int, events: seq<Event>, key: Key, a: int, w: Window, count: int) {
    && key in After(max, interval, events, true) && After(max, interval, events, true)[key] == w
    && CountAllowed(max, interval, events, key, a, true) == count
  }

  /** One more attempt inside the span: counted within the window's budget, or in a fresh window after it. */
  lemma {:induction false} OneCounted(max: int, interval: int, events: seq<Event>, key: Key, a: int, w: Window,
                                      count: int, time: int)
    requires Stands(max, interval, events, key, a, w, count) && a <= time <= a + interval
    requires time <= w.reset ==> w.count < max
    ensures Stands(max, interval, events + [Attempt(key, time)], key, a,
                   if time <= w.reset then Window(w.count + 1, w.reset) else Window(1, time + interval), count + 1)
  {
    var all := events + [Attempt(key, time)];
    assert all[..|all| - 1] == events;
  }

  lemma BurstBack(events: seq<Event>, n: nat, key: Key, time: int)
    requires n > 0
    ensures events + Burst(n, key, time) == events + Burst(n - 1, key, time) + [Attempt(key, time)]
  {
  }

  /** `n` attempts at one time inside the span, all within the window's budget, are all counted. */
  lemma {:induction false} BurstCounted(max: int, interval: int, events: seq<Event>, key: Key, a: int, w: Window,
                                        count: int, n: nat, time: int)
    requires Stands(max, interval, events, key, a, w, count) && a <= time <= a + interval
    requires time <= w.reset && w.count + n <= max
    ensures Stands(max, interval, events + Burst(n, key, time), key, a, Window(w.count + n, w.reset), count + n)
    decreases n
  {
    if n == 0 {
      assert events + Burst(n, key, time) == events;
    } else {
      BurstCounted(max, interval, events, key, a, w, count, n - 1, time);
      OneCounted(max, interval, events + Burst(n - 1, key, time), key, a, Window(w.count + (n - 1), w.reset),
                 count + (n - 1), time);
      BurstBack(events, n, key, time);
    }
  }

  /** One attempt at time zero, the rest of the first window at its very end, then a full second window. */
  function Worst(max: int, interval: int): seq<Event>
    requires max >= 1
  {
    [Attempt("ip", 0)] + Burst(max - 1, "ip", interval) + [Attempt("ip", interval + 1)] + Burst(max - 1, "ip", interval + 1)
  }

  lemma FirstAttempt(max: int, interval: int)
    requires interval >= 1
    ensures Stands(max, interval, [Attempt("ip", 0)], "ip", 1, Window(1, interval), 0)
  {
    assert [Attempt("ip", 0)][..0] == [];
  }

  lemma WorstIsClocked(max: int, interval: int)
    requires max >= 1 && interval >= 1
    ensures Clocked(Worst(max, interval))
  {
    assert forall i :: 0 <= i < max ==> Worst(max, interval)[i].time <= interval;
    assert forall i :: max <= i < 2 * max ==> Worst(max, interval)[i].time == interval + 1;
  }

  lemma WorstUpTo(max: int, interval: int, e1: seq<Event>)
    requires max >= 1 && interval >= 1 && e1 == [Attempt("ip", 0)] + Burst(max - 1, "ip", interval)
    ensures Stands(max, interval, e1 + [Attempt("ip", interval + 1)], "ip", 1, Window(1, interval + 1 + interval), max)
  {
    FirstAttempt(max, interval);
    BurstCounted(max, interval, [Attempt("ip", 0)], "ip", 1, Window(1, interval), 0, max - 1, interval);
    OneCounted(max, interval, e1, "ip", 1, Window(max, interval), max - 1, interval + 1);
  }

  /** For every maximum of at least one and every positive interval the bound is reached. */
  lemma SpanBoundIsTight(max: int, interval: int)
    requires max >= 1 && interval >= 1
    ensures Clocked(Worst(max, interval))
    ensures CountAllowed(max, interval, Worst(max, interval), "ip", 1, true) == 2 * max - 1
  {
    WorstIsClocked(max, interval);
    var e1 := [Attempt("ip", 0)] + Burst(max - 1, "ip", interval);
    WorstUpTo(max, interval, e1);
    BurstCounted(max, interval, e1 + [Attempt("ip", interval + 1)], "ip", 1,
                 Window(1, interval + 1 + interval), max, max - 1, interval + 1);
  }

  // ----- The mutable limiter -----

  class Limiter {
    const max: int
    const interval: int
    var hits: Hits
    ghost var history: seq<Event>

    ghost predicate Valid()
      reads this
    {
      hits == After(max, interval, history, true)
    }

    constructor (max: int, interval: int)
      ensures this.max == max && this.interval == interval && history == [] && Valid()
    {
      this.max, this.interval := max, interval;
      hits, history := map[], [];
    }

    method Allow(key: Key, now: int) returns (ok: bool)
      requires Valid()
      modifies this
      ensures Valid() && history == old(history) + [Attempt(key, now)]
      ensures ok == Answer(max, interval, old(history), key, now, true)
    {
      if key !in hits || now > hits[key].reset {
        hits := hits[key := Window(1, now + interval)];
        ok := true;
      } else if hits[key].count >= max {
        ok := false;
      } else {
        hits := hits[key := hits[key].(count := hits[key].count + 1)];
        ok := true;
      }
      history := history + [Attempt(key, now)];
      assert history[..|history| - 1] == old(history);
    }

    /** One tick of the collector: visits every key and deletes the expired windows. */
    method CollectExpired(now: int)
      requires Valid()
      modifies this
      ensures Valid() && history == old(history) + [Gc(now)]
    {
      ghost var before := hits;
      var keys := hits.Keys;
      while keys != {}
        invariant keys <= hits.Keys <= before.Keys
        invariant forall k :: k in hits ==> hits[k] == before[k]
        invariant forall k :: k in before.Keys - keys ==> (k in hits <==> !(now > before[k].reset))
        invariant history == old(history)
        decreases |keys|
      {
        var k :| k in keys;
        if now > hits[k].reset {
          hits := hits - {k};
        }
        keys := keys - {k};
      }
      assert hits == Collect(before, now);
      history := history + [Gc(now)];
      assert history[..|history| - 1] == old(history);
    }
  }
}
