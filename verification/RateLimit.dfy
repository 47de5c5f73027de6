/**
 The fixed-window counter in front of photo intake
 (birr-track-backend/src/shared/rate-limit/rate-limit.service.ts). Times are in milliseconds.
 */
module RateLimit {
  import opened Common

  /** A Redis counter; `dropAt` is None while no expiry has been set. */
  datatype Counter = Counter(count: nat, dropAt: Option<int>)

  /** INCR: a missing or dropped key counts from zero and has no expiry. */
  function Incremented(kept: Option<Counter>, now: int): Counter {
    if kept.Some? && (kept.value.dropAt.None? || now < kept.value.dropAt.value)
    then kept.value.(count := kept.value.count + 1)
    else Counter(1, None)
  }

  /** INCR, then EXPIRE with NX: an expiry that is there already stays. */
  function Consumed(kept: Option<Counter>, now: int, windowMs: int): Counter {
    var c := Incremented(kept, now);
    if c.dropAt.None? then c.(dropAt := Some(now + windowMs)) else c
  }

  /** The Redis call that fails, if one does. */
  datatype Failure = AtIncr | AtExpire

  class RateLimitService {
    var counters: map<string, Counter>
    var clock: int

    /** Fails open: whichever Redis call throws, the request is allowed, with a count of zero. */
    method Consume(key: string, limit: nat, windowSeconds: nat, failure: Option<Failure>)
      returns (allowed: bool, count: nat)
      modifies this`counters
      ensures var kept := if key in old(counters) then Some(old(counters)[key]) else None;
              match failure
              case Some(AtIncr) => allowed && count == 0 && counters == old(counters)
              case Some(AtExpire) => allowed && count == 0 && counters == old(counters)[key := Incremented(kept, clock)]
              case None =>
                var after := Consumed(kept, clock, 1000 * windowSeconds);
                counters == old(counters)[key := after] && count == after.count && (allowed <==> count <= limit)
    {
      if failure == Some(AtIncr) {
        return true, 0;
      }
      var kept := if key in counters then Some(counters[key]) else None;
      counters := counters[key := Incremented(kept, clock)];
      if failure == Some(AtExpire) {
        return true, 0;
      }
      count := counters[key].count;
      if counters[key].dropAt.None? {
        counters := counters[key := counters[key].(dropAt := Some(clock + 1000 * windowSeconds))];
      }
      allowed := count <= limit;
    }
  }

  // ------------------------------------------------------------------ a run of arrivals

  /** One arrival and the counter it left behind. */
  datatype Tally = Tally(time: int, counter: Counter)

  /** What the arrival found: the counter of the one before. */
  function Found(run: seq<Tally>, i: nat): Option<Counter>
    requires i <= |run|
  {
    if i == 0 then None else Some(run[i - 1].counter)
  }

  predicate TallyOk(run: seq<Tally>, w: int, i: nat)
    requires i < |run|
  {
    run[i].counter == Consumed(Found(run, i), run[i].time, w) && (i > 0 ==> run[i - 1].time <= run[i].time)
  }

  /** Arrivals of one key, in order, each consumed from the counter that the one before left. */
  predicate Run(run: seq<Tally>, w: int)
    decreases |run|
  {
    run == [] || (Run(run[..|run| - 1], w) && TallyOk(run, w, |run| - 1))
  }

  lemma {:induction false} RunAt(run: seq<Tally>, w: int, i: nat)
    requires Run(run, w) && i < |run|
    ensures TallyOk(run, w, i)
    decreases |run|
  {
    if i < |run| - 1 {
      RunAt(run[..|run| - 1], w, i);
    }
  }

  function Count(run: seq<Tally>, i: nat): nat
    requires i < |run|
  {
    run[i].counter.count
  }

  /** The window that the arrival fell in, named by its first instant. */
  function Start(run: seq<Tally>, w: int, i: nat): int
    requires i < |run|
  {
    var dropAt := run[i].counter.dropAt;
    if dropAt.Some? then dropAt.value - w else 0
  }

  predicate Admitted(run: seq<Tally>, limit: nat, i: nat)
    requires i < |run|
  {
    Count(run, i) <= limit
  }

  /** One arrival: it continues the window of the one before, or opens a window. */
  lemma {:induction false} Arrival(run: seq<Tally>, w: int, i: nat)
    requires i < |run| && Run(run, w)
    ensures run[i].counter.dropAt.Some?
    ensures if i > 0 && run[i].time < Start(run, w, i - 1) + w
            then Start(run, w, i) == Start(run, w, i - 1) && Count(run, i) == Count(run, i - 1) + 1
            else Start(run, w, i) == run[i].time && Count(run, i) == 1
    decreases i
  {
    RunAt(run, w, i);
    if i > 0 {
      Arrival(run, w, i - 1);
    }
  }

  /** Windows are told apart by their starts, and inside one the counts go up. */
  lemma {:induction false} WindowsAdvance(run: seq<Tally>, w: int, i: nat, j: nat)
    requires w > 0 && Run(run, w) && i <= j < |run|
    ensures Start(run, w, j) <= run[j].time < Start(run, w, j) + w && run[i].time <= run[j].time
    ensures Count(run, j) >= 1 && (Count(run, j) == 1 ==> run[j].time == Start(run, w, j))
    ensures (Start(run, w, i) == Start(run, w, j) && (i < j ==> Count(run, i) < Count(run, j)))
            || (Start(run, w, i) + w <= Start(run, w, j) && run[i].time < Start(run, w, j))
    decreases j
  {
    Arrival(run, w, j);
    if j > 0 {
      RunAt(run, w, j);
      WindowsAdvance(run, w, if i < j then i else j - 1, j - 1);
    }
  }

  // -------------------------------------------------------------------------- counting

  function Range(n: nat): (r: set<int>)
    ensures |r| == n && forall x :: x in r <==> 1 <= x <= n
  {
    if n == 0 then {} else Range(n - 1) + {n}
  }

  lemma {:induction false} ImageSize(s: set<nat>, code: nat -> int)
    requires forall i, j :: i in s && j in s && code(i) == code(j) ==> i == j
    ensures |set i | i in s :: code(i)| == |s|
  {
    if s != {} {
      var x :| x in s;
      ImageSize(s - {x}, code);
      assert (set i | i in s :: code(i)) == (set i | i in s - {x} :: code(i)) + {code(x)};
    }
  }

  /** Different elements with different codes between 1 and `n` are at most `n`. */
  lemma CodesBound(s: set<nat>, code: nat -> int, n: nat)
    requires forall i :: i in s ==> 1 <= code(i) <= n
    requires forall i, j :: i in s && j in s && code(i) == code(j) ==> i == j
    ensures |s| <= n
  {
    ImageSize(s, code);
    SubsetIsSmaller(set i | i in s :: code(i), Range(n));
  }

  /** In a run each window admits at most `limit`. */
  lemma WindowAdmitsAtMostLimit(run: seq<Tally>, w: int, limit: nat, start: int)
    requires w > 0 && Run(run, w)
    ensures |set i: nat | i < |run| && Start(run, w, i) == start && Admitted(run, limit, i)| <= limit
  {
    var s := set i: nat | i < |run| && Start(run, w, i) == start && Admitted(run, limit, i);
    var code := (i: nat) => if i < |run| then Count(run, i) else 0;
    forall i, j | i in s && j in s && code(i) == code(j) ensures i == j {
      WindowsAdvance(run, w, if i <= j then i else j, if i <= j then j else i);
    }
    forall i | i in s ensures 1 <= code(i) <= limit {
      WindowsAdvance(run, w, i, i);
    }
    CodesBound(s, code, limit);
  }

  // ------------------------------------------------------------------- throttle replies

  /** How often the reply for the first photo over the limit goes out. */
  function Throttles(run: seq<Tally>, limit: nat): nat {
    if run == [] then 0
    else Throttles(run[..|run| - 1], limit) + if Count(run, |run| - 1) == limit + 1 then 1 else 0
  }

  /** The windows with more than `limit` arrivals. */
  function Overfull(run: seq<Tally>, w: int, limit: nat): set<int> {
    set i | 0 <= i < |run| && Count(run, i) > limit :: Start(run, w, i)
  }

  /** A window becomes overfull with the arrival that is answered. */
  lemma OverfullStep(run: seq<Tally>, w: int, limit: nat)
    requires w > 0 && run != [] && Run(run, w)
    ensures var k := |run| - 1;
            && Overfull(run, w, limit) ==
               Overfull(run[..k], w, limit) + (if Count(run, k) > limit then {Start(run, w, k)} else {})
            && (Count(run, k) > limit ==>
                (Count(run, k) == limit + 1 <==> Start(run, w, k) !in Overfull(run[..k], w, limit)))
  {
    var k, front := |run| - 1, run[..|run| - 1];
    forall i | 0 <= i < k ensures Start(front, w, i) == Start(run, w, i) && Count(front, i) == Count(run, i)
                          && (Start(run, w, i) == Start(run, w, k) ==> Count(run, i) < Count(run, k)) {
      WindowsAdvance(run, w, i, k);
    }
    Arrival(run, w, k);
    if Count(run, k) > limit + 1 {
      assert Start(front, w, k - 1) in Overfull(front, w, limit);
    }
  }

  /** Exactly one throttle reply for each overfull window. */
  lemma {:induction false} OneThrottleReplyPerOverfullWindow(run: seq<Tally>, w: int, limit: nat)
    requires w > 0 && Run(run, w)
    ensures Throttles(run, limit) == |Overfull(run, w, limit)|
    decreases |run|
  {
    if run == [] {
      assert Overfull(run, w, limit) == {};
    } else {
      OneThrottleReplyPerOverfullWindow(run[..|run| - 1], w, limit);
      OverfullStep(run, w, limit);
    }
  }

  // --------------------------------------------------------------- intervals of one window

  /** The admitted arrivals of `[from, from + w)`. */
  function AdmittedWithin(run: seq<Tally>, w: int, limit: nat, from: int): set<nat> {
    set i: nat | i < |run| && from <= run[i].time < from + w && Admitted(run, limit, i)
  }

  /** Places the arrivals of the last window below `limit + 1`, those of the window before above. */
  function Code(run: seq<Tally>, w: int, limit: nat, last: int, i: nat): int {
    if i >= |run| then 0
    else if Start(run, w, i) == last then Count(run, i)
    else limit + Count(run, i) - 1
  }

  /** Of two windows that meet the interval, the earlier one opened before it. */
  lemma EarlierWindowOpenedBefore(run: seq<Tally>, w: int, from: int, i: nat, k: nat)
    requires w > 0 && Run(run, w) && i <= k < |run|
    requires from <= run[i].time && run[k].time < from + w && Start(run, w, i) != Start(run, w, k)
    ensures Start(run, w, i) < from && Count(run, i) >= 2
  {
    WindowsAdvance(run, w, i, k);
    WindowsAdvance(run, w, i, i);
  }

  /** No third window fits: two arrivals outside the last window share theirs. */
  lemma SameCodeSameArrival(run: seq<Tally>, w: int, limit: nat, from: int, k: nat, i: nat, j: nat)
    requires w > 0 && limit > 0 && Run(run, w) && i <= j <= k < |run|
    requires from <= run[i].time && run[k].time < from + w
    requires Admitted(run, limit, i) && Admitted(run, limit, j)
    requires Code(run, w, limit, Start(run, w, k), i) == Code(run, w, limit, Start(run, w, k), j)
    ensures i == j
  {
    WindowsAdvance(run, w, i, j);
    if Start(run, w, i) != Start(run, w, k) {
      EarlierWindowOpenedBefore(run, w, from, i, k);
    }
    if Start(run, w, j) != Start(run, w, k) {
      EarlierWindowOpenedBefore(run, w, from, j, k);
    }
  }

  lemma {:induction false} Largest(s: set<nat>) returns (k: nat)
    requires s != {}
    ensures k in s && forall i :: i in s ==> i <= k
  {
    var x :| x in s;
    if s == {x} {
      return x;
    }
    var y := Largest(s - {x});
    k := if x <= y then y else x;
    assert forall i :: i in s ==> i == x || i in s - {x};
  }

  /**
   Any interval of one window's length admits at most `2 * limit - 1` arrivals: it meets at most
   two windows, and when it meets two it misses the first arrival of the earlier one.
   */
  lemma IntervalAdmitsLessThanTwiceLimit(run: seq<Tally>, w: int, limit: nat, from: int)
    requires w > 0 && Run(run, w)
    ensures |AdmittedWithin(run, w, limit, from)| <= Max(0, 2 * limit - 1)
  {
    var s := AdmittedWithin(run, w, limit, from);
    if s == {} {
      return;
    }
    var k := Largest(s);
    WindowsAdvance(run, w, k, k);
    var last := Start(run, w, k);
    var code := (i: nat) => Code(run, w, limit, last, i);
    forall i | i in s ensures 1 <= code(i) <= 2 * limit - 1 {
      WindowsAdvance(run, w, i, i);
      if Start(run, w, i) != last {
        EarlierWindowOpenedBefore(run, w, from, i, k);
      }
    }
    forall i, j | i in s && j in s && code(i) == code(j) ensures i == j {
      SameCodeSameArrival(run, w, limit, from, k, if i <= j then i else j, if i <= j then j else i);
    }
    CodesBound(s, code, 2 * limit - 1);
  }

  // ------------------------------------------------------------------ the bound is attained

  /** One arrival opens a window, the rest of the limit comes at its end, a full limit right behind it. */
  function Burst(w: int, limit: nat): (run: seq<Tally>)
    ensures |run| == 2 * limit
  {
    seq(2 * limit, i requires 0 <= i =>
      if i < limit
      then Tally(if i == 0 then 0 else w - 1, Counter(i + 1, Some(w)))
      else Tally(w, Counter(i - limit + 1, Some(2 * w))))
  }

  lemma {:induction false} BurstRuns(w: int, limit: nat, n: nat)
    requires w > 1 && n <= 2 * limit
    ensures Run(Burst(w, limit)[..n], w)
    decreases n
  {
    if n > 0 {
      BurstRuns(w, limit, n - 1);
      assert Burst(w, limit)[..n][..n - 1] == Burst(w, limit)[..n - 1];
    }
  }

  /** `2 * limit - 1` is exact. */
  lemma BoundIsAttained(w: int, limit: nat)
    requires w > 1 && limit > 0
    ensures Run(Burst(w, limit), w) && |AdmittedWithin(Burst(w, limit), w, limit, w - 1)| == 2 * limit - 1
  {
    var run := Burst(w, limit);
    BurstRuns(w, limit, |run|);
    assert run[..|run|] == run;
    SubsetIsSmaller(Range(2 * limit - 1), AdmittedWithin(run, w, limit, w - 1));
    IntervalAdmitsLessThanTwiceLimit(run, w, limit, w - 1);
  }
}
