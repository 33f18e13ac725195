/** The ten buckets that hold the completions of the last second (record and
    Snapshot, internal/app/loadtest.go), against the unbounded list of ticks. */
module RateRing {

  const WIDTH := 10

  datatype Bucket = Bucket(tick: nat, count: nat)

  predicate InWindow(tick: nat, now: nat) {
    tick <= now < tick + WIDTH
  }

  /** One completion at `tick`. */
  function Put(b: seq<Bucket>, tick: nat): seq<Bucket>
    requires |b| == WIDTH
  {
    var i := tick % WIDTH;
    b[i := Bucket(tick, if b[i].tick == tick then b[i].count + 1 else 1)]
  }

  /** What the buckets add up to at `now`. */
  function Total(b: seq<Bucket>, now: nat): nat {
    if b == [] then 0
    else
      var last := b[|b| - 1];
      Total(b[..|b| - 1], now) + if InWindow(last.tick, now) then last.count else 0
  }

  function Empty(): (b: seq<Bucket>)
    ensures |b| == WIDTH && Shows(b, [])
  {
    seq(WIDTH, i => Bucket(0, 0))
  }

  method Clear(buckets: array<Bucket>)
    requires buckets.Length == WIDTH
    modifies buckets
    ensures buckets[..] == Empty()
  {
    forall i | 0 <= i < buckets.Length {
      buckets[i] := Bucket(0, 0);
    }
  }

  method Count(buckets: array<Bucket>, tick: nat)
    requires buckets.Length == WIDTH
    modifies buckets
    ensures buckets[..] == Put(old(buckets[..]), tick)
  {
    var i := tick % WIDTH;
    if buckets[i].tick != tick {
      buckets[i] := Bucket(tick, 0);
    }
    buckets[i] := buckets[i].(count := buckets[i].count + 1);
  }

  method Rate(buckets: array<Bucket>, now: nat) returns (total: nat)
    ensures total == Total(buckets[..], now)
  {
    total := 0;
    for k := 0 to buckets.Length
      invariant total == Total(buckets[..k], now)
    {
      assert buckets[..k + 1][..k] == buckets[..k];
      if InWindow(buckets[k].tick, now) {
        total := total + buckets[k].count;
      }
    }
    assert buckets[..buckets.Length] == buckets[..];
  }

  // ---- the unbounded list --------------------------------------------------

  /** A later completion took the bucket of completion `i` for another tick. */
  ghost predicate Overwritten(log: seq<nat>, i: nat)
    requires i < |log|
  {
    exists j :: i < j < |log| && log[j] % WIDTH == log[i] % WIDTH && log[j] != log[i]
  }

  /** The completions that bucket `r` still counts. */
  ghost function Kept(log: seq<nat>, r: nat): set<nat> {
    set i: nat | i < |log| && log[i] % WIDTH == r && !Overwritten(log, i)
  }

  /** The completions in the last `WIDTH` ticks. */
  function Window(log: seq<nat>, now: nat): set<nat> {
    set i: nat | i < |log| && log[i] <= now && now - log[i] < 10
  }

  ghost function Visible(log: seq<nat>, now: nat): set<nat> {
    set i: nat | i < |log| && log[i] <= now && now - log[i] < 10 && !Overwritten(log, i)
  }

  /** The buckets hold what a list of completions left in them. */
  ghost predicate Shows(b: seq<Bucket>, log: seq<nat>) {
    && |b| == WIDTH
    && forall r :: 0 <= r < WIDTH ==> BucketShows(b[r], log, r)
  }

  ghost predicate BucketShows(bucket: Bucket, log: seq<nat>, r: nat) {
    && bucket.count == |Kept(log, r)|
    && forall i :: i in Kept(log, r) ==> log[i] == bucket.tick
  }

  lemma OverwrittenAppend(log: seq<nat>, t: nat, i: nat)
    requires i < |log|
    ensures Overwritten(log + [t], i) <==> Overwritten(log, i) || (t % WIDTH == log[i] % WIDTH && t != log[i])
  {
    var more := log + [t];
    if Overwritten(log, i) {
      var j :| i < j < |log| && log[j] % WIDTH == log[i] % WIDTH && log[j] != log[i];
      assert more[j] == log[j] && more[i] == log[i];
    } else if t % WIDTH == log[i] % WIDTH && t != log[i] {
      assert more[|log|] == t && more[i] == log[i];
    } else {
      forall j | i < j < |more| ensures more[j] % WIDTH != more[i] % WIDTH || more[j] == more[i] {
        if j < |log| {
          assert more[j] == log[j];
        }
      }
    }
  }

  /** Recording a completion keeps the buckets in step with the list. */
  lemma PutShows(b: seq<Bucket>, log: seq<nat>, t: nat)
    requires Shows(b, log)
    ensures Shows(Put(b, t), log + [t])
  {
    var more := log + [t];
    forall i: nat | i < |log|
      ensures Overwritten(more, i) <==> Overwritten(log, i) || (t % WIDTH == log[i] % WIDTH && t != log[i])
    {
      OverwrittenAppend(log, t, i);
    }
    assert !Overwritten(more, |log|);
    forall r | 0 <= r < WIDTH ensures BucketShows(Put(b, t)[r], more, r) {
      assert BucketShows(b[r], log, r);
      if r != t % WIDTH {
        assert Kept(more, r) == Kept(log, r);
      } else if b[r].tick == t {
        assert Kept(more, r) == Kept(log, r) + {|log|};
      } else {
        forall i: nat | i < |log| ensures i !in Kept(more, r) {
          assert i in Kept(log, r) ==> log[i] == b[r].tick;
        }
        assert Kept(more, r) == {|log|};
      }
    }
  }

  ghost function VisibleBelow(log: seq<nat>, now: nat, k: nat): set<nat> {
    set i: nat | i < |log| && InWindow(log[i], now) && !Overwritten(log, i) && log[i] % WIDTH < k
  }

  lemma {:induction false} Disjoint(a: set<nat>, b: set<nat>)
    requires a !! b
    ensures |a + b| == |a| + |b|
  {}

  lemma {:induction false} NextBucketSeen(log: seq<nat>, now: nat, k: nat, tick: nat)
    requires 0 < k && InWindow(tick, now) && forall i :: i in Kept(log, k - 1) ==> log[i] == tick
    ensures VisibleBelow(log, now, k) == VisibleBelow(log, now, k - 1) + Kept(log, k - 1)
    ensures VisibleBelow(log, now, k - 1) !! Kept(log, k - 1)
  {}

  lemma {:induction false} NextBucketUnseen(log: seq<nat>, now: nat, k: nat, tick: nat)
    requires 0 < k && !InWindow(tick, now) && forall i :: i in Kept(log, k - 1) ==> log[i] == tick
    ensures VisibleBelow(log, now, k) == VisibleBelow(log, now, k - 1)
  {}

  lemma {:induction false} TotalBelow(b: seq<Bucket>, log: seq<nat>, now: nat, k: nat)
    requires Shows(b, log) && k <= WIDTH
    ensures Total(b[..k], now) == |VisibleBelow(log, now, k)|
  {
    if k == 0 {
      assert VisibleBelow(log, now, 0) == {};
    } else {
      TotalBelow(b, log, now, k - 1);
      assert b[..k][..k - 1] == b[..k - 1];
      assert BucketShows(b[k - 1], log, k - 1);
      var less, kept := VisibleBelow(log, now, k - 1), Kept(log, k - 1);
      if InWindow(b[k - 1].tick, now) {
        NextBucketSeen(log, now, k, b[k - 1].tick);
        Disjoint(less, kept);
      } else {
        NextBucketUnseen(log, now, k, b[k - 1].tick);
      }
    }
  }

  /** For every list of completions, in any order, and every snapshot tick: the
      sum is the number of completions in the window that were not overwritten. */
  lemma RingTotal(b: seq<Bucket>, log: seq<nat>, now: nat)
    requires Shows(b, log)
    ensures Total(b, now) == |Visible(log, now)|
  {
    TotalBelow(b, log, now, WIDTH);
    assert b[..WIDTH] == b;
    assert VisibleBelow(log, now, WIDTH) == Visible(log, now);
  }

  /** So it is the sliding-window count exactly when nothing in the window was
      overwritten. */
  lemma RingAgreesIff(b: seq<Bucket>, log: seq<nat>, now: nat)
    requires Shows(b, log)
    ensures Total(b, now) <= |Window(log, now)|
    ensures Total(b, now) == |Window(log, now)| <==> forall i :: i in Window(log, now) ==> !Overwritten(log, i)
  {
    RingTotal(b, log, now);
    var shown, all := Visible(log, now), Window(log, now);
    assert all == shown + (all - shown);
    if |shown| == |all| {
      assert all - shown == {};
    } else {
      assert shown != all;
      assert exists i :: i in all && i !in shown;
    }
  }

  ghost predicate Nondecreasing(log: seq<nat>) {
    forall i, j :: 0 <= i < j < |log| ==> log[i] <= log[j]
  }

  /** Two ticks in one bucket are a whole turn of the ring apart. */
  lemma {:induction false} SameBucket(a: nat, b: nat)
    requires a % WIDTH == b % WIDTH && a <= b < a + WIDTH
    ensures a == b
  {}

  lemma {:induction false} NotOverwritten(log: seq<nat>, now: nat, i: nat)
    requires Nondecreasing(log) && (forall t :: t in log ==> t <= now) && i in Window(log, now)
    ensures !Overwritten(log, i)
  {
    forall j | i < j < |log| && log[j] % WIDTH == log[i] % WIDTH ensures log[j] == log[i] {
      assert log[j] in log;
      SameBucket(log[i], log[j]);
    }
  }

  /** On a clock that does not step back the ring is the sliding window. */
  lemma RingAgrees(b: seq<Bucket>, log: seq<nat>, now: nat)
    requires Shows(b, log) && Nondecreasing(log)
    requires forall t :: t in log ==> t <= now
    ensures Total(b, now) == |Window(log, now)|
  {
    forall i | i in Window(log, now) ensures !Overwritten(log, i) { NotOverwritten(log, now, i); }
    RingAgreesIff(b, log, now);
  }

  /** When the clock steps back a completion inside the window can go missing. */
  lemma ClockStepsBack() returns (log: seq<nat>, b: seq<Bucket>)
    ensures Shows(b, log) && Total(b, 15) == 0 && |Window(log, 15)| == 1
  {
    log, b := [15, 5], Put(Put(Empty(), 15), 5);
    PutShows(Empty(), [], 15);
    assert [] + [15] == [15];
    PutShows(Put(Empty(), 15), [15], 5);
    assert [15] + [5] == log;
    assert Window(log, 15) == {0};
    RingTotal(b, log, 15);
    assert log[1] % WIDTH == log[0] % WIDTH && Overwritten(log, 0);
    assert Visible(log, 15) == {};
  }
}
