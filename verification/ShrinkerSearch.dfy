/** When the binary search over window lengths finds the shortest window, and when it does not. */
module ShrinkerSearch {
  import opened Wrappers
  import opened Ops
  import opened Shrinker
  import opened ShrinkerTheorems

  /** The window of this length at this position reproduces. */
  ghost predicate Hit(o: Oracle, ops: seq<FrontendOp>, length: nat, i: nat) {
    0 < length && i + length <= |ops| && o(0, Slice(ops, i, length))
  }

  ghost predicate HasWindow(o: Oracle, ops: seq<FrontendOp>, length: nat) {
    exists i: nat :: Hit(o, ops, length, i)
  }

  /** The leftmost reproducing window of a length. */
  ghost predicate IsLeftmost(o: Oracle, ops: seq<FrontendOp>, length: nat, w: seq<FrontendOp>) {
    exists i: nat :: Hit(o, ops, length, i) && w == Slice(ops, i, length)
                     && forall j: nat :: j < i ==> !Hit(o, ops, length, j)
  }

  lemma {:induction false} FirstWindowIsFirst(o: Oracle, ops: seq<FrontendOp>, length: nat, i: nat, clock: nat)
    returns (k: nat)
    requires Steady(o) && 0 < length
    ensures var p := FirstWindow(o, ops, length, i, clock);
      && (p.found.None? ==> forall j: nat :: i <= j ==> !Hit(o, ops, length, j))
      && (p.found.Some? ==> i <= k && Hit(o, ops, length, k) && p.found.value == Slice(ops, k, length)
                            && forall j: nat :: i <= j < k ==> !Hit(o, ops, length, j))
    decreases |ops| - i
  {
    k := i;
    if i + length <= |ops| {
      var c := Slice(ops, i, length);
      assert o(clock, c) == o(0, c);
      if !Accepts(o, clock, c) {
        k := FirstWindowIsFirst(o, ops, length, i + 1, Tick(c, clock));
      }
    }
  }

  /** Trying the windows of one length finds the leftmost that reproduces, if there is one. */
  lemma ProbeFindsLeftmost(o: Oracle, ops: seq<FrontendOp>, length: nat, clock: nat)
    requires Steady(o) && 0 < length <= |ops|
    ensures var p := FirstWindow(o, ops, length, 0, clock);
      && (p.found.Some? <==> HasWindow(o, ops, length))
      && (p.found.Some? ==> IsLeftmost(o, ops, length, p.found.value) && |p.found.value| == length)
  {
    var k := FirstWindowIsFirst(o, ops, length, 0, clock);
  }

  /** Every longer length on the way to the target has a reproducing window of its own. */
  ghost predicate PathIsHit(o: Oracle, ops: seq<FrontendOp>, lo: nat, hi: nat, target: nat) {
    forall m :: m in Probed(lo, hi, target) && m > target ==> HasWindow(o, ops, m)
  }

  lemma PathStep(o: Oracle, ops: seq<FrontendOp>, lo: nat, hi: nat, target: nat, mid: nat)
    requires lo <= target <= hi && mid == (lo + hi) / 2
    ensures lo <= mid <= hi
    ensures PathIsHit(o, ops, lo, hi, target) <==>
      if mid < target then PathIsHit(o, ops, mid + 1, hi, target)
      else if mid == target then true
      else HasWindow(o, ops, mid) && PathIsHit(o, ops, lo, mid - 1, target)
  {
    assert target > mid ==> Probed(lo, hi, target) == [mid] + Probed(mid + 1, hi, target);
    assert target < mid ==> Probed(lo, hi, target) == [mid] + Probed(lo, mid - 1, target);
  }

  /** The same, probe by probe. */
  ghost predicate HitsAlong(o: Oracle, ops: seq<FrontendOp>, lo: nat, hi: nat, target: nat)
    decreases hi + 1 - lo
  {
    lo <= hi ==>
      var mid := (lo + hi) / 2;
      if target < mid then HasWindow(o, ops, mid) && HitsAlong(o, ops, lo, mid - 1, target)
      else target > mid ==> HitsAlong(o, ops, mid + 1, hi, target)
  }

  lemma {:induction false} HitsAlongPath(o: Oracle, ops: seq<FrontendOp>, lo: nat, hi: nat, target: nat)
    requires lo <= target <= hi
    ensures HitsAlong(o, ops, lo, hi, target) <==> PathIsHit(o, ops, lo, hi, target)
    decreases hi + 1 - lo
  {
    var mid := (lo + hi) / 2;
    PathStep(o, ops, lo, hi, target, mid);
    if mid < target {
      HitsAlongPath(o, ops, mid + 1, hi, target);
    } else if mid > target {
      HitsAlongPath(o, ops, lo, mid - 1, target);
    }
  }

  /** One probe of a search: the leftmost window of the middle length, if there is one. */
  lemma ProbeStep(
    o: Oracle, ops: seq<FrontendOp>, lo: nat, hi: nat, best: Option<seq<FrontendOp>>, clock: nat, mid: nat, all: Probe)
    returns (p: Probe)
    requires Steady(o) && 1 <= lo <= hi < |ops| && mid == (lo + hi) / 2
    requires all == Search(o, ops, lo, hi, best, clock)
    ensures lo <= mid <= hi
    ensures p.found.Some? <==> HasWindow(o, ops, mid)
    ensures p.found.Some? ==> |p.found.value| == mid && p.found == FirstWindow(o, ops, mid, 0, clock).found
    ensures p.found.None? ==> all == Search(o, ops, mid + 1, hi, best, p.clock)
    ensures p.found.Some? && mid <= 1 ==> all == p
    ensures p.found.Some? && mid > 1 ==> all == Search(o, ops, lo, mid - 1, p.found, p.clock)
  {
    p := FirstWindow(o, ops, mid, 0, clock);
    ProbeFindsLeftmost(o, ops, mid, clock);
    SearchStep(o, ops, lo, hi, best, clock, mid);
  }

  ghost predicate NoneShorter(o: Oracle, ops: seq<FrontendOp>, target: nat) {
    forall m :: 0 < m < target ==> !HasWindow(o, ops, m)
  }

  lemma TargetProbed(
    o: Oracle, ops: seq<FrontendOp>, lo: nat, hi: nat, best: Option<seq<FrontendOp>>, clock: nat,
    target: nat, all: Probe)
    requires Steady(o) && 1 <= lo <= hi < |ops| && target == (lo + hi) / 2
    requires HasWindow(o, ops, target) && NoneShorter(o, ops, target)
    requires all == Search(o, ops, lo, hi, best, clock)
    ensures all.found == FirstWindow(o, ops, target, 0, clock).found
  {
    var p := ProbeStep(o, ops, lo, hi, best, clock, target, all);
    if target > 1 {
      SearchMisses(o, ops, lo, target - 1, p.found, p.clock, all);
    }
  }

  /** Where a search goes on after a probe that has not led away from the target. */
  lemma Narrow(
    o: Oracle, ops: seq<FrontendOp>, lo: nat, hi: nat, best: Option<seq<FrontendOp>>, clock: nat,
    target: nat, mid: nat, all: Probe) returns (lo': nat, hi': nat, best': Option<seq<FrontendOp>>, clock': nat)
    requires Steady(o) && 1 <= lo <= target <= hi < |ops| && NoneShorter(o, ops, target)
    requires best.Some? ==> |best.value| > hi
    requires all == Search(o, ops, lo, hi, best, clock)
    requires mid == (lo + hi) / 2 && (mid < target || (mid > target && HasWindow(o, ops, mid)))
    ensures lo <= lo' <= target <= hi' <= hi && hi' - lo' < hi - lo
    ensures best'.Some? ==> |best'.value| > hi'
    ensures all == Search(o, ops, lo', hi', best', clock')
    ensures HitsAlong(o, ops, lo, hi, target) == HitsAlong(o, ops, lo', hi', target)
  {
    var p := ProbeStep(o, ops, lo, hi, best, clock, mid, all);
    if mid < target {
      lo', hi', best', clock' := mid + 1, hi, best, p.clock;
    } else {
      lo', hi', best', clock' := lo, mid - 1, p.found, p.clock;
    }
  }

  /** A search that misses a length above the target ends with nothing or something longer. */
  lemma MissedAbove(
    o: Oracle, ops: seq<FrontendOp>, lo: nat, hi: nat, best: Option<seq<FrontendOp>>, clock: nat,
    target: nat, all: Probe)
    requires Steady(o) && 1 <= lo <= hi < |ops| && target < (lo + hi) / 2 && !HasWindow(o, ops, (lo + hi) / 2)
    requires best.Some? ==> |best.value| > hi
    requires all == Search(o, ops, lo, hi, best, clock)
    ensures !HitsAlong(o, ops, lo, hi, target)
    ensures all.found.Some? ==> |all.found.value| > target
  {
    var mid := (lo + hi) / 2;
    var p := ProbeStep(o, ops, lo, hi, best, clock, mid, all);
    SearchIsOne(o, ops, mid + 1, hi, best, p.clock);
  }

  /**
   A search whose path is hit ends with what a probe of the target finds; one whose path
   is not ends with nothing or something longer.
   */
  lemma {:induction false} SearchReaches(
    o: Oracle, ops: seq<FrontendOp>, lo: nat, hi: nat, best: Option<seq<FrontendOp>>, clock: nat, target: nat,
    hit: bool, all: Probe) returns (t: nat)
    requires Steady(o) && 1 <= lo <= target <= hi < |ops|
    requires HasWindow(o, ops, target) && NoneShorter(o, ops, target)
    requires best.Some? ==> |best.value| > hi
    requires hit == HitsAlong(o, ops, lo, hi, target) && all == Search(o, ops, lo, hi, best, clock)
    ensures hit ==> all.found == FirstWindow(o, ops, target, 0, t).found
    ensures !hit && all.found.Some? ==> |all.found.value| > target
    decreases hi - lo
  {
    var mid := (lo + hi) / 2;
    if mid == target {
      t := clock;
      TargetProbed(o, ops, lo, hi, best, clock, target, all);
    } else if mid < target || HasWindow(o, ops, mid) {
      var lo', hi', best', clock' := Narrow(o, ops, lo, hi, best, clock, target, mid, all);
      t := SearchReaches(o, ops, lo', hi', best', clock', target, hit, all);
    } else {
      t := clock;
      MissedAbove(o, ops, lo, hi, best, clock, target, all);
    }
  }

  /** With no reproducing window in the range the search keeps what it had. */
  lemma {:induction false} SearchMisses(
    o: Oracle, ops: seq<FrontendOp>, lo: nat, hi: nat, best: Option<seq<FrontendOp>>, clock: nat, all: Probe)
    requires Steady(o) && 1 <= lo && hi < |ops| && all == Search(o, ops, lo, hi, best, clock)
    requires forall m :: lo <= m <= hi ==> !HasWindow(o, ops, m)
    ensures all.found == best
    decreases hi + 1 - lo
  {
    if lo <= hi {
      var mid := (lo + hi) / 2;
      var p := ProbeStep(o, ops, lo, hi, best, clock, mid, all);
      SearchMisses(o, ops, mid + 1, hi, best, p.clock, all);
    }
  }

  /**
   The pass finds the shortest reproducing window exactly when every longer length probed
   on the way to it has a reproducing window too and there are more than two ops; it
   then returns the leftmost one.
   */
  lemma FindsShortestIff(o: Oracle, ops: seq<FrontendOp>, clock: nat, shortest: nat)
    requires Steady(o) && 1 <= shortest < |ops|
    requires HasWindow(o, ops, shortest) && NoneShorter(o, ops, shortest)
    ensures var r := SearchWindows(o, ops, clock).found;
      && (r.Some? && |r.value| == shortest <==> |ops| > 2 && PathIsHit(o, ops, 1, |ops| - 1, shortest))
      && (r.Some? && |r.value| == shortest ==> IsLeftmost(o, ops, shortest, r.value))
  {
    if |ops| > 2 {
      HitsAlongPath(o, ops, 1, |ops| - 1, shortest);
      var all := Search(o, ops, 1, |ops| - 1, None, clock);
      var hit := HitsAlong(o, ops, 1, |ops| - 1, shortest);
      var t := SearchReaches(o, ops, 1, |ops| - 1, None, clock, shortest, hit, all);
      ProbeFindsLeftmost(o, ops, shortest, t);
      SearchIsOne(o, ops, 1, |ops| - 1, None, clock);
    }
  }

  /** Widening a reproducing window by one op on either side keeps it reproducing. */
  ghost predicate ClosedUnderWidening(o: Oracle, ops: seq<FrontendOp>) {
    forall length: nat, i: nat, i': nat {:trigger Hit(o, ops, length, i), Hit(o, ops, length + 1, i')} ::
      Hit(o, ops, length, i) && i' <= i <= i' + 1 && i' + length + 1 <= |ops| ==> Hit(o, ops, length + 1, i')
  }

  lemma {:induction false} WiderWindows(o: Oracle, ops: seq<FrontendOp>, length: nat, m: nat)
    requires ClosedUnderWidening(o, ops) && HasWindow(o, ops, length) && length <= m <= |ops|
    ensures HasWindow(o, ops, m)
    decreases m - length
  {
    if length < m {
      var i: nat :| Hit(o, ops, length, i);
      var i' := if i + length + 1 <= |ops| then i else i - 1;
      assert Hit(o, ops, length + 1, i');
      WiderWindows(o, ops, length + 1, m);
    }
  }

  lemma {:induction false} ProbedInRange(lo: nat, hi: nat, target: nat)
    ensures forall m :: m in Probed(lo, hi, target) ==> lo <= m <= hi
    decreases hi + 1 - lo
  {
    if lo <= hi {
      var mid := (lo + hi) / 2;
      if target < mid {
        ProbedInRange(lo, mid - 1, target);
      } else if target > mid {
        ProbedInRange(mid + 1, hi, target);
      }
    }
  }

  /** So for an oracle closed under widening the pass does what its name says. */
  lemma FindsShortestWhenClosed(o: Oracle, ops: seq<FrontendOp>, clock: nat, shortest: nat)
    requires Steady(o) && ClosedUnderWidening(o, ops) && |ops| > 2 && 1 <= shortest < |ops|
    requires HasWindow(o, ops, shortest) && NoneShorter(o, ops, shortest)
    ensures var r := SearchWindows(o, ops, clock).found;
      r.Some? && IsLeftmost(o, ops, shortest, r.value)
  {
    ProbedInRange(1, |ops| - 1, shortest);
    forall m | m in Probed(1, |ops| - 1, shortest) && m > shortest ensures HasWindow(o, ops, m) {
      WiderWindows(o, ops, shortest, m);
    }
    FindsShortestIff(o, ops, clock, shortest);
  }

  /** For any oracle: what the pass finds is a proper window that was accepted while it ran. */
  lemma FindsAProperWindow(o: Oracle, ops: seq<FrontendOp>, clock: nat)
    ensures var p := SearchWindows(o, ops, clock);
      p.found.Some? ==> p.found.value != [] && |p.found.value| < |ops| && IsWindow(p.found.value, ops)
                        && Accepted(o, p.found.value, clock, p.clock)
  {
    if SearchWindows(o, ops, clock).found.Some? {
      SearchIsOne(o, ops, 1, |ops| - 1, None, clock);
      SearchAnswers(o, ops, 1, |ops| - 1, None, clock);
    }
  }
}
