/** The desired-link lists that src/nn.py:236-300 builds for one router
    cluster from its `clustermode` (`full`, `loop`, `line`, `hubspoke`),
    each pair repeated `cables` times. The functions below say which list
    each pattern denotes; the methods are the source's loops, proved to
    build exactly those lists. */
module Wiring {
  import opened Common

  /** One desired cable (`tupleDesiredLink`), in the order the source lists its ends. */
  datatype Pair = Pair(left: Id, right: Id)

  /** `k` cables between the same two devices. */
  function Repeat(p: Pair, k: nat): (r: seq<Pair>)
    ensures |r| == k
  {
    seq(k, _ => p)
  }

  lemma RepeatOnly(p: Pair, k: nat, q: Pair)
    requires q in Repeat(p, k)
    ensures q == p
  {
  }

  lemma RepeatHas(p: Pair, k: nat)
    requires k >= 1
    ensures p in Repeat(p, k)
  {
    assert Repeat(p, k)[0] == p;
  }

  // ---------------------------------------------------------------- full

  /** The cables that device `i` starts towards devices 0 .. j-1: one bundle
      towards every later device. */
  function FullRow(ids: seq<Id>, i: nat, j: nat, c: nat): seq<Pair>
    requires i < |ids| && j <= |ids|
  {
    if j <= i + 1 then []
    else FullRow(ids, i, j - 1, c) + Repeat(Pair(ids[i], ids[j - 1]), c)
  }

  /** The cables started by devices 0 .. i-1. */
  function FullRows(ids: seq<Id>, i: nat, c: nat): seq<Pair>
    requires i <= |ids|
  {
    if i == 0 then [] else FullRows(ids, i - 1, c) + FullRow(ids, i - 1, |ids|, c)
  }

  // ---------------------------------------------------------- loop, line

  /** Device i and its successor round the ring. */
  function RingEdge(ids: seq<Id>, i: nat): Pair
    requires i < |ids|
  {
    Pair(ids[i], ids[(i + 1) % |ids|])
  }

  lemma RingEdgeInside(ids: seq<Id>, i: nat)
    requires i + 1 < |ids|
    ensures RingEdge(ids, i) == Pair(ids[i], ids[i + 1])
  {
  }

  lemma RingEdgeWraps(ids: seq<Id>)
    requires |ids| >= 1
    ensures RingEdge(ids, |ids| - 1) == Pair(ids[|ids| - 1], ids[0])
  {
  }

  /** Over two or more distinct devices a ring edge joins two different devices. */
  lemma RingEdgeProper(ids: seq<Id>, i: nat)
    requires Distinct(ids) && 2 <= |ids| && i < |ids|
    ensures RingEdge(ids, i).left != RingEdge(ids, i).right
    ensures RingEdge(ids, i).left in ids && RingEdge(ids, i).right in ids
  {
    if i + 1 < |ids| {
      RingEdgeInside(ids, i);
    } else {
      RingEdgeWraps(ids);
    }
  }

  /** Device i cabled to device (i + 1) mod n, for i < k. */
  function Ring(ids: seq<Id>, k: nat, c: nat): seq<Pair>
    requires k <= |ids|
  {
    if k == 0 then [] else Ring(ids, k - 1, c) + Repeat(RingEdge(ids, k - 1), c)
  }

  // ------------------------------------------------------------ hubspoke

  /** Device 0 cabled to each of devices 1 .. k-1. */
  function Spokes(ids: seq<Id>, k: nat, c: nat): seq<Pair>
    requires k <= |ids|
  {
    if k <= 1 then [] else Spokes(ids, k - 1, c) + Repeat(Pair(ids[0], ids[k - 1]), c)
  }

  /** The desired-link list a pattern denotes over a cluster's devices. */
  function PatternPairs(mode: ClusterMode, ids: seq<Id>, c: nat): seq<Pair> {
    match mode
    case Full => FullRows(ids, |ids|, c)
    case Loop => Ring(ids, |ids|, c)
    case Line => if ids == [] then [] else Ring(ids, |ids| - 1, c)
    case HubSpoke => Spokes(ids, |ids|, c)
  }

  /** n·(n−1)/2, the number of unordered pairs of n things. */
  function Triangle(n: nat): nat {
    if n == 0 then 0 else Triangle(n - 1) + (n - 1)
  }

  /** How many cables a pattern lays over n devices with multiplicity c. */
  function PairCount(mode: ClusterMode, n: nat, c: nat): nat {
    match mode
    case Full => Triangle(n) * c
    case Loop => n * c
    case Line => if n == 0 then 0 else (n - 1) * c
    case HubSpoke => if n == 0 then 0 else (n - 1) * c
  }

  // -------------------------------------------------------------- counts

  lemma {:induction false} TriangleClosedForm(n: nat)
    ensures 2 * Triangle(n) == n * (n - 1)
  {
    if n > 0 {
      TriangleClosedForm(n - 1);
      calc {
        2 * Triangle(n);
        2 * Triangle(n - 1) + 2 * (n - 1);
        (n - 1) * (n - 2) + 2 * (n - 1);
        { assert (n - 1) * (n - 2) + 2 * (n - 1) == (n - 1) * n; }
        n * (n - 1);
      }
    }
  }

  lemma MulSucc(a: nat, c: nat)
    ensures (a + 1) * c == a * c + c
  {
  }

  lemma MulDistrib(a: nat, b: nat, c: nat)
    ensures (a + b) * c == a * c + b * c
  {
  }

  lemma {:induction false} FullRowLength(ids: seq<Id>, i: nat, j: nat, c: nat)
    requires i < |ids| && j <= |ids|
    ensures |FullRow(ids, i, j, c)| == (if j > i + 1 then j - i - 1 else 0) * c
  {
    if j > i + 1 {
      FullRowLength(ids, i, j - 1, c);
      MulSucc(j - i - 2, c);
    }
  }

  /** The cables devices 0 .. i-1 of n start in `full`, per unit of multiplicity. */
  function RowsBefore(n: nat, i: nat): nat
    requires i <= n
  {
    if i == 0 then 0 else RowsBefore(n, i - 1) + (n - i)
  }

  lemma {:induction false} RowsBeforeAll(n: nat, i: nat)
    requires i <= n
    ensures RowsBefore(n, i) + Triangle(n - i) == Triangle(n)
  {
    if i > 0 {
      RowsBeforeAll(n, i - 1);
      assert Triangle(n - i + 1) == Triangle(n - i) + (n - i);
    }
  }

  lemma {:induction false} FullRowsLength(ids: seq<Id>, i: nat, c: nat)
    requires i <= |ids|
    ensures |FullRows(ids, i, c)| == RowsBefore(|ids|, i) * c
  {
    if i > 0 {
      var n := |ids|;
      FullRowsLength(ids, i - 1, c);
      FullRowLength(ids, i - 1, n, c);
      var r, d := RowsBefore(n, i - 1), n - i;
      assert (if n > i then n - i else 0) == d;
      assert RowsBefore(n, i) == r + d;
      MulDistrib(r, d, c);
    }
  }

  lemma {:induction false} RingLength(ids: seq<Id>, k: nat, c: nat)
    requires k <= |ids|
    ensures |Ring(ids, k, c)| == k * c
  {
    if k > 0 {
      RingLength(ids, k - 1, c);
      MulSucc(k - 1, c);
    }
  }

  lemma {:induction false} SpokesLength(ids: seq<Id>, k: nat, c: nat)
    requires 1 <= k <= |ids|
    ensures |Spokes(ids, k, c)| == (k - 1) * c
  {
    if k > 1 {
      SpokesLength(ids, k - 1, c);
      MulSucc(k - 2, c);
    }
  }

  /** Every pattern lays exactly the number of cables its shape promises:
      n·(n−1)/2·c for full, n·c for loop, (n−1)·c for line and hubspoke. */
  lemma PatternCount(mode: ClusterMode, ids: seq<Id>, c: nat)
    ensures |PatternPairs(mode, ids, c)| == PairCount(mode, |ids|, c)
  {
    match mode
    case Full =>
      FullRowsLength(ids, |ids|, c);
      RowsBeforeAll(|ids|, |ids|);
    case Loop => RingLength(ids, |ids|, c);
    case Line => if ids != [] { RingLength(ids, |ids| - 1, c); }
    case HubSpoke => if ids != [] { SpokesLength(ids, |ids|, c); }
  }

  // ---------------------------------------------------------- full shape

  /** Membership in row i up to device j, stated without sequences. */
  predicate InRow(ids: seq<Id>, i: nat, j: nat, c: nat, p: Pair)
    requires i < |ids| && j <= |ids|
  {
    j > i + 1 && (InRow(ids, i, j - 1, c, p) || (c >= 1 && p == Pair(ids[i], ids[j - 1])))
  }

  /** Membership in the first i rows, stated without sequences. */
  predicate InRows(ids: seq<Id>, i: nat, c: nat, p: Pair)
    requires i <= |ids|
  {
    i > 0 && (InRows(ids, i - 1, c, p) || InRow(ids, i - 1, |ids|, c, p))
  }

  lemma RepeatIn(q: Pair, k: nat, p: Pair)
    ensures p in Repeat(q, k) <==> k >= 1 && p == q
  {
    if k >= 1 && p == q {
      RepeatHas(q, k);
    } else if p in Repeat(q, k) {
      RepeatOnly(q, k, p);
    }
  }

  lemma {:induction false} InRowIff(ids: seq<Id>, i: nat, j: nat, c: nat, p: Pair)
    requires i < |ids| && j <= |ids|
    ensures p in FullRow(ids, i, j, c) <==> InRow(ids, i, j, c, p)
  {
    if j > i + 1 {
      InRowIff(ids, i, j - 1, c, p);
      RepeatIn(Pair(ids[i], ids[j - 1]), c, p);
    }
  }

  lemma {:induction false} InRowsIff(ids: seq<Id>, i: nat, c: nat, p: Pair)
    requires i <= |ids|
    ensures p in FullRows(ids, i, c) <==> InRows(ids, i, c, p)
  {
    if i > 0 {
      var rows, row := FullRows(ids, i - 1, c), FullRow(ids, i - 1, |ids|, c);
      assert FullRows(ids, i, c) == rows + row;
      InRowsIff(ids, i - 1, c, p);
      InRowIff(ids, i - 1, |ids|, c, p);
    }
  }

  lemma {:induction false} InRowShape(ids: seq<Id>, i: nat, j: nat, c: nat, p: Pair) returns (y: nat)
    requires i < |ids| && j <= |ids|
    requires InRow(ids, i, j, c, p)
    ensures i < y < j && p == Pair(ids[i], ids[y])
  {
    if InRow(ids, i, j - 1, c, p) {
      y := InRowShape(ids, i, j - 1, c, p);
    } else {
      y := j - 1;
    }
  }

  lemma {:induction false} InRowsShape(ids: seq<Id>, i: nat, c: nat, p: Pair) returns (x: nat, y: nat)
    requires i <= |ids|
    requires InRows(ids, i, c, p)
    ensures x < i && x < y < |ids| && p == Pair(ids[x], ids[y])
  {
    if InRows(ids, i - 1, c, p) {
      x, y := InRowsShape(ids, i - 1, c, p);
    } else {
      x := i - 1;
      y := InRowShape(ids, x, |ids|, c, p);
    }
  }

  lemma {:induction false} InRowHas(ids: seq<Id>, i: nat, j: nat, c: nat, y: nat)
    requires i < y < j <= |ids| && c >= 1
    ensures InRow(ids, i, j, c, Pair(ids[i], ids[y]))
  {
    if y < j - 1 {
      InRowHas(ids, i, j - 1, c, y);
    }
  }

  lemma {:induction false} InRowsHas(ids: seq<Id>, i: nat, c: nat, x: nat, y: nat)
    requires x < i <= |ids| && x < y < |ids| && c >= 1
    ensures InRows(ids, i, c, Pair(ids[x], ids[y]))
  {
    if x < i - 1 {
      InRowsHas(ids, i - 1, c, x, y);
    } else {
      InRowHas(ids, x, |ids|, c, y);
    }
  }

  /** Every cable device i lists towards devices before j goes to a later device. */
  lemma FullRowShape(ids: seq<Id>, i: nat, j: nat, c: nat, p: Pair) returns (y: nat)
    requires i < |ids| && j <= |ids|
    requires p in FullRow(ids, i, j, c)
    ensures i < y < j && p == Pair(ids[i], ids[y])
  {
    InRowIff(ids, i, j, c, p);
    y := InRowShape(ids, i, j, c, p);
  }

  /** Every cable of the first i rows joins a device x < i to a later device y. */
  lemma FullRowsShape(ids: seq<Id>, i: nat, c: nat, p: Pair) returns (x: nat, y: nat)
    requires i <= |ids|
    requires p in FullRows(ids, i, c)
    ensures x < i && x < y < |ids| && p == Pair(ids[x], ids[y])
  {
    InRowsIff(ids, i, c, p);
    x, y := InRowsShape(ids, i, c, p);
  }

  /** Conversely the first i rows hold every pair x < y with x < i. */
  lemma FullRowsHas(ids: seq<Id>, i: nat, c: nat, x: nat, y: nat)
    requires x < i <= |ids| && x < y < |ids| && c >= 1
    ensures Pair(ids[x], ids[y]) in FullRows(ids, i, c)
  {
    InRowsHas(ids, i, c, x, y);
    InRowsIff(ids, i, c, Pair(ids[x], ids[y]));
  }


  /** `full` cables exactly the unordered pairs of distinct devices, the
      earlier device first. */
  lemma FullPairsExactly(ids: seq<Id>, c: nat, a: Id, b: Id)
    requires c >= 1
    ensures Pair(a, b) in PatternPairs(Full, ids, c) <==>
            exists x, y :: 0 <= x < y < |ids| && a == ids[x] && b == ids[y]
  {
    if Pair(a, b) in PatternPairs(Full, ids, c) {
      var x, y := FullRowsShape(ids, |ids|, c, Pair(a, b));
    }
    if exists x, y :: 0 <= x < y < |ids| && a == ids[x] && b == ids[y] {
      var x, y :| 0 <= x < y < |ids| && a == ids[x] && b == ids[y];
      FullRowsHas(ids, |ids|, c, x, y);
    }
  }

  /** Over distinct devices, `full` never lists a pair in both directions. */
  lemma FullNoReverse(ids: seq<Id>, c: nat, p: Pair)
    requires Distinct(ids)
    requires p in PatternPairs(Full, ids, c)
    ensures Pair(p.right, p.left) !in PatternPairs(Full, ids, c)
  {
    var x, y := FullRowsShape(ids, |ids|, c, p);
    if Pair(p.right, p.left) in PatternPairs(Full, ids, c) {
      var x', y' := FullRowsShape(ids, |ids|, c, Pair(p.right, p.left));
    }
  }

  // ----------------------------------------------------- loop/line shape

  lemma {:induction false} RingShape(ids: seq<Id>, k: nat, c: nat, p: Pair) returns (i: nat)
    requires k <= |ids|
    requires p in Ring(ids, k, c)
    ensures i < k && p == RingEdge(ids, i)
  {
    if p in Ring(ids, k - 1, c) {
      i := RingShape(ids, k - 1, c, p);
    } else {
      i := k - 1;
      RepeatOnly(RingEdge(ids, i), c, p);
    }
  }

  lemma {:induction false} RingHas(ids: seq<Id>, k: nat, c: nat, i: nat)
    requires i < k <= |ids| && c >= 1
    ensures RingEdge(ids, i) in Ring(ids, k, c)
  {
    if i < k - 1 {
      RingHas(ids, k - 1, c, i);
    } else {
      RepeatHas(RingEdge(ids, i), c);
    }
  }

  /** `loop` cables each device to its successor, the last one back to the first. */
  lemma LoopPairsExactly(ids: seq<Id>, c: nat, p: Pair)
    requires c >= 1
    ensures p in PatternPairs(Loop, ids, c) <==>
            exists i :: 0 <= i < |ids| && p == RingEdge(ids, i)
  {
    if p in PatternPairs(Loop, ids, c) {
      var i := RingShape(ids, |ids|, c, p);
    }
    if exists i :: 0 <= i < |ids| && p == RingEdge(ids, i) {
      var i :| 0 <= i < |ids| && p == RingEdge(ids, i);
      RingHas(ids, |ids|, c, i);
    }
  }

  /** A two-device `loop` lays both (d0, d1) and (d1, d0): parallel cables
      between the same two devices. */
  lemma LoopOfTwo(ids: seq<Id>, c: nat)
    requires |ids| == 2 && c >= 1
    ensures Pair(ids[0], ids[1]) in PatternPairs(Loop, ids, c)
    ensures Pair(ids[1], ids[0]) in PatternPairs(Loop, ids, c)
  {
    RingHas(ids, 2, c, 0);
    RingHas(ids, 2, c, 1);
    assert RingEdge(ids, 1) == Pair(ids[1], ids[0]);
  }

  /** `line` cables each device to the next one, with no wrap-around. */
  lemma LinePairsExactly(ids: seq<Id>, c: nat, p: Pair)
    requires c >= 1
    ensures p in PatternPairs(Line, ids, c) <==>
            exists i :: 0 <= i < |ids| - 1 && p == Pair(ids[i], ids[i + 1])
  {
    if ids != [] {
      if p in PatternPairs(Line, ids, c) {
        var i := RingShape(ids, |ids| - 1, c, p);
        RingEdgeInside(ids, i);
      }
      if exists i :: 0 <= i < |ids| - 1 && p == Pair(ids[i], ids[i + 1]) {
        var i :| 0 <= i < |ids| - 1 && p == Pair(ids[i], ids[i + 1]);
        RingEdgeInside(ids, i);
        RingHas(ids, |ids| - 1, c, i);
      }
    }
  }

  /** Over distinct devices `line` never closes the ring. */
  lemma LineHasNoWrap(ids: seq<Id>, c: nat)
    requires Distinct(ids) && |ids| >= 2
    ensures Pair(ids[|ids| - 1], ids[0]) !in PatternPairs(Line, ids, c)
  {
    if Pair(ids[|ids| - 1], ids[0]) in PatternPairs(Line, ids, c) {
      var i := RingShape(ids, |ids| - 1, c, Pair(ids[|ids| - 1], ids[0]));
    }
  }

  /** `loop` is `line` followed by the closing bundle from the last device to the first. */
  lemma LoopIsLinePlusWrap(ids: seq<Id>, c: nat)
    requires |ids| >= 1
    ensures PatternPairs(Loop, ids, c) ==
            PatternPairs(Line, ids, c) + Repeat(Pair(ids[|ids| - 1], ids[0]), c)
  {
    RingEdgeWraps(ids);
  }

  // ------------------------------------------------------ hubspoke shape

  lemma {:induction false} SpokesShape(ids: seq<Id>, k: nat, c: nat, p: Pair) returns (j: nat)
    requires k <= |ids|
    requires p in Spokes(ids, k, c)
    ensures 1 <= j < k && p == Pair(ids[0], ids[j])
  {
    if p in Spokes(ids, k - 1, c) {
      j := SpokesShape(ids, k - 1, c, p);
    } else {
      j := k - 1;
      RepeatOnly(Pair(ids[0], ids[j]), c, p);
    }
  }

  lemma {:induction false} SpokesHas(ids: seq<Id>, k: nat, c: nat, j: nat)
    requires 1 <= j < k <= |ids| && c >= 1
    ensures Pair(ids[0], ids[j]) in Spokes(ids, k, c)
  {
    if j < k - 1 {
      SpokesHas(ids, k - 1, c, j);
    } else {
      RepeatHas(Pair(ids[0], ids[j]), c);
    }
  }

  /** `hubspoke` cables the first device to every other device, and only those. */
  lemma HubSpokePairsExactly(ids: seq<Id>, c: nat, p: Pair)
    requires Distinct(ids) && c >= 1
    ensures p in PatternPairs(HubSpoke, ids, c) <==>
            |ids| > 0 && p.left == ids[0] && p.right in ids && p.right != ids[0]
  {
    if p in PatternPairs(HubSpoke, ids, c) {
      var j := SpokesShape(ids, |ids|, c, p);
    }
    if |ids| > 0 && p.left == ids[0] && p.right in ids && p.right != ids[0] {
      var j :| 0 <= j < |ids| && ids[j] == p.right;
      SpokesHas(ids, |ids|, c, j);
    }
  }

  /** Over two or more distinct devices, every pattern cables devices of the
      cluster and never cables a device to itself. */
  lemma PatternShape(mode: ClusterMode, ids: seq<Id>, c: nat, p: Pair)
    requires Distinct(ids) && |ids| >= 2
    requires p in PatternPairs(mode, ids, c)
    ensures p.left in ids && p.right in ids && p.left != p.right
  {
    match mode
    case Full =>
      var x, y := FullRowsShape(ids, |ids|, c, p);
    case Loop =>
      var i := RingShape(ids, |ids|, c, p);
      RingEdgeProper(ids, i);
    case Line =>
      var i := RingShape(ids, |ids| - 1, c, p);
      RingEdgeProper(ids, i);
    case HubSpoke =>
      var j := SpokesShape(ids, |ids|, c, p);
  }

  /** Whatever the cluster, every pattern cables only devices of that cluster. */
  lemma PatternWithin(mode: ClusterMode, ids: seq<Id>, c: nat, p: Pair)
    requires p in PatternPairs(mode, ids, c)
    ensures p.left in ids && p.right in ids
  {
    match mode
    case Full =>
      var x, y := FullRowsShape(ids, |ids|, c, p);
    case Loop =>
      var i := RingShape(ids, |ids|, c, p);
    case Line =>
      var i := RingShape(ids, |ids| - 1, c, p);
    case HubSpoke =>
      var j := SpokesShape(ids, |ids|, c, p);
  }

  // ------------------------------------------------- the source's loops

  /** `for intCurrent in range(cables): arrayDesiredLinks.append(pair)`. */
  method AppendCables(pairs: seq<Pair>, p: Pair, cables: nat) returns (r: seq<Pair>)
    ensures r == pairs + Repeat(p, cables)
  {
    r := pairs;
    var k := 0;
    while k < cables
      invariant 0 <= k <= cables
      invariant r == pairs + Repeat(p, k)
    {
      r := r + [p];
      k := k + 1;
    }
  }

  /** The `clustermode` dispatch of src/nn.py:236-300: the desired-link
      list of the cluster's pattern. */
  method DesiredPairs(mode: ClusterMode, devs: seq<Id>, cables: nat) returns (pairs: seq<Pair>)
    requires Distinct(devs)
    ensures pairs == PatternPairs(mode, devs, cables)
  {
    match mode {
      case Full => pairs := FullLinks(devs, cables);
      case Loop => pairs := LoopLinks(devs, cables);
      case Line => pairs := LineLinks(devs, cables);
      case HubSpoke => pairs := HubSpokeLinks(devs, cables);
    }
  }

  /** src/nn.py:241-250: every ordered pair of devices with different ids
      whose reverse is not listed yet. */
  method FullLinks(devs: seq<Id>, cables: nat) returns (pairs: seq<Pair>)
    requires Distinct(devs)
    ensures pairs == PatternPairs(Full, devs, cables)
  {
    pairs := [];
    var i := 0;
    while i < |devs|
      invariant 0 <= i <= |devs|
      invariant pairs == FullRows(devs, i, cables)
    {
      var j := 0;
      while j < |devs|
        invariant 0 <= j <= |devs|
        invariant pairs == FullRows(devs, i, cables) + FullRow(devs, i, j, cables)
      {
        if devs[i] != devs[j] {
          if Pair(devs[j], devs[i]) in pairs {
            if i < j {
              ReverseNotYetListed(devs, i, j, cables);
            }
          } else {
            if j < i && cables >= 1 {
              FullRowsHas(devs, i, cables, j, i);
            }
            pairs := AppendCables(pairs, Pair(devs[i], devs[j]), cables);
          }
        }
        j := j + 1;
      }
      i := i + 1;
    }
  }

  /** While device i runs through the later devices j, the pair (j, i) has
      not been listed: every listed pair starts at a device no later than i. */
  lemma ReverseNotYetListed(devs: seq<Id>, i: nat, j: nat, c: nat)
    requires Distinct(devs) && i < j < |devs|
    ensures Pair(devs[j], devs[i]) !in FullRows(devs, i, c) + FullRow(devs, i, j, c)
  {
    var p := Pair(devs[j], devs[i]);
    if p in FullRows(devs, i, c) {
      var x, y := FullRowsShape(devs, i, c, p);
    } else if p in FullRow(devs, i, j, c) {
      var y := FullRowShape(devs, i, j, c, p);
    }
  }

  /** src/nn.py:256-267: device i to device (i + 1) mod n, counted by intCounter. */
  method LoopLinks(devs: seq<Id>, cables: nat) returns (pairs: seq<Pair>)
    ensures pairs == PatternPairs(Loop, devs, cables)
  {
    pairs := [];
    var counter := 0;
    var i := 0;
    while i < |devs|
      invariant 0 <= i <= |devs| && counter == i
      invariant pairs == Ring(devs, i, cables)
    {
      if counter != |devs| {
        pairs := AppendCables(pairs, Pair(devs[i], devs[(counter + 1) % |devs|]), cables);
        counter := counter + 1;
      }
      i := i + 1;
    }
  }

  /** src/nn.py:273-283: as `loop`, but the counter stops at n − 1 ("the cut"). */
  method LineLinks(devs: seq<Id>, cables: nat) returns (pairs: seq<Pair>)
    ensures pairs == PatternPairs(Line, devs, cables)
  {
    pairs := [];
    var counter := 0;
    var i := 0;
    while i < |devs|
      invariant 0 <= i <= |devs| && 0 <= counter <= i
      invariant counter < |devs| || |devs| == 0
      invariant i < |devs| ==> counter == i
      invariant i == |devs| > 0 ==> counter == |devs| - 1
      invariant pairs == Ring(devs, counter, cables)
    {
      if counter != |devs| - 1 {
        pairs := AppendCables(pairs, Pair(devs[i], devs[(counter + 1) % |devs|]), cables);
        counter := counter + 1;
      }
      i := i + 1;
    }
  }

  /** src/nn.py:289-297: the first device to every device with a different id. */
  method HubSpokeLinks(devs: seq<Id>, cables: nat) returns (pairs: seq<Pair>)
    requires Distinct(devs)
    ensures pairs == PatternPairs(HubSpoke, devs, cables)
  {
    pairs := [];
    if |devs| > 0 {
      var hub := devs[0];
      var i := 0;
      while i < |devs|
        invariant 0 <= i <= |devs|
        invariant pairs == Spokes(devs, i, cables)
      {
        if devs[i] != hub {
          pairs := AppendCables(pairs, Pair(hub, devs[i]), cables);
        }
        i := i + 1;
      }
    }
  }
}
