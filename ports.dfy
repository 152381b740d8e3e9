/** Port bookkeeping of src/nn.py:68-86: every device keeps a cursor, the
    next port number it will hand out; writing a desired link takes the
    cursor of its first device, then of its second, and advances both.
    The functions below say which ports a whole list of desired links
    receives, and when the list fits into the ports a device has. */
module Ports {
  import opened Common
  import opened Wiring

  /** How many ports the first k desired links ask of device `id`
      (a link from a device to itself asks twice). */
  function UseCount(pairs: seq<Pair>, k: nat, id: Id): nat
    requires k <= |pairs|
  {
    if k == 0 then 0
    else UseCount(pairs, k - 1, id)
         + (if pairs[k - 1].left == id then 1 else 0)
         + (if pairs[k - 1].right == id then 1 else 0)
  }

  lemma {:induction false} UseCountMonotone(pairs: seq<Pair>, k: nat, id: Id)
    requires k <= |pairs|
    ensures UseCount(pairs, k, id) <= UseCount(pairs, |pairs|, id)
    decreases |pairs| - k
  {
    if k < |pairs| {
      UseCountMonotone(pairs, k + 1, id);
    }
  }

  /** The cursors after the first k desired links have been written from
      cursors `cursor`: each known device advanced once per use. */
  ghost function Served(cursor: map<Id, nat>, pairs: seq<Pair>, k: nat): (r: map<Id, nat>)
    requires k <= |pairs|
    ensures r.Keys == cursor.Keys
  {
    map id | id in cursor :: cursor[id] + UseCount(pairs, k, id)
  }

  /** The cursors after one port of `x` has been handed out. */
  function Bump(cursor: map<Id, nat>, x: Id): (r: map<Id, nat>)
    ensures r.Keys == cursor.Keys
  {
    if x in cursor then cursor[x := cursor[x] + 1] else cursor
  }

  lemma ServedNone(cursor: map<Id, nat>, pairs: seq<Pair>)
    ensures Served(cursor, pairs, 0) == cursor
  {
  }

  /** Writing the k-th pair bumps its left device, then its right one. */
  lemma ServedStep(cursor: map<Id, nat>, pairs: seq<Pair>, k: nat)
    requires k < |pairs|
    ensures Served(cursor, pairs, k + 1) ==
            Bump(Bump(Served(cursor, pairs, k), pairs[k].left), pairs[k].right)
  {
  }

  /** Every device has a free port for each use the whole list makes of it:
      a cursor may reach PortLimit + 1 but no port beyond PortLimit is handed out. */
  ghost predicate Fits(cursor: map<Id, nat>, pairs: seq<Pair>) {
    forall id :: id in cursor ==> cursor[id] + UseCount(pairs, |pairs|, id) <= PortLimit + 1
  }

  /** Both devices of the pair (a, b) still have a port when cursors are `c`. */
  predicate PairFree(c: map<Id, nat>, a: Id, b: Id) {
    (a in c ==> c[a] <= PortLimit) && (b in c ==> Bump(c, a)[b] <= PortLimit)
  }

  /** A pair whose link cannot get both its ports shows the whole list does not fit. */
  lemma PairOverflow(cur0: map<Id, nat>, pairs: seq<Pair>, k: nat)
    requires k < |pairs|
    requires !PairFree(Served(cur0, pairs, k), pairs[k].left, pairs[k].right)
    ensures !Fits(cur0, pairs)
  {
    var a, b := pairs[k].left, pairs[k].right;
    UseCountMonotone(pairs, k + 1, a);
    UseCountMonotone(pairs, k + 1, b);
  }

  /** Conversely, when the whole list fits, every pair finds both its ports free. */
  lemma PairFits(cur0: map<Id, nat>, pairs: seq<Pair>, k: nat)
    requires k < |pairs| && Fits(cur0, pairs)
    ensures PairFree(Served(cur0, pairs, k), pairs[k].left, pairs[k].right)
  {
    if !PairFree(Served(cur0, pairs, k), pairs[k].left, pairs[k].right) {
      PairOverflow(cur0, pairs, k);
    }
  }

  /** Cursors that never passed PortLimit + 1 after the whole list show that it fits. */
  lemma ServedFits(cur0: map<Id, nat>, pairs: seq<Pair>)
    requires forall id :: id in Served(cur0, pairs, |pairs|) ==> Served(cur0, pairs, |pairs|)[id] <= PortLimit + 1
    ensures Fits(cur0, pairs)
  {
    var s := Served(cur0, pairs, |pairs|);
    forall id | id in cur0 ensures cur0[id] + UseCount(pairs, |pairs|, id) <= PortLimit + 1 {
      assert id in s;
    }
  }

  /** The endpoint addNodeToLink records for `x` at cursors `cursor`:
      adapter 1 at the device's cursor; nothing for an unknown id. */
  function EndpointOf(cursor: map<Id, nat>, x: Id): seq<Endpoint> {
    if x in cursor then [Endpoint(1, cursor[x], x)] else []
  }

  /** The link writeClusterLinks emits for the pair (a, b) at cursors
      `cursor`: a port on `a`, then a port on `b` one use later. */
  function PairLink(cursor: map<Id, nat>, a: Id, b: Id, linkId: Id): Link {
    Link(linkId, EndpointOf(cursor, a) + EndpointOf(Bump(cursor, a), b))
  }

  /** The link emitted for the k-th desired pair: each end gets the port its
      device's cursor reached after the uses before it, counted from `cursor`. */
  ghost function ExpectedLink(cursor: map<Id, nat>, pairs: seq<Pair>, k: nat, linkId: Id): Link
    requires k < |pairs|
  {
    PairLink(Served(cursor, pairs, k), pairs[k].left, pairs[k].right, linkId)
  }

  /** The links emitted for the first k desired pairs, with ids first, first + 1, ... */
  ghost function ExpectedLinks(cursor: map<Id, nat>, pairs: seq<Pair>, k: nat, first: Id): (r: seq<Link>)
    requires k <= |pairs|
    ensures |r| == k
    ensures forall j :: 0 <= j < k ==> r[j] == ExpectedLink(cursor, pairs, j, first + j)
  {
    seq(k, j requires 0 <= j < k => ExpectedLink(cursor, pairs, j, first + j))
  }

  lemma ExpectedLinksSnoc(cursor: map<Id, nat>, pairs: seq<Pair>, k: nat, first: Id)
    requires k < |pairs|
    ensures ExpectedLinks(cursor, pairs, k + 1, first) ==
            ExpectedLinks(cursor, pairs, k, first) + [ExpectedLink(cursor, pairs, k, first + k)]
  {
  }

  /** Every endpoint sits on adapter 1 at a port no higher than PortLimit. */
  predicate EndsInRange(ends: seq<Endpoint>) {
    forall e :: 0 <= e < |ends| ==> ends[e].adapter == 1 && ends[e].port <= PortLimit
  }

  /** A link whose two ports were both free uses ports 0 .. PortLimit on adapter 1 only. */
  lemma PairLinkInRange(c: map<Id, nat>, a: Id, b: Id, linkId: Id)
    requires PairFree(c, a, b)
    ensures EndsInRange(PairLink(c, a, b, linkId).ends)
  {
  }

  /** When a list of desired links fits, every link written for it uses
      adapter 1 and a port between 0 and PortLimit on both ends. */
  lemma ExpectedLinksInRange(cursor: map<Id, nat>, pairs: seq<Pair>, first: Id)
    requires Fits(cursor, pairs)
    ensures var ls := ExpectedLinks(cursor, pairs, |pairs|, first);
      forall k :: 0 <= k < |ls| ==> EndsInRange(ls[k].ends)
  {
    var ls := ExpectedLinks(cursor, pairs, |pairs|, first);
    forall k | 0 <= k < |ls| ensures EndsInRange(ls[k].ends) {
      PairFits(cursor, pairs, k);
      PairLinkInRange(Served(cursor, pairs, k), pairs[k].left, pairs[k].right, first + k);
    }
  }

  /** The cursor table of a topology under construction: one cursor per
      device of `devices`, none above PortLimit + 1, every id below `nextId`. */
  ghost predicate CursorsOk(cursor: map<Id, nat>, devices: set<Id>, nextId: Id) {
    cursor.Keys == devices &&
    forall id :: id in cursor ==> id < nextId && cursor[id] <= PortLimit + 1
  }

  /** Handing out a free port keeps the cursor table well formed. */
  lemma BumpOk(c: map<Id, nat>, devices: set<Id>, nextId: Id, x: Id)
    requires CursorsOk(c, devices, nextId)
    requires x in c ==> c[x] <= PortLimit
    ensures CursorsOk(Bump(c, x), devices, nextId)
  {
  }

  /** A device of the table has a cursor: its endpoint sits at that port
      and handing it out advances just that cursor. */
  lemma CursorOf(c: map<Id, nat>, devices: set<Id>, nextId: Id, x: Id)
    requires CursorsOk(c, devices, nextId) && x in devices
    ensures x in c && EndpointOf(c, x) == [Endpoint(1, c[x], x)] && Bump(c, x) == c[x := c[x] + 1]
  {
  }

  /** A new device gets cursor 0 and the id the supply hands out next. */
  lemma CursorsAdd(c: map<Id, nat>, devices: set<Id>, nextId: Id)
    requires CursorsOk(c, devices, nextId)
    ensures nextId !in c && nextId !in devices
    ensures CursorsOk(c[nextId := 0], devices + {nextId}, nextId + 1)
  {
  }

  /** `c` is `c0` plus a cursor 0 for every id from `n0` up to `n`. */
  ghost predicate Grown(c: map<Id, nat>, c0: map<Id, nat>, n0: Id, n: Id) {
    (forall id :: id in c <==> id in c0 || n0 <= id < n) &&
    (forall id :: id in c ==> c[id] == if id in c0 then c0[id] else 0)
  }

  lemma GrownNone(c0: map<Id, nat>, n0: Id)
    ensures Grown(c0, c0, n0, n0)
  {
  }

  /** One more new device with cursor 0. */
  lemma GrownStep(c: map<Id, nat>, c0: map<Id, nat>, n0: Id, n: Id)
    requires Grown(c, c0, n0, n) && n0 <= n && n !in c
    ensures Grown(c[n := 0], c0, n0, n + 1)
  {
  }

  /** The ids `first` .. `first + n - 1`. */
  function IdSet(first: Id, n: nat): (r: set<Id>)
    ensures forall id :: id in r <==> first <= id < first + n
  {
    if n == 0 then {} else IdSet(first, n - 1) + {first + n - 1}
  }

  /** The cursors `c` plus cursor 0 for each of the `n` ids from `first` on:
      the cursor table once a cluster of `n` devices has been expanded. */
  function Opened(c: map<Id, nat>, first: Id, n: nat): (r: map<Id, nat>)
    ensures forall id :: id in r <==> id in c || first <= id < first + n
  {
    map id | id in c.Keys + IdSet(first, n) :: if id in c then c[id] else 0
  }

  /** A table grown by zeros from n0 up to n is the opened table. */
  lemma GrownIs(c: map<Id, nat>, c0: map<Id, nat>, n0: Id, k: nat)
    requires Grown(c, c0, n0, n0 + k)
    ensures c == Opened(c0, n0, k)
  {
    var o := Opened(c0, n0, k);
    assert c.Keys == o.Keys;
    forall id | id in c ensures c[id] == o[id] {
    }
  }

  /** A pattern link between two known devices has two endpoints, and two
      different devices on them when the cluster has two or more distinct devices. */
  lemma PatternLinkShape(cursor: map<Id, nat>, mode: ClusterMode, ids: seq<Id>, c: nat, k: nat, linkId: Id)
    requires forall y :: y in ids ==> y in cursor
    requires k < |PatternPairs(mode, ids, c)|
    ensures var l := ExpectedLink(cursor, PatternPairs(mode, ids, c), k, linkId);
      |l.ends| == 2 &&
      (Distinct(ids) && |ids| >= 2 ==> l.ends[0].node != l.ends[1].node)
  {
    var pairs := PatternPairs(mode, ids, c);
    PatternWithin(mode, ids, c, pairs[k]);
    if Distinct(ids) && |ids| >= 2 {
      PatternShape(mode, ids, c, pairs[k]);
    }
  }

  /** Every link written for a pattern has two ends, on two different
      devices when the cluster has two or more. */
  lemma PatternLinksShape(cursor: map<Id, nat>, mode: ClusterMode, ids: seq<Id>, c: nat, first: Id)
    requires forall y :: y in ids ==> y in cursor
    ensures var pairs := PatternPairs(mode, ids, c);
      var ls := ExpectedLinks(cursor, pairs, |pairs|, first);
      forall k :: 0 <= k < |ls| ==>
        |ls[k].ends| == 2 &&
        (Distinct(ids) && |ids| >= 2 ==> ls[k].ends[0].node != ls[k].ends[1].node)
  {
    var pairs := PatternPairs(mode, ids, c);
    var ls := ExpectedLinks(cursor, pairs, |pairs|, first);
    forall k | 0 <= k < |ls|
      ensures |ls[k].ends| == 2 && (Distinct(ids) && |ids| >= 2 ==> ls[k].ends[0].node != ls[k].ends[1].node)
    {
      PatternLinkShape(cursor, mode, ids, c, k, first + k);
    }
  }

  /** A link as a cluster's internal wiring writes it: two ends on adapter 1
      with ports up to PortLimit, on two different devices when `apart`. */
  predicate WellWired(l: Link, apart: bool) {
    |l.ends| == 2 && EndsInRange(l.ends) && (apart ==> l.ends[0].node != l.ends[1].node)
  }

  /** Every link of the list is well wired between two different devices. */
  ghost predicate AllWired(links: seq<Link>) {
    forall k :: 0 <= k < |links| ==> WellWired(links[k], true)
  }

  /** The links a fitting pattern appends to `links0` are all well wired,
      between two different devices when the cluster has two or more. */
  lemma PatternLinksWired(links0: seq<Link>, cursor: map<Id, nat>, mode: ClusterMode, ids: seq<Id>, c: nat, first: Id)
    requires forall y :: y in ids ==> y in cursor
    requires Fits(cursor, PatternPairs(mode, ids, c))
    ensures var pairs := PatternPairs(mode, ids, c);
      var all := links0 + ExpectedLinks(cursor, pairs, |pairs|, first);
      forall k :: |links0| <= k < |all| ==> WellWired(all[k], Distinct(ids) && |ids| >= 2)
    ensures var pairs := PatternPairs(mode, ids, c);
      AllWired(links0) && Distinct(ids) && |ids| >= 2 ==> AllWired(links0 + ExpectedLinks(cursor, pairs, |pairs|, first))
  {
    var pairs := PatternPairs(mode, ids, c);
    var ls := ExpectedLinks(cursor, pairs, |pairs|, first);
    PatternLinksShape(cursor, mode, ids, c, first);
    ExpectedLinksInRange(cursor, pairs, first);
    forall k | |links0| <= k < |links0 + ls|
      ensures WellWired((links0 + ls)[k], Distinct(ids) && |ids| >= 2)
    {
      assert (links0 + ls)[k] == ls[k - |links0|];
    }
    if AllWired(links0) && Distinct(ids) && |ids| >= 2 {
      forall k | 0 <= k < |links0| ensures WellWired((links0 + ls)[k], true) {
        assert (links0 + ls)[k] == links0[k];
      }
    }
  }
}
