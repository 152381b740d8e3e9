/** The in-memory topology that src/nn.py grows while it expands router
    clusters and wires them internally: the cluster table, every device's
    port cursor, and the `nodes` and `links` lists of the output. */
module Topology {
  import opened Common
  import opened Naming
  import opened Buckets
  import opened Wiring
  import opened Ports

  function IdRange(first: Id, n: nat): (r: seq<Id>)
    ensures |r| == n
  {
    seq(n, i requires 0 <= i < n => first + i)
  }

  /** The node records of a freshly expanded cluster: `<tag>-id1` .. `<tag>-id<n>`. */
  function ClusterNodes(tag: string, first: Id, n: nat): (r: seq<Node>)
    ensures |r| == n
  {
    seq(n, i requires 0 <= i < n => Node(DeviceName(tag, i + 1), first + i))
  }

  /** Expanding by one more id is one more Append. */
  lemma ExtendRangeSnoc(cl0: seq<Bucket>, tag: string, first: Id, n: nat)
    ensures Extend(cl0, tag, IdRange(first, n + 1)) == Append(Extend(cl0, tag, IdRange(first, n)), tag, first + n)
  {
    assert IdRange(first, n + 1)[..n] == IdRange(first, n);
  }

  /** One more node record at the end of a cluster's node list. */
  lemma ClusterNodesSnoc(nodes0: seq<Node>, tag: string, first: Id, n: nat)
    ensures nodes0 + ClusterNodes(tag, first, n + 1) ==
            nodes0 + ClusterNodes(tag, first, n) + [Node(DeviceName(tag, n + 1), first + n)]
  {
    assert ClusterNodes(tag, first, n + 1) == ClusterNodes(tag, first, n) + [Node(DeviceName(tag, n + 1), first + n)];
  }

  /** What the next cluster's expansion and wiring depend on: the cluster
      table, the port cursors and the id supply. */
  datatype Snapshot = Snapshot(clusters: seq<Bucket>, cursor: map<Id, nat>, nextId: Id)

  /** The snapshot once cluster `spec` has been expanded (src/nn.py:209-234). */
  function AfterExpansion(s: Snapshot, spec: RouterSpec): Snapshot {
    Snapshot(Extend(s.clusters, spec.tag, IdRange(s.nextId, spec.amount)),
             Opened(s.cursor, s.nextId, spec.amount),
             s.nextId + spec.amount)
  }

  /** The desired links of cluster `spec`, over the devices found under its
      tag once it has been expanded. */
  function ClusterPairs(s: Snapshot, spec: RouterSpec): seq<Pair> {
    PatternPairs(spec.mode, Find(AfterExpansion(s, spec).clusters, spec.tag), spec.cables)
  }

  /** Cluster `spec` can be wired: it has a single device, or its desired
      links fit into the ports its devices have left after expansion. */
  ghost predicate ClusterFits(s: Snapshot, spec: RouterSpec) {
    spec.amount <= 1 || Fits(AfterExpansion(s, spec).cursor, ClusterPairs(s, spec))
  }

  /** The snapshot after one pass of the cluster loop (src/nn.py:208-300)
      that did not abort: the cluster's devices are registered under its tag
      with cursors opened at 0, and every port its links use is taken. */
  ghost function AfterCluster(s: Snapshot, spec: RouterSpec): Snapshot
  {
    var e := AfterExpansion(s, spec);
    if spec.amount <= 1 then e
    else
      var pairs := ClusterPairs(s, spec);
      Snapshot(e.clusters, Served(e.cursor, pairs, |pairs|), e.nextId + |pairs|)
  }

  /** A cluster pass registers exactly the cluster's new ids under its tag,
      leaves every other tag's devices alone, opens one cursor per new id and
      takes at least as many ids as the cluster has devices. */
  lemma AfterClusterGrows(s: Snapshot, spec: RouterSpec)
    ensures var r := AfterCluster(s, spec);
      Find(r.clusters, spec.tag) == Find(s.clusters, spec.tag) + IdRange(s.nextId, spec.amount) &&
      (forall t :: t != spec.tag ==> Find(r.clusters, t) == Find(s.clusters, t)) &&
      r.cursor.Keys == s.cursor.Keys + IdSet(s.nextId, spec.amount) &&
      r.nextId >= s.nextId + spec.amount
  {
    FindExtendAll(s.clusters, spec.tag, IdRange(s.nextId, spec.amount));
  }

  /** A pass is AfterCluster as soon as its expansion step reaches
      AfterExpansion (`clusters`, `cur`, `n`) and its wiring step lays the
      cluster's pattern exactly when it fits. */
  lemma ClusterStep(s0: Snapshot, spec: RouterSpec, clusters: seq<Bucket>, cur: map<Id, nat>, n: Id,
                    ok: bool, cur1: map<Id, nat>, n1: Id)
    requires clusters == Extend(s0.clusters, spec.tag, IdRange(s0.nextId, spec.amount))
    requires cur == Opened(s0.cursor, s0.nextId, spec.amount) && n == s0.nextId + spec.amount
    requires spec.amount <= 1 ==> ok && cur1 == cur && n1 == n
    requires spec.amount > 1 ==>
      var pairs := PatternPairs(spec.mode, Find(clusters, spec.tag), spec.cables);
      (ok <==> Fits(cur, pairs)) &&
      (ok ==> cur1 == Served(cur, pairs, |pairs|) && n1 == n + |pairs|)
    ensures ok <==> ClusterFits(s0, spec)
    ensures ok ==> Snapshot(clusters, cur1, n1) == AfterCluster(s0, spec)
  {
  }

  /** The inner search of src/nn.py:70-71 up to its `break`: the first slot
      of `items` holding `x`, or |items| when there is none. */
  method SlotOf(items: seq<Id>, x: Id) returns (di: nat)
    ensures di <= |items|
    ensures di < |items| ==> items[di] == x
    ensures forall a :: 0 <= a < di ==> items[a] != x
  {
    di := 0;
    while di < |items|
      invariant di <= |items|
      invariant forall a :: 0 <= a < di ==> items[a] != x
    {
      if items[di] == x {
        return;
      }
      di := di + 1;
    }
  }

  class Builder {
    /** `arrayDesiredRouterClusters`: cluster tag -> its devices' ids. */
    var clusters: seq<Bucket>
    /** The port cursor of each device, the second slot of its `[node_id, cursor]` record. */
    var cursor: map<Id, nat>
    /** The `nodes` list of the topology. */
    var nodes: seq<Node>
    /** The `links` list of the topology. */
    var links: seq<Link>
    /** The id supply that stands for uuid4(): every id below it is taken. */
    var nextId: Id
    /** Every device in the cluster table. */
    ghost var devices: set<Id>
    /** Where each device sits in the cluster table: (bucket, slot). */
    ghost var loc: map<Id, (nat, nat)>

    /** The cluster table and the cursors describe the same devices, each
        once, no cursor is beyond PortLimit + 1 and every id is below the id supply. */
    ghost predicate Valid()
      reads this`clusters, this`devices, this`loc, this`cursor, this`nextId
    {
      TableOk(clusters, devices, loc) && CursorsOk(cursor, devices, nextId)
    }

    constructor ()
      ensures Valid()
      ensures clusters == [] && cursor == map[] && nodes == [] && links == [] && nextId == 0
    {
      clusters, cursor, nodes, links, nextId := [], map[], [], [], 0;
      devices, loc := {}, map[];
    }

    /** The table, cursors and id supply as a value. */
    ghost function State(): Snapshot
      reads this`clusters, this`cursor, this`nextId
    {
      Snapshot(clusters, cursor, nextId)
    }

    /** uuid4(): an id no device or link has yet. */
    method FreshId() returns (id: Id)
      requires Valid()
      modifies this`nextId
      ensures Valid()
      ensures id == old(nextId) && nextId == old(nextId) + 1
    {
      id := nextId;
      nextId := nextId + 1;
    }

    /** addNodeToLink (src/nn.py:68-78): finds the device, aborts when its
        cursor is above PortLimit, otherwise records an endpoint on adapter 1
        at the cursor's port and advances the cursor. An unknown id adds nothing. */
    method AddNodeToLink(node: Id, ends: seq<Endpoint>) returns (ok: bool, ends': seq<Endpoint>)
      requires Valid()
      modifies this`cursor
      ensures Valid()
      ensures ok <==> (node in old(cursor) ==> old(cursor)[node] <= PortLimit)
      ensures ok ==> ends' == ends + EndpointOf(old(cursor), node) && cursor == Bump(old(cursor), node)
      ensures !ok ==> cursor == old(cursor)
    {
      ok, ends' := true, ends;
      ghost var c0 := cursor;
      ghost var found, where := false, 0;
      var ci := 0;
      while ci < |clusters|
        invariant 0 <= ci <= |clusters|
        invariant !found ==> cursor == c0 && ends' == ends
        invariant !found ==> forall i, a :: 0 <= i < ci && 0 <= a < |clusters[i].items| ==> clusters[i].items[a] != node
        invariant found ==> node in c0 && c0[node] <= PortLimit &&
                            cursor == Bump(c0, node) && ends' == ends + EndpointOf(c0, node)
        invariant found ==> where < ci && node in clusters[where].items
      {
        if found {
          assert Disjoint(clusters[where].items, clusters[ci].items);
        }
        var di := SlotOf(clusters[ci].items, node);
        if di < |clusters[ci].items| {
          TableSlot(clusters, devices, loc, ci, di);
          CursorOf(cursor, devices, nextId, node);
          if cursor[node] > PortLimit {
            return false, ends';
          }
          ends' := ends' + [Endpoint(1, cursor[node], node)];
          cursor := cursor[node := cursor[node] + 1];
          found, where := true, ci;
        }
        ci := ci + 1;
      }
      if !found {
        ghost var i, a := TableWhere(clusters, devices, loc, node);
      } else {
        BumpOk(c0, devices, nextId, node);
      }
    }

    /** One pass of writeClusterLinks' loop (src/nn.py:81-85): a fresh link
        id, a port on `a`, then a port on `b`. It fails as soon as one of the
        two devices has no port left. */
    method WriteLink(a: Id, b: Id) returns (ok: bool)
      requires Valid()
      modifies this`cursor, this`links, this`nextId
      ensures Valid()
      ensures ok <==> PairFree(old(cursor), a, b)
      ensures ok ==> nextId == old(nextId) + 1 && cursor == Bump(Bump(old(cursor), a), b)
      ensures ok ==> links == old(links) + [PairLink(old(cursor), a, b, old(nextId))]
    {
      ghost var c0 := cursor;
      var linkId := FreshId();
      var ok1, ends1 := AddNodeToLink(a, []);
      if !ok1 {
        return false;
      }
      assert ends1 == EndpointOf(c0, a);
      var ok2, ends2 := AddNodeToLink(b, ends1);
      if !ok2 {
        return false;
      }
      ok := true;
      links := links + [Link(linkId, ends2)];
    }

    /** writeClusterLinks (src/nn.py:80-86): one link per desired pair, in
        order, each with a fresh id and a port allocated on both ends. The
        run aborts exactly when some device would need a port beyond PortLimit;
        otherwise each endpoint gets the next free port of its device and each
        cursor rises by the number of times its device is used. */
    method WriteClusterLinks(pairs: seq<Pair>) returns (ok: bool)
      requires Valid()
      modifies this`cursor, this`links, this`nextId
      ensures Valid()
      ensures ok <==> Fits(old(cursor), pairs)
      ensures ok ==> nextId == old(nextId) + |pairs|
      ensures ok ==> links == old(links) + ExpectedLinks(old(cursor), pairs, |pairs|, old(nextId))
      ensures ok ==> cursor == Served(old(cursor), pairs, |pairs|)
    {
      ghost var cur0, links0, next0 := cursor, links, nextId;
      ServedNone(cur0, pairs);
      var k := 0;
      while k < |pairs|
        invariant 0 <= k <= |pairs|
        invariant Valid()
        invariant nextId == next0 + k
        invariant links == links0 + ExpectedLinks(cur0, pairs, k, next0)
        invariant cursor == Served(cur0, pairs, k)
      {
        ServedStep(cur0, pairs, k);
        ExpectedLinksSnoc(cur0, pairs, k, next0);
        ok := WriteLink(pairs[k].left, pairs[k].right);
        if !ok {
          PairOverflow(cur0, pairs, k);
          return;
        }
        k := k + 1;
      }
      ServedFits(cur0, pairs);
      ok := true;
    }

    /** One device of an expanding cluster (src/nn.py:212-232): a fresh id,
        registered under `tag`, given cursor 0 and added to the node list. */
    method AddDevice(tag: string, ordinal: nat) returns (id: Id)
      requires Valid()
      modifies this`clusters, this`cursor, this`nodes, this`nextId, this`devices, this`loc
      ensures Valid()
      ensures id == old(nextId) && nextId == old(nextId) + 1
      ensures nodes == old(nodes) + [Node(DeviceName(tag, ordinal), id)]
      ensures clusters == Append(old(clusters), tag, id)
      ensures cursor == old(cursor)[id := 0] && id !in old(cursor)
    {
      CursorsAdd(cursor, devices, nextId);
      id := FreshId();
      ghost var p := TableOkAppend(clusters, devices, loc, tag, id);
      clusters := AddToBucket(clusters, tag, id);
      devices, loc := devices + {id}, loc[id := p];
      cursor := cursor[id := 0];
      nodes := nodes + [Node(DeviceName(tag, ordinal), id)];
    }

    /** Expansion of one router cluster (src/nn.py:209-234): `amount` devices
        named `<tag>-id1` .. `<tag>-id<amount>`, each with a fresh id and
        cursor 0, appended under the cluster's tag (after any devices an
        earlier cluster with the same tag left there) and to the node list. */
    method ExpandCluster(spec: RouterSpec)
      requires Valid()
      modifies this`clusters, this`cursor, this`nodes, this`nextId, this`devices, this`loc
      ensures Valid()
      ensures nextId == old(nextId) + spec.amount
      ensures nodes == old(nodes) + ClusterNodes(spec.tag, old(nextId), spec.amount)
      ensures clusters == Extend(old(clusters), spec.tag, IdRange(old(nextId), spec.amount))
      ensures Grown(cursor, old(cursor), old(nextId), nextId)
    {
      ghost var cl0, cur0, nodes0, n0 := clusters, cursor, nodes, nextId;
      GrownNone(cur0, n0);
      var i := 0;
      while i < spec.amount
        invariant 0 <= i <= spec.amount
        invariant Valid()
        invariant nextId == n0 + i
        invariant nodes == nodes0 + ClusterNodes(spec.tag, n0, i)
        invariant clusters == Extend(cl0, spec.tag, IdRange(n0, i))
        invariant Grown(cursor, cur0, n0, nextId)
      {
        ghost var c := cursor;
        var id := AddDevice(spec.tag, i + 1);
        GrownStep(c, cur0, n0, id);
        ExtendRangeSnoc(cl0, spec.tag, n0, i);
        ClusterNodesSnoc(nodes0, spec.tag, n0, i);
        i := i + 1;
      }
    }

    /** Internal wiring of one router cluster (src/nn.py:236-300): only when
        `amount > 1`, the devices found under the cluster's tag are cabled
        by its `clustermode` and the links written out. It aborts exactly when
        some device would run out of ports; every link it adds has two ends on
        adapter 1 with ports up to PortLimit, on two different devices
        whenever the cluster has two or more. */
    method WireCluster(spec: RouterSpec) returns (ok: bool)
      requires Valid()
      modifies this`cursor, this`links, this`nextId
      ensures Valid()
      ensures spec.amount <= 1 ==>
                ok && cursor == old(cursor) && links == old(links) && nextId == old(nextId)
      ensures spec.amount > 1 ==>
                var pairs := PatternPairs(spec.mode, Find(clusters, spec.tag), spec.cables);
                (ok <==> Fits(old(cursor), pairs)) &&
                (ok ==> links == old(links) + ExpectedLinks(old(cursor), pairs, |pairs|, old(nextId)) &&
                        cursor == Served(old(cursor), pairs, |pairs|) &&
                        nextId == old(nextId) + |pairs|)
      ensures ok ==> forall k :: |old(links)| <= k < |links| ==>
                WellWired(links[k], |Find(clusters, spec.tag)| >= 2)
      ensures ok && AllWired(old(links)) && (spec.amount <= 1 || |Find(clusters, spec.tag)| >= 2) ==> AllWired(links)
      ensures clusters == old(clusters) && nodes == old(nodes)
    {
      if spec.amount <= 1 {
        return true;
      }
      var devs := FindItems(clusters, spec.tag);
      FindDistinct(clusters, spec.tag);
      var pairs := DesiredPairs(spec.mode, devs, spec.cables);
      forall y | y in devs ensures y in cursor {
        TableFind(clusters, devices, loc, spec.tag, y);
      }
      ghost var cur0, links0, next0 := cursor, links, nextId;
      ok := WriteClusterLinks(pairs);
      if ok {
        PatternLinksWired(links0, cur0, spec.mode, devs, spec.cables, next0);
      }
    }

    /** One pass of the cluster loop (src/nn.py:208-300): expansion, then
        internal wiring; the links it adds are well wired between different devices. */
    method AddCluster(spec: RouterSpec) returns (ok: bool)
      requires Valid() && spec.amount >= 1
      modifies this`clusters, this`cursor, this`nodes, this`links, this`nextId, this`devices, this`loc
      ensures Valid()
      ensures nodes == old(nodes) + ClusterNodes(spec.tag, old(nextId), spec.amount)
      ensures clusters == Extend(old(clusters), spec.tag, IdRange(old(nextId), spec.amount))
      ensures ok && AllWired(old(links)) ==> AllWired(links)
      ensures ok <==> ClusterFits(old(State()), spec)
      ensures ok ==> State() == AfterCluster(old(State()), spec)
    {
      ghost var s0 := State();
      ExpandCluster(spec);
      GrownIs(cursor, s0.cursor, s0.nextId, spec.amount);
      FindExtendLength(s0.clusters, spec.tag, IdRange(s0.nextId, spec.amount));
      ghost var cur, n := cursor, nextId;
      ok := WireCluster(spec);
      ClusterStep(s0, spec, clusters, cur, n, ok, cursor, nextId);
    }
  }
}
