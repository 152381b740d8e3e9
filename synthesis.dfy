/** The whole synthesis of src/nn.py:208-344: every router cluster is
    expanded and wired internally, in declaration order, then the clusters'
    connection entries are grouped. */
module Synthesis {
  import opened Common
  import opened Naming
  import opened Buckets
  import opened Ports
  import opened Topology
  import opened Connections

  /** The names the expansion of one cluster gives: `<tag>-id1` .. `<tag>-id<n>`. */
  function ClusterNames(tag: string, n: nat): (r: seq<string>)
    ensures |r| == n
  {
    seq(n, i requires 0 <= i < n => DeviceName(tag, i + 1))
  }

  /** The names of all devices, cluster after cluster. */
  function Names(routers: seq<RouterSpec>): seq<string>
    decreases |routers|
  {
    if routers == [] then []
    else Names(routers[..|routers| - 1]) + ClusterNames(routers[|routers| - 1].tag, routers[|routers| - 1].amount)
  }

  function NodeNames(ns: seq<Node>): (r: seq<string>)
    ensures |r| == |ns|
  {
    seq(|ns|, i requires 0 <= i < |ns| => ns[i].name)
  }

  /** Expanding one more cluster appends its names to the node list's names. */
  lemma NodeNamesStep(ns: seq<Node>, tag: string, first: Id, n: nat)
    ensures NodeNames(ns + ClusterNodes(tag, first, n)) == NodeNames(ns) + ClusterNames(tag, n)
  {
    var l := ns + ClusterNodes(tag, first, n);
    assert forall i :: 0 <= i < |l| ==> NodeNames(l)[i] == (NodeNames(ns) + ClusterNames(tag, n))[i];
  }

  lemma NamesStep(routers: seq<RouterSpec>, i: nat)
    requires i < |routers|
    ensures Names(routers[..i + 1]) == Names(routers[..i]) + ClusterNames(routers[i].tag, routers[i].amount)
  {
    assert routers[..i + 1][..i] == routers[..i];
  }

  /** Adding devices under the tag of cluster i keeps every tag that had
      devices, so the first i + 1 clusters all have devices afterwards. */
  lemma ExtendExpanded(routers: seq<RouterSpec>, i: nat, cl: seq<Bucket>, xs: seq<Id>)
    requires i < |routers| && Expanded(routers[..i], cl) && |xs| >= 1
    ensures Expanded(routers[..i + 1], Extend(cl, routers[i].tag, xs))
  {
    var cl' := Extend(cl, routers[i].tag, xs);
    var pre := routers[..i + 1];
    forall j | 0 <= j < |pre| ensures Find(cl', pre[j].tag) != [] {
      FindExtend(cl, routers[i].tag, xs, routers[j].tag);
      if j < i {
        assert routers[..i][j] == routers[j];
      }
    }
  }

  /** The snapshot after the first k clusters have been expanded and wired,
      starting from an empty topology. */
  ghost function After(routers: seq<RouterSpec>, k: nat): Snapshot
    requires k <= |routers|
  {
    if k == 0 then Snapshot([], map[], 0) else AfterCluster(After(routers, k - 1), routers[k - 1])
  }

  /** Each of the first k clusters, in turn, finds enough free ports for its
      internal wiring. */
  ghost predicate FitsUpTo(routers: seq<RouterSpec>, k: nat)
    requires k <= |routers|
  {
    forall j :: 0 <= j < k ==> ClusterFits(After(routers, j), routers[j])
  }

  /** Every cluster, in turn, finds enough free ports for its internal wiring. */
  ghost predicate RunFits(routers: seq<RouterSpec>) {
    FitsUpTo(routers, |routers|)
  }

  /** One pass of the cluster loop: a cluster that fits extends the run to
      the next snapshot, one that does not makes the whole run fail. */
  lemma RunStep(routers: seq<RouterSpec>, i: nat, s0: Snapshot, ok: bool, s1: Snapshot)
    requires i < |routers| && FitsUpTo(routers, i) && s0 == After(routers, i)
    requires ok <==> ClusterFits(s0, routers[i])
    requires ok ==> s1 == AfterCluster(s0, routers[i])
    ensures ok ==> FitsUpTo(routers, i + 1) && s1 == After(routers, i + 1)
    ensures !ok ==> !RunFits(routers)
  {
  }

  /** Expansion and internal wiring of every cluster in declaration order
      (src/nn.py:208-300): the nodes carry the expansion's names in order,
      every link has two ends on adapter 1, at ports up to PortLimit, on two
      different devices; the only abort is a device running out of ports.
      `clusters` is the cluster table built along the way. */
  method Build(routers: seq<RouterSpec>) returns (res: Result<Graph>, clusters: seq<Bucket>)
    requires forall i :: 0 <= i < |routers| ==> ValidRouter(routers[i])
    ensures res.Ok? ==> Expanded(routers, clusters)
    ensures res.Ok? ==> NodeNames(res.value.nodes) == Names(routers)
    ensures res.Ok? ==> AllWired(res.value.links)
    ensures res.Err? ==> res.error == CapacityExceeded
    ensures res.Ok? <==> RunFits(routers)
  {
    var b := new Builder();
    var i := 0;
    while i < |routers|
      invariant 0 <= i <= |routers|
      invariant b.Valid()
      invariant NodeNames(b.nodes) == Names(routers[..i])
      invariant AllWired(b.links)
      invariant Expanded(routers[..i], b.clusters)
      invariant b.State() == After(routers, i)
      invariant FitsUpTo(routers, i)
    {
      var r := routers[i];
      ghost var nodes0, cl0, n0, s0 := b.nodes, b.clusters, b.nextId, b.State();
      var ok := b.AddCluster(r);
      NodeNamesStep(nodes0, r.tag, n0, r.amount);
      NamesStep(routers, i);
      ExtendExpanded(routers, i, cl0, IdRange(n0, r.amount));
      RunStep(routers, i, s0, ok, b.State());
      if !ok {
        return Err(CapacityExceeded), b.clusters;
      }
      i := i + 1;
    }
    assert routers[..i] == routers;
    res, clusters := Ok(Graph(b.nodes, b.links)), b.clusters;
  }

  /** The run: Build, then the grouping of the clusters' connection entries
      (src/nn.py:303-344). It succeeds only when every cluster's entries
      resolve to pairwise different tags, and every abort other than a lack
      of ports or of a `connections` list is caused by a cluster whose
      entries do not. A group formed while the input declares no
      `connections` list fails when the unused application loop of
      src/nn.py:347-349 iterates over that missing list. */
  method Synthesize(routers: seq<RouterSpec>, decls: Option<seq<ConnectionSpec>>) returns (res: Result<Graph>)
    requires forall i :: 0 <= i < |routers| ==> ValidRouter(routers[i])
    ensures res.Ok? ==> NodeNames(res.value.nodes) == Names(routers)
    ensures res.Ok? ==> AllWired(res.value.links)
    ensures res.Ok? ==> forall i :: 0 <= i < |routers| ==> ClusterOk(routers[i], decls)
    ensures res.Err? && res.error != CapacityExceeded && res.error != ConnectionsMissing ==>
              exists i :: 0 <= i < |routers| && !ClusterOk(routers[i], decls)
    ensures res == Err(CapacityExceeded) <==> !RunFits(routers)
    ensures res.Err? && res.error == ConnectionsMissing ==> decls.None?
    ensures res.Ok? <==> RunFits(routers) && (forall i :: 0 <= i < |routers| ==> ClusterOk(routers[i], decls)) &&
                         (decls.Some? || !Joins(routers, decls))
  {
    var built, clusters := Build(routers);
    if built.Err? {
      res := built;
    } else {
      var grouped := GroupConnections(routers, decls, clusters);
      GroupingOkIff(routers, decls, clusters, []);
      if grouped.Err? {
        res := Err(grouped.error);
      } else if grouped.value != [] && decls.None? {
        res := Err(ConnectionsMissing);
      } else {
        res := built;
      }
    }
  }
}
