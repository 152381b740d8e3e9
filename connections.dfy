/** The connection half of src/nn.py: resolving the entries of a cluster's
    `connectedto` list (standardizeConnection, src/nn.py:88-101) and
    collecting, per connection tag, the first device of every cluster that
    takes part in a `single` connection (src/nn.py:303-344). */
module Connections {
  import opened Common
  import opened Buckets

  /** Index of the first declared connection carrying `name`, or |decls|.
      The same front-to-back search as Buckets.Position, over the
      `connections` declarations instead of the `[tag, items]` lists; it
      is written out for that element type, not parameterised by a tag
      accessor, so that the contracts stay first-order. */
  function FirstTagged(decls: seq<ConnectionSpec>, name: string): (k: nat)
    ensures k <= |decls|
    ensures k < |decls| ==> decls[k].tag == name
    ensures forall j :: 0 <= j < k ==> decls[j].tag != name
  {
    if decls == [] then 0 else if decls[0].tag == name then 0 else 1 + FirstTagged(decls[1..], name)
  }

  /** What standardizeConnection makes of one `connectedto` entry of the
      cluster `owner`. `decls` is the top-level `connections` list, None
      when the input has none. */
  function Resolve(ref: ConnRef, decls: Option<seq<ConnectionSpec>>, owner: string): (r: Result<ConnectionSpec>)
    ensures ref.Inline? ==> r == Ok(ref.spec)
    ensures ref.Reference? && decls.None? ==> r == Err(ConnectionsMissing)
    ensures ref.Reference? && decls.Some? ==>
              (r.Ok? <==> exists k :: 0 <= k < |decls.value| && decls.value[k].tag == ref.name)
    ensures ref.Reference? && r.Ok? ==>
              decls.Some? && r.value.tag == ref.name && r.value in decls.value
    ensures ref.Reference? && decls.Some? && r.Err? ==> r.error == UnknownConnection(owner)
  {
    match ref
    case Inline(spec) => Ok(spec)
    case Reference(name) =>
      if decls.None? then Err(ConnectionsMissing)
      else
        var k := FirstTagged(decls.value, name);
        if k < |decls.value| then Ok(decls.value[k]) else Err(UnknownConnection(owner))
  }

  /** A bare tag resolves to the FIRST declared connection with that tag. */
  lemma ResolveFirst(name: string, decls: seq<ConnectionSpec>, owner: string, k: nat)
    requires k < |decls| && decls[k].tag == name
    ensures Resolve(Reference(name), Some(decls), owner).Ok?
    ensures exists j :: 0 <= j <= k && Resolve(Reference(name), Some(decls), owner).value == decls[j] &&
                        forall i :: 0 <= i < j ==> decls[i].tag != name
  {
    var j := FirstTagged(decls, name);
    assert j <= k;
  }

  /** The loop of standardizeConnection, with its found-flag. */
  method StandardizeConnection(ref: ConnRef, decls: Option<seq<ConnectionSpec>>, owner: string)
      returns (r: Result<ConnectionSpec>)
    ensures r == Resolve(ref, decls, owner)
  {
    match ref
    case Inline(spec) =>
      r := Ok(spec);
    case Reference(name) =>
      if decls.None? {
        return Err(ConnectionsMissing);
      }
      var ds := decls.value;
      var found := false;
      var i := 0;
      while i < |ds|
        invariant 0 <= i <= |ds|
        invariant forall j :: 0 <= j < i ==> ds[j].tag != name
        invariant !found
      {
        if ds[i].tag == name {
          found := true;
          break;
        }
        i := i + 1;
      }
      if !found {
        return Err(UnknownConnection(owner));
      }
      r := Ok(ds[i]);
  }

  /** Every entry of `refs` resolves. */
  predicate Resolves(refs: seq<ConnRef>, decls: Option<seq<ConnectionSpec>>, owner: string) {
    refs == [] || (Resolve(refs[0], decls, owner).Ok? && Resolves(refs[1..], decls, owner))
  }

  /** Some entry of `refs` resolves to a connection tagged `t`. */
  predicate Mentions(refs: seq<ConnRef>, decls: Option<seq<ConnectionSpec>>, owner: string, t: string) {
    refs != [] &&
    ((Resolve(refs[0], decls, owner).Ok? && Resolve(refs[0], decls, owner).value.tag == t) ||
     Mentions(refs[1..], decls, owner, t))
  }

  /** Two entries of `refs` resolve to connections with the same tag. */
  predicate Repeats(refs: seq<ConnRef>, decls: Option<seq<ConnectionSpec>>, owner: string) {
    refs != [] &&
    ((Resolve(refs[0], decls, owner).Ok? && Mentions(refs[1..], decls, owner, Resolve(refs[0], decls, owner).value.tag)) ||
     Repeats(refs[1..], decls, owner))
  }

  /** Some entry of `refs` resolves to a `single` connection tagged `t`. */
  predicate SingleRef(refs: seq<ConnRef>, decls: Option<seq<ConnectionSpec>>, owner: string, t: string) {
    refs != [] &&
    ((Resolve(refs[0], decls, owner).Ok? && Resolve(refs[0], decls, owner).value.tag == t &&
      Resolve(refs[0], decls, owner).value.mode == Single) ||
     SingleRef(refs[1..], decls, owner, t))
  }

  /** Some entry of `refs` resolves to a `single` connection. */
  predicate SingleAny(refs: seq<ConnRef>, decls: Option<seq<ConnectionSpec>>, owner: string) {
    refs != [] &&
    ((Resolve(refs[0], decls, owner).Ok? && Resolve(refs[0], decls, owner).value.mode == Single) ||
     SingleAny(refs[1..], decls, owner))
  }

  /** Some cluster of `routers` has an entry resolving to a `single` connection. */
  predicate Joins(routers: seq<RouterSpec>, decls: Option<seq<ConnectionSpec>>) {
    routers != [] &&
    (SingleAny(routers[0].connectedTo, decls, routers[0].tag) || Joins(routers[1..], decls))
  }

  /** The grouping pass over one cluster's `connectedto` entries, in order
      (src/nn.py:307-338): resolve the entry, abort when its tag was already
      seen for this cluster, remember the tag, and in `single` mode add
      the cluster's first device `first` to the group of that tag. */
  function Scan(refs: seq<ConnRef>, decls: Option<seq<ConnectionSpec>>, owner: string, first: Id,
                seen: seq<string>, groups: seq<Bucket>): (r: Result<seq<Bucket>>)
    ensures r.Err? ==> r.error != CapacityExceeded && (r.error == ConnectionsMissing ==> decls.None?)
    ensures r.Ok? ==> (r.value != [] <==> groups != [] || SingleAny(refs, decls, owner))
    decreases |refs|
  {
    if refs == [] then Ok(groups)
    else
      match Resolve(refs[0], decls, owner)
      case Err(e) => Err(e)
      case Ok(d) =>
        if d.tag in seen then Err(DuplicateConnection(owner))
        else Scan(refs[1..], decls, owner, first, seen + [d.tag],
                  if d.mode == Single then Append(groups, d.tag, first) else groups)
  }

  /** The clusters of `routers` all have at least one device in `clusters`. */
  predicate Expanded(routers: seq<RouterSpec>, clusters: seq<Bucket>) {
    forall i :: 0 <= i < |routers| ==> Find(clusters, routers[i].tag) != []
  }

  lemma ExpandedTail(routers: seq<RouterSpec>, clusters: seq<Bucket>)
    requires routers != [] && Expanded(routers, clusters)
    ensures Expanded(routers[1..], clusters)
  {
    forall i | 0 <= i < |routers[1..]| ensures Find(clusters, routers[1..][i].tag) != [] {
      assert routers[1..][i] == routers[i + 1];
    }
  }

  /** The grouping pass over every cluster, in declaration order
      (src/nn.py:303-344), starting from the groups `groups`. */
  function Grouping(routers: seq<RouterSpec>, decls: Option<seq<ConnectionSpec>>, clusters: seq<Bucket>,
                    groups: seq<Bucket>): (r: Result<seq<Bucket>>)
    requires Expanded(routers, clusters)
    ensures r.Err? ==> r.error != CapacityExceeded && (r.error == ConnectionsMissing ==> decls.None?)
    ensures r.Ok? ==> (r.value != [] <==> groups != [] || Joins(routers, decls))
    decreases |routers|, 0
  {
    if routers == [] then Ok(groups)
    else Continue(Scan(routers[0].connectedTo, decls, routers[0].tag, Find(clusters, routers[0].tag)[0], [], groups),
                  routers[1..], decls, clusters)
  }

  /** Goes on with the clusters `routers` after a cluster's pass, or stops on its error. */
  function Continue(r: Result<seq<Bucket>>, routers: seq<RouterSpec>, decls: Option<seq<ConnectionSpec>>,
                    clusters: seq<Bucket>): Result<seq<Bucket>>
    requires Expanded(routers, clusters)
    decreases |routers|, 1
  {
    match r
    case Err(e) => Err(e)
    case Ok(gs) => Grouping(routers, decls, clusters, gs)
  }

  /** Grouping a non-empty list of clusters: the first cluster's pass, then the rest. */
  lemma GroupingStep(routers: seq<RouterSpec>, decls: Option<seq<ConnectionSpec>>, clusters: seq<Bucket>,
                     groups: seq<Bucket>)
    requires routers != [] && Expanded(routers, clusters)
    ensures Expanded(routers[1..], clusters)
    ensures var s := Scan(routers[0].connectedTo, decls, routers[0].tag, Find(clusters, routers[0].tag)[0], [], groups);
      Grouping(routers, decls, clusters, groups) ==
      if s.Ok? then Grouping(routers[1..], decls, clusters, s.value) else Err(s.error)
  {
    ExpandedTail(routers, clusters);
  }

  lemma ConcatAssoc(a: seq<Id>, b: seq<Id>, c: seq<Id>)
    ensures a + b + c == a + (b + c)
  {
  }

  /** A cluster whose entries all resolve, to pairwise different tags. */
  predicate ClusterOk(r: RouterSpec, decls: Option<seq<ConnectionSpec>>) {
    Resolves(r.connectedTo, decls, r.tag) && !Repeats(r.connectedTo, decls, r.tag)
  }

  /** The reference definition of a connection group: the first device of
      every cluster, in declaration order, that has an entry resolving to a
      `single` connection tagged `t`. */
  function Members(routers: seq<RouterSpec>, decls: Option<seq<ConnectionSpec>>, clusters: seq<Bucket>,
                   t: string): seq<Id>
    requires Expanded(routers, clusters)
    decreases |routers|
  {
    if routers == [] then []
    else (if SingleRef(routers[0].connectedTo, decls, routers[0].tag, t)
          then [Find(clusters, routers[0].tag)[0]] else []) +
         Members(routers[1..], decls, clusters, t)
  }

  lemma MembersStep(routers: seq<RouterSpec>, decls: Option<seq<ConnectionSpec>>, clusters: seq<Bucket>, t: string)
    requires routers != [] && Expanded(routers, clusters)
    ensures Expanded(routers[1..], clusters)
    ensures Members(routers, decls, clusters, t) ==
            (if SingleRef(routers[0].connectedTo, decls, routers[0].tag, t)
             then [Find(clusters, routers[0].tag)[0]] else []) +
            Members(routers[1..], decls, clusters, t)
  {
    ExpandedTail(routers, clusters);
  }

  /** One cluster's pass succeeds exactly when its entries all resolve, to
      tags that differ from each other and from those already seen. */
  lemma {:induction false} ScanOkIff(refs: seq<ConnRef>, decls: Option<seq<ConnectionSpec>>, owner: string,
                                     first: Id, seen: seq<string>, groups: seq<Bucket>)
    ensures Scan(refs, decls, owner, first, seen, groups).Ok? <==>
              Resolves(refs, decls, owner) && !Repeats(refs, decls, owner) &&
              forall t :: t in seen ==> !Mentions(refs, decls, owner, t)
    decreases |refs|
  {
    if refs != [] {
      var r := Resolve(refs[0], decls, owner);
      if r.Ok? {
        var d := r.value;
        var g' := if d.mode == Single then Append(groups, d.tag, first) else groups;
        ScanOkIff(refs[1..], decls, owner, first, seen + [d.tag], g');
        if d.tag in seen {
          assert Mentions(refs, decls, owner, d.tag);
        } else {
          var rest := refs[1..];
          forall t | t in seen ensures Mentions(refs, decls, owner, t) == Mentions(rest, decls, owner, t) {
          }
          assert (forall t :: t in seen + [d.tag] ==> !Mentions(rest, decls, owner, t)) <==>
                 !Mentions(rest, decls, owner, d.tag) && (forall t :: t in seen ==> !Mentions(rest, decls, owner, t));
        }
      }
    }
  }

  /** The groups one successful cluster pass leaves: each group that the
      cluster joins through a `single` entry gains `first` at its end. */
  lemma {:induction false} ScanCollects(refs: seq<ConnRef>, decls: Option<seq<ConnectionSpec>>, owner: string,
                                        first: Id, seen: seq<string>, groups: seq<Bucket>, t: string)
    requires Scan(refs, decls, owner, first, seen, groups).Ok?
    ensures Find(Scan(refs, decls, owner, first, seen, groups).value, t) ==
            Find(groups, t) + (if SingleRef(refs, decls, owner, t) then [first] else [])
    decreases |refs|
  {
    if refs != [] {
      var d := Resolve(refs[0], decls, owner).value;
      var g' := if d.mode == Single then Append(groups, d.tag, first) else groups;
      ScanCollects(refs[1..], decls, owner, first, seen + [d.tag], g', t);
      if d.mode == Single {
        FindAppend(groups, d.tag, first, t);
        if t == d.tag {
          ScanOkIff(refs[1..], decls, owner, first, seen + [d.tag], g');
          SingleMentions(refs[1..], decls, owner, t);
          assert d.tag in seen + [d.tag];
        }
      }
    }
  }

  /** An entry joining a `single` group also names that group's tag. */
  lemma {:induction false} SingleMentions(refs: seq<ConnRef>, decls: Option<seq<ConnectionSpec>>, owner: string, t: string)
    ensures SingleRef(refs, decls, owner, t) ==> Mentions(refs, decls, owner, t)
    decreases |refs|
  {
    if refs != [] {
      SingleMentions(refs[1..], decls, owner, t);
    }
  }

  /** Grouping succeeds exactly when every cluster's entries resolve, each
      cluster naming every connection tag at most once. */
  lemma {:induction false} GroupingOkIff(routers: seq<RouterSpec>, decls: Option<seq<ConnectionSpec>>,
                                         clusters: seq<Bucket>, groups: seq<Bucket>)
    requires Expanded(routers, clusters)
    ensures Grouping(routers, decls, clusters, groups).Ok? <==>
              forall i :: 0 <= i < |routers| ==> ClusterOk(routers[i], decls)
    decreases |routers|
  {
    if routers != [] {
      var r := routers[0];
      var s := Scan(r.connectedTo, decls, r.tag, Find(clusters, r.tag)[0], [], groups);
      ScanOkIff(r.connectedTo, decls, r.tag, Find(clusters, r.tag)[0], [], groups);
      ExpandedTail(routers, clusters);
      if s.Ok? {
        GroupingOkIff(routers[1..], decls, clusters, s.value);
        if forall i :: 0 <= i < |routers[1..]| ==> ClusterOk(routers[1..][i], decls) {
          forall i | 0 <= i < |routers| ensures ClusterOk(routers[i], decls) {
            if i > 0 {
              assert routers[i] == routers[1..][i - 1];
            }
          }
        } else {
          var i :| 0 <= i < |routers[1..]| && !ClusterOk(routers[1..][i], decls);
          assert !ClusterOk(routers[i + 1], decls);
        }
      } else {
        assert !ClusterOk(routers[0], decls);
      }
    }
  }

  /** Each connection group holds, in declaration order, the first device of
      every cluster with an entry resolving to a `single` connection of that tag. */
  lemma {:induction false} GroupingCollects(routers: seq<RouterSpec>, decls: Option<seq<ConnectionSpec>>,
                                            clusters: seq<Bucket>, groups: seq<Bucket>, t: string)
    requires Expanded(routers, clusters)
    requires Grouping(routers, decls, clusters, groups).Ok?
    ensures Find(Grouping(routers, decls, clusters, groups).value, t) ==
            Find(groups, t) + Members(routers, decls, clusters, t)
    decreases |routers|
  {
    if routers != [] {
      var r := routers[0];
      var first := Find(clusters, r.tag)[0];
      var s := Scan(r.connectedTo, decls, r.tag, first, [], groups);
      GroupingStep(routers, decls, clusters, groups);
      ScanCollects(r.connectedTo, decls, r.tag, first, [], groups, t);
      GroupingCollects(routers[1..], decls, clusters, s.value, t);
      MembersStep(routers, decls, clusters, t);
      ConcatAssoc(Find(groups, t), if SingleRef(r.connectedTo, decls, r.tag, t) then [first] else [],
                  Members(routers[1..], decls, clusters, t));
    }
  }

  /** `t` is among the tags this cluster has already listed (src/nn.py:310-313). */
  method Listed(seen: seq<string>, t: string) returns (b: bool)
    ensures b <==> t in seen
  {
    b := false;
    var j := 0;
    while j < |seen|
      invariant 0 <= j <= |seen|
      invariant t !in seen[..j]
    {
      if seen[j] == t {
        return true;
      }
      assert seen[..j + 1] == seen[..j] + [seen[j]];
      j := j + 1;
    }
    assert seen[..j] == seen;
  }

  /** The connection-grouping loop of src/nn.py:303-344. */
  method GroupConnections(routers: seq<RouterSpec>, decls: Option<seq<ConnectionSpec>>, clusters: seq<Bucket>)
      returns (res: Result<seq<Bucket>>)
    requires Expanded(routers, clusters)
    ensures res == Grouping(routers, decls, clusters, [])
  {
    var groups: seq<Bucket> := [];
    var ri := 0;
    while ri < |routers|
      invariant 0 <= ri <= |routers|
      invariant Expanded(routers[ri..], clusters)
      invariant Grouping(routers, decls, clusters, []) == Grouping(routers[ri..], decls, clusters, groups)
    {
      var r := routers[ri];
      ghost var first := Find(clusters, r.tag)[0];
      GroupingStep(routers[ri..], decls, clusters, groups);
      assert routers[ri..][0] == r && routers[ri..][1..] == routers[ri + 1..];
      var seen: seq<string> := [];
      var k := 0;
      while k < |r.connectedTo|
        invariant 0 <= k <= |r.connectedTo|
        invariant Grouping(routers, decls, clusters, []) ==
                  Continue(Scan(r.connectedTo[k..], decls, r.tag, first, seen, groups), routers[ri + 1..], decls, clusters)
      {
        var refs := r.connectedTo[k..];
        assert refs[0] == r.connectedTo[k] && refs[1..] == r.connectedTo[k + 1..];
        var d := StandardizeConnection(r.connectedTo[k], decls, r.tag);
        if d.Err? {
          return Err(d.error);
        }
        var dup := Listed(seen, d.value.tag);
        if dup {
          return Err(DuplicateConnection(r.tag));
        }
        seen := seen + [d.value.tag];
        if d.value.mode == Single {
          var devs := FindItems(clusters, r.tag);
          groups := AddToBucket(groups, d.value.tag, devs[0]);
        }
        k := k + 1;
      }
      ri := ri + 1;
    }
    res := Ok(groups);
  }
}
