/** The `[tag, [items...]]` lists that src/nn.py grows step by step: the
    cluster table `arrayDesiredRouterClusters` (tag -> device ids) and the
    connection groups `arrayDesiredConnections` (tag -> representative
    devices). Both are searched front to back and extended with the same
    "known flag, then append a new entry or extend every matching one" code. */
module Buckets {
  import opened Common

  datatype Bucket = Bucket(tag: string, items: seq<Id>)

  /** Index of the first bucket carrying `tag`, or |bs| when there is none. */
  function Position(bs: seq<Bucket>, tag: string): (k: nat)
    ensures k <= |bs|
    ensures k < |bs| ==> bs[k].tag == tag
    ensures forall j :: 0 <= j < k ==> bs[j].tag != tag
  {
    if bs == [] then 0 else if bs[0].tag == tag then 0 else 1 + Position(bs[1..], tag)
  }

  predicate Known(bs: seq<Bucket>, tag: string) {
    exists k :: 0 <= k < |bs| && bs[k].tag == tag
  }

  /** What a front-to-back search that stops at the first match sees:
      the items under `tag`, or nothing when the tag is unknown. */
  function Find(bs: seq<Bucket>, tag: string): seq<Id> {
    if Position(bs, tag) < |bs| then bs[Position(bs, tag)].items else []
  }

  /** Adds `x` under `tag`: a new bucket when the tag is unknown, otherwise
      appended to every bucket carrying the tag. */
  function Append(bs: seq<Bucket>, tag: string, x: Id): seq<Bucket> {
    if Known(bs, tag) then
      seq(|bs|, k requires 0 <= k < |bs| =>
        if bs[k].tag == tag then Bucket(tag, bs[k].items + [x]) else bs[k])
    else
      bs + [Bucket(tag, [x])]
  }

  predicate TagsUnique(bs: seq<Bucket>) {
    forall i, j :: 0 <= i < j < |bs| ==> bs[i].tag != bs[j].tag
  }

  ghost predicate InTable(bs: seq<Bucket>, x: Id) {
    exists i, a :: 0 <= i < |bs| && 0 <= a < |bs[i].items| && bs[i].items[a] == x
  }

  predicate Disjoint(s: seq<Id>, t: seq<Id>) {
    forall a, b :: 0 <= a < |s| && 0 <= b < |t| ==> s[a] != t[b]
  }

  /** No id occurs twice in the whole table. */
  predicate ItemsDistinct(bs: seq<Bucket>) {
    (forall i :: 0 <= i < |bs| ==> Distinct(bs[i].items)) &&
    (forall i, j :: 0 <= i < j < |bs| ==> Disjoint(bs[i].items, bs[j].items))
  }

  /** Position is determined by the tags alone. */
  lemma PositionIs(bs: seq<Bucket>, tag: string, p: nat)
    requires p <= |bs|
    requires p < |bs| ==> bs[p].tag == tag
    requires forall j :: 0 <= j < p ==> bs[j].tag != tag
    ensures Position(bs, tag) == p
  {
  }

  lemma KnownIsPosition(bs: seq<Bucket>, tag: string)
    ensures Known(bs, tag) <==> Position(bs, tag) < |bs|
  {
    if Known(bs, tag) {
      var k :| 0 <= k < |bs| && bs[k].tag == tag;
      assert Position(bs, tag) <= k;
    }
  }

  /** Adding `x` under `tag` extends what a search for `tag` finds by exactly
      `x`, and leaves what every other search finds unchanged. */
  lemma FindAppend(bs: seq<Bucket>, tag: string, x: Id, t: string)
    ensures Find(Append(bs, tag, x), t) == Find(bs, t) + (if t == tag then [x] else [])
  {
    var cs := Append(bs, tag, x);
    var p := Position(bs, t);
    KnownIsPosition(bs, tag);
    if Known(bs, tag) {
      assert forall k :: 0 <= k < |bs| ==> cs[k].tag == bs[k].tag;
      PositionIs(cs, t, p);
    } else if t == tag {
      PositionIs(bs, t, |bs|);
      PositionIs(cs, t, |bs|);
    } else {
      PositionIs(cs, t, if p < |bs| then p else |bs| + 1);
    }
  }

  /** Adds the ids `xs` under `tag` one after the other. */
  function Extend(bs: seq<Bucket>, tag: string, xs: seq<Id>): seq<Bucket> {
    if xs == [] then bs else Append(Extend(bs, tag, xs[..|xs| - 1]), tag, xs[|xs| - 1])
  }

  /** Adding several ids under `tag` extends what a search for `tag` finds by
      exactly those ids, in order, and leaves every other search unchanged. */
  lemma {:induction false} FindExtend(bs: seq<Bucket>, tag: string, xs: seq<Id>, t: string)
    ensures Find(Extend(bs, tag, xs), t) == Find(bs, t) + (if t == tag then xs else [])
  {
    if xs != [] {
      var ys, x := xs[..|xs| - 1], xs[|xs| - 1];
      FindExtend(bs, tag, ys, t);
      FindAppend(Extend(bs, tag, ys), tag, x, t);
      assert ys + [x] == xs;
    }
  }

  /** FindExtend for every tag at once. */
  lemma FindExtendAll(bs: seq<Bucket>, tag: string, xs: seq<Id>)
    ensures forall t :: Find(Extend(bs, tag, xs), t) == Find(bs, t) + (if t == tag then xs else [])
  {
    forall t ensures Find(Extend(bs, tag, xs), t) == Find(bs, t) + (if t == tag then xs else []) {
      FindExtend(bs, tag, xs, t);
    }
  }

  /** After adding `xs` under `tag`, a search for `tag` finds at least |xs| ids. */
  lemma FindExtendLength(bs: seq<Bucket>, tag: string, xs: seq<Id>)
    ensures |Find(Extend(bs, tag, xs), tag)| >= |xs|
  {
    FindExtend(bs, tag, xs, tag);
  }

  lemma InTableAppend(bs: seq<Bucket>, tag: string, x: Id, y: Id)
    ensures InTable(Append(bs, tag, x), y) <==> InTable(bs, y) || y == x
  {
    var cs := Append(bs, tag, x);
    if Known(bs, tag) {
      var k :| 0 <= k < |bs| && bs[k].tag == tag;
      assert cs[k].items[|bs[k].items|] == x;
      if InTable(bs, y) {
        var i, a :| 0 <= i < |bs| && 0 <= a < |bs[i].items| && bs[i].items[a] == y;
        assert cs[i].items[a] == y;
      }
      if InTable(cs, y) {
        var i, a :| 0 <= i < |cs| && 0 <= a < |cs[i].items| && cs[i].items[a] == y;
        if a < |bs[i].items| { assert bs[i].items[a] == y; }
      }
    } else {
      assert cs[|bs|].items[0] == x;
      if InTable(bs, y) {
        var i, a :| 0 <= i < |bs| && 0 <= a < |bs[i].items| && bs[i].items[a] == y;
        assert cs[i].items[a] == y;
      }
      if InTable(cs, y) {
        var i, a :| 0 <= i < |cs| && 0 <= a < |cs[i].items| && cs[i].items[a] == y;
        if i < |bs| { assert bs[i].items[a] == y; }
      }
    }
  }

  /** Appending leaves every id already in the table in its slot. */
  lemma AppendKeeps(bs: seq<Bucket>, tag: string, x: Id, i: nat, a: nat)
    requires i < |bs| && a < |bs[i].items|
    ensures var cs := Append(bs, tag, x);
      i < |cs| && a < |cs[i].items| && cs[i].items[a] == bs[i].items[a]
  {
  }

  /** Appending puts `x` in a slot, and every other slot holds an id that was there before. */
  lemma AppendPlaces(bs: seq<Bucket>, tag: string, x: Id) returns (i: nat, a: nat)
    ensures var cs := Append(bs, tag, x);
      i < |cs| && a < |cs[i].items| && cs[i].items[a] == x
    ensures var cs := Append(bs, tag, x);
      forall j, b :: 0 <= j < |cs| && 0 <= b < |cs[j].items| && cs[j].items[b] != x ==>
        j < |bs| && b < |bs[j].items| && cs[j].items[b] == bs[j].items[b]
  {
    KnownIsPosition(bs, tag);
    if Known(bs, tag) {
      i := Position(bs, tag);
      a := |bs[i].items|;
    } else {
      i, a := |bs|, 0;
    }
  }

  /** Adding a tag keeps the tags unique. */
  lemma TagsUniqueAppend(bs: seq<Bucket>, tag: string, x: Id)
    requires TagsUnique(bs)
    ensures TagsUnique(Append(bs, tag, x))
  {
  }

  /** Adding an id that is not yet in the table keeps every id distinct. */
  lemma ItemsDistinctAppend(bs: seq<Bucket>, tag: string, x: Id)
    requires TagsUnique(bs) && ItemsDistinct(bs) && !InTable(bs, x)
    ensures ItemsDistinct(Append(bs, tag, x))
  {
    var cs := Append(bs, tag, x);
    forall i, a | 0 <= i < |bs| && 0 <= a < |bs[i].items|
      ensures bs[i].items[a] != x
    {
      if bs[i].items[a] == x { assert InTable(bs, x); }
    }
  }

  /** Every id a search finds sits in some slot of the table. */
  lemma FindPlace(bs: seq<Bucket>, tag: string, y: Id) returns (i: nat, a: nat)
    requires y in Find(bs, tag)
    ensures i < |bs| && a < |bs[i].items| && bs[i].items[a] == y
  {
    i := Position(bs, tag);
    a :| 0 <= a < |bs[i].items| && bs[i].items[a] == y;
  }


  lemma FindDistinct(bs: seq<Bucket>, tag: string)
    requires ItemsDistinct(bs)
    ensures Distinct(Find(bs, tag))
  {
  }

  /** Slot `p` (bucket, position) of the table holds `x`. */
  ghost predicate At(bs: seq<Bucket>, p: (nat, nat), x: Id) {
    p.0 < |bs| && p.1 < |bs[p.0].items| && bs[p.0].items[p.1] == x
  }

  /** The cluster table of a topology under construction: tags unique, no id
      twice, and `devices` exactly the ids it holds, each at its slot in `loc`. */
  ghost predicate TableOk(bs: seq<Bucket>, devices: set<Id>, loc: map<Id, (nat, nat)>) {
    TagsUnique(bs) && ItemsDistinct(bs) &&
    (forall i, a :: 0 <= i < |bs| && 0 <= a < |bs[i].items| ==> bs[i].items[a] in devices) &&
    (forall id :: id in devices ==> id in loc && At(bs, loc[id], id))
  }

  /** Adding a new id keeps the table well formed, with the id recorded at slot `p`. */
  lemma TableOkAppend(bs: seq<Bucket>, devices: set<Id>, loc: map<Id, (nat, nat)>, tag: string, x: Id)
      returns (p: (nat, nat))
    requires TableOk(bs, devices, loc) && x !in devices
    ensures TableOk(Append(bs, tag, x), devices + {x}, loc[x := p])
  {
    assert !InTable(bs, x);
    TagsUniqueAppend(bs, tag, x);
    ItemsDistinctAppend(bs, tag, x);
    var i, a := AppendPlaces(bs, tag, x);
    p := (i, a);
    var cs := Append(bs, tag, x);
    forall y | y in devices ensures At(cs, loc[y], y) {
      AppendKeeps(bs, tag, x, loc[y].0, loc[y].1);
    }
  }

  /** Every slot of a well-formed table holds one of its devices. */
  lemma TableSlot(bs: seq<Bucket>, devices: set<Id>, loc: map<Id, (nat, nat)>, i: nat, a: nat)
    requires TableOk(bs, devices, loc) && i < |bs| && a < |bs[i].items|
    ensures bs[i].items[a] in devices
  {
  }

  /** Every device of a well-formed table sits in some slot. */
  lemma TableWhere(bs: seq<Bucket>, devices: set<Id>, loc: map<Id, (nat, nat)>, x: Id) returns (i: nat, a: nat)
    requires TableOk(bs, devices, loc)
    ensures x in devices ==> i < |bs| && a < |bs[i].items| && bs[i].items[a] == x
  {
    i, a := 0, 0;
    if x in devices {
      i, a := loc[x].0, loc[x].1;
    }
  }

  /** Every id a search of a well-formed table finds is one of its devices. */
  lemma TableFind(bs: seq<Bucket>, devices: set<Id>, loc: map<Id, (nat, nat)>, tag: string, y: Id)
    requires TableOk(bs, devices, loc) && y in Find(bs, tag)
    ensures y in devices
  {
    var i, a := FindPlace(bs, tag, y);
  }

  /** The search loop of src/nn.py:242-243 (and its copies in every
      clustermode case and at 326-329): front to back, first match wins. */
  method FindItems(bs: seq<Bucket>, tag: string) returns (items: seq<Id>)
    ensures items == Find(bs, tag)
  {
    items := [];
    var i := 0;
    while i < |bs|
      invariant 0 <= i <= |bs|
      invariant forall j :: 0 <= j < i ==> bs[j].tag != tag
    {
      if bs[i].tag == tag {
        items := bs[i].items;
        PositionIs(bs, tag, i);
        return;
      }
      i := i + 1;
    }
    PositionIs(bs, tag, |bs|);
  }

  /** The known-flag search and the append-or-extend step of src/nn.py:221-232
      (repeated for connection groups at 319-336). */
  method AddToBucket(bs: seq<Bucket>, tag: string, x: Id) returns (r: seq<Bucket>)
    ensures r == Append(bs, tag, x)
  {
    var known := false;
    var i := 0;
    while i < |bs|
      invariant 0 <= i <= |bs|
      invariant forall j :: 0 <= j < i ==> bs[j].tag != tag
    {
      if bs[i].tag == tag {
        known := true;
        break;
      }
      i := i + 1;
    }
    assert known <==> Known(bs, tag);
    if !known {
      r := bs + [Bucket(tag, [x])];
    } else {
      r := bs;
      var k := 0;
      while k < |r|
        invariant 0 <= k <= |r| == |bs|
        invariant forall j :: 0 <= j < k ==>
          r[j] == (if bs[j].tag == tag then Bucket(tag, bs[j].items + [x]) else bs[j])
        invariant forall j :: k <= j < |bs| ==> r[j] == bs[j]
      {
        if r[k].tag == tag {
          r := r[k := Bucket(tag, r[k].items + [x])];
        }
        k := k + 1;
      }
    }
  }
}
