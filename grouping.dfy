/**
 * Grouping of the journal's detections (image_analysis/data_handler.py):
 * bucketing by colour and shape, clustering each shape group by position,
 * and averaging every cluster.
 */
module Grouping {
  import opened Wrappers
  import opened Observation

  // ---------------------------------------------------------------------------
  // _get_obj_tree
  // ---------------------------------------------------------------------------

  /** colour -> bucket -> objects, in the order they were found. */
  type Tree = map<string, map<string, seq<Detection>>>

  /** The bucket of an object under its colour: its shape when truthy, "all" otherwise. */
  function BucketKey(o: Detection): string {
    if HasShape(o) then o.shape.value else "all"
  }

  /** The found objects of one frame, stamped with the frame's time. */
  function Stamped(f: Frame): (r: seq<Detection>)
    ensures |r| == |f.foundObjs|
    ensures forall i :: 0 <= i < |r| ==> r[i] == f.foundObjs[i].(time := Some(f.time))
  {
    seq(|f.foundObjs|, i requires 0 <= i < |f.foundObjs| => f.foundObjs[i].(time := Some(f.time)))
  }

  /** The found objects of all frames, in journal order, each stamped with its frame's time. */
  function AllStamped(fs: seq<Frame>): seq<Detection> {
    if fs == [] then [] else AllStamped(fs[..|fs| - 1]) + Stamped(fs[|fs| - 1])
  }

  /** A bucket, empty when absent. */
  function Lookup(t: Tree, c: string, k: string): seq<Detection> {
    if c in t && k in t[c] then t[c][k] else []
  }

  /** One setdefault/append step of _get_obj_tree. */
  function Place(t: Tree, o: Detection): Tree {
    var inner := if o.color in t then t[o.color] else map[];
    t[o.color := inner[BucketKey(o) := Lookup(t, o.color, BucketKey(o)) + [o]]]
  }

  function PlaceAll(t: Tree, os: seq<Detection>): Tree {
    if os == [] then t else Place(PlaceAll(t, os[..|os| - 1]), os[|os| - 1])
  }

  /** The objects of os with colour c and bucket k, in order: the reference for a bucket. */
  function InBucket(os: seq<Detection>, c: string, k: string): seq<Detection> {
    if os == [] then []
    else
      var o := os[|os| - 1];
      InBucket(os[..|os| - 1], c, k) + (if o.color == c && BucketKey(o) == k then [o] else [])
  }

  /** Every present colour has a bucket and every present bucket is non-empty. */
  predicate NonEmptyBuckets(t: Tree) {
    forall c :: c in t ==> t[c] != map[] && forall k :: k in t[c] ==> t[c][k] != []
  }

  lemma PlaceNonEmpty(t: Tree, o: Detection)
    requires NonEmptyBuckets(t)
    ensures NonEmptyBuckets(Place(t, o))
  {
    var t' := Place(t, o);
    forall c | c in t' ensures t'[c] != map[] && forall k :: k in t'[c] ==> t'[c][k] != [] {
      if c == o.color {
        assert BucketKey(o) in t'[c];
        forall k | k in t'[c] ensures t'[c][k] != [] {
          if k == BucketKey(o) {
            assert o in t'[c][k];
          }
        }
      }
    }
  }

  lemma LookupPlace(t: Tree, o: Detection, c: string, k: string)
    ensures Lookup(Place(t, o), c, k)
            == Lookup(t, c, k) + (if o.color == c && BucketKey(o) == k then [o] else [])
  {
  }

  lemma {:induction false} PlaceAllAppend(t: Tree, a: seq<Detection>, b: seq<Detection>)
    ensures PlaceAll(t, a + b) == PlaceAll(PlaceAll(t, a), b)
    decreases |b|
  {
    if b == [] {
      assert a + b == a;
    } else {
      assert (a + b)[..|a + b| - 1] == a + b[..|b| - 1];
      assert (a + b)[|a + b| - 1] == b[|b| - 1];
      PlaceAllAppend(t, a, b[..|b| - 1]);
    }
  }

  /** Every bucket of the tree is exactly the objects with that colour and key, in order. */
  lemma {:induction false} TreeBuckets(os: seq<Detection>)
    ensures NonEmptyBuckets(PlaceAll(map[], os))
    ensures forall c, k :: Lookup(PlaceAll(map[], os), c, k) == InBucket(os, c, k)
    decreases |os|
  {
    if os != [] {
      var init := os[..|os| - 1];
      var o := os[|os| - 1];
      TreeBuckets(init);
      PlaceNonEmpty(PlaceAll(map[], init), o);
      forall c, k ensures Lookup(PlaceAll(map[], os), c, k) == InBucket(os, c, k) {
        LookupPlace(PlaceAll(map[], init), o, c, k);
      }
    }
  }

  /** A colour/bucket pair is present in the tree exactly when some object belongs there. */
  lemma TreeKeys(os: seq<Detection>, c: string, k: string)
    ensures (c in PlaceAll(map[], os) && k in PlaceAll(map[], os)[c]) <==> InBucket(os, c, k) != []
  {
    TreeBuckets(os);
  }

  /** Every object in a bucket has that bucket's colour and key, and comes from the input. */
  lemma {:induction false} InBucketMembers(os: seq<Detection>, c: string, k: string)
    ensures forall x :: x in InBucket(os, c, k) ==> x.color == c && BucketKey(x) == k && x in os
    decreases |os|
  {
    if os != [] {
      InBucketMembers(os[..|os| - 1], c, k);
    }
  }

  /** Every object is in the bucket of its own colour and key; with InBucketMembers, in that bucket only. */
  lemma {:induction false} InOwnBucket(os: seq<Detection>, o: Detection)
    requires o in os
    ensures o in InBucket(os, o.color, BucketKey(o))
    decreases |os|
  {
    if os[|os| - 1] != o {
      assert os == os[..|os| - 1] + [os[|os| - 1]];
      InOwnBucket(os[..|os| - 1], o);
    }
  }

  /** Every tree object is a found object of some frame, stamped with that frame's time. */
  lemma {:induction false} StampedFromFrames(fs: seq<Frame>, x: Detection)
    requires x in AllStamped(fs)
    ensures exists i, j :: 0 <= i < |fs| && 0 <= j < |fs[i].foundObjs| && x == fs[i].foundObjs[j].(time := Some(fs[i].time))
    decreases |fs|
  {
    var n := |fs| - 1;
    if x in Stamped(fs[n]) {
      var j :| 0 <= j < |Stamped(fs[n])| && Stamped(fs[n])[j] == x;
      assert x == fs[n].foundObjs[j].(time := Some(fs[n].time));
    } else {
      StampedFromFrames(fs[..n], x);
      var i, j :| 0 <= i < |fs[..n]| && 0 <= j < |fs[..n][i].foundObjs| && x == fs[..n][i].foundObjs[j].(time := Some(fs[..n][i].time));
      assert fs[..n][i] == fs[i];
    }
  }

  lemma StepPlaced(base: Tree, os: seq<Detection>, j: nat)
    requires j < |os|
    ensures PlaceAll(base, os[..j + 1]) == Place(PlaceAll(base, os[..j]), os[j])
  {
    assert os[..j + 1][..j] == os[..j];
  }

  lemma StepStamped(fs: seq<Frame>, i: nat)
    requires i < |fs|
    ensures AllStamped(fs[..i + 1]) == AllStamped(fs[..i]) + Stamped(fs[i])
  {
    assert fs[..i + 1][..i] == fs[..i];
  }

  /** _get_obj_tree: the outer loop over the records. */
  method ObjTree(frames: seq<Frame>) returns (t: Tree)
    ensures t == PlaceAll(map[], AllStamped(frames))
  {
    t := map[];
    var i := 0;
    while i < |frames|
      invariant 0 <= i <= |frames|
      invariant t == PlaceAll(map[], AllStamped(frames[..i]))
    {
      t := PlaceFrame(t, frames[i]);
      StepStamped(frames, i);
      PlaceAllAppend(map[], AllStamped(frames[..i]), Stamped(frames[i]));
      i := i + 1;
    }
    assert frames[..i] == frames;
  }

  /** _get_obj_tree: the inner loop, which files one record's objects with setdefault. */
  method PlaceFrame(base: Tree, f: Frame) returns (t: Tree)
    ensures t == PlaceAll(base, Stamped(f))
  {
    var objs := f.foundObjs;
    t := base;
    var j := 0;
    while j < |objs|
      invariant 0 <= j <= |objs|
      invariant t == PlaceAll(base, Stamped(f)[..j])
    {
      var o := objs[j].(time := Some(f.time));
      ghost var prev := t;
      var d := if o.color in t then t[o.color] else map[];
      var key := if HasShape(o) then o.shape.value else "all";
      var bucket := if key in d then d[key] else [];
      t := t[o.color := d[key := bucket + [o]]];
      assert t == Place(prev, o);
      StepPlaced(base, Stamped(f), j);
      j := j + 1;
    }
    assert Stamped(f)[..j] == Stamped(f);
  }

  // ---------------------------------------------------------------------------
  // sort_list
  // ---------------------------------------------------------------------------

  /** The clustering (scipy's fclusterdata) as a given function: positions and threshold to labels. */
  type Labelling = (seq<LatLon>, real) -> seq<int>

  /** fclusterdata gives one label per row. */
  ghost predicate LabelsEveryPoint(cluster: Labelling) {
    forall pts, t :: |cluster(pts, t)| == |pts|
  }

  /** One cluster of a shape group: its label and its members in group order. */
  datatype Cluster = Cluster(key: int, members: seq<Detection>)

  /** colour -> shape -> clusters, in the order their labels first occur. */
  type Clustered = map<string, map<string, seq<Cluster>>>

  predicate Located(os: seq<Detection>) {
    forall i :: 0 <= i < |os| ==> os[i].latLon.Some?
  }

  function LatLons(os: seq<Detection>): (r: seq<LatLon>)
    requires Located(os)
    ensures |r| == |os|
    ensures forall i :: 0 <= i < |os| ==> r[i] == os[i].latLon.value
  {
    seq(|os|, i requires 0 <= i < |os| && Located(os) => os[i].latLon.value)
  }

  /** The objects of a colour without a truthy shape. */
  function AllOf(shapes: map<string, seq<Detection>>): seq<Detection> {
    if "all" in shapes then shapes["all"] else []
  }

  /** The group of a shape: the colour's "all" objects followed by that shape's objects. */
  function Group(shapes: map<string, seq<Detection>>, k: string): seq<Detection>
    requires k in shapes
  {
    AllOf(shapes) + shapes[k]
  }

  /** The position of the cluster with this label, or |cs| when there is none. */
  function FindLabel(cs: seq<Cluster>, lab: int): (k: nat)
    ensures k <= |cs|
    ensures k < |cs| ==> cs[k].key == lab
    ensures forall j :: 0 <= j < k ==> cs[j].key != lab
  {
    if cs == [] then 0 else if cs[0].key == lab then 0 else 1 + FindLabel(cs[1..], lab)
  }

  /** setdefault(label, []).append(o) on the ordered label map. */
  function AddTo(cs: seq<Cluster>, lab: int, o: Detection): seq<Cluster> {
    var k := FindLabel(cs, lab);
    if k < |cs| then cs[k := Cluster(lab, cs[k].members + [o])] else cs + [Cluster(lab, [o])]
  }

  function Grouped(os: seq<Detection>, labels: seq<int>): seq<Cluster>
    requires |os| <= |labels|
  {
    if os == [] then [] else AddTo(Grouped(os[..|os| - 1], labels), labels[|os| - 1], os[|os| - 1])
  }

  /** The objects whose label is `label`, in order: the reference for a cluster's members. */
  function Select(os: seq<Detection>, labels: seq<int>, lab: int): seq<Detection>
    requires |os| <= |labels|
  {
    if os == [] then []
    else Select(os[..|os| - 1], labels, lab) + (if labels[|os| - 1] == lab then [os[|os| - 1]] else [])
  }

  lemma {:induction false} SelectEmpty(os: seq<Detection>, labels: seq<int>, lab: int)
    requires |os| <= |labels|
    requires forall i :: 0 <= i < |os| ==> labels[i] != lab
    ensures Select(os, labels, lab) == []
    decreases |os|
  {
    if os != [] {
      SelectEmpty(os[..|os| - 1], labels, lab);
    }
  }

  predicate DistinctKeys(cs: seq<Cluster>) {
    forall q, r :: 0 <= q < r < |cs| ==> cs[q].key != cs[r].key
  }

  /** Every cluster holds exactly the objects of os carrying its label, and none is empty. */
  predicate MembersSelected(cs: seq<Cluster>, os: seq<Detection>, labels: seq<int>)
    requires |os| <= |labels|
  {
    forall q :: 0 <= q < |cs| ==> cs[q].members == Select(os, labels, cs[q].key) && cs[q].members != []
  }

  /** A cluster is found by the first position carrying its label. */
  lemma FindLabelFirst(cs: seq<Cluster>, lab: int, m: nat)
    requires m < |cs| && cs[m].key == lab
    ensures FindLabel(cs, lab) <= m
  {
  }

  /** AddTo keeps every existing cluster's label and adds at most one cluster, with the new label. */
  lemma AddToKeys(cs: seq<Cluster>, lab: int, o: Detection)
    ensures var r := AddTo(cs, lab, o);
            && |cs| <= |r| <= |cs| + 1
            && (forall q :: 0 <= q < |cs| ==> r[q].key == cs[q].key)
            && FindLabel(cs, lab) < |r| && r[FindLabel(cs, lab)].key == lab
  {
  }

  /** Every object's label has a cluster in the grouping. */
  lemma {:induction false} GroupedCovers(os: seq<Detection>, labels: seq<int>)
    requires |os| <= |labels|
    ensures forall i :: 0 <= i < |os| ==> FindLabel(Grouped(os, labels), labels[i]) < |Grouped(os, labels)|
    decreases |os|
  {
    if os != [] {
      var n := |os| - 1;
      var g0 := Grouped(os[..n], labels);
      var g := Grouped(os, labels);
      GroupedCovers(os[..n], labels);
      AddToKeys(g0, labels[n], os[n]);
      forall i | 0 <= i < |os| ensures FindLabel(g, labels[i]) < |g| {
        if i < n {
          var m := FindLabel(g0, labels[i]);
          FindLabelFirst(g, labels[i], m);
        } else {
          FindLabelFirst(g, labels[n], FindLabel(g0, labels[n]));
        }
      }
    }
  }

  /** The labels of the clusters are distinct. */
  lemma {:induction false} GroupedDistinct(os: seq<Detection>, labels: seq<int>)
    requires |os| <= |labels|
    ensures DistinctKeys(Grouped(os, labels))
    decreases |os|
  {
    if os != [] {
      var n := |os| - 1;
      var g0 := Grouped(os[..n], labels);
      var g := Grouped(os, labels);
      var k := FindLabel(g0, labels[n]);
      GroupedDistinct(os[..n], labels);
      AddToKeys(g0, labels[n], os[n]);
      forall q, r | 0 <= q < r < |g| ensures g[q].key != g[r].key {
        if r >= |g0| {
          assert k == |g0| == r && g[r].key == labels[n];
          assert g0[q].key != labels[n];
        }
      }
    }
  }

  /** Every cluster holds exactly the objects carrying its label, in order, and none is empty. */
  lemma {:induction false} GroupedMembers(os: seq<Detection>, labels: seq<int>)
    requires |os| <= |labels|
    ensures MembersSelected(Grouped(os, labels), os, labels)
    decreases |os|
  {
    if os != [] {
      var n := |os| - 1;
      var init := os[..n];
      var g0 := Grouped(init, labels);
      GroupedMembers(init, labels);
      GroupedDistinct(init, labels);
      var L := labels[n];
      var o := os[n];
      var k := FindLabel(g0, L);
      var g := Grouped(os, labels);
      assert g == AddTo(g0, L, o);
      forall q | 0 <= q < |g|
        ensures g[q].members == Select(os, labels, g[q].key) && g[q].members != []
      {
        var x := g[q].key;
        assert Select(os, labels, x) == Select(init, labels, x) + (if L == x then [o] else []);
        if q < |g0| && q != k {
          assert g[q] == g0[q];
          if k < |g0| {
            assert g0[k].key == L;
            assert x != L;
          } else {
            assert g0[q].key != L;
          }
          assert g0[q].members == Select(init, labels, g0[q].key);
        } else if k < |g0| {
          assert q == k;
          assert g[q] == Cluster(L, g0[k].members + [o]);
        } else {
          assert q == |g0| && g[q] == Cluster(L, [o]);
          GroupedCovers(init, labels);
          forall i | 0 <= i < n ensures labels[i] != L {
            assert g0[FindLabel(g0, labels[i])].key == labels[i];
          }
          SelectEmpty(init, labels, L);
        }
      }
    }
  }

  /** The clusters of a shape group: a single object is cluster 0, otherwise the labelling decides. */
  function Clusters(group: seq<Detection>, dis: real, cluster: Labelling): seq<Cluster>
    requires Located(group) && LabelsEveryPoint(cluster)
  {
    if |group| == 1 then [Cluster(0, group)]
    else Grouped(group, cluster(LatLons(group), dis))
  }

  predicate ShapesLocated(shapes: map<string, seq<Detection>>) {
    forall k :: k in shapes && k != "all" ==> Located(Group(shapes, k))
  }

  predicate TreeLocated(t: Tree) {
    forall c :: c in t ==> ShapesLocated(t[c])
  }

  /** No shape group is empty; fclusterdata raises TypeError on an empty one. */
  predicate GroupsNonEmpty(shapes: map<string, seq<Detection>>) {
    forall k :: k in shapes && k != "all" ==> Group(shapes, k) != []
  }

  predicate TreeGroupsNonEmpty(t: Tree) {
    forall c :: c in t ==> GroupsNonEmpty(t[c])
  }

  /** The buckets _get_obj_tree builds are never empty, so neither is any group of them. */
  lemma BucketsGroupsNonEmpty(t: Tree)
    requires NonEmptyBuckets(t)
    ensures TreeGroupsNonEmpty(t)
  {
    forall c, k | c in t && k in t[c] && k != "all" ensures Group(t[c], k) != [] {
      assert |Group(t[c], k)| >= |t[c][k]| > 0;
    }
  }

  function ShapeGroups(shapes: map<string, seq<Detection>>, dis: real, cluster: Labelling): map<string, seq<Cluster>>
    requires ShapesLocated(shapes) && LabelsEveryPoint(cluster)
  {
    map k | k in shapes && k != "all" :: Clusters(Group(shapes, k), dis, cluster)
  }

  function SortedSpec(t: Tree, dis: real, cluster: Labelling): Clustered
    requires TreeLocated(t) && LabelsEveryPoint(cluster)
  {
    map c | c in t :: ShapeGroups(t[c], dis, cluster)
  }

  /** The enumerate loop of sort_list. */
  method GroupByLabel(os: seq<Detection>, labels: seq<int>) returns (cs: seq<Cluster>)
    requires |os| <= |labels|
    ensures cs == Grouped(os, labels)
  {
    cs := [];
    var i := 0;
    while i < |os|
      invariant 0 <= i <= |os|
      invariant cs == Grouped(os[..i], labels)
    {
      assert os[..i + 1][..i] == os[..i];
      cs := AddTo(cs, labels[i], os[i]);
      i := i + 1;
    }
    assert os[..i] == os;
  }

  /** One shape group of sort_list: gather positions, then cluster unless there is a single object. */
  method ClusterGroup(a: seq<Detection>, dis: real, cluster: Labelling) returns (r: Result<seq<Cluster>>)
    requires LabelsEveryPoint(cluster)
    ensures r.Ok? <==> Located(a) && a != []
    ensures r.Ok? ==> r.value == Clusters(a, dis, cluster)
    ensures r.Err? ==> r.error == (if Located(a) then "TypeError" else "KeyError")
  {
    if !Located(a) {
      return Err("KeyError");
    }
    if a == [] {
      return Err("TypeError");
    }
    if |a| == 1 {
      assert [a[0]] == a;
      return Ok([Cluster(0, [a[0]])]);
    }
    var labels := cluster(LatLons(a), dis);
    var cs := GroupByLabel(a, labels);
    return Ok(cs);
  }

  /** The shape groups in `done` are located, non-empty and clustered into `out`. */
  predicate GroupsDone(shapes: map<string, seq<Detection>>, done: set<string>,
                       out: map<string, seq<Cluster>>, dis: real, cluster: Labelling)
    requires LabelsEveryPoint(cluster)
  {
    && (forall k :: k in done && k in shapes && k != "all" ==> Located(Group(shapes, k)) && Group(shapes, k) != [])
    && out.Keys == (set k | k in done && k in shapes && k != "all")
    && (forall k :: k in out ==> Located(Group(shapes, k)) && out[k] == Clusters(Group(shapes, k), dis, cluster))
  }

  lemma GroupsDoneStep(shapes: map<string, seq<Detection>>, done: set<string>,
                       out: map<string, seq<Cluster>>, dis: real, cluster: Labelling, k: string)
    requires LabelsEveryPoint(cluster) && GroupsDone(shapes, done, out, dis, cluster)
    requires k in shapes && k != "all" && Located(Group(shapes, k)) && Group(shapes, k) != []
    ensures GroupsDone(shapes, done + {k}, out[k := Clusters(Group(shapes, k), dis, cluster)], dis, cluster)
  {
  }

  lemma GroupsDoneAll(shapes: map<string, seq<Detection>>, out: map<string, seq<Cluster>>, dis: real, cluster: Labelling)
    requires LabelsEveryPoint(cluster) && GroupsDone(shapes, shapes.Keys, out, dis, cluster)
    ensures ShapesLocated(shapes) && GroupsNonEmpty(shapes)
    ensures out == ShapeGroups(shapes, dis, cluster)
  {
  }

  /** The inner loop of sort_list over one colour's shapes. */
  method SortShapes(shapes: map<string, seq<Detection>>, dis: real, cluster: Labelling)
    returns (r: Result<map<string, seq<Cluster>>>)
    requires LabelsEveryPoint(cluster)
    ensures r.Ok? <==> ShapesLocated(shapes) && GroupsNonEmpty(shapes)
    ensures r.Ok? ==> r.value == ShapeGroups(shapes, dis, cluster)
    ensures r.Err? && GroupsNonEmpty(shapes) ==> r.error == "KeyError"
    ensures r.Err? && ShapesLocated(shapes) ==> r.error == "TypeError"
  {
    var out: map<string, seq<Cluster>> := map[];
    var todo := shapes.Keys;
    while todo != {}
      invariant todo <= shapes.Keys
      invariant GroupsDone(shapes, shapes.Keys - todo, out, dis, cluster)
      decreases |todo|
    {
      var k :| k in todo;
      var done := shapes.Keys - todo;
      todo := todo - {k};
      assert shapes.Keys - todo == done + {k};
      if k != "all" {
        var cs := ClusterGroup(AllOf(shapes) + shapes[k], dis, cluster);
        if cs.Err? {
          return Err(cs.error);
        }
        GroupsDoneStep(shapes, done, out, dis, cluster, k);
        out := out[k := cs.value];
      } else {
        assert GroupsDone(shapes, done + {k}, out, dis, cluster);
      }
    }
    GroupsDoneAll(shapes, out, dis, cluster);
    return Ok(out);
  }

  /** sort_list. */
  method SortList(t: Tree, dis: real, cluster: Labelling) returns (r: Result<Clustered>)
    requires LabelsEveryPoint(cluster)
    ensures r.Ok? <==> TreeLocated(t) && TreeGroupsNonEmpty(t)
    ensures r.Ok? ==> r.value == SortedSpec(t, dis, cluster)
    ensures r.Err? && TreeGroupsNonEmpty(t) ==> r.error == "KeyError"
    ensures r.Err? && TreeLocated(t) ==> r.error == "TypeError"
  {
    var out: Clustered := map[];
    var todo := t.Keys;
    while todo != {}
      invariant todo <= t.Keys
      invariant forall c :: c in t && c !in todo ==> ShapesLocated(t[c]) && GroupsNonEmpty(t[c])
      invariant out.Keys == t.Keys - todo
      invariant forall c :: c in out ==> ShapesLocated(t[c]) && out[c] == ShapeGroups(t[c], dis, cluster)
      decreases |todo|
    {
      var c :| c in todo;
      todo := todo - {c};
      var inner := SortShapes(t[c], dis, cluster);
      if inner.Err? {
        return Err(inner.error);
      }
      out := out[c := inner.value];
    }
    return Ok(out);
  }

  /** A colour with only unshaped objects yields an empty shape map. */
  lemma OnlyAllGivesEmpty(t: Tree, c: string, dis: real, cluster: Labelling)
    requires TreeLocated(t) && LabelsEveryPoint(cluster)
    requires c in t && t[c].Keys <= {"all"}
    ensures c in SortedSpec(t, dis, cluster) && SortedSpec(t, dis, cluster)[c] == map[]
  {
  }

  /**
   * Every member of a shape group lands in exactly one cluster, chosen by its
   * label; a one-object group is cluster 0.
   */
  lemma ClustersPartition(group: seq<Detection>, dis: real, cluster: Labelling)
    requires Located(group) && LabelsEveryPoint(cluster)
    ensures var cs := Clusters(group, dis, cluster);
            && (|group| == 1 ==> cs == [Cluster(0, group)])
            && (|group| != 1 ==>
                  var labels := cluster(LatLons(group), dis);
                  && (forall q :: 0 <= q < |cs| ==> cs[q].members == Select(group, labels, cs[q].key))
                  && (forall q, r :: 0 <= q < r < |cs| ==> cs[q].key != cs[r].key)
                  && (forall i :: 0 <= i < |group| ==> FindLabel(cs, labels[i]) < |cs|))
            && (forall q :: 0 <= q < |cs| ==> cs[q].members != [])
  {
    if |group| != 1 {
      var labels := cluster(LatLons(group), dis);
      assert Clusters(group, dis, cluster) == Grouped(group, labels);
      GroupedMembers(group, labels);
      GroupedDistinct(group, labels);
      GroupedCovers(group, labels);
    }
  }

  // ---------------------------------------------------------------------------
  // get_mean
  // ---------------------------------------------------------------------------

  /** Mean position of a cluster with the times and ids of its members. */
  datatype Summary = Summary(lat: real, lon: real, times: seq<int>, ids: seq<int>)

  type Summaries = map<string, map<string, seq<Summary>>>

  /** Every member has "lat_lon", "time" and "id". */
  predicate Complete(os: seq<Detection>) {
    forall i :: 0 <= i < |os| ==> os[i].latLon.Some? && os[i].time.Some? && os[i].id.Some?
  }

  predicate Summarizable(cl: Cluster) {
    |cl.members| > 0 && Complete(cl.members)
  }

  function SumLat(os: seq<Detection>): real
    requires Complete(os)
  {
    if os == [] then 0.0 else SumLat(os[..|os| - 1]) + os[|os| - 1].latLon.value.lat
  }

  function SumLon(os: seq<Detection>): real
    requires Complete(os)
  {
    if os == [] then 0.0 else SumLon(os[..|os| - 1]) + os[|os| - 1].latLon.value.lon
  }

  function Times(os: seq<Detection>): (r: seq<int>)
    requires Complete(os)
    ensures |r| == |os|
    ensures forall i :: 0 <= i < |os| ==> r[i] == os[i].time.value
  {
    seq(|os|, i requires 0 <= i < |os| && Complete(os) => os[i].time.value)
  }

  function Ids(os: seq<Detection>): (r: seq<int>)
    requires Complete(os)
    ensures |r| == |os|
    ensures forall i :: 0 <= i < |os| ==> r[i] == os[i].id.value
  {
    seq(|os|, i requires 0 <= i < |os| && Complete(os) => os[i].id.value)
  }

  function MeanOf(cl: Cluster): Summary
    requires Summarizable(cl)
  {
    var n := |cl.members| as real;
    Summary(SumLat(cl.members) / n, SumLon(cl.members) / n, Times(cl.members), Ids(cl.members))
  }

  lemma {:induction false} SumLatBounds(os: seq<Detection>, lo: real, hi: real)
    requires Complete(os)
    requires forall i :: 0 <= i < |os| ==> lo <= os[i].latLon.value.lat <= hi
    ensures |os| as real * lo <= SumLat(os) <= |os| as real * hi
    decreases |os|
  {
    if os != [] {
      SumLatBounds(os[..|os| - 1], lo, hi);
    }
  }

  lemma {:induction false} SumLonBounds(os: seq<Detection>, lo: real, hi: real)
    requires Complete(os)
    requires forall i :: 0 <= i < |os| ==> lo <= os[i].latLon.value.lon <= hi
    ensures |os| as real * lo <= SumLon(os) <= |os| as real * hi
    decreases |os|
  {
    if os != [] {
      SumLonBounds(os[..|os| - 1], lo, hi);
    }
  }

  /** A cluster's mean lies within any bounds that hold for all its members. */
  lemma MeanWithinBounds(cl: Cluster, latLo: real, latHi: real, lonLo: real, lonHi: real)
    requires Summarizable(cl)
    requires forall i :: 0 <= i < |cl.members| ==> latLo <= cl.members[i].latLon.value.lat <= latHi
    requires forall i :: 0 <= i < |cl.members| ==> lonLo <= cl.members[i].latLon.value.lon <= lonHi
    ensures latLo <= MeanOf(cl).lat <= latHi
    ensures lonLo <= MeanOf(cl).lon <= lonHi
  {
    var n := |cl.members| as real;
    SumLatBounds(cl.members, latLo, latHi);
    SumLonBounds(cl.members, lonLo, lonHi);
    DivBounds(SumLat(cl.members), n, latLo, latHi);
    DivBounds(SumLon(cl.members), n, lonLo, lonHi);
  }

  lemma DivBounds(s: real, n: real, lo: real, hi: real)
    requires n > 0.0 && n * lo <= s <= n * hi
    ensures lo <= s / n <= hi
  {
    assert s / n * n == s;
  }

  /** A cluster whose members all sit at one position has that position as its mean. */
  lemma MeanOfCoincident(cl: Cluster, p: LatLon)
    requires Summarizable(cl)
    requires forall i :: 0 <= i < |cl.members| ==> cl.members[i].latLon.value == p
    ensures MeanOf(cl).lat == p.lat && MeanOf(cl).lon == p.lon
  {
    MeanWithinBounds(cl, p.lat, p.lat, p.lon, p.lon);
  }

  /** The loop over one cluster's members, with its running sums. */
  method Summarize(cl: Cluster) returns (r: Result<Summary>)
    ensures r.Ok? <==> Summarizable(cl)
    ensures r.Ok? ==> r.value == MeanOf(cl)
    ensures r.Err? ==> (r.error == "KeyError" <==> !Complete(cl.members))
  {
    var n := |cl.members|;
    var lat := 0.0;
    var lon := 0.0;
    var times: seq<int> := [];
    var ids: seq<int> := [];
    var i := 0;
    while i < n
      invariant 0 <= i <= n
      invariant Complete(cl.members[..i])
      invariant lat == SumLat(cl.members[..i]) && lon == SumLon(cl.members[..i])
      invariant times == Times(cl.members[..i]) && ids == Ids(cl.members[..i])
    {
      var cap := cl.members[i];
      if cap.latLon.None? || cap.time.None? || cap.id.None? {
        return Err("KeyError");
      }
      SummaryStep(cl.members, i);
      lat := lat + cap.latLon.value.lat;
      lon := lon + cap.latLon.value.lon;
      times := times + [cap.time.value];
      ids := ids + [cap.id.value];
      i := i + 1;
    }
    assert cl.members[..i] == cl.members;
    if n == 0 {
      return Err("ZeroDivisionError");
    }
    return Ok(Summary(lat / n as real, lon / n as real, times, ids));
  }

  /** One more complete member adds its position to the sums and its time and id to the lists. */
  lemma SummaryStep(os: seq<Detection>, i: nat)
    requires i < |os| && Complete(os[..i])
    requires os[i].latLon.Some? && os[i].time.Some? && os[i].id.Some?
    ensures Complete(os[..i + 1])
    ensures SumLat(os[..i + 1]) == SumLat(os[..i]) + os[i].latLon.value.lat
    ensures SumLon(os[..i + 1]) == SumLon(os[..i]) + os[i].latLon.value.lon
    ensures Times(os[..i + 1]) == Times(os[..i]) + [os[i].time.value]
    ensures Ids(os[..i + 1]) == Ids(os[..i]) + [os[i].id.value]
  {
    assert os[..i + 1][..i] == os[..i];
  }

  predicate AllSummarizable(cs: seq<Cluster>) {
    forall q :: 0 <= q < |cs| ==> Summarizable(cs[q])
  }

  function MeansOf(cs: seq<Cluster>): (r: seq<Summary>)
    requires AllSummarizable(cs)
    ensures |r| == |cs|
    ensures forall q :: 0 <= q < |cs| ==> r[q] == MeanOf(cs[q])
  {
    seq(|cs|, q requires 0 <= q < |cs| && AllSummarizable(cs) => MeanOf(cs[q]))
  }

  /** One summary per cluster, in cluster order. */
  method SummarizeAll(cs: seq<Cluster>) returns (r: Result<seq<Summary>>)
    ensures r.Ok? <==> AllSummarizable(cs)
    ensures r.Ok? ==> r.value == MeansOf(cs)
  {
    var out: seq<Summary> := [];
    var q := 0;
    while q < |cs|
      invariant 0 <= q <= |cs|
      invariant forall p :: 0 <= p < q ==> Summarizable(cs[p])
      invariant |out| == q && forall p :: 0 <= p < q ==> Summarizable(cs[p]) && out[p] == MeanOf(cs[p])
    {
      var s := Summarize(cs[q]);
      if s.Err? {
        return Err(s.error);
      }
      out := out + [s.value];
      q := q + 1;
    }
    return Ok(out);
  }

  predicate ShapesSummarizable(m: map<string, seq<Cluster>>) {
    forall k :: k in m ==> AllSummarizable(m[k])
  }

  predicate TreeSummarizable(sorted: Clustered) {
    forall c :: c in sorted ==> ShapesSummarizable(sorted[c])
  }

  function ShapeMeans(m: map<string, seq<Cluster>>): map<string, seq<Summary>>
    requires ShapesSummarizable(m)
  {
    map k | k in m :: MeansOf(m[k])
  }

  function MeansSpec(sorted: Clustered): Summaries
    requires TreeSummarizable(sorted)
  {
    map c | c in sorted :: ShapeMeans(sorted[c])
  }

  method MeanShapes(m: map<string, seq<Cluster>>) returns (r: Result<map<string, seq<Summary>>>)
    ensures r.Ok? <==> ShapesSummarizable(m)
    ensures r.Ok? ==> r.value == ShapeMeans(m)
  {
    var out: map<string, seq<Summary>> := map[];
    var todo := m.Keys;
    while todo != {}
      invariant todo <= m.Keys
      invariant out.Keys == m.Keys - todo
      invariant forall k :: k in out ==> AllSummarizable(m[k]) && out[k] == MeansOf(m[k])
      decreases |todo|
    {
      var k :| k in todo;
      todo := todo - {k};
      var s := SummarizeAll(m[k]);
      if s.Err? {
        return Err(s.error);
      }
      out := out[k := s.value];
    }
    return Ok(out);
  }

  /** get_mean. */
  method GetMean(sorted: Clustered) returns (r: Result<Summaries>)
    ensures r.Ok? <==> TreeSummarizable(sorted)
    ensures r.Ok? ==> r.value == MeansSpec(sorted)
  {
    var out: Summaries := map[];
    var todo := sorted.Keys;
    while todo != {}
      invariant todo <= sorted.Keys
      invariant out.Keys == sorted.Keys - todo
      invariant forall c :: c in out ==> ShapesSummarizable(sorted[c]) && out[c] == ShapeMeans(sorted[c])
      decreases |todo|
    {
      var c :| c in todo;
      todo := todo - {c};
      var s := MeanShapes(sorted[c]);
      if s.Err? {
        return Err(s.error);
      }
      out := out[c := s.value];
    }
    return Ok(out);
  }

  // ---------------------------------------------------------------------------
  // sort_list followed by get_mean
  // ---------------------------------------------------------------------------

  /** Every object in every bucket carries "lat_lon", "time" and "id". */
  predicate TreeComplete(t: Tree) {
    forall c, k :: c in t && k in t[c] ==> Complete(t[c][k])
  }

  lemma {:induction false} SelectComplete(os: seq<Detection>, labels: seq<int>, lab: int)
    requires |os| <= |labels| && Complete(os)
    ensures Complete(Select(os, labels, lab))
    decreases |os|
  {
    if os != [] {
      SelectComplete(os[..|os| - 1], labels, lab);
    }
  }

  /** The clusters of a complete group can all be averaged. */
  lemma ClustersSummarizable(group: seq<Detection>, dis: real, cluster: Labelling)
    requires Complete(group) && LabelsEveryPoint(cluster)
    ensures Located(group) && AllSummarizable(Clusters(group, dis, cluster))
  {
    if |group| != 1 {
      var labels := cluster(LatLons(group), dis);
      GroupedMembers(group, labels);
      forall q | 0 <= q < |Grouped(group, labels)| ensures Summarizable(Grouped(group, labels)[q]) {
        SelectComplete(group, labels, Grouped(group, labels)[q].key);
      }
    }
  }

  /**
   * When every bucketed object carries a position, a time and an id,
   * sort_list succeeds and get_mean can average every cluster it yields.
   */
  lemma PipelineDefined(t: Tree, dis: real, cluster: Labelling)
    requires TreeComplete(t) && LabelsEveryPoint(cluster)
    ensures TreeLocated(t) && TreeSummarizable(SortedSpec(t, dis, cluster))
  {
    forall c, k | c in t && k in t[c] && k != "all"
      ensures Located(Group(t[c], k)) && AllSummarizable(Clusters(Group(t[c], k), dis, cluster))
    {
      assert Complete(AllOf(t[c]));
      assert Complete(Group(t[c], k));
      ClustersSummarizable(Group(t[c], k), dis, cluster);
    }
  }
}
