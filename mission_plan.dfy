/**
 * Mission-plan arithmetic of the mission computer (mission_computer/helper.py):
 * counting the progress units of an action tree, cutting away the already
 * completed prefix of a plan, and ordering target positions by Manhattan
 * distance.
 */
module MissionPlan {
  import opened Wrappers

  /** One `mov` command: latitude, longitude, optional height and yaw. */
  datatype Waypoint = Waypoint(lat: real, lon: real, height: Option<real>, yaw: Option<real>)

  /**
   * The tag of a leaf action.  Each named tag has a handler in the mission
   * computer; `Unrecognised` stands for any tag that has none.
   */
  datatype Tag =
    | StartCamera | StopCamera | Takeoff | LandAt | Delay | Forever | Mov | MovToObjectsCapPic
    | Unrecognised(name: string)

  /** The "commands" payload of a leaf action, passed to its handler uninterpreted. */
  type Payload = string

  /**
   * A node of the mission plan: `{"action": "list", "commands": [...]}`,
   * `{"action": "mov_multiple", "commands": [...]}`, or any other action.
   */
  datatype Action =
    | List(commands: seq<Action>)
    | MovMultiple(targets: seq<Waypoint>)
    | Leaf(tag: Tag, payload: Payload)

  /** The "action" string of a node. */
  function TagName(a: Action): string {
    match a
    case List(_) => "list"
    case MovMultiple(_) => "mov_multiple"
    case Leaf(t, _) =>
      match t
      case StartCamera => "start_camera"
      case StopCamera => "stop_camera"
      case Takeoff => "takeoff"
      case LandAt => "land_at"
      case Delay => "delay"
      case Forever => "forever"
      case Mov => "mov"
      case MovToObjectsCapPic => "mov_to_objects_cap_pic"
      case Unrecognised(n) => n
  }

  // ---------------------------------------------------------------------------
  // count_actions
  // ---------------------------------------------------------------------------

  /** Progress units of a plan: a list sums its children, mov_multiple counts its commands, anything else is 1. */
  function Count(a: Action): nat {
    match a
    case List(cs) => CountList(cs)
    case MovMultiple(ws) => |ws|
    case Leaf(_, _) => 1
  }

  function CountList(cs: seq<Action>): nat {
    if cs == [] then 0 else Count(cs[0]) + CountList(cs[1..])
  }

  /** The unit steps a plan performs, in execution order: one per leaf and one per waypoint. */
  datatype Step = MovStep(target: Waypoint) | LeafStep(tag: Tag, payload: Payload)

  function MovSteps(ws: seq<Waypoint>): (r: seq<Step>)
    ensures |r| == |ws|
    ensures forall i :: 0 <= i < |ws| ==> r[i] == MovStep(ws[i])
  {
    seq(|ws|, i requires 0 <= i < |ws| => MovStep(ws[i]))
  }

  /** The steps of a plan; there are exactly as many as count_actions counts. */
  function Flatten(a: Action): (r: seq<Step>)
    ensures |r| == Count(a)
  {
    match a
    case List(cs) => FlattenList(cs)
    case MovMultiple(ws) => MovSteps(ws)
    case Leaf(t, p) => [LeafStep(t, p)]
  }

  function FlattenList(cs: seq<Action>): (r: seq<Step>)
    ensures |r| == CountList(cs)
  {
    if cs == [] then [] else Flatten(cs[0]) + FlattenList(cs[1..])
  }

  /** A list's count is additive over its children: splitting the children splits the sum. */
  lemma {:induction false} CountListAppend(xs: seq<Action>, ys: seq<Action>)
    ensures CountList(xs + ys) == CountList(xs) + CountList(ys)
  {
    if xs == [] {
      assert xs + ys == ys;
    } else {
      assert (xs + ys)[0] == xs[0];
      assert (xs + ys)[1..] == xs[1..] + ys;
      CountListAppend(xs[1..], ys);
    }
  }

  lemma {:induction false} FlattenListAppend(xs: seq<Action>, ys: seq<Action>)
    ensures FlattenList(xs + ys) == FlattenList(xs) + FlattenList(ys)
  {
    if xs == [] {
      assert xs + ys == ys;
    } else {
      assert (xs + ys)[0] == xs[0];
      assert (xs + ys)[1..] == xs[1..] + ys;
      FlattenListAppend(xs[1..], ys);
    }
  }

  // ---------------------------------------------------------------------------
  // action_with_count, as written
  // ---------------------------------------------------------------------------

  /** What action_with_count returns: a residual plan, or the integer still to be skipped. */
  datatype Residual = Plan(plan: Action) | Remaining(count: int)

  /** Start index of the Python slice `xs[count:]` on a list of length n, negative counts included. */
  function SliceStart(count: int, n: nat): (k: nat)
    ensures k <= n
    ensures 0 <= count <= n ==> k == count
  {
    if count >= n then n
    else if count >= 0 then count
    else if n + count >= 0 then n + count
    else 0
  }

  /** The tail shared by leaves and (falling through) lists: the node itself at count 0, else count-1. */
  function LeafTail(plan: Action, count: int): Residual {
    if count == 0 then Plan(plan) else Remaining(count - 1)
  }

  /**
   * action_with_count as the repository writes it.  After the loop over a
   * list's children the list branch falls through to the leaf tail, so a list
   * consumed exactly is returned whole, and an overshooting count loses one
   * further unit.
   */
  function ActionWithCount(plan: Action, count: int): Residual
    decreases plan, 1
  {
    match plan
    case List(cs) =>
      (match ListWithCount(cs, count)
       case Plan(p) => Plan(p)
       case Remaining(c) => LeafTail(plan, c))
    case MovMultiple(ws) =>
      if count < |ws| then Plan(MovMultiple(ws[SliceStart(count, |ws|)..]))
      else Remaining(count - |ws|)
    case Leaf(_, _) => LeafTail(plan, count)
  }

  /** The loop over a list's children: the first child that yields a plan ends it. */
  function ListWithCount(cs: seq<Action>, count: int): Residual
    decreases cs, 0
  {
    if cs == [] then Remaining(count)
    else
      match ActionWithCount(cs[0], count)
      case Plan(p) => Plan(List([p] + cs[1..]))
      case Remaining(c) => ListWithCount(cs[1..], c)
  }

  lemma LeafWithCount(t: Tag, p: Payload, count: int)
    requires count >= 0
    ensures count == 0 ==> ActionWithCount(Leaf(t, p), count) == Plan(Leaf(t, p))
    ensures count >= 1 ==> ActionWithCount(Leaf(t, p), count) == Remaining(count - 1)
  {
  }

  lemma MovMultipleWithCount(ws: seq<Waypoint>, count: int)
    requires count >= 0
    ensures count < |ws| ==> ActionWithCount(MovMultiple(ws), count) == Plan(MovMultiple(ws[count..]))
    ensures count < |ws| ==> Count(ActionWithCount(MovMultiple(ws), count).plan) == |ws| - count
    ensures count == 0 < |ws| ==> ActionWithCount(MovMultiple(ws), count) == Plan(MovMultiple(ws))
    ensures |ws| <= count ==> ActionWithCount(MovMultiple(ws), count) == Remaining(count - |ws|)
  {
    assert ws[0..] == ws;
  }

  /** No child of the list is itself a list. */
  predicate FlatChildren(cs: seq<Action>) {
    forall i :: 0 <= i < |cs| ==> !cs[i].List?
  }

  /** On leaves and mov_multiple the as-written function and the corrected one agree. */
  lemma FlatNodeAgrees(a: Action, count: int)
    requires !a.List?
    ensures ActionWithCount(a, count) == ResumeSubplan(a, count)
  {
  }

  /** On a list of leaves and mov_multiples the loop over the children behaves as the corrected one. */
  lemma {:induction false} FlatListAgrees(cs: seq<Action>, count: int)
    requires FlatChildren(cs)
    ensures ListWithCount(cs, count) == ResumeList(cs, count)
    decreases cs
  {
    if cs != [] {
      FlatNodeAgrees(cs[0], count);
      match ActionWithCount(cs[0], count)
      case Plan(_) =>
      case Remaining(c) =>
        assert FlatChildren(cs[1..]) by {
          forall i | 0 <= i < |cs[1..]| ensures !cs[1..][i].List? {
            assert cs[1..][i] == cs[i + 1];
          }
        }
        FlatListAgrees(cs[1..], c);
    }
  }

  /**
   * A list of leaves and mov_multiples with 0 <= count < its total: the
   * result is a list whose first command is the partially consumed child and
   * whose other commands are the untouched later children; it performs exactly
   * the steps not yet done, so its count is the original count minus `count`.
   */
  lemma FlatListPartial(cs: seq<Action>, count: int)
    requires FlatChildren(cs)
    requires 0 <= count < CountList(cs)
    ensures ActionWithCount(List(cs), count).Plan?
    ensures ActionWithCount(List(cs), count).plan.List?
    ensures Flatten(ActionWithCount(List(cs), count).plan) == FlattenList(cs)[count..]
    ensures Count(ActionWithCount(List(cs), count).plan) == CountList(cs) - count
    ensures var r := ActionWithCount(List(cs), count).plan.commands;
            1 <= |r| <= |cs| && r[1..] == cs[|cs| - |r| + 1..]
  {
    FlatListAgrees(cs, count);
    ResumeListExact(cs, count);
  }

  /** Fall-through: a flat list consumed exactly is returned whole, not as an integer. */
  lemma FlatListExactlyConsumed(cs: seq<Action>)
    requires FlatChildren(cs)
    ensures ActionWithCount(List(cs), CountList(cs)) == Plan(List(cs))
  {
    FlatListAgrees(cs, CountList(cs));
    ResumeListExact(cs, CountList(cs));
  }

  /** Fall-through: an overshooting count on a flat list loses one extra unit. */
  lemma FlatListOvershoot(cs: seq<Action>, count: int)
    requires FlatChildren(cs)
    requires count > CountList(cs)
    ensures ActionWithCount(List(cs), count) == Remaining(count - CountList(cs) - 1)
  {
    FlatListAgrees(cs, count);
    ResumeListExact(cs, count);
  }

  /**
   * The discrepancy with nested lists: after the one leaf of an inner list is
   * done, resuming [[a], b] at count 1 hands back the whole plan, so `a` runs
   * again and the residual count is 2 instead of 1.
   */
  lemma NestedListResumesTooEarly(a: Action, b: Action)
    requires a.Leaf? && b.Leaf?
    ensures CountList([List([a]), b]) == 2
    ensures ActionWithCount(List([List([a]), b]), 1) == Plan(List([List([a]), b]))
    ensures Count(ActionWithCount(List([List([a]), b]), 1).plan) != CountList([List([a]), b]) - 1
  {
    assert [List([a]), b][1..] == [b];
    assert [a][1..] == [];
    assert [b][1..] == [];
    assert CountList([a]) == 1;
    assert CountList([b]) == 1;
    assert ListWithCount([a], 1) == Remaining(0);
    assert ActionWithCount(List([a]), 1) == Plan(List([a]));
    assert [List([a])] + [List([a]), b][1..] == [List([a]), b];
  }

  // ---------------------------------------------------------------------------
  // The corrected resume: a list all of whose children are consumed yields the
  // integer remainder, as the docstring and design intend.
  // ---------------------------------------------------------------------------

  function ResumeSubplan(plan: Action, count: int): Residual
    decreases plan, 1
  {
    match plan
    case List(cs) => ResumeList(cs, count)
    case MovMultiple(ws) =>
      if count < |ws| then Plan(MovMultiple(ws[SliceStart(count, |ws|)..]))
      else Remaining(count - |ws|)
    case Leaf(_, _) => LeafTail(plan, count)
  }

  function ResumeList(cs: seq<Action>, count: int): Residual
    decreases cs, 0
  {
    if cs == [] then Remaining(count)
    else
      match ResumeSubplan(cs[0], count)
      case Plan(p) => Plan(List([p] + cs[1..]))
      case Remaining(c) => ResumeList(cs[1..], c)
  }

  /**
   * Resumption correctness for every plan: with 0 <= count < Count(plan) the
   * residual plan performs exactly the steps after the first `count`, and
   * otherwise the integer remainder is count - Count(plan).
   */
  lemma {:induction false} ResumeExact(a: Action, count: int)
    requires 0 <= count
    ensures count < Count(a) ==> ResumeSubplan(a, count).Plan?
    ensures count < Count(a) ==> Flatten(ResumeSubplan(a, count).plan) == Flatten(a)[count..]
    ensures Count(a) <= count ==> ResumeSubplan(a, count) == Remaining(count - Count(a))
    decreases a, 1
  {
    match a
    case List(cs) => ResumeListExact(cs, count);
    case MovMultiple(ws) =>
      if count < |ws| {
        assert MovSteps(ws[count..]) == MovSteps(ws)[count..];
      }
    case Leaf(_, _) =>
  }

  lemma {:induction false} ResumeListExact(cs: seq<Action>, count: int)
    requires 0 <= count
    ensures count < CountList(cs) ==> ResumeList(cs, count).Plan? && ResumeList(cs, count).plan.List?
    ensures count < CountList(cs) ==> Flatten(ResumeList(cs, count).plan) == FlattenList(cs)[count..]
    ensures count < CountList(cs) ==>
              var r := ResumeList(cs, count).plan.commands;
              1 <= |r| <= |cs| && r[1..] == cs[|cs| - |r| + 1..]
    ensures CountList(cs) <= count ==> ResumeList(cs, count) == Remaining(count - CountList(cs))
    decreases cs, 0
  {
    if cs != [] {
      ResumeExact(cs[0], count);
      match ResumeSubplan(cs[0], count)
      case Plan(p) =>
        var r := [p] + cs[1..];
        assert r[0] == p && r[1..] == cs[1..];
        calc {
          FlattenList(r);
          Flatten(p) + FlattenList(cs[1..]);
          Flatten(cs[0])[count..] + FlattenList(cs[1..]);
          (Flatten(cs[0]) + FlattenList(cs[1..]))[count..];
        }
      case Remaining(c) =>
        ResumeListExact(cs[1..], c);
        if c < CountList(cs[1..]) {
          var r := ResumeList(cs[1..], c).plan.commands;
          assert cs[1..][|cs[1..]| - |r| + 1..] == cs[|cs| - |r| + 1..];
          calc {
            FlattenList(cs[1..])[c..];
            (Flatten(cs[0]) + FlattenList(cs[1..]))[count..];
          }
        }
    }
  }

  /** In particular the residual plan's count is what is still to do. */
  lemma ResumeCount(a: Action, count: int)
    requires 0 <= count < Count(a)
    ensures ResumeSubplan(a, count).Plan?
    ensures Count(ResumeSubplan(a, count).plan) == Count(a) - count
  {
    ResumeExact(a, count);
  }

  // ---------------------------------------------------------------------------
  // find_shortest_path
  // ---------------------------------------------------------------------------

  /** A detected object as far as path planning sees it: its "pos" list. */
  datatype Target = Target(pos: seq<real>)

  function Abs(x: real): real {
    if x < 0.0 then -x else x
  }

  /** The sort key |x0-s0| + |x1-s1|; the guard only makes it total (short lists raise before sorting). */
  function Distance(p: seq<real>, start: seq<real>): real {
    if |p| < 2 || |start| < 2 then 0.0 else Abs(p[0] - start[0]) + Abs(p[1] - start[1])
  }

  function Positions(objs: seq<Target>): (r: seq<seq<real>>)
    ensures |r| == |objs|
    ensures forall i :: 0 <= i < |objs| ==> r[i] == objs[i].pos
  {
    seq(|objs|, i requires 0 <= i < |objs| => objs[i].pos)
  }

  /** Inserts p before the first element whose key is not smaller. */
  function Insert(p: seq<real>, s: seq<seq<real>>, start: seq<real>): seq<seq<real>> {
    if s == [] then [p]
    else if Distance(p, start) <= Distance(s[0], start) then [p] + s
    else [s[0]] + Insert(p, s[1..], start)
  }

  /** Python's stable list.sort keyed by the Manhattan distance to `start`. */
  function SortByDistance(s: seq<seq<real>>, start: seq<real>): seq<seq<real>> {
    if s == [] then [] else Insert(s[0], SortByDistance(s[1..], start), start)
  }

  predicate SortedByDistance(s: seq<seq<real>>, start: seq<real>) {
    forall i, j :: 0 <= i < j < |s| ==> Distance(s[i], start) <= Distance(s[j], start)
  }

  /** The elements of s at distance d, in their order in s. */
  function AtDistance(s: seq<seq<real>>, start: seq<real>, d: real): seq<seq<real>> {
    if s == [] then []
    else (if Distance(s[0], start) == d then [s[0]] else []) + AtDistance(s[1..], start, d)
  }

  lemma {:induction false} InsertSorted(p: seq<real>, s: seq<seq<real>>, start: seq<real>)
    requires SortedByDistance(s, start)
    ensures SortedByDistance(Insert(p, s, start), start)
    ensures |Insert(p, s, start)| == |s| + 1
    ensures forall i :: 0 <= i < |Insert(p, s, start)| ==> Insert(p, s, start)[i] == p || Insert(p, s, start)[i] in s
  {
    if s == [] {
    } else if Distance(p, start) <= Distance(s[0], start) {
      ConsSorted(p, s, start);
      var r := [p] + s;
      forall i | 0 <= i < |r| ensures r[i] == p || r[i] in s {
        if i > 0 { assert r[i] == s[i - 1]; }
      }
    } else {
      var t := s[1..];
      assert SortedByDistance(t, start) by {
        forall i, j | 0 <= i < j < |t| ensures Distance(t[i], start) <= Distance(t[j], start) {
          assert t[i] == s[i + 1] && t[j] == s[j + 1];
        }
      }
      InsertSorted(p, t, start);
      var it := Insert(p, t, start);
      forall i | 0 <= i < |it| ensures Distance(s[0], start) <= Distance(it[i], start) && (it[i] == p || it[i] in s) {
        if it[i] != p {
          var k :| 0 <= k < |t| && t[k] == it[i];
          assert t[k] == s[k + 1];
        }
      }
      ConsSorted(s[0], it, start);
      var r := [s[0]] + it;
      forall i | 0 <= i < |r| ensures r[i] == p || r[i] in s {
        if i > 0 { assert r[i] == it[i - 1]; }
      }
    }
  }

  lemma ConsSorted(x: seq<real>, u: seq<seq<real>>, start: seq<real>)
    requires SortedByDistance(u, start)
    requires forall i :: 0 <= i < |u| ==> Distance(x, start) <= Distance(u[i], start)
    ensures SortedByDistance([x] + u, start)
  {
    var r := [x] + u;
    forall i, j | 0 <= i < j < |r| ensures Distance(r[i], start) <= Distance(r[j], start) {
      assert r[j] == u[j - 1];
      if i > 0 { assert r[i] == u[i - 1]; }
    }
  }

  lemma {:induction false} InsertPermutes(p: seq<real>, s: seq<seq<real>>, start: seq<real>)
    ensures multiset(Insert(p, s, start)) == multiset(s) + multiset{p}
  {
    if s != [] && Distance(p, start) > Distance(s[0], start) {
      InsertPermutes(p, s[1..], start);
      assert s == [s[0]] + s[1..];
    }
  }

  lemma AtDistanceCons(x: seq<real>, t: seq<seq<real>>, start: seq<real>, d: real)
    ensures AtDistance([x] + t, start, d) == (if Distance(x, start) == d then [x] else []) + AtDistance(t, start, d)
  {
    assert ([x] + t)[0] == x && ([x] + t)[1..] == t;
  }

  lemma {:induction false} InsertStable(p: seq<real>, s: seq<seq<real>>, start: seq<real>, d: real)
    ensures AtDistance(Insert(p, s, start), start, d)
            == (if Distance(p, start) == d then [p] else []) + AtDistance(s, start, d)
  {
    var pd := if Distance(p, start) == d then [p] else [];
    if s == [] {
      AtDistanceCons(p, [], start, d);
      assert [p] + [] == [p];
    } else if Distance(p, start) <= Distance(s[0], start) {
      assert Insert(p, s, start) == [p] + s;
      AtDistanceCons(p, s, start, d);
    } else {
      var rest := Insert(p, s[1..], start);
      assert Insert(p, s, start) == [s[0]] + rest;
      InsertStable(p, s[1..], start, d);
      AtDistanceCons(s[0], rest, start, d);
      AtDistanceCons(s[0], s[1..], start, d);
      assert [s[0]] + s[1..] == s;
      var hd := if Distance(s[0], start) == d then [s[0]] else [];
      // p and s[0] are at different distances, so at most one of them is kept
      assert hd == [] || pd == [];
      assert hd + (pd + AtDistance(s[1..], start, d)) == pd + (hd + AtDistance(s[1..], start, d));
    }
  }

  /** The sort is ordered, a permutation, and stable (equal keys keep their input order). */
  lemma {:induction false} SortProperties(s: seq<seq<real>>, start: seq<real>)
    ensures SortedByDistance(SortByDistance(s, start), start)
    ensures multiset(SortByDistance(s, start)) == multiset(s)
    ensures forall d :: AtDistance(SortByDistance(s, start), start, d) == AtDistance(s, start, d)
  {
    if s != [] {
      var t := SortByDistance(s[1..], start);
      SortProperties(s[1..], start);
      InsertSorted(s[0], t, start);
      InsertPermutes(s[0], t, start);
      forall d ensures AtDistance(SortByDistance(s, start), start, d) == AtDistance(s, start, d) {
        InsertStable(s[0], t, start, d);
      }
      assert s == [s[0]] + s[1..];
    }
  }

  predicate WellPositioned(objs: seq<Target>, start: seq<real>) {
    |start| >= 2 && forall i :: 0 <= i < |objs| ==> |objs[i].pos| >= 2
  }

  /**
   * find_shortest_path: collects the "pos" of every object and sorts them by
   * Manhattan distance to `start`.  Keys are computed for every element
   * before sorting, so a position (or start) with fewer than two coordinates
   * raises IndexError.
   */
  method FindShortestPath(objs: seq<Target>, start: seq<real>) returns (r: Result<seq<seq<real>>>)
    ensures objs == [] ==> r == Ok([])
    ensures r.Ok? <==> objs == [] || WellPositioned(objs, start)
    ensures r.Ok? ==> SortedByDistance(r.value, start)
    ensures r.Ok? ==> multiset(r.value) == multiset(Positions(objs))
    ensures r.Ok? ==> forall d :: AtDistance(r.value, start, d) == AtDistance(Positions(objs), start, d)
  {
    if |objs| == 0 {
      return Ok([]);
    }
    var path: seq<seq<real>> := [];
    var i := 0;
    while i < |objs|
      invariant 0 <= i <= |objs|
      invariant path == Positions(objs[..i])
    {
      path := path + [objs[i].pos];
      i := i + 1;
    }
    assert objs[..i] == objs;
    if |start| < 2 || exists k :: 0 <= k < |path| && |path[k]| < 2 {
      return Err("IndexError");
    }
    SortProperties(path, start);
    r := Ok(SortByDistance(path, start));
  }
}
