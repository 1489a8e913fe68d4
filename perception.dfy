/**
 * The integer decisions of the image analysis (image_analysis/ia_class.py)
 * made on what OpenCV hands back: the colour configuration, which polygons
 * become detections, how a shape is named, and when a code marker counts.
 * Contours are given as approximated polygons with their bounding boxes.
 */
module Perception {
  import opened Wrappers
  import opened Observation

  // ---------------------------------------------------------------------------
  // Colour configuration (__init__)
  // ---------------------------------------------------------------------------

  /** An OpenCV LAB bound. */
  datatype Bound = Bound(l: real, a: real, b: real)

  /** A colour's ranges: one, or two when the configuration has "upper_1". */
  datatype ColorRange =
    | Single(lower: Bound, upper: Bound)
    | Double(lower0: Bound, upper0: Bound, lower1: Bound, upper1: Bound)

  /** One entry of config["colors"]: its "name" (if present) and its bound lists. */
  datatype ColorEntry = ColorEntry(name: Option<string>, bounds: map<string, seq<real>>)

  /** The colour table keeps the dictionary's order: first occurrence of each name. */
  type ColorTable = seq<(string, ColorRange)>

  /** conhsv: lightness in percent to 0..255, the two colour axes shifted by 128. */
  function Conv(val: seq<real>): (r: Result<Bound>)
    ensures r.Ok? <==> |val| >= 3
    ensures r.Ok? ==> r.value == Bound(val[0] * 2.55, val[1] + 128.0, val[2] + 128.0)
  {
    if |val| < 3 then Err("IndexError") else Ok(Bound(val[0] * 2.55, val[1] + 128.0, val[2] + 128.0))
  }

  /** A bound looked up by key and converted. */
  function BoundOf(e: ColorEntry, key: string): Result<Bound> {
    if key !in e.bounds then Err("KeyError") else Conv(e.bounds[key])
  }

  /** The range of one entry; the bounds are evaluated before the name. */
  function EntryRange(e: ColorEntry): Result<(string, ColorRange)> {
    if "upper_1" in e.bounds then
      var l0 := BoundOf(e, "lower_0");
      if l0.Err? then Err(l0.error) else
      var u0 := BoundOf(e, "upper_0");
      if u0.Err? then Err(u0.error) else
      var l1 := BoundOf(e, "lower_1");
      if l1.Err? then Err(l1.error) else
      var u1 := BoundOf(e, "upper_1");
      if u1.Err? then Err(u1.error) else
      if e.name.None? then Err("KeyError") else
      Ok((e.name.value, Double(l0.value, u0.value, l1.value, u1.value)))
    else
      var l := BoundOf(e, "lower");
      if l.Err? then Err(l.error) else
      var u := BoundOf(e, "upper");
      if u.Err? then Err(u.error) else
      if e.name.None? then Err("KeyError") else
      Ok((e.name.value, Single(l.value, u.value)))
  }

  /** The position of the colour with this name, or |t| when there is none. */
  function FindColor(t: ColorTable, name: string): (k: nat)
    ensures k <= |t|
    ensures k < |t| ==> t[k].0 == name
    ensures forall j :: 0 <= j < k ==> t[j].0 != name
  {
    if t == [] then 0 else if t[0].0 == name then 0 else 1 + FindColor(t[1..], name)
  }

  function LookupColor(t: ColorTable, name: string): Option<ColorRange> {
    var k := FindColor(t, name);
    if k < |t| then Some(t[k].1) else None
  }

  /** Dictionary assignment: an existing name keeps its place and takes the new range. */
  function Put(t: ColorTable, name: string, r: ColorRange): ColorTable {
    var k := FindColor(t, name);
    if k < |t| then t[k := (name, r)] else t + [(name, r)]
  }

  /** The table built from the entries, or the first error met. */
  function Colors(entries: seq<ColorEntry>): Result<ColorTable> {
    if entries == [] then Ok([])
    else
      var t := Colors(entries[..|entries| - 1]);
      if t.Err? then t
      else
        var e := EntryRange(entries[|entries| - 1]);
        if e.Err? then Err(e.error) else Ok(Put(t.value, e.value.0, e.value.1))
  }

  /** The range of the last entry carrying this name: the reference for a table lookup. */
  function LastRange(entries: seq<ColorEntry>, name: string): Option<ColorRange>
    requires forall i :: 0 <= i < |entries| ==> EntryRange(entries[i]).Ok?
  {
    if entries == [] then None
    else
      var e := EntryRange(entries[|entries| - 1]).value;
      if e.0 == name then Some(e.1) else LastRange(entries[..|entries| - 1], name)
  }

  predicate DistinctNames(t: ColorTable) {
    forall q, r :: 0 <= q < r < |t| ==> t[q].0 != t[r].0
  }

  lemma PutLookup(t: ColorTable, name: string, r: ColorRange, other: string)
    requires DistinctNames(t)
    ensures DistinctNames(Put(t, name, r))
    ensures LookupColor(Put(t, name, r), other) == if other == name then Some(r) else LookupColor(t, other)
  {
    var t' := Put(t, name, r);
    var k := FindColor(t, name);
    var m := FindColor(t', other);
    var m0 := FindColor(t, other);
    assert forall q :: 0 <= q < |t| ==> t'[q].0 == t[q].0;
    if k == |t| {
      assert t'[|t|] == (name, r);
    }
  }

  /**
   * The colour table: it is built exactly when every entry converts; then
   * names are distinct and each name maps to the range of its last entry.
   */
  lemma {:induction false} ColorsSpec(entries: seq<ColorEntry>)
    ensures Colors(entries).Ok? <==> forall i :: 0 <= i < |entries| ==> EntryRange(entries[i]).Ok?
    ensures Colors(entries).Ok? ==> DistinctNames(Colors(entries).value)
    ensures Colors(entries).Ok? ==>
              forall name :: LookupColor(Colors(entries).value, name) == LastRange(entries, name)
    decreases |entries|
  {
    if entries != [] {
      var n := |entries| - 1;
      var init := entries[..n];
      ColorsSpec(init);
      assert forall i :: 0 <= i < n ==> init[i] == entries[i];
      if Colors(entries).Ok? {
        var e := EntryRange(entries[n]).value;
        forall name ensures LookupColor(Colors(entries).value, name) == LastRange(entries, name) {
          PutLookup(Colors(init).value, e.0, e.1, name);
        }
        PutLookup(Colors(init).value, e.0, e.1, e.0);
      }
    }
  }

  /** The loop over config["colors"]. */
  method LoadColors(entries: seq<ColorEntry>) returns (r: Result<ColorTable>)
    ensures r == Colors(entries)
  {
    var t: ColorTable := [];
    var i := 0;
    while i < |entries|
      invariant 0 <= i <= |entries|
      invariant Colors(entries[..i]) == Ok(t)
    {
      assert entries[..i + 1][..i] == entries[..i];
      var e := EntryRange(entries[i]);
      if e.Err? {
        assert entries[..i + 1][i] == entries[i];
        ColorsFailed(entries, i + 1);
        return Err(e.error);
      }
      t := Put(t, e.value.0, e.value.1);
      i := i + 1;
    }
    assert entries[..i] == entries;
    return Ok(t);
  }

  /** Once a prefix fails, the whole table fails with the same error. */
  lemma {:induction false} ColorsFailed(entries: seq<ColorEntry>, i: nat)
    requires 0 < i <= |entries| && Colors(entries[..i]).Err?
    ensures Colors(entries) == Colors(entries[..i])
    decreases |entries| - i
  {
    if i < |entries| {
      var next := entries[..i + 1];
      assert next[..|next| - 1] == entries[..i];
      assert Colors(next) == Colors(entries[..i]);
      ColorsFailed(entries, i + 1);
    } else {
      assert entries[..i] == entries;
    }
  }

  /** What image analysis needs of its configuration; the option fields default as `config.get` does. */
  datatype Config = Config(
    colors: Option<seq<ColorEntry>>,
    shapeColor: Option<map<string, seq<real>>>,
    minDiagonal: Option<int>,
    minDiagonalShape: Option<int>,
    minDiagonalCode: Option<int>,
    /** The quality threshold; the configuration key is spelled "threashold" (ia_class.py:165). */
    threshold: Option<real>)

  datatype Settings = Settings(
    colors: ColorTable,
    shapeColor: ColorRange,
    minDiagonal: int,
    minDiagonalShape: int,
    minDiagonalCode: int,
    threshold: real)

  /** The settings, or the error __init__ raises: the colours are read first, then the shape colour. */
  function SettingsOf(cfg: Config): (r: Result<Settings>)
    ensures r.Ok? ==> r.value.minDiagonal == cfg.minDiagonal.GetOr(10) && r.value.threshold == cfg.threshold.GetOr(-1.0)
    ensures r.Ok? ==> r.value.minDiagonalShape == cfg.minDiagonalShape.GetOr(1) && r.value.minDiagonalCode == cfg.minDiagonalCode.GetOr(1)
    ensures r.Ok? ==> cfg.colors.Some? && Colors(cfg.colors.value) == Ok(r.value.colors)
  {
    if cfg.colors.None? then Err("KeyError") else
    var t := Colors(cfg.colors.value);
    if t.Err? then Err(t.error) else
    if cfg.shapeColor.None? then Err("KeyError") else
    var sc := ColorEntry(Some("shape_color"), cfg.shapeColor.value);
    var l := BoundOf(sc, "lower");
    if l.Err? then Err(l.error) else
    var u := BoundOf(sc, "upper");
    if u.Err? then Err(u.error) else
    Ok(Settings(t.value, Single(l.value, u.value), cfg.minDiagonal.GetOr(10),
                cfg.minDiagonalShape.GetOr(1), cfg.minDiagonalCode.GetOr(1), cfg.threshold.GetOr(-1.0)))
  }

  // ---------------------------------------------------------------------------
  // detect_obj
  // ---------------------------------------------------------------------------

  function DiagSquared(r: Rect): nat {
    r.w * r.w + r.h * r.h
  }

  /** A polygon is a detection when it is a quadrilateral whose diagonal reaches min_diagonal. */
  predicate Accepted(p: Polygon, minDiagonal: int) {
    DiagSquared(p.box) >= minDiagonal * minDiagonal && |p.vertices| == 4
  }

  /** The record of an accepted polygon. */
  function RecordOf(p: Polygon, color: string): (o: Detection)
    ensures o.color == color && o.contour == p.vertices
    ensures o.box == BoundBox(p.box.x, p.box.x + p.box.w, p.box.y, p.box.y + p.box.h)
    ensures o.xCenter == p.box.x + p.box.w / 2 && o.yCenter == p.box.y + p.box.h / 2
    ensures o.shape.None? && o.latLon.None? && o.code.None? && o.time.None? && o.id.None?
  {
    var b := p.box;
    Detection(color, BoundBox(b.x, b.x + b.w, b.y, b.y + b.h), p.vertices,
              b.x + b.w / 2, b.y + b.h / 2, None, None, None, None, None)
  }

  /** The records of the accepted polygons of one colour mask, in contour order. */
  function DetectedIn(polys: seq<Polygon>, color: string, minDiagonal: int): seq<Detection> {
    if polys == [] then []
    else
      var p := polys[|polys| - 1];
      DetectedIn(polys[..|polys| - 1], color, minDiagonal)
        + (if Accepted(p, minDiagonal) then [RecordOf(p, color)] else [])
  }

  /** detect_obj: appends the records of the accepted polygons to the caller's list. */
  method DetectObj(objects: seq<Detection>, color: string, polys: seq<Polygon>, minDiagonal: int)
    returns (r: seq<Detection>)
    ensures r == objects + DetectedIn(polys, color, minDiagonal)
  {
    r := objects;
    var i := 0;
    while i < |polys|
      invariant 0 <= i <= |polys|
      invariant r == objects + DetectedIn(polys[..i], color, minDiagonal)
    {
      assert polys[..i + 1][..i] == polys[..i];
      var b := polys[i].box;
      if b.w * b.w + b.h * b.h < minDiagonal * minDiagonal {
      } else if |polys[i].vertices| == 4 {
        var xm := b.x + b.w / 2;
        var ym := b.y + b.h / 2;
        r := r + [Detection(color, BoundBox(b.x, b.x + b.w, b.y, b.y + b.h), polys[i].vertices,
                            xm, ym, None, None, None, None, None)];
      }
      i := i + 1;
    }
    assert polys[..i] == polys;
  }

  /**
   * Every record of a mask comes from an accepted polygon, and every accepted
   * polygon has its record.
   */
  lemma {:induction false} DetectedExactly(polys: seq<Polygon>, color: string, md: int)
    ensures forall o :: o in DetectedIn(polys, color, md) ==>
              exists p :: p in polys && Accepted(p, md) && o == RecordOf(p, color)
    ensures forall p :: p in polys && Accepted(p, md) ==> RecordOf(p, color) in DetectedIn(polys, color, md)
    decreases |polys|
  {
    if polys != [] {
      var init := polys[..|polys| - 1];
      DetectedExactly(init, color, md);
      assert polys == init + [polys[|polys| - 1]];
    }
  }

  /** The detections of all colour masks, in colour-table order. */
  function DetectedAll(t: ColorTable, contours: string -> seq<Polygon>, md: int): seq<Detection> {
    if t == [] then []
    else DetectedAll(t[..|t| - 1], contours, md) + DetectedIn(contours(t[|t| - 1].0), t[|t| - 1].0, md)
  }

  /** compute_image: detections over the colour masks, one mask per configured colour. */
  method ComputeImage(t: ColorTable, contours: string -> seq<Polygon>, md: int) returns (objects: seq<Detection>)
    ensures objects == DetectedAll(t, contours, md)
  {
    objects := [];
    var i := 0;
    while i < |t|
      invariant 0 <= i <= |t|
      invariant objects == DetectedAll(t[..i], contours, md)
    {
      assert t[..i + 1][..i] == t[..i];
      objects := DetectObj(objects, t[i].0, contours(t[i].0), md);
      i := i + 1;
    }
    assert t[..i] == t;
  }

  /** detect_obj: what it adds is accepted and carries the mask's colour and box geometry. */
  lemma {:induction false} DetectedWellFormed(polys: seq<Polygon>, color: string, md: int)
    ensures forall o :: o in DetectedIn(polys, color, md) ==>
              o.color == color && |o.contour| == 4
              && o.box.xStop - o.box.xStart >= 0 && o.box.yStop - o.box.yStart >= 0
              && (o.box.xStop - o.box.xStart) * (o.box.xStop - o.box.xStart)
                 + (o.box.yStop - o.box.yStart) * (o.box.yStop - o.box.yStart) >= md * md
              && o.box.xStart <= o.xCenter <= o.box.xStop && o.box.yStart <= o.yCenter <= o.box.yStop
              && o.shape.None? && o.latLon.None? && o.code.None?
  {
    DetectedExactly(polys, color, md);
  }

  /** Every detection of every colour mask comes without shape, position or code. */
  lemma {:induction false} DetectedAllBare(t: ColorTable, contours: string -> seq<Polygon>, md: int)
    ensures forall k :: 0 <= k < |DetectedAll(t, contours, md)| ==>
              DetectedAll(t, contours, md)[k].shape.None? && DetectedAll(t, contours, md)[k].latLon.None?
              && DetectedAll(t, contours, md)[k].code.None?
    decreases |t|
  {
    if t != [] {
      DetectedAllBare(t[..|t| - 1], contours, md);
      DetectedWellFormed(contours(t[|t| - 1].0), t[|t| - 1].0, md);
      var xs: seq<Detection> := DetectedAll(t[..|t| - 1], contours, md);
      var ys: seq<Detection> := DetectedIn(contours(t[|t| - 1].0), t[|t| - 1].0, md);
      forall k | 0 <= k < |xs + ys|
        ensures (xs + ys)[k].shape.None? && (xs + ys)[k].latLon.None? && (xs + ys)[k].code.None?
      {
        if k >= |xs| {
          assert (xs + ys)[k] == ys[k - |xs|] && ys[k - |xs|] in ys;
        }
      }
    }
  }

  // ---------------------------------------------------------------------------
  // get_shape
  // ---------------------------------------------------------------------------

  /** A contour names the shape when its diagonal reaches the minimum and it has at least three vertices. */
  predicate Names(p: Polygon, md: int) {
    DiagSquared(p.box) >= md * md && |p.vertices| >= 3
  }

  /** The first contour that names a shape, or |polys|. */
  function FirstNaming(polys: seq<Polygon>, md: int): (k: nat)
    ensures k <= |polys|
    ensures k < |polys| ==> Names(polys[k], md)
    ensures forall j :: 0 <= j < k ==> !Names(polys[j], md)
  {
    if polys == [] then 0 else if Names(polys[0], md) then 0 else 1 + FirstNaming(polys[1..], md)
  }

  function ShapeName(vertices: nat): string
    requires vertices >= 3
  {
    if vertices == 3 then "Dreieck" else if vertices == 4 then "Rechteck" else "Kreis"
  }

  /** The shape inside a bounding box; None stands for get_shape's False. */
  function ShapeOf(polys: seq<Polygon>, md: int): Option<string> {
    var k := FirstNaming(polys, md);
    if k < |polys| then Some(ShapeName(|polys[k].vertices|)) else None
  }

  /** get_shape: the loop with its early returns. */
  method GetShape(polys: seq<Polygon>, md: int) returns (r: Option<string>)
    ensures r == ShapeOf(polys, md)
    ensures r.None? <==> forall j :: 0 <= j < |polys| ==> !Names(polys[j], md)
    ensures r.Some? ==>
              exists k :: 0 <= k < |polys| && Names(polys[k], md)
                && (forall j :: 0 <= j < k ==> !Names(polys[j], md)) && r.value == ShapeName(|polys[k].vertices|)
  {
    var i := 0;
    while i < |polys|
      invariant 0 <= i <= |polys|
      invariant forall j :: 0 <= j < i ==> !Names(polys[j], md)
    {
      var b := polys[i].box;
      var n := |polys[i].vertices|;
      if b.w * b.w + b.h * b.h < md * md {
      } else if n == 3 {
        FirstNamingIs(polys, md, i);
        return Some("Dreieck");
      } else if n == 4 {
        FirstNamingIs(polys, md, i);
        return Some("Rechteck");
      } else if n > 4 {
        FirstNamingIs(polys, md, i);
        return Some("Kreis");
      }
      i := i + 1;
    }
    FirstNamingIs(polys, md, i);
    return None;
  }

  /** The first naming contour is the one after a run of contours that do not name. */
  lemma FirstNamingIs(polys: seq<Polygon>, md: int, i: nat)
    requires i <= |polys| && (i < |polys| ==> Names(polys[i], md))
    requires forall j :: 0 <= j < i ==> !Names(polys[j], md)
    ensures FirstNaming(polys, md) == i
  {
  }

  // ---------------------------------------------------------------------------
  // find_code
  // ---------------------------------------------------------------------------

  predicate IsCodeElement(p: Polygon, md: int) {
    DiagSquared(p.box) >= md * md && |p.vertices| == 4
  }

  function ElementOf(p: Polygon): CodeElement {
    CodeElement(p.box.x, p.box.y, p.box.w, p.box.h, DiagSquared(p.box))
  }

  /** The code elements found inside a box, in contour order. */
  function CodeElements(polys: seq<Polygon>, md: int): seq<CodeElement> {
    if polys == [] then []
    else
      var p := polys[|polys| - 1];
      CodeElements(polys[..|polys| - 1], md) + (if IsCodeElement(p, md) then [ElementOf(p)] else [])
  }

  /**
   * find_code: fewer than three elements give False and leave the object as
   * it is; exactly three are stored as its code and give True.  More than
   * three reach a sort whose key is passed positionally, which raises.
   */
  method FindCode(obj: Detection, polys: seq<Polygon>, md: int) returns (r: Result<bool>, obj': Detection)
    ensures var els := CodeElements(polys, md);
            && (|els| < 3 ==> r == Ok(false) && obj' == obj)
            && (|els| == 3 ==> r == Ok(true) && obj' == obj.(code := Some(els)))
            && (|els| > 3 ==> r == Err("TypeError") && obj' == obj)
  {
    var els: seq<CodeElement> := [];
    var i := 0;
    while i < |polys|
      invariant 0 <= i <= |polys|
      invariant els == CodeElements(polys[..i], md)
    {
      assert polys[..i + 1][..i] == polys[..i];
      var b := polys[i].box;
      if b.w * b.w + b.h * b.h < md * md {
      } else if |polys[i].vertices| == 4 {
        els := els + [CodeElement(b.x, b.y, b.w, b.h, b.w * b.w + b.h * b.h)];
      }
      i := i + 1;
    }
    assert polys[..i] == polys;
    obj' := obj;
    if |els| < 3 {
      return Ok(false), obj';
    }
    if |els| == 3 {
      obj' := obj.(code := Some(els));
      return Ok(true), obj';
    }
    return Err("TypeError"), obj';
  }

  /** Code elements are exactly the qualifying quadrilaterals, each with d = w*w + h*h. */
  lemma {:induction false} CodeElementsExactly(polys: seq<Polygon>, md: int)
    ensures forall e :: e in CodeElements(polys, md) ==>
              exists p :: p in polys && IsCodeElement(p, md) && e == ElementOf(p) && e.d == e.w * e.w + e.h * e.h
    ensures forall p :: p in polys && IsCodeElement(p, md) ==> ElementOf(p) in CodeElements(polys, md)
    decreases |polys|
  {
    if polys != [] {
      CodeElementsExactly(polys[..|polys| - 1], md);
      assert polys == polys[..|polys| - 1] + [polys[|polys| - 1]];
    }
  }

  // ---------------------------------------------------------------------------
  // _get_correct_shape, _get_closest_code, get_closest_element
  // ---------------------------------------------------------------------------

  /** What OpenCV finds in the shape mask inside a bounding box. */
  type ShapeView = BoundBox -> seq<Polygon>

  /** The objects whose shape is the requested one, in order. */
  function WithShape(objects: seq<Detection>, view: ShapeView, md: int, shape: string): seq<Detection> {
    if objects == [] then []
    else
      var o := objects[|objects| - 1];
      WithShape(objects[..|objects| - 1], view, md, shape)
        + (if ShapeOf(view(o.box), md) == Some(shape) then [o] else [])
  }

  lemma {:induction false} WithShapeExactly(objects: seq<Detection>, view: ShapeView, md: int, shape: string)
    ensures forall o :: o in WithShape(objects, view, md, shape) <==>
              o in objects && ShapeOf(view(o.box), md) == Some(shape)
    decreases |objects|
  {
    if objects != [] {
      WithShapeExactly(objects[..|objects| - 1], view, md, shape);
      assert objects == objects[..|objects| - 1] + [objects[|objects| - 1]];
    }
  }

  /** _get_correct_shape. */
  method GetCorrectShape(objects: seq<Detection>, view: ShapeView, md: int, shape: string)
    returns (relevant: seq<Detection>)
    ensures relevant == WithShape(objects, view, md, shape)
  {
    relevant := [];
    var i := 0;
    while i < |objects|
      invariant 0 <= i <= |objects|
      invariant relevant == WithShape(objects[..i], view, md, shape)
    {
      assert objects[..i + 1][..i] == objects[..i];
      var s := GetShape(view(objects[i].box), md);
      if s == Some(shape) {
        relevant := relevant + [objects[i]];
      }
      i := i + 1;
    }
    assert objects[..i] == objects;
  }

  /** The objects carrying a code, with it stored, in order; or the error of the first that raises. */
  function WithCode(objects: seq<Detection>, view: ShapeView, md: int): Result<seq<Detection>> {
    if objects == [] then Ok([])
    else
      var prev := WithCode(objects[..|objects| - 1], view, md);
      var o := objects[|objects| - 1];
      var els := CodeElements(view(o.box), md);
      if prev.Err? then prev
      else if |els| > 3 then Err("TypeError")
      else if |els| == 3 then Ok(prev.value + [o.(code := Some(els))])
      else prev
  }

  /** _get_closest_code. */
  method GetClosestCode(objects: seq<Detection>, view: ShapeView, md: int) returns (r: Result<seq<Detection>>)
    ensures r == WithCode(objects, view, md)
  {
    var relevant: seq<Detection> := [];
    var i := 0;
    while i < |objects|
      invariant 0 <= i <= |objects|
      invariant WithCode(objects[..i], view, md) == Ok(relevant)
    {
      assert objects[..i + 1][..i] == objects[..i];
      var found, o := FindCode(objects[i], view(objects[i].box), md);
      if found.Err? {
        WithCodeFailed(objects, view, md, i + 1);
        return Err(found.error);
      }
      if found.value {
        relevant := relevant + [o];
      }
      i := i + 1;
    }
    assert objects[..i] == objects;
    return Ok(relevant);
  }

  lemma {:induction false} WithCodeFailed(objects: seq<Detection>, view: ShapeView, md: int, i: nat)
    requires 0 < i <= |objects| && WithCode(objects[..i], view, md).Err?
    ensures WithCode(objects, view, md) == WithCode(objects[..i], view, md)
    decreases |objects| - i
  {
    if i < |objects| {
      assert objects[..i + 1][..i] == objects[..i];
      WithCodeFailed(objects, view, md, i + 1);
    } else {
      assert objects[..i] == objects;
    }
  }

  /** Every object kept by _get_closest_code carries exactly three code elements. */
  lemma {:induction false} WithCodeHasCode(objects: seq<Detection>, view: ShapeView, md: int)
    requires WithCode(objects, view, md).Ok?
    ensures forall o :: o in WithCode(objects, view, md).value ==> o.code.Some? && |o.code.value| == 3
    ensures |WithCode(objects, view, md).value| <= |objects|
    decreases |objects|
  {
    if objects != [] {
      WithCodeHasCode(objects[..|objects| - 1], view, md);
    }
  }

  /**
   * _get_closest_code selects exactly its partner: it raises TypeError iff
   * some object has more than three code elements, and otherwise keeps
   * exactly the objects with three, each with those elements stored.
   */
  lemma {:induction false} WithCodeExactly(objects: seq<Detection>, view: ShapeView, md: int)
    ensures WithCode(objects, view, md).Err? <==>
              exists o :: o in objects && |CodeElements(view(o.box), md)| > 3
    ensures WithCode(objects, view, md).Err? ==> WithCode(objects, view, md).error == "TypeError"
    ensures WithCode(objects, view, md).Ok? ==>
              forall d :: d in WithCode(objects, view, md).value <==>
                exists o :: o in objects && |CodeElements(view(o.box), md)| == 3
                            && d == o.(code := Some(CodeElements(view(o.box), md)))
    decreases |objects|
  {
    if objects != [] {
      WithCodeExactly(objects[..|objects| - 1], view, md);
      assert objects == objects[..|objects| - 1] + [objects[|objects| - 1]];
    }
  }

  /**
   * The candidates of get_closest_element: "Code" selects by code, any other
   * name by shape. A missing shape (None) is compared with get_shape's result,
   * which is a name or False and never None, so nothing qualifies.
   */
  function Candidates(objects: seq<Detection>, view: ShapeView, s: Settings, shape: Option<string>): Result<seq<Detection>> {
    match shape
    case None => Ok([])
    case Some(name) =>
      if name == "Code" then WithCode(objects, view, s.minDiagonalCode)
      else Ok(WithShape(objects, view, s.minDiagonalShape, name))
  }

  /**
   * get_closest_element: an undefined colour raises; no candidate gives None,
   * one candidate gives it; several reach a sort whose key is passed
   * positionally, which raises.
   */
  method GetClosestElement(s: Settings, color: string, shape: Option<string>, contours: string -> seq<Polygon>,
                           view: ShapeView)
    returns (r: Result<Option<Detection>>)
    ensures LookupColor(s.colors, color).None? ==> r == Err("IndexError")
    ensures LookupColor(s.colors, color).Some? && shape.None? ==> r == Ok(None)
    ensures LookupColor(s.colors, color).Some? ==>
              var c := Candidates(DetectedIn(contours(color), color, s.minDiagonal), view, s, shape);
              && (c.Err? ==> r == Err(c.error))
              && (c.Ok? && |c.value| == 0 ==> r == Ok(None))
              && (c.Ok? && |c.value| == 1 ==> r == Ok(Some(c.value[0])))
              && (c.Ok? && |c.value| > 1 ==> r == Err("TypeError"))
  {
    if FindColor(s.colors, color) == |s.colors| {
      return Err("IndexError");
    }
    var objects := DetectObj([], color, contours(color), s.minDiagonal);
    assert objects == DetectedIn(contours(color), color, s.minDiagonal);
    var relevant: seq<Detection>;
    if shape == Some("Code") {
      var c := GetClosestCode(objects, view, s.minDiagonalCode);
      if c.Err? {
        return Err(c.error);
      }
      relevant := c.value;
    } else if shape.Some? {
      relevant := GetCorrectShape(objects, view, s.minDiagonalShape, shape.value);
    } else {
      relevant := [];
    }
    if |relevant| == 0 {
      return Ok(None);
    }
    if |relevant| == 1 {
      return Ok(Some(relevant[0]));
    }
    return Err("TypeError");
  }

  /** A single candidate returned by get_closest_element was detected in the colour's mask and has the requested shape. */
  lemma ClosestIsCandidate(s: Settings, color: string, shape: string, contours: string -> seq<Polygon>, view: ShapeView, o: Detection)
    requires shape != "Code"
    requires WithShape(DetectedIn(contours(color), color, s.minDiagonal), view, s.minDiagonalShape, shape) == [o]
    ensures o in DetectedIn(contours(color), color, s.minDiagonal)
    ensures ShapeOf(view(o.box), s.minDiagonalShape) == Some(shape) && o.color == color
  {
    WithShapeExactly(DetectedIn(contours(color), color, s.minDiagonal), view, s.minDiagonalShape, shape);
    assert o in [o];
    DetectedWellFormed(contours(color), color, s.minDiagonal);
  }
}
