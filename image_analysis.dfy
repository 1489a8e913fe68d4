/**
 * The per-frame routine of the image analysis (image_analysis/ia_class.py):
 * one journal record per camera frame, gated by image quality and pose,
 * with the detections, their shapes and positions, and the annotated image.
 */
module Analysis {
  import opened Wrappers
  import opened Observation
  import opened Journal
  import opened Perception

  /**
   * What OpenCV finds in one camera frame: the polygons of each colour
   * mask, and the polygons of the shape mask inside a bounding box.
   */
  datatype Scene = Scene(contours: string -> seq<Polygon>, view: ShapeView)

  /**
   * add_lat_lon for this frame: the global position of a detection, or None
   * where the pixel-to-world conversion raises.
   */
  type Locator = Detection -> Option<LatLon>

  /** A detection with the shape found inside its box (None stands for False). */
  function Shaped(o: Detection, view: ShapeView, md: int): Detection {
    o.(shape := ShapeOf(view(o.box), md))
  }

  /** The first detection whose position cannot be computed, or |objs|. */
  function FirstUnlocated(objs: seq<Detection>, view: ShapeView, md: int, locate: Locator): (k: nat)
    ensures k <= |objs|
    ensures k < |objs| ==> locate(Shaped(objs[k], view, md)).None?
    ensures forall j :: 0 <= j < k ==> locate(Shaped(objs[j], view, md)).Some?
  {
    if objs == [] then 0
    else if locate(Shaped(objs[0], view, md)).None? then 0
    else 1 + FirstUnlocated(objs[1..], view, md, locate)
  }

  /**
   * The detections after the shape/position loop stopped at f: those before
   * f carry a shape and a position, the one at f only its shape, the rest
   * are untouched.
   */
  function Processed(objs: seq<Detection>, f: nat, view: ShapeView, md: int, locate: Locator): (r: seq<Detection>)
    requires f <= |objs|
    ensures |r| == |objs|
  {
    seq(|objs|, j requires 0 <= j < |objs| =>
      if j < f then Shaped(objs[j], view, md).(latLon := locate(Shaped(objs[j], view, md)))
      else if j == f then Shaped(objs[j], view, md)
      else objs[j])
  }

  /** The centre dot and the box drawn for each detection. */
  function MarksOf(objs: seq<Detection>): (r: seq<Mark>)
    ensures |r| == |objs|
    ensures forall j :: 0 <= j < |objs| ==> r[j] == Mark(objs[j].xCenter, objs[j].yCenter, objs[j].box)
  {
    seq(|objs|, j requires 0 <= j < |objs| => Mark(objs[j].xCenter, objs[j].yCenter, objs[j].box))
  }

  /**
   * The journal record of one frame, and whether the routine raised: low
   * quality records the quality and stops; a zero latitude stops; otherwise
   * the detections are stored, then get a shape and a position one by one,
   * and the annotated image is stored once all of them have been handled.
   * `toGlobal` None stands for the converter that cannot be built.
   */
  function Recorded(s: Settings, time: int, image: Image, pose: Pose, height: real, quality: real,
                    scene: Scene, toGlobal: Option<Locator>): (Frame, bool)
  {
    var base := EmptyFrame(time).(pose := Some(pose), rawImage := Some(image), height := Some(height));
    if quality < s.threshold then (base.(quality := Some(quality)), false)
    else if pose.lat == 0.0 then (base, false)
    else
      var objs := DetectedAll(s.colors, scene.contours, s.minDiagonal);
      if toGlobal.None? then (base.(foundObjs := objs), true)
      else
        var f := FirstUnlocated(objs, scene.view, s.minDiagonalShape, toGlobal.value);
        var done := Processed(objs, f, scene.view, s.minDiagonalShape, toGlobal.value);
        if f < |objs| then (base.(foundObjs := done), true)
        else (base.(foundObjs := done, computedImage := Some(Annotated(image, MarksOf(objs)))), false)
  }

  class ImageAnalysis {
    const settings: Settings
    const dh: DataHandler

    constructor (s: Settings, h: DataHandler)
      ensures settings == s && dh == h
    {
      settings := s;
      dh := h;
    }

    /** __init__: the journal is opened first, then the colour configuration is read. */
    static method Open(cfg: Config, journal: Option<JournalFile>) returns (r: Result<ImageAnalysis>)
      ensures r.Ok? <==> (journal.None? || Load(journal.value).Some?) && SettingsOf(cfg).Ok?
      ensures r.Ok? ==> fresh(r.value) && fresh(r.value.dh) && r.value.dh.Valid()
      ensures r.Ok? ==> r.value.settings == SettingsOf(cfg).value && r.value.dh.journal == journal
    {
      var h := DataHandler.Open(journal, None);
      if h.Err? {
        return Err(h.error);
      }
      var s := SettingsOf(cfg);
      if s.Err? {
        return Err(s.error);
      }
      var a := new ImageAnalysis(s.value, h.value);
      return Ok(a);
    }

    /** The loop over the detections: shape, then position; a position that raises ends it. */
    method LocateObjects(objs: seq<Detection>, view: ShapeView, locate: Locator)
      returns (r: seq<Detection>, marks: seq<Mark>, failed: bool)
      ensures var f := FirstUnlocated(objs, view, settings.minDiagonalShape, locate);
              && r == Processed(objs, f, view, settings.minDiagonalShape, locate)
              && (failed <==> f < |objs|)
              && (!failed ==> marks == MarksOf(objs))
    {
      var md := settings.minDiagonalShape;
      r := objs;
      marks := [];
      failed := false;
      var i := 0;
      assert r == Upto(objs, 0, view, md, locate);
      while i < |objs|
        invariant 0 <= i <= |objs| && i <= FirstUnlocated(objs, view, md, locate)
        invariant r == Upto(objs, i, view, md, locate)
        invariant marks == MarksOf(objs[..i])
      {
        // GetShape computes ShapeOf
        var o := Shaped(objs[i], view, md);
        var loc := locate(o);
        if loc.None? {
          ProcessedAt(objs, i, view, md, locate);
          r := r[i := o];
          failed := true;
          return;
        }
        UptoStep(objs, i, view, md, locate);
        r := r[i := o.(latLon := loc)];
        MarksStep(objs, i);
        marks := marks + [Mark(o.xCenter, o.yCenter, o.box)];
        i := i + 1;
      }
      assert objs[..i] == objs;
      ProcessedAll(objs, view, md, locate);
    }

    /** The record and the raised flag of one frame, computed step by step as the routine does. */
    method RecordFrame(time: int, image: Image, pose: Pose, height: real, quality: real,
                       scene: Scene, toGlobal: Option<Locator>)
      returns (rec: Frame, raised: bool)
      ensures (rec, raised) == Recorded(settings, time, image, pose, height, quality, scene, toGlobal)
    {
      rec := EmptyFrame(time).(pose := Some(pose), rawImage := Some(image), height := Some(height));
      raised := false;
      if quality < settings.threshold {
        rec := rec.(quality := Some(quality));
      } else if pose.lat != 0.0 {
        var objects := ComputeImage(settings.colors, scene.contours, settings.minDiagonal);
        rec := rec.(foundObjs := objects);
        if toGlobal.None? {
          raised := true;
        } else {
          var done, marks, failed := LocateObjects(objects, scene.view, toGlobal.value);
          rec := rec.(foundObjs := done);
          if failed {
            raised := true;
          } else {
            rec := rec.(computedImage := Some(Annotated(image, marks)));
          }
        }
      }
    }

    /** _image_sub_routine: one journal record per frame, saved on leaving the `with` block whatever happened. */
    method ImageSubRoutine(time: int, image: Image, pose: Pose, height: real, quality: real,
                           scene: Scene, toGlobal: Option<Locator>)
      returns (raised: bool)
      requires dh.Valid()
      modifies dh
      ensures var rec := Recorded(settings, time, image, pose, height, quality, scene, toGlobal);
              && dh.items == old(dh.items) + [rec.0]
              && raised == rec.1
              && dh.journal == Some(Appended(old(dh.journal), old(dh.items)[old(dh.saved)..] + [rec.0]))
      ensures dh.Valid() && dh.saved == |dh.items|
      ensures dh.filtered == old(dh.filtered)
    {
      var id := dh.Enter(time);
      var rec;
      rec, raised := RecordFrame(time, image, pose, height, quality, scene, toGlobal);
      ghost var before := dh.items;
      dh.Update(id, rec);
      assert dh.items == before[..id] + [rec];
      assert dh.items[dh.saved..] == old(dh.items)[old(dh.saved)..] + [rec];
      dh.Exit();
    }
  }

  /** The detections after i rounds of the loop: those before i have shape and position. */
  function Upto(objs: seq<Detection>, i: nat, view: ShapeView, md: int, locate: Locator): (r: seq<Detection>)
    requires i <= |objs|
    ensures |r| == |objs|
  {
    seq(|objs|, j requires 0 <= j < |objs| =>
      if j < i then Shaped(objs[j], view, md).(latLon := locate(Shaped(objs[j], view, md))) else objs[j])
  }

  lemma UptoStep(objs: seq<Detection>, i: nat, view: ShapeView, md: int, locate: Locator)
    requires i < |objs|
    ensures Upto(objs, i, view, md, locate)[i := Shaped(objs[i], view, md).(latLon := locate(Shaped(objs[i], view, md)))]
            == Upto(objs, i + 1, view, md, locate)
  {
  }

  lemma ProcessedAt(objs: seq<Detection>, i: nat, view: ShapeView, md: int, locate: Locator)
    requires i < |objs|
    ensures Upto(objs, i, view, md, locate)[i := Shaped(objs[i], view, md)] == Processed(objs, i, view, md, locate)
  {
  }

  lemma ProcessedAll(objs: seq<Detection>, view: ShapeView, md: int, locate: Locator)
    ensures Upto(objs, |objs|, view, md, locate) == Processed(objs, |objs|, view, md, locate)
  {
  }

  lemma MarksStep(objs: seq<Detection>, i: nat)
    requires i < |objs|
    ensures MarksOf(objs[..i + 1]) == MarksOf(objs[..i]) + [Mark(objs[i].xCenter, objs[i].yCenter, objs[i].box)]
  {
    assert objs[..i + 1][..i] == objs[..i];
  }

  lemma FirstUnlocatedIs(objs: seq<Detection>, view: ShapeView, md: int, locate: Locator, i: nat)
    requires i <= |objs| && (i < |objs| ==> locate(Shaped(objs[i], view, md)).None?)
    requires forall j :: 0 <= j < i ==> locate(Shaped(objs[j], view, md)).Some?
    ensures FirstUnlocated(objs, view, md, locate) == i
  {
  }

  // ---------------------------------------------------------------------------
  // Properties of the record
  // ---------------------------------------------------------------------------

  /** A frame below the quality threshold is recorded with pose, image, height and quality, and nothing found. */
  lemma LowQualityRecord(s: Settings, time: int, image: Image, pose: Pose, height: real, quality: real,
                         scene: Scene, toGlobal: Option<Locator>)
    requires quality < s.threshold
    ensures var (rec, raised) := Recorded(s, time, image, pose, height, quality, scene, toGlobal);
            && rec == Frame(time, Some(pose), Some(image), Some(height), Some(quality), [], None)
            && !raised
  {
  }

  /** A frame taken at latitude zero is recorded without detections and without its quality. */
  lemma ZeroLatitudeRecord(s: Settings, time: int, image: Image, pose: Pose, height: real, quality: real,
                           scene: Scene, toGlobal: Option<Locator>)
    requires quality >= s.threshold && pose.lat == 0.0
    ensures var (rec, raised) := Recorded(s, time, image, pose, height, quality, scene, toGlobal);
            && rec == Frame(time, Some(pose), Some(image), Some(height), None, [], None)
            && !raised
  {
  }

  /**
   * Without a pixel-to-world converter, a frame that passes the quality and
   * latitude guards stores its detections as found, without shape or
   * position, and no annotated image, and the routine raises.
   */
  lemma NoConverterRecord(s: Settings, time: int, image: Image, pose: Pose, height: real, quality: real,
                          scene: Scene)
    requires quality >= s.threshold && pose.lat != 0.0
    ensures var (rec, raised) := Recorded(s, time, image, pose, height, quality, scene, None);
            && raised
            && rec.foundObjs == DetectedAll(s.colors, scene.contours, s.minDiagonal)
            && (forall k :: 0 <= k < |rec.foundObjs| ==> rec.foundObjs[k].shape.None? && rec.foundObjs[k].latLon.None?)
            && rec.computedImage.None?
            && rec.pose == Some(pose) && rec.height == Some(height) && rec.quality.None?
  {
    DetectedAllBare(s.colors, scene.contours, s.minDiagonal);
  }

  /**
   * When every position can be computed, the record holds every detection
   * of every colour mask, in order, each with its shape and position, and
   * the image annotated with one mark per detection.
   */
  lemma CompleteRecord(s: Settings, time: int, image: Image, pose: Pose, height: real, quality: real,
                       scene: Scene, locate: Locator)
    requires quality >= s.threshold && pose.lat != 0.0
    requires forall o :: locate(o).Some?
    ensures var (rec, raised) := Recorded(s, time, image, pose, height, quality, scene, Some(locate));
            var objs := DetectedAll(s.colors, scene.contours, s.minDiagonal);
            && !raised && rec.quality.None?
            && |rec.foundObjs| == |objs|
            && (forall j :: 0 <= j < |objs| ==>
                  rec.foundObjs[j] == objs[j].(shape := ShapeOf(scene.view(objs[j].box), s.minDiagonalShape),
                                               latLon := locate(Shaped(objs[j], scene.view, s.minDiagonalShape)))
                  && rec.foundObjs[j].latLon.Some?)
            && rec.computedImage == Some(Annotated(image, MarksOf(objs)))
  {
    var objs := DetectedAll(s.colors, scene.contours, s.minDiagonal);
    var md := s.minDiagonalShape;
    FirstUnlocatedIs(objs, scene.view, md, locate, |objs|);
  }

  /**
   * When a position raises, the record keeps the detections: those before the
   * failing one located, the failing one with its shape only, and no
   * annotated image.
   */
  lemma FailedRecord(s: Settings, time: int, image: Image, pose: Pose, height: real, quality: real,
                     scene: Scene, locate: Locator, k: nat)
    requires quality >= s.threshold && pose.lat != 0.0
    requires var objs := DetectedAll(s.colors, scene.contours, s.minDiagonal);
             k < |objs| && locate(Shaped(objs[k], scene.view, s.minDiagonalShape)).None?
             && forall j :: 0 <= j < k ==> locate(Shaped(objs[j], scene.view, s.minDiagonalShape)).Some?
    ensures var (rec, raised) := Recorded(s, time, image, pose, height, quality, scene, Some(locate));
            var objs := DetectedAll(s.colors, scene.contours, s.minDiagonal);
            && raised && rec.computedImage.None? && |rec.foundObjs| == |objs|
            && (forall j :: 0 <= j < k ==> rec.foundObjs[j].latLon.Some? && rec.foundObjs[j].shape == ShapeOf(scene.view(objs[j].box), s.minDiagonalShape))
            && rec.foundObjs[k] == objs[k].(shape := ShapeOf(scene.view(objs[k].box), s.minDiagonalShape))
            && (forall j :: k < j < |objs| ==> rec.foundObjs[j] == objs[j])
  {
    var objs := DetectedAll(s.colors, scene.contours, s.minDiagonal);
    FirstUnlocatedIs(objs, scene.view, s.minDiagonalShape, locate, k);
  }
}
