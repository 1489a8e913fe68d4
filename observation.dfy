/**
 * The records the image analysis produces and the journal stores: detected
 * objects, the polygons OpenCV hands back, and per-frame records.
 */
module Observation {
  import opened Wrappers

  datatype Vertex = Vertex(x: int, y: int)

  /** cv2.boundingRect of a polygon: top-left corner, width and height. */
  datatype Rect = Rect(x: int, y: int, w: nat, h: nat)

  /** A contour after approxPolyDP: its vertices and its bounding rectangle. */
  datatype Polygon = Polygon(vertices: seq<Vertex>, box: Rect)

  /** The "bound_box" entry of a detection. */
  datatype BoundBox = BoundBox(xStart: int, xStop: int, yStart: int, yStop: int)

  /** One square of a code marker: its rectangle and d = w*w + h*h. */
  datatype CodeElement = CodeElement(x: int, y: int, w: nat, h: nat, d: nat)

  datatype LatLon = LatLon(lat: real, lon: real)

  /**
   * A detected object.  The optional fields are the keys that are added
   * after detection: "shape" (None stands for a missing key or False),
   * "lat_lon", "code", "time", and "id".
   */
  datatype Detection = Detection(
    color: string,
    box: BoundBox,
    contour: seq<Vertex>,
    xCenter: int,
    yCenter: int,
    shape: Option<string>,
    latLon: Option<LatLon>,
    code: Option<seq<CodeElement>>,
    time: Option<int>,
    id: Option<int>)

  /** The truthiness of `obj.get("shape", False)`. */
  predicate HasShape(o: Detection) {
    o.shape.Some? && o.shape.value != ""
  }

  /** Latitude, longitude, altitude and the three rotation angles. */
  datatype Pose = Pose(lat: real, lon: real, alt: real, roll: real, pitch: real, yaw: real)

  /** A centre dot and a rectangle drawn onto an image. */
  datatype Mark = Mark(xCenter: int, yCenter: int, box: BoundBox)

  /** A camera frame, or a frame with marks drawn onto it. */
  datatype Image = Photo(pixels: seq<int>) | Annotated(base: Image, marks: seq<Mark>)

  /** One journal record: a frame's time, what was added to it, and the objects found in it. */
  datatype Frame = Frame(
    time: int,
    pose: Option<Pose>,
    rawImage: Option<Image>,
    height: Option<real>,
    quality: Option<real>,
    foundObjs: seq<Detection>,
    computedImage: Option<Image>)

  /** A record as it stands when it is handed out by the journal. */
  function EmptyFrame(time: int): Frame {
    Frame(time, None, None, None, None, [], None)
  }
}
