/** Frames and what is drawn on them. A frame is modelled by its captured pixels
    (an opaque identifier), its shape, and the ordered list of drawing calls
    made on it since capture; the pixels those calls produce are not modelled. */
module Canvas {

  datatype Point = Point(x: int, y: int)

  /** An OpenCV colour, in blue-green-red order. */
  datatype Bgr = Bgr(b: int, g: int, r: int)

  /** One OpenCV drawing call on a frame. A thickness of -1 means filled. */
  datatype Mark =
    | Rectangle(corner1: Point, corner2: Point, color: Bgr, thickness: int)
    | Text(text: string, origin: Point, color: Bgr)
    | Circle(center: Point, radius: int, color: Bgr, thickness: int)

  /** A frame as a value: numpy's shape[1] is width and shape[0] is height. */
  datatype Picture = Picture(pixels: int, width: int, height: int, marks: seq<Mark>)
  {
    function Draw(m: Mark): (p: Picture)
      ensures p.pixels == pixels && p.width == width && p.height == height
      ensures p.marks == marks + [m]
    {
      this.(marks := marks + [m])
    }
  }

  predicate IsCircle(m: Mark) { m.Circle? }

  /** No circle has been drawn on the picture. */
  predicate NoCircle(p: Picture)
  {
    forall k :: 0 <= k < |p.marks| ==> !IsCircle(p.marks[k])
  }

  /** A frame buffer that drawing calls change in place. */
  class Image {
    const pixels: int
    const width: int
    const height: int
    var marks: seq<Mark>

    function Value(): Picture
      reads this
    {
      Picture(pixels, width, height, marks)
    }

    constructor (p: Picture)
      ensures Value() == p
    {
      pixels, width, height, marks := p.pixels, p.width, p.height, p.marks;
    }

    /** numpy's frame.copy(): a new buffer with the same content. */
    method Copy() returns (c: Image)
      ensures fresh(c) && c.Value() == Value()
    {
      c := new Image(Value());
    }

    method Draw(m: Mark)
      modifies this
      ensures Value() == old(Value()).Draw(m)
    {
      marks := marks + [m];
    }
  }
}
