/** Layout geometry of QRPlatbaSVGImage: the canvas, the thin frame around the
    QR code with a gap in its bottom line, the "QR platba" caption placed in
    that gap, and one filled square per dark module. Path data is kept as
    structured commands with exact real operands; the XML elements become
    datatypes, and the decimal spelling of the numbers is not modelled. */
module Svg {

  /** SCALE: the side of one QR module, in px. */
  const Scale: real := 5.0
  const Units: string := "px"
  /** Font size of the caption per unit of SCALE, so that the caption spans 16 modules. */
  const FontSizeFactor: real := 3.443101883
  /** Room left below the caption, per unit of SCALE. */
  const CaptionDescent: real := 0.679
  const Caption: string := "QR platba"

  datatype Point = Point(x: real, y: real)

  /** One command of SVG path data. */
  datatype PathCommand =
    | MoveTo(x: real, y: real)     // M x y
    | LineTo(x: real, y: real)     // L x y
    | HorizontalBy(dx: real)       // h dx
    | VerticalBy(dy: real)         // v dy
    | ClosePath                    // z

  type Subpath = seq<PathCommand>

  /** An axis-aligned rectangle given by its edges; y grows downwards, as in SVG. */
  datatype Rect = Rect(left: real, top: real, right: real, bottom: real)

  datatype Element =
    | PathElement(id: string, subpaths: seq<Subpath>)
    | TextElement(id: string, x: real, y: real, fontSize: real, text: string)

  /** The <svg> root: its width and height in Units, its viewBox and its children. */
  datatype SvgRoot = SvgRoot(width: real, height: real, units: string, viewBox: seq<real>, children: seq<Element>)

  // ------------------------------------------------------------ path geometry

  /** Where the pen is after one command; start is the point of the last M. */
  function Step(start: Point, pen: Point, c: PathCommand): Point
  {
    match c
    case MoveTo(x, y) => Point(x, y)
    case LineTo(x, y) => Point(x, y)
    case HorizontalBy(dx) => Point(pen.x + dx, pen.y)
    case VerticalBy(dy) => Point(pen.x, pen.y + dy)
    case ClosePath => start
  }

  /** The points the pen reaches, command by command; z goes back to the
      start of the subpath without adding a point. */
  function Visits(start: Point, pen: Point, cmds: seq<PathCommand>): seq<Point>
    decreases |cmds|
  {
    if cmds == [] then []
    else
      var next := Step(start, pen, cmds[0]);
      var start' := if cmds[0].MoveTo? then next else start;
      (if cmds[0].ClosePath? then [] else [next]) + Visits(start', next, cmds[1..])
  }

  function Vertices(sub: Subpath): seq<Point>
  {
    Visits(Point(0.0, 0.0), Point(0.0, 0.0), sub)
  }

  /** sub is one closed outline: a move to the top-left corner of r, three
      drawing commands visiting the other corners in one direction or the
      other, and a close. */
  predicate Outlines(sub: Subpath, r: Rect)
  {
    var tl, tr, br, bl := Point(r.left, r.top), Point(r.right, r.top), Point(r.right, r.bottom), Point(r.left, r.bottom);
    |sub| == 5 && sub[0].MoveTo? && sub[4] == ClosePath &&
    (forall k | 1 <= k < 4 :: !sub[k].MoveTo? && !sub[k].ClosePath?) &&
    (Vertices(sub) == [tl, tr, br, bl] || Vertices(sub) == [tl, bl, br, tr])
  }

  /** The interiors of a and b have a point in common. */
  predicate InteriorsMeet(a: Rect, b: Rect)
  {
    a.left < b.right && b.left < a.right && a.top < b.bottom && b.top < a.bottom
  }

  /** 'M {x0} {y0} h {length} v {width} h -{length} z' */
  function HorizontalLine(x0: real, y0: real, length: real, width: real): Subpath
  {
    [MoveTo(x0, y0), HorizontalBy(length), VerticalBy(width), HorizontalBy(-length), ClosePath]
  }

  /** 'M {x0} {y0} v {length} h {width} v -{length} z' */
  function VerticalLine(x0: real, y0: real, length: real, width: real): Subpath
  {
    [MoveTo(x0, y0), VerticalBy(length), HorizontalBy(width), VerticalBy(-length), ClosePath]
  }

  /** 'M {x0} {y0} L {x0} {y1} L {x1} {y1} L {x1} {y0} z' */
  function Square(x0: real, y0: real, x1: real, y1: real): Subpath
  {
    [MoveTo(x0, y0), LineTo(x0, y1), LineTo(x1, y1), LineTo(x1, y0), ClosePath]
  }

  lemma HorizontalLineOutline(x0: real, y0: real, length: real, width: real)
    ensures Outlines(HorizontalLine(x0, y0, length, width), Rect(x0, y0, x0 + length, y0 + width))
  {
    var sub := HorizontalLine(x0, y0, length, width);
    var o := Point(0.0, 0.0);
    var p0, p1, p2, p3 := Point(x0, y0), Point(x0 + length, y0), Point(x0 + length, y0 + width), Point(x0, y0 + width);
    assert Visits(p0, p3, sub[4..]) == [] by { assert sub[4..][1..] == []; }
    assert Visits(p0, p2, sub[3..]) == [p3] by { assert sub[3..][1..] == sub[4..]; }
    assert Visits(p0, p1, sub[2..]) == [p2, p3] by { assert sub[2..][1..] == sub[3..]; }
    assert Visits(p0, p0, sub[1..]) == [p1, p2, p3] by { assert sub[1..][1..] == sub[2..]; }
    assert Visits(o, o, sub) == [p0, p1, p2, p3];
  }

  lemma VerticalLineOutline(x0: real, y0: real, length: real, width: real)
    ensures Outlines(VerticalLine(x0, y0, length, width), Rect(x0, y0, x0 + width, y0 + length))
  {
    var sub := VerticalLine(x0, y0, length, width);
    var o := Point(0.0, 0.0);
    var p0, p1, p2, p3 := Point(x0, y0), Point(x0, y0 + length), Point(x0 + width, y0 + length), Point(x0 + width, y0);
    assert Visits(p0, p3, sub[4..]) == [] by { assert sub[4..][1..] == []; }
    assert Visits(p0, p2, sub[3..]) == [p3] by { assert sub[3..][1..] == sub[4..]; }
    assert Visits(p0, p1, sub[2..]) == [p2, p3] by { assert sub[2..][1..] == sub[3..]; }
    assert Visits(p0, p0, sub[1..]) == [p1, p2, p3] by { assert sub[1..][1..] == sub[2..]; }
    assert Visits(o, o, sub) == [p0, p1, p2, p3];
  }

  lemma SquareOutline(x0: real, y0: real, x1: real, y1: real)
    ensures Outlines(Square(x0, y0, x1, y1), Rect(x0, y0, x1, y1))
  {
    var sub := Square(x0, y0, x1, y1);
    var o := Point(0.0, 0.0);
    var p0, p1, p2, p3 := Point(x0, y0), Point(x0, y1), Point(x1, y1), Point(x1, y0);
    assert Visits(p0, p3, sub[4..]) == [] by { assert sub[4..][1..] == []; }
    assert Visits(p0, p2, sub[3..]) == [p3] by { assert sub[3..][1..] == sub[4..]; }
    assert Visits(p0, p1, sub[2..]) == [p2, p3] by { assert sub[2..][1..] == sub[3..]; }
    assert Visits(p0, p0, sub[1..]) == [p1, p2, p3] by { assert sub[1..][1..] == sub[2..]; }
    assert Visits(o, o, sub) == [p0, p1, p2, p3];
  }

  // ------------------------------------------------------------ the image

  class QRPlatbaSvgImage {
    /** _points: the dark modules reported by drawrect, as (col, row). */
    var points: set<(int, int)>
    /** _img: the root element created when the image is constructed. */
    var img: SvgRoot

    const outsideBorder: int
    const insideBorder: int
    const lineSize: real
    const fontHeight: real
    /** The number of modules per side of the QR code. */
    const width: int
    /** Recorded, but the geometry uses Scale only. */
    const boxSize: int
    /** Modules between the canvas edge and the code: inside plus outside border. */
    const border: int

    /** What the constructor establishes about the geometry fields. */
    predicate Valid()
    {
      insideBorder == 4 && lineSize == Scale / 5.0 && fontHeight == 2.5 * Scale &&
      border == insideBorder + outsideBorder
    }

    /** __init__: the geometry fields, then the base class's fields and root
        element; border is finally overwritten with inside plus outside. */
    constructor (border: int, width: int, boxSize: int)
      ensures Valid()
      ensures outsideBorder == border && this.width == width && this.boxSize == boxSize
      ensures points == {}
      ensures img == SvgRoot(Dimension(), Height(), Units, [0.0, 0.0, Dimension(), Height()], [])
    {
      points := {};
      outsideBorder := border;
      insideBorder := 4;
      lineSize := Scale / 5.0;
      fontHeight := 2.5 * Scale;
      this.width := width;
      this.boxSize := boxSize;
      this.border := 4 + border;
      new;
      img := Root();
    }

    /** drawrect(row, col): records the transposed pair; nothing else changes. */
    method DrawRect(row: int, col: int)
      modifies this`points
      ensures points == old(points) + {(col, row)}
      ensures (col, row) in old(points) ==> points == old(points)
    {
      points := points + {(col, row)};
    }

    // ---------------------------------------------------------- _svg

    /** The side of the square frame area: both borders on each side, the
        modules and the two frame lines. */
    function Dimension(): real
    {
      2.0 * (outsideBorder + insideBorder) as real * Scale + width as real * Scale + 2.0 * lineSize
    }

    /** The canvas is taller than wide, to make room for the caption. */
    function Height(): real
    {
      Dimension() + fontHeight + CaptionDescent * Scale
    }

    /** _svg: the root element, viewBox "0 0 W H" with the same magnitudes. */
    function Root(): (root: SvgRoot)
      ensures root.viewBox == [0.0, 0.0, root.width, root.height] && root.children == []
      ensures root.width == Dimension() && root.height == Height() && root.units == Units
    {
      var dimension := Dimension();
      var height := dimension + fontHeight + CaptionDescent * Scale;
      SvgRoot(dimension, height, Units, [0.0, 0.0, dimension, height], [])
    }

    // ---------------------------------------------------------- the frame, as it is meant to be

    /** Outer edges of the frame: outside·SCALE from the left, top and right
        edges of the canvas; its lower edge lies below the modules. */
    function FrameLeft(): real { outsideBorder as real * Scale }
    function FrameTop(): real { outsideBorder as real * Scale }
    function FrameRight(): real { Dimension() - outsideBorder as real * Scale }
    function FrameBottom(): real
    {
      FrameTop() + 2.0 * lineSize + 2.0 * insideBorder as real * Scale + width as real * Scale
    }

    function TopLine(): Rect { Rect(FrameLeft(), FrameTop(), FrameRight(), FrameTop() + lineSize) }
    /** The bottom line, left of the caption gap: two modules long. */
    function BottomLineLeft(): Rect
    {
      Rect(FrameLeft(), FrameBottom() - lineSize, FrameLeft() + 2.0 * Scale, FrameBottom())
    }
    /** The bottom line, right of the caption gap, up to the right edge of the frame. */
    function BottomLineRight(): Rect
    {
      Rect(FrameLeft() + 22.0 * Scale, FrameBottom() - lineSize, FrameRight(), FrameBottom())
    }
    /** The side lines run from the top line's lower edge to the bottom line's upper edge. */
    function LeftLine(): Rect
    {
      Rect(FrameLeft(), FrameTop() + lineSize, FrameLeft() + lineSize, FrameBottom() - lineSize)
    }
    function RightLine(): Rect
    {
      Rect(FrameRight() - lineSize, FrameTop() + lineSize, FrameRight(), FrameBottom() - lineSize)
    }

    // ---------------------------------------------------------- make_border

    /** make_border: five closed outlines, appended one after the other, that
        trace the top line, the two pieces of the bottom line and the two
        side lines of the frame. */
    method MakeBorder() returns (e: Element)
      requires Valid()
      ensures e.PathElement? && e.id == "qrplatba-border" && |e.subpaths| == 5
      ensures Outlines(e.subpaths[0], TopLine())
      ensures Outlines(e.subpaths[1], BottomLineLeft())
      ensures Outlines(e.subpaths[2], BottomLineRight())
      ensures Outlines(e.subpaths[3], LeftLine())
      ensures Outlines(e.subpaths[4], RightLine())
    {
      var scaledInside := insideBorder as real * Scale;
      var scaledOutside := outsideBorder as real * Scale;
      var scaledWidth := width as real * Scale;

      var subpaths: seq<Subpath> := [];
      // top line
      var top := HorizontalLine(scaledOutside, scaledOutside, scaledInside * 2.0 + scaledWidth + 2.0 * lineSize, lineSize);
      HorizontalLineOutline(scaledOutside, scaledOutside, scaledInside * 2.0 + scaledWidth + 2.0 * lineSize, lineSize);
      subpaths := subpaths + [top];
      // bottom line, first segment
      var bottomY := scaledOutside + lineSize + 2.0 * scaledInside + scaledWidth;
      var first := HorizontalLine(scaledOutside, bottomY, Scale * 2.0, lineSize);
      HorizontalLineOutline(scaledOutside, bottomY, Scale * 2.0, lineSize);
      subpaths := subpaths + [first];
      // bottom line, second segment (22 = 2 + 2 + 16 + 2)
      var secondLength := scaledWidth + 2.0 * scaledInside + 2.0 * lineSize - 22.0 * Scale;
      var second := HorizontalLine(scaledOutside + 22.0 * Scale, bottomY, secondLength, lineSize);
      HorizontalLineOutline(scaledOutside + 22.0 * Scale, bottomY, secondLength, lineSize);
      subpaths := subpaths + [second];
      // left line
      var left := VerticalLine(scaledOutside, scaledOutside + lineSize, scaledWidth + 2.0 * scaledInside, lineSize);
      VerticalLineOutline(scaledOutside, scaledOutside + lineSize, scaledWidth + 2.0 * scaledInside, lineSize);
      subpaths := subpaths + [left];
      // right line
      var rightX := scaledOutside + lineSize + 2.0 * scaledInside + scaledWidth;
      var right := VerticalLine(rightX, scaledOutside + lineSize, scaledWidth + 2.0 * scaledInside, lineSize);
      VerticalLineOutline(rightX, scaledOutside + lineSize, scaledWidth + 2.0 * scaledInside, lineSize);
      subpaths := subpaths + [right];

      e := PathElement("qrplatba-border", subpaths);
    }

    // ---------------------------------------------------------- make_text

    function TextX(): real
    {
      outsideBorder as real * Scale + lineSize + 4.0 * Scale
    }

    function TextY(): real
    {
      outsideBorder as real * Scale + 2.0 * lineSize + 2.0 * insideBorder as real * Scale
        + width as real * Scale + fontHeight
    }

    /** make_text: the caption element at (TextX, TextY). */
    function MakeText(): (e: Element)
      ensures e.TextElement? && e.id == "qrplatba-text" && e.text == Caption
      ensures e.x == TextX() && e.y == TextY() && e.fontSize == FontSizeFactor * Scale
    {
      TextElement("qrplatba-text", TextX(), TextY(), FontSizeFactor * Scale, Caption)
    }

    // ---------------------------------------------------------- _generate_subpaths, make_path

    /** The square a module covers: side Scale, its corner (col + border)·SCALE
        + line_size across and (row + border)·SCALE + line_size down. */
    function ModuleRect(p: (int, int)): Rect
    {
      var x := p.0 as real * Scale + border as real * Scale + lineSize;
      var y := p.1 as real * Scale + border as real * Scale + lineSize;
      Rect(x, y, x + Scale, y + Scale)
    }

    /** The subpath _generate_subpaths yields for a module. */
    function ModulePath(p: (int, int)): Subpath
    {
      var r := ModuleRect(p);
      Square(r.left, r.top, r.right, r.bottom)
    }

    /** _generate_subpaths: one subpath per recorded module, each the outline
        of that module's square; the set is visited in an unspecified order. */
    method GenerateSubpaths() returns (subpaths: seq<Subpath>)
      ensures |subpaths| == |points|
      ensures forall p | p in points :: ModulePath(p) in subpaths
      ensures forall k | 0 <= k < |subpaths| :: exists p | p in points :: subpaths[k] == ModulePath(p)
    {
      subpaths := [];
      var remaining := points;
      ghost var visited: seq<(int, int)> := [];
      while remaining != {}
        invariant remaining <= points
        invariant |visited| == |subpaths| == |points| - |remaining|
        invariant forall k | 0 <= k < |visited| :: visited[k] in points - remaining && subpaths[k] == ModulePath(visited[k])
        invariant forall p | p in points - remaining :: p in visited
        decreases |remaining|
      {
        var p :| p in remaining;
        subpaths := subpaths + [ModulePath(p)];
        visited := visited + [p];
        remaining := remaining - {p};
      }
      forall p | p in points ensures ModulePath(p) in subpaths {
        assert p in visited;
        var k :| 0 <= k < |visited| && visited[k] == p;
        assert subpaths[k] == ModulePath(p);
      }
    }

    /** make_path: the element of all module squares. */
    method MakePath() returns (e: Element)
      ensures e.PathElement? && e.id == "qr-path" && |e.subpaths| == |points|
      ensures forall p | p in points :: ModulePath(p) in e.subpaths
      ensures forall k | 0 <= k < |e.subpaths| :: exists p | p in points :: e.subpaths[k] == ModulePath(p)
    {
      var subpaths := GenerateSubpaths();
      e := PathElement("qr-path", subpaths);
    }

    // ---------------------------------------------------------- _write

    /** _write: appends the module path, the frame and the caption to the
        root, in this order (serialising the document is not modelled). */
    method Write()
      requires Valid()
      modifies this`img
      ensures img.width == old(img.width) && img.height == old(img.height)
      ensures img.units == old(img.units) && img.viewBox == old(img.viewBox)
      ensures |img.children| == |old(img.children)| + 3 && img.children[..|old(img.children)|] == old(img.children)
      ensures var path := img.children[|old(img.children)|];
              path.PathElement? && path.id == "qr-path" && |path.subpaths| == |points| &&
              (forall p | p in points :: ModulePath(p) in path.subpaths) &&
              forall k | 0 <= k < |path.subpaths| :: exists p | p in points :: path.subpaths[k] == ModulePath(p)
      ensures var frame := img.children[|old(img.children)| + 1];
              frame.PathElement? && frame.id == "qrplatba-border" && |frame.subpaths| == 5 &&
              Outlines(frame.subpaths[0], TopLine()) && Outlines(frame.subpaths[1], BottomLineLeft()) &&
              Outlines(frame.subpaths[2], BottomLineRight()) && Outlines(frame.subpaths[3], LeftLine()) &&
              Outlines(frame.subpaths[4], RightLine())
      ensures img.children[|old(img.children)| + 2] == MakeText()
    {
      var path := MakePath();
      img := img.(children := img.children + [path]);
      var frame := MakeBorder();
      img := img.(children := img.children + [frame]);
      img := img.(children := img.children + [MakeText()]);
    }
  }

  // ------------------------------------------------------------ layout properties

  /** The frame is centred across the canvas: outside·SCALE of margin on
      either side, and the top line spans the whole frame width. */
  lemma FrameMargins(img: QRPlatbaSvgImage)
    requires img.Valid()
    ensures img.FrameRight() - img.FrameLeft()
         == 2.0 * img.lineSize + 2.0 * img.insideBorder as real * Scale + img.width as real * Scale
    ensures img.Dimension() - img.FrameRight() == img.FrameLeft()
    ensures img.FrameBottom() - img.FrameTop() == img.FrameRight() - img.FrameLeft()
  {
  }

  /** The frame closes: the pieces meet edge to edge at every corner. */
  lemma FrameCloses(img: QRPlatbaSvgImage)
    requires img.Valid()
    ensures img.TopLine().left == img.LeftLine().left == img.BottomLineLeft().left
    ensures img.TopLine().right == img.RightLine().right == img.BottomLineRight().right
    ensures img.LeftLine().top == img.RightLine().top == img.TopLine().bottom
    ensures img.LeftLine().bottom == img.RightLine().bottom == img.BottomLineLeft().top == img.BottomLineRight().top
    ensures img.BottomLineLeft().bottom == img.BottomLineRight().bottom == img.FrameBottom()
  {
  }

  /** The bottom line leaves a gap of exactly 20 modules for the caption; the
      piece right of the gap has positive length exactly when the code is at
      least 14 modules wide (a QR code has at least 21). */
  lemma BottomGap(img: QRPlatbaSvgImage)
    requires img.Valid()
    ensures img.BottomLineRight().left - img.BottomLineLeft().right == 20.0 * Scale
    ensures img.BottomLineRight().left < img.BottomLineRight().right <==> img.width >= 14
  {
  }

  /** Every module of the code lies inside the frame, at least inside·SCALE
      away from each line, and exactly that far from the line it is next to
      in the first and last row and column. */
  lemma ModuleClearance(img: QRPlatbaSvgImage, col: int, row: int)
    requires img.Valid() && 0 <= col < img.width && 0 <= row < img.width
    ensures var m, clear := img.ModuleRect((col, row)), img.insideBorder as real * Scale;
            m.left - img.LeftLine().right == (col + img.insideBorder) as real * Scale &&
            img.RightLine().left - m.right == (img.width - 1 - col + img.insideBorder) as real * Scale &&
            m.top - img.TopLine().bottom == (row + img.insideBorder) as real * Scale &&
            img.BottomLineLeft().top - m.bottom == (img.width - 1 - row + img.insideBorder) as real * Scale &&
            m.left - img.LeftLine().right >= clear && img.RightLine().left - m.right >= clear &&
            m.top - img.TopLine().bottom >= clear && img.BottomLineLeft().top - m.bottom >= clear
  {
  }

  /** Squares of different modules never overlap. */
  lemma ModulesDisjoint(img: QRPlatbaSvgImage, p: (int, int), q: (int, int))
    requires p != q
    ensures !InteriorsMeet(img.ModuleRect(p), img.ModuleRect(q))
  {
    var a, b := img.ModuleRect(p), img.ModuleRect(q);
    if p.0 != q.0 {
      assert p.0 < q.0 ==> a.right <= b.left;
      assert q.0 < p.0 ==> b.right <= a.left;
    } else {
      assert p.1 < q.1 ==> a.bottom <= b.top;
      assert q.1 < p.1 ==> b.bottom <= a.top;
    }
  }

  /** The caption starts strictly inside the gap of the bottom line; its
      baseline is font_height below the frame and (outside + 0.679)·SCALE
      above the lower edge of the canvas. */
  lemma CaptionPlacement(img: QRPlatbaSvgImage)
    requires img.Valid()
    ensures img.BottomLineLeft().right < img.TextX() < img.BottomLineRight().left
    ensures img.TextY() == img.FrameBottom() + img.fontHeight
    ensures img.Height() - img.TextY() == (img.outsideBorder as real + CaptionDescent) * Scale
    ensures img.outsideBorder >= 0 ==> img.TextY() < img.Height()
  {
  }
}
