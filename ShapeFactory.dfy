/** The shape factory: an integer code whose tens digit picks an outline and
    whose units digit picks a stroke and a paint. Codes outside the table are
    rejected with one of two errors, the outline being checked first.

    Only the integer and structural content of the shapes is modelled: a star
    vertex is recorded by its index and radius, a triangle vertex by its
    x-coordinate and the sign of its y-coordinate. */
module ShapeFactory {
  import opened Wrappers
  import JavaArith

  /** Every shape is 25 units wide and 25 high. */
  const DefaultWidth: int := 25
  const DefaultHeight: int := 25

  /** An AWT colour by its red, green and blue components. */
  datatype Color = Color(red: int, green: int, blue: int)

  const White: Color := Color(255, 255, 255)
  const Gray: Color := Color(128, 128, 128)
  const Red: Color := Color(255, 0, 0)

  /** The paint of a factory; `NoPaint` is the null reference the field holds
      when the style never assigns it. */
  datatype Paint =
    | NoPaint
    | Solid(color: Color)
    | Gradient(x1: real, y1: real, color1: Color, x2: real, y2: real, color2: Color, cyclic: bool)

  /** A basic stroke, described by its line width. */
  datatype Stroke = Stroke(width: real)

  /** The stroke every factory starts with, 3.0 wide. */
  const DefaultStroke: Stroke := Stroke(3.0)

  /** A path vertex. A star vertex sits at angle `index * pi / arms` and at
      distance `radius` from the origin; a triangle vertex has the integer
      x-coordinate `x` and the y-coordinate `ySign * sqrt(2) / 2 * height`. */
  datatype Vertex =
    | StarPoint(index: nat, radius: real)
    | TrianglePoint(x: int, ySign: int)

  datatype PathCmd = MoveTo(v: Vertex) | LineTo(v: Vertex) | Close

  /** The closure kinds of an AWT arc. */
  datatype ArcClosure = Open | Chord | Pie

  datatype Shape =
    | Path(cmds: seq<PathCmd>)
    | Rectangle(x: real, y: real, w: real, h: real)
    | Arc(x: real, y: real, w: real, h: real, start: real, extent: real, closure: ArcClosure)

  /** The state of a constructed factory; the getters read these fields. */
  datatype ShapeFactory = ShapeFactory(shape: Shape, stroke: Stroke, paint: Paint, width: int, height: int)

  /** The two ways construction fails, each an IllegalArgumentException. */
  datatype DecodeError = UnsupportedShape | UnsupportedStyle {
    function Message(): string {
      match this
      case UnsupportedShape => "Shape type is unsupported."
      case UnsupportedStyle => "Unsupported stroke/paint type."
    }
  }

  // ---------------------------------------------------------------------
  // Stars

  /** Vertex `i` of a star: even indices lie on the outer radius, odd ones on
      the inner radius. */
  function StarVertex(i: nat, rOuter: real, rInner: real): Vertex {
    StarPoint(i, if i % 2 == 0 then rOuter else rInner)
  }

  /** The path command that adds vertex `i`: the first one moves, the others draw. */
  function StarCmd(i: nat, rOuter: real, rInner: real): PathCmd {
    if i == 0 then MoveTo(StarVertex(i, rOuter, rInner)) else LineTo(StarVertex(i, rOuter, rInner))
  }

  /** The commands for vertices `0 .. n-1`. */
  function StarPrefix(n: nat, rOuter: real, rInner: real): seq<PathCmd> {
    if n == 0 then [] else StarPrefix(n - 1, rOuter, rInner) + [StarCmd(n - 1, rOuter, rInner)]
  }

  /** The star outline with `arms` arms: `2 * arms` vertices, then the close. */
  function StarPath(arms: int, rOuter: real, rInner: real): seq<PathCmd>
    requires arms >= 1
  {
    StarPrefix(2 * arms, rOuter, rInner) + [Close]
  }

  lemma {:induction false} StarPrefixAt(n: nat, k: nat, rOuter: real, rInner: real)
    requires k < n
    ensures |StarPrefix(n, rOuter, rInner)| == n
    ensures StarPrefix(n, rOuter, rInner)[k] == StarCmd(k, rOuter, rInner)
  {
    if k < n - 1 {
      StarPrefixAt(n - 1, k, rOuter, rInner);
    } else if n > 1 {
      StarPrefixAt(n - 1, 0, rOuter, rInner);
    }
  }

  /** A star path has `2 * arms` vertices and then closes; vertex 0 is a move,
      the others are lines, and radii alternate outer, inner, outer, ... */
  lemma StarPathShape(arms: int, rOuter: real, rInner: real)
    requires arms >= 1
    ensures var p := StarPath(arms, rOuter, rInner);
      && |p| == 2 * arms + 1
      && p[0] == MoveTo(StarPoint(0, rOuter))
      && (forall k :: 0 < k < 2 * arms ==> p[k] == LineTo(StarPoint(k, if k % 2 == 0 then rOuter else rInner)))
      && p[2 * arms] == Close
  {
    var p := StarPath(arms, rOuter, rInner);
    StarPrefixAt(2 * arms, 0, rOuter, rInner);
    forall k | 0 < k < 2 * arms
      ensures p[k] == LineTo(StarPoint(k, if k % 2 == 0 then rOuter else rInner))
    {
      StarPrefixAt(2 * arms, k, rOuter, rInner);
    }
  }

  /** createStar: appends one vertex per loop turn to a fresh path, then closes it.
      The centre is always the origin and is not a parameter here. */
  method CreateStar(arms: int, rOuter: real, rInner: real) returns (path: seq<PathCmd>)
    requires arms >= 1
    ensures path == StarPath(arms, rOuter, rInner)
  {
    path := [];
    var i := 0;
    while i < 2 * arms
      invariant 0 <= i <= 2 * arms
      invariant path == StarPrefix(i, rOuter, rInner)
    {
      var r := if i % 2 == 0 then rOuter else rInner;
      if i == 0 {
        path := path + [MoveTo(StarPoint(i, r))];
      } else {
        path := path + [LineTo(StarPoint(i, r))];
      }
      i := i + 1;
    }
    path := path + [Close];
  }

  // ---------------------------------------------------------------------
  // The other outlines

  /** createTriangle: the x-coordinates use Java's integer division of the
      width, the y-coordinates are plus or minus `sqrt(2) / 2 * height`. */
  function CreateTriangle(width: int): Shape {
    Path([ MoveTo(TrianglePoint(JavaArith.Quot(-width, 2), -1))
         , LineTo(TrianglePoint(0, -1))
         , LineTo(TrianglePoint(JavaArith.Quot(width, 2), 1))
         , Close ])
  }

  /** The triangle of a factory: x-coordinates -12, 0 and 12, symmetric about
      the origin (see JavaArith.QuotDiffersOnNegative for the -12). */
  lemma TriangleVertices()
    ensures CreateTriangle(DefaultWidth) == Path([ MoveTo(TrianglePoint(-12, -1))
                                                 , LineTo(TrianglePoint(0, -1))
                                                 , LineTo(TrianglePoint(12, 1))
                                                 , Close ])
  {
  }

  /** The outline picked by the tens part of the code, or None when the
      tens part is unsupported. */
  function Outline(tens: int): Option<Shape> {
    var w := DefaultWidth as real;
    var h := DefaultHeight as real;
    if tens == 1 then Some(Path(StarPath(3, w / 2.0, w / 2.0)))
    else if tens == 3 then Some(Path(StarPath(5, w / 2.0, w / 4.0)))
    else if tens == 5 then Some(Rectangle(-w / 2.0, -h / 2.0, w, h))
    else if tens == 7 then Some(CreateTriangle(DefaultWidth))
    else if tens == 9 then Some(Arc(-w / 2.0, -h / 2.0, w, h, 30.0, 300.0, Pie))
    else None
  }

  /** The stroke and paint picked by the units part of the code, starting from
      `stroke` and `paint`, or None when the units part is unsupported. */
  function Style(units: int, stroke: Stroke, paint: Paint): Option<(Stroke, Paint)> {
    var w := DefaultWidth as real;
    var h := DefaultHeight as real;
    if units == 1 then Some((Stroke(3.0), paint))
    else if units == 4 then Some((Stroke(7.0), paint))
    else if units == 7 then Some((stroke, Gradient(-w, -h, White, w, h, Gray, true)))
    else if units == 8 then Some((stroke, Solid(Red)))
    else None
  }

  /** Construction from a tens part and a units part: the outline is checked
      first, then the style, which starts from the default stroke and no paint. */
  function DecodeDigits(tens: int, units: int): Result<ShapeFactory, DecodeError> {
    match Outline(tens)
    case None => Failure(UnsupportedShape)
    case Some(shape) =>
      match Style(units, DefaultStroke, NoPaint)
      case None => Failure(UnsupportedStyle)
      case Some((stroke, paint)) => Success(ShapeFactory(shape, stroke, paint, DefaultWidth, DefaultHeight))
  }

  /** The result of `new ShapeFactory(code)`, split with Java's division. */
  function Decode(code: int): Result<ShapeFactory, DecodeError> {
    DecodeDigits(JavaArith.Quot(code, 10), JavaArith.Rem(code, 10))
  }

  /** The constructor: assigns the fields one after another, the stroke first
      to its default, and stops at the first unsupported part. */
  method New(code: int) returns (r: Result<ShapeFactory, DecodeError>)
    ensures r == Decode(code)
  {
    var width := DefaultWidth;
    var height := DefaultHeight;
    var stroke := DefaultStroke;
    var paint := NoPaint;
    var shape: Shape;

    var tens := JavaArith.Quot(code, 10);
    if tens == 1 {
      var p := CreateStar(3, width as real / 2.0, width as real / 2.0);
      shape := Path(p);
    } else if tens == 3 {
      var p := CreateStar(5, width as real / 2.0, width as real / 4.0);
      shape := Path(p);
    } else if tens == 5 {
      shape := Rectangle((-width) as real / 2.0, (-height) as real / 2.0, width as real, height as real);
    } else if tens == 7 {
      shape := CreateTriangle(width);
    } else if tens == 9 {
      shape := Arc((-width) as real / 2.0, (-height) as real / 2.0, width as real, height as real, 30.0, 300.0, Pie);
    } else {
      return Failure(UnsupportedShape);
    }

    var units := JavaArith.Rem(code, 10);
    if units == 1 {
      stroke := Stroke(3.0);
    } else if units == 4 {
      stroke := Stroke(7.0);
    } else if units == 7 {
      paint := Gradient((-width) as real, (-height) as real, White, width as real, height as real, Gray, true);
    } else if units == 8 {
      paint := Solid(Red);
    } else {
      return Failure(UnsupportedStyle);
    }
    r := Success(ShapeFactory(shape, stroke, paint, width, height));
  }

  // ---------------------------------------------------------------------
  // Properties of the decoder

  /** The twenty accepted codes. */
  const AcceptedCodes: set<int> :=
    { 11, 14, 17, 18, 31, 34, 37, 38, 51, 54, 57, 58, 71, 74, 77, 78, 91, 94, 97, 98 }

  /** Every accepted code, and so every code that constructs, lies between
      11 and 98. */
  lemma AcceptedCodesBounds()
    ensures forall c :: c in AcceptedCodes ==> 11 <= c <= 98
    ensures forall c :: Decode(c).Success? ==> 11 <= c <= 98
  {
    forall c | Decode(c).Success?
      ensures 11 <= c <= 98
    {
      AcceptedIffListed(c);
    }
  }

  predicate Increasing(s: seq<int>) {
    forall i :: 0 < i < |s| ==> s[i - 1] < s[i]
  }

  lemma {:induction false} IncreasingBelowLast(s: seq<int>, k: nat)
    requires Increasing(s) && k < |s| - 1
    ensures s[k] < s[|s| - 1]
    decreases |s| - 1 - k
  {
    if k < |s| - 2 {
      IncreasingBelowLast(s, k + 1);
    }
  }

  /** A strictly increasing sequence has as many distinct elements as entries. */
  lemma {:induction false} IncreasingSetSize(s: seq<int>)
    requires Increasing(s)
    ensures |set x | x in s| == |s|
  {
    if s != [] {
      var init, last := s[..|s| - 1], s[|s| - 1];
      assert Increasing(init);
      IncreasingSetSize(init);
      forall k | 0 <= k < |init| ensures init[k] < last {
        IncreasingBelowLast(s, k);
      }
      assert (set x | x in s) == (set x | x in init) + {last};
    }
  }

  /** The accepted codes in increasing order. */
  const AcceptedList: seq<int> :=
    [11, 14, 17, 18, 31, 34, 37, 38, 51, 54, 57, 58, 71, 74, 77, 78, 91, 94, 97, 98]

  lemma AcceptedListIncreasing()
    ensures Increasing(AcceptedList)
  {
  }

  lemma AcceptedListElements()
    ensures AcceptedCodes == set x | x in AcceptedList
  {
  }

  /** There are exactly twenty accepted codes. */
  lemma AcceptedCodesCount()
    ensures |AcceptedCodes| == 20
  {
    AcceptedListIncreasing();
    AcceptedListElements();
    IncreasingSetSize(AcceptedList);
  }

  /** Construction succeeds exactly when the tens part is 1, 3, 5, 7 or 9 and
      the units part is 1, 4, 7 or 8, under Java's division. */
  lemma AcceptedIffDigits(code: int)
    ensures Decode(code).Success? <==>
      JavaArith.Quot(code, 10) in {1, 3, 5, 7, 9} && JavaArith.Rem(code, 10) in {1, 4, 7, 8}
  {
  }

  /** Construction succeeds exactly on the twenty accepted codes. */
  lemma AcceptedIffListed(code: int)
    ensures Decode(code).Success? <==> code in AcceptedCodes
  {
    AcceptedIffDigits(code);
    var t, u := JavaArith.Quot(code, 10), JavaArith.Rem(code, 10);
    assert code == 10 * t + u;
  }

  /** Every negative code and every code from 100 up fails on its outline. */
  lemma OutOfRangeRejected(code: int)
    requires code < 0 || code >= 100
    ensures Decode(code) == Failure(UnsupportedShape)
  {
  }

  /** The outline check comes first: a bad tens part gives the shape error
      whatever the units part, and the style error arises only when the tens
      part is good. */
  lemma ErrorPrecedence(code: int)
    ensures JavaArith.Quot(code, 10) !in {1, 3, 5, 7, 9} ==> Decode(code) == Failure(UnsupportedShape)
    ensures Decode(code) == Failure(UnsupportedStyle) <==>
      JavaArith.Quot(code, 10) in {1, 3, 5, 7, 9} && JavaArith.Rem(code, 10) !in {1, 4, 7, 8}
  {
  }

  /** Java's truncating division and Dafny's Euclidean division decode every
      code alike, because they differ only on negative codes, which both reject. */
  lemma DivisionSemanticsAgree(code: int)
    ensures DecodeDigits(code / 10, code % 10) == Decode(code)
  {
    if code >= 0 {
      JavaArith.QuotRemNonNegative(code, 10);
    }
  }

  /** Width and height are 25 whatever the code. */
  lemma DimensionsFixed(code: int)
    requires Decode(code).Success?
    ensures Decode(code).value.width == 25 && Decode(code).value.height == 25
  {
  }

  /** The stroke is 7.0 wide for units part 4 and 3.0 wide otherwise. */
  lemma StrokeByUnits(code: int)
    requires Decode(code).Success?
    ensures Decode(code).value.stroke.width == if JavaArith.Rem(code, 10) == 4 then 7.0 else 3.0
  {
  }

  /** The paint: solid red for units part 8, a cyclic white-to-gray gradient
      from (-25,-25) to (25,25) for 7, and none for 1 and 4. */
  lemma PaintByUnits(code: int)
    requires Decode(code).Success?
    ensures var units, paint := JavaArith.Rem(code, 10), Decode(code).value.paint;
      && (units == 8 <==> paint == Solid(Color(255, 0, 0)))
      && (units == 7 <==> paint == Gradient(-25.0, -25.0, Color(255, 255, 255), 25.0, 25.0, Color(128, 128, 128), true))
      && (units in {1, 4} <==> paint == NoPaint)
  {
  }

  /** Code 18 is a three-armed star painted solid red. */
  lemma Code18IsRed()
    ensures Decode(18).Success? && Decode(18).value.paint == Solid(Red)
    ensures Decode(18).value.shape == Path(StarPath(3, 12.5, 12.5))
  {
  }

  /** The outline chosen by each supported tens part. */
  lemma OutlineByTens(code: int)
    requires Decode(code).Success?
    ensures var tens, shape := JavaArith.Quot(code, 10), Decode(code).value.shape;
      && (tens == 1 ==> shape == Path(StarPath(3, 12.5, 12.5)))
      && (tens == 3 ==> shape == Path(StarPath(5, 12.5, 6.25)))
      && (tens == 5 ==> shape == Rectangle(-12.5, -12.5, 25.0, 25.0))
      && (tens == 7 ==> shape == Path([ MoveTo(TrianglePoint(-12, -1)), LineTo(TrianglePoint(0, -1))
                                      , LineTo(TrianglePoint(12, 1)), Close ]))
      && (tens == 9 ==> shape == Arc(-12.5, -12.5, 25.0, 25.0, 30.0, 300.0, Pie))
  {
    TriangleVertices();
  }

  /** The outline depends only on the tens part, the stroke and paint only on
      the units part. */
  lemma PartsIndependent(c1: int, c2: int)
    requires Decode(c1).Success? && Decode(c2).Success?
    ensures JavaArith.Quot(c1, 10) == JavaArith.Quot(c2, 10) ==> Decode(c1).value.shape == Decode(c2).value.shape
    ensures JavaArith.Rem(c1, 10) == JavaArith.Rem(c2, 10) ==>
      Decode(c1).value.stroke == Decode(c2).value.stroke && Decode(c1).value.paint == Decode(c2).value.paint
  {
  }

  /** The constructor's documentation names 10, 30 and 5 as examples; the code
      rejects all three. */
  lemma DocumentedExamplesRejected()
    ensures Decode(10) == Failure(UnsupportedStyle)
    ensures Decode(30) == Failure(UnsupportedStyle)
    ensures Decode(5) == Failure(UnsupportedShape)
  {
  }
}
