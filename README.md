# Curved figures: shape codes and the animated grid

A small Swing demo draws a grid of rotating shapes. Two pieces of integer logic
sit inside it, and this project models both in Dafny and proves properties of
them.

- **The shape factory** (`ShapeFactory.dfy`). `new ShapeFactory(code)` splits an
  `int` code into a tens part and a units part using Java's truncating division.
  The tens part picks the outline: a 3-armed star, a 5-armed star, a rectangle,
  a triangle or a pie arc. The units part picks the stroke and the paint. Any
  other value raises `IllegalArgumentException`. The outline is checked first,
  with the message "Shape type is unsupported.", and then the style, with
  "Unsupported stroke/paint type.". `Decode` is the pure lookup. `New` is the
  constructor's step-by-step field assignment, proved equal to `Decode`.
  `CreateStar` is the `createStar` loop, proved equal to the recursive `StarPath`.
- **The panel** (`TitlesPanel.dfy`). `TitlesPanel` is a class with the fields
  `isDone`, `startAngle` and `shape`. `DoDrawing` takes the panel size and insets
  as integers. It builds the factory, post-increments the wrap-around counter
  `startAngle`, and emits one cell per grid position. `DrawGrid` holds the
  nested loops; its inner loop is the separate method `DrawRow`, called once
  per row, which keeps the order and values of the cells. `ActionPerformed` is
  the timer callback's gate.
- `JavaArith.dfy` gives Java's `/` and `%` (section 15.17.2 and 15.17.3 of the
  Java Language Specification). `Wrappers.dfy` gives `Option` and `Result`.

`Decode` (with its parts `Outline`, `Style` and `DecodeDigits`) and
`CreateTriangle` are the reference functions for the constructor and for
`createTriangle`. They carry no contract of their own; the rows for `New`,
`TriangleVertices`, `OutlineByTens` and the other decoder lemmas state what
they compute.

The model represents an exception as `Failure(UnsupportedShape)` or
`Failure(UnsupportedStyle)`, and a `null` paint as `NoPaint`. The factory is
a datatype, not a class: its fields never change after construction, and a
Dafny constructor cannot fail.

The constructor's documentation names codes 10 and 30 (stars) and 5 (a
rectangle) as examples. The code rejects all three: 10 and 30 have units
part 0, and 5 has tens part 0. The model follows the code.
`DocumentedExamplesRejected` records this.

The only test reads the private field `paint` from another class. It is used
only as evidence for `Code18IsRed`.

## Model

| member | source | states |
|---|---|---|
| JavaArith.Quot | src/main/java/org/example/ShapeFactory.java:72 | Java's quotient for a positive divisor is truncated toward zero: non-negative and within one divisor below the dividend for non-negative dividends, non-positive and within one divisor above it for negative ones |
| JavaArith.Rem | src/main/java/org/example/ShapeFactory.java:93 | Java's remainder satisfies `a == q * b + r`, takes the sign of the dividend, and is smaller in magnitude than the divisor |
| JavaArith.QuotDiffersOnNegative | src/main/java/org/example/ShapeFactory.java:145 | `-25 / 2` is -12 in Java but -13 under Euclidean division; the remainders are -1 and 1 |
| ShapeFactory.StarPrefixAt | src/main/java/org/example/ShapeFactory.java:123-131 | after n turns of the star loop the path holds n commands, and command k is vertex k |
| ShapeFactory.StarPathShape | src/main/java/org/example/ShapeFactory.java:120-133 | a star with `arms` arms has exactly `2*arms` vertices and then a close; vertex 0 is a moveTo, every other vertex is a lineTo, even indices use rOuter and odd indices use rInner |
| ShapeFactory.CreateStar | src/main/java/org/example/ShapeFactory.java:120-133 | the loop that appends one vertex per turn and then closes the path produces exactly the star path |
| ShapeFactory.TriangleVertices | src/main/java/org/example/ShapeFactory.java:142-150 | the triangle's x-coordinates are -12, 0 and 12 (truncating integer division of the width), and the signs of its y-coordinates are negative, negative, positive |
| ShapeFactory.New | src/main/java/org/example/ShapeFactory.java:66-109 | assigning width, height and the default stroke, then the outline, then the stroke or paint, and stopping at the first unsupported part, gives exactly the decoded factory or error |
| ShapeFactory.AcceptedCodesBounds | src/main/java/org/example/ShapeFactory.java:72-90 | every listed code, and every code for which construction succeeds, lies in 11..98 |
| ShapeFactory.AcceptedCodesCount | src/main/java/org/example/ShapeFactory.java:72-108 | the listed codes number exactly 20; with `AcceptedIffListed`, which equates them with the codes that construct, there are exactly 20 accepted codes |
| ShapeFactory.AcceptedIffDigits | src/main/java/org/example/ShapeFactory.java:72-108 | construction succeeds if and only if the truncated tens part is in {1,3,5,7,9} and the truncated units part is in {1,4,7,8} |
| ShapeFactory.AcceptedIffListed | src/main/java/org/example/ShapeFactory.java:72-108 | construction succeeds if and only if the code is one of the 20 listed codes |
| ShapeFactory.OutOfRangeRejected | src/main/java/org/example/ShapeFactory.java:72-90 | every negative code and every code of 100 or more fails with "Shape type is unsupported." |
| ShapeFactory.ErrorPrecedence | src/main/java/org/example/ShapeFactory.java:72-108 | a bad tens part fails with the shape error whatever the units part; the style error arises if and only if the tens part is good and the units part is bad |
| ShapeFactory.DivisionSemanticsAgree | src/main/java/org/example/ShapeFactory.java:72-108 | splitting the code with Euclidean instead of Java division decodes every code identically |
| ShapeFactory.DimensionsFixed | src/main/java/org/example/ShapeFactory.java:66-68 | every constructed factory is 25 wide and 25 high |
| ShapeFactory.StrokeByUnits | src/main/java/org/example/ShapeFactory.java:69-105 | the stroke is 7.0 wide when the units part is 4 and 3.0 wide otherwise, including units 7 and 8, which keep the default |
| ShapeFactory.PaintByUnits | src/main/java/org/example/ShapeFactory.java:93-105 | the paint is solid red if and only if the units part is 8; it is the cyclic white-to-gray gradient from (-25,-25) to (25,25) if and only if the units part is 7; it is unset if and only if the units part is 1 or 4 |
| ShapeFactory.Code18IsRed | src/test/java/org/example/TestClass.java:11-14 | code 18 constructs a three-armed star with both radii 12.5, and its paint is red |
| ShapeFactory.OutlineByTens | src/main/java/org/example/ShapeFactory.java:72-87 | tens 1 gives a 3-armed star with radii 12.5/12.5; tens 3 gives a 5-armed star with radii 12.5/6.25; tens 5 gives the 25x25 rectangle at (-12.5,-12.5); tens 7 gives the triangle; tens 9 gives the PIE arc in the same box, starting at 30 degrees with extent 300 |
| ShapeFactory.PartsIndependent | src/main/java/org/example/ShapeFactory.java:72-105 | two accepted codes with the same tens part have the same outline, and two with the same units part have the same stroke and paint |
| ShapeFactory.DocumentedExamplesRejected | src/main/java/org/example/ShapeFactory.java:59-63 | the documented examples 10 and 30 fail on their style, and 5 fails on its outline |
| TitlesPanel.NextAngle | src/main/java/org/example/TitlesPanel.java:87-90 | from a counter in 0..360 the post-increment and reset keep the counter in 0..360, and it returns to 0 exactly from 360 |
| TitlesPanel.AngleCycle | src/main/java/org/example/TitlesPanel.java:87-90 | the base angle of paint n of a fresh panel is n mod 361, so the angles cycle 0..360 with period 361 |
| TitlesPanel.GridStepOfShape | src/main/java/org/example/TitlesPanel.java:96-97 | the grid step `(int)(25 * 1.5)` is 37 in both directions |
| TitlesPanel.PositionsAt | src/main/java/org/example/TitlesPanel.java:96-97 | one loop visits position k if and only if `first + step*k` is below the limit, and that position's value is `first + step*k` |
| TitlesPanel.CellsLength | src/main/java/org/example/TitlesPanel.java:96-104 | the nested loops emit rows times columns cells |
| TitlesPanel.CellsAt | src/main/java/org/example/TitlesPanel.java:96-104 | cells are emitted in row-major order: column a of row b is at index `b*columns + a` |
| TitlesPanel.GridCharacterization | src/main/java/org/example/TitlesPanel.java:96-104 | the grid has rows times columns cells, cell (a,b) exists if and only if both of its coordinates are inside the usable area, and it sits at `(cellW + stepW*a, cellH + stepH*b)` in row-major order |
| TitlesPanel.GridEmpty | src/main/java/org/example/TitlesPanel.java:96-97 | nothing is drawn if and only if the usable width or height is at most one shape size |
| TitlesPanel.ShapeGrid | src/main/java/org/example/TitlesPanel.java:96-104 | for the 25x25 shapes, cell (a,b) is `(25 + 37a, 25 + 37b)` with both coordinates inside the usable area, there are rows times columns cells in row-major order, and nothing is drawn if and only if w <= 25 or h <= 25 |
| TitlesPanel.DrawRow | src/main/java/org/example/TitlesPanel.java:97-103 | the inner loop emits exactly one row: the column positions from the shape width, one step apart and below the usable width, paired with the row position |
| TitlesPanel.DrawGrid | src/main/java/org/example/TitlesPanel.java:96-104 | the nested loops (rows outer, columns inner) emit exactly the specified grid |
| TitlesPanel.TitlesPanel.constructor | src/main/java/org/example/TitlesPanel.java:46-51 | a new panel is not drawing, its counter is 0, and it keeps the given shape code |
| TitlesPanel.TitlesPanel.ActionPerformed | src/main/java/org/example/TitlesPanel.java:59-63 | the timer requests a repaint if and only if no drawing is in progress |
| TitlesPanel.TitlesPanel.DoDrawing | src/main/java/org/example/TitlesPanel.java:70-106 | for a supported code the frame's base angle is the counter's old value, the counter advances by one or wraps to 0 and stays in 0..360, the cells are the grid of the usable area `width-left-right` by `height-top-bottom`, and the panel is done afterwards; for an unsupported code the error propagates, the counter is unchanged, and the panel stays marked as drawing, so the timer never repaints again |

## Left out

- Star and triangle coordinates. They use `Math.cos`, `Math.sin` and `Math.sqrt` in doubles. A star vertex keeps only its index and radius, and a triangle vertex keeps only its integer x-coordinate and the sign of its y-coordinate.
- ShapeFactory.CreateStar: the centre parameter is always the origin and is dropped. `(i & 1) == 0` is written as `i % 2 == 0`; the two agree because i is never negative.
- ShapeFactory.CreateStar: requires at least one arm. With no arms, closing the empty path would be rejected by the AWT geometry library, which is not part of this model. The source only calls it with 3 and 5 arms.
- The per-cell rotation `dr = 90.0 / (w / 37.5)` and the `angle > 360.0` reset inside the loop. This is double arithmetic, and it divides by zero when w is 0. A frame keeps only its base angle.
- `AffineTransform`, `Math.toRadians`, `g2d.draw`, `setStroke`, `setPaint` and the rendering hints. These are AWT calls. A draw is reduced to emitting cell (i, j), and a frame records the factory whose stroke and paint it uses.
- The Swing `Timer`, `repaint`, `paintComponent`, `getSize` and `getInsets`. The size and insets are parameters of `DoDrawing`. `paintComponent` calls `super.paintComponent` first, which paints the background and is left out as GUI work, and then `doDrawing`. `repaint` is returned as a boolean by `ActionPerformed`.
- TitlesPanel.TitlesPanel.DoDrawing: "isDone is false during the draw" is visible only through the end states. Nothing else runs on the event thread during a draw.
- 32-bit `int` overflow. The decoder rejects everything outside 11..98. The usable-area subtractions and the loop counters `i += 37` and `j += 37` would wrap only for panel sizes near 2^31, and the model does not capture that.
- The getters. They are the fields of the `ShapeFactory` datatype.
- `TitlesFrame.java` (window setup and the entry point, which passes code 78). It is not part of this model.
