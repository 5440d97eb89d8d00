/** The back buffer into the screen, scaled by a whole number, centred and clipped. */
module Blit {
  const BACK_W: nat := 320
  const BACK_H: nat := 200
  const SCALE: nat := 2

  type Pixel = int

  datatype Display = Display(width: int, height: int, stride: int)

  /** Division as C does it: towards zero. */
  function Truncated(a: int, b: nat): (q: int)
    requires b > 0
    ensures if a >= 0 then b * q <= a < b * q + b else b * q - b < a <= b * q
  {
    if a >= 0 then a / b else -(-a / b)
  }

  /** Where a picture of `size` starts on a screen of `room`: centred, or at the edge when it does not fit. */
  function Margin(room: int, size: nat): (m: nat)
    ensures room <= size ==> m == 0
    ensures room > size ==> m + size <= room && (room - size - m == m || room - size - m == m + 1)
  {
    var m := Truncated(room - size, 2);
    if m < 0 then 0 else m
  }

  function Left(d: Display): nat { Margin(d.width, BACK_W * SCALE) }
  function Top(d: Display): nat { Margin(d.height, BACK_H * SCALE) }

  /** Along one direction: the source of screen position `at`, when a whole scaled pixel of the picture covers it. */
  predicate Covered(at: int, margin: nat, size: nat, room: int) {
    at >= margin && (at - margin) / SCALE < size && margin + (at - margin) / SCALE * SCALE + SCALE <= room
  }

  /** Where pixel (X, Y) is in the buffer. */
  function Cell(stride: nat, Y: nat, X: nat): nat { Y * stride + X }

  predicate InPicture(d: Display, Y: nat, X: nat) {
    Covered(Y, Top(d), BACK_H, d.height) && Covered(X, Left(d), BACK_W, d.width)
  }

  /** What pixel (X, Y) shows once the rows above `upto` are drawn. */
  function Shown(was: seq<Pixel>, back: seq<Pixel>, d: Display, Y: nat, X: nat, upto: nat): Pixel
    requires |back| == BACK_W * BACK_H && d.stride >= 0 && Cell(d.stride, Y, X) < |was|
  {
    if Y < upto && InPicture(d, Y, X)
    then back[(Y - Top(d)) / SCALE * BACK_W + (X - Left(d)) / SCALE]
    else was[Cell(d.stride, Y, X)]
  }

  ghost predicate Drawn(s: seq<Pixel>, was: seq<Pixel>, back: seq<Pixel>, d: Display, upto: nat) {
    && d.stride >= 0 && |s| == |was| && |back| == BACK_W * BACK_H
    && forall Y: nat, X: nat {:trigger Cell(d.stride, Y, X)} :: X < d.stride && Cell(d.stride, Y, X) < |s| ==>
         s[Cell(d.stride, Y, X)] == Shown(was, back, d, Y, X, upto)
  }

  /** Every pixel inside the centred, clipped picture is its source's; every other cell, padding too, is what it was. */
  ghost predicate Presented(s: seq<Pixel>, was: seq<Pixel>, back: seq<Pixel>, d: Display) {
    && d.stride >= 0 && |s| == |was| && |back| == BACK_W * BACK_H
    && forall Y: nat, X: nat {:trigger Cell(d.stride, Y, X)} :: X < d.stride && Cell(d.stride, Y, X) < |s| ==>
         s[Cell(d.stride, Y, X)] ==
           if InPicture(d, Y, X) then back[(Y - Top(d)) / SCALE * BACK_W + (X - Left(d)) / SCALE] else was[Cell(d.stride, Y, X)]
  }

  /** A row written: cells `start` up to `start + SCALE * n` doubled from `row`. */
  ghost predicate RowWritten(s: seq<Pixel>, s1: seq<Pixel>, start: nat, n: nat, row: seq<Pixel>) {
    && |s1| == |s| && n <= |row|
    && forall i :: 0 <= i < |s| ==> s1[i] == if start <= i < start + SCALE * n then row[(i - start) / SCALE] else s[i]
  }

  lemma RowBelow(stride: nat, Y: nat, X: nat, Y0: nat, X0: nat)
    requires X < stride && Y < Y0
    ensures Cell(stride, Y, X) < Cell(stride, Y0, X0)
  {
    var more := Y0 - Y - 1;
    assert Y0 * stride == (Y + 1 + more) * stride == Y * stride + stride + more * stride;
    assert more * stride >= 0;
  }

  /** Rows do not overlap. */
  lemma RowsApart(stride: nat, Y: nat, X: nat, Y0: nat, X0: nat)
    requires X < stride && X0 < stride && Cell(stride, Y, X) == Cell(stride, Y0, X0)
    ensures Y == Y0 && X == X0
  {
    if Y < Y0 { RowBelow(stride, Y, X, Y0, X0); }
    if Y0 < Y { RowBelow(stride, Y0, X0, Y, X); }
  }

  /** How many pixels of a row of the picture fit. */
  ghost predicate Fit(n: nat, margin: nat, size: nat, room: int) {
    && n <= size && (n == 0 || margin + SCALE * n <= room)
    && (n == size || margin + n * SCALE + SCALE > room)
  }

  lemma CoveredFit(at: int, n: nat, margin: nat, size: nat, room: int)
    requires Fit(n, margin, size, room)
    ensures Covered(at, margin, size, room) <==> margin <= at < margin + SCALE * n
  {
  }

  /** One cell of the screen once the row at `Y0` is drawn. */
  lemma CellDrawn(s: seq<Pixel>, s1: seq<Pixel>, was: seq<Pixel>, back: seq<Pixel>, d: Display, Y0: nat, n: nat, y: nat, Y: nat, X: nat)
    requires Drawn(s, was, back, d, Y0) && d.width <= d.stride && Fit(n, Left(d), BACK_W, d.width)
    requires Covered(Y0, Top(d), BACK_H, d.height) && y == (Y0 - Top(d)) / SCALE
    requires RowWritten(s, s1, Cell(d.stride, Y0, Left(d)), n, back[y * BACK_W..y * BACK_W + BACK_W])
    requires X < d.stride && Cell(d.stride, Y, X) < |s|
    ensures s1[Cell(d.stride, Y, X)] == Shown(was, back, d, Y, X, Y0 + 1)
  {
    var start, i := Cell(d.stride, Y0, Left(d)), Cell(d.stride, Y, X);
    var row := back[y * BACK_W..y * BACK_W + BACK_W];
    CoveredFit(X, n, Left(d), BACK_W, d.width);
    if start <= i < start + SCALE * n {
      RowsApart(d.stride, Y, X, Y0, Left(d) + (i - start));
      assert row[(i - start) / SCALE] == back[y * BACK_W + (i - start) / SCALE];
    } else if Y == Y0 {
      assert !Covered(X, Left(d), BACK_W, d.width);
    }
  }

  /** One row of the screen drawn, on top of those above it. */
  lemma RowDrawn(s: seq<Pixel>, s1: seq<Pixel>, was: seq<Pixel>, back: seq<Pixel>, d: Display, Y0: nat, n: nat, y: nat)
    requires Drawn(s, was, back, d, Y0) && d.width <= d.stride && Fit(n, Left(d), BACK_W, d.width)
    requires Covered(Y0, Top(d), BACK_H, d.height) && y == (Y0 - Top(d)) / SCALE
    requires RowWritten(s, s1, Cell(d.stride, Y0, Left(d)), n, back[y * BACK_W..y * BACK_W + BACK_W])
    ensures Drawn(s1, was, back, d, Y0 + 1)
  {
    forall Y: nat, X: nat | X < d.stride && Cell(d.stride, Y, X) < |s|
      ensures s1[Cell(d.stride, Y, X)] == Shown(was, back, d, Y, X, Y0 + 1)
    {
      CellDrawn(s, s1, was, back, d, Y0, n, y, Y, X);
    }
  }

  /** The inner two loops: one row of the picture, each pixel `SCALE` times. */
  method PresentRow(screen: array<Pixel>, back: array<Pixel>, d: Display, left: nat, start: nat, y: nat) returns (ghost n: nat)
    requires screen != back && back.Length == BACK_W * BACK_H && y < BACK_H
    requires left + BACK_W * SCALE <= d.width || left == 0
    requires d.width > 0 ==> start + d.width - left <= screen.Length
    modifies screen
    ensures Fit(n, left, BACK_W, d.width)
    ensures RowWritten(old(screen[..]), screen[..], start, n, back[y * BACK_W..y * BACK_W + BACK_W])
  {
    ghost var s := screen[..];
    var x: nat := 0;
    while x < BACK_W && left + x * SCALE + SCALE <= d.width
      invariant x <= BACK_W && (x == 0 || left + SCALE * x <= d.width)
      invariant forall i :: 0 <= i < screen.Length ==>
        screen[i] == if start <= i < start + SCALE * x then back[y * BACK_W + (i - start) / SCALE] else s[i]
    {
      for k := 0 to SCALE
        invariant forall i :: 0 <= i < screen.Length ==>
          screen[i] == if start <= i < start + SCALE * x + k then back[y * BACK_W + (i - start) / SCALE] else s[i]
      {
        screen[start + x * SCALE + k] := back[y * BACK_W + x];
      }
      x := x + 1;
    }
    n := x;
  }

  method Present(screen: array<Pixel>, back: array<Pixel>, d: Display)
    requires screen != back && back.Length == BACK_W * BACK_H
    requires 0 <= d.stride && d.width <= d.stride && d.stride * d.height <= screen.Length
    modifies screen
    ensures Presented(screen[..], old(screen[..]), back[..], d)
  {
    var left := Left(d);
    var top := Top(d);
    ghost var was := screen[..];
    var y: nat := 0;
    while y < BACK_H && top + y * SCALE + SCALE <= d.height
      invariant y <= BACK_H && Drawn(screen[..], was, back[..], d, top + y * SCALE)
    {
      for s := 0 to SCALE
        invariant Drawn(screen[..], was, back[..], d, top + y * SCALE + s)
      {
        ghost var before, Y := screen[..], top + y * SCALE + s;
        RowInside(d, Y, screen.Length);
        var n := PresentRow(screen, back, d, left, (top + y * SCALE + s) * d.stride + left, y);
        RowDrawn(before, screen[..], was, back[..], d, Y, n, y);
      }
      y := y + 1;
    }
    AllDrawn(screen[..], was, back[..], d, y);
  }

  /** Past the last whole row that fits there is no more picture. */
  lemma AllDrawn(s: seq<Pixel>, was: seq<Pixel>, back: seq<Pixel>, d: Display, y: nat)
    requires Drawn(s, was, back, d, Top(d) + y * SCALE)
    requires y <= BACK_H && (y == BACK_H || Top(d) + y * SCALE + SCALE > d.height)
    ensures Presented(s, was, back, d)
  {
    forall Y: nat, X: nat | X < d.stride && Cell(d.stride, Y, X) < |s|
      ensures s[Cell(d.stride, Y, X)] == Shown(was, back, d, Y, X, Y + 1)
    {
      NoMoreRows(d, y, Y);
    }
  }

  lemma NoMoreRows(d: Display, y: nat, Y: nat)
    requires y <= BACK_H && (y == BACK_H || Top(d) + y * SCALE + SCALE > d.height)
    ensures Covered(Y, Top(d), BACK_H, d.height) ==> Y < Top(d) + y * SCALE
  {
  }

  lemma RowInside(d: Display, Y: nat, length: nat)
    requires 0 <= d.stride && d.width <= d.stride && d.stride * d.height <= length && Y < d.height
    ensures Y * d.stride + d.stride <= length
  {
    var more := d.height - Y - 1;
    assert d.stride * d.height == d.stride * (Y + 1 + more) == d.stride * Y + d.stride + d.stride * more;
    assert d.stride * more >= 0;
  }

  /** On a screen it fits, the picture is shown whole, each of its pixels a square, with as much room on one side as on the other. */
  lemma ShownWhole(d: Display, y: nat, x: nat, s: nat, k: nat)
    requires d.width >= BACK_W * SCALE && d.height >= BACK_H * SCALE && y < BACK_H && x < BACK_W && s < SCALE && k < SCALE
    ensures InPicture(d, Top(d) + y * SCALE + s, Left(d) + x * SCALE + k)
    ensures (y * SCALE + s) / SCALE == y && (x * SCALE + k) / SCALE == x
    ensures 0 <= d.width - BACK_W * SCALE - 2 * Left(d) <= 1 && 0 <= d.height - BACK_H * SCALE - 2 * Top(d) <= 1
  {
  }

  /** On any screen, nothing outside the screen's own width and height is touched, nor anything before the picture's corner. */
  lemma ShownInside(d: Display, Y: nat, X: nat)
    requires InPicture(d, Y, X)
    ensures Left(d) <= X < d.width && Top(d) <= Y < d.height
  {
  }

  /** On any screen, however small, a pixel of the picture is drawn exactly if its square ends inside. */
  lemma ShownWhereItFits(d: Display, y: nat, x: nat, s: nat, k: nat)
    requires s < 2 && k < 2
    ensures InPicture(d, Top(d) + 2 * y + s, Left(d) + 2 * x + k)
            <==> y < 200 && x < 320 && Top(d) + 2 * y + 2 <= d.height && Left(d) + 2 * x + 2 <= d.width
  {
    assert (2 * y + s) / SCALE == y && (2 * x + k) / SCALE == x;
  }

  /** A screen with room for one square shows the picture's corner, whatever else it cuts off. */
  lemma CornerShown(d: Display)
    ensures InPicture(d, Top(d), Left(d)) <==> d.height >= 2 && d.width >= 2
  {
    ShownWhereItFits(d, 0, 0, 0, 0);
  }
}
