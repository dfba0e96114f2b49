/** Model of the 2-D transformation demo: a set of line segments that the
    keyboard handler translates, scales and rotates in place.

    The source keeps its coordinates in C++ `double`s; here they are `real`s,
    so rounding is abstracted away and the inverse-pair round trips below hold
    exactly, which they do not bit for bit in floating point. */
module Transformation {

  /** A point (x, y): the source's `pair<double, double>`. */
  datatype Point = Point(x: real, y: real)

  /** A line segment from `first` to `second`: the source's pair of pairs. */
  datatype Segment = Segment(first: Point, second: Point)

  // ---------------------------------------------------------------------
  // Specification: what one segment, and the whole line set, become
  // ---------------------------------------------------------------------

  /** Both endpoints moved by (tx, ty). */
  function TranslateSegment(s: Segment, tx: real, ty: real): Segment {
    Segment(Point(s.first.x + tx, s.first.y + ty), Point(s.second.x + tx, s.second.y + ty))
  }

  /** Both endpoints scaled about the origin: x by sx, y by sy. */
  function ScaleSegment(s: Segment, sx: real, sy: real): Segment {
    Segment(Point(s.first.x * sx, s.first.y * sy), Point(s.second.x * sx, s.second.y * sy))
  }

  /** Both endpoints rotated by the linear map whose cosine and sine are ac and asn. */
  function RotateSegment(s: Segment, ac: real, asn: real): Segment {
    Segment(Point(s.first.x * ac - s.first.y * asn, s.first.x * asn + s.first.y * ac),
            Point(s.second.x * ac - s.second.y * asn, s.second.x * asn + s.second.y * ac))
  }

  /** The line set after Translate(tx, ty): every line moved, in place, none added or dropped. */
  function Translated(lines: seq<Segment>, tx: real, ty: real): (r: seq<Segment>)
    ensures |r| == |lines|
    ensures forall i :: 0 <= i < |lines| ==> r[i] == TranslateSegment(lines[i], tx, ty)
  {
    if lines == [] then [] else [TranslateSegment(lines[0], tx, ty)] + Translated(lines[1..], tx, ty)
  }

  /** The line set after scaling about the origin by (sx, sy). */
  function Scaled(lines: seq<Segment>, sx: real, sy: real): (r: seq<Segment>)
    ensures |r| == |lines|
    ensures forall i :: 0 <= i < |lines| ==> r[i] == ScaleSegment(lines[i], sx, sy)
  {
    if lines == [] then [] else [ScaleSegment(lines[0], sx, sy)] + Scaled(lines[1..], sx, sy)
  }

  /** The line set after rotating by the map (ac, asn). */
  function Rotated(lines: seq<Segment>, ac: real, asn: real): (r: seq<Segment>)
    ensures |r| == |lines|
    ensures forall i :: 0 <= i < |lines| ==> r[i] == RotateSegment(lines[i], ac, asn)
  {
    if lines == [] then [] else [RotateSegment(lines[0], ac, asn)] + Rotated(lines[1..], ac, asn)
  }

  /** Scaling about a reference point (h, l): move it to the origin, scale, move back. */
  function ScaledAbout(lines: seq<Segment>, sx: real, sy: real, h: real, l: real): seq<Segment> {
    Translated(Scaled(Translated(lines, -h, -l), sx, sy), h, l)
  }

  // ---------------------------------------------------------------------
  // Properties of the transformations
  // ---------------------------------------------------------------------

  /** Translating by zero changes nothing. */
  lemma TranslateZero(lines: seq<Segment>)
    ensures Translated(lines, 0.0, 0.0) == lines
  {
    var r := Translated(lines, 0.0, 0.0);
    assert forall i :: 0 <= i < |lines| ==> r[i] == lines[i];
  }

  /** Two successive translations are one translation by the summed offsets. */
  lemma TranslateCompose(lines: seq<Segment>, tx1: real, ty1: real, tx2: real, ty2: real)
    ensures Translated(Translated(lines, tx1, ty1), tx2, ty2) == Translated(lines, tx1 + tx2, ty1 + ty2)
  {
    var r := Translated(Translated(lines, tx1, ty1), tx2, ty2);
    var t := Translated(lines, tx1 + tx2, ty1 + ty2);
    assert forall i :: 0 <= i < |lines| ==> r[i] == t[i];
  }

  /** Translate(tx, ty) followed by Translate(-tx, -ty) restores every line. */
  lemma TranslateInverse(lines: seq<Segment>, tx: real, ty: real)
    ensures Translated(Translated(lines, tx, ty), -tx, -ty) == lines
  {
    TranslateCompose(lines, tx, ty, -tx, -ty);
    TranslateZero(lines);
  }

  /** Scaling by (1, 1) changes nothing. */
  lemma ScaleIdentity(lines: seq<Segment>)
    ensures Scaled(lines, 1.0, 1.0) == lines
  {
    var r := Scaled(lines, 1.0, 1.0);
    assert forall i :: 0 <= i < |lines| ==> r[i] == lines[i];
  }

  /** Scale(sx, sy) followed by Scale(1/sx, 1/sy) restores every line when neither factor is zero. */
  lemma ScaleInverse(lines: seq<Segment>, sx: real, sy: real)
    requires sx != 0.0 && sy != 0.0
    ensures Scaled(Scaled(lines, sx, sy), 1.0 / sx, 1.0 / sy) == lines
  {
    var r := Scaled(Scaled(lines, sx, sy), 1.0 / sx, 1.0 / sy);
    forall i | 0 <= i < |lines| ensures r[i] == lines[i] {
      var s := lines[i];
      UndoFactor(s.first.x, sx);
      UndoFactor(s.first.y, sy);
      UndoFactor(s.second.x, sx);
      UndoFactor(s.second.y, sy);
    }
  }

  lemma UndoFactor(v: real, f: real)
    requires f != 0.0
    ensures v * f * (1.0 / f) == v
  {
    calc {
      v * f * (1.0 / f);
      v * (f * (1.0 / f));
      v * 1.0;
    }
  }

  /** With the reference point at the origin, as the source fixes it, scaling about it is plain scaling. */
  lemma ScaleAboutOrigin(lines: seq<Segment>, sx: real, sy: real)
    ensures ScaledAbout(lines, sx, sy, 0.0, 0.0) == Scaled(lines, sx, sy)
  {
    TranslateZero(lines);
    TranslateZero(Scaled(lines, sx, sy));
  }

  /** Rotating by a map whose cosine and sine satisfy ac^2 + asn^2 = 1 and then
      by the map with the sine negated restores every line. This is pure algebra
      on the two values; nothing is claimed about how they are computed. */
  lemma RotateInverse(lines: seq<Segment>, ac: real, asn: real)
    requires ac * ac + asn * asn == 1.0
    ensures Rotated(Rotated(lines, ac, asn), ac, -asn) == lines
  {
    var r := Rotated(Rotated(lines, ac, asn), ac, -asn);
    forall i | 0 <= i < |lines| ensures r[i] == lines[i] {
      var once := Rotated(lines, ac, asn);
      assert once[i] == RotateSegment(lines[i], ac, asn);
      assert r[i] == RotateSegment(once[i], ac, -asn);
      UndoTurnSegment(lines[i], ac, asn);
    }
  }

  lemma UndoTurnSegment(s: Segment, ac: real, asn: real)
    requires ac * ac + asn * asn == 1.0
    ensures RotateSegment(RotateSegment(s, ac, asn), ac, -asn) == s
  {
    UndoTurn(s.first, ac, asn);
    UndoTurn(s.second, ac, asn);
  }

  /** One point turned by (ac, asn) and back by (ac, -asn). */
  lemma UndoTurn(p: Point, ac: real, asn: real)
    requires ac * ac + asn * asn == 1.0
    ensures var x, y := p.x * ac - p.y * asn, p.x * asn + p.y * ac;
            x * ac - y * -asn == p.x && x * -asn + y * ac == p.y
  {
    var x, y := p.x * ac - p.y * asn, p.x * asn + p.y * ac;
    calc {
      x * ac - y * -asn;
      p.x * (ac * ac + asn * asn);
      p.x;
    }
    calc {
      x * -asn + y * ac;
      p.y * (ac * ac + asn * asn);
      p.y;
    }
  }

  // ---------------------------------------------------------------------
  // The keyboard handler's commands
  // ---------------------------------------------------------------------

  /** The four step sizes the program reads once at start-up. */
  datatype Factors = Factors(translation: real, rotation: real, scaleX: real, scaleY: real)

  /** What a key press asks for. `Turn` carries the angle in degrees. */
  datatype Action = Quit | Redraw | Move(tx: real, ty: real) | Zoom(sx: real, sy: real) | Turn(angle: real) | Ignore

  /** The escape key, which quits like 'q' and 'e'. */
  const Escape: char := 27 as char

  /** The zoom-out key divides by the scale factors, so it needs them non-zero. */
  predicate KeyDefined(f: Factors, k: char) {
    k == '-' ==> f.scaleX != 0.0 && f.scaleY != 0.0
  }

  /** The command each key stands for: 'w'/'s' move up/down, 'a'/'d' left/right,
      '+'/'-' zoom in/out, 'l'/'1' and 'r'/'2' rotate, 'c' redraws, Escape/'q'/'e' quit. */
  function KeyAction(f: Factors, k: char): (act: Action)
    requires KeyDefined(f, k)
    ensures act.Quit? <==> k in {Escape, 'q', 'e'}
    ensures act.Move? ==> (act.tx == 0.0 || act.ty == 0.0)
  {
    if k == Escape || k == 'q' || k == 'e' then Quit
    else if k == 'c' then Redraw
    else if k == 'w' then Move(0.0, f.translation)
    else if k == 's' then Move(0.0, -f.translation)
    else if k == 'a' then Move(-f.translation, 0.0)
    else if k == 'd' then Move(f.translation, 0.0)
    else if k == '+' then Zoom(f.scaleX, f.scaleY)
    else if k == '-' then Zoom(1.0 / f.scaleX, 1.0 / f.scaleY)
    else if k == 'l' || k == '1' then Turn(f.rotation)
    else if k == 'r' || k == '2' then Turn(-f.rotation)
    else Ignore
  }

  /** The line set after an action. `trig(angle)` stands for the library's
      (cos(angle*PI/180), sin(angle*PI/180)), which this model does not compute. */
  function Apply(act: Action, lines: seq<Segment>, trig: real -> (real, real)): seq<Segment> {
    match act
    case Move(tx, ty) => Translated(lines, tx, ty)
    case Zoom(sx, sy) => Scaled(lines, sx, sy)
    case Turn(angle) => Rotated(lines, trig(angle).0, trig(angle).1)
    case _ => lines
  }

  /** The opposite keys undo each other: 'w'/'s', 's'/'w', 'a'/'d', 'd'/'a',
      and, when the scale factors are non-zero, '+'/'-'. */
  lemma OppositeKeysRestore(f: Factors, lines: seq<Segment>, trig: real -> (real, real), k1: char, k2: char)
    requires (k1, k2) in {('w', 's'), ('s', 'w'), ('a', 'd'), ('d', 'a'), ('+', '-')}
    requires k1 == '+' ==> f.scaleX != 0.0 && f.scaleY != 0.0
    ensures KeyDefined(f, k1) && KeyDefined(f, k2)
    ensures Apply(KeyAction(f, k2), Apply(KeyAction(f, k1), lines, trig), trig) == lines
  {
    var t := f.translation;
    if k1 == 'w' {
      TranslateInverse(lines, 0.0, t);
    } else if k1 == 's' {
      TranslateInverse(lines, 0.0, -t);
    } else if k1 == 'a' {
      TranslateInverse(lines, -t, 0.0);
    } else if k1 == 'd' {
      TranslateInverse(lines, t, 0.0);
    } else {
      ScaleInverse(lines, f.scaleX, f.scaleY);
    }
  }

  /** '-' followed by '+' also restores every line. */
  lemma ZoomOutThenInRestores(f: Factors, lines: seq<Segment>, trig: real -> (real, real))
    requires f.scaleX != 0.0 && f.scaleY != 0.0
    ensures Apply(KeyAction(f, '+'), Apply(KeyAction(f, '-'), lines, trig), trig) == lines
  {
    var ix, iy := 1.0 / f.scaleX, 1.0 / f.scaleY;
    assert ix * f.scaleX == 1.0 && iy * f.scaleY == 1.0;
    assert 1.0 / ix == f.scaleX && 1.0 / iy == f.scaleY;
    ScaleInverse(lines, ix, iy);
  }

  /** 'l' then 'r' restores every line, provided only that trig gives a point on
      the unit circle and that negating the angle negates the sine. */
  lemma TurnKeysRestore(f: Factors, lines: seq<Segment>, trig: real -> (real, real))
    requires trig(f.rotation).0 * trig(f.rotation).0 + trig(f.rotation).1 * trig(f.rotation).1 == 1.0
    requires trig(-f.rotation) == (trig(f.rotation).0, -trig(f.rotation).1)
    ensures Apply(KeyAction(f, 'r'), Apply(KeyAction(f, 'l'), lines, trig), trig) == lines
  {
    RotateInverse(lines, trig(f.rotation).0, trig(f.rotation).1);
  }

  // ---------------------------------------------------------------------
  // The program state: the global vector of lines, updated in place
  // ---------------------------------------------------------------------

  class LineSet {
    /** The global `lines`: filled once at start-up, then only updated in place. */
    const lines: array<Segment>
    /** The step sizes read at start-up. */
    const factors: Factors

    /** The line set as the input loop leaves it. */
    constructor (initial: seq<Segment>, factors: Factors)
      ensures lines[..] == initial && this.factors == factors && fresh(lines)
    {
      lines := new Segment[|initial|](i requires 0 <= i < |initial| => initial[i]);
      this.factors := factors;
    }

    /** Moves every endpoint of every line by (tx, ty). */
    method Translate(tx: real, ty: real)
      modifies lines
      ensures lines[..] == Translated(old(lines[..]), tx, ty)
    {
      for i := 0 to lines.Length
        invariant forall j :: 0 <= j < i ==> lines[j] == TranslateSegment(old(lines[j]), tx, ty)
        invariant forall j :: i <= j < lines.Length ==> lines[j] == old(lines[j])
      {
        var s := lines[i];
        lines[i] := Segment(Point(s.first.x + tx, s.first.y + ty), Point(s.second.x + tx, s.second.y + ty));
      }
    }

    /** Scales every line by (sx, sy) about the reference point (h, l), which the source fixes at (0, 0). */
    method Scale(sx: real, sy: real)
      modifies lines
      ensures lines[..] == Scaled(old(lines[..]), sx, sy)
    {
      var h, l := 0.0, 0.0;
      Translate(-h, -l);
      ghost var moved := lines[..];
      for i := 0 to lines.Length
        invariant forall j :: 0 <= j < i ==> lines[j] == ScaleSegment(moved[j], sx, sy)
        invariant forall j :: i <= j < lines.Length ==> lines[j] == moved[j]
      {
        lines[i] := ScaleSegment(lines[i], sx, sy);
      }
      Translate(h, l);
      TranslateZero(old(lines[..]));
      TranslateZero(Scaled(old(lines[..]), sx, sy));
    }

    /** Rotates every line by angle degrees about the origin; trig(angle) supplies
        the cosine and sine the source computes with the maths library. */
    method Rotate(angle: real, trig: real -> (real, real))
      modifies lines
      ensures lines[..] == Rotated(old(lines[..]), trig(angle).0, trig(angle).1)
    {
      var (ac, asn) := trig(angle);
      for i := 0 to lines.Length
        invariant forall j :: 0 <= j < i ==> lines[j] == RotateSegment(old(lines[j]), ac, asn)
        invariant forall j :: i <= j < lines.Length ==> lines[j] == old(lines[j])
      {
        lines[i] := RotateSegment(lines[i], ac, asn);
      }
    }

    /** The keyboard handler: performs the key's command on the lines and
        reports whether the program exits. Drawing is not modelled. */
    method Key(k: char, trig: real -> (real, real)) returns (quit: bool)
      requires KeyDefined(factors, k)
      modifies lines
      ensures quit <==> k in {Escape, 'q', 'e'}
      ensures lines[..] == Apply(KeyAction(factors, k), old(lines[..]), trig)
    {
      quit := false;
      var tf := factors.translation;
      if k == Escape || k == 'q' || k == 'e' {
        quit := true;
      } else if k == 'c' {
      } else if k == 'w' {
        Translate(0.0, tf);
      } else if k == 's' {
        Translate(0.0, -tf);
      } else if k == 'a' {
        Translate(-tf, 0.0);
      } else if k == 'd' {
        Translate(tf, 0.0);
      } else if k == '+' {
        Scale(factors.scaleX, factors.scaleY);
      } else if k == '-' {
        Scale(1.0 / factors.scaleX, 1.0 / factors.scaleY);
      } else if k == 'l' || k == '1' {
        Rotate(factors.rotation, trig);
      } else if k == 'r' || k == '2' {
        Rotate(-factors.rotation, trig);
      }
    }
  }
}
