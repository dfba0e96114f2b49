/** Model of the perspective-projection demo: fixed-capacity matrices, the
    perspective matrix built from a view plane and a centre of projection,
    the homogeneous vertex matrix of an axis-aligned box, their product, and
    the table of the box's edges that is drawn.

    The source's `double`s are `real`s here: rounding is abstracted away. */
module Projection {

  /** Every matrix is backed by a 10 x 10 array of cells. */
  const Size: int := 10

  /** The source's `struct matrix`: the dimensions in use and the cell storage. */
  class Matrix {
    var n: int
    var m: int
    const mat: array2<real>

    ghost predicate Valid()
      reads this
    {
      mat.Length0 == Size && mat.Length1 == Size
    }

    /** Uninitialised storage: nothing is promised about n, m or any cell. */
    constructor ()
      ensures Valid() && fresh(mat)
    {
      mat := new real[Size, Size];
    }
  }

  /** Sets the dimensions to n x m and zeros the top-left n x m block;
      every other cell keeps its value. */
  method Nullify(n: int, m: int, mat: Matrix)
    requires mat.Valid() && n <= Size && m <= Size
    modifies mat, mat.mat
    ensures mat.Valid()
    ensures mat.n == n && mat.m == m
    ensures forall i, j :: 0 <= i < n && 0 <= j < m ==> mat.mat[i, j] == 0.0
    ensures forall i, j :: 0 <= i < Size && 0 <= j < Size && !(i < n && j < m) ==> mat.mat[i, j] == old(mat.mat[i, j])
  {
    mat.n := n;
    mat.m := m;
    var i := 0;
    while i < n
      modifies mat.mat
      invariant 0 <= i && (i == 0 || i <= n)
      invariant forall r, c :: 0 <= r < Size && 0 <= c < Size ==>
                  mat.mat[r, c] == if r < i && c < m then 0.0 else old(mat.mat[r, c])
    {
      var j := 0;
      while j < m
        modifies mat.mat
        invariant 0 <= j && (j == 0 || j <= m)
        invariant forall r, c :: 0 <= r < Size && 0 <= c < Size ==>
                    mat.mat[r, c] == if (r < i && c < m) || (r == i && c < j) then 0.0 else old(mat.mat[r, c])
      {
        mat.mat[i, j] := 0.0;
        j := j + 1;
      }
      i := i + 1;
    }
  }

  /** Entry (i, j) of the product of a and b when the inner dimension is p:
      the sum over k < p of a[i, k] * b[k, j], accumulated from k = 0 upward. */
  ghost function RowTimesColumn(a: array2<real>, b: array2<real>, i: int, j: int, p: int): real
    requires 0 <= i < a.Length0 && 0 <= j < b.Length1 && p <= a.Length1 && p <= b.Length0
    reads a, b
    decreases p
  {
    if p <= 0 then 0.0 else RowTimesColumn(a, b, i, j, p - 1) + a[i, p - 1] * b[p - 1, j]
  }

  /** The product of a (a.n rows) and b (b.n x b.m). Only the a.n x b.m block
      of the result is written; its dimensions and all other cells are left
      as the uninitialised storage had them. */
  method MatMult(a: Matrix, b: Matrix) returns (ret: Matrix)
    requires a.Valid() && b.Valid()
    requires a.n <= Size && b.m <= Size && b.n <= Size
    ensures ret.Valid() && fresh(ret) && fresh(ret.mat)
    ensures forall i, j :: 0 <= i < a.n && 0 <= j < b.m ==>
              ret.mat[i, j] == RowTimesColumn(a.mat, b.mat, i, j, b.n)
  {
    ret := new Matrix();
    var n := a.n;
    var m := b.m;
    var p := b.n;
    var i := 0;
    while i < n
      invariant 0 <= i && (i == 0 || i <= n)
      invariant forall r, c :: 0 <= r < i && 0 <= c < m ==> ret.mat[r, c] == RowTimesColumn(a.mat, b.mat, r, c, p)
    {
      var j := 0;
      while j < m
        invariant 0 <= j && (j == 0 || j <= m)
        invariant forall r, c :: 0 <= r < i && 0 <= c < m ==> ret.mat[r, c] == RowTimesColumn(a.mat, b.mat, r, c, p)
        invariant forall c :: 0 <= c < j ==> ret.mat[i, c] == RowTimesColumn(a.mat, b.mat, i, c, p)
      {
        SumInto(a.mat, b.mat, ret.mat, i, j, p);
        j := j + 1;
      }
      i := i + 1;
    }
  }

  /** The innermost loop of the product: sets cell (i, j) of ret to 0 and adds
      the p products a[i, k] * b[k, j] into it, leaving every other cell alone. */
  method SumInto(a: array2<real>, b: array2<real>, ret: array2<real>, i: int, j: int, p: int)
    requires a.Length0 == Size && a.Length1 == Size && b.Length0 == Size && b.Length1 == Size
    requires ret.Length0 == Size && ret.Length1 == Size && ret != a && ret != b
    requires 0 <= i < Size && 0 <= j < Size && p <= Size
    modifies ret
    ensures ret[i, j] == RowTimesColumn(a, b, i, j, p)
    ensures forall r, c :: 0 <= r < Size && 0 <= c < Size && (r, c) != (i, j) ==> ret[r, c] == old(ret[r, c])
  {
    ret[i, j] := 0.0;
    var k := 0;
    while k < p
      invariant 0 <= k && (k == 0 || k <= p)
      invariant ret[i, j] == RowTimesColumn(a, b, i, j, k)
      invariant forall r, c :: 0 <= r < Size && 0 <= c < Size && (r, c) != (i, j) ==> ret[r, c] == old(ret[r, c])
    {
      ret[i, j] := ret[i, j] + a[i, k] * b[k, j];
      k := k + 1;
    }
  }

  // ---------------------------------------------------------------------
  // The view: reference point, normal and centre of projection
  // ---------------------------------------------------------------------

  datatype Vec3 = Vec3(x: real, y: real, z: real)

  /** A homogeneous point (x, y, z, w). */
  datatype Vec4 = Vec4(x: real, y: real, z: real, w: real)

  function Dot(u: Vec3, v: Vec3): real {
    u.x * v.x + u.y * v.y + u.z * v.z
  }

  /** The view plane through `reference` with normal `normal`, and the centre of
      projection (a, b, c): the globals x0, y0, z0, n1, n2, n3, a, b, c. */
  datatype View = View(reference: Vec3, normal: Vec3, centre: Vec3)

  /** d0: the reference point against the normal; the plane is n . P == d0. */
  function D0(v: View): real {
    Dot(v.reference, v.normal)
  }

  /** d1: the centre of projection against the normal. */
  function D1(v: View): real {
    Dot(v.centre, v.normal)
  }

  /** d = d0 - d1. */
  function D(v: View): real {
    D0(v) - D1(v)
  }

  /** The cell (i, j) the perspective matrix gets, for i, j < 4, with (a, b, c)
      the centre of projection and (n1, n2, n3) the normal. */
  function PerspectiveEntry(v: View, i: int, j: int): real
    requires 0 <= i < 4 && 0 <= j < 4
  {
    var a, b, c := v.centre.x, v.centre.y, v.centre.z;
    var n1, n2, n3 := v.normal.x, v.normal.y, v.normal.z;
    match (i, j)
    case (0, 0) => D(v) + a * n1
    case (0, 1) => a * n2
    case (0, 2) => a * n3
    case (0, 3) => -a * D0(v)
    case (1, 0) => b * n1
    case (1, 1) => D(v) + b * n2
    case (1, 2) => b * n3
    case (1, 3) => -b * D0(v)
    case (2, 0) => c * n1
    case (2, 1) => c * n2
    case (2, 2) => D(v) + c * n3
    case (2, 3) => -c * D0(v)
    case (3, 0) => n1
    case (3, 1) => n2
    case (3, 2) => n3
    case (3, 3) => -D1(v)
  }

  /** Row i of the perspective matrix times the homogeneous column (P, 1),
      summed from column 0 upward as the matrix product does. */
  function PerspectiveRow(v: View, i: int, p: Vec3): real
    requires 0 <= i < 4
  {
    0.0 + PerspectiveEntry(v, i, 0) * p.x + PerspectiveEntry(v, i, 1) * p.y
        + PerspectiveEntry(v, i, 2) * p.z + PerspectiveEntry(v, i, 3) * 1.0
  }

  /** The perspective matrix's image of the point P, in homogeneous coordinates. */
  function PerspectiveImage(v: View, p: Vec3): Vec4 {
    Vec4(PerspectiveRow(v, 0, p), PerspectiveRow(v, 1, p), PerspectiveRow(v, 2, p), PerspectiveRow(v, 3, p))
  }

  /** The homogeneous image of P is the point where the ray from the centre of
      projection C through P meets the view plane: its weight w is n . P - d1,
      its first three coordinates are d * (P - C) + w * C, so that after the
      division by w it lies on the line through C and P, and it satisfies the
      plane's equation n . Q == d0 * w. */
  lemma PerspectiveProjects(v: View, p: Vec3)
    ensures var h := PerspectiveImage(v, p);
      && h.w == Dot(v.normal, p) - D1(v)
      && h.x == D(v) * (p.x - v.centre.x) + h.w * v.centre.x
      && h.y == D(v) * (p.y - v.centre.y) + h.w * v.centre.y
      && h.z == D(v) * (p.z - v.centre.z) + h.w * v.centre.z
      && Dot(v.normal, Vec3(h.x, h.y, h.z)) == D0(v) * h.w
  {
    var h := PerspectiveImage(v, p);
    PerspectiveRows(v, p);
    PlaneAlgebra(v, p, h);
  }

  /** Coordinate i of u (0 for x, 1 for y, 2 for z). */
  function Coord(u: Vec3, i: int): real
    requires 0 <= i < 3
  {
    if i == 0 then u.x else if i == 1 then u.y else u.z
  }

  /** Each of the first three rows applied to (P, 1) is d times P's coordinate
      plus the centre's coordinate times n . P - d0; the last row is n . P - d1. */
  lemma PerspectiveRows(v: View, p: Vec3)
    ensures PerspectiveRow(v, 0, p) == D(v) * p.x + v.centre.x * (Dot(v.normal, p) - D0(v))
    ensures PerspectiveRow(v, 1, p) == D(v) * p.y + v.centre.y * (Dot(v.normal, p) - D0(v))
    ensures PerspectiveRow(v, 2, p) == D(v) * p.z + v.centre.z * (Dot(v.normal, p) - D0(v))
    ensures PerspectiveRow(v, 3, p) == Dot(v.normal, p) - D1(v)
  {
    CentreRow(v, p, 0);
    CentreRow(v, p, 1);
    CentreRow(v, p, 2);
  }

  /** Row i < 3 of the perspective matrix applied to (P, 1). */
  lemma CentreRow(v: View, p: Vec3, i: int)
    requires 0 <= i < 3
    ensures PerspectiveRow(v, i, p) == D(v) * Coord(p, i) + Coord(v.centre, i) * (Dot(v.normal, p) - D0(v))
  {
    var n1, n2, n3 := v.normal.x, v.normal.y, v.normal.z;
    var d, d0 := D(v), D0(v);
    var c := Coord(v.centre, i);
    var e0, e1, e2 := if i == 0 then d else 0.0, if i == 1 then d else 0.0, if i == 2 then d else 0.0;
    assert PerspectiveRow(v, i, p) == 0.0 + (e0 + c * n1) * p.x + (e1 + c * n2) * p.y + (e2 + c * n3) * p.z + -c * d0 * 1.0;
    RowAlgebra(e0 + c * n1, e1 + c * n2, e2 + c * n3, -c * d0, e0, e1, e2, c, v.normal, d0, p);
  }

  /** One row of the perspective matrix applied to (P, 1): its first three
      entries are a diagonal part plus the centre's coordinate ci times the
      normal, its last entry is -ci * d0. */
  lemma RowAlgebra(e0: real, e1: real, e2: real, e3: real, diag0: real, diag1: real, diag2: real,
                   ci: real, n: Vec3, d0: real, p: Vec3)
    requires e0 == diag0 + ci * n.x && e1 == diag1 + ci * n.y && e2 == diag2 + ci * n.z && e3 == -ci * d0
    ensures 0.0 + e0 * p.x + e1 * p.y + e2 * p.z + e3 * 1.0
            == diag0 * p.x + diag1 * p.y + diag2 * p.z + ci * (Dot(n, p) - d0)
  {
  }

  /** The plane equation of the image, given its four coordinates. */
  lemma PlaneAlgebra(v: View, p: Vec3, h: Vec4)
    requires h.x == D(v) * p.x + v.centre.x * (Dot(v.normal, p) - D0(v))
    requires h.y == D(v) * p.y + v.centre.y * (Dot(v.normal, p) - D0(v))
    requires h.z == D(v) * p.z + v.centre.z * (Dot(v.normal, p) - D0(v))
    requires h.w == Dot(v.normal, p) - D1(v)
    ensures h.x == D(v) * (p.x - v.centre.x) + h.w * v.centre.x
    ensures h.y == D(v) * (p.y - v.centre.y) + h.w * v.centre.y
    ensures h.z == D(v) * (p.z - v.centre.z) + h.w * v.centre.z
    ensures Dot(v.normal, Vec3(h.x, h.y, h.z)) == D0(v) * h.w
  {
  }

  /** A point already on the view plane is fixed: its image is (d * P, d). */
  lemma PerspectiveFixesPlane(v: View, p: Vec3)
    requires Dot(v.normal, p) == D0(v)
    ensures PerspectiveImage(v, p) == Vec4(D(v) * p.x, D(v) * p.y, D(v) * p.z, D(v))
  {
    PerspectiveProjects(v, p);
  }

  /** Fills pers with the perspective matrix of the view, after making it n x m
      (main asks for 4 x 4). Cells of the n x m block outside the 4 x 4 corner
      are zero; cells outside both are untouched. */
  method MakePerspectiveMat(n: int, m: int, v: View, pers: Matrix)
    requires pers.Valid() && n <= Size && m <= Size
    modifies pers, pers.mat
    ensures pers.Valid() && pers.n == n && pers.m == m
    ensures forall i, j :: 0 <= i < 4 && 0 <= j < 4 ==> pers.mat[i, j] == PerspectiveEntry(v, i, j)
    ensures forall i, j :: 0 <= i < Size && 0 <= j < Size && !(i < 4 && j < 4) ==>
              pers.mat[i, j] == if i < n && j < m then 0.0 else old(pers.mat[i, j])
  {
    Nullify(n, m, pers);
    SetPerspectiveCells(v, pers);
  }

  /** The sixteen cell assignments of make_perspective_mat. */
  method SetPerspectiveCells(v: View, pers: Matrix)
    requires pers.Valid()
    modifies pers.mat
    ensures forall i, j :: 0 <= i < 4 && 0 <= j < 4 ==> pers.mat[i, j] == PerspectiveEntry(v, i, j)
    ensures forall i, j :: 0 <= i < Size && 0 <= j < Size && !(i < 4 && j < 4) ==> pers.mat[i, j] == old(pers.mat[i, j])
  {
    var a, b, c := v.centre.x, v.centre.y, v.centre.z;
    var n1, n2, n3 := v.normal.x, v.normal.y, v.normal.z;
    var d, d0, d1 := D(v), D0(v), D1(v);

    pers.mat[0, 0] := d + a * n1;
    pers.mat[0, 1] := a * n2;
    pers.mat[0, 2] := a * n3;
    pers.mat[0, 3] := -a * d0;

    pers.mat[1, 0] := b * n1;
    pers.mat[1, 1] := d + b * n2;
    pers.mat[1, 2] := b * n3;
    pers.mat[1, 3] := -b * d0;

    pers.mat[2, 0] := c * n1;
    pers.mat[2, 1] := c * n2;
    pers.mat[2, 2] := d + c * n3;
    pers.mat[2, 3] := -c * d0;

    pers.mat[3, 0] := n1;
    pers.mat[3, 1] := n2;
    pers.mat[3, 2] := n3;
    pers.mat[3, 3] := -d1;

    PerspectiveCells(pers.mat, v);
  }

  /** The sixteen cells, one by one, give the whole 4 x 4 corner. */
  lemma PerspectiveCells(mat: array2<real>, v: View)
    requires mat.Length0 == Size && mat.Length1 == Size
    requires mat[0, 0] == PerspectiveEntry(v, 0, 0) && mat[0, 1] == PerspectiveEntry(v, 0, 1)
    requires mat[0, 2] == PerspectiveEntry(v, 0, 2) && mat[0, 3] == PerspectiveEntry(v, 0, 3)
    requires mat[1, 0] == PerspectiveEntry(v, 1, 0) && mat[1, 1] == PerspectiveEntry(v, 1, 1)
    requires mat[1, 2] == PerspectiveEntry(v, 1, 2) && mat[1, 3] == PerspectiveEntry(v, 1, 3)
    requires mat[2, 0] == PerspectiveEntry(v, 2, 0) && mat[2, 1] == PerspectiveEntry(v, 2, 1)
    requires mat[2, 2] == PerspectiveEntry(v, 2, 2) && mat[2, 3] == PerspectiveEntry(v, 2, 3)
    requires mat[3, 0] == PerspectiveEntry(v, 3, 0) && mat[3, 1] == PerspectiveEntry(v, 3, 1)
    requires mat[3, 2] == PerspectiveEntry(v, 3, 2) && mat[3, 3] == PerspectiveEntry(v, 3, 3)
    ensures forall i, j :: 0 <= i < 4 && 0 <= j < 4 ==> mat[i, j] == PerspectiveEntry(v, i, j)
  {
  }

  // ---------------------------------------------------------------------
  // The box: its vertex matrix and its edges
  // ---------------------------------------------------------------------

  function Min(a: int, b: int): int { if a < b then a else b }
  function Max(a: int, b: int): int { if a < b then b else a }

  /** Which corner column j (j < 8) of the vertex matrix holds: for each of
      x, y, z, true selects the maximum and false the minimum. */
  function CornerBits(j: int): (bool, bool, bool)
    requires 0 <= j < 8
  {
    match j
    case 0 => (false, false, false)
    case 1 => (true, false, false)
    case 2 => (true, true, false)
    case 3 => (false, true, false)
    case 4 => (false, true, true)
    case 5 => (false, false, true)
    case 6 => (true, false, true)
    case 7 => (true, true, true)
  }

  /** The box spanned by two opposite corners, as (low, high) per coordinate. */
  datatype Box = Box(lo: Vec3, hi: Vec3)

  /** The box main builds from the two diagonal points it reads. */
  function BoxOf(x1: int, y1: int, z1: int, x2: int, y2: int, z2: int): (box: Box)
    ensures box.lo.x <= box.hi.x && box.lo.y <= box.hi.y && box.lo.z <= box.hi.z
    ensures {box.lo.x, box.hi.x} == {x1 as real, x2 as real}
    ensures {box.lo.y, box.hi.y} == {y1 as real, y2 as real}
    ensures {box.lo.z, box.hi.z} == {z1 as real, z2 as real}
  {
    Box(Vec3(Min(x1, x2) as real, Min(y1, y2) as real, Min(z1, z2) as real),
        Vec3(Max(x1, x2) as real, Max(y1, y2) as real, Max(z1, z2) as real))
  }

  /** The corner of the box held in column j. */
  function Corner(box: Box, j: int): (p: Vec3)
    requires 0 <= j < 8
    ensures p.x in {box.lo.x, box.hi.x} && p.y in {box.lo.y, box.hi.y} && p.z in {box.lo.z, box.hi.z}
  {
    var (hx, hy, hz) := CornerBits(j);
    Vec3(if hx then box.hi.x else box.lo.x, if hy then box.hi.y else box.lo.y, if hz then box.hi.z else box.lo.z)
  }

  /** The eight columns hold eight different corner choices, so every corner of
      the box appears exactly once. */
  lemma CornerBitsDistinct(j: int, k: int)
    requires 0 <= j < 8 && 0 <= k < 8 && j != k
    ensures CornerBits(j) != CornerBits(k)
  {
  }

  /** Every choice of low/high per coordinate is some column. */
  lemma EveryCornerHasAColumn(hx: bool, hy: bool, hz: bool)
    ensures exists j :: 0 <= j < 8 && CornerBits(j) == (hx, hy, hz)
  {
    var j := if !hy then (if !hz then (if hx then 1 else 0) else (if hx then 6 else 5))
             else (if !hz then (if hx then 2 else 3) else (if hx then 7 else 4));
    assert CornerBits(j) == (hx, hy, hz);
  }

  /** When the two diagonal points differ in every coordinate, the eight columns
      are eight pairwise distinct points. */
  lemma CornersDistinct(box: Box, j: int, k: int)
    requires box.lo.x < box.hi.x && box.lo.y < box.hi.y && box.lo.z < box.hi.z
    requires 0 <= j < 8 && 0 <= k < 8 && j != k
    ensures Corner(box, j) != Corner(box, k)
  {
    CornerBitsDistinct(j, k);
  }

  /** Column j of mat holds the point p over a final 1. */
  ghost predicate ColumnHolds(mat: array2<real>, j: int, p: Vec3)
    requires mat.Length0 == Size && mat.Length1 == Size && 0 <= j < Size
    reads mat
  {
    mat[0, j] == p.x && mat[1, j] == p.y && mat[2, j] == p.z && mat[3, j] == 1.0
  }

  /** Fills v with the 4 x 8 homogeneous vertex matrix of the box with diagonal
      (x1, y1, z1)-(x2, y2, z2): column j is Corner(box, j) over a final 1. */
  method BuildVertexMatrix(x1: int, y1: int, z1: int, x2: int, y2: int, z2: int, v: Matrix)
    requires v.Valid()
    modifies v, v.mat
    ensures v.Valid() && v.n == 4 && v.m == 8
    ensures forall j :: 0 <= j < 8 ==> ColumnHolds(v.mat, j, Corner(BoxOf(x1, y1, z1, x2, y2, z2), j))
    ensures forall i, j :: 0 <= i < Size && 0 <= j < Size && !(i < 4 && j < 8) ==> v.mat[i, j] == old(v.mat[i, j])
  {
    Nullify(4, 8, v);
    SetVertexCells(x1, y1, z1, x2, y2, z2, v);
  }

  /** The thirty-two cell assignments that lay the corners out column by column. */
  method SetVertexCells(x1: int, y1: int, z1: int, x2: int, y2: int, z2: int, v: Matrix)
    requires v.Valid()
    modifies v.mat
    ensures forall j :: 0 <= j < 8 ==> ColumnHolds(v.mat, j, Corner(BoxOf(x1, y1, z1, x2, y2, z2), j))
    ensures forall i, j :: 0 <= i < Size && 0 <= j < Size && !(i < 4 && j < 8) ==> v.mat[i, j] == old(v.mat[i, j])
  {
    var xmin := Min(x1, x2) as real;
    var xmax := Max(x1, x2) as real;
    var ymin := Min(y1, y2) as real;
    var ymax := Max(y1, y2) as real;
    var zmin := Min(z1, z2) as real;
    var zmax := Max(z1, z2) as real;

    Assign4(v.mat, 0, 0, 3, 4, 5, xmin);
    Assign4(v.mat, 0, 1, 2, 6, 7, xmax);
    Assign4(v.mat, 1, 0, 1, 5, 6, ymin);
    Assign4(v.mat, 1, 2, 3, 4, 7, ymax);
    Assign4(v.mat, 2, 0, 1, 2, 3, zmin);
    Assign4(v.mat, 2, 4, 5, 6, 7, zmax);
    Assign4(v.mat, 3, 0, 1, 2, 3, 1.0);
    Assign4(v.mat, 3, 4, 5, 6, 7, 1.0);

    var box := BoxOf(x1, y1, z1, x2, y2, z2);
    assert box == Box(Vec3(xmin, ymin, zmin), Vec3(xmax, ymax, zmax));
    assert ColumnHolds(v.mat, 0, Vec3(xmin, ymin, zmin)) && ColumnHolds(v.mat, 1, Vec3(xmax, ymin, zmin));
    assert ColumnHolds(v.mat, 2, Vec3(xmax, ymax, zmin)) && ColumnHolds(v.mat, 3, Vec3(xmin, ymax, zmin));
    assert ColumnHolds(v.mat, 4, Vec3(xmin, ymax, zmax)) && ColumnHolds(v.mat, 5, Vec3(xmin, ymin, zmax));
    assert ColumnHolds(v.mat, 6, Vec3(xmax, ymin, zmax)) && ColumnHolds(v.mat, 7, Vec3(xmax, ymax, zmax));
    VertexColumns(v.mat, box);
  }

  /** The chained assignment mat[r][c0] = mat[r][c1] = mat[r][c2] = mat[r][c3] = x. */
  method Assign4(mat: array2<real>, r: int, c0: int, c1: int, c2: int, c3: int, x: real)
    requires mat.Length0 == Size && mat.Length1 == Size
    requires 0 <= r < Size && 0 <= c0 < Size && 0 <= c1 < Size && 0 <= c2 < Size && 0 <= c3 < Size
    modifies mat
    ensures mat[r, c0] == x && mat[r, c1] == x && mat[r, c2] == x && mat[r, c3] == x
    ensures forall i, j :: 0 <= i < Size && 0 <= j < Size && !(i == r && (j == c0 || j == c1 || j == c2 || j == c3)) ==>
              mat[i, j] == old(mat[i, j])
  {
    mat[r, c3] := x;
    mat[r, c2] := x;
    mat[r, c1] := x;
    mat[r, c0] := x;
  }

  /** The eight columns, one by one, give the whole vertex matrix. */
  lemma VertexColumns(mat: array2<real>, box: Box)
    requires mat.Length0 == Size && mat.Length1 == Size
    requires ColumnHolds(mat, 0, Corner(box, 0)) && ColumnHolds(mat, 1, Corner(box, 1))
    requires ColumnHolds(mat, 2, Corner(box, 2)) && ColumnHolds(mat, 3, Corner(box, 3))
    requires ColumnHolds(mat, 4, Corner(box, 4)) && ColumnHolds(mat, 5, Corner(box, 5))
    requires ColumnHolds(mat, 6, Corner(box, 6)) && ColumnHolds(mat, 7, Corner(box, 7))
    ensures forall j :: 0 <= j < 8 ==> ColumnHolds(mat, j, Corner(box, j))
  {
  }

  /** The pairs of columns joined by a line when the projection is drawn. */
  const DrawnEdges: seq<(int, int)> :=
    [(0, 1), (0, 5), (0, 3), (1, 6), (1, 2), (2, 3), (4, 3), (4, 5), (6, 5), (6, 7), (4, 7), (2, 7)]

  /** Columns j and k hold corners that differ in exactly one coordinate. */
  predicate AdjacentCorners(j: int, k: int)
    requires 0 <= j < 8 && 0 <= k < 8
  {
    var (ax, ay, az) := CornerBits(j);
    var (hx, hy, hz) := CornerBits(k);
    (if ax != hx then 1 else 0) + (if ay != hy then 1 else 0) + (if az != hz then 1 else 0) == 1
  }

  /** Every drawn pair joins two corners that differ in exactly one coordinate. */
  lemma DrawnEdgesAreEdges()
    ensures |DrawnEdges| == 12
    ensures forall t :: 0 <= t < |DrawnEdges| ==>
              0 <= DrawnEdges[t].0 < 8 && 0 <= DrawnEdges[t].1 < 8 && AdjacentCorners(DrawnEdges[t].0, DrawnEdges[t].1)
  {
  }

  /** No pair is drawn twice, in either orientation. */
  lemma DrawnEdgesDistinct()
    ensures forall t, u :: 0 <= t < u < |DrawnEdges| ==>
              DrawnEdges[t] != DrawnEdges[u] && DrawnEdges[t] != (DrawnEdges[u].1, DrawnEdges[u].0)
  {
  }

  /** Conversely, every pair of adjacent corners is drawn: the table is exactly
      the twelve edges of the box. */
  lemma EveryEdgeIsDrawn(j: int, k: int)
    requires 0 <= j < 8 && 0 <= k < 8 && AdjacentCorners(j, k)
    ensures (j, k) in DrawnEdges || (k, j) in DrawnEdges
  {
  }

  /** A 2-D line from (x1, y1) to (x2, y2), as handed to the drawing routine. */
  datatype Line2 = Line2(x1: real, y1: real, x2: real, y2: real)

  /** The lines projection() draws: for each pair (j, k) of the edge table, the
      line between rows 0 and 1 of result's columns j and k. The coordinates are
      taken as they are, without dividing by the homogeneous row 3. */
  method DrawnLines(result: Matrix) returns (lines: seq<Line2>)
    requires result.Valid()
    ensures |lines| == |DrawnEdges|
    ensures forall t :: 0 <= t < |DrawnEdges| ==>
              var (j, k) := DrawnEdges[t];
              lines[t] == Line2(result.mat[0, j], result.mat[1, j], result.mat[0, k], result.mat[1, k])
  {
    lines := [];
    for t := 0 to |DrawnEdges|
      invariant |lines| == t
      invariant forall s :: 0 <= s < t ==>
                  var (j, k) := DrawnEdges[s];
                  lines[s] == Line2(result.mat[0, j], result.mat[1, j], result.mat[0, k], result.mat[1, k])
    {
      var (j, k) := DrawnEdges[t];
      lines := lines + [Line2(result.mat[0, j], result.mat[1, j], result.mat[0, k], result.mat[1, k])];
    }
  }

  /** Multiplying the perspective matrix by a column holding (P, 1) gives the
      homogeneous image of P. */
  lemma ProductColumn(a: array2<real>, b: array2<real>, v: View, j: int, p: Vec3)
    requires a.Length0 == Size && a.Length1 == Size && b.Length0 == Size && b.Length1 == Size
    requires 0 <= j < Size
    requires forall i, k :: 0 <= i < 4 && 0 <= k < 4 ==> a[i, k] == PerspectiveEntry(v, i, k)
    requires ColumnHolds(b, j, p)
    ensures PerspectiveImage(v, p)
            == Vec4(RowTimesColumn(a, b, 0, j, 4), RowTimesColumn(a, b, 1, j, 4),
                    RowTimesColumn(a, b, 2, j, 4), RowTimesColumn(a, b, 3, j, 4))
  {
    forall i | 0 <= i < 4
      ensures RowTimesColumn(a, b, i, j, 4) == PerspectiveRow(v, i, p)
    {
      ProductEntry(a, b, v, i, j, p);
    }
  }

  /** Row i of the perspective matrix times a column holding (P, 1). */
  lemma ProductEntry(a: array2<real>, b: array2<real>, v: View, i: int, j: int, p: Vec3)
    requires a.Length0 == Size && a.Length1 == Size && b.Length0 == Size && b.Length1 == Size
    requires 0 <= i < 4 && 0 <= j < Size
    requires a[i, 0] == PerspectiveEntry(v, i, 0) && a[i, 1] == PerspectiveEntry(v, i, 1)
    requires a[i, 2] == PerspectiveEntry(v, i, 2) && a[i, 3] == PerspectiveEntry(v, i, 3)
    requires ColumnHolds(b, j, p)
    ensures RowTimesColumn(a, b, i, j, 4) == PerspectiveRow(v, i, p)
  {
    FourTerms(a, b, i, j);
  }

  /** A product entry over four terms, written out. */
  lemma FourTerms(a: array2<real>, b: array2<real>, i: int, j: int)
    requires a.Length0 == Size && a.Length1 == Size && b.Length0 == Size && b.Length1 == Size
    requires 0 <= i < Size && 0 <= j < Size
    ensures RowTimesColumn(a, b, i, j, 4)
            == 0.0 + a[i, 0] * b[0, j] + a[i, 1] * b[1, j] + a[i, 2] * b[2, j] + a[i, 3] * b[3, j]
  {
    var t0, t1, t2, t3 := a[i, 0] * b[0, j], a[i, 1] * b[1, j], a[i, 2] * b[2, j], a[i, 3] * b[3, j];
    assert RowTimesColumn(a, b, i, j, 0) == 0.0;
    var s1 := RowTimesColumn(a, b, i, j, 1);
    var s2 := RowTimesColumn(a, b, i, j, 2);
    var s3 := RowTimesColumn(a, b, i, j, 3);
    assert s1 == RowTimesColumn(a, b, i, j, 0) + t0;
    assert s2 == s1 + t1;
    assert s3 == s2 + t2;
    assert RowTimesColumn(a, b, i, j, 4) == s3 + t3;
  }

  /** The 2-D line between the images of corners j and k, taken from the first
      two homogeneous coordinates as projection() does. */
  function ImageLine(view: View, box: Box, j: int, k: int): Line2
    requires 0 <= j < 8 && 0 <= k < 8
  {
    var hj, hk := PerspectiveImage(view, Corner(box, j)), PerspectiveImage(view, Corner(box, k));
    Line2(hj.x, hj.y, hk.x, hk.y)
  }

  /** What the drawing of the product shows: when result's columns are the
      images of the box's corners, every drawn line joins the images of two
      adjacent corners, and every edge of the box is drawn in one orientation. */
  lemma DrawnLinesAreProjectedEdges(view: View, box: Box, result: Matrix, lines: seq<Line2>)
    requires result.Valid()
    requires forall j :: 0 <= j < 8 ==>
               PerspectiveImage(view, Corner(box, j))
               == Vec4(result.mat[0, j], result.mat[1, j], result.mat[2, j], result.mat[3, j])
    requires |lines| == |DrawnEdges|
    requires forall t :: 0 <= t < |DrawnEdges| ==>
               var (j, k) := DrawnEdges[t];
               lines[t] == Line2(result.mat[0, j], result.mat[1, j], result.mat[0, k], result.mat[1, k])
    ensures forall t :: 0 <= t < |lines| ==>
              exists j, k :: 0 <= j < 8 && 0 <= k < 8 && AdjacentCorners(j, k) && lines[t] == ImageLine(view, box, j, k)
    ensures forall j, k :: 0 <= j < 8 && 0 <= k < 8 && AdjacentCorners(j, k) ==>
              exists t :: 0 <= t < |lines| && (lines[t] == ImageLine(view, box, j, k) || lines[t] == ImageLine(view, box, k, j))
  {
    DrawnEdgesAreEdges();
    forall t | 0 <= t < |lines|
      ensures exists j, k :: 0 <= j < 8 && 0 <= k < 8 && AdjacentCorners(j, k) && lines[t] == ImageLine(view, box, j, k)
    {
      var (j, k) := DrawnEdges[t];
      assert lines[t] == ImageLine(view, box, j, k);
    }
    forall j, k | 0 <= j < 8 && 0 <= k < 8 && AdjacentCorners(j, k)
      ensures exists t :: 0 <= t < |lines| && (lines[t] == ImageLine(view, box, j, k) || lines[t] == ImageLine(view, box, k, j))
    {
      EveryEdgeIsDrawn(j, k);
      var t :| 0 <= t < |DrawnEdges| && (DrawnEdges[t] == (j, k) || DrawnEdges[t] == (k, j));
      if DrawnEdges[t] == (j, k) {
        assert lines[t] == ImageLine(view, box, j, k);
      } else {
        assert lines[t] == ImageLine(view, box, k, j);
      }
    }
  }

  // ---------------------------------------------------------------------
  // The computation main performs between reading its input and drawing
  // ---------------------------------------------------------------------

  /** Builds the 4 x 4 perspective matrix, the 4 x 8 vertex matrix of the box
      with diagonal (x1, y1, z1)-(x2, y2, z2), and their product. Column j of
      the result is the homogeneous perspective image of corner j. */
  method ProjectBox(view: View, x1: int, y1: int, z1: int, x2: int, y2: int, z2: int,
                    pers: Matrix, v: Matrix) returns (result: Matrix)
    requires pers.Valid() && v.Valid() && pers != v && pers.mat != v.mat
    modifies pers, pers.mat, v, v.mat
    ensures pers.Valid() && pers.n == 4 && pers.m == 4
    ensures forall i, j :: 0 <= i < 4 && 0 <= j < 4 ==> pers.mat[i, j] == PerspectiveEntry(view, i, j)
    ensures v.Valid() && v.n == 4 && v.m == 8
    ensures forall j :: 0 <= j < 8 ==> ColumnHolds(v.mat, j, Corner(BoxOf(x1, y1, z1, x2, y2, z2), j))
    ensures result.Valid() && fresh(result)
    ensures forall j :: 0 <= j < 8 ==>
              PerspectiveImage(view, Corner(BoxOf(x1, y1, z1, x2, y2, z2), j))
              == Vec4(result.mat[0, j], result.mat[1, j], result.mat[2, j], result.mat[3, j])
  {
    MakePerspectiveMat(4, 4, view, pers);
    BuildVertexMatrix(x1, y1, z1, x2, y2, z2, v);
    result := MatMult(pers, v);
    var box := BoxOf(x1, y1, z1, x2, y2, z2);
    forall j | 0 <= j < 8
      ensures PerspectiveImage(view, Corner(box, j))
              == Vec4(result.mat[0, j], result.mat[1, j], result.mat[2, j], result.mat[3, j])
    {
      ProductColumn(pers.mat, v.mat, view, j, Corner(box, j));
    }
  }
}
