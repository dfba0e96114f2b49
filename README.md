# Transformation and perspective projection, modelled in Dafny

This project models the computational core of two OpenGL demo programs
written in C++.

- **Transformation** (`transformation.dfy`, module `Transformation`).
  A program keeps a global vector of 2-D line segments. Its keyboard handler
  changes them in place:
  - 'w'/'s' translate up and down by the translation factor;
  - 'a'/'d' translate left and right by the translation factor;
  - '+' scales by the scaling factors and '-' by their reciprocals;
  - 'l'/'1' and 'r'/'2' rotate by plus or minus the rotation factor;
  - 'c' redraws;
  - Escape, 'q' and 'e' quit.

  The vector is a `LineSet` class holding an `array<Segment>`. Its methods
  `Translate`, `Scale`, `Rotate` and `Key` update that array with loops and
  are proved against the functions `Translated`, `Scaled` and `Rotated`. The
  inverse-pair round trips of the keys are lemmas about those functions.
- **Projection** (`projection.dfy`, module `Projection`).
  The source's `struct matrix` is a `Matrix` class: two dimensions over a
  10 x 10 array. The model covers:
  - `Nullify`, `MatMult` and `MakePerspectiveMat`;
  - the view quantities d0 = R . n, d1 = C . n and d = d0 - d1;
  - the 4 x 8 homogeneous vertex matrix of the box spanned by two diagonal
    points;
  - the table of the 12 vertex pairs that `projection()` draws.

  The main results:
  - the perspective matrix maps each point to where the ray from the centre of
    projection meets the view plane (in homogeneous form);
  - the 12 drawn pairs are exactly the 12 edges of the box;
  - column j of `pers x v` is the image of corner j.

C++ `double` is modelled as Dafny `real`, so rounding is abstracted away. The
round trips below hold exactly over the reals. In floating point they hold
only approximately.

## Model

| member | source | states |
|---|---|---|
| Transformation.Translated | Transformation/main.cpp:64-73 | the line set after a translation has the same number of lines, and line i is line i with tx added to both x coordinates and ty added to both y coordinates |
| Transformation.Scaled | Transformation/main.cpp:122-128 | the line set after scaling has the same number of lines, and line i has both x coordinates multiplied by sx and both y coordinates multiplied by sy |
| Transformation.Rotated | Transformation/main.cpp:98-111 | the line set after a rotation has the same number of lines, and each endpoint (x, y) of line i becomes (x*ac - y*as, x*as + y*ac) |
| Transformation.TranslateZero | Transformation/main.cpp:64-73 | translating by (0, 0) changes no line |
| Transformation.TranslateCompose | Transformation/main.cpp:64-73 | two successive translations equal one translation by the summed offsets |
| Transformation.TranslateInverse | Transformation/main.cpp:151-175 | Translate(tx, ty) followed by Translate(-tx, -ty) restores every line |
| Transformation.ScaleIdentity | Transformation/main.cpp:122-128 | scaling by (1, 1) changes no line |
| Transformation.ScaleInverse | Transformation/main.cpp:181-196 | when sx and sy are non-zero, Scale(sx, sy) followed by Scale(1/sx, 1/sy) restores every line |
| Transformation.ScaleAboutOrigin | Transformation/main.cpp:117-129 | with the reference point fixed at (0, 0), the translate-scale-translate-back bracketing is plain scaling about the origin |
| Transformation.RotateInverse | Transformation/main.cpp:93-111 | when ac^2 + as^2 = 1, rotating by (ac, as) and then by (ac, -as) restores every line |
| Transformation.KeyAction | Transformation/main.cpp:133-216 | a key quits exactly when it is Escape, 'q' or 'e', and every translation key moves along one axis only |
| Transformation.OppositeKeysRestore | Transformation/main.cpp:149-196 | pressing 'w' then 's', 's' then 'w', 'a' then 'd' or 'd' then 'a' leaves every line as it was, and so does '+' then '-' when the scale factors are non-zero |
| Transformation.TurnKeysRestore | Transformation/main.cpp:198-215 | pressing 'l' then 'r' leaves every line as it was, given only that the cosine and sine lie on the unit circle and that negating the angle negates the sine |
| Transformation.ZoomOutThenInRestores | Transformation/main.cpp:181-196 | when the scale factors are non-zero, pressing '-' then '+' leaves every line as it was |
| Transformation.LineSet.constructor | Transformation/main.cpp:295-299 | the line set starts as the given segments, with the given factors |
| Transformation.LineSet.Translate | Transformation/main.cpp:64-73 | the array afterwards is Translated of the array before, with nothing else changed |
| Transformation.LineSet.Scale | Transformation/main.cpp:114-130 | the array afterwards is Scaled of the array before, with nothing else changed |
| Transformation.LineSet.Rotate | Transformation/main.cpp:75-112 | the array afterwards is Rotated of the array before, using the cosine and sine of the angle |
| Transformation.LineSet.Key | Transformation/main.cpp:133-216 | the handler reports an exit exactly for Escape, 'q' and 'e', and leaves the lines as the key's command maps them |
| Projection.Matrix.constructor | Projection/main.cpp:13-17 | new storage is 10 x 10, with no promise about the dimensions or the cells |
| Projection.Nullify | Projection/main.cpp:21-28 | sets the dimensions to n x m, makes every cell (i, j) with i < n and j < m zero, and leaves every other cell unchanged |
| Projection.MatMult | Projection/main.cpp:87-103 | for every i < a.n and j < b.m, cell (i, j) of the result is the sum over k < b.n of a[i][k] * b[k][j]; the result's dimensions are not set |
| Projection.MakePerspectiveMat | Projection/main.cpp:62-85 | pers becomes n x m; its 4 x 4 corner holds the perspective entries, built from d0 = R . n, d1 = C . n and d = d0 - d1 (`D0`, `D1`, `D`, lines 183-190); the rest of the n x m block is zero and all other cells are unchanged |
| Projection.PerspectiveProjects | Projection/main.cpp:66-84 | the homogeneous image h of P has weight n . P - d1; its coordinates are d (P - C) + w C; it satisfies the view-plane equation n . h = d0 w |
| Projection.PerspectiveFixesPlane | Projection/main.cpp:183-190 | a point P on the view plane (n . P = d0) has image (d P, d): after dividing by the weight it stays where it is |
| Projection.BoxOf | Projection/main.cpp:197-202 | the box's low corner is at most its high corner in each coordinate, and each low/high pair is the pair of the two inputs |
| Projection.Corner | Projection/main.cpp:206-211 | each coordinate of corner j is the box's low or high value |
| Projection.EveryCornerHasAColumn | Projection/main.cpp:206-211 | every low/high choice per coordinate is held by some column j < 8 |
| Projection.CornersDistinct | Projection/main.cpp:206-211 | when the diagonal points differ in every coordinate, distinct columns hold distinct corners |
| Projection.BuildVertexMatrix | Projection/main.cpp:197-213 | v becomes 4 x 8; column j holds corner j over a 1; every cell outside the 4 x 8 block is unchanged |
| Projection.DrawnEdgesAreEdges | Projection/main.cpp:110-121 | the table has 12 pairs, and each pair joins columns whose corners differ in exactly one coordinate |
| Projection.DrawnEdgesDistinct | Projection/main.cpp:110-121 | no pair of columns is drawn twice, in either orientation |
| Projection.EveryEdgeIsDrawn | Projection/main.cpp:110-121 | every pair of corners that differ in exactly one coordinate is drawn, so the table is exactly the 12 edges of the box |
| Projection.DrawnLines | Projection/main.cpp:105-124 | for each table entry (j, k), the line runs from rows 0 and 1 of column j to rows 0 and 1 of column k |
| Projection.ProjectBox | Projection/main.cpp:183-215 | pers ends as the 4 x 4 perspective matrix of the view, v as the 4 x 8 vertex matrix of the box, and column j of pers x v is the homogeneous perspective image of corner j of the box |
| Projection.DrawnLinesAreProjectedEdges | Projection/main.cpp:105-124 | when the drawn matrix is the product main builds, every drawn line joins the images of two adjacent corners, and every edge of the box is drawn |

## Left out

- Drawing is not modelled. This covers `DrawLine`, `RedrawLines` (which also picks a colour with `rand()`), `glClear`, buffer swaps and window setup. Only the coordinates handed to the line-drawing call are modelled, in `DrawnLines`.
- Console input and output are not modelled. The factors, the lines, the view and the diagonal points are parameters. The loop that prints the result matrix is left out.
- The exit in the key handler is not a process exit. `LineSet.Key` returns a flag instead.
- Transformation.LineSet.Rotate: the cosine and sine of `angle * PI / 180` come from a parameter `trig`. The model claims nothing about trigonometry. `RotateInverse` assumes only that the two values satisfy ac^2 + as^2 = 1.
- Transformation.LineSet.Key: requires non-zero scale factors for '-'. The source divides by them there, and IEEE infinities and NaNs are not modelled.
- Projection.Nullify: requires n, m <= 10 in all cases. A larger dimension writes outside the 10 x 10 array only when the other dimension is positive; the model does not admit the harmless case of one dimension over 10 with the other at most 0. Negative dimensions are allowed, and then no cell is touched.
- Floating-point rounding is not modelled, because `double` is a `real` here.
- The homogeneous divide is not modelled because the source does not perform it: `projection()` draws rows 0 and 1 of the product as they are. `DrawnLines` keeps this behaviour, and `PerspectiveProjects` states the image in homogeneous form.
- `Animation/main.cpp` is not part of this model. It is GLUT window, lighting and rendering code with no separable logic.
- No polygon scanline fill is modelled: no such routine appears in the modelled sources.
