/** Affine maps of the plane, column vectors, as the editor and the renderer share them. */
module Affines {
  import opened Basics
  import opened Reals

  datatype Affine = Affine(a: real, b: real, c: real, d: real, e: real, f: real)
  datatype Point = Point(x: real, y: real)

  const IDENTITY := Affine(1.0, 0.0, 0.0, 1.0, 0.0, 0.0)

  function Row(a: real, c: real, e: real, x: real, y: real): real {
    a * x + c * y + e
  }

  function Dot(a: real, c: real, x: real, y: real): real {
    a * x + c * y
  }

  function Apply(m: Affine, p: Point): Point {
    Point(Row(m.a, m.c, m.e, p.x, p.y), Row(m.b, m.d, m.f, p.x, p.y))
  }

  function Compose(m: Affine, n: Affine): Affine {
    Affine(
      Dot(m.a, m.c, n.a, n.b),
      Dot(m.b, m.d, n.a, n.b),
      Dot(m.a, m.c, n.c, n.d),
      Dot(m.b, m.d, n.c, n.d),
      Row(m.a, m.c, m.e, n.e, n.f),
      Row(m.b, m.d, m.f, n.e, n.f))
  }

  function Det(m: Affine): real {
    m.a * m.d - m.b * m.c
  }

  /** A singular matrix is an error. */
  function Invert(m: Affine): Option<Affine> {
    var det := Det(m);
    if det == 0.0 then None
    else
      var a := Over(m.d, det);
      var b := Over(-m.b, det);
      var c := Over(-m.c, det);
      var d := Over(m.a, det);
      Some(Affine(a, b, c, d, -(a * m.e + c * m.f), -(b * m.e + d * m.f)))
  }

  lemma RowOfRows(
    a: real, c: real, e: real, na: real, nb: real, nc: real, nd: real, ne: real, nf: real, x: real, y: real)
    ensures Row(Dot(a, c, na, nb), Dot(a, c, nc, nd), Row(a, c, e, ne, nf), x, y) ==
            Row(a, c, e, Row(na, nc, ne, x, y), Row(nb, nd, nf, x, y))
  {
  }

  /** Composition applies its second argument first. */
  lemma ComposeApplies(m: Affine, n: Affine, p: Point)
    ensures Apply(Compose(m, n), p) == Apply(m, Apply(n, p))
  {
    hide Row, Dot;
    RowOfRows(m.a, m.c, m.e, n.a, n.b, n.c, n.d, n.e, n.f, p.x, p.y);
    RowOfRows(m.b, m.d, m.f, n.a, n.b, n.c, n.d, n.e, n.f, p.x, p.y);
  }

  lemma DotOver(x: real, z: real, y: real, w: real, det: real)
    requires det != 0.0
    ensures Dot(Over(x, det), Over(z, det), y, w) == Over(Dot(x, z, y, w), det)
    ensures Dot(y, w, Over(x, det), Over(z, det)) == Over(Dot(x, z, y, w), det)
  {
    assert (x / det) * y == (x * y) / det;
    assert (z / det) * w == (z * w) / det;
  }

  /** The rows of the adjugate against the columns of the matrix. */
  lemma Adjugate(m: Affine)
    ensures Dot(m.d, -m.c, m.a, m.b) == Det(m) && Dot(m.d, -m.c, m.c, m.d) == 0.0
    ensures Dot(-m.b, m.a, m.a, m.b) == 0.0 && Dot(-m.b, m.a, m.c, m.d) == Det(m)
    ensures Dot(m.d, -m.b, m.a, m.c) == Det(m) && Dot(-m.c, m.a, m.a, m.c) == 0.0
    ensures Dot(m.d, -m.b, m.b, m.d) == 0.0 && Dot(-m.c, m.a, m.b, m.d) == Det(m)
  {
  }

  /** `v` undoes the linear part of `m`, and `m` that of `v`. */
  predicate Inverts(v: Affine, m: Affine) {
    && Dot(v.a, v.c, m.a, m.b) == 1.0 && Dot(v.a, v.c, m.c, m.d) == 0.0
    && Dot(v.b, v.d, m.a, m.b) == 0.0 && Dot(v.b, v.d, m.c, m.d) == 1.0
  }

  lemma LeftInverse(m: Affine, v: Affine)
    requires Det(m) != 0.0 && v == Invert(m).value
    ensures Inverts(v, m)
  {
    hide Dot, Over, Det;
    var det := Det(m);
    Adjugate(m);
    OverItself(det);
    DotOver(m.d, -m.c, m.a, m.b, det);
    DotOver(m.d, -m.c, m.c, m.d, det);
    DotOver(-m.b, m.a, m.a, m.b, det);
    DotOver(-m.b, m.a, m.c, m.d, det);
  }

  lemma RightInverse(m: Affine, v: Affine)
    requires Det(m) != 0.0 && v == Invert(m).value
    ensures Inverts(m, v)
  {
    hide Dot, Over, Det;
    var det := Det(m);
    Adjugate(m);
    OverItself(det);
    DotOver(m.d, -m.b, m.a, m.c, det);
    DotOver(-m.c, m.a, m.a, m.c, det);
    DotOver(m.d, -m.b, m.b, m.d, det);
    DotOver(-m.c, m.a, m.b, m.d, det);
  }

  /** The inverse undoes the map, from either side. */
  lemma InvertUndoes(m: Affine, p: Point)
    requires Det(m) != 0.0
    ensures Apply(Invert(m).value, Apply(m, p)) == p
    ensures Apply(m, Apply(Invert(m).value, p)) == p
  {
    hide Apply, Compose, Inverts, Over, Det;
    var v := Invert(m).value;
    LeftInverse(m, v);
    RightInverse(m, v);
    ComposeApplies(v, m, p);
    ComposeApplies(m, v, p);
    LeftOffset(m, v);
    RightOffset(m, v);
    AppliesIdentity(Compose(v, m), p);
    AppliesIdentity(Compose(m, v), p);
  }

  lemma AppliesIdentity(m: Affine, p: Point)
    requires m == IDENTITY
    ensures Apply(m, p) == p
  {
  }

  lemma LeftOffset(m: Affine, v: Affine)
    requires Inverts(v, m) && v.e == -(v.a * m.e + v.c * m.f) && v.f == -(v.b * m.e + v.d * m.f)
    ensures Compose(v, m) == IDENTITY
  {
  }

  lemma RightOffset(m: Affine, v: Affine)
    requires Inverts(m, v) && v.e == -(v.a * m.e + v.c * m.f) && v.f == -(v.b * m.e + v.d * m.f)
    ensures Compose(m, v) == IDENTITY
  {
    OffsetCancels(m.a, m.c, m.e, v.a, v.b, v.c, v.d, m.e, m.f);
    OffsetCancels(m.b, m.d, m.f, v.a, v.b, v.c, v.d, m.e, m.f);
  }

  lemma OffsetCancels(a: real, c: real, g: real, va: real, vb: real, vc: real, vd: real, e: real, f: real)
    ensures Row(a, c, g, -(va * e + vc * f), -(vb * e + vd * f)) ==
            g - (Dot(a, c, va, vb) * e + Dot(a, c, vc, vd) * f)
  {
  }
}
