/** Vectors and square matrices over exact reals, as far as the LinUCB bandit needs them. */
module LinearAlgebra {
  import opened Reals

  type Vec = seq<real>
  type Matrix = seq<Vec>

  function Dot(a: Vec, b: Vec): real
    requires |a| == |b|
  {
    if a == [] then 0.0 else Mul(a[0], b[0]) + Dot(a[1..], b[1..])
  }

  function Add(a: Vec, b: Vec): Vec
    requires |a| == |b|
  {
    seq(|a|, i requires 0 <= i < |a| => a[i] + b[i])
  }

  function Scale(k: real, a: Vec): Vec {
    seq(|a|, i requires 0 <= i < |a| => Mul(k, a[i]))
  }

  function Sub(a: Vec, b: Vec): Vec
    requires |a| == |b|
  {
    seq(|a|, i requires 0 <= i < |a| => a[i] - b[i])
  }

  function Zeros(n: nat): Vec {
    seq(n, _ => 0.0)
  }

  function Unit(n: nat, i: nat): Vec {
    seq(n, j => if j == i then 1.0 else 0.0)
  }

  predicate Square(m: Matrix, n: nat) {
    |m| == n && forall i :: 0 <= i < n ==> |m[i]| == n
  }

  function Identity(n: nat): (m: Matrix)
    ensures Square(m, n)
  {
    seq(n, i requires 0 <= i < n => Unit(n, i))
  }

  /** x @ x.T */
  function Outer(x: Vec): (m: Matrix)
    ensures Square(m, |x|)
  {
    seq(|x|, i requires 0 <= i < |x| => Scale(x[i], x))
  }

  function AddMatrix(m: Matrix, k: Matrix, n: nat): (r: Matrix)
    requires Square(m, n) && Square(k, n)
    ensures Square(r, n)
  {
    seq(n, i requires 0 <= i < n => Add(m[i], k[i]))
  }

  function Times(m: Matrix, z: Vec): (r: Vec)
    requires Square(m, |z|)
    ensures |r| == |z|
  {
    seq(|m|, i requires 0 <= i < |m| => Dot(m[i], z))
  }

  lemma {:induction false} DotCommutes(a: Vec, b: Vec)
    requires |a| == |b|
    ensures Dot(a, b) == Dot(b, a)
  {
    if a != [] {
      MulCommutes(a[0], b[0]);
      DotCommutes(a[1..], b[1..]);
    }
  }

  lemma Distribute(k: real, a: real, b: real)
    ensures Mul(k, a + b) == Mul(k, a) + Mul(k, b) && Mul(k, a - b) == Mul(k, a) - Mul(k, b)
    ensures Mul(a + b, k) == Mul(a, k) + Mul(b, k) && Mul(a - b, k) == Mul(a, k) - Mul(b, k)
  {
  }

  lemma Factor(k: real, a: real, b: real, rest: real)
    ensures Mul(Mul(k, a), b) + Mul(k, rest) == Mul(k, Mul(a, b) + rest)
  {
  }

  lemma MulCommutes(a: real, b: real)
    ensures Mul(a, b) == Mul(b, a)
  {
  }

  lemma {:induction false} DotAdd(a: Vec, b: Vec, c: Vec)
    requires |a| == |b| == |c|
    ensures Dot(Add(a, b), c) == Dot(a, c) + Dot(b, c)
    ensures Dot(c, Add(a, b)) == Dot(c, a) + Dot(c, b)
  {
    if a != [] {
      DotAdd(a[1..], b[1..], c[1..]);
      assert Add(a, b)[1..] == Add(a[1..], b[1..]);
      Distribute(c[0], a[0], b[0]);
    }
  }

  lemma {:induction false} DotSub(a: Vec, b: Vec, c: Vec)
    requires |a| == |b| == |c|
    ensures Dot(Sub(a, b), c) == Dot(a, c) - Dot(b, c)
    ensures Dot(c, Sub(a, b)) == Dot(c, a) - Dot(c, b)
  {
    if a != [] {
      DotSub(a[1..], b[1..], c[1..]);
      assert Sub(a, b)[1..] == Sub(a[1..], b[1..]);
      Distribute(c[0], a[0], b[0]);
    }
  }

  lemma ScaleTail(k: real, a: Vec)
    requires a != []
    ensures Scale(k, a)[1..] == Scale(k, a[1..]) && Scale(k, a)[0] == Mul(k, a[0])
  {
  }

  lemma {:induction false} DotScale(k: real, a: Vec, c: Vec)
    requires |a| == |c|
    ensures Dot(Scale(k, a), c) == Mul(k, Dot(a, c)) && Dot(c, Scale(k, a)) == Mul(k, Dot(a, c))
  {
    DotCommutes(Scale(k, a), c);
    if a != [] {
      ScaleTail(k, a);
      DotScale(k, a[1..], c[1..]);
      Factor(k, a[0], c[0], Dot(a[1..], c[1..]));
    }
  }

  lemma {:induction false} DotZeros(a: Vec)
    ensures Dot(Zeros(|a|), a) == 0.0
  {
    if a != [] {
      DotZeros(a[1..]);
      assert Zeros(|a|)[1..] == Zeros(|a| - 1);
    }
  }

  lemma {:induction false} DotUnit(n: nat, i: nat, z: Vec)
    requires i < n == |z|
    ensures Dot(Unit(n, i), z) == z[i]
  {
    if i == 0 {
      assert Unit(n, 0)[1..] == Zeros(n - 1);
      DotZeros(z[1..]);
    } else {
      assert Unit(n, i)[1..] == Unit(n - 1, i - 1);
      DotUnit(n - 1, i - 1, z[1..]);
    }
  }

  lemma SquareZero(a: real)
    ensures Mul(a, a) >= 0.0 && (Mul(a, a) == 0.0 ==> a == 0.0)
  {
    if a > 0.0 {
      Positive(a, a);
    } else if a < 0.0 {
      Negative(a, a);
    }
  }

  lemma Positive(a: real, b: real)
    requires a > 0.0 && b > 0.0
    ensures Mul(a, b) > 0.0
  {
  }

  lemma Negative(a: real, b: real)
    requires a < 0.0 && b < 0.0
    ensures Mul(a, b) > 0.0
  {
  }

  /** A sum of squares is never negative, and zero only for the zero vector. */
  lemma {:induction false} SquareNorm(d: Vec)
    ensures Dot(d, d) >= 0.0
    ensures Dot(d, d) == 0.0 ==> d == Zeros(|d|)
  {
    if d != [] {
      SquareNorm(d[1..]);
      SquareZero(d[0]);
      if Dot(d, d) == 0.0 {
        assert d == [d[0]] + d[1..];
      }
    }
  }

  lemma TimesIdentity(z: Vec)
    ensures Times(Identity(|z|), z) == z
  {
    forall i | 0 <= i < |z| ensures Times(Identity(|z|), z)[i] == z[i] {
      DotUnit(|z|, i, z);
    }
  }

  lemma TimesAddMatrix(m: Matrix, k: Matrix, z: Vec)
    requires Square(m, |z|) && Square(k, |z|)
    ensures Times(AddMatrix(m, k, |z|), z) == Add(Times(m, z), Times(k, z))
  {
    forall i | 0 <= i < |z|
      ensures Times(AddMatrix(m, k, |z|), z)[i] == Add(Times(m, z), Times(k, z))[i]
    {
      DotAdd(m[i], k[i], z);
    }
  }

  lemma TimesOuter(x: Vec, z: Vec)
    requires |x| == |z|
    ensures Times(Outer(x), z) == Scale(Dot(x, z), x)
  {
    var k := Dot(x, z);
    forall i | 0 <= i < |z| ensures Times(Outer(x), z)[i] == Scale(k, x)[i] {
      DotScale(x[i], x, z);
      MulCommutes(x[i], k);
    }
  }
}
