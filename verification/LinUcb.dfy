/** The LinUCB bandit of core/contextual_bandit.py over exact reals. */
module LinUcb {
  import opened LinearAlgebra
  import opened Reals
  import opened Wrappers

  type Arm = string

  /** One call of update: the context and the reward. */
  datatype Observation = Observation(x: Vec, reward: real)

  type History = seq<Observation>

  predicate Sized(h: History, n: nat) {
    forall k :: 0 <= k < |h| ==> |h[k].x| == n
  }

  /** The matrix A of an arm after these updates: the identity plus one x xT per update. */
  function GramMatrix(h: History, n: nat): (m: Matrix)
    requires Sized(h, n)
    ensures Square(m, n)
  {
    if h == [] then Identity(n)
    else AddMatrix(GramMatrix(h[..|h| - 1], n), Outer(h[|h| - 1].x), n)
  }

  /** The vector b of an arm after these updates. */
  function RewardVector(h: History, n: nat): (b: Vec)
    requires Sized(h, n)
    ensures |b| == n
  {
    if h == [] then Zeros(n)
    else Add(RewardVector(h[..|h| - 1], n), Scale(h[|h| - 1].reward, h[|h| - 1].x))
  }

  /** wT z plus the sum of (x_k w)(x_k z): what wT A z turns out to be. */
  function Form(h: History, w: Vec, z: Vec): real
    requires |w| == |z| && Sized(h, |z|)
  {
    if h == [] then Dot(w, z)
    else Form(h[..|h| - 1], w, z) + Mul(Dot(h[|h| - 1].x, w), Dot(h[|h| - 1].x, z))
  }

  lemma TimesGram(h: History, z: Vec)
    requires Sized(h, |z|) && h != []
    ensures var x := h[|h| - 1].x;
      Times(GramMatrix(h, |z|), z) == Add(Times(GramMatrix(h[..|h| - 1], |z|), z), Scale(Dot(x, z), x))
  {
    var x := h[|h| - 1].x;
    TimesAddMatrix(GramMatrix(h[..|h| - 1], |z|), Outer(x), z);
    TimesOuter(x, z);
  }

  /** The bilinear form of A is exactly Form, so zT A z = zT z + sum of (x_k z)^2. */
  lemma {:induction false} GramIsForm(h: History, w: Vec, z: Vec)
    requires |w| == |z| && Sized(h, |z|)
    ensures Dot(w, Times(GramMatrix(h, |z|), z)) == Form(h, w, z)
  {
    if h == [] {
      TimesIdentity(z);
    } else {
      var prior, x := h[..|h| - 1], h[|h| - 1].x;
      GramIsForm(prior, w, z);
      TimesGram(h, z);
      DotAdd(Times(GramMatrix(prior, |z|), z), Scale(Dot(x, z), x), w);
      DotScale(Dot(x, z), x, w);
      MulCommutes(Dot(x, w), Dot(x, z));
    }
  }

  lemma {:induction false} FormSymmetric(h: History, w: Vec, z: Vec)
    requires |w| == |z| && Sized(h, |z|)
    ensures Form(h, w, z) == Form(h, z, w)
  {
    if h == [] {
      DotCommutes(w, z);
    } else {
      FormSymmetric(h[..|h| - 1], w, z);
      MulCommutes(Dot(h[|h| - 1].x, w), Dot(h[|h| - 1].x, z));
    }
  }

  lemma {:induction false} FormSub(h: History, w: Vec, y: Vec, z: Vec)
    requires |w| == |y| == |z| && Sized(h, |z|)
    ensures Form(h, w, Sub(y, z)) == Form(h, w, y) - Form(h, w, z)
  {
    if h == [] {
      DotSub(y, z, w);
    } else {
      var x := h[|h| - 1].x;
      FormSub(h[..|h| - 1], w, y, z);
      DotSub(y, z, x);
      Distribute(Dot(x, w), Dot(x, y), Dot(x, z));
    }
  }

  /** A is at least the identity. */
  lemma {:induction false} FormDominatesNorm(h: History, z: Vec)
    requires Sized(h, |z|)
    ensures Form(h, z, z) >= Dot(z, z) >= 0.0
  {
    SquareNorm(z);
    if h != [] {
      FormDominatesNorm(h[..|h| - 1], z);
      SquareZero(Dot(h[|h| - 1].x, z));
    }
  }

  /** A is symmetric entry by entry. */
  lemma {:induction false} GramSymmetric(h: History, n: nat, i: nat, j: nat)
    requires Sized(h, n) && i < n && j < n
    ensures GramMatrix(h, n)[i][j] == GramMatrix(h, n)[j][i]
  {
    if h != [] {
      GramSymmetric(h[..|h| - 1], n, i, j);
    }
  }

  /** y is what np.linalg.inv(A) @ x stands for. */
  predicate Solves(h: History, y: Vec, x: Vec) {
    |y| == |x| && Sized(h, |x|) && Times(GramMatrix(h, |x|), y) == x
  }

  lemma SolutionUnique(h: History, x: Vec, y: Vec, z: Vec)
    requires Solves(h, y, x) && Solves(h, z, x)
    ensures y == z
  {
    var d := Sub(y, z);
    GramIsForm(h, d, y);
    GramIsForm(h, d, z);
    FormSub(h, d, y, z);
    FormDominatesNorm(h, d);
    SquareNorm(d);
    forall i | 0 <= i < |y| ensures y[i] == z[i] {
      assert d[i] == y[i] - z[i];
    }
  }

  /** The radicand of the exploration bonus: the square root in choose is always defined. */
  lemma BonusDefined(h: History, x: Vec, y: Vec)
    requires Solves(h, y, x)
    ensures Dot(x, y) >= Dot(y, y) >= 0.0
  {
    GramIsForm(h, y, y);
    DotCommutes(x, y);
    FormDominatesNorm(h, y);
  }

  /** a / (1 + v); in use v is a radicand and so never -1. */
  function Damped(a: real, v: real): real {
    if v == -1.0 then 0.0 else a / (1.0 + v)
  }

  /** A solution for every right-hand side, built by one Sherman-Morrison step per update. */
  function Solution(h: History, x: Vec): (y: Vec)
    requires Sized(h, |x|)
    ensures |y| == |x|
  {
    if h == [] then x
    else
      var prior, u := h[..|h| - 1], h[|h| - 1].x;
      var y, w := Solution(prior, x), Solution(prior, u);
      Sub(y, Scale(Damped(Dot(u, y), Dot(u, w)), w))
  }

  /** A is invertible after any updates, so np.linalg.inv never meets a singular matrix. */
  lemma {:induction false} GramInvertible(h: History, x: Vec)
    requires Sized(h, |x|)
    ensures Solves(h, Solution(h, x), x)
  {
    if h == [] {
      TimesIdentity(x);
    } else {
      var prior, u := h[..|h| - 1], h[|h| - 1].x;
      GramInvertible(prior, x);
      GramInvertible(prior, u);
      ShermanMorrison(h, x, Solution(prior, x), Solution(prior, u));
    }
  }

  lemma ShermanMorrison(h: History, x: Vec, y: Vec, w: Vec)
    requires h != [] && Sized(h, |x|)
    requires Solves(h[..|h| - 1], y, x) && Solves(h[..|h| - 1], w, h[|h| - 1].x)
    ensures var u := h[|h| - 1].x;
      Solves(h, Sub(y, Scale(Damped(Dot(u, y), Dot(u, w)), w)), x)
  {
    var prior, u := h[..|h| - 1], h[|h| - 1].x;
    BonusDefined(prior, u, w);
    var a, v := Dot(u, y), Dot(u, w);
    var k := Damped(a, v);
    var s := Sub(y, Scale(k, w));
    TimesGram(h, s);
    DotSub(y, Scale(k, w), u);
    DotScale(k, w, u);
    DotCommutes(u, w);
    QuotientFixed(a, v);
    forall i | 0 <= i < |x| ensures Times(GramMatrix(h, |x|), s)[i] == x[i] {
      DotSub(y, Scale(k, w), GramMatrix(prior, |x|)[i]);
      DotScale(k, w, GramMatrix(prior, |x|)[i]);
      DotCommutes(w, GramMatrix(prior, |x|)[i]);
      assert Times(GramMatrix(prior, |x|), w)[i] == u[i] && Times(GramMatrix(prior, |x|), y)[i] == x[i];
      assert Times(GramMatrix(prior, |x|), s)[i] == x[i] - Mul(k, u[i]);
    }
  }

  lemma QuotientFixed(a: real, v: real)
    requires v >= 0.0
    ensures var k := Damped(a, v); a - Mul(k, v) == k
  {
    var k := Damped(a, v);
    assert k * (1.0 + v) == a;
  }

  predicate ShrinksTo(v: real, w: real) {
    v >= 0.0 && w == v / (1.0 + v) && w <= v && w < 1.0
  }

  /** Observing a context shrinks its own exploration bonus: the radicand w becomes w/(1+w). */
  lemma UpdateShrinksBonus(h: History, x: Vec, reward: real, y: Vec, y': Vec)
    requires Solves(h, y, x) && Solves(h + [Observation(x, reward)], y', x)
    ensures ShrinksTo(Dot(x, y), Dot(x, y'))
  {
    UpdateDampsBonus(h, x, reward, y, y');
    ShrunkBonus(Dot(x, y));
  }

  lemma UpdateDampsBonus(h: History, x: Vec, reward: real, y: Vec, y': Vec)
    requires Solves(h, y, x) && Solves(h + [Observation(x, reward)], y', x)
    ensures Dot(x, y) >= 0.0 && Dot(x, y') == Damped(Dot(x, y), Dot(x, y))
  {
    var h' := h + [Observation(x, reward)];
    assert h'[..|h'| - 1] == h;
    BonusDefined(h, x, y);
    BonusAfterUpdate(h', x, y, y');
  }

  lemma BonusAfterUpdate(h: History, x: Vec, y: Vec, y': Vec)
    requires h != [] && h[|h| - 1].x == x && Solves(h[..|h| - 1], y, x) && Solves(h, y', x)
    ensures Dot(x, y') == Damped(Dot(x, y), Dot(x, y))
  {
    ShermanMorrison(h, x, y, y);
    var k := Damped(Dot(x, y), Dot(x, y));
    SolutionUnique(h, x, y', Sub(y, Scale(k, y)));
    BonusOfDifference(x, y, k);
    BonusDefined(h[..|h| - 1], x, y);
    QuotientFixed(Dot(x, y), Dot(x, y));
  }

  lemma BonusOfDifference(x: Vec, y: Vec, k: real)
    requires |x| == |y|
    ensures Dot(x, Sub(y, Scale(k, y))) == Dot(x, y) - Mul(k, Dot(x, y))
  {
    DotSub(y, Scale(k, y), x);
    DotScale(k, y, x);
    DotCommutes(x, y);
  }

  lemma ShrunkBonus(v: real)
    requires v >= 0.0
    ensures ShrinksTo(v, Damped(v, v))
  {
    QuotientFixed(v, v);
    NonNegative(v / (1.0 + v), v);
    assert v / (1.0 + v) == 1.0 - 1.0 / (1.0 + v);
  }

  lemma NonNegative(a: real, b: real)
    requires a >= 0.0 && b >= 0.0
    ensures Mul(a, b) >= 0.0
  {
  }

  // Ridge regression ------------------------------------------------------------------------

  /** The regularised squared error of predicting the rewards by z. */
  function Loss(h: History, z: Vec): real
    requires Sized(h, |z|)
  {
    if h == [] then Dot(z, z)
    else
      var o := h[|h| - 1];
      Loss(h[..|h| - 1], z) + Mul(o.reward - Dot(o.x, z), o.reward - Dot(o.x, z))
  }

  function RewardSquares(h: History): real {
    if h == [] then 0.0 else RewardSquares(h[..|h| - 1]) + Mul(h[|h| - 1].reward, h[|h| - 1].reward)
  }

  lemma {:induction false} LossExpands(h: History, z: Vec)
    requires Sized(h, |z|)
    ensures Loss(h, z) == Form(h, z, z) - 2.0 * Dot(RewardVector(h, |z|), z) + RewardSquares(h)
  {
    if h == [] {
      DotZeros(z);
    } else {
      var prior, o := h[..|h| - 1], h[|h| - 1];
      LossExpands(prior, z);
      DotAdd(RewardVector(prior, |z|), Scale(o.reward, o.x), z);
      DotScale(o.reward, o.x, z);
      SquaredError(o.reward, Dot(o.x, z));
    }
  }

  lemma SquaredError(r: real, p: real)
    ensures Mul(r - p, r - p) == Mul(p, p) - 2.0 * Mul(r, p) + Mul(r, r)
  {
  }

  /** theta = inv(A) b is the ridge-regression estimate: its loss is the least there is, and any
      other vector's exceeds it by at least their squared distance. */
  lemma ThetaMinimisesLoss(h: History, theta: Vec, z: Vec)
    requires |z| == |theta| && Sized(h, |z|) && Solves(h, theta, RewardVector(h, |z|))
    ensures Loss(h, z) - Loss(h, theta) == Form(h, Sub(z, theta), Sub(z, theta))
    ensures Loss(h, z) >= Loss(h, theta) + Dot(Sub(z, theta), Sub(z, theta)) >= Loss(h, theta)
  {
    var b, d := RewardVector(h, |z|), Sub(z, theta);
    LossExpands(h, z);
    LossExpands(h, theta);
    GramIsForm(h, z, theta);
    GramIsForm(h, theta, theta);
    DotCommutes(b, z);
    DotCommutes(b, theta);
    FormSub(h, d, z, theta);
    FormSymmetric(h, d, z);
    FormSymmetric(h, d, theta);
    FormSub(h, z, z, theta);
    FormSub(h, theta, z, theta);
    FormSymmetric(h, z, theta);
    FormDominatesNorm(h, d);
  }

  // Update order ----------------------------------------------------------------------------

  function Without(h: History, i: nat): History
    requires i < |h|
  {
    h[..i] + h[i + 1..]
  }

  lemma {:induction false} PullOut(h: History, n: nat, i: nat)
    requires Sized(h, n) && i < |h|
    ensures GramMatrix(h, n) == AddMatrix(GramMatrix(Without(h, i), n), Outer(h[i].x), n)
    ensures RewardVector(h, n) == Add(RewardVector(Without(h, i), n), Scale(h[i].reward, h[i].x))
  {
    var last := |h| - 1;
    if i == last {
      assert Without(h, i) == h[..last];
    } else {
      PullOut(h[..last], n, i);
      PullOutStep(h, n, i);
    }
  }

  lemma WithoutThenLast(h: History, i: nat)
    requires i < |h| - 1
    ensures var w := Without(h, i);
      w != [] && w[..|w| - 1] == Without(h[..|h| - 1], i) && w[|w| - 1] == h[|h| - 1]
  {
    assert Without(h, i) == Without(h[..|h| - 1], i) + [h[|h| - 1]];
  }

  lemma PullOutStep(h: History, n: nat, i: nat)
    requires Sized(h, n) && i < |h| - 1
    requires var p := h[..|h| - 1];
      && GramMatrix(p, n) == AddMatrix(GramMatrix(Without(p, i), n), Outer(p[i].x), n)
      && RewardVector(p, n) == Add(RewardVector(Without(p, i), n), Scale(p[i].reward, p[i].x))
    ensures GramMatrix(h, n) == AddMatrix(GramMatrix(Without(h, i), n), Outer(h[i].x), n)
    ensures RewardVector(h, n) == Add(RewardVector(Without(h, i), n), Scale(h[i].reward, h[i].x))
  {
    var rest, o := Without(h[..|h| - 1], i), h[|h| - 1];
    WithoutThenLast(h, i);
    MatrixSwap(GramMatrix(rest, n), Outer(h[i].x), Outer(o.x), n);
    VectorSwap(RewardVector(rest, n), Scale(h[i].reward, h[i].x), Scale(o.reward, o.x));
  }

  lemma VectorSwap(a: Vec, b: Vec, c: Vec)
    requires |a| == |b| == |c|
    ensures Add(Add(a, b), c) == Add(Add(a, c), b)
  {
  }

  lemma MatrixSwap(m: Matrix, p: Matrix, q: Matrix, n: nat)
    requires Square(m, n) && Square(p, n) && Square(q, n)
    ensures AddMatrix(AddMatrix(m, p, n), q, n) == AddMatrix(AddMatrix(m, q, n), p, n)
  {
    forall i | 0 <= i < n
      ensures AddMatrix(AddMatrix(m, p, n), q, n)[i] == AddMatrix(AddMatrix(m, q, n), p, n)[i]
    {
      VectorSwap(m[i], p[i], q[i]);
    }
  }

  lemma WithoutOne(h: History, i: nat)
    requires i < |h|
    ensures multiset(Without(h, i)) == multiset(h) - multiset{h[i]}
  {
    assert h == h[..i] + [h[i]] + h[i + 1..];
  }

  lemma SameAfterRemoval(h: History, h': History, i: nat, n: nat)
    requires Sized(h, n) && Sized(h', n) && h != [] && i < |h'| && h'[i] == h[|h| - 1]
    requires GramMatrix(h[..|h| - 1], n) == GramMatrix(Without(h', i), n)
    requires RewardVector(h[..|h| - 1], n) == RewardVector(Without(h', i), n)
    ensures GramMatrix(h, n) == GramMatrix(h', n) && RewardVector(h, n) == RewardVector(h', n)
  {
    PullOut(h', n, i);
  }

  lemma MatchLast(h: History, h': History) returns (i: nat)
    requires multiset(h) == multiset(h') && h != []
    ensures i < |h'| && h'[i] == h[|h| - 1] && multiset(Without(h', i)) == multiset(h[..|h| - 1])
  {
    var last := |h| - 1;
    assert h[last] in multiset(h');
    i :| 0 <= i < |h'| && h'[i] == h[last];
    WithoutOne(h, last);
    WithoutOne(h', i);
    assert Without(h, last) == h[..last];
  }

  /** A and b do not depend on the order of the updates. */
  lemma {:induction false} UpdateOrderIrrelevant(h: History, h': History, n: nat)
    requires multiset(h) == multiset(h') && Sized(h, n) && Sized(h', n)
    ensures GramMatrix(h, n) == GramMatrix(h', n) && RewardVector(h, n) == RewardVector(h', n)
  {
    if h == [] {
      assert |multiset(h')| == 0;
    } else {
      var last := |h| - 1;
      var i := MatchLast(h, h');
      UpdateOrderIrrelevant(h[..last], Without(h', i), n);
      SameAfterRemoval(h, h', i, n);
    }
  }

  // The class -------------------------------------------------------------------------------

  /** The upper confidence bound of an arm with history h in context x. */
  function Ucb(h: History, x: Vec, alpha: real, root: real -> real): real
    requires Sized(h, |x|)
  {
    Dot(Solution(h, RewardVector(h, |x|)), x) + Mul(alpha, root(Dot(x, Solution(h, x))))
  }

  /** The bound is the ridge estimate's prediction plus alpha times the root of x A^-1 x, whatever
      vectors stand for theta and A^-1 x. */
  lemma UcbExactly(h: History, theta: Vec, y: Vec, x: Vec, alpha: real, root: real -> real)
    requires Sized(h, |x|) && Solves(h, theta, RewardVector(h, |x|)) && Solves(h, y, x)
    ensures Ucb(h, x, alpha, root) == Dot(theta, x) + Mul(alpha, root(Dot(x, y)))
  {
    GramInvertible(h, RewardVector(h, |x|));
    GramInvertible(h, x);
    SolutionUnique(h, RewardVector(h, |x|), theta, Solution(h, RewardVector(h, |x|)));
    SolutionUnique(h, x, y, Solution(h, x));
  }

  const FLOOR_SCORE: real := -1000000000.0

  /** The stored matrix and vector are those of the history. */
  ghost predicate Learned(m: Matrix, v: Vec, h: History, n: nat) {
    Sized(h, n) && m == GramMatrix(h, n) && v == RewardVector(h, n)
  }

  lemma LearnOne(m: Matrix, v: Vec, h: History, n: nat, o: Observation)
    requires Learned(m, v, h, n) && |o.x| == n
    ensures Learned(AddMatrix(m, Outer(o.x), n), Add(v, Scale(o.reward, o.x)), h + [o], n)
  {
    assert (h + [o])[..|h|] == h;
  }

  ghost predicate AllLearned(A: map<Arm, Matrix>, b: map<Arm, Vec>, history: map<Arm, History>, n: nat) {
    A.Keys == b.Keys == history.Keys && forall a :: a in A ==> Learned(A[a], b[a], history[a], n)
  }

  /** numpy's broadcast of a vector to n entries: one entry is repeated, n are left alone. */
  function Stretched(x: Vec, n: nat): (y: Vec)
    requires |x| == n || |x| == 1
    ensures |y| == n
  {
    if |x| == n then x else seq(n, _ => x[0])
  }

  /** The same for a square matrix. */
  function StretchedMatrix(m: Matrix, n: nat): (k: Matrix)
    requires Square(m, n) || Square(m, 1)
    ensures Square(k, n)
  {
    if Square(m, n) then m else seq(n, _ => seq(n, _ => m[0][0]))
  }

  /** Stretching what is added is the same as learning from the stretched context. */
  lemma StretchedSums(x: Vec, n: nat, reward: real)
    requires |x| == n || |x| == 1
    ensures StretchedMatrix(Outer(x), n) == Outer(Stretched(x, n))
    ensures Stretched(Scale(reward, x), n) == Scale(reward, Stretched(x, n))
  {
    var y := Stretched(x, n);
    if |x| != n {
      forall i | 0 <= i < n ensures StretchedMatrix(Outer(x), n)[i] == Outer(y)[i] {
        assert Outer(y)[i] == Scale(y[i], y);
      }
    }
  }

  predicate Solved(m: Matrix, y: Vec, v: Vec) {
    |y| == |v| && Square(m, |v|) && Times(m, y) == v
  }

  /** solve(m, v) is np.linalg.inv(m) @ v: for the m in use it solves m y = v. */
  ghost predicate Inverts(solve: (Matrix, Vec) -> Vec, m: Matrix, n: nat) {
    Square(m, n) && forall v: Vec {:trigger solve(m, v)} :: |v| == n ==> Solved(m, solve(m, v), v)
  }

  lemma InverseGivesSolution(solve: (Matrix, Vec) -> Vec, h: History, v: Vec)
    requires Sized(h, |v|) && Inverts(solve, GramMatrix(h, |v|), |v|)
    ensures solve(GramMatrix(h, |v|), v) == Solution(h, v)
  {
    GramInvertible(h, v);
    SolutionUnique(h, v, solve(GramMatrix(h, |v|), v), Solution(h, v));
  }

  lemma UcbOfSolutions(solve: (Matrix, Vec) -> Vec, h: History, v: Vec, x: Vec, alpha: real, root: real -> real)
    requires Sized(h, |x|) && v == RewardVector(h, |x|) && Inverts(solve, GramMatrix(h, |x|), |x|)
    ensures var m := GramMatrix(h, |x|);
      Dot(solve(m, v), x) + Mul(alpha, root(Dot(x, solve(m, x)))) == Ucb(h, x, alpha, root)
  {
    InverseGivesSolution(solve, h, v);
    InverseGivesSolution(solve, h, x);
  }

  /** The scores of all arms, by their histories alone; histories without a score do not occur. */
  ghost function Scores(arms: seq<Arm>, history: map<Arm, History>, x: Vec, alpha: real, root: real -> real)
    : (scores: seq<real>)
    ensures |scores| == |arms|
  {
    seq(|arms|, i requires 0 <= i < |arms| => ScoreOf(arms[i], history, x, alpha, root))
  }

  ghost function ScoreOf(a: Arm, history: map<Arm, History>, x: Vec, alpha: real, root: real -> real): real {
    if a in history && Sized(history[a], |x|) then Ucb(history[a], x, alpha, root) else 0.0
  }

  /** best is the first arm with the highest of the first i scores, if one exceeds -1e9. */
  ghost predicate Best(arms: seq<Arm>, scores: seq<real>, i: nat, best: Option<Arm>) {
    && i <= |arms| == |scores|
    && match best
       case None => AllAtMost(scores, i, -1000000000.0)
       case Some(a) => exists k: nat :: FirstMax(scores, i, k) && arms[k] == a && scores[k] > -1000000000.0
  }

  ghost predicate AllAtMost(scores: seq<real>, i: nat, bound: real) {
    i <= |scores| && forall j :: 0 <= j < i ==> scores[j] <= bound
  }

  ghost predicate FirstMax(scores: seq<real>, i: nat, k: nat) {
    k < i <= |scores| && AllAtMost(scores, i, scores[k]) && forall j :: 0 <= j < k ==> scores[j] < scores[k]
  }

  /** What the loop's two variables hold: no arm yet, or the score of the best one. */
  ghost predicate Leading(arms: seq<Arm>, scores: seq<real>, i: nat, best: Option<Arm>, bestScore: real) {
    && i <= |arms| == |scores|
    && match best
       case None => bestScore == FLOOR_SCORE && AllAtMost(scores, i, FLOOR_SCORE)
       case Some(a) =>
         (bestScore > FLOOR_SCORE && exists k: nat :: FirstMax(scores, i, k) && arms[k] == a && scores[k] == bestScore)
  }

  lemma LeadingExtends(arms: seq<Arm>, scores: seq<real>, i: nat, best: Option<Arm>, bestScore: real)
    requires i < |arms| == |scores| && Leading(arms, scores, i, best, bestScore)
    ensures if scores[i] > bestScore then Leading(arms, scores, i + 1, Some(arms[i]), scores[i])
            else Leading(arms, scores, i + 1, best, bestScore)
  {
    if scores[i] > bestScore {
      assert FirstMax(scores, i + 1, i);
    } else if best.Some? {
      var k: nat :| FirstMax(scores, i, k) && arms[k] == best.value && scores[k] == bestScore;
      assert FirstMax(scores, i + 1, k);
    }
  }

  lemma LeadingIsBest(arms: seq<Arm>, scores: seq<real>, best: Option<Arm>, bestScore: real)
    requires Leading(arms, scores, |arms|, best, bestScore)
    ensures Best(arms, scores, |arms|, best)
  {
  }

  /** theta @ x + alpha * sqrt(x @ inv(A) @ x), from an arm's matrix and vector. */
  method Score(m: Matrix, v: Vec, ghost h: History, x: Vec, alpha: real,
               solve: (Matrix, Vec) -> Vec, root: real -> real)
    returns (ucb: real)
    requires Learned(m, v, h, |x|) && Inverts(solve, m, |x|)
    ensures ucb == Ucb(h, x, alpha, root)
  {
    UcbOfSolutions(solve, h, v, x, alpha, root);
    ucb := Dot(solve(m, v), x) + Mul(alpha, root(Dot(x, solve(m, x))));
  }

  ghost predicate AllInvert(solve: (Matrix, Vec) -> Vec, A: map<Arm, Matrix>, n: nat) {
    forall a {:trigger A[a]} :: a in A ==> Inverts(solve, A[a], n)
  }

  class LinUCB {
    const n: nat
    const arms: seq<Arm>
    const alpha: real
    var A: map<Arm, Matrix>
    var b: map<Arm, Vec>
    ghost var history: map<Arm, History>

    ghost predicate Valid()
      reads this
    {
      AllLearned(A, b, history, n) && forall a :: a in arms <==> a in A
    }

    constructor (n: nat, arms: seq<Arm>, alpha: real)
      ensures Valid() && this.n == n && this.arms == arms && this.alpha == alpha
      ensures history == map a | a in arms :: []
    {
      this.n, this.arms, this.alpha := n, arms, alpha;
      A := map a | a in arms :: Identity(n);
      b := map a | a in arms :: Zeros(n);
      history := map a | a in arms :: [];
    }

    /** False stands for the KeyError of an unknown arm and for numpy's ValueError, which both come
        before any change. numpy raises for a context of the wrong size, except that it stretches
        a single feature over all n. */
    method Update(arm: Arm, x: Vec, reward: real) returns (ok: bool)
      requires Valid()
      modifies this
      ensures Valid() && (ok <==> arm in old(A) && (|x| == n || |x| == 1))
      ensures history ==
        if ok then old(history)[arm := old(history)[arm] + [Observation(Stretched(x, n), reward)]] else old(history)
    {
      ok := arm in A && (|x| == n || |x| == 1);
      if ok {
        StretchedSums(x, n, reward);
        LearnOne(A[arm], b[arm], history[arm], n, Observation(Stretched(x, n), reward));
        A := A[arm := AddMatrix(A[arm], StretchedMatrix(Outer(x), n), n)];
        b := b[arm := Add(b[arm], Stretched(Scale(reward, x), n))];
        history := history[arm := history[arm] + [Observation(Stretched(x, n), reward)]];
      }
    }

    /** The first arm with the highest upper confidence bound, if any exceeds -1e9; Err is numpy's
        ValueError for a context of the wrong size. solve stands for np.linalg.inv, whose values its
        condition determines; root stands for np.sqrt, and by BonusDefined it is only ever asked for
        the root of a non-negative number. */
    method Choose(x: Vec, solve: (Matrix, Vec) -> Vec, root: real -> real) returns (r: Result<Option<Arm>, string>)
      requires Valid() && AllInvert(solve, A, n)
      ensures r.Err? <==> arms != [] && |x| != n
      ensures r.Ok? ==> Best(arms, Scores(arms, history, x, alpha, root), |arms|, r.value)
    {
      var best: Option<Arm> := None;
      var bestScore := FLOOR_SCORE;
      ghost var scores := Scores(arms, history, x, alpha, root);
      for i := 0 to |arms|
        invariant Leading(arms, scores, i, best, bestScore)
        invariant i > 0 ==> |x| == n
      {
        if |x| != n {
          return Err("matmul: dimension mismatch");
        }
        var a := arms[i];
        var ucb := Score(A[a], b[a], history[a], x, alpha, solve, root);
        assert ucb == scores[i];
        LeadingExtends(arms, scores, i, best, bestScore);
        if ucb > bestScore {
          bestScore, best := ucb, Some(arms[i]);
        }
      }
      LeadingIsBest(arms, scores, best, bestScore);
      r := Ok(best);
    }
  }
}
