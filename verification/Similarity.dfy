/** Cosine similarity over exact numbers. A square root enters as the number it is:
    not negative, and squaring to the sum of squares. */
module Similarity {
  import opened Wrappers

  // A sparse vector maps terms to weights; a dense one lists weights.
  datatype Vector = Sparse(terms: map<string, real>) | Dense(weights: seq<real>)

  // ----- finite sums -----

  ghost function Sum<K>(keys: set<K>, f: K -> real): real {
    if keys == {} then 0.0
    else
      var k :| k in keys;
      f(k) + Sum(keys - {k}, f)
  }

  lemma {:induction false} SumPick<K>(keys: set<K>, f: K -> real, k: K)
    requires k in keys
    ensures Sum(keys, f) == f(k) + Sum(keys - {k}, f)
    decreases |keys|
  {
    var j :| j in keys && Sum(keys, f) == f(j) + Sum(keys - {j}, f);
    if j != k {
      SumPick(keys - {j}, f, k);
      SumPick(keys - {k}, f, j);
      assert keys - {j} - {k} == keys - {k} - {j};
    }
  }

  lemma {:induction false} SumAgree<K>(keys: set<K>, f: K -> real, g: K -> real)
    requires forall k | k in keys :: f(k) == g(k)
    ensures Sum(keys, f) == Sum(keys, g)
    decreases |keys|
  {
    if keys != {} {
      var k :| k in keys;
      SumPick(keys, f, k);
      SumPick(keys, g, k);
      SumAgree(keys - {k}, f, g);
    }
  }

  // Keys at which the summand is zero can be left out.
  lemma {:induction false} SumRestrict<K>(keys: set<K>, part: set<K>, f: K -> real)
    requires part <= keys && forall k | k in keys && k !in part :: f(k) == 0.0
    ensures Sum(keys, f) == Sum(part, f)
    decreases |keys|
  {
    if keys != {} {
      var k :| k in keys;
      SumPick(keys, f, k);
      SumRestrict(keys - {k}, part - {k}, f);
      if k in part {
        SumPick(part, f, k);
      } else {
        assert part - {k} == part;
      }
    }
  }

  lemma {:induction false} SumNotNegative<K>(keys: set<K>, f: K -> real)
    requires forall k | k in keys :: f(k) >= 0.0
    ensures Sum(keys, f) >= 0.0
    ensures forall k | k in keys :: Sum(keys, f) >= f(k)
    decreases |keys|
  {
    forall k | k in keys
      ensures Sum(keys, f) >= f(k)
    {
      SumPick(keys, f, k);
      SumNotNegative(keys - {k}, f);
    }
    if keys != {} {
      var k :| k in keys;
      assert Sum(keys, f) >= f(k);
    }
  }

  function Times<K>(f: K -> real, g: K -> real): K -> real { k => f(k) * g(k) }

  // (a g - d f) squared, key by key.
  function Residue<K>(f: K -> real, g: K -> real, a: real, d: real): K -> real {
    k => (a * g(k) - d * f(k)) * (a * g(k) - d * f(k))
  }

  function Scale<K>(c: real, f: K -> real): K -> real { k => c * f(k) }

  lemma SumNothing<K>(f: K -> real)
    ensures Sum({}, f) == 0.0
  {
  }

  lemma ScaleAt<K>(c: real, f: K -> real, k: K)
    ensures Scale(c, f)(k) == c * f(k)
  {
  }

  lemma {:induction false} SumScale<K>(keys: set<K>, c: real, f: K -> real)
    ensures Sum(keys, Scale(c, f)) == c * Sum(keys, f)
    decreases |keys|
  {
    hide Sum, Scale;
    if keys == {} {
      SumNothing(f);
      SumNothing(Scale(c, f));
    } else {
      var k :| k in keys;
      SumPick(keys, Scale(c, f), k);
      SumPick(keys, f, k);
      SumScale(keys - {k}, c, f);
      ScaleAt(c, f, k);
      ScaleStep(c, f(k), Sum(keys - {k}, f), Sum(keys, f), Sum(keys - {k}, Scale(c, f)), Sum(keys, Scale(c, f)));
    }
  }

  lemma ScaleStep(c: real, x: real, rest: real, total: real, scaledRest: real, scaledTotal: real)
    requires total == x + rest && scaledRest == c * rest && scaledTotal == c * x + scaledRest
    ensures scaledTotal == c * total
  {
  }

  lemma Distribute(c: real, x: real, y: real)
    ensures c * (x + y) == c * x + c * y
  {
  }

  lemma ResidueSum<K>(keys: set<K>, f: K -> real, g: K -> real, a: real, d: real)
    ensures Sum(keys, Residue(f, g, a, d)) ==
            (a * a) * Sum(keys, Times(g, g)) + (-2.0 * a * d) * Sum(keys, Times(f, g))
            + (d * d) * Sum(keys, Times(f, f))
  {
  }

  lemma TimesSquare<K>(f: K -> real, k: K)
    ensures Times(f, f)(k) == f(k) * f(k) >= 0.0
    ensures f(k) != 0.0 ==> Times(f, f)(k) > 0.0
  {
    SquareSign(f(k));
    if f(k) != 0.0 { SquarePositive(f(k), Times(f, f)(k)); }
  }

  lemma SquaresSum<K>(keys: set<K>, f: K -> real)
    ensures Sum(keys, Times(f, f)) >= 0.0
    ensures Sum(keys, Times(f, f)) == 0.0 <==> forall k | k in keys :: f(k) == 0.0
  {
    forall k | k in keys
      ensures Times(f, f)(k) >= 0.0
      ensures f(k) != 0.0 ==> Times(f, f)(k) > 0.0
    {
      TimesSquare(f, k);
    }
    SumNotNegative(keys, Times(f, f));
    if forall k | k in keys :: f(k) == 0.0 {
      SumRestrict(keys, {}, Times(f, f));
    }
  }

  lemma ResidueSign<K>(keys: set<K>, f: K -> real, g: K -> real, a: real, d: real)
    ensures Sum(keys, Residue(f, g, a, d)) >= 0.0
  {
  }

  // Cauchy-Schwarz over a finite set of keys.
  lemma CauchySchwarz<K>(keys: set<K>, f: K -> real, g: K -> real)
    ensures Sum(keys, Times(f, g)) * Sum(keys, Times(f, g)) <= Sum(keys, Times(f, f)) * Sum(keys, Times(g, g))
  {
    var a, b, d := Sum(keys, Times(f, f)), Sum(keys, Times(g, g)), Sum(keys, Times(f, g));
    SquaresSum(keys, f);
    if a == 0.0 {
      SumRestrict(keys, {}, Times(f, g));
      assert d == 0.0;
    } else {
      ResidueSum(keys, f, g, a, d);
      ResidueSign(keys, f, g, a, d);
      Discriminant(a, b, d);
    }
  }

  lemma SquareSign(x: real)
    ensures x * x >= 0.0
  {
    if x < 0.0 { assert x * x == (-x) * (-x); }
  }

  lemma SquarePositive(x: real, square: real)
    requires x != 0.0 && square == x * x
    ensures square > 0.0
  {
    if x < 0.0 {
      assert square == (-x) * (-x);
      Positive(-x, -x, square);
    } else {
      Positive(x, x, square);
    }
  }

  // The product is named so that the solver meets it once.
  lemma Positive(x: real, y: real, product: real)
    requires x > 0.0 && y > 0.0 && product == x * y
    ensures product > 0.0
  {
  }

  lemma Discriminant(a: real, b: real, d: real)
    requires a > 0.0 && (a * a) * b + (-2.0 * a * d) * d + (d * d) * a >= 0.0
    ensures d * d <= a * b
  {
    assert a * (a * b - d * d) == (a * a) * b + (-2.0 * a * d) * d + (d * d) * a;
    NotNegative(a, a * b - d * d);
  }

  lemma NotNegative(a: real, e: real)
    requires a > 0.0 && a * e >= 0.0
    ensures e >= 0.0
  {
    if e < 0.0 { Positive(a, -e, a * -e); }
  }

  // ----- vectors -----

  // The weight at a term or an index, zero where there is none.
  function At(m: map<string, real>, k: string): real { if k in m then m[k] else 0.0 }

  function WeightAt(w: seq<real>, i: int): real { if 0 <= i < |w| then w[i] else 0.0 }

  function Weights(m: map<string, real>): string -> real { k => At(m, k) }

  function Entries(w: seq<real>): int -> real { i => WeightAt(w, i) }

  function Below(n: nat): (r: set<int>)
    ensures forall i :: i in r <==> 0 <= i < n
  {
    if n == 0 then {} else Below(n - 1) + {n - 1}
  }

  // The dot product over every key either side has.
  ghost function Dot(a: map<string, real>, b: map<string, real>): real {
    Sum(a.Keys + b.Keys, Times(Weights(a), Weights(b)))
  }

  ghost function DenseDot(a: seq<real>, b: seq<real>): real {
    Sum(Below(|a|), Times(Entries(a), Entries(b)))
  }

  ghost function SquaredNorm(v: Vector): real {
    match v
    case Sparse(m) => Dot(m, m)
    case Dense(w) => DenseDot(w, w)
  }

  // The norm as a number: the square root of the squared norm.
  ghost predicate IsNorm(v: Vector, n: real) { n >= 0.0 && n * n == SquaredNorm(v) }

  predicate IsEmpty(v: Vector) {
    match v
    case Sparse(m) => m == map[]
    case Dense(w) => w == []
  }

  datatype VectorError = LengthsDiffer | MixedKinds

  // The dot product as it is computed for two sparse vectors: over the smaller.
  ghost function SmallDot(a: map<string, real>, b: map<string, real>): real {
    var (small, large) := if |a| < |b| then (a, b) else (b, a);
    Sum(small.Keys, Times(Weights(small), Weights(large)))
  }

  // The similarity, given the two norms.
  ghost function Cosine(a: Vector, b: Vector, na: real, nb: real): Result<real, VectorError>
    requires IsNorm(a, na) && IsNorm(b, nb)
  {
    if IsEmpty(a) || IsEmpty(b) then Ok(0.0)
    else
      match (a, b)
      case (Sparse(m), Sparse(n)) => Ok(Ratio(SmallDot(m, n), na, nb))
      case (Dense(v), Dense(w)) => if |v| != |w| then Err(LengthsDiffer) else Ok(Ratio(DenseDot(v, w), na, nb))
      case _ => Err(MixedKinds)
  }

  function Ratio(dot: real, na: real, nb: real): real {
    if na != 0.0 && nb != 0.0 then
      NonZero(na, nb, na * nb);
      dot / (na * nb)
    else 0.0
  }

  // Summing over the smaller map loses nothing.
  lemma SmallDotIsDot(a: map<string, real>, b: map<string, real>)
    ensures SmallDot(a, b) == Dot(a, b)
  {
    if |a| < |b| {
      SumOverOne(a, b, a.Keys + b.Keys);
    } else {
      DotSymmetric(a, b);
      SumOverOne(b, a, b.Keys + a.Keys);
    }
  }

  lemma SumOverOne(a: map<string, real>, b: map<string, real>, keys: set<string>)
    requires a.Keys <= keys
    ensures Sum(a.Keys, Times(Weights(a), Weights(b))) == Sum(keys, Times(Weights(a), Weights(b)))
  {
    SumRestrict(keys, a.Keys, Times(Weights(a), Weights(b)));
  }

  // The dot products term by term.
  lemma DenseDotNext(v: seq<real>, w: seq<real>, x: real, y: real)
    requires |v| == |w|
    ensures DenseDot(v + [x], w + [y]) == DenseDot(v, w) + x * y
  {
    hide Sum;
    var n := |v|;
    var f, g := Times(Entries(v + [x]), Entries(w + [y])), Times(Entries(v), Entries(w));
    assert Below(n + 1) - {n} == Below(n);
    SumPick(Below(n + 1), f, n);
    assert f(n) == x * y;
    forall i | i in Below(n)
      ensures f(i) == g(i)
    {
      assert (v + [x])[i] == v[i] && (w + [y])[i] == w[i];
    }
    SumAgree(Below(n), f, g);
  }

  lemma NoDots(b: map<string, real>)
    ensures DenseDot([], []) == 0.0 && Dot(map[], b) == 0.0
  {
    var none: map<string, real> := map[];
    SumOverOne(none, b, none.Keys + b.Keys);
  }

  lemma DotNext(a: map<string, real>, b: map<string, real>, k: string, x: real)
    requires k !in a
    ensures Dot(a[k := x], b) == Dot(a, b) + (if k in b then x * b[k] else 0.0)
  {
    hide Sum;
    var a' := a[k := x];
    var f, g := Times(Weights(a'), Weights(b)), Times(Weights(a), Weights(b));
    SumOverOne(a', b, a'.Keys + b.Keys);
    SumOverOne(a, b, a.Keys + b.Keys);
    SumPick(a'.Keys, f, k);
    assert a'.Keys - {k} == a.Keys;
    assert f(k) == x * At(b, k);
    forall t | t in a.Keys
      ensures f(t) == g(t)
    {
      assert At(a', t) == At(a, t);
    }
    SumAgree(a.Keys, f, g);
    assert x * 0.0 == 0.0;
  }

  // The similarity times the two norms is the dot product, and zero if a norm is.
  lemma CosineMeans(a: Vector, b: Vector, na: real, nb: real)
    requires IsNorm(a, na) && IsNorm(b, nb) && Cosine(a, b, na, nb).Ok?
    ensures na == 0.0 || nb == 0.0 ==> Cosine(a, b, na, nb).value == 0.0
    ensures na != 0.0 && nb != 0.0 && a.Sparse? && b.Sparse? ==>
              Cosine(a, b, na, nb).value * (na * nb) == Dot(a.terms, b.terms)
    ensures na != 0.0 && nb != 0.0 && a.Dense? && b.Dense? ==>
              Cosine(a, b, na, nb).value * (na * nb) == DenseDot(a.weights, b.weights)
  {
    EmptyNorm(a, na);
    EmptyNorm(b, nb);
    hide Dot, DenseDot, IsNorm;
    if !IsEmpty(a) && !IsEmpty(b) {
      CosineOfFull(a, b, na, nb);
      hide Cosine;
    }
  }

  lemma CosineOfFull(a: Vector, b: Vector, na: real, nb: real)
    requires IsNorm(a, na) && IsNorm(b, nb) && !IsEmpty(a) && !IsEmpty(b) && Cosine(a, b, na, nb).Ok?
    ensures na == 0.0 || nb == 0.0 ==> Cosine(a, b, na, nb).value == 0.0
    ensures na != 0.0 && nb != 0.0 && a.Sparse? && b.Sparse? ==>
              Cosine(a, b, na, nb).value * (na * nb) == Dot(a.terms, b.terms)
    ensures na != 0.0 && nb != 0.0 && a.Dense? && b.Dense? ==>
              Cosine(a, b, na, nb).value * (na * nb) == DenseDot(a.weights, b.weights)
  {
    hide SmallDot, Dot, DenseDot, IsNorm, Ratio;
    match (a, b)
    case (Sparse(m), Sparse(n)) =>
      SmallDotIsDot(m, n);
      RatioMeans(Dot(m, n), na, nb);
    case (Dense(v), Dense(w)) => RatioMeans(DenseDot(v, w), na, nb);
    case _ =>
  }

  lemma EmptyNorm(a: Vector, n: real)
    requires IsNorm(a, n)
    ensures IsEmpty(a) ==> n == 0.0
  {
    NoDots(map[]);
    hide Dot, DenseDot;
    if n > 0.0 { NonZero(n, n, n * n); }
  }

  lemma RatioMeans(dot: real, na: real, nb: real)
    ensures na == 0.0 || nb == 0.0 ==> Ratio(dot, na, nb) == 0.0
    ensures na != 0.0 && nb != 0.0 ==> Ratio(dot, na, nb) * (na * nb) == dot
  {
    if na != 0.0 && nb != 0.0 {
      NonZero(na, nb, na * nb);
      Undivided(dot, na * nb);
    }
  }

  lemma Undivided(x: real, y: real)
    requires y != 0.0
    ensures x / y * y == x
  {
  }

  lemma DotSymmetric(a: map<string, real>, b: map<string, real>)
    ensures Dot(a, b) == Dot(b, a)
  {
    assert a.Keys + b.Keys == b.Keys + a.Keys;
    SumAgree(a.Keys + b.Keys, Times(Weights(a), Weights(b)), Times(Weights(b), Weights(a)));
  }

  lemma DenseDotSymmetric(a: seq<real>, b: seq<real>)
    requires |a| == |b|
    ensures DenseDot(a, b) == DenseDot(b, a)
  {
    SumAgree(Below(|a|), Times(Entries(a), Entries(b)), Times(Entries(b), Entries(a)));
  }

  lemma SelfDotOver(a: map<string, real>, keys: set<string>)
    requires a.Keys <= keys
    ensures Sum(keys, Times(Weights(a), Weights(a))) == Dot(a, a)
  {
    assert a.Keys + a.Keys == a.Keys;
    SumRestrict(keys, a.Keys, Times(Weights(a), Weights(a)));
  }

  lemma SparseCauchy(a: map<string, real>, b: map<string, real>)
    ensures Dot(a, b) * Dot(a, b) <= Dot(a, a) * Dot(b, b)
  {
    var keys := a.Keys + b.Keys;
    CauchySchwarz(keys, Weights(a), Weights(b));
    SelfDotOver(a, keys);
    SelfDotOver(b, keys);
  }

  lemma DenseCauchy(a: seq<real>, b: seq<real>)
    requires |a| == |b|
    ensures DenseDot(a, b) * DenseDot(a, b) <= DenseDot(a, a) * DenseDot(b, b)
  {
    CauchySchwarz(Below(|a|), Entries(a), Entries(b));
  }

  lemma NonZero(x: real, y: real, product: real)
    requires x != 0.0 && y != 0.0 && product == x * y
    ensures product != 0.0
  {
  }

  lemma RatioBound(dot: real, na: real, nb: real)
    requires na >= 0.0 && nb >= 0.0 && dot * dot <= (na * na) * (nb * nb)
    ensures -1.0 <= Ratio(dot, na, nb) <= 1.0
  {
    if na != 0.0 && nb != 0.0 {
      var p := na * nb;
      Positive(na, nb, p);
      assert p * p == (na * na) * (nb * nb);
      SquareOrder(dot, p);
      assert (dot / p) * p == dot;
      BoundQuotient(dot / p, p);
    }
  }

  lemma SquareOrder(x: real, p: real)
    requires p > 0.0 && x * x <= p * p
    ensures -p <= x <= p
  {
    assert (x - p) * (x + p) == x * x - p * p;
    assert (-x - p) * (p - x) == x * x - p * p;
    if x > p { Positive(x - p, x + p, (x - p) * (x + p)); }
    if x < -p { Positive(-x - p, p - x, (-x - p) * (p - x)); }
  }

  lemma BoundQuotient(q: real, p: real)
    requires p > 0.0 && -p <= q * p <= p
    ensures -1.0 <= q <= 1.0
  {
  }

  // The similarity of any two comparable vectors is between -1 and 1, does not
  // depend on the order of the two, and is 1 for a vector with itself unless all
  // its weights are zero. Vectors that cannot be compared are refused either way.
  lemma CosineLaws(a: Vector, b: Vector, na: real, nb: real)
    requires IsNorm(a, na) && IsNorm(b, nb)
    ensures Cosine(a, b, na, nb).Ok? ==> -1.0 <= Cosine(a, b, na, nb).value <= 1.0
    ensures Cosine(a, b, na, nb) == Cosine(b, a, nb, na)
    ensures Cosine(a, a, na, na) == Ok(if na == 0.0 then 0.0 else 1.0)
    ensures Cosine(a, b, na, nb).Err? <==>
              a !in {Sparse(map[]), Dense([])} && b !in {Sparse(map[]), Dense([])}
              && (a.Sparse? != b.Sparse? || (a.Dense? && |a.weights| != |b.weights|))
  {
    hide IsNorm, SquaredNorm, SmallDot, Dot, DenseDot, Ratio;
    SelfRatio(a, na);
    match (a, b) {
      case (Sparse(m), Sparse(n)) => SparseLaws(m, n, na, nb);
      case (Dense(v), Dense(w)) => if |v| == |w| { DenseLaws(v, w, na, nb); }
      case _ =>
    }
  }

  lemma SparseLaws(m: map<string, real>, n: map<string, real>, na: real, nb: real)
    requires IsNorm(Sparse(m), na) && IsNorm(Sparse(n), nb)
    ensures -1.0 <= Ratio(SmallDot(m, n), na, nb) <= 1.0
    ensures Ratio(SmallDot(m, n), na, nb) == Ratio(SmallDot(n, m), nb, na)
  {
    SmallDotIsDot(m, n);
    SmallDotIsDot(n, m);
    DotSymmetric(m, n);
    SparseCauchy(m, n);
    hide Dot, SmallDot;
    RatioBound(Dot(m, n), na, nb);
    RatioSymmetric(Dot(m, n), na, nb);
  }

  lemma DenseLaws(v: seq<real>, w: seq<real>, na: real, nb: real)
    requires |v| == |w| && IsNorm(Dense(v), na) && IsNorm(Dense(w), nb)
    ensures -1.0 <= Ratio(DenseDot(v, w), na, nb) <= 1.0
    ensures Ratio(DenseDot(v, w), na, nb) == Ratio(DenseDot(w, v), nb, na)
  {
    DenseDotSymmetric(v, w);
    DenseCauchy(v, w);
    hide DenseDot;
    RatioBound(DenseDot(v, w), na, nb);
    RatioSymmetric(DenseDot(v, w), na, nb);
  }

  lemma RatioSymmetric(dot: real, na: real, nb: real)
    ensures Ratio(dot, na, nb) == Ratio(dot, nb, na)
  {
    assert na * nb == nb * na;
  }

  lemma SelfQuotient(x: real)
    requires x != 0.0
    ensures x / x == 1.0
  {
  }

  lemma SelfRatio(a: Vector, na: real)
    requires IsNorm(a, na)
    ensures Cosine(a, a, na, na) == Ok(if na == 0.0 then 0.0 else 1.0)
  {
    EmptyNorm(a, na);
    if a.Sparse? { SmallDotIsDot(a.terms, a.terms); }
    hide SmallDot, Dot, DenseDot;
    if na != 0.0 {
      var square := SquaredNorm(a);
      NonZero(na, na, square);
      SelfQuotient(square);
    }
  }

  // ----- bag of words -----

  // How often each token occurs.
  ghost function Counts(tokens: seq<string>): map<string, real> {
    map t | t in tokens :: multiset(tokens)[t] as real
  }

  lemma CountsNothing()
    ensures Counts([]) == map[]
  {
  }

  lemma CountsNext(tokens: seq<string>, t: string)
    ensures Counts(tokens + [t]) == Counts(tokens)[t := (if t in Counts(tokens) then Counts(tokens)[t] else 0.0) + 1.0]
  {
  }

  // Counts the tokens and scales the counts to length one. The root is the
  // square root of the sum of the squared counts.
  method Embed(tokens: seq<string>, root: real) returns (v: map<string, real>)
    requires IsNorm(Sparse(Counts(tokens)), root)
    ensures v.Keys == Counts(tokens).Keys
    ensures forall t | t in v :: root > 0.0 && v[t] == Counts(tokens)[t] / root
  {
    hide Counts, IsNorm;
    CountsNothing();
    if tokens == [] {
      return map[];
    }
    var tf: map<string, real> := map[];
    for i := 0 to |tokens|
      invariant tf == Counts(tokens[..i])
    {
      var t := tokens[i];
      assert tokens[..i + 1] == tokens[..i] + [t];
      CountsNext(tokens[..i], t);
      tf := tf[t := (if t in tf then tf[t] else 0.0) + 1.0];
    }
    assert tokens[..|tokens|] == tokens;
    CountsHaveLength(tokens, root);
    v := map t | t in tf :: tf[t] / root;
  }

  predicate AllPositive(m: map<string, real>) { forall k | k in m :: m[k] > 0.0 }

  lemma SquaredNormSign(m: map<string, real>)
    requires AllPositive(m) && m != map[]
    ensures Dot(m, m) > 0.0
  {
    var k :| k in m;
    assert m.Keys + m.Keys == m.Keys;
    SquaresSum(m.Keys, Weights(m));
    assert At(m, k) != 0.0;
  }

  lemma CountsHaveLength(tokens: seq<string>, root: real)
    requires tokens != [] && IsNorm(Sparse(Counts(tokens)), root)
    ensures root > 0.0
  {
    assert tokens[0] in Counts(tokens);
    SquaredNormSign(Counts(tokens));
  }

  lemma CountsPositive(tokens: seq<string>)
    ensures AllPositive(Counts(tokens))
  {
  }

  // The embedding has length one and only positive weights.
  lemma EmbeddingIsUnit(tokens: seq<string>, root: real, v: map<string, real>)
    requires tokens != [] && IsNorm(Sparse(Counts(tokens)), root)
    requires v.Keys == Counts(tokens).Keys
    requires forall t | t in v :: root > 0.0 && v[t] == Counts(tokens)[t] / root
    ensures AllPositive(v) && IsNorm(Sparse(v), 1.0)
  {
    hide Dot, Counts, IsNorm;
    CountsHaveLength(tokens, root);
    CountsPositive(tokens);
    var c, i := Counts(tokens), 1.0 / root;
    ScaledByRoot(c, v, root);
    ScaledNorm(c, v, i);
    NormMeans(c, root);
    InverseSquare(root, i, Dot(c, c));
    NormMeans(v, 1.0);
  }

  lemma NormMeans(m: map<string, real>, n: real)
    ensures IsNorm(Sparse(m), n) <==> n >= 0.0 && Dot(m, m) == n * n
  {
  }

  lemma ScaledByRoot(c: map<string, real>, v: map<string, real>, root: real)
    requires AllPositive(c) && v.Keys == c.Keys && root > 0.0 && forall t | t in v :: v[t] == c[t] / root
    ensures AllPositive(v) && forall t | t in v :: v[t] == (1.0 / root) * c[t]
  {
    forall t | t in v
      ensures v[t] == (1.0 / root) * c[t] && v[t] > 0.0
    {
      Quotient(c[t], root);
    }
  }

  // Scaling every weight scales the squared norm by the square.
  lemma ScaledNorm(c: map<string, real>, v: map<string, real>, i: real)
    requires v.Keys == c.Keys && forall t | t in v :: v[t] == i * c[t]
    ensures Dot(v, v) == (i * i) * Dot(c, c)
  {
    hide Sum;
    var f, g := Times(Weights(c), Weights(c)), Times(Weights(v), Weights(v));
    forall t | t in v.Keys
      ensures g(t) == Scale(i * i, f)(t)
    {
      assert g(t) == v[t] * v[t] && f(t) == c[t] * c[t];
      RegroupTo(i, c[t], v[t]);
    }
    SumAgree(v.Keys, g, Scale(i * i, f));
    SumScale(c.Keys, i * i, f);
    SelfDotIs(v);
    SelfDotIs(c);
  }

  lemma SelfDotIs(m: map<string, real>)
    ensures Dot(m, m) == Sum(m.Keys, Times(Weights(m), Weights(m)))
  {
    assert m.Keys + m.Keys == m.Keys;
  }

  lemma Quotient(x: real, root: real)
    requires root > 0.0
    ensures x / root == (1.0 / root) * x
    ensures x > 0.0 ==> x / root > 0.0
  {
  }

  lemma Regroup(i: real, x: real)
    ensures (i * x) * (i * x) == (i * i) * (x * x)
  {
  }

  lemma RegroupTo(i: real, x: real, y: real)
    requires y == i * x
    ensures y * y == (i * i) * (x * x)
  {
    Regroup(i, x);
  }

  lemma InverseSquare(root: real, inverse: real, square: real)
    requires root > 0.0 && inverse == 1.0 / root && square == root * root
    ensures (inverse * inverse) * square == 1.0
  {
  }

  // Between vectors of positive weights the similarity is never negative, and it
  // is zero exactly when they share no term.
  lemma SharedTerms(a: map<string, real>, b: map<string, real>, na: real, nb: real)
    requires AllPositive(a) && AllPositive(b)
    requires IsNorm(Sparse(a), na) && IsNorm(Sparse(b), nb)
    ensures Cosine(Sparse(a), Sparse(b), na, nb).Ok?
    ensures Cosine(Sparse(a), Sparse(b), na, nb).value >= 0.0
    ensures Cosine(Sparse(a), Sparse(b), na, nb).value == 0.0 <==> a.Keys !! b.Keys
  {
    if a != map[] && b != map[] {
      SmallDotIsDot(a, b);
      DotSign(a, b);
      SquaredNormSign(a);
      SquaredNormSign(b);
      hide Dot, SmallDot;
      RatioSign(Dot(a, b), na, nb);
    }
  }

  lemma DotSign(a: map<string, real>, b: map<string, real>)
    requires AllPositive(a) && AllPositive(b)
    ensures Dot(a, b) >= 0.0
    ensures Dot(a, b) == 0.0 <==> a.Keys !! b.Keys
  {
    var f := Times(Weights(a), Weights(b));
    var keys := a.Keys + b.Keys;
    forall k | k in keys
      ensures f(k) >= 0.0
      ensures f(k) != 0.0 <==> k in a && k in b
    {
      if k in a && k in b { Positive(a[k], b[k], f(k)); }
    }
    SumNotNegative(keys, f);
    if a.Keys !! b.Keys {
      SumRestrict(keys, {}, f);
    } else {
      var k :| k in a.Keys && k in b.Keys;
      assert f(k) > 0.0;
    }
  }

  lemma RatioSign(dot: real, na: real, nb: real)
    requires dot >= 0.0 && na >= 0.0 && nb >= 0.0 && na * na > 0.0 && nb * nb > 0.0
    ensures Ratio(dot, na, nb) >= 0.0
    ensures Ratio(dot, na, nb) == 0.0 <==> dot == 0.0
  {
    Positive(na, nb, na * nb);
    Quotient(dot, na * nb);
  }
}
