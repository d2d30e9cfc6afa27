/** Sparse token vectors and their cosine: `scripts/s108-retrieval-ablation.ts`, lines 575-601. */
module RetrievalVectors {
  import opened JsText
  import opened RealArithmetic
  import opened RetrievalScores

  /** A `Map<string, number>`: the keys in insertion order, and their values. */
  datatype Vector = Vector(keys: seq<string>, values: map<string, real>) {
    ghost predicate Valid() {
      && Distinct(keys)
      && (forall k :: k in keys <==> k in values)
      && (forall k | k in values :: values[k] > 0.0)
    }

    function Get(k: string): real {
      GetOr(values, k, 0.0)
    }

    /** `set(k, (get(k) ?? 0) + x)`. */
    function Bump(k: string, x: real): Vector {
      Vector(if k in values then keys else keys + [k], values[k := Get(k) + x])
    }
  }

  const EMPTY := Vector([], map[])

  // ---------- Vectorising ----------

  function Gram(token: string, i: nat): string
    requires i + 3 <= |token|
  {
    "g:" + token[i..i + 3]
  }

  /** How many three-letter windows a token has: short tokens are not cut up. */
  function Windows(token: string): (r: nat)
    ensures r == 0 || r + 2 == |token|
  {
    if |token| >= 5 then |token| - 2 else 0
  }

  ghost function AddGrams(v: Vector, token: string, n: nat): Vector
    requires n <= Windows(token)
  {
    if n == 0 then v else AddGrams(v, token, n - 1).Bump(Gram(token, n - 1), 0.2)
  }

  ghost function AddToken(v: Vector, token: string): Vector {
    AddGrams(v.Bump(token, 1.0), token, Windows(token))
  }

  ghost function Vectorized(tokens: seq<string>): Vector {
    if tokens == [] then EMPTY else AddToken(Vectorized(tokens[..|tokens| - 1]), tokens[|tokens| - 1])
  }

  method Vectorize(tokens: seq<string>) returns (vector: Vector)
    ensures vector == Vectorized(tokens)
  {
    vector := EMPTY;
    for t := 0 to |tokens|
      invariant vector == Vectorized(tokens[..t])
    {
      var token := tokens[t];
      ghost var start := vector.Bump(token, 1.0);
      vector := vector.Bump(token, 1.0);
      if |token| >= 5 {
        for i := 0 to |token| - 2
          invariant vector == AddGrams(start, token, i)
        {
          vector := vector.Bump("g:" + token[i..i + 3], 0.2);
        }
      }
      assert tokens[..t + 1][..t] == tokens[..t];
    }
    assert tokens[..|tokens|] == tokens;
  }

  /** How many of a token's first `n` windows spell a key. */
  ghost function GramCount(token: string, n: nat, k: string): nat
    requires n <= Windows(token)
  {
    if n == 0 then 0 else GramCount(token, n - 1, k) + if Gram(token, n - 1) == k then 1 else 0
  }

  /** The weight of a key: one for each token it is, a fifth for each window of a long token it names. */
  ghost function Mass(tokens: seq<string>, k: string): real {
    if tokens == [] then 0.0 else
      var token := tokens[|tokens| - 1];
      Mass(tokens[..|tokens| - 1], k) + (if token == k then 1.0 else 0.0)
        + 0.2 * GramCount(token, Windows(token), k) as real
  }

  lemma BumpAdds(v: Vector, k: string, x: real)
    requires v.Valid() && x > 0.0
    ensures v.Bump(k, x).Valid()
    ensures forall j :: v.Bump(k, x).Get(j) == v.Get(j) + if j == k then x else 0.0
  {
    var w := v.Bump(k, x);
    assert forall j :: j in w.keys <==> j in v.keys || j == k;
  }

  lemma {:induction false} GramsAdd(v: Vector, token: string, n: nat)
    requires v.Valid() && n <= Windows(token)
    ensures AddGrams(v, token, n).Valid()
    ensures forall k :: AddGrams(v, token, n).Get(k) == v.Get(k) + 0.2 * GramCount(token, n, k) as real
  {
    if n == 0 {
    } else {
      GramsAdd(v, token, n - 1);
      BumpAdds(AddGrams(v, token, n - 1), Gram(token, n - 1), 0.2);
    }
  }

  /** What vectorising means, key by key; every entry that is stored is positive. */
  lemma {:induction false} VectorMeaning(tokens: seq<string>)
    ensures Vectorized(tokens).Valid()
    ensures forall k :: Vectorized(tokens).Get(k) == Mass(tokens, k)
    ensures Vectorized(tokens).keys == [] <==> tokens == []
  {
    if tokens == [] {
    } else {
      var init, token := tokens[..|tokens| - 1], tokens[|tokens| - 1];
      VectorMeaning(init);
      var v := Vectorized(init);
      BumpAdds(v, token, 1.0);
      GramsAdd(v.Bump(token, 1.0), token, Windows(token));
      hide AddGrams, GramCount;
      assert Vectorized(tokens).Get(token) >= 1.0;
    }
  }

  lemma {:induction false} MassAdds(p: seq<string>, q: seq<string>, k: string)
    ensures Mass(p + q, k) == Mass(p, k) + Mass(q, k)
  {
    hide GramCount, Windows;
    if q == [] {
      assert p + q == p;
    } else {
      var n := |q| - 1;
      MassAdds(p, q[..n], k);
      assert (p + q)[..|p| + n] == p + q[..n];
    }
  }

  ghost predicate Spells(token: string, i: int, k: string) {
    0 <= i <= |token| - 3 && k == "g:" + token[i..i + 3]
  }

  ghost function Places(token: string, n: int, k: string): set<int> {
    set i | 0 <= i < n && Spells(token, i, k)
  }

  lemma PlacesStep(token: string, n: nat, k: string)
    ensures |Places(token, n + 1, k)| == |Places(token, n, k)| + if Spells(token, n, k) then 1 else 0
  {
    hide Spells;
    assert Places(token, n + 1, k) == Places(token, n, k) + if Spells(token, n, k) then {n} else {};
  }

  lemma {:induction false} GramCountIsNumber(token: string, n: nat, k: string)
    requires n <= Windows(token)
    ensures GramCount(token, n, k) == |Places(token, n, k)|
  {
    if n == 0 {
      assert Places(token, n, k) == {};
    } else {
      GramCountIsNumber(token, n - 1, k);
      PlacesStep(token, n - 1, k);
      hide Places;
    }
  }

  /** Tokens weigh in one by one. */
  lemma VectorAdds(p: seq<string>, q: seq<string>, k: string)
    ensures Vectorized(p + q).Get(k) == Vectorized(p).Get(k) + Vectorized(q).Get(k)
  {
    hide Vectorized, Mass;
    VectorMeaning(p);
    VectorMeaning(q);
    VectorMeaning(p + q);
    MassAdds(p, q, k);
  }

  /** One token: 1 for itself and, from five letters on, a fifth for each of its three-letter windows. */
  lemma VectorOfOne(token: string, k: string)
    ensures var grams := set i | 5 <= |token| && 0 <= i <= |token| && Spells(token, i, k);
      Vectorized([token]).Get(k) == (if token == k then 1.0 else 0.0) + 0.2 * |grams| as real
  {
    hide Vectorized;
    VectorMeaning([token]);
    MassAdds([], [token], k);
    GramCountIsNumber(token, Windows(token), k);
    assert [token][..0] == [];
    var grams := set i | 5 <= |token| && 0 <= i <= |token| && Spells(token, i, k);
    assert grams == Places(token, Windows(token), k);
  }

  // ---------- Cosine ----------

  ghost function Product(k: string, a: Vector, b: Vector): real {
    Times(a.Get(k), b.Get(k))
  }

  /** The products of two vectors' entries, summed over a list of keys. */
  ghost function Dot(keys: seq<string>, a: Vector, b: Vector): real {
    if keys == [] then 0.0 else
      var n := |keys| - 1;
      Dot(keys[..n], a, b) + Product(keys[n], a, b)
  }

  lemma NormStep(v: Vector, i: nat)
    requires v.Valid() && i < |v.keys|
    ensures v.keys[i] in v.values
    ensures var x := v.values[v.keys[i]]; Dot(v.keys[..i + 1], v, v) == Dot(v.keys[..i], v, v) + Times(x, x)
  {
    assert v.keys[..i + 1][..i] == v.keys[..i] && v.keys[i] in v.keys;
  }

  lemma ProductStep(a: Vector, b: Vector, i: nat)
    requires a.Valid() && i < |a.keys|
    ensures a.keys[i] in a.values
    ensures var x := a.values[a.keys[i]];
      Dot(a.keys[..i + 1], a, b) == Dot(a.keys[..i], a, b) + Times(x, GetOr(b.values, a.keys[i], 0.0))
  {
    assert a.keys[..i + 1][..i] == a.keys[..i] && a.keys[i] in a.keys;
  }

  lemma DotOfOne(k: string, a: Vector, b: Vector)
    ensures Dot([k], a, b) == a.Get(k) * b.Get(k)
  {
    assert [k][..0] == [];
  }

  /** A dot product adds up key by key, and one key gives the product of its two weights. */
  lemma {:induction false} DotAdds(p: seq<string>, q: seq<string>, a: Vector, b: Vector)
    ensures Dot(p + q, a, b) == Dot(p, a, b) + Dot(q, a, b)
    ensures forall k :: Dot([k], a, b) == a.Get(k) * b.Get(k)
  {
    hide Product;
    if q == [] {
      assert p + q == p;
      forall k ensures Dot([k], a, b) == a.Get(k) * b.Get(k) { DotOfOne(k, a, b); }
    } else {
      var n := |q| - 1;
      DotAdds(p, q[..n], a, b);
      assert (p + q)[..|p| + n] == p + q[..n];
    }
  }

  ghost function SquaredNorm(v: Vector): real {
    Dot(v.keys, v, v)
  }

  ghost function CosineOf(math: MathLibrary, left: Vector, right: Vector): real {
    if left.keys == [] || right.keys == [] || SquaredNorm(left) == 0.0 || SquaredNorm(right) == 0.0 then 0.0 else
      var root := math.sqrt(Times(SquaredNorm(left), SquaredNorm(right)));
      if root == 0.0 then 0.0 else Dot(left.keys, left, right) / root
  }

  lemma NoKeys(math: MathLibrary, a: Vector, b: Vector)
    requires a.keys == [] || b.keys == []
    ensures CosineOf(math, a, b) == 0.0
  {
  }

  lemma DotOfNothing(a: Vector, b: Vector)
    ensures Dot([], a, b) == 0.0
  {
  }

  ghost predicate NonNegative(v: Vector) {
    forall k :: v.Get(k) >= 0.0
  }

  lemma ValidIsNonNegative(v: Vector)
    requires v.Valid()
    ensures NonNegative(v)
  {
  }

  lemma {:induction false} DotIsNonNegative(keys: seq<string>, a: Vector, b: Vector)
    requires NonNegative(a) && NonNegative(b)
    ensures Dot(keys, a, b) >= 0.0
  {
    hide Times;
    if keys == [] {
    } else {
      var n := |keys| - 1;
      DotIsNonNegative(keys[..n], a, b);
      TimesSigns(a.Get(keys[n]), b.Get(keys[n]));
    }
  }

  lemma NormIsPositive(v: Vector)
    requires v.Valid() && v.keys != []
    ensures SquaredNorm(v) > 0.0
  {
    hide Times;
    ValidIsNonNegative(v);
    var n := |v.keys| - 1;
    DotIsNonNegative(v.keys[..n], v, v);
    assert v.keys[n] in v.keys;
    TimesSigns(v.Get(v.keys[n]), v.Get(v.keys[n]));
  }

  lemma RootOf(math: MathLibrary, x: real)
    requires math.Sound() && x > 0.0
    ensures math.sqrt(x) > 0.0 && Times(math.sqrt(x), math.sqrt(x)) == x
  {
    assert math.sqrt(x) * math.sqrt(x) == x;
    assert Times(0.0, 0.0) == 0.0;
  }

  /** The division by the root is never a division by zero. */
  lemma CosineFormula(math: MathLibrary, a: Vector, b: Vector)
    requires math.Sound() && a.Valid() && b.Valid() && a.keys != [] && b.keys != []
    ensures SquaredNorm(a) > 0.0 && SquaredNorm(b) > 0.0
    ensures var product := Times(SquaredNorm(a), SquaredNorm(b)); var root := math.sqrt(product);
      root > 0.0 && Times(root, root) == product && CosineOf(math, a, b) == Dot(a.keys, a, b) / root
  {
    hide SquaredNorm, Dot, Vector.Valid;
    NormIsPositive(a);
    NormIsPositive(b);
    TimesSigns(SquaredNorm(a), SquaredNorm(b));
    RootOf(math, Times(SquaredNorm(a), SquaredNorm(b)));
    hide Times;
  }

  method Cosine(math: MathLibrary, left: Vector, right: Vector) returns (result: real)
    requires math.Sound() && left.Valid() && right.Valid()
    ensures result == CosineOf(math, left, right)
  {
    hide Times, CosineOf, Dot, Product, Vector.Valid, Vector.Get, Vector.Bump, GetOr, MathLibrary.Sound;
    if |left.keys| == 0 || |right.keys| == 0 {
      NoKeys(math, left, right);
      return 0.0;
    }
    CosineFormula(math, left, right);
    var dot, leftNorm, rightNorm := 0.0, 0.0, 0.0;
    DotOfNothing(left, left);
    for i := 0 to |left.keys|
      invariant leftNorm == Dot(left.keys[..i], left, left)
    {
      NormStep(left, i);
      var value := left.values[left.keys[i]];
      leftNorm := leftNorm + Times(value, value);
    }
    DotOfNothing(right, right);
    for i := 0 to |right.keys|
      invariant rightNorm == Dot(right.keys[..i], right, right)
    {
      NormStep(right, i);
      var value := right.values[right.keys[i]];
      rightNorm := rightNorm + Times(value, value);
    }
    DotOfNothing(left, right);
    for i := 0 to |left.keys|
      invariant dot == Dot(left.keys[..i], left, right)
    {
      ProductStep(left, right, i);
      var key := left.keys[i];
      dot := dot + Times(left.values[key], GetOr(right.values, key, 0.0));
    }
    assert left.keys[..|left.keys|] == left.keys && right.keys[..|right.keys|] == right.keys;
    assert leftNorm == SquaredNorm(left) && rightNorm == SquaredNorm(right);
    if leftNorm == 0.0 || rightNorm == 0.0 { return 0.0; }
    return dot / math.sqrt(Times(leftNorm, rightNorm));
  }

  lemma {:induction false} DotWithout(keys: seq<string>, j: nat, a: Vector, b: Vector)
    requires j < |keys|
    ensures Dot(keys, a, b) == Dot(keys[..j] + keys[j + 1..], a, b) + Product(keys[j], a, b)
  {
    hide Product;
    var n := |keys| - 1;
    var rest := keys[..j] + keys[j + 1..];
    if j == n {
      assert rest == keys[..n];
    } else {
      DotWithout(keys[..n], j, a, b);
      assert rest[..n - 1] == keys[..n][..j] + keys[..n][j + 1..];
      assert rest[n - 1] == keys[n] && keys[..n][j] == keys[j];
    }
  }

  /** Distinct keys that matter only inside `big` sum to no more than `big` does. */
  lemma {:induction false} DotOverSubset(small: seq<string>, big: seq<string>, a: Vector, b: Vector)
    requires NonNegative(a) && NonNegative(b) && Distinct(small)
    requires forall k | k in small && k !in big :: Product(k, a, b) == 0.0
    ensures Dot(small, a, b) <= Dot(big, a, b)
  {
    hide Product, NonNegative;
    if small == [] {
      DotIsNonNegative(big, a, b);
    } else {
      var n := |small| - 1;
      var k := small[n];
      assert small[n] !in small[..n];
      if k in big {
        var j :| 0 <= j < |big| && big[j] == k;
        DotWithout(big, j, a, b);
        var rest := big[..j] + big[j + 1..];
        forall i | i in small[..n] && i !in rest ensures Product(i, a, b) == 0.0 {
          assert i in big ==> i in rest by { assert big == big[..j] + [k] + big[j + 1..]; }
        }
        DotOverSubset(small[..n], rest, a, b);
      } else {
        DotOverSubset(small[..n], big, a, b);
      }
    }
  }

  lemma {:induction false} CauchySchwarz(keys: seq<string>, a: Vector, b: Vector)
    ensures Dot(keys, a, a) >= 0.0 && Dot(keys, b, b) >= 0.0
    ensures Times(Dot(keys, a, b), Dot(keys, a, b)) <= Times(Dot(keys, a, a), Dot(keys, b, b))
  {
    if keys == [] {
    } else {
      hide Times;
      var n := |keys| - 1;
      CauchySchwarz(keys[..n], a, b);
      CauchySchwarzStep(Dot(keys[..n], a, b), Dot(keys[..n], a, a), Dot(keys[..n], b, b),
                        a.Get(keys[n]), b.Get(keys[n]));
    }
  }

  lemma OutsideIsZero(keys: seq<string>, a: Vector, b: Vector)
    requires b.Valid()
    ensures forall k | k in keys && k !in b.keys :: Product(k, a, b) == 0.0 == Product(k, b, a)
  {
  }

  /** The dot product, taken over the left keys only, is at most the product of the norms. */
  lemma DotBelowNorms(a: Vector, b: Vector)
    requires a.Valid() && b.Valid()
    ensures 0.0 <= Dot(a.keys, a, b)
    ensures Times(Dot(a.keys, a, b), Dot(a.keys, a, b)) <= Times(SquaredNorm(a), SquaredNorm(b))
  {
    hide Times, Dot;
    ValidIsNonNegative(a);
    ValidIsNonNegative(b);
    DotIsNonNegative(a.keys, a, b);
    CauchySchwarz(a.keys, a, b);
    OutsideIsZero(a.keys, b, b);
    DotOverSubset(a.keys, b.keys, b, b);
    TimesMonotone(Dot(a.keys, b, b), SquaredNorm(b), SquaredNorm(a));
    TimesSigns(SquaredNorm(a), Dot(a.keys, b, b));
    TimesSigns(SquaredNorm(a), SquaredNorm(b));
  }

  lemma CosineRange(math: MathLibrary, a: Vector, b: Vector)
    requires math.Sound() && a.Valid() && b.Valid()
    ensures 0.0 <= CosineOf(math, a, b) <= 1.0
  {
    if a.keys == [] || b.keys == [] {
      NoKeys(math, a, b);
    } else {
      hide CosineOf, Times, Dot, SquaredNorm, Vector.Valid, MathLibrary.Sound;
      CosineFormula(math, a, b);
      DotBelowNorms(a, b);
      var root, dot := math.sqrt(Times(SquaredNorm(a), SquaredNorm(b))), Dot(a.keys, a, b);
      SquaresOrder(dot, root);
      Quotient(dot, root);
    }
  }

  lemma {:induction false} DotCommutes(keys: seq<string>, a: Vector, b: Vector)
    ensures Dot(keys, a, b) == Dot(keys, b, a)
  {
    hide Times;
    if keys == [] {
    } else {
      var n := |keys| - 1;
      DotCommutes(keys[..n], a, b);
      TimesSigns(a.Get(keys[n]), b.Get(keys[n]));
    }
  }

  /** Although only the left keys are walked, the two arguments may change places. */
  lemma CosineIsSymmetric(math: MathLibrary, a: Vector, b: Vector)
    requires a.Valid() && b.Valid()
    ensures CosineOf(math, a, b) == CosineOf(math, b, a)
  {
    hide Times, Dot;
    ValidIsNonNegative(a);
    ValidIsNonNegative(b);
    OutsideIsZero(a.keys, a, b);
    OutsideIsZero(b.keys, b, a);
    DotOverSubset(a.keys, b.keys, a, b);
    DotOverSubset(b.keys, a.keys, a, b);
    DotCommutes(b.keys, a, b);
    TimesSigns(SquaredNorm(a), SquaredNorm(b));
  }

  lemma CosineOfItself(math: MathLibrary, v: Vector)
    requires math.Sound() && v.Valid() && v.keys != []
    ensures CosineOf(math, v, v) == 1.0
  {
    CosineFormula(math, v, v);
    var norm := SquaredNorm(v);
    var root := math.sqrt(Times(norm, norm));
    assert Dot(v.keys, v, v) == norm;
    hide CosineOf, Times, Dot, SquaredNorm, Vector.Valid, MathLibrary.Sound;
    SquaresOrder(root, norm);
    SquaresOrder(norm, root);
    Quotient(norm, root);
  }
}
