/** Shift registers in the abstract: a register type `R` with a shift `f`, a mixing
    operation `x` and an embedding `w` of bytes. The laws below are all the CRC proofs use. */
module Register {
  import opened Bytes

  function Iterate<R>(f: R -> R, c: R, n: nat): R
    decreases n
  {
    if n == 0 then c else Iterate(f, f(c), n - 1)
  }

  function Fold<R>(g: (R, byte) -> R, c: R, data: bytes): R
    decreases |data|
  {
    if data == [] then c else Fold(g, g(c, data[0]), data[1..])
  }

  /** Mix one byte in, then shift eight times. */
  function Feeding<R>(f: R -> R, x: (R, R) -> R, w: byte -> R): (R, byte) -> R {
    (c: R, b: byte) => Iterate(f, x(c, w(b)), 8)
  }

  /** Shifting is linear over mixing, and mixing is associative. */
  ghost predicate Linear<R(!new)>(f: R -> R, x: (R, R) -> R) {
    && (forall p, q :: f(x(p, q)) == x(f(p), f(q)))
    && (forall p, q, r {:trigger x(x(p, q), r)} :: x(x(p, q), r) == x(p, x(q, r)))
  }

  /** Neither shifting nor mixing loses anything. */
  ghost predicate Lossless<R(!new)>(f: R -> R, x: (R, R) -> R) {
    && (forall p, q :: f(p) == f(q) ==> p == q)
    && (forall p, q, r :: x(p, r) == x(q, r) ==> p == q)
    && (forall p, q, r :: x(r, p) == x(r, q) ==> p == q)
  }

  /** `up(m)` comes back down to `m` in eight shifts. */
  ghost predicate Rises<R(!new)>(f: R -> R, up: R -> R, m: R) {
    Iterate(f, up(m), 8) == m
  }

  /** The shift of a feedback register: halve, and mix in `p` when a 1 fell out. */
  function Feedback<R>(odd: R -> bool, half: R -> R, x: (R, R) -> R, p: R): R -> R {
    (c: R) => if odd(c) then x(half(c), p) else half(c)
  }

  ghost predicate Associative<R(!new)>(x: (R, R) -> R) {
    forall a, b, c {:trigger x(x(a, b), c)} :: x(x(a, b), c) == x(a, x(b, c))
  }

  ghost predicate Commutative<R(!new)>(x: (R, R) -> R) {
    forall a, b :: x(a, b) == x(b, a)
  }

  ghost predicate SelfUndoing<R(!new)>(x: (R, R) -> R) {
    forall a, b {:trigger x(x(a, b), b)} :: x(x(a, b), b) == a
  }

  ghost predicate HalvesThrough<R(!new)>(half: R -> R, x: (R, R) -> R) {
    forall a, b :: half(x(a, b)) == x(half(a), half(b))
  }

  ghost predicate ParityThrough<R(!new)>(odd: R -> bool, x: (R, R) -> R) {
    forall a, b :: odd(x(a, b)) == (odd(a) != odd(b))
  }

  /** Mixing is bitwise: an abelian group where everything undoes itself,
      followed bit by bit by `odd` and `half`. */
  ghost predicate Bitwise<R(!new)>(odd: R -> bool, half: R -> R, x: (R, R) -> R) {
    && Associative(x) && Commutative(x) && SelfUndoing(x)
    && HalvesThrough(half, x) && ParityThrough(odd, x)
  }

  lemma FeedbackLinear<R(!new)>(odd: R -> bool, half: R -> R, x: (R, R) -> R, p: R)
    requires Bitwise(odd, half, x)
    ensures Linear(Feedback(odd, half, x, p), x)
  {
    var f := Feedback(odd, half, x, p);
    forall a, b ensures f(x(a, b)) == x(f(a), f(b)) {
      var ha, hb := half(a), half(b);
      MixTwice(odd, half, x, ha, hb, p);
    }
  }

  lemma MixTwice<R(!new)>(odd: R -> bool, half: R -> R, x: (R, R) -> R, a: R, b: R, p: R)
    requires Bitwise(odd, half, x)
    ensures x(x(a, p), b) == x(x(a, b), p) == x(a, x(b, p))
    ensures x(x(a, p), x(b, p)) == x(a, b)
  {
    assert x(p, b) == x(b, p);
    assert x(x(a, p), b) == x(a, x(p, b));
    assert x(x(x(a, p), b), p) == x(x(a, p), x(b, p));
    assert x(x(x(a, b), p), p) == x(a, b);
  }

  /** A word is its low bit and its half, and `p` marks the halves a 1 fell out of. */
  lemma FeedbackLossless<R(!new)>(odd: R -> bool, half: R -> R, x: (R, R) -> R, p: R)
    requires Bitwise(odd, half, x)
    requires forall a, b :: odd(a) == odd(b) && half(a) == half(b) ==> a == b
    requires forall a, b :: x(half(a), p) != half(b)
    ensures Lossless(Feedback(odd, half, x, p), x)
  {
    forall a, b, c | x(a, c) == x(b, c) ensures a == b {
      assert x(x(a, c), c) == x(x(b, c), c);
    }
    forall a, b, c | x(c, a) == x(c, b) ensures a == b {
      assert x(x(a, c), c) == x(x(b, c), c);
    }
    var f := Feedback(odd, half, x, p);
    forall a, b | f(a) == f(b) ensures a == b {
      if odd(a) && odd(b) {
        assert x(x(half(a), p), p) == x(x(half(b), p), p);
      }
    }
  }

  lemma {:induction false} IterateLinear<R(!new)>(f: R -> R, x: (R, R) -> R, a: R, b: R, n: nat)
    requires Linear(f, x)
    ensures Iterate(f, x(a, b), n) == x(Iterate(f, a, n), Iterate(f, b, n))
    decreases n
  {
    if n > 0 {
      IterateLinear(f, x, f(a), f(b), n - 1);
    }
  }

  lemma {:induction false} IterateInjective<R(!new)>(f: R -> R, x: (R, R) -> R, a: R, b: R, n: nat)
    requires Lossless(f, x) && Iterate(f, a, n) == Iterate(f, b, n)
    ensures a == b
    decreases n
  {
    if n > 0 {
      IterateInjective(f, x, f(a), f(b), n - 1);
    }
  }

  lemma {:induction false} IterateAdd<R>(f: R -> R, c: R, m: nat, n: nat)
    ensures Iterate(f, c, m + n) == Iterate(f, Iterate(f, c, m), n)
    decreases m
  {
    if m > 0 {
      IterateAdd(f, f(c), m - 1, n);
    }
  }

  lemma {:induction false} IterateAgree<R(!new)>(f: R -> R, g: R -> R, c: R, n: nat)
    requires forall r :: f(r) == g(r)
    ensures Iterate(f, c, n) == Iterate(g, c, n)
    decreases n
  {
    if n > 0 {
      IterateAgree(f, g, f(c), n - 1);
    }
  }

  lemma {:induction false} FoldAgree<R(!new)>(g: (R, byte) -> R, h: (R, byte) -> R, c: R, data: bytes)
    requires forall r, b :: g(r, b) == h(r, b)
    ensures Fold(g, c, data) == Fold(h, c, data)
    decreases |data|
  {
    if data != [] {
      FoldAgree(g, h, g(c, data[0]), data[1..]);
    }
  }

  /** Feeding the same bytes never merges two different registers. */
  lemma {:induction false} FeedInjective<R(!new)>(f: R -> R, x: (R, R) -> R, w: byte -> R, a: R, b: R, data: bytes)
    requires Lossless(f, x) && Fold(Feeding(f, x, w), a, data) == Fold(Feeding(f, x, w), b, data)
    ensures a == b
    decreases |data|
  {
    if data != [] {
      var g := Feeding(f, x, w);
      FeedInjective(f, x, w, g(a, data[0]), g(b, data[0]), data[1..]);
      IterateInjective(f, x, x(a, w(data[0])), x(b, w(data[0])), 8);
    }
  }

  lemma FoldStep<R>(g: (R, byte) -> R, c: R, data: bytes, i: nat)
    requires i < |data|
    ensures Fold(g, c, data[i..]) == Fold(g, g(c, data[i]), data[i + 1..])
  {
    assert data[i..][0] == data[i] && data[i..][1..] == data[i + 1..];
  }

  lemma {:induction false} FoldAppend<R>(g: (R, byte) -> R, c: R, u: bytes, v: bytes)
    ensures Fold(g, c, u + v) == Fold(g, Fold(g, c, u), v)
    decreases |u|
  {
    if u == [] {
      assert u + v == v;
    } else {
      assert (u + v)[0] == u[0] && (u + v)[1..] == u[1..] + v;
      FoldAppend(g, g(c, u[0]), u[1..], v);
    }
  }

  lemma FoldFour<R>(g: (R, byte) -> R, c: R, d: bytes)
    requires |d| == 4
    ensures Fold(g, c, d) == g(g(g(g(c, d[0]), d[1]), d[2]), d[3])
  {
    var c1 := g(c, d[0]);
    var c2 := g(c1, d[1]);
    var c3 := g(c2, d[2]);
    assert d[1..][0] == d[1] && d[1..][1..] == d[2..];
    assert d[2..][0] == d[2] && d[2..][1..] == d[3..];
    assert d[3..][0] == d[3] && d[3..][1..] == [];
    assert Fold(g, c, d) == Fold(g, c1, d[1..]);
    assert Fold(g, c1, d[1..]) == Fold(g, c2, d[2..]);
    assert Fold(g, c2, d[2..]) == Fold(g, c3, d[3..]);
  }

  /** A value can be mixed in before eight shifts instead of after them, a byte higher up. */
  lemma Absorb<R(!new)>(f: R -> R, x: (R, R) -> R, up: R -> R, c: R, m: R, n: nat)
    requires Linear(f, x) && Rises(f, up, m)
    ensures Iterate(f, x(Iterate(f, c, 8), m), n) == Iterate(f, x(c, up(m)), 8 + n)
  {
    IterateLinear(f, x, c, up(m), 8);
    IterateAdd(f, x(c, up(m)), 8, n);
  }

  /** Four bytes, little end first, as one value. */
  function Burst<R>(x: (R, R) -> R, w: byte -> R, up: R -> R, d: bytes): R
    requires |d| == 4
  {
    x(w(d[0]), up(x(w(d[1]), up(x(w(d[2]), up(w(d[3])))))))
  }

  ghost predicate BurstRises<R(!new)>(f: R -> R, x: (R, R) -> R, w: byte -> R, up: R -> R, d: bytes)
    requires |d| == 4
  {
    var m3 := w(d[3]);
    var m2 := x(w(d[2]), up(m3));
    Rises(f, up, m3) && Rises(f, up, m2) && Rises(f, up, x(w(d[1]), up(m2)))
  }

  /** Four bytes enter the register as one value followed by thirty-two shifts. */
  lemma FeedFour<R(!new)>(f: R -> R, x: (R, R) -> R, w: byte -> R, up: R -> R, c: R, d: bytes)
    requires |d| == 4 && Linear(f, x) && BurstRises(f, x, w, up, d)
    ensures Fold(Feeding(f, x, w), c, d) == Iterate(f, x(c, Burst(x, w, up, d)), 32)
  {
    var g := Feeding(f, x, w);
    FoldFour(g, c, d);
    var c1 := g(c, d[0]);
    var c2 := g(c1, d[1]);
    var m3 := w(d[3]);
    var m2 := x(w(d[2]), up(m3));
    var m1 := x(w(d[1]), up(m2));
    Absorb(f, x, up, x(c2, w(d[2])), m3, 8);
    Absorb(f, x, up, x(c1, w(d[1])), m2, 16);
    Absorb(f, x, up, x(c, w(d[0])), m1, 24);
  }

  /** Equal registers after different middles come from one register both middles collapse. */
  lemma SameMiddle<R(!new)>(f: R -> R, x: (R, R) -> R, w: byte -> R, c: R, before: bytes, u: bytes, v: bytes, after: bytes)
    requires Lossless(f, x)
    requires Fold(Feeding(f, x, w), c, before + u + after) == Fold(Feeding(f, x, w), c, before + v + after)
    ensures var c' := Fold(Feeding(f, x, w), c, before);
            Fold(Feeding(f, x, w), c', u) == Fold(Feeding(f, x, w), c', v)
  {
    var g := Feeding(f, x, w);
    var c' := Fold(g, c, before);
    FoldAppend(g, c, before + u, after);
    FoldAppend(g, c, before, u);
    FoldAppend(g, c, before + v, after);
    FoldAppend(g, c, before, v);
    FeedInjective(f, x, w, Fold(g, c', u), Fold(g, c', v), after);
  }

  lemma FourCollapse<R(!new)>(f: R -> R, x: (R, R) -> R, w: byte -> R, up: R -> R, c: R, before: bytes, u: bytes, v: bytes, after: bytes)
    requires |u| == |v| == 4 && Linear(f, x) && Lossless(f, x) && BurstRises(f, x, w, up, u) && BurstRises(f, x, w, up, v)
    requires Fold(Feeding(f, x, w), c, before + u + after) == Fold(Feeding(f, x, w), c, before + v + after)
    ensures Burst(x, w, up, u) == Burst(x, w, up, v)
  {
    SameMiddle(f, x, w, c, before, u, v, after);
    var c' := Fold(Feeding(f, x, w), c, before);
    FeedFour(f, x, w, up, c', u);
    FeedFour(f, x, w, up, c', v);
    IterateInjective(f, x, x(c', Burst(x, w, up, u)), x(c', Burst(x, w, up, v)), 32);
  }

  lemma OneCollapse<R(!new)>(f: R -> R, x: (R, R) -> R, w: byte -> R, c: R, before: bytes, a: byte, b: byte, after: bytes)
    requires Lossless(f, x)
    requires Fold(Feeding(f, x, w), c, before + [a] + after) == Fold(Feeding(f, x, w), c, before + [b] + after)
    ensures w(a) == w(b)
  {
    SameMiddle(f, x, w, c, before, [a], [b], after);
    var g := Feeding(f, x, w);
    var c' := Fold(g, c, before);
    assert Fold(g, c', [a]) == g(c', a) && Fold(g, c', [b]) == g(c', b);
    IterateInjective(f, x, x(c', w(a)), x(c', w(b)), 8);
  }
}
