/** Left folds over sequences, and what a fold inherits from its step. */
module Folds {
  function Fold<S, B>(step: (S, B) -> S, s: S, xs: seq<B>): S
    decreases xs
  {
    if xs == [] then s else Fold(step, step(s, xs[0]), xs[1..])
  }

  lemma {:induction false} FoldAppend<S, B>(step: (S, B) -> S, s: S, xs: seq<B>, ys: seq<B>)
    ensures Fold(step, s, xs + ys) == Fold(step, Fold(step, s, xs), ys)
    decreases xs
  {
    if xs == [] {
      assert xs + ys == ys;
    } else {
      assert (xs + ys)[0] == xs[0] && (xs + ys)[1..] == xs[1..] + ys;
      FoldAppend(step, step(s, xs[0]), xs[1..], ys);
    }
  }

  lemma FoldSnoc<S, B>(step: (S, B) -> S, s: S, xs: seq<B>, x: B)
    ensures Fold(step, s, xs + [x]) == step(Fold(step, s, xs), x)
  {
    FoldAppend(step, s, xs, [x]);
    var t := Fold(step, s, xs);
    assert Fold(step, t, [x]) == Fold(step, step(t, x), []);
  }

  lemma FoldTwo<S, B>(step: (S, B) -> S, s: S, xs: seq<B>, x: B, y: B)
    ensures Fold(step, s, xs + [x, y]) == step(step(Fold(step, s, xs), x), y)
  {
    FoldSnoc(step, s, xs, x);
    FoldSnoc(step, s, xs + [x], y);
    assert xs + [x, y] == xs + [x] + [y];
  }

  /** A step that loses no state makes a fold that loses no state. */
  lemma {:induction false} FoldInjective<S(!new), B(!new)>(step: (S, B) -> S, s: S, t: S, xs: seq<B>)
    requires forall p: S, q: S, x: B :: step(p, x) == step(q, x) ==> p == q
    requires Fold(step, s, xs) == Fold(step, t, xs)
    ensures s == t
    decreases xs
  {
    if xs != [] {
      FoldInjective(step, step(s, xs[0]), step(t, xs[0]), xs[1..]);
    }
  }

  function Iterate<S>(f: S -> S, n: nat, s: S): S {
    if n == 0 then s else Iterate(f, n - 1, f(s))
  }

  lemma {:induction false} IterateInjective<S(!new)>(f: S -> S, n: nat, s: S, t: S)
    requires forall p: S, q: S :: f(p) == f(q) ==> p == q
    requires Iterate(f, n, s) == Iterate(f, n, t)
    ensures s == t
  {
    if n > 0 {
      IterateInjective(f, n - 1, f(s), f(t));
    }
  }

  lemma IterateEight<S>(f: S -> S, s: S)
    ensures Iterate(f, 8, s) == f(f(f(f(f(f(f(f(s))))))))
  {
    var s1 := f(s);
    var s2 := f(s1);
    var s3 := f(s2);
    var s4 := f(s3);
    assert Iterate(f, 8, s) == Iterate(f, 7, s1) == Iterate(f, 6, s2) == Iterate(f, 5, s3) == Iterate(f, 4, s4);
    assert Iterate(f, 4, s4) == Iterate(f, 3, f(s4)) == Iterate(f, 2, f(f(s4)));
    assert Iterate(f, 2, f(f(s4))) == Iterate(f, 1, f(f(f(s4)))) == Iterate(f, 0, f(f(f(f(s4)))));
  }

  /** Iterating a linear step is linear. */
  lemma {:induction false} IterateLinear<S(!new)>(f: S -> S, add: (S, S) -> S, n: nat, a: S, b: S)
    requires forall p: S, q: S :: f(add(p, q)) == add(f(p), f(q))
    ensures Iterate(f, n, add(a, b)) == add(Iterate(f, n, a), Iterate(f, n, b))
  {
    if n > 0 {
      IterateLinear(f, add, n - 1, f(a), f(b));
    }
  }

  function FoldRight<S, B>(cons: (B, S) -> S, nil: S, xs: seq<B>): S {
    if xs == [] then nil else cons(xs[0], FoldRight(cons, nil, xs[1..]))
  }

  /** When each step is `shift` after adding one symbol, a whole string can be added in advance. */
  lemma {:induction false} FoldAddedInAdvance<S(!new), B(!new)>(
      step: (S, B) -> S, shift: S -> S, add: (S, S) -> S, cons: (B, S) -> S, nil: S,
      fits: (S, nat) -> bool, s: S, xs: seq<B>, limit: nat)
    requires |xs| <= limit
    requires forall p: S :: add(p, nil) == p
    requires fits(nil, 0)
    requires forall x: B, q: S, n: nat :: n < limit && fits(q, n) ==> fits(cons(x, q), n + 1)
    requires forall p: S, x: B, q: S, n: nat :: n < limit && fits(q, n) ==> shift(add(p, cons(x, q))) == add(step(p, x), q)
    ensures fits(FoldRight(cons, nil, xs), |xs|)
    ensures Fold(step, s, xs) == Iterate(shift, |xs|, add(s, FoldRight(cons, nil, xs)))
    decreases xs
  {
    if xs != [] {
      FoldAddedInAdvance(step, shift, add, cons, nil, fits, step(s, xs[0]), xs[1..], limit);
    }
  }

  lemma {:induction false} FoldRightInjective<S(!new), B(!new)>(
      cons: (B, S) -> S, nil: S, fits: (S, nat) -> bool, xs: seq<B>, ys: seq<B>, limit: nat)
    requires |xs| == |ys| <= limit
    requires fits(nil, 0)
    requires forall x: B, q: S, n: nat :: n < limit && fits(q, n) ==> fits(cons(x, q), n + 1)
    requires forall x: B, y: B, p: S, q: S, n: nat ::
               n < limit && fits(p, n) && fits(q, n) && cons(x, p) == cons(y, q) ==> x == y && p == q
    ensures fits(FoldRight(cons, nil, xs), |xs|) && fits(FoldRight(cons, nil, ys), |ys|)
    ensures FoldRight(cons, nil, xs) == FoldRight(cons, nil, ys) ==> xs == ys
  {
    if xs != [] {
      FoldRightInjective(cons, nil, fits, xs[1..], ys[1..], limit);
      assert xs == [xs[0]] + xs[1..] && ys == [ys[0]] + ys[1..];
    }
  }

  lemma FoldRightCons<S, B>(cons: (B, S) -> S, nil: S, x: B, xs: seq<B>)
    ensures FoldRight(cons, nil, [x] + xs) == cons(x, FoldRight(cons, nil, xs))
  {
    assert ([x] + xs)[1..] == xs;
  }

  lemma FoldRightEight<S, B>(cons: (B, S) -> S, nil: S, a: B, b: B, c: B, d: B, e: B, f: B, g: B, h: B)
    ensures FoldRight(cons, nil, [a, b, c, d, e, f, g, h])
         == cons(a, cons(b, cons(c, cons(d, cons(e, cons(f, cons(g, cons(h, nil))))))))
  {
    var s7 := [h] + [];
    var s6 := [g] + s7;
    var s5 := [f] + s6;
    var s4 := [e] + s5;
    var s3 := [d] + s4;
    var s2 := [c] + s3;
    var s1 := [b] + s2;
    FoldRightCons(cons, nil, h, []);
    FoldRightCons(cons, nil, g, s7);
    FoldRightCons(cons, nil, f, s6);
    FoldRightCons(cons, nil, e, s5);
    FoldRightCons(cons, nil, d, s4);
    FoldRightCons(cons, nil, c, s3);
    FoldRightCons(cons, nil, b, s2);
    FoldRightCons(cons, nil, a, s1);
    assert [a, b, c, d, e, f, g, h] == [a] + s1;
  }
}
