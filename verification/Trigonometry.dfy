/**
 The transcendental functions the repository calls, as values constrained only by laws.
 Every result that mentions them holds for any functions with these laws.
 */
module Trigonometry {

  datatype Trig = Trig(cos: real -> real, sin: real -> real, pi: real) {

    ghost predicate AdditionAt(x: real, y: real) {
      && cos(x + y) == cos(x) * cos(y) - sin(x) * sin(y)
      && sin(x + y) == sin(x) * cos(y) + cos(x) * sin(y)
    }

    ghost predicate ParityAt(x: real) {
      cos(-x) == cos(x) && sin(-x) == -sin(x)
    }

    /** The addition formulas, parity, and the value at pi. */
    ghost predicate Lawful() {
      && 0.0 < pi && cos(pi) == -1.0 && sin(pi) == 0.0
      && (forall x, y :: AdditionAt(x, y))
      && (forall x :: ParityAt(x))
    }

    /** The range of the cosine follows from the addition formula at x and -x. */
    lemma CosineRange(x: real)
      requires Lawful()
      ensures cos(0.0) == 1.0 && sin(0.0) == 0.0
      ensures -1.0 <= cos(x) <= 1.0
    {
      assert AdditionAt(0.0, pi) && ParityAt(0.0) && AdditionAt(x, -x) && ParityAt(x);
      var c, s := cos(x), sin(x);
      assert 0.0 + pi == pi && x + -x == 0.0;
      assert c * c + s * s == 1.0;
      SquareBound(c, s);
    }
  }

  lemma SquareBound(c: real, s: real)
    requires c * c + s * s == 1.0
    ensures -1.0 <= c <= 1.0
  {
    assert 0.0 <= s * s;
    if !(-1.0 <= c <= 1.0) {
      SquareAboveOne(if c < 0.0 then -c else c);
      assert false;
    }
  }

  lemma SquareAboveOne(c: real)
    requires 1.0 < c
    ensures 1.0 < c * c
  {
  }
}
