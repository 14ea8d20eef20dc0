/** The SDK's integer square root by Newton's iteration. */
module SquareRoot {
  import opened Numeric

  predicate IsRoot(n: nat, a: nat) {
    a * a <= n < (a + 1) * (a + 1)
  }

  /** Every number has a floored root. */
  lemma {:induction false} RootExists(n: nat) returns (a: nat)
    ensures IsRoot(n, a)
  {
    if n == 0 {
      a := 0;
    } else {
      a := RootExists(n - 1);
      if (a + 1) * (a + 1) <= n {
        a := a + 1;
      }
    }
  }

  function Pow2(k: nat): (p: nat)
    ensures 1 <= p
  {
    if k == 0 then 1 else 2 * Pow2(k - 1)
  }

  /** One step of the iteration. */
  function NewtonStep(n: nat, x: nat): nat
    requires 0 < x
  {
    (x + n / x) / 2
  }

  /** No step falls below the root. */
  lemma StepAboveRoot(n: nat, a: nat, x: nat)
    requires IsRoot(n, a) && 0 < x
    ensures a <= NewtonStep(n, x)
  {
    assert x * (2 * a - x) == a * a - (x - a) * (x - a);
    assert 0 <= (x - a) * (x - a);
    FloorAtLeast(n, x, 2 * a - x);
  }

  /** From above the root, a step at least halves the distance to it. */
  lemma StepHalves(n: nat, a: nat, x: nat)
    requires IsRoot(n, a) && a < x
    ensures 2 * (NewtonStep(n, x) - a) <= x - a
  {
    MulMono(a + 1, x, a + 1);
    FloorAtLeast(n, x, a + 1);
  }

  /** From the root itself, a step goes up by at most one, and only just below the next square. */
  lemma StepAtRoot(n: nat, a: nat)
    requires IsRoot(n, a) && 0 < a
    ensures NewtonStep(n, a) == a || (NewtonStep(n, a) == a + 1 && n + 1 == (a + 1) * (a + 1))
  {
    StepAboveRoot(n, a, a);
    FloorAtLeast(n, a, a + 2);
    FloorAtLeast(n, a, a + 3);
    assert (a + 3) * a > n;
  }

  /** A step of at most one means the iteration has arrived: on the root, or one above it when the
      next number is a square. */
  lemma SmallStepArrives(n: nat, a: nat, x: nat)
    requires IsRoot(n, a) && 0 < a <= x && Abs(x - NewtonStep(n, x)) <= 1
    ensures NewtonStep(n, x) == a || (NewtonStep(n, x) == a + 1 && n + 1 == (a + 1) * (a + 1))
  {
    StepAboveRoot(n, a, x);
    if x == a {
      StepAtRoot(n, a);
    } else {
      StepHalves(n, a, x);
      if NewtonStep(n, x) != a {
        assert x == a + 2;
        FloorAtLeast(n, x, a);
        assert a * x + 1 == (a + 1) * (a + 1);
      }
    }
  }

  lemma NoMultiple(p: nat, e: nat, n: nat)
    requires p * e <= n < p
    ensures e == 0
  {
    if 0 < e {
      MulMono(1, e, p);
    }
  }

  /** Halving a distance pays for doubling its bound. */
  lemma HalvingStep(p: nat, e: nat, e': nat, n: nat)
    requires p * e <= n && 2 * e' <= e
    ensures 2 * p * e' <= n
  {
    MulMono(2 * e', e, p);
    assert 2 * p * e' == 2 * e' * p;
  }

  /** The answer: the floored root, or one more when the next number is a perfect square. */
  predicate IsAnswer(n: nat, r: nat) {
    IsRoot(n, r) || (0 < r && n + 1 == r * r && IsRoot(n, r - 1))
  }

  /** After k steps that did not stop, the distance to the root has been halved k times. */
  predicate Approaches(n: nat, a: nat, x: nat, k: nat) {
    0 < a <= x && Pow2(k) * (x - a) <= n
  }

  lemma StepApproaches(n: nat, a: nat, x: nat, k: nat)
    requires IsRoot(n, a) && Approaches(n, a, x, k)
    ensures var root := NewtonStep(n, x);
            if Abs(x - root) <= 1 then IsAnswer(n, root) else root < x && Approaches(n, a, root, k + 1)
  {
    var root := NewtonStep(n, x);
    StepAboveRoot(n, a, x);
    if Abs(x - root) <= 1 {
      SmallStepArrives(n, a, x);
    } else {
      if x == a {
        StepAtRoot(n, a);
      }
      StepHalves(n, a, x);
      HalvingStep(Pow2(k), x - a, root - a, n);
    }
  }

  lemma ApproachEnds(n: nat, a: nat, x: nat, k: nat)
    requires IsRoot(n, a) && Approaches(n, a, x, k) && n < Pow2(k)
    ensures IsAnswer(n, x)
  {
    NoMultiple(Pow2(k), x - a, n);
  }

  /** The guess the iteration ends with, from a guess x with some steps left. */
  function Iterate(n: nat, x: nat, steps: nat): nat
    decreases steps
  {
    if steps == 0 || x == 0 then x else
      var root := NewtonStep(n, x);
      if Abs(x - root) <= 1 then root else Iterate(n, root, steps - 1)
  }

  /** From a guess that k steps led to, the iteration ends on an answer. */
  lemma {:induction false} IterateAnswers(n: nat, a: nat, x: nat, k: nat, steps: nat)
    requires IsRoot(n, a) && Approaches(n, a, x, k) && n < Pow2(k + steps)
    ensures IsAnswer(n, Iterate(n, x, steps))
    decreases steps
  {
    if steps == 0 {
      ApproachEnds(n, a, x, k);
    } else {
      StepApproaches(n, a, x, k);
      if Abs(x - NewtonStep(n, x)) > 1 {
        IterateAnswers(n, a, NewtonStep(n, x), k + 1, steps - 1);
      }
    }
  }

  /** The root plus one is a possible answer: of 3 the iteration makes 2. */
  lemma ThreeGivesTwo(steps: nat)
    requires 0 < steps
    ensures Iterate(3, 3, steps) == 2 && IsRoot(3, 1)
  {
  }

  /** squareRootBN at its default closeness. `limit` is the bound of the program's loop,
      Number.MAX_SAFE_INTEGER. Each guess that does not stop the loop is below the one before, and
      for every n below two to the bound the result is the floored root, or one more than it when
      n + 1 is a perfect square. Zero divides by zero. */
  method SquareRootBN(n: nat, limit: nat) returns (r: Result<nat>)
    requires 0 < limit
    ensures n == 0 ==> r == Err(MathError)
    ensures 0 < n ==> r == Ok(Iterate(n, n, limit))
    ensures 0 < n < Pow2(limit) ==> IsAnswer(n, r.value)
  {
    if n == 0 {
      return Err(MathError);
    }
    ghost var a := RootExists(n);
    var x: int := n;
    var root: int := 0;
    var count := 0;
    while count < limit
      invariant 0 <= count <= limit && 0 <= x
      invariant Approaches(n, a, x, count)
      invariant Iterate(n, n, limit) == Iterate(n, x, limit - count)
      invariant 0 < count ==> root == x
      decreases x
    {
      count := count + 1;
      root := NewtonStep(n, x);
      StepApproaches(n, a, x, count - 1);
      if Abs(x - root) <= 1 {
        break;
      }
      x := root;
    }
    if n < Pow2(limit) {
      assert Pow2(0) == 1;
      IterateAnswers(n, a, n, 0, limit);
    }
    r := Ok(root);
  }
}
