/**
 * Python arithmetic over cells as the pipeline uses it: `sum(...)` of a row or
 * column, `+`, `*`, `/` and `>` on the numbers such sums produce, and the
 * scoring cross value. Floats are modelled as reals with NaN kept apart;
 * rounding is not modelled.
 */
module Arith {
  import opened Model

  /** Cells Python can add to a number: int/float (Num, NaN) and bool. */
  predicate IsNumeric(c: Cell) {
    c.Num? || c.NaN? || c.Bool?
  }

  /** Cells a Python `sum` can produce: a number or NaN. */
  predicate IsNumber(c: Cell) {
    c.Num? || c.NaN?
  }

  /** What a cell adds to a sum: its value, 1 or 0 for a boolean, 0 for anything else. */
  function Weight(c: Cell): real {
    match c
    case Num(v) => v
    case Bool(b) => if b then 1.0 else 0.0
    case _ => 0.0
  }

  /** `acc + c`: NaN absorbs numbers, a string or None operand raises TypeError. */
  function Add(acc: Outcome<Cell>, c: Cell): Outcome<Cell> {
    match acc
    case Fail(_) => acc
    case Ok(a) =>
      if !IsNumeric(a) || !IsNumeric(c) then Fail(Unexpected)
      else if a.NaN? || c.NaN? then Ok(NaN)
      else Ok(Num(Weight(a) + Weight(c)))
  }

  /** Python's `sum(cs)`, that is `0 + cs[0] + cs[1] + ...` from left to right. */
  function SumCells(cs: seq<Cell>): (r: Outcome<Cell>)
    ensures r.Ok? ==> IsNumber(r.value)
    ensures r.Fail? ==> r.failure == Unexpected
  {
    if |cs| == 0 then Ok(Num(0.0)) else Add(SumCells(cs[..|cs| - 1]), cs[|cs| - 1])
  }

  /** The real-number sum of the cells' weights (the reference definition of `sum`). */
  function Total(cs: seq<Cell>): real {
    if |cs| == 0 then 0.0 else Total(cs[..|cs| - 1]) + Weight(cs[|cs| - 1])
  }

  predicate AllNumeric(cs: seq<Cell>) {
    forall i :: 0 <= i < |cs| ==> IsNumeric(cs[i])
  }

  predicate HasNaN(cs: seq<Cell>) {
    exists i :: 0 <= i < |cs| && cs[i].NaN?
  }

  /**
   * What `sum` returns: TypeError iff some cell is a string or None; otherwise
   * NaN iff some cell is NaN; otherwise the real sum of the cells.
   */
  lemma {:induction false} SumCellsMeaning(cs: seq<Cell>)
    ensures SumCells(cs).Fail? <==> !AllNumeric(cs)
    ensures SumCells(cs) == Ok(NaN) <==> AllNumeric(cs) && HasNaN(cs)
    ensures AllNumeric(cs) && !HasNaN(cs) ==> SumCells(cs) == Ok(Num(Total(cs)))
  {
    if |cs| > 0 {
      var p, x := cs[..|cs| - 1], cs[|cs| - 1];
      SumCellsMeaning(p);
      assert cs == p + [x];
      assert AllNumeric(cs) <==> AllNumeric(p) && IsNumeric(x) by {
        if AllNumeric(p) && IsNumeric(x) {
          forall i | 0 <= i < |cs| ensures IsNumeric(cs[i]) {
            if i < |p| { assert cs[i] == p[i]; }
          }
        }
        if AllNumeric(cs) {
          assert IsNumeric(cs[|cs| - 1]);
          forall i | 0 <= i < |p| ensures IsNumeric(p[i]) {
            assert p[i] == cs[i];
          }
        }
      }
      assert HasNaN(cs) <==> HasNaN(p) || x.NaN? by {
        if HasNaN(cs) {
          var i :| 0 <= i < |cs| && cs[i].NaN?;
          if i < |p| { assert p[i] == cs[i]; }
        }
        if HasNaN(p) {
          var i :| 0 <= i < |p| && p[i].NaN?;
          assert cs[i] == p[i];
        }
        if x.NaN? { assert cs[|cs| - 1].NaN?; }
      }
    }
  }

  lemma {:induction false} TotalAppend(a: seq<Cell>, b: seq<Cell>)
    ensures Total(a + b) == Total(a) + Total(b)
  {
    if |b| > 0 {
      var b' := b[..|b| - 1];
      assert (a + b)[..|a + b| - 1] == a + b';
      TotalAppend(a, b');
    } else {
      assert a + b == a;
    }
  }

  /** The real sum does not depend on the order of the cells. */
  lemma {:induction false} TotalPermutation(a: seq<Cell>, b: seq<Cell>)
    requires multiset(a) == multiset(b)
    ensures Total(a) == Total(b)
  {
    if |a| == 0 {
      assert |multiset(b)| == 0;
    } else {
      var a', x := a[..|a| - 1], a[|a| - 1];
      assert a == a' + [x];
      assert x in multiset(b);
      var k :| 0 <= k < |b| && b[k] == x;
      var b' := b[..k] + b[k + 1..];
      assert b == b[..k] + [x] + b[k + 1..];
      assert multiset(a) == multiset(a') + multiset{x};
      assert multiset(b) == multiset(b[..k]) + multiset{x} + multiset(b[k + 1..]);
      assert multiset(b') == multiset(b[..k]) + multiset(b[k + 1..]);
      assert multiset(a') == multiset(a) - multiset{x};
      assert multiset(b') == multiset(b) - multiset{x};
      TotalPermutation(a', b');
      TotalAppend(b[..k] + [x], b[k + 1..]);
      TotalAppend(b[..k], [x]);
      TotalAppend(b[..k], b[k + 1..]);
      assert Total([x]) == Weight(x) by {
        assert [x][..0] == [];
      }
    }
  }

  lemma InMultiset(a: seq<Cell>, b: seq<Cell>, i: nat)
    requires multiset(a) == multiset(b) && i < |a|
    ensures exists j :: 0 <= j < |b| && b[j] == a[i]
  {
    assert a[i] in multiset(a);
    assert a[i] in b;
  }

  /** Python's `sum` is insensitive to the order of its operands. */
  lemma SumCellsPermutation(a: seq<Cell>, b: seq<Cell>)
    requires multiset(a) == multiset(b)
    ensures SumCells(a) == SumCells(b)
  {
    SumCellsMeaning(a);
    SumCellsMeaning(b);
    forall i | 0 <= i < |a| ensures exists j :: 0 <= j < |b| && b[j] == a[i] {
      InMultiset(a, b, i);
    }
    forall j | 0 <= j < |b| ensures exists i :: 0 <= i < |a| && a[i] == b[j] {
      InMultiset(b, a, j);
    }
    TotalPermutation(a, b);
  }

  /** `f` applied to every element, keeping the order. */
  function MapSeq<T, U>(xs: seq<T>, f: T -> U): (r: seq<U>)
    ensures |r| == |xs|
    ensures forall k :: 0 <= k < |xs| ==> r[k] == f(xs[k])
  {
    seq(|xs|, k requires 0 <= k < |xs| => f(xs[k]))
  }

  lemma MapAppend<T, U>(p: seq<T>, q: seq<T>, f: T -> U)
    ensures MapSeq(p + q, f) == MapSeq(p, f) + MapSeq(q, f)
  {
  }

  /** Mapping a permutation gives a permutation. */
  lemma {:induction false} MapPermutation(a: seq<Document>, b: seq<Document>, f: Document -> Cell)
    requires multiset(a) == multiset(b)
    ensures multiset(MapSeq(a, f)) == multiset(MapSeq(b, f))
  {
    if |a| == 0 {
      assert |multiset(b)| == 0;
      assert MapSeq(a, f) == [] == MapSeq(b, f);
    } else {
      var a', x := a[..|a| - 1], a[|a| - 1];
      assert a == a' + [x];
      assert x in multiset(b);
      var k :| 0 <= k < |b| && b[k] == x;
      var b' := b[..k] + b[k + 1..];
      assert b == b[..k] + [x] + b[k + 1..];
      assert multiset(a) == multiset(a') + multiset{x};
      assert multiset(b) == multiset(b[..k]) + multiset{x} + multiset(b[k + 1..]);
      assert multiset(a') == multiset(a) - multiset{x};
      assert multiset(b') == multiset(b) - multiset{x};
      MapPermutation(a', b', f);
      MapStep(a', x, b[..k], b[k + 1..], f);
    }
  }

  lemma MapStep(a': seq<Document>, x: Document, p: seq<Document>, q: seq<Document>, f: Document -> Cell)
    requires multiset(MapSeq(a', f)) == multiset(MapSeq(p + q, f))
    ensures multiset(MapSeq(a' + [x], f)) == multiset(MapSeq(p + [x] + q, f))
  {
    MapAppend(a', [x], f);
    MapAppend(p + [x], q, f);
    MapAppend(p, [x], f);
    MapAppend(p, q, f);
    var fp, fq := MapSeq(p, f), MapSeq(q, f);
    calc {
      multiset(MapSeq(p + [x] + q, f));
      multiset(fp + [f(x)] + fq);
      multiset(fp) + multiset{f(x)} + multiset(fq);
      multiset(fp + fq) + multiset{f(x)};
      multiset(MapSeq(a', f)) + multiset{f(x)};
      multiset(MapSeq(a', f) + [f(x)]);
      multiset(MapSeq(a' + [x], f));
    }
  }

  /** `a + b` of two numbers. */
  function Plus(a: Cell, b: Cell): Cell
    requires IsNumber(a) && IsNumber(b)
  {
    if a.NaN? || b.NaN? then NaN else Num(a.v + b.v)
  }

  /** `a * k` of a number and a constant. */
  function Times(a: Cell, k: real): Cell
    requires IsNumber(a)
  {
    if a.NaN? then NaN else Num(a.v * k)
  }

  /** `a > b` of two numbers; any comparison with NaN is false. */
  predicate Greater(a: Cell, b: Cell)
    requires IsNumber(a) && IsNumber(b)
  {
    a.Num? && b.Num? && a.v > b.v
  }

  /**
   * The scoring value of a row sum `r` and a column sum `c`:
   * `r * c / (r + c) if (r + c) else nan`. A NaN operand makes `r + c` NaN,
   * which is truthy, and the quotient NaN.
   */
  function Cross(r: Cell, c: Cell): Cell
    requires IsNumber(r) && IsNumber(c)
  {
    if r.NaN? || c.NaN? then NaN
    else if r.v + c.v == 0.0 then NaN
    else Num(r.v * c.v / (r.v + c.v))
  }
}
