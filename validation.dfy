/**
 * Input validation (`validate_input`): every required document type must be
 * present for exactly N consecutive years, N being the configured number of
 * required periods.
 */
module Validation {
  import opened Model

  /** Detail of the 400 error for a required type that fails the check. */
  function MissingTypeMessage(t: string): string {
    "Missing required document type " + t + " for all periods"
  }

  /** The distinct period years of the documents of type `t` (`periods[t]` after the first loop). */
  function Years(docs: seq<Document>, t: string): set<int> {
    if docs == [] then {}
    else
      var d := docs[|docs| - 1];
      Years(docs[..|docs| - 1], t) + (if d.docType.key == t then {d.period.year} else {})
  }

  lemma {:induction false} YearsMembership(docs: seq<Document>, t: string, y: int)
    ensures y in Years(docs, t) <==>
      exists i :: 0 <= i < |docs| && docs[i].docType.key == t && docs[i].period.year == y
  {
    if docs != [] {
      var p := docs[..|docs| - 1];
      YearsMembership(p, t, y);
      assert forall i :: 0 <= i < |p| ==> p[i] == docs[i];
    }
  }

  lemma {:induction false} YearsAppend(a: seq<Document>, b: seq<Document>, t: string)
    ensures Years(a + b, t) == Years(a, t) + Years(b, t)
  {
    if b == [] {
      assert a + b == a;
    } else {
      assert (a + b)[..|a + b| - 1] == a + b[..|b| - 1];
      YearsAppend(a, b[..|b| - 1], t);
    }
  }

  lemma HasElement(s: set<int>)
    requires s != {}
    ensures exists y :: y in s
  {
    if forall y :: y !in s {
      assert false;
    }
  }

  /** Python's `min` of a non-empty set of years. */
  ghost function SetMin(s: set<int>): (m: int)
    requires s != {}
    ensures m in s && forall y :: y in s ==> m <= y
  {
    HasElement(s);
    var x :| x in s;
    if s == {x} then x
    else
      var m := SetMin(s - {x});
      assert forall y :: y in s ==> y == x || y in s - {x};
      if x <= m then x else m
  }

  /** Python's `max` of a non-empty set of years. */
  ghost function SetMax(s: set<int>): (m: int)
    requires s != {}
    ensures m in s && forall y :: y in s ==> y <= m
  {
    HasElement(s);
    var x :| x in s;
    if s == {x} then x
    else
      var m := SetMax(s - {x});
      assert forall y :: y in s ==> y == x || y in s - {x};
      if x >= m then x else m
  }

  /**
   * The test of the second loop for one required type `t`:
   * `len(periods.get(t, set())) != N or max(periods[t]) != min(periods[t]) + N - 1`.
   * With N = 0 and `t` absent the first test passes and `periods[t]` raises KeyError.
   */
  ghost function CheckType(docs: seq<Document>, t: string, n: int): Outcome<bool> {
    var ys := Years(docs, t);
    if |ys| != n then Fail(HttpError(400, MissingTypeMessage(t)))
    else if ys == {} then Fail(Unexpected)
    else if SetMax(ys) != SetMin(ys) + n - 1 then Fail(HttpError(400, MissingTypeMessage(t)))
    else Ok(true)
  }

  /** The second loop: the first type (in the given order) that fails decides the error. */
  ghost function CheckTypes(docs: seq<Document>, types: seq<string>, n: int): Outcome<bool> {
    if types == [] then Ok(true)
    else
      var c := CheckType(docs, types[0], n);
      if c.Fail? then c else CheckTypes(docs, types[1..], n)
  }

  /** `validate_input(docs)` under configuration `cfg`. */
  ghost function Validate(docs: seq<Document>, cfg: Config): Outcome<bool> {
    CheckTypes(docs, cfg.requiredTypes, cfg.requiredPeriods)
  }

  /** The years `first`, `first + 1`, ..., `first + n - 1`. */
  function YearRange(first: int, n: nat): set<int> {
    if n == 0 then {} else YearRange(first, n - 1) + {first + n - 1}
  }

  /** The years are exactly `n` consecutive years. */
  ghost predicate Consecutive(ys: set<int>, n: nat) {
    exists first :: ys == YearRange(first, n)
  }

  lemma {:induction false} YearRangeMembership(first: int, n: nat)
    ensures forall y :: y in YearRange(first, n) <==> first <= y < first + n
  {
    if n > 0 {
      YearRangeMembership(first, n - 1);
    }
  }

  lemma {:induction false} YearRangeSize(first: int, n: nat)
    ensures |YearRange(first, n)| == n
  {
    if n > 0 {
      YearRangeSize(first, n - 1);
      YearRangeMembership(first, n - 1);
      assert first + n - 1 !in YearRange(first, n - 1);
    }
  }

  lemma SubsetOfSameSize(a: set<int>, b: set<int>)
    requires a <= b && |a| == |b|
    ensures a == b
  {
    var d := b - a;
    assert b == a + d;
    assert a * d == {};
    assert |d| == 0;
  }

  /** For N >= 1 the check of one type accepts exactly N consecutive years, and otherwise raises the 400 error. */
  lemma CheckTypeVerdict(docs: seq<Document>, t: string, n: nat)
    requires n >= 1
    ensures CheckType(docs, t, n) ==
      if Consecutive(Years(docs, t), n) then Ok(true) else Fail(HttpError(400, MissingTypeMessage(t)))
  {
    var ys := Years(docs, t);
    if Consecutive(ys, n) {
      var first :| ys == YearRange(first, n);
      YearRangeSize(first, n);
      YearRangeMembership(first, n);
      assert first in ys && first + n - 1 in ys;
      assert SetMin(ys) == first;
      assert SetMax(ys) == first + n - 1;
    } else if |ys| == n {
      var lo, hi := SetMin(ys), SetMax(ys);
      if hi == lo + n - 1 {
        YearRangeMembership(lo, n);
        assert ys <= YearRange(lo, n);
        YearRangeSize(lo, n);
        SubsetOfSameSize(ys, YearRange(lo, n));
        assert false;
      }
    }
  }

  /** `k` is the first required type, in configured order, whose years are not N consecutive years. */
  ghost predicate FirstFailing(docs: seq<Document>, types: seq<string>, n: nat, k: int) {
    && 0 <= k < |types|
    && !Consecutive(Years(docs, types[k]), n)
    && forall m :: 0 <= m < k ==> Consecutive(Years(docs, types[m]), n)
  }

  /** The types are checked in order: the check passes iff every type has N consecutive years. */
  lemma {:induction false} CheckTypesAccepts(docs: seq<Document>, types: seq<string>, n: nat)
    requires n >= 1
    ensures CheckTypes(docs, types, n).Ok? <==>
      forall k :: 0 <= k < |types| ==> Consecutive(Years(docs, types[k]), n)
  {
    if types != [] {
      CheckTypeVerdict(docs, types[0], n);
      var rest := types[1..];
      CheckTypesAccepts(docs, rest, n);
      if CheckTypes(docs, types, n).Ok? {
        forall k | 0 <= k < |types|
          ensures Consecutive(Years(docs, types[k]), n)
        {
          if k > 0 {
            assert types[k] == rest[k - 1];
          }
        }
      } else if CheckType(docs, types[0], n).Ok? {
        var j :| 0 <= j < |rest| && !Consecutive(Years(docs, rest[j]), n);
        assert types[j + 1] == rest[j];
      }
    }
  }

  /** A failing check raises the 400 error of the first failing type. */
  lemma {:induction false} CheckTypesRejects(docs: seq<Document>, types: seq<string>, n: nat)
    requires n >= 1
    requires CheckTypes(docs, types, n).Fail?
    ensures exists k :: (FirstFailing(docs, types, n, k) &&
      CheckTypes(docs, types, n) == Fail(HttpError(400, MissingTypeMessage(types[k]))))
  {
    assert types != [];
    CheckTypeVerdict(docs, types[0], n);
    if CheckType(docs, types[0], n).Ok? {
      CheckTypesRejects(docs, types[1..], n);
      var k :| FirstFailing(docs, types[1..], n, k) &&
        CheckTypes(docs, types[1..], n) == Fail(HttpError(400, MissingTypeMessage(types[1..][k])));
      assert FirstFailing(docs, types, n, k + 1);
    } else {
      assert FirstFailing(docs, types, n, 0);
    }
  }

  /**
   * For N >= 1 validation accepts iff every required type has exactly N
   * consecutive years, and otherwise raises the 400 error naming the first
   * failing type in configured order.
   */
  lemma ValidateVerdict(docs: seq<Document>, cfg: Config)
    requires cfg.requiredPeriods >= 1
    ensures Validate(docs, cfg).Ok? <==>
      forall k :: 0 <= k < |cfg.requiredTypes| ==>
        Consecutive(Years(docs, cfg.requiredTypes[k]), cfg.requiredPeriods)
    ensures Validate(docs, cfg).Ok? ==> Validate(docs, cfg).value
    ensures Validate(docs, cfg).Fail? ==>
      exists k :: FirstFailing(docs, cfg.requiredTypes, cfg.requiredPeriods, k) &&
        Validate(docs, cfg) == Fail(HttpError(400, MissingTypeMessage(cfg.requiredTypes[k])))
  {
    CheckTypesAccepts(docs, cfg.requiredTypes, cfg.requiredPeriods);
    if Validate(docs, cfg).Fail? {
      CheckTypesRejects(docs, cfg.requiredTypes, cfg.requiredPeriods);
    }
    OkIsTrue(docs, cfg.requiredTypes, cfg.requiredPeriods);
  }

  lemma {:induction false} OkIsTrue(docs: seq<Document>, types: seq<string>, n: int)
    ensures CheckTypes(docs, types, n).Ok? ==> CheckTypes(docs, types, n).value
  {
    if types != [] {
      OkIsTrue(docs, types[1..], n);
    }
  }

  lemma {:induction false} CheckTypesCongruent(a: seq<Document>, b: seq<Document>, types: seq<string>, n: int)
    requires forall k :: 0 <= k < |types| ==> Years(a, types[k]) == Years(b, types[k])
    ensures CheckTypes(a, types, n) == CheckTypes(b, types, n)
  {
    if types != [] {
      CheckTypesCongruent(a, b, types[1..], n);
    }
  }

  /** A document whose type is not required never changes the verdict, wherever it stands. */
  lemma OtherTypesIgnored(a: seq<Document>, d: Document, b: seq<Document>, cfg: Config)
    requires d.docType.key !in cfg.requiredTypes
    ensures Validate(a + [d] + b, cfg) == Validate(a + b, cfg)
  {
    forall k | 0 <= k < |cfg.requiredTypes|
      ensures Years(a + [d] + b, cfg.requiredTypes[k]) == Years(a + b, cfg.requiredTypes[k])
    {
      var t := cfg.requiredTypes[k];
      YearsAppend(a + [d], b, t);
      YearsAppend(a, [d], t);
      YearsAppend(a, b, t);
      assert Years([d], t) == {} by {
        assert [d][..0] == [];
      }
    }
    CheckTypesCongruent(a + [d] + b, a + b, cfg.requiredTypes, cfg.requiredPeriods);
  }

  /** `min` and `max` of a non-empty set of years, by one pass over it. */
  method YearBounds(s: set<int>) returns (lo: int, hi: int)
    requires s != {}
    ensures lo == SetMin(s) && hi == SetMax(s)
  {
    HasElement(s);
    var x :| x in s;
    lo, hi := x, x;
    var rest := s - {x};
    while rest != {}
      invariant rest <= s
      invariant lo in s && hi in s
      invariant forall y :: y in s && y !in rest ==> lo <= y <= hi
      decreases rest
    {
      HasElement(rest);
      var y :| y in rest;
      if y < lo {
        lo := y;
      }
      if y > hi {
        hi := y;
      }
      rest := rest - {y};
    }
  }

  /** `validate_input`: collects the years per type, then checks each required type in order. */
  method ValidateInput(docs: seq<Document>, cfg: Config) returns (r: Outcome<bool>)
    ensures r == Validate(docs, cfg)
  {
    var periods: map<string, set<int>> := map[];
    for i := 0 to |docs|
      invariant forall t :: t in periods <==> Years(docs[..i], t) != {}
      invariant forall t :: t in periods ==> periods[t] == Years(docs[..i], t)
    {
      assert docs[..i + 1][..i] == docs[..i];
      var key := docs[i].docType.key;
      periods := periods[key := (if key in periods then periods[key] else {}) + {docs[i].period.year}];
    }
    assert docs[..|docs|] == docs;
    var types, n := cfg.requiredTypes, cfg.requiredPeriods;
    for k := 0 to |types|
      invariant CheckTypes(docs, types[k..], n) == Validate(docs, cfg)
    {
      assert types[k..][1..] == types[k + 1..];
      var t := types[k];
      var ys := if t in periods then periods[t] else {};
      if |ys| != n {
        return Fail(HttpError(400, MissingTypeMessage(t)));
      }
      if t !in periods {
        return Fail(Unexpected);
      }
      var lo, hi := YearBounds(periods[t]);
      if hi != lo + n - 1 {
        return Fail(HttpError(400, MissingTypeMessage(t)));
      }
    }
    return Ok(true);
  }
}
