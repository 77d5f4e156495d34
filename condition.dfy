/** A Condition compares one value of a month (a category total, the month
 *  total for the key "Total", or the losses for "Expenditures") with a
 *  threshold. Filtering keeps, in budget order, the months that pass every
 *  condition, each with the (key, value) pairs it was checked against. */
module Conditions {

  import opened Wrappers
  import opened Months
  import opened Budgets
  import opened Comparators

  datatype Condition = Condition(cat: string, comp: Comparator, value: real)

  /** The (key, value) pairs recorded for a selected month. */
  type Projection = seq<(string, real)>

  /** A selected month with its projection. */
  type Selected = (Month, Projection)

  /** True iff the value of `key` is defined for `m`: "Total" always,
   *  "Expenditures" when `m` has an "Income" category, and any other key
   *  when it is one of `m`'s categories. */
  predicate Evaluable(m: Month, key: string)
    reads m
  {
    if key == "Total" then true
    else if key == "Expenditures" then "Income" in m.data
    else key in m.data
  }

  /** The value of `m` a condition on `key` tests. */
  ghost function MonthValue(m: Month, key: string): real
    reads m
    requires Evaluable(m, key)
  {
    if key == "Total" then m.Total()
    else if key == "Expenditures" then m.Losses()
    else m.CatTotal(key)
  }

  /** True iff `m` satisfies condition `c`. */
  ghost predicate Passes(m: Month, c: Condition)
    reads m
    requires Evaluable(m, c.cat)
  {
    c.comp.Compare(MonthValue(m, c.cat), c.value)
  }

  /** Every condition that filtering evaluates on `m` (all of them up to and
   *  including the first that fails) names a value `m` defines. */
  ghost predicate Reaches(m: Month, conds: seq<Condition>)
    reads m
  {
    conds == [] || (Evaluable(m, conds[0].cat) && (Passes(m, conds[0]) ==> Reaches(m, conds[1..])))
  }

  /** Prefixes `p` to a successful projection. */
  function Extend(p: Projection, o: Option<Projection>): Option<Projection>
  {
    match o
    case None => None
    case Some(q) => Some(p + q)
  }

  lemma ExtendEmpty(o: Option<Projection>)
    ensures Extend([], o) == o
  {
    if o.Some? {
      assert [] + o.value == o.value;
    }
  }

  lemma ExtendAssoc(p: Projection, q: Projection, o: Option<Projection>)
    ensures Extend(p, Extend(q, o)) == Extend(p + q, o)
  {
    if o.Some? {
      assert p + (q + o.value) == (p + q) + o.value;
    }
  }

  /** The outcome of testing `m` against `conds` in order, stopping at the
   *  first failure: the pairs recorded, or None when some condition fails.
   *  A condition on a category `m` lacks fails. */
  ghost function Test(m: Month, conds: seq<Condition>): (r: Option<Projection>)
    reads m
    ensures r.Some? <==> forall k | 0 <= k < |conds| :: Evaluable(m, conds[k].cat) && Passes(m, conds[k])
    ensures r.Some? ==> |r.value| == |conds|
    ensures r.Some? ==> forall k | 0 <= k < |conds| :: r.value[k] == (conds[k].cat, MonthValue(m, conds[k].cat))
  {
    if conds == [] then Some([])
    else if !Evaluable(m, conds[0].cat) || !Passes(m, conds[0]) then None
    else
      var rest := Test(m, conds[1..]);
      assert forall k | 1 <= k < |conds| :: conds[k] == conds[1..][k - 1];
      Extend([(conds[0].cat, MonthValue(m, conds[0].cat))], rest)
  }

  /** The result of filtering `ms` by `conds`, in the order of `ms`. */
  ghost function Selection(conds: seq<Condition>, ms: seq<Month>): seq<Selected>
    reads ms
  {
    if ms == [] then []
    else
      var m := ms[|ms| - 1];
      Selection(conds, ms[..|ms| - 1]) + (match Test(m, conds) case Some(p) => [(m, p)] case None => [])
  }

  /** The months of a selection, without their projections. */
  function SelectedMonths(sel: seq<Selected>): (r: seq<Month>)
    ensures |r| == |sel| && forall k | 0 <= k < |sel| :: r[k] == sel[k].0
  {
    if sel == [] then [] else SelectedMonths(sel[..|sel| - 1]) + [sel[|sel| - 1].0]
  }

  /** True iff `a` is `b` with some elements left out, order kept. */
  ghost predicate IsSubsequence(a: seq<Month>, b: seq<Month>)
    decreases |b|
  {
    if a == [] then true
    else if b == [] then false
    else (a[|a| - 1] == b[|b| - 1] && IsSubsequence(a[..|a| - 1], b[..|b| - 1]))
         || IsSubsequence(a, b[..|b| - 1])
  }

  /** The value a condition on `key` reads from `month`. */
  method GetValue(month: Month, key: string) returns (monthVal: real)
    requires Evaluable(month, key)
    ensures monthVal == MonthValue(month, key)
  {
    if key == "Total" {
      monthVal := month.GetTotal();
    } else if key == "Expenditures" {
      monthVal := month.GetLosses();
    } else {
      monthVal := month.GetCatTotal(key);
    }
  }

  /** Tests `month` against `conds` in order, stopping at the first
   *  failure; on success `monthData` holds one pair per condition. */
  method TestMonth(month: Month, conds: seq<Condition>) returns (monthPass: bool, monthData: Projection)
    requires Reaches(month, conds)
    ensures monthPass <==> Test(month, conds).Some?
    ensures monthPass ==> Test(month, conds) == Some(monthData)
  {
    monthData := [];
    monthPass := true;
    assert conds[0..] == conds;
    ExtendEmpty(Test(month, conds));
    for j := 0 to |conds|
      invariant monthPass
      invariant Reaches(month, conds[j..])
      invariant Test(month, conds) == Extend(monthData, Test(month, conds[j..]))
    {
      var cond := conds[j];
      assert conds[j..][0] == cond && conds[j..][1..] == conds[j + 1..];
      var monthVal := GetValue(month, cond.cat);
      if cond.comp.Compare(monthVal, cond.value) {
        ExtendAssoc(monthData, [(cond.cat, monthVal)], Test(month, conds[j + 1..]));
        monthData := monthData + [(cond.cat, monthVal)];
      } else {
        monthPass := false;
        assert Test(month, conds) == None;
        return;
      }
    }
    assert conds[|conds|..] == [];
    assert monthData + [] == monthData;
  }

  /** Keeps, in budget order, each month that passes every condition,
   *  paired with the (key, value) pairs of the conditions it was checked against.
   *  As the source is written, a condition on a category that a month lacks
   *  must never be reached (the source's lookup fails there), which
   *  the requires states. */
  method Filter(conds: seq<Condition>, budget: Budget) returns (ret: seq<Selected>)
    requires forall m | m in budget.months :: Reaches(m, conds)
    ensures ret == Selection(conds, budget.months)
  {
    ret := [];
    var months := budget.months;
    for i := 0 to |months|
      invariant ret == Selection(conds, months[..i])
    {
      assert months[..i + 1][..i] == months[..i];
      var month := months[i];
      var monthPass, monthData := TestMonth(month, conds);
      if monthPass {
        ret := ret + [(month, monthData)];
      }
    }
    assert months[..|months|] == months;
  }

  /** TestMonth with the missing-category case handled: a condition on a
   *  category the month lacks fails instead of being looked up. */
  method TestMonthExcluding(month: Month, conds: seq<Condition>) returns (monthPass: bool, monthData: Projection)
    ensures monthPass <==> Test(month, conds).Some?
    ensures monthPass ==> Test(month, conds) == Some(monthData)
  {
    monthData := [];
    monthPass := true;
    assert conds[0..] == conds;
    ExtendEmpty(Test(month, conds));
    for j := 0 to |conds|
      invariant monthPass
      invariant Test(month, conds) == Extend(monthData, Test(month, conds[j..]))
    {
      var cond := conds[j];
      assert conds[j..][0] == cond && conds[j..][1..] == conds[j + 1..];
      if !Evaluable(month, cond.cat) {
        monthPass := false;
        assert Test(month, conds) == None;
        return;
      }
      var monthVal := GetValue(month, cond.cat);
      if cond.comp.Compare(monthVal, cond.value) {
        ExtendAssoc(monthData, [(cond.cat, monthVal)], Test(month, conds[j + 1..]));
        monthData := monthData + [(cond.cat, monthVal)];
      } else {
        monthPass := false;
        assert Test(month, conds) == None;
        return;
      }
    }
    assert conds[|conds|..] == [];
    assert monthData + [] == monthData;
  }

  /** Filter with a month that lacks a category named by a reached
   *  condition excluded rather than failing: it needs no precondition. */
  method FilterExcluding(conds: seq<Condition>, budget: Budget) returns (ret: seq<Selected>)
    ensures ret == Selection(conds, budget.months)
  {
    ret := [];
    var months := budget.months;
    for i := 0 to |months|
      invariant ret == Selection(conds, months[..i])
    {
      assert months[..i + 1][..i] == months[..i];
      var month := months[i];
      var monthPass, monthData := TestMonthExcluding(month, conds);
      if monthPass {
        ret := ret + [(month, monthData)];
      }
    }
    assert months[..|months|] == months;
  }

  /** A month that lacks a category named by one of the conditions is never
   *  selected by FilterExcluding. */
  lemma AbsentCategoryExcludes(conds: seq<Condition>, ms: seq<Month>, m: Month, k: nat)
    requires k < |conds| && !Evaluable(m, conds[k].cat)
    ensures m !in SelectedMonths(Selection(conds, ms))
  {
    SelectedMember(conds, ms, m);
  }

  /** A month and projection are in the result iff the month is in the
   *  budget and passes every condition with exactly those pairs. */
  lemma {:induction false} SelectionMembership(conds: seq<Condition>, ms: seq<Month>, m: Month, p: Projection)
    ensures (m, p) in Selection(conds, ms) <==> m in ms && Test(m, conds) == Some(p)
  {
    if ms != [] {
      var init := ms[..|ms| - 1];
      SelectionMembership(conds, init, m, p);
      assert ms == init + [ms[|ms| - 1]];
    }
  }

  /** The selected months keep budget order and are never repeated beyond
   *  the budget's own list, so there are at most as many as months. */
  lemma {:induction false} SelectionIsSubsequence(conds: seq<Condition>, ms: seq<Month>)
    ensures IsSubsequence(SelectedMonths(Selection(conds, ms)), ms)
    ensures |Selection(conds, ms)| <= |ms|
  {
    if ms != [] {
      var init := ms[..|ms| - 1];
      SelectionIsSubsequence(conds, init);
      var sel := Selection(conds, ms);
      var prev := Selection(conds, init);
      if Test(ms[|ms| - 1], conds).Some? {
        assert SelectedMonths(sel)[..|sel| - 1] == SelectedMonths(prev);
      } else {
        assert sel == prev;
      }
    }
  }

  /** With no conditions every month is selected, each with no pairs. */
  lemma {:induction false} NoConditionsSelectAll(ms: seq<Month>)
    ensures Selection([], ms) == seq(|ms|, k requires 0 <= k < |ms| => (ms[k], []))
  {
    if ms != [] {
      NoConditionsSelectAll(ms[..|ms| - 1]);
    }
  }

  /** Testing `c1 + c2` is testing `c1` and then `c2`: it succeeds iff both
   *  do, with the pairs of `c1` followed by those of `c2`. */
  lemma TestConcat(m: Month, c1: seq<Condition>, c2: seq<Condition>)
    ensures Test(m, c1 + c2)
         == if Test(m, c1).Some? && Test(m, c2).Some? then Some(Test(m, c1).value + Test(m, c2).value) else None
  {
    var c := c1 + c2;
    assert forall k | 0 <= k < |c1| :: c[k] == c1[k];
    assert forall k | 0 <= k < |c2| :: c[|c1| + k] == c2[k];
    if Test(m, c1).Some? && Test(m, c2).Some? {
      assert forall k | 0 <= k < |c| :: Evaluable(m, c[k].cat) && Passes(m, c[k]) by {
        forall k | 0 <= k < |c| ensures Evaluable(m, c[k].cat) && Passes(m, c[k]) {
          if k >= |c1| {
            assert c[k] == c2[k - |c1|];
          }
        }
      }
      var p := Test(m, c1).value + Test(m, c2).value;
      assert Test(m, c).value == p by {
        forall k | 0 <= k < |c| ensures Test(m, c).value[k] == p[k] {
          if k >= |c1| {
            assert c[k] == c2[k - |c1|];
          }
        }
      }
    } else if Test(m, c1).None? {
      var k :| 0 <= k < |c1| && !(Evaluable(m, c1[k].cat) && Passes(m, c1[k]));
      assert c[k] == c1[k];
    } else {
      var k :| 0 <= k < |c2| && !(Evaluable(m, c2[k].cat) && Passes(m, c2[k]));
      assert c[|c1| + k] == c2[k];
    }
  }

  /** Filtering by `c1 + c2` selects exactly the months that filtering by
   *  `c1` and filtering by `c2` both select. */
  lemma FilterConjunction(c1: seq<Condition>, c2: seq<Condition>, ms: seq<Month>)
    ensures forall x :: x in SelectedMonths(Selection(c1 + c2, ms))
                   <==> x in SelectedMonths(Selection(c1, ms)) && x in SelectedMonths(Selection(c2, ms))
  {
    forall x ensures x in SelectedMonths(Selection(c1 + c2, ms))
                 <==> x in SelectedMonths(Selection(c1, ms)) && x in SelectedMonths(Selection(c2, ms))
    {
      SelectedMember(c1 + c2, ms, x);
      SelectedMember(c1, ms, x);
      SelectedMember(c2, ms, x);
      if x in ms {
        TestConcat(x, c1, c2);
      }
    }
  }

  /** A month is among the selected months iff it is in `ms` and passes. */
  lemma SelectedMember(conds: seq<Condition>, ms: seq<Month>, x: Month)
    ensures x in SelectedMonths(Selection(conds, ms)) <==> x in ms && Test(x, conds).Some?
  {
    var sel := Selection(conds, ms);
    if x in SelectedMonths(sel) {
      var k :| 0 <= k < |sel| && SelectedMonths(sel)[k] == x;
      SelectionMembership(conds, ms, x, sel[k].1);
    }
    if x in ms && Test(x, conds).Some? {
      SelectionMembership(conds, ms, x, Test(x, conds).value);
      var k :| 0 <= k < |sel| && sel[k] == (x, Test(x, conds).value);
      assert SelectedMonths(sel)[k] == x;
    }
  }

}
