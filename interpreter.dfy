/** The session state of the command interpreter (the loaded budget, the
 *  set of known category names and the set of loaded month names), the
 *  parser of `select` queries, and the sums behind the category and income
 *  reports. Reading commands, files and the help text, and all printing,
 *  are not part of this model. */
module Interpreter {

  import opened Wrappers
  import opened Months
  import opened Budgets
  import opened Comparators
  import opened Conditions

  // ---------------------------------------------------------------------
  // Query parsing: `cat op value (and cat op value)*`

  /** The keys a condition may name: a known category, "Total" or
   *  "Expenditures". */
  predicate ValidKey(key: string, known: set<string>)
  {
    key in known || key == "Total" || key == "Expenditures"
  }

  /** Group `g` (tokens 4g, 4g+1, 4g+2) is a key, an operator and a number. */
  ghost predicate ValidGroup(args: seq<string>, g: nat, known: set<string>, parse: string -> Option<real>)
    requires 4 * g + 2 < |args|
  {
    ValidKey(args[4 * g], known) && args[4 * g + 1] in Operators && parse(args[4 * g + 2]).Some?
  }

  /** Group `g` is followed by the word "and". */
  ghost predicate Joined(args: seq<string>, g: nat)
    requires 4 * g + 3 < |args|
  {
    args[4 * g + 3] == "and"
  }

  /** The token list is a well-formed query: 4n+3 tokens, every group
   *  valid, consecutive groups joined by "and". */
  ghost predicate ValidQuery(args: seq<string>, known: set<string>, parse: string -> Option<real>)
  {
    && |args| % 4 == 3
    && (forall g: nat | 4 * g + 2 < |args| :: ValidGroup(args, g, known, parse))
    && (forall g: nat | 4 * g + 3 < |args| :: Joined(args, g))
  }

  /** The condition group `g` denotes. */
  function GroupCondition(args: seq<string>, g: nat, parse: string -> Option<real>): Condition
    requires 4 * g + 2 < |args| && parse(args[4 * g + 2]).Some?
  {
    Condition(args[4 * g], Comparator(args[4 * g + 1]), parse(args[4 * g + 2]).value)
  }

  /** Parses a query against the categories `known`; `parse` reads a
   *  number. None for any malformed query; otherwise one condition per
   *  group, in token order. */
  method ParseQuery(args: seq<string>, known: set<string>, parse: string -> Option<real>)
    returns (r: Option<seq<Condition>>)
    ensures r.Some? <==> ValidQuery(args, known, parse)
    ensures r.Some? ==> |r.value| == (|args| + 1) / 4
    ensures r.Some? ==> forall g | 0 <= g < |r.value| ::
              4 * g + 2 < |args| && parse(args[4 * g + 2]).Some? && r.value[g] == GroupCondition(args, g, parse)
  {
    if |args| % 4 != 3 {
      return None;
    }
    var conds: seq<Condition> := [];
    var i := 0;
    while true
      invariant i == 4 * |conds| && i + 3 <= |args|
      invariant forall g: nat | g < |conds| :: ValidGroup(args, g, known, parse) && Joined(args, g)
      invariant forall g | 0 <= g < |conds| ::
                  4 * g + 2 < |args| && parse(args[4 * g + 2]).Some? && conds[g] == GroupCondition(args, g, parse)
      decreases |args| - i
    {
      var n := |conds|;
      if !ValidKey(args[i], known) {
        assert !ValidGroup(args, n, known, parse);
        return None;
      }
      if args[i + 1] !in Operators {
        assert !ValidGroup(args, n, known, parse);
        return None;
      }
      var value := parse(args[i + 2]);
      if value.None? {
        assert !ValidGroup(args, n, known, parse);
        return None;
      }
      assert ValidGroup(args, n, known, parse);
      conds := conds + [Condition(args[i], Comparator(args[i + 1]), value.value)];
      if i + 3 == |args| {
        break;
      } else if args[i + 3] != "and" {
        assert !Joined(args, n);
        return None;
      }
      i := i + 4;
    }
    assert forall g: nat | 4 * g + 2 < |args| :: g < |conds|;
    return Some(conds);
  }

  // ---------------------------------------------------------------------
  // Session state

  /** Every category name of every month of `ms`. */
  function AllCats(ms: seq<Month>): (r: set<string>)
    reads ms
    ensures forall c :: c in r <==> exists k | 0 <= k < |ms| :: c in ms[k].data
  {
    if ms == [] then {}
    else
      var init := ms[..|ms| - 1];
      var r := AllCats(init) + ms[|ms| - 1].data.Keys;
      assert forall k | 0 <= k < |init| :: init[k] == ms[k];
      r
  }

  /** The names of the months of `ms`. */
  ghost function MonthNames(ms: seq<Month>): set<string>
  {
    set k | 0 <= k < |ms| :: ms[k].name
  }

  /** No two months of `ms` share a name. */
  ghost predicate DistinctNames(ms: seq<Month>)
  {
    forall i, j | 0 <= i < j < |ms| :: ms[i].name != ms[j].name
  }

  /** A loaded name is found by the lookup. */
  lemma NamedIsFound(ms: seq<Month>, name: string)
    requires name in MonthNames(ms)
    ensures MonthNamed(ms, name) != null && MonthNamed(ms, name).name == name
  {
    var w :| 0 <= w < |ms| && ms[w].name == name;
    assert ms[w].name == name;
  }

  /** Taking position `i` out of a list with distinct names keeps the
   *  names distinct and drops exactly the name at `i`. */
  lemma RemoveAt(ms: seq<Month>, i: nat)
    requires DistinctNames(ms) && i < |ms|
    ensures DistinctNames(ms[..i] + ms[i + 1..])
    ensures MonthNames(ms[..i] + ms[i + 1..]) == MonthNames(ms) - {ms[i].name}
  {
    var r := ms[..i] + ms[i + 1..];
    assert forall k | 0 <= k < |r| :: r[k] == ms[if k < i then k else k + 1];
    forall n | n in MonthNames(r) ensures n in MonthNames(ms) - {ms[i].name} {
      var k :| 0 <= k < |r| && r[k].name == n;
    }
    forall n | n in MonthNames(ms) - {ms[i].name} ensures n in MonthNames(r) {
      var k :| 0 <= k < |ms| && ms[k].name == n;
      var k' := if k < i then k else k - 1;
      assert r[k'] == ms[k];
    }
  }

  /** Removing the month named `name` from a list with distinct names
   *  keeps the names distinct and drops exactly `name`. */
  lemma RemoveNamed(ms: seq<Month>, name: string)
    requires DistinctNames(ms) && name in MonthNames(ms)
    ensures MonthNamed(ms, name) != null
    ensures var r := RemoveFirst(ms, MonthNamed(ms, name));
            && DistinctNames(r)
            && MonthNames(r) == MonthNames(ms) - {name}
            && forall m | m in r :: m in ms
  {
    NamedIsFound(ms, name);
    var x := MonthNamed(ms, name);
    var i := FirstIndex(ms, x);
    assert RemoveFirst(ms, x) == ms[..i] + ms[i + 1..];
    RemoveAt(ms, i);
  }

  // ---------------------------------------------------------------------
  // Report sums (the printed text, percentages and daily rates are not modelled)

  /** One month of the category report: what was spent on the category (as
   *  a positive amount) and whether a share of that month's income is shown. */
  datatype CatLine = CatLine(month: string, spent: real, percentShown: bool)

  /** The category report: its month lines, the overall amount spent, the
   *  income of the months that have the category, and whether the overall
   *  share of income is shown. */
  datatype CatReport = CatReport(lines: seq<CatLine>, total: real, income: real, percentShown: bool)

  /** One month of the income report: its income, its spending, and whether
   *  the spending is shown as a share of the income. */
  datatype IncomeLine = IncomeLine(month: string, income: real, spent: real, percentShown: bool)

  /** The income report: its month lines, overall income and spending, and
   *  whether the overall share is shown. */
  datatype IncomeReport = IncomeReport(lines: seq<IncomeLine>, income: real, losses: real, percentShown: bool)

  /** `report <category>` gives the income report for "Income" and the
   *  category report for any other category. */
  datatype Report = ForCategory(cat: CatReport) | ForIncome(inc: IncomeReport)

  function Abs(x: real): real
  {
    if x < 0.0 then -x else x
  }

  /** Every month of `ms` has an "Income" category. */
  ghost predicate HasIncome(ms: seq<Month>)
    reads ms
  {
    forall m | m in ms :: "Income" in m.data
  }

  /** Overall amount spent on `cat`: the absolute category totals of the
   *  months that have it. */
  ghost function SpentOn(ms: seq<Month>, cat: string): (r: real)
    reads ms
    ensures r >= 0.0
  {
    if ms == [] then 0.0
    else
      var m := ms[|ms| - 1];
      SpentOn(ms[..|ms| - 1], cat) + (if cat in m.data then Abs(m.CatTotal(cat)) else 0.0)
  }

  /** Income of just the months of `ms` that have `cat`. */
  ghost function IncomeWhere(ms: seq<Month>, cat: string): real
    reads ms
    requires HasIncome(ms)
  {
    if ms == [] then 0.0
    else
      var m := ms[|ms| - 1];
      IncomeWhere(ms[..|ms| - 1], cat) + (if cat in m.data then m.CatTotal("Income") else 0.0)
  }

  /** The month lines of the category report. */
  ghost function CatLines(ms: seq<Month>, cat: string): seq<CatLine>
    reads ms
    requires HasIncome(ms)
  {
    if ms == [] then []
    else
      var m := ms[|ms| - 1];
      CatLines(ms[..|ms| - 1], cat)
        + (if cat in m.data then [CatLine(m.name, Abs(m.CatTotal(cat)), m.CatTotal("Income") > 0.0)] else [])
  }

  /** Sum of the months' losses. */
  ghost function LossesTotal(ms: seq<Month>): real
    reads ms
    requires HasIncome(ms)
  {
    if ms == [] then 0.0 else LossesTotal(ms[..|ms| - 1]) + ms[|ms| - 1].Losses()
  }

  /** The month lines of the income report. */
  ghost function IncomeLines(ms: seq<Month>): seq<IncomeLine>
    reads ms
    requires HasIncome(ms)
  {
    if ms == [] then []
    else
      var m := ms[|ms| - 1];
      IncomeLines(ms[..|ms| - 1])
        + [IncomeLine(m.name, m.CatTotal("Income"), m.Losses(), m.CatTotal("Income") > 0.0)]
  }

  /** Overall income minus overall losses is the budget's grand total. */
  lemma {:induction false} IncomeMinusLosses(ms: seq<Month>)
    requires HasIncome(ms)
    ensures CatAcross(ms, "Income") - LossesTotal(ms) == MonthsTotal(ms)
  {
    if ms != [] {
      IncomeMinusLosses(ms[..|ms| - 1]);
    }
  }

  /** The overall amount spent is at least the size of the category's
   *  budget-wide total, and equals its negation when no month has a
   *  positive total for the category. */
  lemma {:induction false} SpentOnBounds(ms: seq<Month>, cat: string)
    ensures SpentOn(ms, cat) >= Abs(CatAcross(ms, cat))
    ensures (forall m | m in ms && cat in m.data :: m.CatTotal(cat) <= 0.0)
            ==> SpentOn(ms, cat) == -CatAcross(ms, cat)
  {
    if ms != [] {
      SpentOnBounds(ms[..|ms| - 1], cat);
    }
  }

  /** When every month has `cat`, the category report's income is the
   *  whole budget's income. */
  lemma {:induction false} IncomeWhereEverywhere(ms: seq<Month>, cat: string)
    requires HasIncome(ms) && forall m | m in ms :: cat in m.data
    ensures IncomeWhere(ms, cat) == CatAcross(ms, "Income")
  {
    if ms != [] {
      IncomeWhereEverywhere(ms[..|ms| - 1], cat);
    }
  }

  // ---------------------------------------------------------------------
  // Where the query check and filtering disagree

  /** A query naming a category that one month has and another lacks is
   *  accepted, because categories are checked against all months
   *  together; yet filtering cannot evaluate it on the month that lacks
   *  it: Filter's precondition fails there. FilterExcluding drops that
   *  month instead. */
  lemma AbsentCategoryAccepted(a: Month, b: Month, cat: string, tok: string, parse: string -> Option<real>)
    requires cat in a.data && cat !in b.data && cat != "Total" && cat != "Expenditures"
    requires parse(tok).Some?
    ensures ValidQuery([cat, "<", tok], AllCats([a, b]), parse)
    ensures GroupCondition([cat, "<", tok], 0, parse) == Condition(cat, Comparator("<"), parse(tok).value)
    ensures !Reaches(b, [Condition(cat, Comparator("<"), parse(tok).value)])
    ensures b !in SelectedMonths(Selection([Condition(cat, Comparator("<"), parse(tok).value)], [a, b]))
  {
    var args := [cat, "<", tok];
    assert cat in AllCats([a, b]);
    assert forall g: nat | 4 * g + 2 < |args| :: g == 0;
    assert ValidGroup(args, 0, AllCats([a, b]), parse);
    AbsentCategoryExcludes([Condition(cat, Comparator("<"), parse(tok).value)], [a, b], b, 0);
  }

  class Session {
    var budget: Budget
    var cats: set<string>
    var monthNames: set<string>

    /** The loaded month names are exactly the budget's, no two months
     *  share a name, and every loaded month has an "Income" category. */
    ghost predicate Valid()
      reads this, budget, budget.months
    {
      && monthNames == MonthNames(budget.months)
      && DistinctNames(budget.months)
      && forall m | m in budget.months :: "Income" in m.data
    }

    /** A session with an empty budget and no known names. */
    constructor ()
      ensures Valid() && fresh(budget)
      ensures budget.months == [] && cats == {} && monthNames == {}
    {
      budget := new Budget();
      cats := {};
      monthNames := {};
    }

    /** Adds every category of every loaded month to `cats`; nothing is
     *  ever taken out of it. */
    method CollectCats()
      modifies this`cats
      ensures cats == old(cats) + AllCats(budget.months)
    {
      var months := budget.months;
      for i := 0 to |months|
        invariant cats == old(cats) + AllCats(months[..i])
      {
        assert months[..i + 1][..i] == months[..i];
        var list := months[i].GetCats();
        ghost var before := cats;
        for j := 0 to |list|
          invariant forall c :: c in cats <==> c in before || c in list[..j]
        {
          assert list[..j + 1] == list[..j] + [list[j]];
          cats := cats + {list[j]};
        }
        assert list[..|list|] == list;
        assert cats == before + months[i].data.Keys;
      }
      assert months[..|months|] == months;
    }

    /** Brings `cats` up to date, then parses a query against it. */
    method ParseConditions(args: seq<string>, parse: string -> Option<real>) returns (r: Option<seq<Condition>>)
      modifies this`cats
      ensures cats == old(cats) + AllCats(budget.months)
      ensures r.Some? <==> ValidQuery(args, cats, parse)
      ensures r.Some? ==> |r.value| == (|args| + 1) / 4
      ensures r.Some? ==> forall g | 0 <= g < |r.value| ::
                4 * g + 2 < |args| && parse(args[4 * g + 2]).Some? && r.value[g] == GroupCondition(args, g, parse)
    {
      CollectCats();
      r := ParseQuery(args, cats, parse);
    }

    /** Discards all loaded data. */
    method ClearCommand()
      modifies this
      ensures Valid() && fresh(budget)
      ensures budget.months == [] && budget.Total() == 0.0 && cats == {} && monthNames == {}
    {
      budget := new Budget();
      cats := {};
      monthNames := {};
    }

    /** `remove <month>`: with exactly two tokens naming a loaded month,
     *  removes that month from the budget and its name from the loaded
     *  names; otherwise changes nothing. `cats` is left as it was. */
    method RemoveCommand(args: seq<string>)
      requires Valid()
      modifies this, budget
      ensures Valid() && budget == old(budget) && cats == old(cats)
      ensures !(|args| == 2 && args[1] in old(monthNames)) ==>
                budget.months == old(budget.months) && monthNames == old(monthNames)
      ensures |args| == 2 && args[1] in old(monthNames) ==>
                && MonthNamed(old(budget.months), args[1]) != null
                && budget.months == RemoveFirst(old(budget.months), MonthNamed(old(budget.months), args[1]))
                && monthNames == old(monthNames) - {args[1]}
                && budget.Total() == old(budget.Total()) - MonthNamed(old(budget.months), args[1]).Total()
    {
      if |args| != 2 {
        return;
      }
      if args[1] !in monthNames {
        return;
      }
      RemoveNamed(budget.months, args[1]);
      var month := budget.GetMonth(args[1]);
      budget.RemoveMonth(month);
      monthNames := monthNames - {args[1]};
    }

    /** What loading one already-read month file does to the session: a
     *  month whose name is already loaded, or that has no "Income"
     *  category, is turned away; any other is appended to the budget and
     *  its name recorded. */
    method AdmitMonth(month: Month) returns (loaded: bool)
      requires Valid()
      modifies this, budget
      ensures Valid() && budget == old(budget) && cats == old(cats)
      ensures loaded <==> month.name !in old(monthNames) && "Income" in month.data
      ensures loaded ==> (budget.months == old(budget.months) + [month]
                          && monthNames == old(monthNames) + {month.name})
      ensures !loaded ==> budget.months == old(budget.months) && monthNames == old(monthNames)
    {
      if month.name in monthNames {
        return false;
      }
      if !month.ContainsCat("Income") {
        return false;
      }
      monthNames := monthNames + {month.name};
      budget.AddMonth(month);
      loaded := true;
      assert forall k | 0 <= k < |budget.months| - 1 :: budget.months[k] == old(budget.months)[k];
    }

    /** `report <cat>`: for "Income", the income report; otherwise, over
     *  the months that have `cat`, the amounts spent on it (made positive)
     *  and the income of those same months, with the overall share of
     *  income shown only when that income is positive. */
    method ReportCat(cat: string) returns (rep: Report)
      requires Valid()
      ensures cat == "Income" ==> rep.ForIncome? && rep.inc == IncomeReport(
                IncomeLines(budget.months), CatAcross(budget.months, "Income"), LossesTotal(budget.months),
                CatAcross(budget.months, "Income") > 0.0 && LossesTotal(budget.months) > 0.0)
      ensures cat != "Income" ==> rep.ForCategory? && rep.cat == CatReport(
                CatLines(budget.months, cat), SpentOn(budget.months, cat), IncomeWhere(budget.months, cat),
                IncomeWhere(budget.months, cat) > 0.0)
    {
      if cat == "Income" {
        var inc := ReportIncome();
        return ForIncome(inc);
      }
      var r := SumCategory(cat);
      return ForCategory(r);
    }

    /** The sums of the category report for `cat`, over the months that
     *  have it. */
    method SumCategory(cat: string) returns (rep: CatReport)
      requires HasIncome(budget.months)
      ensures rep.lines == CatLines(budget.months, cat)
      ensures rep.total == SpentOn(budget.months, cat)
      ensures rep.income == IncomeWhere(budget.months, cat)
      ensures rep.percentShown <==> rep.income > 0.0
    {
      var months := budget.months;
      var lines: seq<CatLine> := [];
      var total := 0.0;
      var income := 0.0;
      for i := 0 to |months|
        invariant lines == CatLines(months[..i], cat)
        invariant total == SpentOn(months[..i], cat)
        invariant income == IncomeWhere(months[..i], cat)
      {
        assert months[..i + 1][..i] == months[..i];
        var month := months[i];
        if month.ContainsCat(cat) {
          var monthTot := month.GetCatTotal(cat);
          var monthInc := month.GetCatTotal("Income");
          income := income + monthInc;
          if monthTot < 0.0 {
            total := total - monthTot;
          } else {
            total := total + monthTot;
          }
          lines := lines + [CatLine(month.name, Abs(monthTot), monthInc > 0.0)];
        }
      }
      assert months[..|months|] == months;
      rep := CatReport(lines, total, income, income > 0.0);
    }

    /** The income report: every month's income and losses, summed, with the
     *  overall share shown only when both sums are positive. */
    method ReportIncome() returns (rep: IncomeReport)
      requires Valid()
      ensures rep.lines == IncomeLines(budget.months)
      ensures rep.income == CatAcross(budget.months, "Income")
      ensures rep.losses == LossesTotal(budget.months)
      ensures rep.percentShown <==> rep.income > 0.0 && rep.losses > 0.0
    {
      var months := budget.months;
      var lines: seq<IncomeLine> := [];
      var income := 0.0;
      var losses := 0.0;
      for i := 0 to |months|
        invariant lines == IncomeLines(months[..i])
        invariant income == CatAcross(months[..i], "Income")
        invariant losses == LossesTotal(months[..i])
      {
        assert months[..i + 1][..i] == months[..i];
        var month := months[i];
        var monthInc := month.GetCatTotal("Income");
        var monthLoss := month.GetLosses();
        income := income + monthInc;
        losses := losses + monthLoss;
        lines := lines + [IncomeLine(month.name, monthInc, monthLoss, monthInc > 0.0)];
      }
      assert months[..|months|] == months;
      rep := IncomeReport(lines, income, losses, income > 0.0 && losses > 0.0);
    }
  }

}
