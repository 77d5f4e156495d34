/** A Budget is the ordered list of loaded Months. Its totals are
 *  recomputed from the months on every call, so adding or removing a month
 *  is reflected at once. */
module Budgets {

  import opened Months

  /** Grand total of `ms`: the month totals summed in list order. */
  ghost function MonthsTotal(ms: seq<Month>): real
    reads ms
  {
    if ms == [] then 0.0 else MonthsTotal(ms[..|ms| - 1]) + ms[|ms| - 1].Total()
  }

  /** Total of category `cat` over the months of `ms` that have it; a month
   *  without the category contributes nothing. */
  ghost function CatAcross(ms: seq<Month>, cat: string): real
    reads ms
  {
    if ms == [] then 0.0
    else
      var m := ms[|ms| - 1];
      CatAcross(ms[..|ms| - 1], cat) + (if cat in m.data then m.CatTotal(cat) else 0.0)
  }

  /** Position of the first occurrence of `m` in `ms`. */
  function FirstIndex(ms: seq<Month>, m: Month): (i: nat)
    requires m in ms
    ensures i < |ms| && ms[i] == m && m !in ms[..i]
  {
    if ms[0] == m then 0
    else
      var i := FirstIndex(ms[1..], m);
      assert ms[..i + 1] == [ms[0]] + ms[1..][..i];
      1 + i
  }

  /** `ms` with the first occurrence of `m` (compared by identity) taken
   *  out; `ms` itself when `m` does not occur. */
  function RemoveFirst(ms: seq<Month>, m: Month?): (r: seq<Month>)
    ensures m !in ms ==> r == ms
    ensures m in ms ==> |r| == |ms| - 1 && multiset(r) + multiset{m} == multiset(ms)
    ensures m in ms ==> exists i | 0 <= i < |ms| :: ms[i] == m && m !in ms[..i]
                                                  && r == ms[..i] + ms[i + 1..]
  {
    if m in ms then
      var i := FirstIndex(ms, m);
      assert ms == ms[..i] + [m] + ms[i + 1..];
      ms[..i] + ms[i + 1..]
    else ms
  }

  /** The first month of `ms` named `name`, or null when there is none. */
  function MonthNamed(ms: seq<Month>, name: string): (r: Month?)
    ensures r == null <==> forall i | 0 <= i < |ms| :: ms[i].name != name
    ensures r != null ==> exists i | 0 <= i < |ms| :: ms[i] == r && r.name == name
                                    && forall j | 0 <= j < i :: ms[j].name != name
  {
    if ms == [] then null
    else if ms[0].name == name then ms[0]
    else
      var r := MonthNamed(ms[1..], name);
      if r != null then
        var i :| 0 <= i < |ms[1..]| && ms[1..][i] == r && r.name == name
                 && forall j | 0 <= j < i :: ms[1..][j].name != name;
        assert ms[i + 1] == r;
        r
      else
        r
  }

  /** The grand total of a concatenation is the sum of the grand totals. */
  lemma {:induction false} MonthsTotalConcat(a: seq<Month>, b: seq<Month>)
    ensures MonthsTotal(a + b) == MonthsTotal(a) + MonthsTotal(b)
  {
    if b == [] {
      assert a + b == a;
    } else {
      assert (a + b)[..|a + b| - 1] == a + b[..|b| - 1];
      MonthsTotalConcat(a, b[..|b| - 1]);
    }
  }

  /** Removing a month that occurs lowers the grand total by exactly that
   *  month's total: nothing stale survives the removal. */
  lemma RemoveFirstTotal(ms: seq<Month>, m: Month?)
    ensures m in ms ==> MonthsTotal(RemoveFirst(ms, m)) == MonthsTotal(ms) - m.Total()
    ensures m !in ms ==> MonthsTotal(RemoveFirst(ms, m)) == MonthsTotal(ms)
  {
    if m in ms {
      var i := FirstIndex(ms, m);
      var a, b := ms[..i], ms[i + 1..];
      assert RemoveFirst(ms, m) == a + b;
      assert ms == (a + [m]) + b;
      assert (a + [m])[..|a + [m]| - 1] == a;
      assert MonthsTotal(a + [m]) == MonthsTotal(a) + m.Total();
      MonthsTotalConcat(a, b);
      MonthsTotalConcat(a + [m], b);
    }
  }

  /** Months that lack `cat` add nothing to its total. */
  lemma {:induction false} CatAcrossAbsent(ms: seq<Month>, cat: string)
    requires forall m | m in ms :: cat !in m.data
    ensures CatAcross(ms, cat) == 0.0
  {
    if ms != [] {
      CatAcrossAbsent(ms[..|ms| - 1], cat);
    }
  }

  /** A month lacking `cat`, wherever it sits among the others, contributes
   *  nothing to the category's budget-wide total. */
  lemma {:induction false} CatAcrossSkip(a: seq<Month>, m: Month, b: seq<Month>, cat: string)
    requires cat !in m.data
    ensures CatAcross(a + [m] + b, cat) == CatAcross(a + b, cat)
    decreases |b|
  {
    if b == [] {
      assert a + [m] + b == a + [m];
      assert (a + [m])[..|a + [m]| - 1] == a;
      assert a + b == a;
    } else {
      var b' := b[..|b| - 1];
      assert (a + [m] + b)[..|a + [m] + b| - 1] == a + [m] + b';
      assert (a + b)[..|a + b| - 1] == a + b';
      CatAcrossSkip(a, m, b', cat);
    }
  }

  class Budget {
    var months: seq<Month>

    /** The grand total of this budget. */
    ghost function Total(): real
      reads this, months
    {
      MonthsTotal(months)
    }

    /** An empty budget, whose grand total is 0. */
    constructor ()
      ensures months == [] && Total() == 0.0
    {
      months := [];
    }

    /** Appends `month`, keeping the months already present in order. */
    method AddMonth(month: Month)
      modifies this
      ensures months == old(months) + [month]
      ensures Total() == old(Total()) + month.Total()
    {
      months := months + [month];
      assert months[..|months| - 1] == old(months);
    }

    /** Removes the first occurrence of `month`; nothing happens when it
     *  is absent (including when it is null). */
    method RemoveMonth(month: Month?)
      modifies this
      ensures months == RemoveFirst(old(months), month)
      ensures month in old(months) ==> Total() == old(Total()) - month.Total()
      ensures month !in old(months) ==> Total() == old(Total())
    {
      RemoveFirstTotal(months, month);
      months := RemoveFirst(months, month);
    }

    /** The sum of the month totals. */
    method GetTotal() returns (total: real)
      ensures total == Total()
    {
      total := 0.0;
      for i := 0 to |months|
        invariant total == MonthsTotal(months[..i])
      {
        assert months[..i + 1][..i] == months[..i];
        var t := months[i].GetTotal();
        total := total + t;
      }
      assert months[..|months|] == months;
    }

    /** The first month named `name`, or null. */
    method GetMonth(name: string) returns (month: Month?)
      ensures month == MonthNamed(months, name)
    {
      for i := 0 to |months|
        invariant forall j | 0 <= j < i :: months[j].name != name
      {
        if months[i].name == name {
          return months[i];
        }
      }
      return null;
    }

    /** The total of category `cat` over the months that contain it. */
    method GetCatTotal(cat: string) returns (total: real)
      ensures total == CatAcross(months, cat)
    {
      total := 0.0;
      for i := 0 to |months|
        invariant total == CatAcross(months[..i], cat)
      {
        assert months[..i + 1][..i] == months[..i];
        var cats := months[i].GetCats();
        if cat in cats {
          var t := months[i].GetCatTotal(cat);
          total := total + t;
        }
      }
      assert months[..|months|] == months;
    }
  }

}
