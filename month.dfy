/** A Month: a name, a number of days and a map from category name to the
 *  list of Items filed under that category. Categories are declared with
 *  AddCat before items are added to them; every total is recomputed from
 *  the items on each call (there is no cache). */
module Months {

  import opened Items

  /** The map the source keeps from category name to its list of items. */
  type CatData = map<string, seq<Item>>

  /** Sum of the totals of the categories in `cats`. The map's key order is
   *  not modelled: the sum is taken in an arbitrary order, and
   *  CatsTotalPick shows that the order does not matter. */
  ghost function CatsTotal(data: CatData, cats: set<string>): real
    requires cats <= data.Keys
    decreases cats
  {
    if cats == {} then 0.0
    else
      var c :| c in cats;
      ItemsTotal(data[c]) + CatsTotal(data, cats - {c})
  }

  /** Any category of `cats` can be summed first. */
  lemma {:induction false} CatsTotalPick(data: CatData, cats: set<string>, c: string)
    requires cats <= data.Keys && c in cats
    ensures CatsTotal(data, cats) == ItemsTotal(data[c]) + CatsTotal(data, cats - {c})
    decreases cats
  {
    var d :| d in cats && CatsTotal(data, cats) == ItemsTotal(data[d]) + CatsTotal(data, cats - {d});
    if d != c {
      CatsTotalPick(data, cats - {d}, c);
      CatsTotalPick(data, cats - {c}, d);
      assert cats - {d} - {c} == cats - {c} - {d};
    }
  }

  /** Categories outside `cats` do not affect their sum. */
  lemma {:induction false} CatsTotalFrame(data: CatData, cats: set<string>, c: string, items: seq<Item>)
    requires cats <= data.Keys && c !in cats
    ensures CatsTotal(data[c := items], cats) == CatsTotal(data, cats)
    decreases cats
  {
    if cats != {} {
      var d :| d in cats;
      CatsTotalPick(data, cats, d);
      CatsTotalPick(data[c := items], cats, d);
      CatsTotalFrame(data, cats - {d}, c, items);
    }
  }

  /** Replacing the items of one category changes the sum by the difference
   *  of that category's totals. */
  lemma CatsTotalReplace(data: CatData, cats: set<string>, c: string, items: seq<Item>)
    requires cats <= data.Keys && c in cats
    ensures CatsTotal(data[c := items], cats)
         == CatsTotal(data, cats) - ItemsTotal(data[c]) + ItemsTotal(items)
  {
    CatsTotalPick(data, cats, c);
    CatsTotalPick(data[c := items], cats, c);
    CatsTotalFrame(data, cats - {c}, c, items);
  }

  /** Declaring a category that was absent adds its items to the sum. */
  lemma CatsTotalInsert(data: CatData, c: string, items: seq<Item>)
    requires c !in data
    ensures CatsTotal(data[c := items], data.Keys + {c}) == CatsTotal(data, data.Keys) + ItemsTotal(items)
  {
    var d := data[c := items];
    assert d.Keys == data.Keys + {c};
    CatsTotalPick(d, d.Keys, c);
    assert d.Keys - {c} == data.Keys;
    CatsTotalFrame(data, data.Keys, c, items);
    assert CatsTotal(d, data.Keys) == CatsTotal(data, data.Keys);
  }

  class Month {
    const name: string
    const days: int
    var data: CatData

    /** The total of category `cat`. */
    ghost function CatTotal(cat: string): real
      reads this
      requires cat in data
    {
      ItemsTotal(data[cat])
    }

    /** The total of the whole month: the sum of all category totals. */
    ghost function Total(): real
      reads this
    {
      CatsTotal(data, data.Keys)
    }

    /** The month's spending as a positive number: the negation of
     *  everything that is not income. */
    ghost function Losses(): real
      reads this
      requires "Income" in data
    {
      -(Total() - CatTotal("Income"))
    }

    /** A month of 30 days with no categories. */
    constructor Named(name: string)
      ensures this.name == name && days == 30 && data == map[]
    {
      this.name := name;
      days := 30;
      data := map[];
    }

    /** A month of `days` days with no categories. */
    constructor (name: string, days: int)
      ensures this.name == name && this.days == days && data == map[]
    {
      this.name := name;
      this.days := days;
      data := map[];
    }

    /** Declares category `cat` with an empty item list; a category that
     *  already exists loses its items. */
    method AddCat(cat: string)
      modifies this
      ensures data == old(data)[cat := []]
      ensures ContainsCat(cat) && CatTotal(cat) == 0.0
      ensures Total() == old(Total()) - (if cat in old(data) then old(CatTotal(cat)) else 0.0)
    {
      var updated := data[cat := []];
      assert ItemsTotal([]) == 0.0;
      if cat in data {
        assert updated.Keys == data.Keys;
        CatsTotalReplace(data, data.Keys, cat, []);
      } else {
        assert updated.Keys == data.Keys + {cat};
        CatsTotalInsert(data, cat, []);
      }
      data := updated;
    }

    /** True iff `cat` is one of this month's categories. */
    predicate ContainsCat(cat: string)
      reads this
    {
      cat in data
    }

    /** Appends `item` to the end of category `cat`, which must exist. */
    method AddItem(cat: string, item: Item)
      requires cat in data
      modifies this
      ensures data == old(data)[cat := old(data)[cat] + [item]]
      ensures CatTotal(cat) == old(CatTotal(cat)) + item.amount
      ensures Total() == old(Total()) + item.amount
    {
      var items := data[cat] + [item];
      assert items[..|items| - 1] == data[cat];
      var updated := data[cat := items];
      assert updated.Keys == data.Keys;
      CatsTotalReplace(data, data.Keys, cat, items);
      data := updated;
    }

    /** Builds an Item from its parts and appends it to category `cat`. */
    method AddNewItem(cat: string, itemName: string, date: int, amount: real)
      requires cat in data
      modifies this
      ensures data == old(data)[cat := old(data)[cat] + [Item(itemName, date, amount)]]
      ensures Total() == old(Total()) + amount
    {
      AddItem(cat, Item(itemName, date, amount));
    }

    /** The category names, each exactly once, in no particular order. */
    method GetCats() returns (list: seq<string>)
      ensures forall c :: c in list <==> c in data
      ensures forall i, j | 0 <= i < j < |list| :: list[i] != list[j]
    {
      list := [];
      var rest := data.Keys;
      while rest != {}
        invariant rest <= data.Keys
        invariant forall c :: c in list <==> c in data && c !in rest
        invariant forall i, j | 0 <= i < j < |list| :: list[i] != list[j]
        decreases rest
      {
        var c :| c in rest;
        list := list + [c];
        rest := rest - {c};
      }
    }

    /** The sum of the amounts of the items of category `cat`. */
    method GetCatTotal(cat: string) returns (total: real)
      requires cat in data
      ensures total == CatTotal(cat)
    {
      var items := data[cat];
      total := 0.0;
      for i := 0 to |items|
        invariant total == ItemsTotal(items[..i])
      {
        assert items[..i + 1][..i] == items[..i];
        total := total + items[i].amount;
      }
      assert items[..|items|] == items;
    }

    /** The sum of all category totals; 0 for a month with no categories. */
    method GetTotal() returns (total: real)
      ensures total == Total()
    {
      total := 0.0;
      var rest := data.Keys;
      while rest != {}
        invariant rest <= data.Keys
        invariant total + CatsTotal(data, rest) == Total()
        decreases rest
      {
        var c :| c in rest;
        var t := GetCatTotal(c);
        CatsTotalPick(data, rest, c);
        total := total + t;
        rest := rest - {c};
      }
    }

    /** The month's spending: `-(total - income)`, which is the negated
     *  sum of every category other than "Income". */
    method GetLosses() returns (losses: real)
      requires "Income" in data
      ensures losses == Losses()
      ensures losses == -CatsTotal(data, data.Keys - {"Income"})
    {
      var total := GetTotal();
      var income := GetCatTotal("Income");
      CatsTotalPick(data, data.Keys, "Income");
      losses := -(total - income);
    }
  }

  /** A month with no categories totals 0. */
  lemma EmptyMonthTotal(m: Month)
    requires m.data == map[]
    ensures m.Total() == 0.0
  {
  }

  /** The month total splits into income and the non-income categories,
   *  so the losses are what the month spent outside "Income". */
  lemma LossesExcludeIncome(m: Month)
    requires "Income" in m.data
    ensures m.Total() == m.CatTotal("Income") - m.Losses()
    ensures m.Losses() == -CatsTotal(m.data, m.data.Keys - {"Income"})
  {
    CatsTotalPick(m.data, m.data.Keys, "Income");
  }

}
