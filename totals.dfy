/**
 * A Python dict from `str` to `Decimal`, as the cost report uses it: the keys in
 * insertion order, and the amount stored under each key.
 */
module Totals {

  /** One `(key, amount)` item of such a dict, and one line of the report. */
  datatype Line = Line(key: string, amount: real)

  ghost predicate Distinct(keys: seq<string>)
  {
    forall i, j :: 0 <= i < j < |keys| ==> keys[i] != keys[j]
  }

  datatype OrderedTotals = OrderedTotals(order: seq<string>, amounts: map<string, real>)
  {
    /** Every key is stored once, and `order` lists exactly the keys of `amounts`. */
    ghost predicate Valid()
    {
      Distinct(order) && forall key :: key in amounts <==> key in order
    }

    /** `d[key] = amount`: a new key goes to the end, a known key keeps its place. */
    function Set(key: string, amount: real): (d: OrderedTotals)
      requires Valid()
      ensures d.Valid()
      ensures d.amounts == amounts[key := amount]
      ensures d.order == if key in amounts then order else order + [key]
    {
      if key in amounts then OrderedTotals(order, amounts[key := amount])
      else OrderedTotals(order + [key], amounts[key := amount])
    }

    /**
     * `if key not in d: d[key] = 0` then `d[key] += amount`: the amount is added to the
     * key's value, a missing key counting as 0 and going to the end.
     */
    function Accumulate(key: string, amount: real): (d: OrderedTotals)
      requires Valid()
      ensures d.Valid()
      ensures d.amounts == amounts[key := (if key in amounts then amounts[key] else 0.0) + amount]
      ensures d.order == if key in amounts then order else order + [key]
    {
      var withKey := if key in amounts then this else Set(key, 0.0);
      withKey.Set(key, withKey.amounts[key] + amount)
    }

    /** `d.items()`, in insertion order. */
    function Items(): (items: seq<Line>)
      requires Valid()
      ensures |items| == |order|
      ensures forall i :: 0 <= i < |order| ==> items[i] == Line(order[i], amounts[order[i]])
    {
      ItemsOf(order, amounts)
    }
  }

  function Empty(): (d: OrderedTotals)
    ensures d.Valid() && d.order == [] && d.amounts == map[]
  {
    OrderedTotals([], map[])
  }

  function ItemsOf(keys: seq<string>, amounts: map<string, real>): (items: seq<Line>)
    requires forall key :: key in keys ==> key in amounts
    ensures |items| == |keys|
    ensures forall i :: 0 <= i < |keys| ==> items[i] == Line(keys[i], amounts[keys[i]])
  {
    if keys == [] then [] else [Line(keys[0], amounts[keys[0]])] + ItemsOf(keys[1..], amounts)
  }

  /** `sum(...)` over the amounts of some lines. */
  function SumAmounts(lines: seq<Line>): real
  {
    if lines == [] then 0.0 else lines[0].amount + SumAmounts(lines[1..])
  }

  lemma {:induction false} SumAmountsAppend(a: seq<Line>, b: seq<Line>)
    ensures SumAmounts(a + b) == SumAmounts(a) + SumAmounts(b)
  {
    if a == [] {
      assert a + b == b;
    } else {
      assert (a + b)[1..] == a[1..] + b;
      SumAmountsAppend(a[1..], b);
    }
  }

  /** Adding a new key adds one item at the end and its amount to the sum. */
  lemma SetNewKey(d: OrderedTotals, key: string, amount: real)
    requires d.Valid() && key !in d.amounts
    ensures d.Set(key, amount).Items() == d.Items() + [Line(key, amount)]
    ensures SumAmounts(d.Set(key, amount).Items()) == SumAmounts(d.Items()) + amount
  {
    var updated := d.amounts[key := amount];
    ItemsOfAppend(d.order, updated, key);
    SumItemsUntouched(d.order, d.amounts, key, amount);
    SumAmountsAppend(d.Items(), [Line(key, amount)]);
  }

  /** `d[key] += amount` (a missing key counting as 0) adds `amount` to the sum of the items. */
  lemma AccumulateSum(d: OrderedTotals, key: string, amount: real)
    requires d.Valid()
    ensures SumAmounts(d.Accumulate(key, amount).Items()) == SumAmounts(d.Items()) + amount
  {
    var e := d.Accumulate(key, amount);
    if key in d.amounts {
      assert e.order == d.order && e.amounts == d.amounts[key := d.amounts[key] + amount];
      SumItemsOverwrite(d.order, d.amounts, key, d.amounts[key] + amount);
    } else {
      AccumulateNewKey(d, key, amount);
    }
  }

  lemma AccumulateNewKey(d: OrderedTotals, key: string, amount: real)
    requires d.Valid() && key !in d.amounts
    ensures SumAmounts(d.Accumulate(key, amount).Items()) == SumAmounts(d.Items()) + amount
  {
    var e := d.Accumulate(key, amount);
    var updated := d.amounts[key := amount];
    assert e.order == d.order + [key] && e.amounts == updated;
    ItemsOfAppend(d.order, updated, key);
    SumItemsUntouched(d.order, d.amounts, key, amount);
    SumAmountsAppend(d.Items(), [Line(key, amount)]);
  }

  /** The items of a dict list each stored key once, with its amount. */
  lemma ItemsMeaning(d: OrderedTotals, line: Line)
    requires d.Valid()
    ensures line in d.Items() <==> line.key in d.amounts && d.amounts[line.key] == line.amount
  {
    if line.key in d.amounts && d.amounts[line.key] == line.amount {
      var i :| 0 <= i < |d.order| && d.order[i] == line.key;
      assert d.Items()[i] == line;
    }
  }

  lemma {:induction false} ItemsOfAppend(keys: seq<string>, amounts: map<string, real>, key: string)
    requires forall k :: k in keys ==> k in amounts
    requires key in amounts
    ensures ItemsOf(keys + [key], amounts) == ItemsOf(keys, amounts) + [Line(key, amounts[key])]
  {
    if keys == [] {
      assert keys + [key] == [key];
    } else {
      assert (keys + [key])[1..] == keys[1..] + [key];
      ItemsOfAppend(keys[1..], amounts, key);
    }
  }

  /** Overwriting a known key leaves the other items alone and changes the sum by the difference. */
  lemma {:induction false} SumItemsOverwrite(keys: seq<string>, amounts: map<string, real>, key: string, amount: real)
    requires Distinct(keys) && key in keys
    requires forall k :: k in keys ==> k in amounts
    ensures SumAmounts(ItemsOf(keys, amounts[key := amount]))
         == SumAmounts(ItemsOf(keys, amounts)) - amounts[key] + amount
  {
    if keys[0] == key {
      assert key !in keys[1..];
      SumItemsUntouched(keys[1..], amounts, key, amount);
    } else {
      assert forall i, j :: 0 <= i < j < |keys[1..]| ==> keys[1..][i] == keys[i + 1] && keys[1..][j] == keys[j + 1];
      SumItemsOverwrite(keys[1..], amounts, key, amount);
    }
  }

  lemma {:induction false} SumItemsUntouched(keys: seq<string>, amounts: map<string, real>, key: string, amount: real)
    requires key !in keys
    requires forall k :: k in keys ==> k in amounts
    ensures ItemsOf(keys, amounts[key := amount]) == ItemsOf(keys, amounts)
  {
    if keys != [] {
      SumItemsUntouched(keys[1..], amounts, key, amount);
    }
  }
}
