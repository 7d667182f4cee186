/** The price breakdown: chassis, base package and upgrades, all in whole dollars. */
module Pricing {
  import opened Wrappers
  import opened Lists
  import opened Catalog

  /** No upgrade list of the catalog has an entry with this id. */
  predicate Unknown(lists: seq<seq<Item>>, id: string) {
    forall l, k :: 0 <= l < |lists| && 0 <= k < |lists[l]| ==> lists[l][k].id != id
  }

  /** `option?.price || 0` for the option the `||` chain of finds returns. */
  function PriceOf(lists: seq<seq<Item>>, id: string): nat {
    match FirstMatch(lists, id)
    case None => 0
    case Some(x) => x.price
  }

  /** An id no list knows is priced 0; otherwise its price is that of an entry with that id
      in one of the lists. */
  lemma PriceOfMeaning(lists: seq<seq<Item>>, id: string)
    ensures Unknown(lists, id) ==> PriceOf(lists, id) == 0
    ensures !Unknown(lists, id) ==>
      exists l, k :: 0 <= l < |lists| && 0 <= k < |lists[l]|
                  && lists[l][k].id == id && lists[l][k].price == PriceOf(lists, id)
  {
    match FirstMatch(lists, id)
    case None =>
    case Some(x) =>
      FirstMatchIsFindInFlatten(lists, id);
      FlattenMember(lists, x);
  }

  lemma {:induction false} FlattenMember(lists: seq<seq<Item>>, x: Item)
    requires x in Flatten(lists)
    ensures exists l, k :: 0 <= l < |lists| && 0 <= k < |lists[l]| && lists[l][k] == x
  {
    if x in lists[0] {
      var k :| 0 <= k < |lists[0]| && lists[0][k] == x;
    } else {
      FlattenMember(lists[1..], x);
      var l, k :| 0 <= l < |lists[1..]| && 0 <= k < |lists[1..][l]| && lists[1..][l][k] == x;
      assert lists[l + 1][k] == x;
    }
  }

  /** `getUpgradesTotal`: `selectedOptions.reduce((total, id) => total + price(id), 0)`,
      folding from the left as `reduce` does. */
  function UpgradesTotal(lists: seq<seq<Item>>, opts: seq<string>): nat {
    if opts == [] then 0
    else UpgradesTotal(lists, opts[..|opts| - 1]) + PriceOf(lists, opts[|opts| - 1])
  }

  /** The plain sum of the prices of the selected ids, head first. */
  function SumOfPrices(lists: seq<seq<Item>>, opts: seq<string>): nat {
    if opts == [] then 0 else PriceOf(lists, opts[0]) + SumOfPrices(lists, opts[1..])
  }

  /** The upgrades total over a concatenation is the sum of the totals. */
  lemma {:induction false} UpgradesTotalAppend(lists: seq<seq<Item>>, a: seq<string>, b: seq<string>)
    ensures UpgradesTotal(lists, a + b) == UpgradesTotal(lists, a) + UpgradesTotal(lists, b)
    decreases |b|
  {
    if b == [] {
      assert a + b == a;
    } else {
      var ab := a + b;
      assert ab[..|ab| - 1] == a + b[..|b| - 1];
      assert ab[|ab| - 1] == b[|b| - 1];
      UpgradesTotalAppend(lists, a, b[..|b| - 1]);
    }
  }

  /** The left fold equals the sum of each selected id's first-match price. */
  lemma {:induction false} UpgradesTotalIsSum(lists: seq<seq<Item>>, opts: seq<string>)
    ensures UpgradesTotal(lists, opts) == SumOfPrices(lists, opts)
  {
    if opts != [] {
      assert opts == [opts[0]] + opts[1..];
      UpgradesTotalAppend(lists, [opts[0]], opts[1..]);
      assert [opts[0]][..0] == [];
      UpgradesTotalIsSum(lists, opts[1..]);
    }
  }

  /** An id that matches no list adds nothing, wherever it sits. */
  lemma UnknownIdIsFree(lists: seq<seq<Item>>, a: seq<string>, id: string, b: seq<string>)
    requires Unknown(lists, id)
    ensures UpgradesTotal(lists, a + [id] + b) == UpgradesTotal(lists, a + b)
  {
    UpgradesTotalAppend(lists, a + [id], b);
    UpgradesTotalAppend(lists, a, [id]);
    UpgradesTotalAppend(lists, a, b);
    assert [id][..0] == [];
  }

  lemma UpgradesTotalCons(lists: seq<seq<Item>>, x: string, ys: seq<string>)
    ensures UpgradesTotal(lists, [x] + ys) == PriceOf(lists, x) + UpgradesTotal(lists, ys)
  {
    UpgradesTotalAppend(lists, [x], ys);
    assert [x][..0] == [];
  }

  /** Dropping every copy of an id takes off its price once per copy. */
  lemma {:induction false} UpgradesTotalRemove(lists: seq<seq<Item>>, xs: seq<string>, id: string)
    ensures UpgradesTotal(lists, Remove(xs, id)) + Count(xs, id) * PriceOf(lists, id)
            == UpgradesTotal(lists, xs)
  {
    if xs != [] {
      var rest := xs[1..];
      var p := PriceOf(lists, id);
      var c := Count(rest, id);
      var removed := UpgradesTotal(lists, Remove(rest, id));
      UpgradesTotalRemove(lists, rest, id);
      assert removed + c * p == UpgradesTotal(lists, rest);
      assert xs == [xs[0]] + rest;
      UpgradesTotalCons(lists, xs[0], rest);
      assert UpgradesTotal(lists, xs) == PriceOf(lists, xs[0]) + removed + c * p;
      if xs[0] == id {
        assert Remove(xs, id) == Remove(rest, id);
        assert Count(xs, id) == c + 1;
        MulSucc(c, p);
      } else {
        assert Remove(xs, id) == [xs[0]] + Remove(rest, id);
        assert Count(xs, id) == c;
        UpgradesTotalCons(lists, xs[0], Remove(rest, id));
      }
    }
  }

  lemma MulSucc(c: nat, p: nat)
    ensures (c + 1) * p == p + c * p
  {
  }

  /** `selectedChassis?.priceAdjustment || 0` and `selectedModel?.price || 0`. */
  function PriceOrZero(x: Option<Item>): (p: nat)
    ensures x.None? ==> p == 0
    ensures x.Some? ==> p == x.value.price
  {
    match x
    case Some(i) => i.price
    case None => 0
  }

  /** `calculateTotal`. */
  function CalculateTotal(lists: seq<seq<Item>>, chassis: Option<Item>, model: Option<Item>, opts: seq<string>): nat {
    PriceOrZero(chassis) + PriceOrZero(model) + UpgradesTotal(lists, opts)
  }

  /** The grand total is chassis plus package plus the sum of the upgrades' prices; a
      missing chassis or package adds nothing. */
  lemma TotalBreakdown(lists: seq<seq<Item>>, chassis: Option<Item>, model: Option<Item>, opts: seq<string>)
    ensures CalculateTotal(lists, chassis, model, opts)
            == (if chassis.Some? then chassis.value.price else 0)
             + (if model.Some? then model.value.price else 0)
             + SumOfPrices(lists, opts)
  {
    UpgradesTotalIsSum(lists, opts);
  }
}
