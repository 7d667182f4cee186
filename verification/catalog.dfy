/** The read-only catalog the builder prices against, and the first-match lookups over it.
    The concrete option arrays are data; the model takes them as a parameter. */
module Catalog {
  import opened Wrappers
  import opened VanTypes

  /** A priced entry: an upgrade option, a chassis (its price is the `priceAdjustment`) or a
      model package. */
  datatype Item = Item(id: string, name: string, price: nat)

  /** Every list the builder reads. `cabinets` is `cabinetOptions`, whose contents are not
      part of this model. */
  datatype Catalog = Catalog(
    chassisOptions: seq<Item>,
    modelPackages: seq<Item>,
    upholstery: seq<Item>,
    heating: seq<Item>,
    exterior: seq<Item>,
    bathroom: seq<Item>,
    kitchen: seq<Item>,
    lighting: seq<Item>,
    power: seq<Item>,
    cabinets: seq<Item>,
    customization: seq<CustomizationOption>)

  /** `xs.find(x => x.id === id)`: the first entry with that id, or none. */
  function Find(xs: seq<Item>, id: string): (r: Option<Item>)
    ensures r.None? <==> forall k :: 0 <= k < |xs| ==> xs[k].id != id
    ensures r.Some? ==> exists k :: 0 <= k < |xs| && xs[k] == r.value && r.value.id == id
                                  && forall j :: 0 <= j < k ==> xs[j].id != id
  {
    if xs == [] then None
    else if xs[0].id == id then Some(xs[0])
    else
      var r := Find(xs[1..], id);
      assert r.Some? ==> exists k :: 0 <= k < |xs| && xs[k] == r.value && r.value.id == id
                                  && forall j :: 0 <= j < k ==> xs[j].id != id by {
        if r.Some? {
          var k :| 0 <= k < |xs[1..]| && xs[1..][k] == r.value && r.value.id == id
                   && forall j :: 0 <= j < k ==> xs[1..][j].id != id;
          assert xs[k + 1] == r.value;
          assert forall j :: 0 <= j < k + 1 ==> xs[j].id != id by {
            forall j | 0 <= j < k + 1
              ensures xs[j].id != id
            {
              if j > 0 {
                assert xs[j] == xs[1..][j - 1];
              }
            }
          }
        }
      }
      r
  }

  /** Searching a concatenation finds in the first part if it can, else in the second. */
  lemma {:induction false} FindAppend(a: seq<Item>, b: seq<Item>, id: string)
    ensures Find(a + b, id) == if Find(a, id).Some? then Find(a, id) else Find(b, id)
  {
    if a == [] {
      assert a + b == b;
    } else {
      assert (a + b)[1..] == a[1..] + b;
      FindAppend(a[1..], b, id);
    }
  }

  /** The customization options seen only through id, name and price. */
  function AsItems(opts: seq<CustomizationOption>): (r: seq<Item>)
    ensures |r| == |opts|
    ensures forall k :: 0 <= k < |opts| ==>
      r[k] == Item(opts[k].id, opts[k].name, opts[k].price)
  {
    seq(|opts|, k requires 0 <= k < |opts| => Item(opts[k].id, opts[k].name, opts[k].price))
  }

  /** The lists `getUpgradesTotal` consults, in the order of its `||` chain. */
  function UpgradeLists(cat: Catalog): seq<seq<Item>> {
    [cat.upholstery, cat.heating, cat.exterior, cat.bathroom, cat.kitchen,
     cat.lighting, cat.power, cat.cabinets, AsItems(cat.customization)]
  }

  /** `a.find(..) || b.find(..) || ...`: the hit from the first list that has one. */
  function FirstMatch(lists: seq<seq<Item>>, id: string): (r: Option<Item>)
    ensures r.None? <==> forall l, k :: 0 <= l < |lists| && 0 <= k < |lists[l]| ==> lists[l][k].id != id
    ensures r.Some? ==> r.value.id == id
  {
    if lists == [] then None
    else match Find(lists[0], id)
      case Some(x) => Some(x)
      case None =>
        var r := FirstMatch(lists[1..], id);
        assert r.None? ==> forall l, k :: 0 <= l < |lists| && 0 <= k < |lists[l]| ==> lists[l][k].id != id by {
          if r.None? {
            forall l, k | 0 <= l < |lists| && 0 <= k < |lists[l]|
              ensures lists[l][k].id != id
            {
              if l > 0 {
                assert lists[l] == lists[1..][l - 1];
              }
            }
          }
        }
        r
  }

  /** All lists laid end to end. */
  function Flatten(lists: seq<seq<Item>>): seq<Item> {
    if lists == [] then [] else lists[0] + Flatten(lists[1..])
  }

  /** The `||` chain of finds is one find over the lists laid end to end. */
  lemma {:induction false} FirstMatchIsFindInFlatten(lists: seq<seq<Item>>, id: string)
    ensures FirstMatch(lists, id) == Find(Flatten(lists), id)
  {
    if lists != [] {
      FindAppend(lists[0], Flatten(lists[1..]), id);
      FirstMatchIsFindInFlatten(lists[1..], id);
    }
  }
}
