/** The desktop builder: its selection state, the reducers behind each click, the completion
    bookkeeping, the price total, the interior preview choice and the progress bar. */
module Builder {
  import opened Wrappers
  import opened Text
  import opened Lists
  import opened Catalog
  import opened Pricing
  import opened Accordion

  /** The builder's own category union, which differs from the shared one: it has colours
      and upholstery but no wall colour. */
  datatype Category =
    | ChassisStep | Colors | ModelsStep | Upholstery | ElectricalStep | HeatingStep
    | ExteriorStep | BathroomStep | KitchenStep | LightingStep | PowerStep | CabinetsStep

  /** The builder's `CATEGORY_ORDER`, twelve entries; the progress bar divides by its length. */
  const CategoryOrder: seq<Category> :=
    [ChassisStep, Colors, ModelsStep, CabinetsStep, Upholstery, ElectricalStep, HeatingStep,
     ExteriorStep, BathroomStep, KitchenStep, LightingStep, PowerStep]

  datatype View = InteriorView | ExteriorView | RearView | RearTopView

  /** Everything the builder keeps in React state and the logic reads. */
  datatype State = State(
    activeCategory: Option<Category>,
    completed: set<Category>,
    activeView: View,
    chassis: Option<Item>,
    model: Option<Item>,
    color: string,
    options: seq<string>,
    hasBed: bool,
    cabinet: string)

  /** The state on mount: the chassis drawer open, nothing chosen. */
  const Initial: State :=
    State(Some(ChassisStep), {}, InteriorView, None, None, "", [], false, "")

  // ---------------------------------------------------------------------------------------
  // Exclusive picks

  /** `handleChassisSelect`: the chassis found by id, or none for an unknown id; the chassis
      category is marked completed either way. */
  function SelectChassis(cat: Catalog, s: State, id: string): (r: State)
    ensures r.chassis.None? <==> forall k :: 0 <= k < |cat.chassisOptions| ==> cat.chassisOptions[k].id != id
    // a hit is the first entry carrying the id, as `find` returns
    ensures r.chassis.Some? ==> r.chassis.value.id == id
    ensures r.chassis.Some? ==>
      exists k :: 0 <= k < |cat.chassisOptions| && cat.chassisOptions[k] == r.chassis.value
                  && forall j :: 0 <= j < k ==> cat.chassisOptions[j].id != id
    ensures r.completed == s.completed + {ChassisStep}
    ensures r == s.(chassis := r.chassis, completed := r.completed)
  {
    s.(chassis := Find(cat.chassisOptions, id), completed := s.completed + {ChassisStep})
  }

  /** `handleModelSelect`: the package found by id in `modelPackages`, or none. */
  function SelectModel(cat: Catalog, s: State, id: string): (r: State)
    ensures r.model.None? <==> forall k :: 0 <= k < |cat.modelPackages| ==> cat.modelPackages[k].id != id
    // a hit is the first entry carrying the id, as `find` returns
    ensures r.model.Some? ==> r.model.value.id == id
    ensures r.model.Some? ==>
      exists k :: 0 <= k < |cat.modelPackages| && cat.modelPackages[k] == r.model.value
                  && forall j :: 0 <= j < k ==> cat.modelPackages[j].id != id
    ensures r.completed == s.completed + {ModelsStep}
    ensures r == s.(model := r.model, completed := r.completed)
  {
    s.(model := Find(cat.modelPackages, id), completed := s.completed + {ModelsStep})
  }

  /** `handleColorSelect`: the colour id is stored as given, with no lookup. */
  function SelectColor(s: State, color: string): (r: State)
    ensures r.color == color
    ensures r.completed == s.completed + {Colors}
    ensures r == s.(color := color, completed := r.completed)
  {
    s.(color := color, completed := s.completed + {Colors})
  }

  // ---------------------------------------------------------------------------------------
  // Toggle options and completion

  /** The customization options tagged `Electrical`, in order. */
  function ElectricalOptions(opts: seq<VanTypes.CustomizationOption>): (r: seq<VanTypes.CustomizationOption>)
    ensures forall o :: o in r <==> o in opts && o.category == "Electrical"
  {
    if opts == [] then []
    else if opts[0].category == "Electrical" then [opts[0]] + ElectricalOptions(opts[1..])
    else ElectricalOptions(opts[1..])
  }

  /** `getCategoryOptions`: the option list behind a category's drawer; the categories with
      no list (chassis, colours, models) give the empty list. */
  function CategoryOptions(cat: Catalog, c: Category): (r: seq<Item>)
    ensures c in {ChassisStep, Colors, ModelsStep} ==> r == []
    ensures c == Upholstery ==> r == cat.upholstery
    ensures c == ElectricalStep ==> r == AsItems(ElectricalOptions(cat.customization))
    ensures c == HeatingStep ==> r == cat.heating
    ensures c == ExteriorStep ==> r == cat.exterior
    ensures c == BathroomStep ==> r == cat.bathroom
    ensures c == KitchenStep ==> r == cat.kitchen
    ensures c == LightingStep ==> r == cat.lighting
    ensures c == PowerStep ==> r == cat.power
    ensures c == CabinetsStep ==> r == cat.cabinets
  {
    match c
    case ElectricalStep => AsItems(ElectricalOptions(cat.customization))
    case Upholstery => cat.upholstery
    case HeatingStep => cat.heating
    case ExteriorStep => cat.exterior
    case BathroomStep => cat.bathroom
    case KitchenStep => cat.kitchen
    case LightingStep => cat.lighting
    case PowerStep => cat.power
    case CabinetsStep => cat.cabinets
    case _ => []
  }

  /** Every option a drawer lists is one the upgrades total prices: its id is in one of the
      lists of the `||` chain. */
  lemma CategoryOptionsPriced(cat: Catalog, c: Category)
    ensures forall k :: 0 <= k < |CategoryOptions(cat, c)| ==>
      !Unknown(UpgradeLists(cat), CategoryOptions(cat, c)[k].id)
  {
    var r := CategoryOptions(cat, c);
    var lists := UpgradeLists(cat);
    forall k | 0 <= k < |r|
      ensures !Unknown(lists, r[k].id)
    {
      match c
      case Upholstery => assert lists[0][k] == r[k];
      case HeatingStep => assert lists[1][k] == r[k];
      case ExteriorStep => assert lists[2][k] == r[k];
      case BathroomStep => assert lists[3][k] == r[k];
      case KitchenStep => assert lists[4][k] == r[k];
      case LightingStep => assert lists[5][k] == r[k];
      case PowerStep => assert lists[6][k] == r[k];
      case CabinetsStep => assert lists[7][k] == r[k];
      case ElectricalStep =>
        var e := ElectricalOptions(cat.customization);
        assert e[k] in cat.customization;
        var j :| 0 <= j < |cat.customization| && cat.customization[j] == e[k];
        assert lists[8][j].id == r[k].id;
    }
  }

  /** `categoryOptions.some(opt => selected.includes(opt.id))`. */
  predicate AnySelected(opts: seq<Item>, selected: seq<string>) {
    exists k :: 0 <= k < |opts| && opts[k].id in selected
  }

  /** `handleOptionToggle`. A selected id is removed (every copy of it) and the open category
      loses its completed mark when none of its options is left; an unselected id is appended
      and the open category is marked completed. The handler is only reachable from an open
      drawer, so a category is always open when it runs. */
  function ToggleOption(cat: Catalog, s: State, id: string): (r: State)
    requires s.activeCategory.Some?
    // membership of exactly this id flips
    ensures id in r.options <==> id !in s.options
    ensures forall x :: x != id ==> (x in r.options <==> x in s.options)
    // every other id keeps its relative order, and a new id goes at the end
    ensures Remove(r.options, id) == Remove(s.options, id)
    ensures id !in s.options ==> r.options == s.options + [id]
    // only the open category's completion can change
    ensures forall c :: c != s.activeCategory.value ==> (c in r.completed <==> c in s.completed)
    ensures id !in s.options ==> s.activeCategory.value in r.completed
    ensures id in s.options ==>
      (s.activeCategory.value in r.completed <==>
         s.activeCategory.value in s.completed
         && AnySelected(CategoryOptions(cat, s.activeCategory.value), r.options))
    ensures r == s.(options := r.options, completed := r.completed)
  {
    var active := s.activeCategory.value;
    if id in s.options then
      var rest := Remove(s.options, id);
      RemoveAbsent(rest, id);
      var completed := if AnySelected(CategoryOptions(cat, active), rest)
                       then s.completed else s.completed - {active};
      s.(options := rest, completed := completed)
    else
      RemoveAppend(s.options, [id], id);
      s.(options := s.options + [id], completed := s.completed + {active})
  }

  /** Toggling an unselected id twice restores the option list and the upgrades total; the
      open category ends up completed exactly when one of its options is still selected. */
  lemma ToggleTwiceRestores(cat: Catalog, s: State, id: string)
    requires s.activeCategory.Some? && id !in s.options
    ensures ToggleOption(cat, ToggleOption(cat, s, id), id).options == s.options
    ensures UpgradesTotal(UpgradeLists(cat), ToggleOption(cat, ToggleOption(cat, s, id), id).options)
            == UpgradesTotal(UpgradeLists(cat), s.options)
    ensures var c := s.activeCategory.value;
            c in ToggleOption(cat, ToggleOption(cat, s, id), id).completed
            <==> AnySelected(CategoryOptions(cat, c), s.options)
  {
    RemoveAppend(s.options, [id], id);
    RemoveAbsent(s.options, id);
  }

  /** Selecting an option adds its first-match price to the upgrades; deselecting takes it
      off once for every copy that was in the list. Stated for any price lists, the shipped
      `UpgradeLists(cat)` among them. */
  lemma ToggleOptionPrice(lists: seq<seq<Item>>, cat: Catalog, s: State, id: string)
    requires s.activeCategory.Some?
    ensures var after := ToggleOption(cat, s, id).options;
            && (id !in s.options ==>
                  UpgradesTotal(lists, after) == UpgradesTotal(lists, s.options) + PriceOf(lists, id))
            && (id in s.options ==>
                  UpgradesTotal(lists, after) + Count(s.options, id) * PriceOf(lists, id)
                  == UpgradesTotal(lists, s.options))
  {
    if id in s.options {
      UpgradesTotalRemove(lists, s.options, id);
    } else {
      UpgradesTotalAppend(lists, s.options, [id]);
      assert [id][..0] == [];
    }
  }

  // ---------------------------------------------------------------------------------------
  // Cabinets

  /** `handleCabinetSelect`: evicts every selected id whose text contains `cabinet`, then
      appends the new one; there is no click-again-to-deselect. */
  function SelectCabinet(s: State, c: string): (r: State)
    ensures |r.options| > 0 && r.options[|r.options| - 1] == c
    ensures forall x :: x in r.options && Includes(x, "cabinet") ==> x == c
    ensures forall x :: x != c ==> (x in r.options <==> x in s.options && !Includes(x, "cabinet"))
    // the surviving ids keep their order and copies, followed by the new id when it survives too
    ensures RemoveIncluding(r.options, "cabinet")
            == RemoveIncluding(s.options, "cabinet") + RemoveIncluding([c], "cabinet")
    // one new copy: the only one for a cabinet id, one more for an id the filter keeps
    ensures Includes(c, "cabinet") ==> Count(r.options, c) == 1
    ensures !Includes(c, "cabinet") ==> Count(r.options, c) == Count(s.options, c) + 1
    ensures r.cabinet == c
    ensures r.completed == s.completed + {CabinetsStep}
    ensures r == s.(options := r.options, cabinet := c, completed := r.completed)
  {
    var kept := RemoveIncluding(s.options, "cabinet");
    RemoveIncludingAppend(kept, [c], "cabinet");
    RemoveIncludingNone(kept, "cabinet");
    CountAppend(kept, [c], c);
    assert !Includes(c, "cabinet") ==> Count(kept, c) == Count(s.options, c) by {
      if !Includes(c, "cabinet") {
        CountRemoveIncluding(s.options, "cabinet", c);
      }
    }
    s.(options := kept + [c], cabinet := c, completed := s.completed + {CabinetsStep})
  }

  /** Picking the same cabinet twice leaves the state as after the first pick, for the
      cabinet ids, which all contain `cabinet`. */
  lemma SelectCabinetIdempotent(s: State, c: string)
    requires Includes(c, "cabinet")
    ensures SelectCabinet(SelectCabinet(s, c), c) == SelectCabinet(s, c)
  {
    var kept := RemoveIncluding(s.options, "cabinet");
    RemoveIncludingAppend(kept, [c], "cabinet");
    RemoveIncludingNone(kept, "cabinet");
  }

  /** A cabinet pick prices the surviving options plus the new id once. */
  lemma SelectCabinetPrice(lists: seq<seq<Item>>, s: State, c: string)
    ensures UpgradesTotal(lists, SelectCabinet(s, c).options)
            == UpgradesTotal(lists, RemoveIncluding(s.options, "cabinet")) + PriceOf(lists, c)
  {
    var kept := RemoveIncluding(s.options, "cabinet");
    UpgradesTotalAppend(lists, kept, [c]);
    assert [c][..0] == [];
  }

  /** An id without `cabinet` in it survives the eviction, so picking it twice lists it twice. */
  lemma SelectCabinetTwiceWithoutSubstring()
    ensures SelectCabinet(SelectCabinet(Initial, "white"), "white").options == ["white", "white"]
  {
    assert !Includes("white", "cabinet");
  }

  // ---------------------------------------------------------------------------------------
  // Accordion

  /** The sidebar header click: the open category closes, any other opens. */
  function ClickCategory(s: State, c: Category): (r: State)
    ensures r.activeCategory == (if s.activeCategory == Some(c) then None else Some(c))
    ensures r == s.(activeCategory := r.activeCategory)
  {
    s.(activeCategory := ToggleOpen(s.activeCategory, c))
  }

  // ---------------------------------------------------------------------------------------
  // Pricing

  /** `calculateTotal` on the current state. */
  function Total(cat: Catalog, s: State): nat {
    CalculateTotal(UpgradeLists(cat), s.chassis, s.model, s.options)
  }

  /** A chassis id the catalog does not list leaves no chassis selected, so the total is the
      package plus the upgrades; the same holds for a package id. */
  lemma UnknownPickAddsNothing(cat: Catalog, s: State, id: string)
    ensures (forall k :: 0 <= k < |cat.chassisOptions| ==> cat.chassisOptions[k].id != id) ==>
      Total(cat, SelectChassis(cat, s, id))
      == PriceOrZero(s.model) + SumOfPrices(UpgradeLists(cat), s.options)
    ensures (forall k :: 0 <= k < |cat.modelPackages| ==> cat.modelPackages[k].id != id) ==>
      Total(cat, SelectModel(cat, s, id))
      == PriceOrZero(s.chassis) + SumOfPrices(UpgradeLists(cat), s.options)
  {
    UpgradesTotalIsSum(UpgradeLists(cat), s.options);
  }

  // ---------------------------------------------------------------------------------------
  // Interior preview

  datatype Image = TestImage | WhiteCabinet | WhiteCabinetBed | GreenCabinet | GreenCabinetBed

  predicate ShowsBed(img: Image) {
    img == WhiteCabinetBed || img == GreenCabinetBed
  }

  /** `getVanImagePath`. */
  function VanImage(s: State): (img: Image)
    ensures s.activeView != InteriorView ==> img == TestImage
    ensures img != TestImage <==>
      s.activeView == InteriorView && s.cabinet in {"cabinet-white", "cabinet-painted", "cabinet-alder"}
    ensures img != TestImage ==> (ShowsBed(img) <==> s.hasBed)
    ensures img in {WhiteCabinet, WhiteCabinetBed} <==> s.activeView == InteriorView && s.cabinet == "cabinet-white"
  {
    if s.activeView == InteriorView && s.cabinet == "cabinet-white" then
      (if s.hasBed then WhiteCabinetBed else WhiteCabinet)
    else if s.activeView == InteriorView && (s.cabinet == "cabinet-painted" || s.cabinet == "cabinet-alder") then
      (if s.hasBed then GreenCabinetBed else GreenCabinet)
    else TestImage
  }

  /** The painted and the alder finish share one picture. */
  lemma PaintedAndAlderLookAlike(s: State)
    ensures VanImage(s.(cabinet := "cabinet-painted")) == VanImage(s.(cabinet := "cabinet-alder"))
  {
  }

  // ---------------------------------------------------------------------------------------
  // Progress

  /** `Math.round(num / den)` for a non-negative ratio: the nearest integer, halves rounded up. */
  function RoundHalfUp(num: nat, den: nat): (r: nat)
    requires den > 0
    ensures 2 * den * r <= 2 * num + den < 2 * den * (r + 1)
  {
    (2 * num + den) / (2 * den)
  }

  /** `calculateProgressPercentage`: distinct completed categories over the length of the
      order, as a rounded percentage capped at 100. */
  function Progress(s: State): (p: nat)
    ensures p <= 100
  {
    var r := RoundHalfUp(100 * |s.completed|, |CategoryOrder|);
    if r < 100 then r else 100
  }

  /** The set of all builder categories. */
  function AllCategories(): set<Category> {
    set c | c in CategoryOrder
  }

  lemma AllCategoriesSize()
    ensures |AllCategories()| == 12
    ensures forall c: Category :: c in AllCategories()
  {
    forall c: Category
      ensures c in AllCategories()
    {
      assert c in CategoryOrder by {
        match c
        case ChassisStep => assert CategoryOrder[0] == c;
        case Colors => assert CategoryOrder[1] == c;
        case ModelsStep => assert CategoryOrder[2] == c;
        case CabinetsStep => assert CategoryOrder[3] == c;
        case Upholstery => assert CategoryOrder[4] == c;
        case ElectricalStep => assert CategoryOrder[5] == c;
        case HeatingStep => assert CategoryOrder[6] == c;
        case ExteriorStep => assert CategoryOrder[7] == c;
        case BathroomStep => assert CategoryOrder[8] == c;
        case KitchenStep => assert CategoryOrder[9] == c;
        case LightingStep => assert CategoryOrder[10] == c;
        case PowerStep => assert CategoryOrder[11] == c;
      }
    }
    DistinctSize(CategoryOrder);
  }

  lemma {:induction false} DistinctSize(xs: seq<Category>)
    requires forall i, j :: 0 <= i < j < |xs| ==> xs[i] != xs[j]
    ensures |set c | c in xs| == |xs|
  {
    if xs != [] {
      var tail := xs[1..];
      DistinctSize(tail);
      assert (set c | c in xs) == (set c | c in tail) + {xs[0]};
      assert xs[0] !in tail;
    }
  }

  /** The percentage is `(100 n + 6) div 12` for n distinct completed categories: ties never
      occur, since `100 n mod 12` is 0, 4 or 8. */
  lemma ProgressFormula(s: State)
    ensures Progress(s) == (100 * |s.completed| + 6) / 12
    ensures (100 * |s.completed|) % 12 in {0, 4, 8}
  {
    AllCategoriesSize();
    assert s.completed <= AllCategories();
    var n := |s.completed|;
    assert n <= 12 by { SubsetSize(s.completed, AllCategories()); }
    assert (2 * (100 * n) + 12) / 24 == (100 * n + 6) / 12;
  }

  lemma SubsetSize(a: set<Category>, b: set<Category>)
    requires a <= b
    ensures |a| <= |b|
  {
    assert b == a + (b - a);
  }

  /** More completed categories never lower the percentage. */
  lemma ProgressMonotone(s: State, t: State)
    requires s.completed <= t.completed
    ensures Progress(s) <= Progress(t)
  {
    SubsetSize(s.completed, t.completed);
    ProgressFormula(s);
    ProgressFormula(t);
  }

  /** The bar reads 100 exactly when every entry of the order is completed. */
  lemma ProgressFull(s: State)
    ensures Progress(s) == 100 <==> forall c :: c in CategoryOrder ==> c in s.completed
  {
    AllCategoriesSize();
    ProgressFormula(s);
    SubsetSize(s.completed, AllCategories());
    if forall c :: c in CategoryOrder ==> c in s.completed {
      assert s.completed == AllCategories();
    } else if |s.completed| == 12 {
      var c :| c in CategoryOrder && c !in s.completed;
      SubsetSize(s.completed, AllCategories() - {c});
    }
  }
}
