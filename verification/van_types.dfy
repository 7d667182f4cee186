/** The shared vocabulary of the configurator: the category enumeration with its display
    order, and the shape of a van layout model. */
module VanTypes {
  import opened Wrappers

  /** The closed `CategoryType` union. */
  datatype Category =
    | Chassis | Models | WallColor | Cabinets | Electrical | Heating
    | Exterior | Bathroom | Kitchen | Lighting | Power

  /** The string literal each category is spelled as. */
  function CategoryName(c: Category): string {
    match c
    case Chassis => "chassis"
    case Models => "models"
    case WallColor => "wallcolor"
    case Cabinets => "cabinets"
    case Electrical => "electrical"
    case Heating => "heating"
    case Exterior => "exterior"
    case Bathroom => "bathroom"
    case Kitchen => "kitchen"
    case Lighting => "lighting"
    case Power => "power"
  }

  /** Reads a category literal; any other string is not a category. */
  function ParseCategory(s: string): (r: Option<Category>)
    ensures r.Some? ==> CategoryName(r.value) == s
    ensures forall c :: CategoryName(c) == s ==> r == Some(c)
  {
    if s == "chassis" then Some(Chassis)
    else if s == "models" then Some(Models)
    else if s == "wallcolor" then Some(WallColor)
    else if s == "cabinets" then Some(Cabinets)
    else if s == "electrical" then Some(Electrical)
    else if s == "heating" then Some(Heating)
    else if s == "exterior" then Some(Exterior)
    else if s == "bathroom" then Some(Bathroom)
    else if s == "kitchen" then Some(Kitchen)
    else if s == "lighting" then Some(Lighting)
    else if s == "power" then Some(Power)
    else None
  }

  /** `CATEGORY_ORDER`: the display order of the categories. */
  const CategoryOrder: seq<Category> :=
    [Chassis, Models, WallColor, Cabinets, Electrical, Heating,
     Exterior, Bathroom, Kitchen, Lighting, Power]

  /** Where a category sits in `CategoryOrder`. */
  function OrderIndex(c: Category): (i: nat)
    ensures i < |CategoryOrder| && CategoryOrder[i] == c
  {
    match c
    case Chassis => 0
    case Models => 1
    case WallColor => 2
    case Cabinets => 3
    case Electrical => 4
    case Heating => 5
    case Exterior => 6
    case Bathroom => 7
    case Kitchen => 8
    case Lighting => 9
    case Power => 10
  }

  /** The order lists every category exactly once, eleven in all, and starts with the
      two prerequisites, chassis then models. */
  lemma CategoryOrderIsPermutation()
    ensures |CategoryOrder| == 11
    ensures forall i, j :: 0 <= i < j < |CategoryOrder| ==> CategoryOrder[i] != CategoryOrder[j]
    ensures forall c: Category :: c in CategoryOrder
    ensures CategoryOrder[0] == Chassis && CategoryOrder[1] == Models
  {
    forall c: Category
      ensures c in CategoryOrder
    {
      assert CategoryOrder[OrderIndex(c)] == c;
    }
  }

  /** The layout identifiers a `VanModel` may carry. */
  datatype LayoutId = Pedernales | RioGrande | SanSaba

  function LayoutName(m: LayoutId): string {
    match m
    case Pedernales => "pedernales"
    case RioGrande => "rio-grande"
    case SanSaba => "san-saba"
  }

  /** Reads a layout identifier; every other string is rejected, since the field's type
      admits only the three literals. */
  function ParseLayout(s: string): (r: Option<LayoutId>)
    ensures r.Some? ==> LayoutName(r.value) == s
    ensures forall m :: LayoutName(m) == s ==> r == Some(m)
  {
    if s == "pedernales" then Some(Pedernales)
    else if s == "rio-grande" then Some(RioGrande)
    else if s == "san-saba" then Some(SanSaba)
    else None
  }

  /** One default per exclusive slot (wall colour, cabinet, counter) and two flags. */
  datatype DefaultSelections = DefaultSelections(
    wallColorId: string,
    cabinetId: string,
    counterId: string,
    hasBed: bool,
    hasSeats: bool)

  /** Catalog prices and the other numeric fields are whole dollars. */
  datatype CustomizationOption = CustomizationOption(
    id: string, category: string, name: string, price: nat, description: string)

  datatype VanModel = VanModel(
    id: LayoutId,
    name: string,
    basePrice: nat,
    price: nat,
    description: string,
    imageUrl: string,
    items: seq<CustomizationOption>,
    chassisSizes: seq<string>,
    defaultSelections: DefaultSelections)
}
