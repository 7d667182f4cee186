/** The layered-image asset table: for each chassis length and layout, the image for every
    named slot. A key the table does not have reads as an absent slot, never an error. */
module VanImageData {
  import opened Wrappers
  import opened VanTypes

  datatype ChassisSize = Sprinter144 | Sprinter170

  function ChassisSizeName(c: ChassisSize): string {
    match c
    case Sprinter144 => "sprinter144"
    case Sprinter170 => "sprinter170"
  }

  /** Variant name to image path, e.g. `"white"` to the white-wall picture. */
  type Variants = map<string, string>

  /** One entry of the table. Every slot is optional, as a key of the object literal may be
      missing; the single and the split (front/back) forms of cabinets and counters are
      separate slots. */
  datatype LayerSet = LayerSet(
    floor: Option<string>,
    wall: Option<Variants>,
    cabinet: Option<Variants>,
    frontCabinet: Option<Variants>,
    backCabinet: Option<Variants>,
    counter: Option<Variants>,
    frontCounter: Option<Variants>,
    backCounter: Option<Variants>,
    table: Option<Variants>,
    bed: Option<string>,
    benchCushion: Option<string>,
    seats: Option<string>)

  const Layers144Pedernales: LayerSet := LayerSet(
      floor := Some("/assets/van-layers/144-pedernales/44.PD_0001_44.LongFloor.png"),
      wall := Some(map[
          "finished" := "/assets/van-layers/144-pedernales/44.PD_0000s_0003s_0001_44.PD.FW.png",
          "white" := "/assets/van-layers/144-pedernales/44.PD_0000s_0003s_0000_44.PD.WW.png"]),
      cabinet := Some(map[
          "painted" := "/assets/van-layers/144-pedernales/44.PD_0000s_0002s_0000_44.PD.Cab.Green.png",
          "white" := "/assets/van-layers/144-pedernales/44.PD_0000s_0002s_0001_44.PD.Cab.White.png"]),
      frontCabinet := None,
      backCabinet := None,
      counter := Some(map[
          "maple" := "/assets/van-layers/144-pedernales/44.PD_0000s_0001s_0000_44.PD.Co.Maple.png",
          "teak" := "/assets/van-layers/144-pedernales/44.PD_0000s_0001s_0001_44.PD.Co.Teak.png",
          "walnut" := "/assets/van-layers/144-pedernales/44.PD_0000s_0001s_0002_44.PD.Co.Walnut.png"]),
      frontCounter := None,
      backCounter := None,
      table := Some(map[
          "maple" := "/assets/van-layers/144-pedernales/44.PD_0000s_0000s_0000_44.PD.T.Maple.png",
          "teak" := "/assets/van-layers/144-pedernales/44.PD_0000s_0000s_0001_44.PD.T.Teak.png",
          "walnut" := "/assets/van-layers/144-pedernales/44.PD_0000s_0000s_0002_44.PD.T.Walnut.png"]),
      bed := Some("/assets/van-layers/144-pedernales/44.PD_0000s_0000_44.PD.Bed.png"),
      benchCushion := None,
      seats := Some("/assets/van-layers/144-pedernales/44.PD_0000_144-Front-Seats.png"))

  const Layers144RioGrande: LayerSet := LayerSet(
      floor := Some("/assets/van-layers/144-rio-grande/44.RG_0001_44.ShortFloor.png"),
      wall := Some(map[
          "finished" := "/assets/van-layers/144-rio-grande/44.RG_0000s_0005s_0001_44.Rio.FW.png",
          "white" := "/assets/van-layers/144-rio-grande/44.RG_0000s_0005s_0000_44.Rio.WW.png"]),
      cabinet := None,
      frontCabinet := Some(map[
          "painted" := "/assets/van-layers/144-rio-grande/44.RG_0000s_0003s_0000_44.Rio.FC.Green.png",
          "white" := "/assets/van-layers/144-rio-grande/44.RG_0000s_0003s_0001_44.Rio.FC.White.png"]),
      backCabinet := Some(map[
          "painted" := "/assets/van-layers/144-rio-grande/44.RG_0000s_0004s_0000_44.Rio.BC.Green.png",
          "white" := "/assets/van-layers/144-rio-grande/44.RG_0000s_0004s_0001_44.Rio.BC.White.png"]),
      counter := None,
      frontCounter := Some(map[
          "maple" := "/assets/van-layers/144-rio-grande/44.RG_0000s_0000s_0000_44.Rio.FCo.Maple.png",
          "teak" := "/assets/van-layers/144-rio-grande/44.RG_0000s_0000s_0001_44.Rio.FCo.Teak.png",
          "walnut" := "/assets/van-layers/144-rio-grande/44.RG_0000s_0000s_0002_44.Rio.FCo.Walnut.png"]),
      backCounter := Some(map[
          "maple" := "/assets/van-layers/144-rio-grande/44.RG_0000s_0001s_0000_44.Rio.BCo.Maple.png",
          "teak" := "/assets/van-layers/144-rio-grande/44.RG_0000s_0001s_0001_44.Rio.BCo.Teak.png",
          "walnut" := "/assets/van-layers/144-rio-grande/44.RG_0000s_0001s_0002_44.Rio.BCo.Walnut.png"]),
      table := Some(map[
          "maple" := "/assets/van-layers/144-rio-grande/44.RG_0000s_0002s_0000_44.Rio.T.Maple.png",
          "teak" := "/assets/van-layers/144-rio-grande/44.RG_0000s_0002s_0001_44.Rio.T.Teak.png",
          "walnut" := "/assets/van-layers/144-rio-grande/44.RG_0000s_0002s_0002_44.Rio.T.Walnut.png"]),
      bed := Some("/assets/van-layers/144-rio-grande/44.RG_0000s_0000_44.Rio.Bed.png"),
      benchCushion := Some("/assets/van-layers/144-rio-grande/44.RG_0000s_0001_44.Rio.BenchCushion.png"),
      seats := Some("/assets/van-layers/144-rio-grande/44.RG_0000_144-Front-Seats.png"))

  const Layers144SanSaba: LayerSet := LayerSet(
      floor := Some("/assets/van-layers/144-san-saba/44.SS_0001_44.ShortFloor.png"),
      wall := Some(map[
          "finished" := "/assets/van-layers/144-san-saba/44.SS_0000s_0002s_0001_44.SS.FW.png",
          "white" := "/assets/van-layers/144-san-saba/44.SS_0000s_0002s_0000_44.SS.WW.png"]),
      cabinet := Some(map[
          "painted" := "/assets/van-layers/144-san-saba/44.SS_0000s_0001_44.SS.C.Green.png",
          "white" := "/assets/van-layers/144-san-saba/44.SS_0000s_0002_44.SS.C.White.png"]),
      frontCabinet := None,
      backCabinet := None,
      counter := Some(map[
          "maple" := "/assets/van-layers/144-san-saba/44.SS_0000s_0000s_0000_44.SS.Co.Maple.png",
          "teak" := "/assets/van-layers/144-san-saba/44.SS_0000s_0000s_0001_44.SS.Co.Teak.png",
          "walnut" := "/assets/van-layers/144-san-saba/44.SS_0000s_0000s_0002_44.SS.Co.Walnut.png"]),
      frontCounter := None,
      backCounter := None,
      table := None,
      bed := Some("/assets/van-layers/144-san-saba/44.SS_0000s_0000_44.SS.Bed.png"),
      benchCushion := None,
      seats := Some("/assets/van-layers/144-rio-grande/44.RG_0000_144-Front-Seats.png"))

  const Layers170Pedernales: LayerSet := LayerSet(
      floor := Some("/assets/van-layers/170-pedernales/70.PD._0000s_0001_170-Long-Floor.png"),
      wall := Some(map[
          "finished" := "/assets/van-layers/170-pedernales/70.PD._0000s_0004s_0001_170-ped-finished-wall.png",
          "white" := "/assets/van-layers/170-pedernales/70.PD._0000s_0004s_0000_ped-170-white-walls.png"]),
      cabinet := Some(map[
          "painted" := "/assets/van-layers/170-pedernales/70.PD._0000s_0003s_0001_ped-cabinets-green.png",
          "white" := "/assets/van-layers/170-pedernales/70.PD._0000s_0003s_0000_ped-white-cab.png"]),
      frontCabinet := None,
      backCabinet := None,
      counter := None,
      frontCounter := Some(map[
          "maple" := "/assets/van-layers/170-pedernales/70.PD._0000s_0000s_0000_70.PD.FC.Maple.png",
          "teak" := "/assets/van-layers/170-pedernales/70.PD._0000s_0000s_0001_70.PD.FC.Teak.png",
          "walnut" := "/assets/van-layers/170-pedernales/70.PD._0000s_0000s_0002_70.PD.FC.Walnut.png"]),
      backCounter := Some(map[
          "maple" := "/assets/van-layers/170-pedernales/70.PD._0000s_0001s_0000_70.PD.BC.Maple.png",
          "teak" := "/assets/van-layers/170-pedernales/70.PD._0000s_0001s_0001_70.PD.BC.Teak.png",
          "walnut" := "/assets/van-layers/170-pedernales/70.PD._0000s_0001s_0002_70.PD.BC.Walnut.png"]),
      table := Some(map[
          "maple" := "/assets/van-layers/170-pedernales/70.PD._0000s_0002s_0000_70.PD.T.Maple.png",
          "teak" := "/assets/van-layers/170-pedernales/70.PD._0000s_0002s_0001_70.PD.T.Teak.png",
          "walnut" := "/assets/van-layers/170-pedernales/70.PD._0000s_0002s_0002_70.PD.T.Walnut.png"]),
      bed := Some("/assets/van-layers/170-pedernales/70.PD._0000s_0000_170-ped-bed.png"),
      benchCushion := None,
      seats := Some("/assets/van-layers/170-pedernales/70.PD._0000_170-front-seats.png"))

  const Layers170RioGrande: LayerSet := LayerSet(
      floor := Some("/assets/van-layers/170-rio-grande/170-Rio-Grande-PS-Layers_0000s_0002_170-Short-Base-Floor.png"),
      wall := Some(map[
          "finished" := "/assets/van-layers/170-rio-grande/170-Rio-Grande-PS-Layers_0000s_0005s_0001_170-rio-grande-wall-finished.png",
          "white" := "/assets/van-layers/170-rio-grande/170-Rio-Grande-PS-Layers_0000s_0005s_0000_170-rio-wall-white.png"]),
      cabinet := None,
      frontCabinet := Some(map[
          "painted" := "/assets/van-layers/170-rio-grande/170-Rio-Grande-PS-Layers_0000s_0002s_0000_70.RG.FC.Green.png",
          "white" := "/assets/van-layers/170-rio-grande/170-Rio-Grande-PS-Layers_0000s_0002s_0001_70.RG.FC.White.png"]),
      backCabinet := Some(map[
          "painted" := "/assets/van-layers/170-rio-grande/170-Rio-Grande-PS-Layers_0000s_0004s_0000_70.RG.BC.Green.png",
          "white" := "/assets/van-layers/170-rio-grande/170-Rio-Grande-PS-Layers_0000s_0004s_0001_70.RG.BC.White.png"]),
      counter := None,
      frontCounter := Some(map[
          "maple" := "/assets/van-layers/170-rio-grande/170-Rio-Grande-PS-Layers_0000s_0000s_0000_70.RG.FC.Maple.png",
          "teak" := "/assets/van-layers/170-rio-grande/170-Rio-Grande-PS-Layers_0000s_0000s_0001_70.RG.FC.Teak.png",
          "walnut" := "/assets/van-layers/170-rio-grande/170-Rio-Grande-PS-Layers_0000s_0000s_0002_70.RG.FC.Walnut.png"]),
      backCounter := Some(map[
          "maple" := "/assets/van-layers/170-rio-grande/170-Rio-Grande-PS-Layers_0000s_0003s_0000_70.RG.BC.Maple.png",
          "teak" := "/assets/van-layers/170-rio-grande/170-Rio-Grande-PS-Layers_0000s_0003s_0001_70.RG.BC.Teak.png",
          "walnut" := "/assets/van-layers/170-rio-grande/170-Rio-Grande-PS-Layers_0000s_0003s_0002_70.RG.BC.Walnut.png"]),
      table := Some(map[
          "maple" := "/assets/van-layers/170-rio-grande/170-Rio-Grande-PS-Layers_0000s_0001s_0000_70.RG.T.Maple.png",
          "teak" := "/assets/van-layers/170-rio-grande/170-Rio-Grande-PS-Layers_0000s_0001s_0001_70.RG.T.Teak.png",
          "walnut" := "/assets/van-layers/170-rio-grande/170-Rio-Grande-PS-Layers_0000s_0001s_0002_70.RG.T.Walnut.png"]),
      bed := Some("/assets/van-layers/170-rio-grande/170-Rio-Grande-PS-Layers_0000s_0000_70.RG.Bed.png"),
      benchCushion := Some("/assets/van-layers/170-rio-grande/170-Rio-Grande-PS-Layers_0000s_0001_rio-grande-bench-cushions.png"),
      seats := Some("/assets/van-layers/170-rio-grande/170-Rio-Grande-PS-Layers_0000_170-front-seats.png"))

  /** `vanLayerImages[chassis][layout]`: the entry, or none for the one pair the table lacks. */
  function Lookup(chassis: ChassisSize, layout: LayoutId): Option<LayerSet> {
    match (chassis, layout)
    case (Sprinter144, Pedernales) => Some(Layers144Pedernales)
    case (Sprinter144, RioGrande) => Some(Layers144RioGrande)
    case (Sprinter144, SanSaba) => Some(Layers144SanSaba)
    case (Sprinter170, Pedernales) => Some(Layers170Pedernales)
    case (Sprinter170, RioGrande) => Some(Layers170RioGrande)
    case (Sprinter170, SanSaba) => None
  }

  /** The same lookup keyed by the strings the object uses; unknown keys give none. */
  function LookupByName(chassis: string, layout: string): (r: Option<LayerSet>)
    ensures forall c, l :: chassis == ChassisSizeName(c) && layout == LayoutName(l) ==> r == Lookup(c, l)
    ensures r.Some? ==> exists c, l :: chassis == ChassisSizeName(c) && layout == LayoutName(l)
  {
    var c := if chassis == "sprinter144" then Some(Sprinter144)
             else if chassis == "sprinter170" then Some(Sprinter170)
             else None;
    match (c, ParseLayout(layout))
    case (Some(c), Some(l)) =>
      assert chassis == ChassisSizeName(c) && layout == LayoutName(l);
      Lookup(c, l)
    case _ => None
  }

  /** Cabinets split into front and back pieces for the Rio Grande layout only. */
  predicate CabinetsSplit(chassis: ChassisSize, layout: LayoutId) {
    layout == RioGrande
  }

  /** Counters split for Rio Grande and for the long-chassis Pedernales. */
  predicate CountersSplit(chassis: ChassisSize, layout: LayoutId) {
    layout == RioGrande || (chassis == Sprinter170 && layout == Pedernales)
  }

  /** The table covers both chassis with all three layouts, except the long chassis with
      San Saba. */
  lemma Coverage(chassis: ChassisSize, layout: LayoutId)
    ensures Lookup(chassis, layout).None? <==> chassis == Sprinter170 && layout == SanSaba
  {
  }

  /** A floor, exactly the finished and white wall variants, a bed and seats. */
  predicate HasBasics(e: LayerSet) {
    && e.floor.Some? && e.bed.Some? && e.seats.Some?
    && e.wall.Some? && e.wall.value.Keys == {"finished", "white"}
  }

  predicate CabinetVariants(v: Option<Variants>) {
    v.Some? ==> v.value.Keys == {"painted", "white"}
  }

  predicate WoodVariants(v: Option<Variants>) {
    v.Some? ==> v.value.Keys == {"maple", "teak", "walnut"}
  }

  /** Cabinet pieces come in painted and white; counters and tables in maple, teak and
      walnut. */
  predicate HasVariantNames(e: LayerSet) {
    && CabinetVariants(e.cabinet) && CabinetVariants(e.frontCabinet) && CabinetVariants(e.backCabinet)
    && WoodVariants(e.counter) && WoodVariants(e.frontCounter) && WoodVariants(e.backCounter)
    && WoodVariants(e.table)
  }

  lemma Entry144PedernalesWellFormed()
    ensures HasBasics(Layers144Pedernales) && HasVariantNames(Layers144Pedernales)
  {
  }

  lemma Entry144RioGrandeWellFormed()
    ensures HasBasics(Layers144RioGrande) && HasVariantNames(Layers144RioGrande)
  {
  }

  lemma Entry144SanSabaWellFormed()
    ensures HasBasics(Layers144SanSaba) && HasVariantNames(Layers144SanSaba)
  {
  }

  lemma Entry170PedernalesWellFormed()
    ensures HasBasics(Layers170Pedernales) && HasVariantNames(Layers170Pedernales)
  {
  }

  lemma Entry170RioGrandeWellFormed()
    ensures HasBasics(Layers170RioGrande) && HasVariantNames(Layers170RioGrande)
  {
  }

  /** Every present entry has the basic slots and the expected variant names. */
  lemma EntriesWellFormed(chassis: ChassisSize, layout: LayoutId)
    requires Lookup(chassis, layout).Some?
    ensures HasBasics(Lookup(chassis, layout).value)
    ensures HasVariantNames(Lookup(chassis, layout).value)
  {
    match (chassis, layout)
    case (Sprinter144, Pedernales) => Entry144PedernalesWellFormed();
    case (Sprinter144, RioGrande) => Entry144RioGrandeWellFormed();
    case (Sprinter144, SanSaba) => Entry144SanSabaWellFormed();
    case (Sprinter170, Pedernales) => Entry170PedernalesWellFormed();
    case (Sprinter170, RioGrande) => Entry170RioGrandeWellFormed();
  }

  /** Where cabinets and counters split, and that no entry has both the single and the split
      form of a slot. The two rules differ: the long-chassis Pedernales splits its counter
      but not its cabinet. */
  lemma SplitRules(chassis: ChassisSize, layout: LayoutId)
    requires Lookup(chassis, layout).Some?
    ensures var e := Lookup(chassis, layout).value;
            && (e.frontCabinet.Some? <==> CabinetsSplit(chassis, layout))
            && (e.backCabinet.Some? <==> CabinetsSplit(chassis, layout))
            && (e.cabinet.Some? <==> !CabinetsSplit(chassis, layout))
            && (e.frontCounter.Some? <==> CountersSplit(chassis, layout))
            && (e.backCounter.Some? <==> CountersSplit(chassis, layout))
            && (e.counter.Some? <==> !CountersSplit(chassis, layout))
  {
  }

  lemma CounterSplitIndependentOfCabinets()
    ensures CountersSplit(Sprinter170, Pedernales) && !CabinetsSplit(Sprinter170, Pedernales)
    ensures Lookup(Sprinter170, Pedernales).value.frontCounter.Some?
    ensures Lookup(Sprinter170, Pedernales).value.cabinet.Some?
    ensures forall c, l :: CabinetsSplit(c, l) ==> CountersSplit(c, l)
  {
  }

  /** Tables exist for Pedernales and Rio Grande but never San Saba; bench cushions only for
      Rio Grande. */
  lemma TableAndCushion(chassis: ChassisSize, layout: LayoutId)
    requires Lookup(chassis, layout).Some?
    ensures Lookup(chassis, layout).value.table.Some? <==> layout != SanSaba
    ensures Lookup(chassis, layout).value.benchCushion.Some? <==> layout == RioGrande
  {
  }
}
