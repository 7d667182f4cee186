/** The catalog as the builder ships it: the inline option arrays, the model packages and the
    chassis and customization tables. The cabinet list is not part of this model and stays a
    parameter. */
module SourceData {
  import opened VanTypes
  import opened Catalog

  const ChassisOptions: seq<Item> := [
    Item("sprinter144", "Sprinter 144\"", 70000),
    Item("sprinter170", "Sprinter 170\"", 73000)]

  const ModelPackages: seq<Item> := [
    Item("sansaba", "Sansaba Package", 49995),
    Item("pedernales", "Pedernales Package", 86995),
    Item("riogrande", "Rio Grande Package", 85995)]

  const UpholsteryOptions: seq<Item> := [
    Item("upholstery-leather", "Premium Leather", 3000),
    Item("upholstery-fabric", "Durable Fabric", 1500),
    Item("upholstery-vinyl", "Marine-Grade Vinyl", 2200)]

  const HeatingOptions: seq<Item> := [
    Item("heating-diesel", "Diesel Heater System", 2500),
    Item("heating-ac", "Air Conditioning", 3500)]

  const ExteriorOptions: seq<Item> := [
    Item("exterior-awning", "Feeama 45s Awning", 1695),
    Item("exterior-awning-motorized", "Feeama 45s Awning Motorized", 2195),
    Item("exterior-roofrack", "Flatline LowPro Roofrack", 1895),
    Item("exterior-frontbumper", "Flatline VanCo Front bumper", 1495),
    Item("exterior-bullbar", "Front BullBar", 995),
    Item("exterior-skidplate", "Skidplate", 795),
    Item("exterior-winch", "Warner VR Evo 12s Winch", 1295),
    Item("exterior-rearbumper", "Flatline Van Co Rearbumper", 1495),
    Item("exterior-ladder", "Sprinter Side Latter Wheel Wrap", 895),
    Item("exterior-sidesteps", "Sprinter Van Side Steps", 795),
    Item("exterior-storagebox", "Van Rear Storage Box", 995),
    Item("exterior-platform", "Sprinter Van Rear Door Platform", 895)]

  const BathroomOptions: seq<Item> := [
    Item("bathroom-toilet", "Composting Toilet", 1200),
    Item("bathroom-shower", "Indoor Shower System", 3500),
    Item("bathroom-outdoorshower", "Outdoor Shower", 650)]

  const KitchenOptions: seq<Item> := [
    Item("kitchen-stove-mounted", "2 Burner Stove Mounted", 950),
    Item("kitchen-stove-unmounted", "2 Burner Stove Unmounted", 850),
    Item("kitchen-countertop-teak", "Teak Countertop", 1200),
    Item("kitchen-countertop-walnut", "Walnut Countertop", 1100),
    Item("kitchen-countertop-maple", "Maple Countertop", 900)]

  const LightingOptions: seq<Item> := [
    Item("lighting-premium", "Premium Lighting", 1200),
    Item("lighting-accent", "Accent Lighting", 450),
    Item("lighting-exterior", "Exterior Lighting", 600)]

  const PowerOptions: seq<Item> := [
    Item("power-weekender", "Weekender 300Ah", 3500),
    Item("power-staycool", "Stay Cool 400Ah", 4500),
    Item("power-staycool-extender", "Stay Cool Extender 600Ah", 6500)]

  /** The customization table, without its descriptions and image links. */
  const CustomizationOptions: seq<CustomizationOption> := [
    CustomizationOption("solar", "Electrical", "Solar Power System", 3500, ""),
    CustomizationOption("kitchen", "Interior", "Deluxe Kitchen", 4500, ""),
    CustomizationOption("bathroom", "Interior", "Bathroom Package", 3800, "")]

  function ShippedCatalog(cabinets: seq<Item>): Catalog {
    Catalog(ChassisOptions, ModelPackages, UpholsteryOptions, HeatingOptions, ExteriorOptions,
            BathroomOptions, KitchenOptions, LightingOptions, PowerOptions, cabinets,
            CustomizationOptions)
  }
}

/** A worked run of the builder over the shipped catalog. */
module Scenarios {
  import opened Wrappers
  import opened Catalog
  import opened Pricing
  import opened Builder
  import opened SourceData

  /** Choosing the 144" chassis and the Pedernales package, opening the upholstery drawer and
      adding premium leather prices at 70000 + 86995 + 3000, completes three of the twelve
      categories and shows 25%. */
  lemma PedernalesLeather(cabinets: seq<Item>)
    ensures var cat := ShippedCatalog(cabinets);
            var s := ToggleOption(cat, ClickCategory(SelectModel(cat, SelectChassis(cat, Initial, "sprinter144"), "pedernales"), Upholstery), "upholstery-leather");
            && Total(cat, s) == 159995
            && s.completed == {ChassisStep, ModelsStep, Upholstery}
            && Progress(s) == 25
  {
    var cat := ShippedCatalog(cabinets);
    var s1 := SelectChassis(cat, Initial, "sprinter144");
    assert s1.chassis == Some(ChassisOptions[0]);
    var s2 := SelectModel(cat, s1, "pedernales");
    assert Find(ModelPackages, "pedernales") == Some(ModelPackages[1]);
    var s3 := ClickCategory(s2, Upholstery);
    assert s3.activeCategory == Some(Upholstery);
    var s := ToggleOption(cat, s3, "upholstery-leather");
    assert s.options == ["upholstery-leather"];
    assert FirstMatch(UpgradeLists(cat), "upholstery-leather") == Some(UpholsteryOptions[0]);
    assert UpgradesTotal(UpgradeLists(cat), s.options) == 3000 by {
      assert s.options[..0] == [];
    }
    assert s.completed == {ChassisStep, ModelsStep, Upholstery};
    assert |s.completed| == 3;
    ProgressFormula(s);
  }

  /** A list the chain finds nothing in is skipped. */
  lemma FirstMatchSkip(lists: seq<seq<Item>>, id: string)
    requires |lists| > 0 && Find(lists[0], id) == None
    ensures FirstMatch(lists, id) == FirstMatch(lists[1..], id)
  {
  }

  /** An id is absent from a list whose ids all start with another character. */
  lemma FindByHead(xs: seq<Item>, id: string)
    requires |id| > 0
    requires forall k :: 0 <= k < |xs| ==> |xs[k].id| > 0 && xs[k].id[0] != id[0]
    ensures Find(xs, id) == None
  {
    forall k | 0 <= k < |xs|
      ensures xs[k].id != id
    {
      assert xs[k].id[0] != id[0];
    }
  }

  /** The first power system has no entry in the lists ahead of the power list in the
      chain; one lemma per list keeps each proof small. */
  lemma WeekenderNotInUpholstery()
    ensures Find(UpholsteryOptions, "power-weekender") == None
  {
    FindByHead(UpholsteryOptions, "power-weekender");
  }

  lemma WeekenderNotInHeating()
    ensures Find(HeatingOptions, "power-weekender") == None
  {
    FindByHead(HeatingOptions, "power-weekender");
  }

  lemma WeekenderNotInExterior()
    ensures Find(ExteriorOptions, "power-weekender") == None
  {
    FindByHead(ExteriorOptions, "power-weekender");
  }

  lemma WeekenderNotInBathroom()
    ensures Find(BathroomOptions, "power-weekender") == None
  {
    FindByHead(BathroomOptions, "power-weekender");
  }

  lemma WeekenderNotInKitchen()
    ensures Find(KitchenOptions, "power-weekender") == None
  {
    FindByHead(KitchenOptions, "power-weekender");
  }

  lemma WeekenderNotInLighting()
    ensures Find(LightingOptions, "power-weekender") == None
  {
    FindByHead(LightingOptions, "power-weekender");
  }

  /** The first power system, whose id appears in no earlier list of the `||` chain, is
      priced at 3500 by the upgrades total. */
  lemma WeekenderPrice(cabinets: seq<Item>)
    ensures PriceOf(UpgradeLists(ShippedCatalog(cabinets)), "power-weekender") == 3500
    ensures UpgradesTotal(UpgradeLists(ShippedCatalog(cabinets)), ["power-weekender"]) == 3500
  {
    var id := "power-weekender";
    var lists := UpgradeLists(ShippedCatalog(cabinets));
    WeekenderNotInUpholstery();
    FirstMatchSkip(lists[0..], id);
    WeekenderNotInHeating();
    FirstMatchSkip(lists[1..], id);
    WeekenderNotInExterior();
    FirstMatchSkip(lists[2..], id);
    WeekenderNotInBathroom();
    FirstMatchSkip(lists[3..], id);
    WeekenderNotInKitchen();
    FirstMatchSkip(lists[4..], id);
    WeekenderNotInLighting();
    FirstMatchSkip(lists[5..], id);
    assert lists[6..][0] == PowerOptions;
    assert FirstMatch(lists, id) == Some(PowerOptions[0]);
    assert ["power-weekender"][..0] == [];
  }
}




