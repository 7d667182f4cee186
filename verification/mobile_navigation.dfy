/** The mobile category list: an accordion whose locked headers ignore clicks, and option
    rows that report their selection state and forward clicks to the builder. */
module MobileNavigation {
  import opened Wrappers
  import opened VanTypes
  import opened Accordion

  datatype CategoryOption = CategoryOption(id: string, name: string, price: nat, category: Option<string>)

  /** One entry of the `categories` prop; completion and locking are computed by the caller. */
  datatype Section = Section(
    kind: Category, title: string, isCompleted: bool, isLocked: bool,
    options: seq<CategoryOption>)

  /** The header's click handler: `!isLocked && toggleCategory(kind)`. */
  function HeaderClick(active: Option<Category>, section: Section): (r: Option<Category>)
    ensures section.isLocked ==> r == active
    ensures r != active ==> !section.isLocked && (r == Some(section.kind) || (r == None && active == Some(section.kind)))
    ensures !section.isLocked ==> (r == None <==> active == Some(section.kind))
    ensures !section.isLocked && active != Some(section.kind) ==> r == Some(section.kind)
  {
    if section.isLocked then active else ToggleOpen(active, section.kind)
  }

  /** The open category after a run of header clicks. */
  function ClickHeaders(active: Option<Category>, clicks: seq<Section>): Option<Category>
    decreases |clicks|
  {
    if clicks == [] then active else ClickHeaders(HeaderClick(active, clicks[0]), clicks[1..])
  }

  /** The clicks on unlocked headers, in order. */
  function UnlockedOnly(clicks: seq<Section>): (r: seq<Section>)
    ensures forall s :: s in r <==> s in clicks && !s.isLocked
  {
    if clicks == [] then []
    else if clicks[0].isLocked then UnlockedOnly(clicks[1..])
    else [clicks[0]] + UnlockedOnly(clicks[1..])
  }

  /** Clicks on locked headers never change the open category: any run of clicks ends where
      the same run without them ends. */
  lemma {:induction false} LockedClicksIgnored(active: Option<Category>, clicks: seq<Section>)
    ensures ClickHeaders(active, clicks) == ClickHeaders(active, UnlockedOnly(clicks))
    decreases |clicks|
  {
    if clicks != [] {
      LockedClicksIgnored(HeaderClick(active, clicks[0]), clicks[1..]);
      if !clicks[0].isLocked {
        assert ([clicks[0]] + UnlockedOnly(clicks[1..]))[1..] == UnlockedOnly(clicks[1..]);
      }
    }
  }

  /** Opening an unlocked category and clicking it again closes the accordion. */
  lemma OpenThenCloseUnlocked(section: Section)
    requires !section.isLocked
    ensures ClickHeaders(None, [section, section]) == None
  {
    var once := HeaderClick(None, section);
    assert once == Some(section.kind);
    assert [section, section][1..] == [section];
    assert ClickHeaders(once, [section]) == ClickHeaders(HeaderClick(once, section), []);
  }

  /** An option row is highlighted: for the models category when its id is the chosen
      model's layout id, elsewhere when its id is among the selected options. */
  function IsSelected(section: Section, option: CategoryOption, selectedModel: Option<VanModel>,
                      selectedOptions: seq<string>): (b: bool)
    ensures section.kind == Models ==>
      (b <==> selectedModel.Some? && option.id == LayoutName(selectedModel.value.id))
    ensures section.kind != Models ==> (b <==> option.id in selectedOptions)
  {
    if section.kind == Models then selectedModel.Some? && option.id == LayoutName(selectedModel.value.id)
    else option.id in selectedOptions
  }

  /** In the models category the selected rows all carry the chosen model's id, and the
      option list does not matter there; elsewhere the chosen model does not matter. */
  lemma SelectionSources(section: Section, o1: CategoryOption, o2: CategoryOption,
                         model: Option<VanModel>, other: Option<VanModel>,
                         selected: seq<string>, otherSelected: seq<string>)
    ensures (section.kind == Models && IsSelected(section, o1, model, selected)
             && IsSelected(section, o2, model, selected)) ==> o1.id == o2.id
    ensures section.kind == Models ==>
      IsSelected(section, o1, model, selected) == IsSelected(section, o1, model, otherSelected)
    ensures section.kind != Models ==>
      IsSelected(section, o1, model, selected) == IsSelected(section, o1, other, selected)
  {
  }

  /** The builder callback an option row invokes: `onOptionSelect(option.id, kind)`. */
  datatype OptionSelect = OptionSelect(optionId: string, categoryType: Category)

  /** An option click is forwarded whatever the section's lock; the lock is enforced only at
      the header. */
  function OptionClick(section: Section, option: CategoryOption): (e: OptionSelect)
    ensures e.optionId == option.id && e.categoryType == section.kind
  {
    OptionSelect(option.id, section.kind)
  }
}
