# Chewy van configurator — a Dafny model of its configuration logic

Chewy is a React configurator for camper vans. The user picks a chassis, a layout package, a
colour and a cabinet finish. They also toggle add-on options. The app shows a price breakdown,
a progress bar and a preview picture, and it validates a contact form before it emails a quote.
This project models that logic as pure Dafny functions over immutable state, and proves what
the code promises about it.

Modules:

- `Builder` (`builder.dfy`): the desktop builder's state and its click handlers. These are the
  chassis, package and colour picks, the option toggle with its completion bookkeeping, and the
  cabinet pick. It also holds the sidebar accordion, the price total, the interior preview
  choice and the progress percentage.
- `Catalog` and `Pricing` (`catalog.dfy`, `pricing.dfy`): the first-match lookup over the option
  lists and the upgrades / grand total arithmetic. The catalog is a parameter.
- `SourceData` and `Scenarios` (`source_data.dfy`): the shipped inline option arrays, model
  packages and chassis table, and one worked run over them.
- `ContactForm` (`contact_form.dfy`): the submit-time validation. The email pattern runs as a
  one-pass matcher, proved equal to a declarative description of the pattern.
- `VanTypes` (`van_types.dfy`): the shared category enumeration, its order, and the `VanModel`
  shape, whose layout id is restricted to three values.
- `VanImageData` (`van_image_data.dfy`): the layered-image asset table, as a total lookup that
  returns an optional layer record.
- `MobileNavigation` and `Accordion` (`mobile_navigation.dfy`, `accordion.dfy`): the mobile
  accordion with its lock gate, the option highlight rule and option click forwarding.
- `Text`, `Lists`, `Wrappers`: JavaScript `includes`, `trim`, `\s` and `filter`, and `Option`.

Modelling choices:

- Prices are whole dollars (`nat`). `x?.price || 0` becomes "the price, or 0 when absent".
- `completedCategories` is a `set`. The code's array never holds a duplicate: every insertion
  is guarded by `includes` or goes through `new Set`. The progress bar also counts a `Set`.
- The builder and `types.ts` declare different category unions and orders: twelve entries
  against eleven. They are kept apart as `Builder.CategoryOrder` and `VanTypes.CategoryOrder`.
- `Math.round(n / 12 * 100)` is computed exactly as `(100n + 6) div 12`. `100n mod 12` is 0,
  4 or 8, so the float product never lands near a half and rounds the same way.
- `handleOptionToggle` reads the open category. Its callers are the option rows, which are
  rendered only inside the open drawer (src/components/VanBuilder.tsx:1263), so
  `ToggleOption` requires that a category is open.
- The package ids the builder looks up (`sansaba`, `pedernales`, `riogrande`) are not the
  `VanModel` layout ids (`san-saba`, `rio-grande`, ...). The model keeps both as written.

Facts about the code that the model keeps, though a reader might expect otherwise:

- The cabinet pick never deselects. Picking the same id containing `cabinet` again leaves the
  same state; an id without that substring escapes the eviction and is listed once per pick.
- Completion is kept as state, not derived from the selection. Chassis, package and colour
  picks mark their category complete even when the id is unknown.
- The progress bar divides by the builder's twelve-entry order, not by the eleven categories
  of `types.ts`.
- Countertops are plain toggles like every other kitchen option.
- There is no owns-van flag and no seeding of options from a model's defaults.

## Model

| member | source | states |
|---|---|---|
| Text.Includes | src/components/VanBuilder.tsx:1142-1144 | `s.includes(sub)` holds exactly when `sub` occurs at some index of `s` |
| Text.TrimNonEmpty | src/components/VanBuilder.tsx:153 | `s.trim()` is non-empty exactly when `s` has a character outside JavaScript's whitespace set |
| Lists.Remove | src/components/VanBuilder.tsx:894 | `filter(id => id !== x)` drops every copy of `x` and keeps membership of every other id |
| Lists.RemoveIncluding | src/components/VanBuilder.tsx:1142-1144 | the cabinet filter keeps exactly the ids that do not contain the substring |
| Catalog.Find | src/components/VanBuilder.tsx:859 | `find` by id returns nothing exactly when no entry has the id; otherwise it returns the first entry with it |
| Catalog.FirstMatch | src/components/VanBuilder.tsx:796-805 | the `||` chain of finds is empty exactly when no list has the id, and any hit has that id |
| Catalog.FirstMatchIsFindInFlatten | src/components/VanBuilder.tsx:796-805 | the chain of finds equals one find over the lists laid end to end, so the earliest list wins |
| Pricing.PriceOfMeaning | src/components/VanBuilder.tsx:796-807 | an id no list knows is priced 0; a known id is priced as an entry with that id in one of the lists |
| Pricing.UpgradesTotalAppend | src/components/VanBuilder.tsx:793-809 | the upgrades total over a concatenation is the sum of the two totals |
| Pricing.UpgradesTotalIsSum | src/components/VanBuilder.tsx:793-809 | the left `reduce` equals the plain sum of each selected id's first-match price |
| Pricing.UnknownIdIsFree | src/components/VanBuilder.tsx:807 | an id matching no list adds nothing wherever it sits in the selection |
| Pricing.UpgradesTotalRemove | src/components/VanBuilder.tsx:793-809 | removing every copy of an id lowers the total by its price once per copy |
| Pricing.PriceOrZero | src/components/VanBuilder.tsx:813-816 | a missing chassis or package contributes 0, a present one its price |
| Pricing.TotalBreakdown | src/components/VanBuilder.tsx:811-822 | total = chassis price + package price + sum of upgrade prices, missing picks counting 0 |
| Builder.SelectChassis | src/components/VanBuilder.tsx:858-865 | the chassis is the first catalog entry with that id, or none when no entry has it; chassis is marked complete either way; nothing else changes |
| Builder.SelectModel | src/components/VanBuilder.tsx:868-875 | the package is the first entry of the package list with that id, or none; models is marked complete either way; nothing else changes |
| Builder.SelectColor | src/components/VanBuilder.tsx:878-885 | the colour is stored unchecked and the colours category is marked complete |
| Builder.ElectricalOptions | src/components/VanBuilder.tsx:925 | keeps exactly the customization options tagged `Electrical` |
| Builder.CategoryOptions | src/components/VanBuilder.tsx:922-945 | chassis, colours and models have no option list; electrical lists the customization options tagged `Electrical`; every other category lists its own catalog array |
| Builder.CategoryOptionsPriced | src/components/VanBuilder.tsx:922-945 | every option a drawer lists has an id that one of the upgrade total's lists carries |
| Builder.ToggleOption | src/components/VanBuilder.tsx:888-919 | membership of exactly the toggled id flips, and a new id goes last; other ids keep their order; only the open category's completion changes, gained on add and lost on remove when none of its options is left |
| Builder.ToggleTwiceRestores | src/components/VanBuilder.tsx:888-919 | toggling an absent id twice restores the option list and the upgrades total |
| Builder.ToggleOptionPrice | src/components/VanBuilder.tsx:888-919 | for any price lists, adding an id raises the upgrades total by its first-match price and removing lowers it by that price times its copies |
| Builder.SelectCabinet | src/components/VanBuilder.tsx:1140-1156 | afterwards the new id is last and the only id containing `cabinet`; the ids without `cabinet` keep their order and copies, followed by the new id when it lacks the substring; a cabinet id appears exactly once, and an id without `cabinet` gains one copy; the cabinets category is complete |
| Builder.SelectCabinetPrice | src/components/VanBuilder.tsx:1140-1156 | after a cabinet pick the upgrades total is that of the options surviving the filter plus the new id's price, once |
| Builder.SelectCabinetIdempotent | src/components/VanBuilder.tsx:1140-1156 | picking the same cabinet id twice gives the state of one pick, with no toggle-off |
| Builder.SelectCabinetTwiceWithoutSubstring | src/components/VanBuilder.tsx:1142-1150 | an id without `cabinet` in it escapes eviction, so a second pick lists it twice |
| Builder.ClickCategory | src/components/VanBuilder.tsx:1253-1259 | clicking the open category closes the drawer and clicking any other opens it; nothing else changes |
| Builder.UnknownPickAddsNothing | src/components/VanBuilder.tsx:858-869 | after an unknown chassis (package) id the total is the package (chassis) price plus the upgrades |
| Builder.VanImage | src/components/VanBuilder.tsx:1174-1188 | a cabinet picture appears only in the interior view for the white, painted or alder finish; its bed variant matches the bed flag; white has its own pictures |
| Builder.PaintedAndAlderLookAlike | src/components/VanBuilder.tsx:1181-1183 | painted and alder cabinets give the same picture |
| Builder.RoundHalfUp | src/components/VanBuilder.tsx:1212 | `Math.round` of a non-negative ratio is the nearest integer, halves going up |
| Builder.Progress | src/components/VanBuilder.tsx:1207-1215 | the percentage never exceeds 100 |
| Builder.AllCategoriesSize | src/components/VanBuilder.tsx:40-43 | the builder's order lists all twelve categories, each once |
| Builder.ProgressFormula | src/components/VanBuilder.tsx:1207-1215 | the percentage is (100n + 6) div 12 for n completed categories, and no tie arises |
| Builder.ProgressMonotone | src/components/VanBuilder.tsx:1207-1215 | completing more categories never lowers the percentage |
| Builder.ProgressFull | src/components/VanBuilder.tsx:1207-1215 | the percentage is 100 exactly when every entry of the order is completed |
| Scenarios.PedernalesLeather | src/components/VanBuilder.tsx:811-822 | 144" chassis + Pedernales package + premium leather totals 159995, with three categories complete and 25% shown |
| Scenarios.WeekenderPrice | src/components/VanBuilder.tsx:786-809 | the 300Ah power system is priced at 3500, and a selection of only it totals 3500; no earlier list of the chain carries its id |
| ContactForm.MatchEmail | src/components/VanBuilder.tsx:159 | the email pattern accepts exactly: no whitespace, one `@` with text before it, and a domain with a `.` that is neither its first nor its last character |
| ContactForm.Validate | src/components/VanBuilder.tsx:153-175 | checks name, email, phone and band in that order and reports only the first failure; passes exactly when all four hold |
| ContactForm.LocationAndCommentsUnchecked | src/components/VanBuilder.tsx:153-175 | location and comments never affect the outcome |
| ContactForm.FilledMeansNonSpace | src/components/VanBuilder.tsx:165 | a required field fails exactly when it is empty or all whitespace |
| ContactForm.MessagesDistinct | src/components/VanBuilder.tsx:153-175 | the four failure messages are pairwise different |
| Accordion.ToggleOpen | src/components/layout/MobileNavigation.tsx:53-59 | the result is closed exactly when the clicked category was open, and otherwise it is the clicked category |
| Accordion.ToggleTwice | src/components/layout/MobileNavigation.tsx:53-59 | clicking the same header twice from closed returns to closed |
| Accordion.AtMostOneOpen | src/components/layout/MobileNavigation.tsx:106-109 | two open categories are the same category |
| MobileNavigation.HeaderClick | src/components/layout/MobileNavigation.tsx:82 | a locked header leaves the open category unchanged; an unlocked one closes its section when open and otherwise opens it, replacing any other open section |
| MobileNavigation.LockedClicksIgnored | src/components/layout/MobileNavigation.tsx:82 | any run of header clicks ends where the same run without the locked ones ends |
| MobileNavigation.OpenThenCloseUnlocked | src/components/layout/MobileNavigation.tsx:53-59 | opening an unlocked category and clicking it again closes the accordion |
| MobileNavigation.IsSelected | src/components/layout/MobileNavigation.tsx:111-113 | a models row is selected iff its id is the chosen model's id; any other row iff its id is selected |
| MobileNavigation.SelectionSources | src/components/layout/MobileNavigation.tsx:111-113 | selected models rows share one id; each kind of row ignores the other selection source |
| MobileNavigation.OptionClick | src/components/layout/MobileNavigation.tsx:124 | an option click forwards the option's id and the category, whatever the lock |
| VanTypes.ParseCategory | src/types.ts:51-62 | exactly the eleven literals read back as categories, each as the one it spells |
| VanTypes.OrderIndex | src/types.ts:64-76 | every category has a position in the order |
| VanTypes.CategoryOrderIsPermutation | src/types.ts:51-76 | the order has 11 entries, lists every category exactly once, and starts chassis, models |
| VanTypes.ParseLayout | src/types.ts:2 | exactly `pedernales`, `rio-grande` and `san-saba` are layout ids |
| VanImageData.LookupByName | src/data/vanImageData.ts:1-3 | string keys resolve to the typed lookup, and an unknown key gives no entry |
| VanImageData.Coverage | src/data/vanImageData.ts:1-141 | every chassis/layout pair has an entry except the 170" San Saba |
| VanImageData.EntriesWellFormed | src/data/vanImageData.ts:1-141 | every entry has a floor, the finished and white walls, a bed and seats; cabinets come painted or white; counters and tables come in maple, teak and walnut |
| VanImageData.SplitRules | src/data/vanImageData.ts:1-141 | cabinets split front/back exactly for Rio Grande; counters exactly for Rio Grande and the 170" Pedernales; no entry has both forms of a slot |
| VanImageData.CounterSplitIndependentOfCabinets | src/data/vanImageData.ts:85-98 | the 170" Pedernales splits its counter but not its cabinet; a cabinet split implies a counter split |
| VanImageData.TableAndCushion | src/data/vanImageData.ts:1-141 | a table exists except for San Saba; a bench cushion only for Rio Grande |

## Left out

- The quote submission: the web form request, its response handling and the alert. These are
  network I/O with an external service.
- The email text assembly and its label `replace` chains. This is presentation of the outbound
  message.
- All rendering, styling, icons and the global stylesheet. Also the fade timer and the
  image-loading spinner, which are timing effects.
- Locale price formatting (`toLocaleString`, `Intl.NumberFormat`). It is a foreign,
  locale-dependent call; the model works in whole dollars.
- The debug `console.log` calls in the cabinet pick and the preview-image choice. They have no
  effect on state.
- The SVG van drawing, the mobile header, the embed script, the button, menubar and step
  components, and the app shell. They only display or wire.
- `cabinetOptions` is not part of this model. It is imported by the builder but not defined
  in the catalog file, so it stays a catalog parameter.
- Display-only catalog fields (descriptions, image links, the package's `vanModelId`). No logic
  reads them.
- The bed switch and the view tabs are plain setters. They appear only as the `hasBed` and
  `activeView` fields of the state.
- Builder.ToggleOption: does not model a toggle while no category is open. The code would then
  add `null` to the completed list. No caller can reach that, because option rows exist only in
  the open drawer.
- Builder.Progress: does not model floating-point division. Exact integer rounding gives the
  same value because no tie can occur.
