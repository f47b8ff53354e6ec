# NearChitectural settings and search results, in Dafny

This project models the core of the NearChitectural Android app's result list
and settings screen:

- `ListItemModel`: the value shown for one point of interest, with `equals`
  and `hashCode` exactly as the class writes them.
- `SearchResultAdapter`: it owns a sorted list of locations and changes it in
  place through `add`, `remove`, `add(List)`, `remove(List)`, `replaceAll`
  and `getItemCount`.
- `Settings`: application-wide state (distance unit, maximum distance and the
  0..10 slider position derived from it, location-permission flag, font size,
  liked locations) with its setters.
- The settings screen (`ui/fragments/SettingsFragment`): the rules that turn
  a radio button, the location switch or the distance slider into new
  settings, and the listeners that apply them.

Files:

- `Java.dfy` (module `JavaLang`) holds the Java semantics the model needs:
  - nullable references;
  - 32-bit `int` wrap-around;
  - division that rounds toward zero;
  - narrowing casts from floating point to `int` (section 5.1.3 of the Java
    Language Specification).
- `ListItemModel.dfy` holds the item value and its equality, including the
  operator-precedence slip in `equals` (see Findings) and the corrected
  comparison.
- `SortedLists.dfy` specifies the sorted list as a value:
  - `add` replaces the held item with the same identifier, then inserts in
    comparator order;
  - `remove` removes by identifier;
  - `addAll` adds each item in turn.

  It proves that every operation keeps the list sorted and free of repeated
  identifiers, what `replaceAll` leaves behind, and that `replaceAll` is
  idempotent.
- `SearchResultAdapter.dfy` is the adapter as a class. Its methods change the
  held sequence in place, as the Java does. `remove(List)` and `replaceAll`
  are loops, proved against the specification functions. `replaceAll`'s
  eviction loop walks the indices downward; its invariant states that the
  suffix already visited is filtered while the prefix is untouched.
- `Settings.dfy` covers the distance units, the slider formula and the
  `Settings` class.
- `SettingsFragment.dfy` covers the choice rules, the round trip from slider
  position to meters and back, and the screen's listeners as methods that
  write into a `Settings` object.

The item type of the adapter is generic. The adapter is told at construction:

- its comparator;
- the identifier used by `areItemsTheSame`;
- the `equals` that `List.contains` uses.

`IsComparator` states the `Comparator` contract that the comparator must meet.

## Model

| member | source | states |
|---|---|---|
| JavaLang.Wrap | app/src/main/java/com/nearchitectural/ui/models/ListItemModel.java:58-64 | the result is an `int` congruent to the exact value modulo 2^32, and equal to it when it already fits |
| JavaLang.Mul | app/src/main/java/com/nearchitectural/ui/fragments/SettingsFragment.java:216 | `int` multiplication: always an `int` congruent to the exact product modulo 2^32, and the exact product when that fits |
| JavaLang.Div | app/src/main/java/com/nearchitectural/utilities/Settings.java:111 | `int` division by a positive divisor rounds toward zero: the quotient brackets the dividend from below for non-negative dividends and from above for negative ones |
| JavaLang.RealToInt | app/src/main/java/com/nearchitectural/ui/fragments/SettingsFragment.java:143 | `(int)` of a float drops the fraction toward zero; values above or below the `int` range give `Integer.MAX_VALUE` or `Integer.MIN_VALUE` |
| ListItemModels.Equals | app/src/main/java/com/nearchitectural/ui/models/ListItemModel.java:45-56 | `equals` holds only for a list item with the same id |
| ListItemModels.FieldHash | app/src/main/java/com/nearchitectural/ui/models/ListItemModel.java:61-62 | a null field contributes 0 to the hash |
| ListItemModels.HashCode | app/src/main/java/com/nearchitectural/ui/models/ListItemModel.java:58-64 | the hash is the `int` congruent to 31·h(id) + h(title) + h(type) |
| ListItemModels.StringEquals | app/src/main/java/com/nearchitectural/ui/models/ListItemModel.java:52-54 | `s.equals(o)` for a non-null string holds exactly when `o` is non-null and has the same characters |
| ListItemModels.EqualsReflexive | app/src/main/java/com/nearchitectural/ui/models/ListItemModel.java:47 | an item equals itself even without the identity shortcut |
| ListItemModels.EqualsRejectsNullAndOtherClasses | app/src/main/java/com/nearchitectural/ui/models/ListItemModel.java:48 | null and objects of another class are never equal |
| ListItemModels.DifferentIdsNeverEqual | app/src/main/java/com/nearchitectural/ui/models/ListItemModel.java:52 | items with different ids are unequal in both directions |
| ListItemModels.EqualsWithTypeIgnoresTitle | app/src/main/java/com/nearchitectural/ui/models/ListItemModel.java:53 | with a non-null type, `equals` is exactly "same id and same type" |
| ListItemModels.EqualsWithoutType | app/src/main/java/com/nearchitectural/ui/models/ListItemModel.java:53-54 | with a null type, titles are compared only when the other type is null and the own title non-null; otherwise the other's title must be null |
| ListItemModels.AttributesIgnored | app/src/main/java/com/nearchitectural/ui/models/ListItemModel.java:45-64 | distance and the four accessibility/price flags affect neither `equals` nor `hashCode` |
| ListItemModels.HashCodeDependsOnIdTitleType | app/src/main/java/com/nearchitectural/ui/models/ListItemModel.java:58-64 | items agreeing on id, title and type hash alike |
| ListItemModels.CorrectedEquals | app/src/main/java/com/nearchitectural/ui/models/ListItemModel.java:45-56 | the intended comparison: a list item with equal id, title and type |
| ListItemModels.CorrectedEqualsImpliesEquals | app/src/main/java/com/nearchitectural/ui/models/ListItemModel.java:45-56 | the intended comparison implies `equals` as written |
| ListItemModels.EqualsIgnoresTitleWitness | app/src/main/java/com/nearchitectural/ui/models/ListItemModel.java:53-54 | two items with different titles are `equals` as written, but not under the intended comparison |
| ListItemModels.EqualsAsymmetricWitness | app/src/main/java/com/nearchitectural/ui/models/ListItemModel.java:53-54 | `equals` as written is not symmetric |
| ListItemModels.EqualsInconsistentWithHashCode | app/src/main/java/com/nearchitectural/ui/models/ListItemModel.java:45-64 | `equals` as written can hold between items with different hash codes |
| ListItemModels.CorrectedEqualsIsEquivalence | app/src/main/java/com/nearchitectural/ui/models/ListItemModel.java:45-56 | the intended comparison is reflexive, symmetric and transitive, and rejects null and other classes |
| ListItemModels.CorrectedEqualsConsistentWithHashCode | app/src/main/java/com/nearchitectural/ui/models/ListItemModel.java:58-64 | items equal under the intended comparison have equal hash codes |
| SortedLists.WithoutIds | app/src/main/java/com/nearchitectural/ui/adapters/SearchResultAdapter.java:79-81 | removal by identifier keeps exactly the items whose identifier is not removed |
| SortedLists.Insert | app/src/main/java/com/nearchitectural/ui/adapters/SearchResultAdapter.java:43-46 | insertion adds exactly one occurrence of the item (as a multiset) |
| SortedLists.Added | app/src/main/java/com/nearchitectural/ui/adapters/SearchResultAdapter.java:74-76 | after `add(x)` the items are `x` and the former items with a different identifier |
| SortedLists.AddAll | app/src/main/java/com/nearchitectural/ui/adapters/SearchResultAdapter.java:84-86 | after `addAll(xs)` the items are the former ones whose identifier `xs` lacks, plus the last item of `xs` per identifier |
| SortedLists.FilterKeepsSorted | app/src/main/java/com/nearchitectural/ui/adapters/SearchResultAdapter.java:79-81 | removing items keeps the list sorted |
| SortedLists.FilterKeepsUniqueIds | app/src/main/java/com/nearchitectural/ui/adapters/SearchResultAdapter.java:79-81 | removing items keeps identifiers distinct |
| SortedLists.InsertKeepsSorted | app/src/main/java/com/nearchitectural/ui/adapters/SearchResultAdapter.java:43-46 | inserting in comparator order keeps the list sorted |
| SortedLists.InsertKeepsUniqueIds | app/src/main/java/com/nearchitectural/ui/adapters/SearchResultAdapter.java:58-61 | inserting an item with a new identifier keeps identifiers distinct |
| SortedLists.AddedKeepsInvariant | app/src/main/java/com/nearchitectural/ui/adapters/SearchResultAdapter.java:74-76 | `add` keeps the list sorted with distinct identifiers: an existing identifier is replaced, not duplicated |
| SortedLists.AddAllKeepsInvariant | app/src/main/java/com/nearchitectural/ui/adapters/SearchResultAdapter.java:84-86 | `addAll` keeps the list sorted with distinct identifiers |
| SortedLists.AddAllHoldsEveryId | app/src/main/java/com/nearchitectural/ui/adapters/SearchResultAdapter.java:84-86 | after `addAll(xs)` every identifier of `xs` is held |
| SortedLists.RemoveHeldAt | app/src/main/java/com/nearchitectural/ui/adapters/SearchResultAdapter.java:101-103 | on distinct identifiers, removing the item at index `i` by identifier deletes exactly index `i` |
| SortedLists.EvictionKeeps | app/src/main/java/com/nearchitectural/ui/adapters/SearchResultAdapter.java:100-105 | a kept item extends the filtered suffix of the downward walk by one index |
| SortedLists.EvictionRemoves | app/src/main/java/com/nearchitectural/ui/adapters/SearchResultAdapter.java:100-105 | the item at the current index is the one first seen there, and removing it extends the filtered suffix by one index |
| SortedLists.Contains | app/src/main/java/com/nearchitectural/ui/adapters/SearchResultAdapter.java:102 | `models.contains(model)` holds exactly when some element of `models` is `equals` to the item; never for an empty list |
| SortedLists.RemoveEach | app/src/main/java/com/nearchitectural/ui/adapters/SearchResultAdapter.java:89-95 | removing the models one by one leaves exactly the held items whose identifier no model carries |
| SortedLists.RemoveEachIsWithoutIds | app/src/main/java/com/nearchitectural/ui/adapters/SearchResultAdapter.java:89-95 | removing the models one by one removes exactly the held items with their identifiers, the others staying in order |
| SortedLists.RemoveEachKeepsInvariant | app/src/main/java/com/nearchitectural/ui/adapters/SearchResultAdapter.java:89-95 | `remove(List)` keeps the list sorted with distinct identifiers |
| SortedLists.ReplaceAll | app/src/main/java/com/nearchitectural/ui/adapters/SearchResultAdapter.java:98-108 | after `replaceAll(models)` the items are the survivors `models` contains whose identifier it does not carry, plus the last model per identifier |
| SortedLists.ReplaceAllHoldsEveryId | app/src/main/java/com/nearchitectural/ui/adapters/SearchResultAdapter.java:98-108 | after `replaceAll(models)` every identifier of `models` is held |
| SortedLists.ReplaceAllHoldsOnlyModels | app/src/main/java/com/nearchitectural/ui/adapters/SearchResultAdapter.java:98-108 | when `equals` implies equal identifiers, every item held after `replaceAll(models)` comes from `models` |
| SortedLists.ReplaceAllWithNothing | app/src/main/java/com/nearchitectural/ui/adapters/SearchResultAdapter.java:98-108 | `replaceAll` with no models empties the list |
| SortedLists.ReplaceAllKeepsInvariant | app/src/main/java/com/nearchitectural/ui/adapters/SearchResultAdapter.java:98-108 | `replaceAll` keeps the list sorted with distinct identifiers |
| SortedLists.SortedListDetermined | app/src/main/java/com/nearchitectural/ui/adapters/SearchResultAdapter.java:43-61 | two sorted lists with distinct identifiers and the same items are equal when the comparator breaks ties by identifier |
| SortedLists.ReplaceAllIdempotent | app/src/main/java/com/nearchitectural/ui/adapters/SearchResultAdapter.java:98-108 | a second `replaceAll` with the same models holds the same items, and the identical list when ties are broken by identifier |
| SearchResultAdapters.SearchResultAdapter.constructor | app/src/main/java/com/nearchitectural/ui/adapters/SearchResultAdapter.java:67-71 | a new adapter holds nothing and keeps its comparator |
| SearchResultAdapters.SearchResultAdapter.Add | app/src/main/java/com/nearchitectural/ui/adapters/SearchResultAdapter.java:74-76 | the held list becomes `Added(old, model)` and stays sorted with distinct identifiers |
| SearchResultAdapters.SearchResultAdapter.Remove | app/src/main/java/com/nearchitectural/ui/adapters/SearchResultAdapter.java:79-81 | the held item with the model's identifier goes, the rest stay sorted |
| SearchResultAdapters.SearchResultAdapter.AddList | app/src/main/java/com/nearchitectural/ui/adapters/SearchResultAdapter.java:84-86 | the held list becomes `AddAll(old, models)` and stays sorted with distinct identifiers |
| SearchResultAdapters.SearchResultAdapter.RemoveList | app/src/main/java/com/nearchitectural/ui/adapters/SearchResultAdapter.java:89-95 | the loop removes exactly the held items whose identifier occurs in `models`, keeping the others in order |
| SearchResultAdapters.SearchResultAdapter.ReplaceAll | app/src/main/java/com/nearchitectural/ui/adapters/SearchResultAdapter.java:98-108 | the downward eviction loop followed by `addAll` produces `ReplaceAll(old, models)`, sorted with distinct identifiers |
| SearchResultAdapters.SearchResultAdapter.GetItemCount | app/src/main/java/com/nearchitectural/ui/adapters/SearchResultAdapter.java:123-126 | the count is the length of the held list |
| AppSettings.DistanceUnit.ConversionRate | app/src/main/java/com/nearchitectural/utilities/Settings.java:38-40 | every unit's rate is 1000 or 1609 meters |
| AppSettings.ConversionRates | app/src/main/java/com/nearchitectural/utilities/Settings.java:27-28 | a kilometre is 1000 meters and a mile 1609 |
| AppSettings.DistanceUnit.DisplayName | app/src/main/java/com/nearchitectural/utilities/Settings.java:42-44 | every unit's display name is "kilometers" or "miles" |
| AppSettings.DisplayNames | app/src/main/java/com/nearchitectural/utilities/Settings.java:27-28 | kilometres show as "kilometers" and miles as "miles", two distinct names |
| AppSettings.CastToInt | app/src/main/java/com/nearchitectural/utilities/Settings.java:111 | the cast gives an `int`: `Integer.MAX_VALUE` for the unlimited distance (`Double.MAX_VALUE`), the distance itself when it is an `int`, and the nearest end of the range otherwise |
| AppSettings.SliderPosition | app/src/main/java/com/nearchitectural/utilities/Settings.java:111-113 | the slider position is always within 0..10 |
| AppSettings.SliderPositionCountsUnits | app/src/main/java/com/nearchitectural/utilities/Settings.java:111-113 | the position is the number of whole units in the distance when that is at most 10, and 0 for negative distances or more than 10 units |
| AppSettings.SliderPositionOfUnbounded | app/src/main/java/com/nearchitectural/utilities/Settings.java:111-113 | the unlimited distance (`Double.MAX_VALUE`) puts the slider at 0 |
| AppSettings.SliderPositionOfWholeUnits | app/src/main/java/com/nearchitectural/utilities/Settings.java:111-113 | s whole units, for s in 0..10, put the slider at s |
| AppSettings.Settings.constructor | app/src/main/java/com/nearchitectural/utilities/Settings.java:48-55 | a new settings object uses kilometres; the other fields hold Java's defaults |
| AppSettings.Settings.SetFontSize | app/src/main/java/com/nearchitectural/utilities/Settings.java:94-96 | only the font size changes |
| AppSettings.Settings.SetMaxDistance | app/src/main/java/com/nearchitectural/utilities/Settings.java:109-114 | stores the distance unchanged and sets the slider to its position in the current unit, within 0..10; nothing else changes |
| AppSettings.Settings.SetDistanceUnit | app/src/main/java/com/nearchitectural/utilities/Settings.java:120-122 | only the unit changes; distance and slider stay |
| AppSettings.Settings.SetLocationPermissionsGranted | app/src/main/java/com/nearchitectural/utilities/Settings.java:141-143 | only the permission flag changes |
| AppSettings.Settings.SetLikedLocations | app/src/main/java/com/nearchitectural/utilities/Settings.java:150-152 | installs the liked set; nothing else changes |
| AppSettings.Settings.LocationIsLiked | app/src/main/java/com/nearchitectural/utilities/Settings.java:162-164 | the query holds exactly when the id is in the installed liked set; `AddLikedLocation` and `RemoveLikedLocation` state its value after each update |
| AppSettings.Settings.AddLikedLocation | app/src/main/java/com/nearchitectural/utilities/Settings.java:154-156 | afterwards the location is liked and every other location's membership is unchanged |
| AppSettings.Settings.RemoveLikedLocation | app/src/main/java/com/nearchitectural/utilities/Settings.java:158-160 | afterwards the location is not liked and every other location's membership is unchanged |
| SettingsFragments.FontSizeFor | app/src/main/java/com/nearchitectural/ui/fragments/SettingsFragment.java:88-94 | the chosen font size is one of the three styles |
| SettingsFragments.FontButtonFor | app/src/main/java/com/nearchitectural/ui/fragments/SettingsFragment.java:71-81 | the button toggled on is one of the three font buttons |
| SettingsFragments.FontChoice | app/src/main/java/com/nearchitectural/ui/fragments/SettingsFragment.java:88-94 | small button gives Small, large button gives Large, any other identifier Medium, each as an if-and-only-if |
| SettingsFragments.FontChoiceRoundTrip | app/src/main/java/com/nearchitectural/ui/fragments/SettingsFragment.java:71-94 | choosing a font button and rebuilding the screen toggles the same button; a stored style outside the three comes back as Medium |
| SettingsFragments.UnitFor | app/src/main/java/com/nearchitectural/ui/fragments/SettingsFragment.java:161-165 | the unit changes only when a unit button is checked |
| SettingsFragments.UnitChoice | app/src/main/java/com/nearchitectural/ui/fragments/SettingsFragment.java:161-165 | the kilometres button gives kilometres, the miles button miles, any other identifier keeps the unit |
| SettingsFragments.MaxDistanceFor | app/src/main/java/com/nearchitectural/ui/fragments/SettingsFragment.java:211-217 | the distance is unlimited exactly when the slider is 0 or permission is missing; otherwise an `int` number of meters |
| SettingsFragments.MaxDistanceInUnits | app/src/main/java/com/nearchitectural/ui/fragments/SettingsFragment.java:216 | for slider 1..10 the `int` product does not wrap: the distance is slider × rate meters |
| SettingsFragments.SliderRoundTrip | app/src/main/java/com/nearchitectural/ui/fragments/SettingsFragment.java:200-218 | with permission, slider s in 0..10 gives a distance whose slider position is s again |
| SettingsFragments.SliderIgnoredWithoutPermission | app/src/main/java/com/nearchitectural/ui/fragments/SettingsFragment.java:212-213 | without permission the distance is unlimited and the slider falls to 0, whatever was chosen |
| SettingsFragments.PermissionFor | app/src/main/java/com/nearchitectural/ui/fragments/SettingsFragment.java:116-133 | permission is recorded exactly when the switch is on and location services are enabled: never with the switch off or services off, always with both on |
| SettingsFragments.SettingsFragment.constructor | app/src/main/java/com/nearchitectural/ui/fragments/SettingsFragment.java:71-81 | building the screen toggles the button of the stored font size; as `onViewCreated` does at line 182, it enables the slider exactly when permission is recorded |
| SettingsFragments.SettingsFragment.HandleSliderValue | app/src/main/java/com/nearchitectural/ui/fragments/SettingsFragment.java:200-218 | stores the distance the slider selects and the slider position `setMaxDistance` derives from it (so a position above 10 is stored as 0); with permission and a position in 0..10 the stored slider is that position, without permission it is 0; unit, flag, font and likes stay |
| SettingsFragments.SettingsFragment.OnSliderValueChanged | app/src/main/java/com/nearchitectural/ui/fragments/SettingsFragment.java:141-145 | the slider's value truncated toward zero selects the stored distance, and the stored slider position is the one derived from that distance; with permission and a truncated value in 0..10 it is that value |
| SettingsFragments.SettingsFragment.OnFontSizeChanged | app/src/main/java/com/nearchitectural/ui/fragments/SettingsFragment.java:86-95 | the font size becomes the chosen style; nothing else changes |
| SettingsFragments.SettingsFragment.OnDistanceUnitChanged | app/src/main/java/com/nearchitectural/ui/fragments/SettingsFragment.java:159-166 | the unit follows the chosen button; nothing else changes |
| SettingsFragments.SettingsFragment.OnLocationSwitchChanged | app/src/main/java/com/nearchitectural/ui/fragments/SettingsFragment.java:115-135 | the flag and slider enablement become "switch on and services enabled"; switching off keeps the distance; switching on re-applies the stored slider, which clears the limit when permission was not yet recorded |

## Left out

- Rendering: view holders, `onBindViewHolder`, the RecyclerView notification callbacks, `getItemId` and `setHasStableIds`. They draw the list and do not change it.
- Batched updates: `beginBatchedUpdates`/`endBatchedUpdates` only group notifications.
- The Android `SortedList` is idealised as a sequence sorted by the comparator with one item per identifier.
  - The model matches items by identifier alone, wherever they sit in the list. The library finds a held item by binary search on the comparator, then checks `areItemsTheSame` only among compare-equal neighbours.
  - So when a model's sort key differs from that of the held item with the same identifier (an updated distance, say), the library and the model part ways. In `add` and in `addAll`'s merge, the library keeps both items where the model replaces one. In `remove(model)`, and so in `remove(List)` and `replaceAll`'s eviction, the library leaves the held item in place where the model removes it.
  - The library places items that tie under the comparator in an order of its own; the model puts a new item after its equals.
- `LocationModel`, its comparators and its `equals` are not part of this model. The adapter takes them as parameters.
  - `SortedLists.ReplaceAllHoldsOnlyModels` assumes that `equals` implies equal identifiers.
  - `SortedLists.ReplaceAllIdempotent` claims list equality only for comparators that break ties by identifier.
- `String.hashCode` is a parameter. The model does not compute its value.
- `ListItemModel`'s id is modelled as non-null, since `equals` and `hashCode` dereference it. The `this == o` shortcut is folded into the field comparison: `EqualsReflexive` shows that it changes nothing.
- Floating point: the maximum distance is `Unbounded | Meters(int)`. Every value the app stores is either `Double.MAX_VALUE` or an `int` product. The slider's `float` is a `real`, so NaN and rounding are not modelled.
- The singleton: `getInstance`'s double-checked locking, `volatile`, `readResolve` and serialisation. `Settings` is one object, and concurrency is not modelled.
- `TagMapper` and the tag accessors are not part of this model. The same goes for `settingsLoaded` and its accessors, which only the settings loader uses.
- `Settings.setLikedLocations` stores the caller's `HashSet` itself, so later changes through either reference are shared. The model copies the set as a value.
- `AppSettings.Settings.AddLikedLocation`: the liked-location methods require the set to have been installed. In the source, calling them before that throws `NullPointerException`.
- The settings screen's side effects: text labels, restarting the activity on a font change, `requestLocationPermissions` (asynchronous), `saveSettings` persistence, the tag-selector dialog and the navigation menu.
- `locationPermissionsResult` only sets the switch. The listener this triggers is `OnLocationSwitchChanged`.
- `SearchableActivity` and the non-UI `fragments/SettingsFragment` are not part of this model.

## Findings

| source | as written | input that shows it | evidently intended | confidence | as-written member | corrected member |
|---|---|---|---|---|---|---|
| app/src/main/java/com/nearchitectural/ui/models/ListItemModel.java:53-54 | `&&` binds tighter than `?:`. With a non-null type, only id and type are compared. With a null type, titles are compared only when the other's type is null too; otherwise a null title matches any type. | two items with id "loc1" and type "museum", titled "Castle" and "Cave", are `equals`; `EqualsAsymmetricWitness` and `EqualsInconsistentWithHashCode` show the loss of symmetry and of hash consistency | compare id, title and type, each null-safe | likely; not executed | ListItemModels.EqualsIgnoresTitleWitness | ListItemModels.CorrectedEquals |
