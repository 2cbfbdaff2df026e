# BlueVanClef core, modelled in Dafny

BlueVanClef is a set of user-interface front-ends for browsing Bluetooth Low
Energy peripherals; all BLE work is done by an external driver. This project
models the three parts of it that are plain sequential logic:

- **Screen registry** (`registry.dfy`, module `Registry`): the watch
  extension's `Array` of live interface controllers, read and written like a
  dictionary keyed by each controller's `id`, and its `mainViewController`
  (first element, when it is the main controller) and `topViewController`
  (last element) accessors. Controllers are records `Controller(id, isMain)`;
  the getter and setter are specified as functions (`Get`, `Set`) and also
  written as the scanning loops of the source (`Lookup`, `Assign`), which are
  proved to agree with them.
- **Persistent preferences** (`pref_keys.dfy`, `prefs.dfy`, modules
  `PrefKeys` and `Prefs`): the eight preference keys with their raw strings,
  the eight typed getters with their defaults (flags false, RSSI floor -100,
  ID lists empty) over a `map<string, Value>`, the eight setters, and the
  scan criteria (peripheral, service and characteristic ID lists) handed to
  the BLE driver.
- **Complications** (`complications.dfy`, module `Complications`): the
  four-stage template generator chain that maps a watch-face family, plus
  which image assets exist, to a ClockKit template kind, and the data-source
  answers (current entry, placeholder, sample and always-on templates,
  timeline queries, constant answers) with their per-family type checks.

`options.dfy` holds the `Option` type used for Swift optionals.

The scan criteria are declared in the source on the watch app's
`CGA_PersistentPrefs` class, which is not part of this model; they read the
same three ID-list fields, so they are modelled over the `Prefs` record.

Derived facts worth knowing: utilitarian small and graphic rectangular never
produce a timeline entry, because the generator builds a
`UtilitarianSmallSquare` / `GraphicRectangularLargeImage` template while the
timeline check demands `UtilitarianSmallFlat` / `GraphicRectangularStandardBody`;
the placeholder accepts the large-image template, so for graphic rectangular
the placeholder exists while the timeline entry does not. Utilitarian small
gets no placeholder either. Modular large and graphic extra large are handled
by no generator and always yield nil.

## Model

| member | source | states |
|---|---|---|
| Registry.Get | src/WatchOS/Extension/CGA_WatchOS_ExtensionDelegate_Extras.swift:117-124 | nil exactly when no element has the key; otherwise the element at the first position whose id is the key |
| Registry.Lookup | src/WatchOS/Extension/CGA_WatchOS_ExtensionDelegate_Extras.swift:119-123 | the getter's early-returning scan returns the same as the first-match specification `Get` |
| Registry.Set | src/WatchOS/Extension/CGA_WatchOS_ExtensionDelegate_Extras.swift:126-142 | with a match and a value: same length, the first match replaced, every other position unchanged; with a match and nil: exactly the first match removed, the others keep their order; no match: a value is appended, nil changes nothing |
| Registry.Assign | src/WatchOS/Extension/CGA_WatchOS_ExtensionDelegate_Extras.swift:128-141 | the setter's scan that acts on the first match and returns produces the same array as the specification `Set` |
| Registry.MainViewController | src/WatchOS/Extension/CGA_WatchOS_ExtensionDelegate_Extras.swift:149 | present exactly when the array is non-empty and its first element is the main controller, and then it is that element |
| Registry.TopViewController | src/WatchOS/Extension/CGA_WatchOS_ExtensionDelegate_Extras.swift:155 | nil exactly for an empty array, otherwise the last element |
| Registry.GetAfterSet | src/WatchOS/Extension/CGA_WatchOS_ExtensionDelegate_Extras.swift:117-142 | round trip: after storing a controller under its own id, reading that id returns it |
| Registry.GetOtherAfterSet | src/WatchOS/Extension/CGA_WatchOS_ExtensionDelegate_Extras.swift:117-142 | a write under one key (replace, delete or append) does not change what any other key reads, provided the written controller does not carry that other key |
| Registry.SetIdempotent | src/WatchOS/Extension/CGA_WatchOS_ExtensionDelegate_Extras.swift:126-142 | storing a controller under its own id twice gives the same array as storing it once |
| Registry.SetPreservesUniqueIds | src/WatchOS/Extension/CGA_WatchOS_ExtensionDelegate_Extras.swift:126-142 | if no two elements share an id, that stays so after any write whose value carries the key it is written under |
| Registry.DeleteRemovesKey | src/WatchOS/Extension/CGA_WatchOS_ExtensionDelegate_Extras.swift:128-135 | with unique ids, after deleting a key nothing is registered under it |
| Registry.TopAfterRegister | src/WatchOS/Extension/CGA_WatchOS_ExtensionDelegate_Extras.swift:139-155 | a controller registered under a key not yet present becomes the top controller |
| Registry.MainSurvivesSet | src/WatchOS/Extension/CGA_WatchOS_ExtensionDelegate_Extras.swift:126-149 | writes under any key other than the first element's leave the main controller as it was |
| Registry.MainIsKeyedLookup | src/WatchOS/Extension/InterfaceControllers/Push/CGA_WatchOS_MainInterfaceController.swift:38 | when the main controller is first and registered under its fixed id "MAIN", the main accessor equals the keyed lookup of "MAIN" |
| PrefKeys.AllKeys | Sources/BVCApp/BVC_PersistentPrefs.swift:92-100 | eight raw key strings, pairwise distinct, in declaration order, covering every key |
| PrefKeys.RawValueInjective | Sources/BVCApp/BVC_PersistentPrefs.swift:44-86 | distinct keys have distinct raw strings |
| Prefs.KeyList | Sources/BVCApp/BVC_PersistentPrefs.swift:108 | the record's key list is `allKeys`: the raw string of every key, in declaration order |
| Prefs.ContinuouslyUpdatePeripherals | Sources/BVCApp/BVC_PersistentPrefs.swift:115 | true exactly when Bool true is stored under its key; absent or non-Bool reads as false |
| Prefs.DiscoverOnlyConnectableDevices | Sources/BVCApp/BVC_PersistentPrefs.swift:124 | true exactly when Bool true is stored under its key; absent or non-Bool reads as false |
| Prefs.AllowEmptyNames | Sources/BVCApp/BVC_PersistentPrefs.swift:133 | true exactly when Bool true is stored under its key; absent or non-Bool reads as false |
| Prefs.AlwaysUseCRLF | Sources/BVCApp/BVC_PersistentPrefs.swift:142 | true exactly when Bool true is stored under its key; absent or non-Bool reads as false |
| Prefs.MinimumRSSILevel | Sources/BVCApp/BVC_PersistentPrefs.swift:151 | the stored Int, or -100 when the key is absent or holds a non-Int |
| Prefs.PeripheralFilterIDArray | Sources/BVCApp/BVC_PersistentPrefs.swift:160 | the stored string list, or empty when the key is absent or holds another type |
| Prefs.ServiceFilterIDArray | Sources/BVCApp/BVC_PersistentPrefs.swift:169 | the stored string list, or empty when the key is absent or holds another type |
| Prefs.CharacteristicFilterIDArray | Sources/BVCApp/BVC_PersistentPrefs.swift:178 | the stored string list, or empty when the key is absent or holds another type |
| Prefs.FieldReadsStoredOrDefault | Sources/BVCApp/BVC_PersistentPrefs.swift:114-180 | for every field: a stored value of the getter's type is returned as is, anything else gives that field's default |
| Prefs.Put | Sources/BVCApp/BVC_PersistentPrefs.swift:114-180 | writing a field makes its getter return the written value and leaves every other field's getter result unchanged |
| Prefs.SetContinuouslyUpdatePeripherals | Sources/BVCApp/BVC_PersistentPrefs.swift:116 | the getter returns the written flag; the other seven fields read as before |
| Prefs.SetDiscoverOnlyConnectableDevices | Sources/BVCApp/BVC_PersistentPrefs.swift:125 | the getter returns the written flag; the other seven fields read as before |
| Prefs.SetAllowEmptyNames | Sources/BVCApp/BVC_PersistentPrefs.swift:134 | the getter returns the written flag; the other seven fields read as before |
| Prefs.SetAlwaysUseCRLF | Sources/BVCApp/BVC_PersistentPrefs.swift:143 | the getter returns the written flag; the other seven fields read as before |
| Prefs.SetMinimumRSSILevel | Sources/BVCApp/BVC_PersistentPrefs.swift:152 | the getter returns the written level; the other seven fields read as before |
| Prefs.SetPeripheralFilterIDArray | Sources/BVCApp/BVC_PersistentPrefs.swift:161 | the getter returns the written list; the other seven fields read as before |
| Prefs.SetServiceFilterIDArray | Sources/BVCApp/BVC_PersistentPrefs.swift:170 | the getter returns the written list; the other seven fields read as before |
| Prefs.SetCharacteristicFilterIDArray | Sources/BVCApp/BVC_PersistentPrefs.swift:179 | the getter returns the written list; the other seven fields read as before |
| Prefs.ScanCriteriaOf | src/WatchOS/Extension/CGA_WatchOS_ExtensionDelegate_Extras.swift:43 | the criteria carry the peripheral, service and characteristic ID lists unchanged, in that order |
| Prefs.EmptyPrefsScanCriteria | src/WatchOS/Extension/CGA_WatchOS_ExtensionDelegate_Extras.swift:43 | an empty preference map gives criteria with three empty lists |
| Prefs.ScanCriteriaAfterPut | src/WatchOS/Extension/CGA_WatchOS_ExtensionDelegate_Extras.swift:43 | writing an ID list changes exactly its slot of the criteria; writing any other field leaves the criteria unchanged |
| Complications.MakeGraphicTemplate | src/WatchOS/Extension/CGA_ComplicationController.swift:190-258 | the four graphic families get their template exactly when their asset exists (bezel shares the corner template); every other family gives nil |
| Complications.MakeUtilitarianTemplate | src/WatchOS/Extension/CGA_ComplicationController.swift:130-180 | the utilitarian and graphic families get the reference template exactly when their asset exists; every other family gives nil |
| Complications.MakeModularTemplate | src/WatchOS/Extension/CGA_ComplicationController.swift:96-120 | modular small, utilitarian and graphic families get the reference template exactly when their asset exists; every other family gives nil |
| Complications.MakeTemplate | src/WatchOS/Extension/CGA_ComplicationController.swift:49-86 | the whole chain agrees with the per-family reference table: the family's template when its asset exists, nil for a missing asset and for a family no stage handles |
| Complications.CurrentTimelineEntry | src/WatchOS/Extension/CGA_ComplicationController.swift:282-342 | an entry exists exactly for the eight families whose template passes the type check (not modular large, utilitarian small, graphic rectangular, graphic extra large) when their asset exists, and carries that family's template |
| Complications.PlaceholderTemplate | src/WatchOS/Extension/CGA_ComplicationController.swift:365-425 | a template exists exactly for those eight families plus graphic rectangular when the asset exists, and it is the family's template |
| Complications.LocalizableSampleTemplate | src/WatchOS/Extension/CGA_ComplicationController.swift:351-356 | a template exists exactly for the placeholder families (the eight timeline families plus graphic rectangular) when the asset exists, it is the family's template, and it equals the placeholder answer |
| Complications.AlwaysOnTemplate | src/WatchOS/Extension/CGA_ComplicationController.swift:448-453 | a template exists exactly for the placeholder families when the asset exists, it is the family's template, and it equals the placeholder answer |
| Complications.TimelineEntriesBefore | src/WatchOS/Extension/CGA_ComplicationController.swift:478-514 | a list exactly when a current entry exists, and then the one-element list of that entry, whatever the date and limit |
| Complications.TimelineEntriesAfter | src/WatchOS/Extension/CGA_ComplicationController.swift:525-561 | a list exactly when a current entry exists, and then the one-element list of that entry, whatever the date and limit |
| Complications.TimelineRejectsGeneratedTemplate | src/WatchOS/Extension/CGA_ComplicationController.swift:286-341 | for utilitarian small and graphic rectangular with their asset present, a template is generated yet no timeline entry is produced |
| Complications.PlaceholderVersusTimeline | src/WatchOS/Extension/CGA_ComplicationController.swift:369-424 | whenever a timeline entry exists the placeholder is its template; the placeholder exists without an entry exactly for graphic rectangular with its asset present |
| Complications.TimelineQueriesAgree | src/WatchOS/Extension/CGA_ComplicationController.swift:478-561 | the before- and after-queries give identical answers for any dates and limits, with at most one entry |
| Complications.ConstantAnswers | src/WatchOS/Extension/CGA_ComplicationController.swift:434-575 | for every family: no time-travel directions, no timeline end date, shown on the lock screen |

## Left out

- The `Bundle` extension (Info.plist lookups, URL parsing): calls into Foundation.
- `getNextRequestedUpdateDateWithHandler`: it only reads the clock (now plus one second).
- Timeline entry dates (`Date()`), image providers, and the graphic rectangular text provider (the app display name): entries and templates are modelled by their kind only.
- Asset lookup (`UIImage(named:)`) is a parameter: a predicate saying which named images exist.
- DEBUG logging.
- String comparison: controller ids and preference-map keys are compared as sequences of characters, not by Swift's canonical-equivalence `==` (so "e" followed by a combining accent and the precomposed "é" are different keys here); the ids the app creates ("MAIN", UUID strings) and the eight raw key strings are ASCII, where the two agree.
- Weak references and object identity of controllers: a controller is its id and whether its class is the main interface controller; `as?` casts between sibling template classes are equality of template kinds.
- The persistence backend behind `values` (writing to disk, key-value observation): `values` is an in-memory map.
- Integer width: Swift's `Int` is platform-width; the getter and setter do no arithmetic, so the RSSI floor is an unbounded integer.
- Swift's `as?` on values that went through property-list bridging (an `NSNumber` that would cast both as `Bool` and as `Int`) is not modelled; each stored value has exactly one type.
- The watch interface controllers, table-row controllers and the SwiftUI shell: outlet and label glue over the BLE driver.
