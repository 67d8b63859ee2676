# lmt-frontend: autocomplete widget and project form

This project models the two pieces of logic in the lmt-frontend browser
application, a data-entry front end for user profiles, skills and projects.
Both pieces are written in Dafny and proved.

1. **The reusable autocomplete widget** (`LmtAutocompleteComponent`).
   - It filters a datasource by case-insensitive prefix on one attribute.
   - It keeps a mutable list of selected items.
   - It reports that list to its host form through the callback registered
     with `registerOnChange`, and receives values from it through `writeValue`.
2. **The project entry form** (`UserProjectComponent`).
   - Its start-date and end-date pickers bound each other.
   - Its save action runs only when the required fields are filled in.

Modules:

- `Wrappers`: `Option` (JavaScript `null`/`undefined` against a value).
- `LmtAutocompleteParam`: the widget's input. It is `Parameter`, with the
  datasource as a list of items and the filter mode the host form sets.
  An `Item` maps attribute names to string values.
- `LmtAutocomplete`: the pure part and the `Component` class.
  - The pure part covers ASCII lower-casing, the prefix filter
    (`Filter` for `Array.prototype.filter`, `FilterByPrefix`, `DefaultFilter`), the suggestion mapping
    (`Suggestions`), and Ramda's `findIndex`/`propEq` (`FindIndex`, `PropEq`).
  - It also models JavaScript's `splice(start, 1)` (`SpliceOne`), including a
    negative start, and removal by key (`RemoveByKey`).
  - The `Component` class holds the widget's fields. Its methods change them
    as the source's `selectedItem`, `removeItem`, `writeValue`,
    `registerOnChange`, `setupFilter` and the parameter setter do.
- `UserProject`: the form value (`ProjectForm`), the `required` validators
  (`RequiredFields`, `FormValid`) and the `UserProjectComponent` class.
  The class holds the date bounds and a ghost record of the save calls.

How the framework plumbing is represented:

- Each reactive subscription is a method, called with the new value. Each
  observable is its latest value:
  - `_componentReady` is the `ready` flag.
  - `_filteredItems` is `filterQuery`, the last query its stream has seen;
    `FilteredItems()` computes the suggestion list from it.
- The registered `onChange` callback is a `Handler` value. Each call is
  appended to the ghost log `notified`, with the list the callback received.
- `saveProject` is a ghost log `saveCalls`, holding the employee id and the
  form value given to the mapper. `pendingSaves` counts calls whose results
  have not arrived. `projectsAdded` counts emissions of `newProjectAdded`.
- The current time (`new Date()`) is the parameter `now`. A date is an
  integer time value, and only its order is used.
- Two behaviours rest on the date pickers' `min`/`max` bounds. A start date
  within `maxStartDate`, or an end date at or after `minEndDate`, keeps an
  ordered interval ordered (`IntervalOrdered`). The code never adjusts a
  value already entered.

Behaviours of the code worth knowing:

- The filter reads `item[attr].toLowerCase()`, so an item that lacks the
  filter attribute makes the filter fail rather than count as a non-match.
  The filter therefore requires every datasource item to carry the attribute
  (`AllHave`).
- The selection list is not de-duplicated. `selectedItem` appends even an
  item that is already in the list.
- `removeItem` with a key value that no selected item holds is not a no-op.
  `findIndex` gives -1, and `splice(-1, 1)` removes the last element of a
  non-empty list (`RemoveByKeyWhenAbsent`). An item that is itself in the list
  always finds a holder of its key (`SelectedItemKeyPresent`).
- An item to remove that lacks the key attribute gives `undefined` as its key
  value. `R.propEq` then matches the first selected item that lacks the key
  too, since two `undefined` values are equal; the model's key value is
  `KeyOf`, with `None` for `undefined`.
- `writeValue` always appends. It never replaces the list.
- The filter modes are `NATURAL` and `NORMALIZED`; only `defaultFilter` is
  ever used for suggestions.

## Model

| member | source | states |
|---|---|---|
| `LmtAutocomplete.LowerChar` | src/app/shared/components/lmt-autocomplete/lmt-autocomplete.component.ts:116-118 | a lower-cased character is never an ASCII capital; a capital becomes the small letter 32 code points above it, and anything else is kept |
| `LmtAutocomplete.Lower` | src/app/shared/components/lmt-autocomplete/lmt-autocomplete.component.ts:116-118 | `toLowerCase` keeps the length and leaves no ASCII capital |
| `LmtAutocomplete.Matches` | src/app/shared/components/lmt-autocomplete/lmt-autocomplete.component.ts:116-119 | `indexOf(...) === 0` on the lower-cased strings holds if and only if the query is no longer than the attribute and agrees with it, character by character after lower-casing, on the query's length |
| `LmtAutocomplete.LowerCharOfCapital` | src/app/shared/components/lmt-autocomplete/lmt-autocomplete.component.ts:116-118 | every small letter is the lower-cased form of its capital |
| `LmtAutocomplete.LowerIdempotent` | src/app/shared/components/lmt-autocomplete/lmt-autocomplete.component.ts:116-118 | lower-casing twice is lower-casing once |
| `LmtAutocomplete.Filter` | src/app/shared/components/lmt-autocomplete/lmt-autocomplete.component.ts:115 | `Array.prototype.filter`: the result is no longer than the input, and each of its elements is an input element that the test accepts |
| `LmtAutocomplete.KeptIndices` | src/app/shared/components/lmt-autocomplete/lmt-autocomplete.component.ts:115 | reference selection: the input positions whose element the test accepts, strictly increasing, with every accepted position present |
| `LmtAutocomplete.FilterIsKeptSubsequence` | src/app/shared/components/lmt-autocomplete/lmt-autocomplete.component.ts:115 | `filter` returns exactly the accepted elements as a subsequence in input order: its k-th element is the element at the k-th accepted position |
| `LmtAutocomplete.FilterDistributes` | src/app/shared/components/lmt-autocomplete/lmt-autocomplete.component.ts:115 | filtering a concatenation equals concatenating the filtered parts, so relative order is kept |
| `LmtAutocomplete.FilterKeepsAll` | src/app/shared/components/lmt-autocomplete/lmt-autocomplete.component.ts:115 | a test that every element passes returns the input unchanged |
| `LmtAutocomplete.FilterCongruent` | src/app/shared/components/lmt-autocomplete/lmt-autocomplete.component.ts:115 | two tests that agree on every element give the same result |
| `LmtAutocomplete.PrefixTest` | src/app/shared/components/lmt-autocomplete/lmt-autocomplete.component.ts:116-119 | the callback given to `filter` accepts an item that carries the filter attribute exactly when it matches the query |
| `LmtAutocomplete.FilterByPrefix` | src/app/shared/components/lmt-autocomplete/lmt-autocomplete.component.ts:115-120 | every item that `defaultFilter`'s `filter` returns is a datasource item that carries the filter attribute and whose lower-cased value starts with the lower-cased query; the result is no longer than the datasource |
| `LmtAutocomplete.PrefixFilterIsMatchingSubsequence` | src/app/shared/components/lmt-autocomplete/lmt-autocomplete.component.ts:115-120 | the prefix filter returns exactly the matching datasource items, in datasource order: its k-th item is the item at the k-th matching position, and every matching position is counted |
| `LmtAutocomplete.EmptyQueryKeepsAll` | src/app/shared/components/lmt-autocomplete/lmt-autocomplete.component.ts:115-120 | the prefix filter with the empty query returns the whole datasource unchanged |
| `LmtAutocomplete.FilterIgnoresQueryCase` | src/app/shared/components/lmt-autocomplete/lmt-autocomplete.component.ts:116-118 | lower-casing the query first does not change the result: the match is case-insensitive on the query |
| `LmtAutocomplete.FilterExample` | src/app/shared/components/lmt-autocomplete/lmt-autocomplete.component.ts:115-120 | over Anna, Amy and Bob, the query "Am" returns exactly [Amy] |
| `LmtAutocomplete.Truthy` | src/app/shared/components/lmt-autocomplete/lmt-autocomplete.component.ts:104-106 | the condition `searchedItem ? … : …`: `null` is false, a string is true exactly when it is non-empty, and any other value keeps its own truthiness |
| `LmtAutocomplete.DefaultFilter` | src/app/shared/components/lmt-autocomplete/lmt-autocomplete.component.ts:111-121 | a result exists if and only if the query is a string (otherwise `undefined`); every returned item is a datasource item |
| `LmtAutocomplete.Suggestions` | src/app/shared/components/lmt-autocomplete/lmt-autocomplete.component.ts:104-107 | a falsy query (null, empty) yields the datasource itself in content and order; a truthy non-string query yields `undefined` |
| `LmtAutocomplete.SuggestionsOfText` | src/app/shared/components/lmt-autocomplete/lmt-autocomplete.component.ts:104-120 | for every string query, the empty one included, the mapping returns the prefix filter of the datasource |
| `LmtAutocomplete.KeyOf` | src/app/shared/components/lmt-autocomplete/lmt-autocomplete.component.ts:94 | `itemToRemove[attributeNameKey]` is `None` (`undefined`) exactly when the item lacks the key, and otherwise the item's value at the key |
| `LmtAutocomplete.PropEq` | src/app/shared/components/lmt-autocomplete/lmt-autocomplete.component.ts:94 | `R.propEq(key, v)` holds of an item exactly when its value at `key` (`undefined` when absent) equals `v`; a present `v` matches only items holding that string |
| `LmtAutocomplete.FindIndex` | src/app/shared/components/lmt-autocomplete/lmt-autocomplete.component.ts:93-95 | the result is -1 if and only if no item has the key value; otherwise it is the first position whose item has it |
| `LmtAutocomplete.SpliceStart` | src/app/shared/components/lmt-autocomplete/lmt-autocomplete.component.ts:92-96 | `splice`'s start position: within the list; equal to an in-range start; counted back from the end for a negative start |
| `LmtAutocomplete.SpliceOne` | src/app/shared/components/lmt-autocomplete/lmt-autocomplete.component.ts:92-96 | `splice(start, 1)` removes exactly one element when its start position lies inside the list, and none when it lies at the end |
| `LmtAutocomplete.RemoveByKey` | src/app/shared/components/lmt-autocomplete/lmt-autocomplete.component.ts:92-96 | `splice(findIndex(...), 1)` always removes exactly one element from a non-empty list and none from an empty one, and the result's multiset is contained in the input's |
| `LmtAutocomplete.RemoveByKeyWhenPresent` | src/app/shared/components/lmt-autocomplete/lmt-autocomplete.component.ts:91-98 | when some item has the key value, `removeItem` removes the first such item: length drops by one, the others keep their order, the multiset loses just that item |
| `LmtAutocomplete.RemoveByKeyWhenAbsent` | src/app/shared/components/lmt-autocomplete/lmt-autocomplete.component.ts:92-96 | when no item has the key value, `findIndex` is -1 and the last element of a non-empty list is removed; an empty list stays empty |
| `LmtAutocomplete.SelectedItemKeyPresent` | src/app/shared/components/lmt-autocomplete/lmt-autocomplete.component.ts:91-96 | removing an item that is in the selection list always finds a holder of its key value, so the absent-key branch is not taken |
| `LmtAutocomplete.Component.constructor` | src/app/shared/components/lmt-autocomplete/lmt-autocomplete.component.ts:27-50 | initially no parameter and not ready, no suggestion stream and no filter, an empty selection list, a `null` item control, the no-op change callback |
| `LmtAutocomplete.Component.FilteredItems` | src/app/shared/components/lmt-autocomplete/lmt-autocomplete.component.ts:101-108 | the latest value of `filteredItems` is `undefined` exactly for a truthy non-string query, the whole datasource for a falsy one, and the prefix filter of the datasource for every string |
| `LmtAutocomplete.Component.SetupFilter` | src/app/shared/components/lmt-autocomplete/lmt-autocomplete.component.ts:53-62 | NATURAL installs the default filter and NORMALIZED the normalized one; any other mode throws "unknown research filter to use: " and the mode, leaving the filter unchanged; the suggestions do not change |
| `LmtAutocomplete.Component.SetParam` | src/app/shared/components/lmt-autocomplete/lmt-autocomplete.component.ts:64-72 | a nil parameter leaves the parameter, the ready flag and the stream unchanged; a value is stored, sets ready, and restarts the suggestion stream at a `null` query |
| `LmtAutocomplete.Component.ItemControlValueChanged` | src/app/shared/components/lmt-autocomplete/lmt-autocomplete.component.ts:101-108 | the control holds the new value, and the suggestion stream sees it exactly when the component is ready |
| `LmtAutocomplete.Component.InputTyped` | src/app/shared/components/lmt-autocomplete/lmt-autocomplete.component.ts:24 | typed text is held by the input element and by the item control, and the suggestion stream sees it when the component is ready |
| `LmtAutocomplete.Component.SelectedItem` | src/app/shared/components/lmt-autocomplete/lmt-autocomplete.component.ts:76-85 | the new list is the old list with the item appended (no de-duplication); the input text is "" and the control `null`; `onChange` is called once with the new list |
| `LmtAutocomplete.Component.RemoveItem` | src/app/shared/components/lmt-autocomplete/lmt-autocomplete.component.ts:91-99 | the new list is the splice at `findIndex` of the key equality on the item's key value (`undefined` when it lacks the key): one element fewer when that value is present, the last element dropped when it is absent; `onChange` receives the result |
| `LmtAutocomplete.Component.WriteValue` | src/app/shared/components/lmt-autocomplete/lmt-autocomplete.component.ts:133-135 | the new list is the old list followed by the given values; nothing else changes and `onChange` is not called |
| `LmtAutocomplete.Component.RegisterOnChange` | src/app/shared/components/lmt-autocomplete/lmt-autocomplete.component.ts:140-142 | the registered callback is the one given; nothing else changes |
| `UserProject.IsEmptyValue` | src/app/user-registry/user-project/components/user-project.component.ts:84-92 | every control of the form as built holds a value `required` rejects as empty |
| `UserProject.FormValid` | src/app/user-registry/user-project/components/user-project.component.ts:84-92 | the form is valid if and only if entitle, description, enterpriseName, startDate, profiles and skills are all non-empty |
| `UserProject.WithText` | src/app/user-registry/user-project/components/user-project.component.ts:85-87 | editing a text control changes no other control's emptiness, and the edited control is empty exactly when the text is "" |
| `UserProject.WithSelection` | src/app/user-registry/user-project/components/user-project.component.ts:90-91 | setting a selection control changes no other control's emptiness, and it is empty exactly when the list is empty |
| `UserProject.ReferentialParameter` | src/app/user-registry/user-project/components/user-project.component.ts:60-66 | the widget parameter built from a reference list offers exactly that list, filters on the attribute it displays, and identifies items by a different attribute |
| `UserProject.EndDateOptional` | src/app/user-registry/user-project/components/user-project.component.ts:89 | changing the end date never changes validity |
| `UserProject.InitialFormInvalid` | src/app/user-registry/user-project/components/user-project.component.ts:84-92 | the form as built, with every control empty, is invalid |
| `UserProject.UserProjectComponent.constructor` | src/app/user-registry/user-project/components/user-project.component.ts:28-29 | initially the form is empty and invalid, `maxStartDate` is now, `minEndDate` is unset, and no save has been made |
| `UserProject.UserProjectComponent.StartDateChanged` | src/app/user-registry/user-project/components/user-project.component.ts:101-107 | after a change to a present date d, `minEndDate` is d; after clearing it is unset; `maxStartDate` and the end date are untouched; a date within the picker's bound keeps the interval ordered |
| `UserProject.UserProjectComponent.EndDateChanged` | src/app/user-registry/user-project/components/user-project.component.ts:109-115 | after a change to a present date d, `maxStartDate` is d; after clearing it is now; `minEndDate` and the start date are untouched; a date within the picker's bound keeps the interval ordered |
| `UserProject.UserProjectComponent.EditText` | src/app/user-registry/user-project/components/user-project.component.ts:85-87 | an edit of a text control changes that control's value and no other |
| `UserProject.UserProjectComponent.EditSelection` | src/app/user-registry/user-project/components/user-project.component.ts:90-91 | a list reported by an embedded widget becomes that control's value and nothing else changes |
| `UserProject.UserProjectComponent.ProfilesReceived` | src/app/user-registry/user-project/components/user-project.component.ts:57-67 | a nil profiles list is ignored; otherwise the profile widget's parameter becomes that list, keyed by `id`, filtered and shown by `name`, mode NORMALIZED |
| `UserProject.UserProjectComponent.SkillsReceived` | src/app/user-registry/user-project/components/user-project.component.ts:69-79 | a nil skills list is ignored; otherwise the skill widget's parameter becomes that list, keyed by `id`, filtered and shown by `name`, mode NORMALIZED |
| `UserProject.UserProjectComponent.SaveUserProject` | src/app/user-registry/user-project/components/user-project.component.ts:117-131 | on an invalid form there is no save call and no emission; on a valid form there is exactly one save call, with employee id 1 and the form value, and no emission yet |
| `UserProject.UserProjectComponent.SaveResultArrived` | src/app/user-registry/user-project/components/user-project.component.ts:125-129 | `newProjectAdded` emits once per arriving save result; emissions plus pending saves always equal the save calls |

## Left out

- Angular machinery is not modelled: decorators, dependency injection,
  `FormBuilder` and `FormControl` internals, and `valueChanges`/`startWith`/`map`
  pipelines. Each subscription is a method instead.
- The Redux store, `SkillActions.load` and `ProfileActions.load` are not
  modelled. They are foreign collaborators outside this model. The store's
  emissions are the parameters of `ProfilesReceived` and `SkillsReceived`.
- `UserProjectService.saveProject` and `UserProjectMapper` are not modelled:
  both are foreign I/O. A save call is recorded with the unmapped form value.
  A save that fails is not modelled either, because the source does not
  handle it.
- `normalizedFilter` is a stub that returns `null`. No normalization rules are
  modelled; `SetupFilter` only records that the normalized filter was chosen.
- Component.SetupFilter: the model assumes NATURAL's enum value is truthy.
  Then the case `ResearchFilter.NATURAL || null` is NATURAL, and a `null` mode
  throws like any unknown one. The model does not fix the enum's values. With a falsy
  NATURAL (0, say), `NATURAL || null` is `null`: `setupFilter(null)` installs
  `defaultFilter` and `setupFilter(NATURAL)` throws. That case is not modelled.
- `toLowerCase` is modelled on ASCII letters only. Locale and Unicode case
  mapping are left out.
- JavaScript `Date` is an integer time value. `new Date()` is the `now`
  parameter.
- `minEndDate` starts `undefined` and is `null` after a cleared start date.
  Both are `None` here, because the date picker treats them alike.
- Component.RemoveItem: requires a parameter to be set. Without one the source
  throws reading `attributeNameKey` of `undefined`, which is not modelled.
- Key values (`id`) are modelled as strings. The source only compares them
  with `R.equals`, so only their equality matters, but values of other types
  (numbers, say) are not modelled.
- Component.WriteValue: modelled for a list of items. At runtime Angular can pass
  `''`, whose spread appends nothing, or `null`, whose spread throws. Neither
  is modelled.
- Aliasing is not modelled. `onChange` receives the live `_selectedItems` array,
  so later `push`/`splice` calls are visible to the host form; the model
  records a copy per call. The link between a widget's `onChange` and the
  form's `profiles`/`skills` controls is the separate method `EditSelection`.
- The form control holding a `Date` object counts as non-empty for `required`;
  a picked date is `Some`. Validators for other value types are not modelled.
- `registerOnTouched` only logs a warning, so it is not modelled. The same
  goes for the logging, the widget's display configuration
  (`lmtAutocompleteConfig`), the WYSIWYG editor configuration and the
  placeholder configurations.
- The getters are not separate members: they return the fields they name, and
  the fields are read directly.
- The `@ViewChild` DOM input is the plain string field `inputText`. Typing in
  it is `InputTyped`. A value the autocomplete panel writes into the control
  without typing is `ItemControlValueChanged`.
- src/app/app-routing.module.ts is not part of this model: it is a route table
  with one entry and no logic.
