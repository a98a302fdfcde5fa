# Expo map: a Dafny model of its interface logic

The application is a map of an exhibition (React with Leaflet). Booths and services appear as markers on a floor plan, and a list view groups the booths by neighbourhood. It has a search box and filter pills, a filter panel, and bottom sheets for the booth and micro-theatre details. There is also an onboarding popup. This project models the state each of those components keeps and the data transformations they perform, and proves the properties their code promises.

Modules, one per component plus four shared ones:

- `Base`: `Option`, and `filter`/`find`/`findIndex` over sequences with their lemmas.
- `Text`: the string operations used: `trim` with the ECMAScript white-space set, one-character `split`, ASCII `toLowerCase`, `includes`, and the `field?.split(",").map(s => s.trim()) || []` idiom (`CommaList`).
- `Records`: the booth/service record (`Place`) and where a booth was selected from (`Origin`).
- `Sheet`: the bottom-sheet state machine shared by the booth and theatre sheets. It has closed, collapsed and expanded states and a 50 px drag threshold. A pull-down collapses an expanded sheet that is scrolled to the top. Each state has a target height.
- `TheatreSheet` (`TheatreInfoSheet.jsx`): resize handling, the desktop guard on drags, the agenda accordion, and the parsing of each talk's `speakers` field into name/e-mail/image triples.
- `BoothSheet` (`BoothInfoSheet.jsx`): the state chosen from the selected location and its origin, the contact/e-mail pairing and the icon-extension choice.
- `Filters` (`Filters.jsx`): the panel's active types and selections, and their cleaning on close.
- `EventMap` (`EventMap.jsx`): selection of booths and services, the view switch and the name search.
- `BoothList` (`BoothList.js`): splitting out booth AI01, grouping the others by neighbourhood, and the open sections.
- `TopBar` (`TopBar.jsx`): the selected-first ordering of the filter pills, the pill styling and the clear button. `EventMap.jsx` renders the bar without `selectedFilters`, so in the app the pills keep their declared order (`TopBar.SortNothingSelected`).
- `Onboarding` (`OnboardingPopup.jsx`): the three-step stepper.

Components whose fields change in place are classes with those fields, such as `TheatreInfoSheet`, `BoothInfoSheet`, `FilterEditor`, `EventMapState`, `BoothListState` and `OnboardingPopup`. Each handler is a method whose `ensures` gives the new state in terms of a specification function. The properties are proved about those functions. The `reduce` that groups booths, the `forEach` that copies cleaned selections, and the speaker loop are `while` loops with invariants.

Lengths, offsets and scroll positions are `real`. A callback scheduled with `setTimeout(onClose, 400)`, or an `onClose()` call, is modelled as a `closeRequests` counter that goes up by one. Whether the window is desktop-wide (`innerWidth >= 1024`), the scroll position and the viewport heights are all parameters.

## Model

| member | source | states |
|---|---|---|
| Text.Trim | app/components/BoothInfoSheet.jsx:121 | the result has no white space at either end, and it is the slice of the input with only white space around it |
| Text.CommaListShape | app/components/BoothInfoSheet.jsx:121-122 | an absent field gives no pieces. A present string gives one piece more than it has commas, and every piece is trimmed and free of commas |
| Text.CommaListRoundTrip | app/components/BoothInfoSheet.jsx:121-122 | joining trimmed, comma-free pieces with "," and parsing the result gives back the same pieces |
| Text.JoinSplit | app/components/BoothInfoSheet.jsx:121 | joining the pieces of `split(d)` with `d` gives back the string |
| Text.SplitJoin | app/components/BoothInfoSheet.jsx:121 | splitting a join of separator-free pieces gives back the pieces |
| Sheet.DragTarget | app/components/TheatreInfoSheet.jsx:118-130 | an upward drag longer than 50 expands the sheet. A downward drag longer than 50 closes it by one step (expanded to collapsed to closed). Any shorter drag leaves the state as it was |
| Sheet.DragCloses | app/components/TheatreInfoSheet.jsx:126-129 | `onClose` is scheduled exactly when the drag takes an open sheet to closed |
| Sheet.PullDownTarget | app/components/TheatreInfoSheet.jsx:133-156 | the only change a pull-down can make is expanded to collapsed, and only at scroll top 0 with the gesture pulling. In that case it does collapse. It never opens the sheet further |
| Sheet.TargetHeight | app/components/BoothInfoSheet.jsx:62-72 | the height is 0 when closed and `collapsedPx` when collapsed. When expanded it is `expandedPx`, or the viewport fallback while that is 0. With positive heights it is 0 exactly when the sheet is closed |
| Sheet.DownwardDragsClose | app/components/TheatreInfoSheet.jsx:123-130 | each long downward drag in a run lowers the sheet one step until it reaches closed |
| Sheet.UpwardDragLastExpands | app/components/TheatreInfoSheet.jsx:119-122 | a run of drags whose last one is a long upward drag ends expanded, whatever came before |
| Sheet.PullRunOutcome | app/components/TheatreInfoSheet.jsx:133-156 | a run of pull-downs leaves the sheet unchanged, unless it was expanded and some gesture pulled at the top, in which case it ends collapsed |
| TheatreSheet.ResizeTarget | app/components/TheatreInfoSheet.jsx:59-70 | the sheet is closed exactly when there is no theatre, expanded exactly with a theatre on a desktop-width window, and collapsed exactly with a theatre otherwise |
| TheatreSheet.TheatreHeight | app/components/TheatreInfoSheet.jsx:86-101 | the height is "auto" exactly on desktop. Otherwise it is the shared target height, which with positive measurements is 0 px exactly when the sheet is closed. An expanded sheet always gets a positive height, even before its content is measured |
| TheatreSheet.AccordionToggle | app/components/TheatreInfoSheet.jsx:270-271 | clicking the open item closes it. Clicking any other item opens that item and only that one |
| TheatreSheet.TheatreInfoSheet.constructor | app/components/TheatreInfoSheet.jsx:22-29 | starts closed, with no open agenda item and a touch start of 0 |
| TheatreSheet.TheatreInfoSheet.HandleResize | app/components/TheatreInfoSheet.jsx:59-70 | the new state is `ResizeTarget` |
| TheatreSheet.TheatreInfoSheet.OnDragEnd | app/components/TheatreInfoSheet.jsx:115-131 | on desktop nothing changes. Otherwise the new state is `DragTarget`, and one close is requested exactly when `DragCloses` holds |
| TheatreSheet.TheatreInfoSheet.HandleWheel | app/components/TheatreInfoSheet.jsx:133-141 | the new state is the pull-down target for a wheel with `deltaY < 0` |
| TheatreSheet.TheatreInfoSheet.HandleTouchStart | app/components/TheatreInfoSheet.jsx:143-145 | records the touch's y coordinate |
| TheatreSheet.TheatreInfoSheet.HandleTouchMove | app/components/TheatreInfoSheet.jsx:147-156 | the new state is the pull-down target for a finger that has moved down more than 50 |
| TheatreSheet.TheatreInfoSheet.CloseButton | app/components/TheatreInfoSheet.jsx:198-201 | closes the sheet and requests one close |
| TheatreSheet.TheatreInfoSheet.ClickItem | app/components/TheatreInfoSheet.jsx:270-271 | the open item becomes `AccordionToggle` of the previous one |
| TheatreSheet.SpeakerPiecesOfString | app/components/TheatreInfoSheet.jsx:248-249 | a non-empty `speakers` string gives one trimmed piece more than it has commas |
| TheatreSheet.GroupSpeakers | app/components/TheatreInfoSheet.jsx:250-256 | there is one entry per started group of three pieces (ceil(n/3) entries for n pieces). Entry k holds pieces 3k, 3k+1 and 3k+2, with "" for a missing e-mail or image |
| TheatreSheet.ParseSpeakers | app/components/TheatreInfoSheet.jsx:247-257 | an absent, empty or non-string `speakers` field gives no entries. A non-empty string gives its trimmed pieces grouped as in `GroupSpeakers`, which is at least one entry |
| BoothSheet.InitialState | app/components/BoothInfoSheet.jsx:43-49 | the sheet is closed exactly without a location, expanded exactly when the booth was picked from the list, and collapsed exactly when it was picked on the map |
| BoothSheet.BoothInfoSheet.constructor | app/components/BoothInfoSheet.jsx:16-19 | starts closed with a touch start of 0 |
| BoothSheet.BoothInfoSheet.SyncWithProps | app/components/BoothInfoSheet.jsx:43-49 | the new state is `InitialState` of the props |
| BoothSheet.BoothInfoSheet.OnDragEnd | app/components/BoothInfoSheet.jsx:78-92 | the new state is `DragTarget`, with no desktop guard, and one close is requested exactly when `DragCloses` holds |
| BoothSheet.BoothInfoSheet.HandleWheel | app/components/BoothInfoSheet.jsx:95-103 | the new state is the pull-down target for a wheel with `deltaY < 0` |
| BoothSheet.BoothInfoSheet.HandleTouchStart | app/components/BoothInfoSheet.jsx:104-106 | records the touch's y coordinate |
| BoothSheet.BoothInfoSheet.HandleTouchMove | app/components/BoothInfoSheet.jsx:107-116 | the new state is the pull-down target for a finger that has moved down more than 50 |
| BoothSheet.BoothInfoSheet.CloseButton | app/components/BoothInfoSheet.jsx:172-175 | closes the sheet and requests one close |
| BoothSheet.ZipContacts | app/components/BoothInfoSheet.jsx:123-126 | there is one pair per contact, in order. Each pair holds that contact and the e-mail at the same index, or "" when there is none |
| BoothSheet.ZipContactsUnzip | app/components/BoothInfoSheet.jsx:121-126 | unzipping the pairs gives back all the contacts. It also gives back the e-mails, cut to the number of contacts or padded with "" |
| BoothSheet.ContactEmailPairs | app/components/BoothInfoSheet.jsx:121-126 | there are as many pairs as comma-separated contacts, and none without a `contacts` field |
| BoothSheet.IconExtension | app/components/BoothInfoSheet.jsx:129-130 | the extension is "png" or "svg". It is "png" exactly for a two-letter neighbourhood spelled "ai" in any letter case |
| BoothSheet.LowerIsAi | app/components/BoothInfoSheet.jsx:129-130 | the ASCII lower case of a string is "ai" exactly for "ai", "aI", "Ai" and "AI" |
| Filters.CleanTypesSpec | app/components/Filters.jsx:117 | the cleaned types keep, in order, exactly the active types with a non-empty selection |
| Filters.CleanSelections | app/components/Filters.jsx:117-121 | the keys are exactly the cleaned types, and each keeps its unchanged, non-empty selection |
| Filters.CleanIdempotent | app/components/Filters.jsx:116-126 | cleaning a second time changes neither the types nor the selections |
| Filters.CollectSelections | app/components/Filters.jsx:118-121 | the `forEach` copy has exactly the cleaned types as keys, each with its value in `selections` |
| Filters.FilterEditor.constructor | app/components/Filters.jsx:72-73 | the state starts as the props, with nothing applied and no close yet |
| Filters.FilterEditor.ReceiveProps | app/components/Filters.jsx:75-76 | new props replace both parts of the state |
| Filters.FilterEditor.ToggleType | app/components/Filters.jsx:84-103 | clicking the active type clears the active types and drops that type's selection. Clicking another type makes it the only active one, keeping only its own earlier selection. In both cases at most one type is active |
| Filters.FilterEditor.ToggleSelection | app/components/Filters.jsx:105-108 | the clicked option becomes the only selection, under the only active type |
| Filters.FilterEditor.ClearAll | app/components/Filters.jsx:110-114 | empties the state and applies the empty state |
| Filters.FilterEditor.HandleClose | app/components/Filters.jsx:116-126 | the state becomes the cleaned types and selections, and that state is what is applied. One close is requested, and at most one type stays active |
| EventMap.SearchSpec | app/EventMap.jsx:165-171 | the search keeps, in order, exactly the locations whose lower-cased name contains the lower-cased query |
| EventMap.SearchEmptyQuery | app/EventMap.jsx:165-171 | the empty query keeps every location |
| EventMap.FindService | app/EventMap.jsx:297 | the result is none exactly when no service has the id. Otherwise it is a service with that id, and no earlier service has that id |
| EventMap.SectorJourneysSpec | app/EventMap.jsx:158 | the sector tags are the trimmed comma pieces, or none when the field is absent. Tags written as a comma list come back unchanged |
| EventMap.EventMapState.constructor | app/EventMap.jsx:82-97 | starts on the map view with nothing selected, origin "map" and an empty query |
| EventMap.EventMapState.ClickBooth | app/EventMap.jsx:247-251 | selects the booth alone, with origin "map" |
| EventMap.EventMapState.ClickService | app/EventMap.jsx:269-272 | selects the service alone |
| EventMap.EventMapState.ListSelect | app/EventMap.jsx:293-305 | an id selects the service found for it, or nothing. A service record selects that service. Any other record selects that booth. At most one thing is selected and the origin becomes "list" |
| EventMap.EventMapState.ChangeView | app/EventMap.jsx:311-317 | switches the view. The list view clears both selections and the map view keeps them |
| EventMap.EventMapState.CloseBoothSheet | app/EventMap.jsx:324 | the booth selection is cleared |
| EventMap.EventMapState.CloseServiceSheet | app/EventMap.jsx:328 | the service selection is cleared |
| EventMap.EventMapState.SetSearch | app/components/TopBar.jsx:78-81 | the query becomes the typed text, and the clear button is shown exactly when that text is not empty |
| EventMap.EventMapState.ClearSearch | app/components/TopBar.jsx:81-83 | the query becomes "", the clear button goes away, and the filtered locations are all the locations |
| BoothList.AmplifyImpactSplit | app/components/BoothList.js:24-25 | the other booths keep their order and lose exactly the AI01 booths. The AI01 booth shown is the first one in the input, and it is absent exactly when there is none |
| BoothList.GroupKey | app/components/BoothList.js:29 | the key is never empty. It is the lower-cased neighbourhood, or "other" when that is missing or empty |
| BoothList.GroupKeysSpec | app/components/BoothList.js:28-34 | the group keys are distinct, and they are exactly the keys of the booths |
| BoothList.GroupByNeighbourhood | app/components/BoothList.js:28-34 | there is one entry per key, in the order keys first appear. Each entry holds that key's booths in input order |
| BoothList.EachBoothInOneGroup | app/components/BoothList.js:28-33 | every booth lies in exactly one group, the one for its own key |
| BoothList.GroupSizesSum | app/components/BoothList.js:28-33 | the group sizes add up to the number of booths grouped |
| BoothList.Toggled | app/components/BoothList.js:9-14 | the key's section flips, with a missing key counting as closed, and every other key is unchanged |
| BoothList.BoothListState.constructor | app/components/BoothList.js:6 | no section is set |
| BoothList.BoothListState.ToggleSection | app/components/BoothList.js:9-14 | `openSections` becomes `Toggled` of the old map, so the key's open state flips |
| BoothList.BoothListState.OpenFirstSection | app/components/BoothList.js:39-43 | while no section key is set and there is a group, exactly the first group opens. Otherwise nothing changes |
| TopBar.Compare | app/components/TopBar.jsx:20-26 | the comparator is negative exactly when only the first pill is selected, positive exactly when only the second is, and zero when both or neither are |
| TopBar.CompareIsConsistent | app/components/TopBar.jsx:20-26 | the comparator is antisymmetric and transitive, as `Array.prototype.sort` requires |
| TopBar.SortIsPartition | app/components/TopBar.jsx:20-26 | the sorted pills are the selected pills in input order followed by the unselected ones in input order |
| TopBar.SortSpec | app/components/TopBar.jsx:20-26 | the sort gives a permutation. No selected pill follows an unselected one, and within each of the two groups the original order is kept |
| TopBar.SortNothingSelected | app/components/TopBar.jsx:17-26 | with no filter selected, the pills keep their declared order |
| TopBar.Look | app/components/TopBar.jsx:135-153 | a check mark only appears on a dark pill. The micro-theatre pill is always dark, never checked, and has the divider in front of it, whatever is selected. For every other pill, being dark, being checked and being selected coincide |
| TopBar.CheckedPillsLeadDark | app/components/TopBar.jsx:20-26 | in the sorted bar every pill in front of a checked pill is dark, so the checked pills sit in one dark run at the start |
| Onboarding.Label | app/components/OnboardingPopup.jsx:102 | the label `current + 1` lies in [1, 3] |
| Onboarding.ProgressDots | app/components/OnboardingPopup.jsx:105-110 | there are three dots and exactly one is highlighted, the one at `current` |
| Onboarding.StepAfter | app/components/OnboardingPopup.jsx:120-144 | Back stays on the first step and otherwise moves back one. Next closes exactly on the last step and otherwise moves on one. Every resulting step is in range |
| Onboarding.WalkInBounds | app/components/OnboardingPopup.jsx:41-43 | after any sequence of presses the popup is on a step in [0, 2] or closed |
| Onboarding.NextRun | app/components/OnboardingPopup.jsx:128-139 | k presses of Next from a step land k steps further on while that is a step, and the following press closes the popup |
| Onboarding.BackUndoesNext | app/components/OnboardingPopup.jsx:120-139 | Back after a Next that did not close returns to the same step |
| Onboarding.OnboardingPopup.constructor | app/components/OnboardingPopup.jsx:41 | starts on step 0 |
| Onboarding.OnboardingPopup.PressBack | app/components/OnboardingPopup.jsx:120 | on the first step nothing changes. Otherwise the popup moves back one step, and the step stays in range |
| Onboarding.OnboardingPopup.PressNext | app/components/OnboardingPopup.jsx:128-144 | on the last step the button is "Go to Map", which requests one close. Otherwise the popup moves on one step, and the step stays in range |
| Onboarding.OnboardingPopup.Close | app/components/OnboardingPopup.jsx:76-82 | the close button requests one close |

## Left out

- Fetching `locations.json`, `services.json` and `agenda.json` is I/O. The loaded data are constructor arguments and parameters.
- Rendering, Framer Motion animation (`animate`, `useMotionValue`), and measuring `scrollHeight` are left out. The measured and viewport heights are parameters of `TargetHeight` and `TheatreHeight`.
- The map geometry is floating point and Leaflet-specific. This covers the scale factor, bounds, marker positions, the "you are here" URL parameters, zoom listening and `flyToBounds`.
- Timers: `setTimeout(onClose, 400)` is modelled as a counted close request, not as a delayed call.
- Resize listeners and whether the window is desktop-wide are not modelled as events. The resize handlers are methods the caller invokes, and desktop width is a `bool` argument.
- The clipboard copy with its alert, and `window.location.reload()`, are browser side effects.
- The random shuffle of the booth groups (`sort(() => 0.5 - Math.random())`) is left out. `GroupByNeighbourhood` gives the entries in creation order. `OpenFirstSection` accepts any order of groups.
- BoothList.GroupByNeighbourhood: JavaScript object lookups follow the prototype chain, and this is not modelled. A booth whose lower-cased neighbourhood is an inherited property name such as "constructor" or "__proto__" finds a truthy `acc[neighbourhood]` (BoothList.js:30-31). `push` then throws and the list fails to render. The model groups such a booth like any other, so `EachBoothInOneGroup` holds only for keys that are not `Object.prototype` property names.
- BoothList.Toggled: for the same reason, `!prev[key]` (BoothList.js:12) on such a key reads an inherited value. The model treats a missing key as a closed section.
- BoothSheet.BoothInfoSheet.SyncWithProps and Filters.FilterEditor.ReceiveProps: when an effect runs is not modelled. The source runs these effects (BoothInfoSheet.jsx:43-49, Filters.jsx:75-76) only after a render in which a dependency's identity changed, and the model lets a caller invoke them at any time. Re-selecting the same booth object (EventMap.jsx:249) therefore does not reset a sheet the user has dragged, and the model does not capture that. A parent that omits `activeTypes` or `selections` passes fresh `[]`/`{}` defaults (Filters.jsx:67-68), so the copy effects re-run after every render, and the model does not capture that either.
- BoothList groups only once per mount (`shuffledGroupsRef`) and is not modelled as caching. `GroupByNeighbourhood` is applied to `FilteredBooths` of the booths that are current when the list mounts.
- `Object.entries` lists integer-like keys before the others. Neighbourhood keys are modelled in insertion order.
- `toLowerCase` is modelled for ASCII letters only. Other Unicode case mappings are not.
- NaN and the negative-zero distinction in offsets and `scrollTop` are not modelled.
- The service sheet's own state (ServiceInfoSheet.jsx) is not part of this model. Only the selection it clears on close is modelled.
- TopBar.Sort: `Array.prototype.sort` is modelled by a stable insertion sort driven by the same comparator. Since the comparator is consistent, every stable sort gives this one order.
- The filter panel's option catalogue (`FILTERS_CONFIG`) and the neighbourhood styles are static display data and are not modelled.
- The onboarding steps' titles, videos and descriptions are display data. Only their number (3) is modelled.
