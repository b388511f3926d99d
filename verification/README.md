# Nexus dashboard core, modelled in Dafny

Nexus is a browser start page. It shows a grid of shortcuts, each with a
favicon or an uploaded custom icon, and a dock of small widgets: tasks,
quick notes, a password generator, a clock, a weather card and an animated
logo. Everything it keeps is stored in the browser's key/value store.

This project models the core of the dashboard and proves what each part promises:

- the persistent icon cache (time-to-live, capacity with eviction of the
  oldest entry, the expiry sweep, statistics, and the shrinking retry on a
  full store);
- the quota-safe shortcut save, which strips custom icons one at a time
  until the list fits;
- the favicon fallback chain of the shortcut grid;
- validation of an uploaded icon;
- the add/edit dialog with its address coercion;
- the page's list, menu, dialog and theme state;
- the task and quick-notes widgets, the logo-text editor and the
  typewriter phase machine of the animated logo;
- the password generator's charset and byte mapping;
- the clock's formatting and greeting;
- the weather card's code mapping.

Modules follow the source files. `Wrappers`, `JsText` (the JavaScript
string primitives used: `trim`, `padStart`, a case-insensitive
`^https?://`), `ListOps` (filtering a list by key), `Shortcuts` and
`BrowserStorage` are shared.

Code that changes state is modelled with classes. This covers the icon
store, the shortcut store, the grid, the upload hook, the dialog, the page,
the task list, the notes board, the logo editor, the typewriter and the
password widget. Their methods are proved against the specification
functions next to them. The loops in the source are `while` loops here, with
their invariants: the expiry sweep and the map of favicon candidates.
Browser facts are parameters, not effects:

- whether the store can be used;
- how a write of a given payload ends (written, over quota, failed);
- the URL parser;
- the image compressor, file reader and image decoder;
- the random bytes;
- the clock;
- the id generator.

## Model

| member | source | states |
|---|---|---|
| IconCacheTable.Find | lib/utils/iconCache.ts:91 | `cache[domain]` finds an entry exactly for a key of the object, and the binding found is in the object |
| IconCacheTable.FindAfterRemove | lib/utils/iconCache.ts:105 | after `delete cache[d]`, `d` is absent and every other key keeps its entry |
| IconCacheTable.FindAfterPut | lib/utils/iconCache.ts:140 | after `cache[d] = e`, `d` maps to `e` and every other key keeps its entry |
| IconCacheTable.RemoveShape | lib/utils/iconCache.ts:135 | deleting keeps keys distinct and shrinks the object by one exactly when the key was present |
| IconCacheTable.PutShape | lib/utils/iconCache.ts:140 | assigning keeps keys distinct and grows the object by one exactly when the key is new |
| IconCacheTable.LookupSpec | lib/utils/iconCache.ts:89-113 | a lookup misses for an absent domain or an entry strictly older than seven days, and otherwise returns the stored entry; an entry exactly seven days old still hits |
| IconCacheTable.OldestUpTo | lib/utils/iconCache.ts:132-134 | the eviction `reduce` picks an entry with the least timestamp, the first one in iteration order on ties |
| IconCacheTable.EvictionSpec | lib/utils/iconCache.ts:129-137 | an entry is evicted exactly when the table holds at least 100 domains and the new domain is not one of them, and it is the oldest |
| IconCacheTable.InsertedSpec | lib/utils/iconCache.ts:121-149 | after saving, the domain maps to the new entry stamped now and looks up as a hit; every other domain keeps its entry unless it was the evicted one |
| IconCacheTable.InsertedBounded | lib/utils/iconCache.ts:129-140 | saving keeps keys distinct and never takes a table of at most 100 entries above 100 |
| IconCacheTable.Live | lib/utils/iconCache.ts:158-166 | the sweep keeps exactly the entries that are not expired |
| IconCacheTable.SweepCounts | lib/utils/iconCache.ts:155-174 | the count returned plus the entries kept is the table size, and the count is zero exactly when nothing is removed |
| IconCacheTable.SortByTimestamp | lib/utils/iconCache.ts:67 | the sorted entries are a permutation of the table, ordered by timestamp |
| IconCacheTable.RetainNewestAsWrittenStalls | lib/utils/iconCache.ts:68-71 | as written, a one-entry table keeps its entry on a quota retry (`keepCount` is 0 and `slice(-0)` keeps all) |
| IconCacheTable.RetainNewestSpec | lib/utils/iconCache.ts:65-73 | the corrected retry keeps `floor(0.8 n)` entries, strictly fewer than a non-empty table, a sub-collection with distinct keys, and drops only entries no newer than any kept |
| IconCacheTable.MinTimestamp | lib/utils/iconCache.ts:195-197 | the oldest timestamp is at most every entry's and is some entry's |
| IconCacheTable.MaxTimestamp | lib/utils/iconCache.ts:198-200 | the newest timestamp is at least every entry's and is some entry's |
| IconCacheTable.Distribution | lib/utils/iconCache.ts:201-204 | the per-provider tally has a key for each provider index in use, and each holds that provider's entry count, at least one |
| IconCacheTable.Stats | lib/utils/iconCache.ts:189-206 | total is the entry count; oldest and newest are present exactly for a non-empty table, in order; the oldest is the least timestamp of any entry and the newest the greatest; the distribution has a key for each provider index in use, holding that provider's entry count |
| IconCache.LoadAsWritten | lib/utils/iconCache.ts:27-47 | as written, the load yields JavaScript `null` exactly when the store is usable and holds the JSON `null` |
| IconCache.NullCacheThrows | lib/utils/iconCache.ts:89-93 | with a stored `null`, `getIconFromCache` throws as written, while the corrected load reports a miss |
| IconCache.Load | lib/utils/iconCache.ts:27-47 | the corrected load returns the stored object's bindings, or the empty table for anything else; it agrees with the code wherever the code returns a table |
| IconCache.SaveResultSpec | lib/utils/iconCache.ts:54-82 | a first write that succeeds stores the table unchanged; an unusable store or a non-quota failure stores nothing; whatever is stored is a sub-collection with distinct keys |
| IconCache.SweepExpired | lib/utils/iconCache.ts:158-166 | the loop over the key snapshot leaves exactly the live entries and counts exactly the expired ones |
| IconCache.IconCacheStore.SaveCache | lib/utils/iconCache.ts:54-82 | succeeds exactly when the retry chain ends in a write, and the store then holds what that write stored |
| IconCache.IconCacheStore.GetIconFromCache | lib/utils/iconCache.ts:89-113 | returns the lookup on the loaded table; a hit is a stored binding at most seven days old; it reports when an expired entry was seen |
| IconCache.IconCacheStore.DropExpired | lib/utils/iconCache.ts:103-107 | the deferred deletion reloads the table and saves it without the domain |
| IconCache.IconCacheStore.SaveIconToCache | lib/utils/iconCache.ts:121-149 | the store holds what saving the inserted table stored; when that first write succeeds, the domain looks up as the new entry |
| IconCache.IconCacheStore.CleanExpiredCache | lib/utils/iconCache.ts:155-174 | returns the expired count and writes the live table only when that count is positive |
| IconCache.IconCacheStore.ClearIconCache | lib/utils/iconCache.ts:179-183 | a usable store loses the key and then reads as empty; an unusable one is left alone |
| IconCache.IconCacheStore.GetIconCacheStats | lib/utils/iconCache.ts:189-206 | the statistics of the loaded table |
| QuotaSafeStore.FirstBearer | lib/utils/localStorage.ts:17-26 | the first shortcut with a truthy custom icon, in list order |
| QuotaSafeStore.StripFirstIconSpec | lib/utils/localStorage.ts:26-29 | stripping keeps length, ids, titles and addresses; each record is unchanged or loses its icon, and the first bearer loses it |
| QuotaSafeStore.StripFirstIconUnique | lib/utils/localStorage.ts:26-29 | with unique ids, exactly the first bearer loses its icon |
| QuotaSafeStore.StripFirstIconShrinks | lib/utils/localStorage.ts:19-39 | each retry strictly lowers the number of custom icons, so the recursion ends |
| QuotaSafeStore.SaveFirstAttempt | lib/utils/localStorage.ts:8-23 | a first write that succeeds stores the list as is; a non-quota failure or a quota failure with no icon to strip stores nothing, after one attempt |
| QuotaSafeStore.SaveSpecBounds | lib/utils/localStorage.ts:7-46 | between one and (icons + 1) attempts; success exactly when something is stored, namely the list with the first (attempts − 1) icons stripped, and that payload's write succeeded |
| QuotaSafeStore.StripFirstNSpec | lib/utils/localStorage.ts:26-39 | after k strips with unique ids, a record has lost its icon exactly when it carried one and fewer than k icons precede it |
| QuotaSafeStore.ShortcutStorage.SaveToLocalStorage | lib/utils/localStorage.ts:7-46 | the recursive save returns the specified outcome and updates the key exactly when it succeeds |
| FaviconChain.FaviconUrls | components/ShortcutGrid.tsx:20-36 | no candidates exactly when the address does not parse; otherwise five, the i-th from provider i |
| FaviconChain.CandidatesFollowHost | components/ShortcutGrid.tsx:20-36 | two addresses with the same host share every candidate except the origin one, and all of them when the origins match |
| FaviconChain.UrlsMapSpec | components/ShortcutGrid.tsx:39-45 | the map's keys are the shortcut ids, and every value is empty or five candidates |
| FaviconChain.UrlsMapUnique | components/ShortcutGrid.tsx:39-45 | with unique ids, each shortcut maps to its own candidates |
| FaviconChain.BuildUrlsMap | components/ShortcutGrid.tsx:39-45 | the `forEach` loop builds the specified map |
| FaviconChain.NextIndex | components/ShortcutGrid.tsx:47-57 | an error moves to the next candidate only when one is left, and never leaves the list |
| FaviconChain.AdvanceNSpec | components/ShortcutGrid.tsx:47-57 | after k errors the index is the start plus k, stopped at the last candidate |
| FaviconChain.TileSpec | components/ShortcutGrid.tsx:69-75 | the custom icon shows exactly when it is truthy and has not failed; the placeholder only when there is no candidate; a favicon shows the current candidate |
| FaviconChain.FaviconGrid.constructor | components/ShortcutGrid.tsx:13-17 | no candidate advanced and no custom icon failed; the map built from the shortcuts |
| FaviconChain.FaviconGrid.SetShortcuts | components/ShortcutGrid.tsx:39-45 | a new list recomputes the map and keeps the advanced indexes and failures |
| FaviconChain.FaviconGrid.HandleFaviconError | components/ShortcutGrid.tsx:47-57 | the shortcut's index advances by one exactly when another candidate exists; nothing else changes |
| FaviconChain.FaviconGrid.HandleCustomIconError | components/ShortcutGrid.tsx:59-62 | the shortcut is added to the failed set; nothing else changes |
| FaviconChain.FaviconGrid.PlaceholderOnlyWithoutCandidates | components/ShortcutGrid.tsx:71-75 | the placeholder shows only for a shortcut whose address does not parse |
| IconUpload.SizeErrorText | hooks/useIconUpload.ts:40 | the size message reads "File size cannot exceed 500KB" |
| IconUpload.Validate | hooks/useIconUpload.ts:32-42 | a type outside the list is reported first; an allowed file over 500 KiB gets the size message; otherwise the checks pass |
| IconUpload.UploadSpec | hooks/useIconUpload.ts:28-81 | accepted exactly when both checks pass, compression (not for SVG/ICO) succeeds, the file reads and the result decodes; the accepted value is the encoding; SVG/ICO never reach the compressor |
| IconUpload.IconUploadState.constructor | hooks/useIconUpload.ts:24-26 | icon, preview and error start empty |
| IconUpload.IconUploadState.HandleUpload | hooks/useIconUpload.ts:28-81 | on acceptance icon and preview become the encoding and the error is cleared; on rejection they are kept and the error is the message |
| IconUpload.IconUploadState.RemoveIcon | hooks/useIconUpload.ts:83-87 | icon, preview and error cleared |
| IconUpload.IconUploadState.SetInitialIcon | hooks/useIconUpload.ts:89-93 | icon and preview set without validation, error cleared |
| ShortcutModal.CoerceUrlSpec | components/modals/ShortcutModal.tsx:56-59 | the coerced address has a scheme and no outer white space; one with a scheme is only trimmed, any other gets exactly one `https://`; coercing is idempotent |
| ShortcutModal.SubmitSpec | components/modals/ShortcutModal.tsx:51-62 | submit does nothing exactly when title or address is blank; otherwise the title goes through untrimmed, the address coerced, an empty icon as absent |
| ShortcutModal.ShortcutEditor.constructor | components/modals/ShortcutModal.tsx:23-27 | title, address, icon and error start empty |
| ShortcutModal.ShortcutEditor.Sync | components/modals/ShortcutModal.tsx:29-42 | opening with a shortcut seeds title and address and, only if it has one, the icon; anything else clears fields and icon |
| ShortcutModal.ShortcutEditor.HandleSubmit | components/modals/ShortcutModal.tsx:51-62 | the request handed on is the specified one and always has a scheme |
| ListOps.WithoutKey | app/page.tsx:128 | the filtered list holds exactly the elements whose key differs |
| ListOps.WithoutKeyUnique | app/page.tsx:125-130 | filtering keeps keys unique and removes exactly one element when the key is present, none otherwise |
| Dashboard.DefaultShortcutsUnique | lib/constants/defaults.ts:6-12 | the five default shortcuts have distinct ids |
| Dashboard.NewShortcut | app/page.tsx:134-139 | the new record carries an icon exactly when one that is not empty was given |
| Dashboard.EditByIdSpec | app/page.tsx:141-145 | editing rewrites title, address and icon of the matching record only, keeps ids and positions, is the identity with no match, and keeps ids unique |
| Dashboard.ToggledTwice | app/page.tsx:149-151 | toggling changes the theme and toggling twice restores it |
| Dashboard.Home.constructor | app/page.tsx:19-36 | the page starts on the default shortcuts, the light theme, not mounted, with the menu hidden at (0, 0) and the dialog closed |
| Dashboard.Home.Mount | app/page.tsx:42-62 | the stored list replaces the defaults; a stored theme wins over the system preference |
| Dashboard.Home.Persist | app/page.tsx:65-83 | on a mounted page the list is saved; on success the store holds the stripped list and the page keeps its own; on failure the page falls back to the list still stored |
| Dashboard.Home.OpenContextMenu | app/page.tsx:98-107 | the menu opens at the pointer for the shortcut or the background |
| Dashboard.Home.CloseContextMenu | app/page.tsx:109-111 | the menu hides and keeps position and target |
| Dashboard.Home.OpenAddModal | app/page.tsx:113-116 | the menu closes and the add dialog opens |
| Dashboard.Home.OpenEditModal | app/page.tsx:118-123 | the menu closes; the edit dialog opens only for a menu opened on a shortcut |
| Dashboard.Home.DeleteShortcut | app/page.tsx:125-130 | the menu closes and the records with the menu's shortcut id are removed, ids staying unique |
| Dashboard.Home.HandleSaveShortcut | app/page.tsx:132-147 | adding appends one record, editing rewrites the dialog's shortcut, and the dialog closes either way |
| Dashboard.Home.ToggleTheme | app/page.tsx:149-151 | the theme is toggled and nothing else changes |
| Dashboard.StoredKeepsIds | lib/utils/localStorage.ts:26-39 | what a successful save stores has unique ids whenever the list had |
| TodoWidget.MigrateSpec | components/TodoWidget.tsx:14-28 | migration keeps ids, texts and states, keeps a truthy timestamp, fills every other with a non-zero now, and reloading what was saved changes nothing |
| TodoWidget.AddTodoSpec | components/TodoWidget.tsx:35-49 | nothing is added exactly for blank input; otherwise one open task with the trimmed, non-empty text is appended |
| TodoWidget.ToggleSpec | components/TodoWidget.tsx:51-53 | only `completed` of the matching tasks flips, and toggling twice restores the list |
| TodoWidget.FormatTimeSpec | components/TodoWidget.tsx:63-68 | `HH:MM` is five characters whose fields read back as hour and minute |
| TodoWidget.TodoList.constructor | components/TodoWidget.tsx:14-28 | the list starts as the migrated stored list or the two defaults, and is stored |
| TodoWidget.TodoList.SetInput | components/TodoWidget.tsx:119 | the text field's value is replaced; the list and the store are untouched |
| TodoWidget.TodoList.AddTodoItem | components/TodoWidget.tsx:35-49 | the list becomes the specified one and the input is cleared, or nothing changes for blank input; the store follows |
| TodoWidget.TodoList.ToggleTodo | components/TodoWidget.tsx:51-53 | the list is toggled and stored |
| TodoWidget.TodoList.DeleteTodo | components/TodoWidget.tsx:55-61 | the tasks with the id are removed and the list is stored |
| QuickNotes.AddNoteSpec | components/QuickNotesWidget.tsx:32-48 | a note is added exactly for non-blank text below ten notes; it goes first with the trimmed text, and the board never passes ten |
| QuickNotes.NotesBoard.constructor | components/QuickNotesWidget.tsx:21-24 | the board starts as the stored notes or empty |
| QuickNotes.NotesBoard.OpenForm | components/QuickNotesWidget.tsx:64 | the form opens only below ten notes |
| QuickNotes.NotesBoard.CloseForm | components/QuickNotesWidget.tsx:97 | the form closes |
| QuickNotes.NotesBoard.SetText | components/QuickNotesWidget.tsx:83 | the draft text is replaced |
| QuickNotes.NotesBoard.HandleAdd | components/QuickNotesWidget.tsx:32-48 | the board becomes the specified list, the draft is cleared and the form closes, or nothing changes; the store follows |
| QuickNotes.NotesBoard.DeleteNote | components/QuickNotesWidget.tsx:50-52 | the notes with the id are removed and the board is stored |
| JsText.TrimShape | components/TodoWidget.tsx:44 | a trimmed string has no white space at its ends and lies inside the original |
| JsText.TrimIdempotent | components/modals/ShortcutModal.tsx:56 | trimming twice is trimming once |
| JsText.BlankIffAllSpace | components/TodoWidget.tsx:37 | a string is blank exactly when it is all white space |
| JsText.PadTwoRoundTrip | components/ui/Clock.tsx:21-23 | a value below 100 pads to two digits that read back as the value |
| LogoSettings.WithEmptyText | components/settings/LogoSettings.tsx:85-89 | adding appends one empty text and keeps the rest |
| LogoSettings.WithoutTextSpec | components/settings/LogoSettings.tsx:91-96 | a list of one text or none is unchanged; otherwise exactly the text at the index goes, the order is kept, and a list that had a text keeps one |
| LogoSettings.StaleDebounceReverts | components/settings/LogoSettings.tsx:60-67 | as written, an edit followed within 300 ms by an add and a hide loses the added text and shows the logo again when it fires |
| LogoSettings.LogoEditor.constructor | components/settings/LogoSettings.tsx:19-25 | local texts from the settings; the area rendered and animating exactly when visible |
| LogoSettings.LogoEditor.HandleVisibleChange | components/settings/LogoSettings.tsx:33-57 | only `visible` changes in the settings; showing mounts the area and queues the animation, hiding stops the animation |
| LogoSettings.LogoEditor.AnimationFrame | components/settings/LogoSettings.tsx:37-41 | the queued frame starts the animation |
| LogoSettings.LogoEditor.HandleTextsTransitionEnd | components/settings/LogoSettings.tsx:49-53 | the area unmounts exactly when it is neither animating nor visible |
| LogoSettings.LogoEditor.HandleTextChange | components/settings/LogoSettings.tsx:78-83 | only the text at the index changes, the length is kept, and the list is queued for the parent |
| LogoSettings.LogoEditor.DebounceFires | components/settings/LogoSettings.tsx:60-67 | the parent receives the shown texts and keeps its current visibility |
| LogoSettings.LogoEditor.HandleAddText | components/settings/LogoSettings.tsx:85-89 | one empty text is appended and handed to the parent at once |
| LogoSettings.LogoEditor.HandleRemoveText | components/settings/LogoSettings.tsx:91-96 | no change for a list of one text or none; otherwise the shorter list goes to the parent at once; never below one text |
| LogoSettings.LogoEditor.Unmount | components/settings/LogoSettings.tsx:70-76 | the pending update is dropped |
| AnimatedLogo.TextSequenceMembers | components/ui/AnimatedLogo.tsx:18-20 | the sequence holds exactly the non-blank texts |
| AnimatedLogo.TextSequenceConcat | components/ui/AnimatedLogo.tsx:18-20 | the filter keeps order: it distributes over concatenation |
| AnimatedLogo.TextSequenceKeepsNonBlank | components/ui/AnimatedLogo.tsx:18-20 | a list without blank texts is kept whole |
| AnimatedLogo.Next | components/ui/AnimatedLogo.tsx:45-95 | with no text nothing moves; only typing reaches displaying; displaying always moves to deleting |
| AnimatedLogo.NextConsistent | components/ui/AnimatedLogo.tsx:53-92 | each step keeps the display a prefix of the current text, all of it while displaying, none of it while waiting, and the index in range |
| AnimatedLogo.TypingRun | components/ui/AnimatedLogo.tsx:54-64 | typing adds one character per step until the whole text shows |
| AnimatedLogo.DeletingRun | components/ui/AnimatedLogo.tsx:73-83 | deleting removes one character per step until the display is empty |
| AnimatedLogo.FullCycle | components/ui/AnimatedLogo.tsx:45-95 | from an empty display typing text i, after 2n + 4 steps the machine is typing text i + 1, wrapping after the last |
| AnimatedLogo.Typewriter.constructor | components/ui/AnimatedLogo.tsx:22-27 | the animation starts empty, typing the first text |
| AnimatedLogo.Typewriter.SetTexts | components/ui/AnimatedLogo.tsx:29-38 | a change of texts resets to an empty display typing the first text; the same texts change nothing |
| AnimatedLogo.Typewriter.Step | components/ui/AnimatedLogo.tsx:45-95 | one effect run and timer moves the state as specified, keeping it consistent |
| AnimatedLogo.Typewriter.Render | components/ui/AnimatedLogo.tsx:97-107 | nothing renders exactly when no text is left; otherwise the display and cursor, the display a prefix of the current text |
| PasswordGenerator.PasswordLengthOnSlider | components/PasswordGeneratorWidget.tsx:244-248 | with both lengths on their sliders, a random password has 8 to 64 characters and a PIN 3 to 12 digits |
| PasswordGenerator.DefaultsOnSliders | components/PasswordGeneratorWidget.tsx:16-22 | defaults are random mode, no digits, no symbols, with both lengths on their sliders |
| PasswordGenerator.AlphabetsSpec | components/PasswordGeneratorWidget.tsx:55-57 | 52 letters, every digit twice in order, 12 symbols that are neither letters nor digits |
| PasswordGenerator.Charset | components/PasswordGeneratorWidget.tsx:59-61 | the charset has 52 characters plus 20 with digits plus 12 with symbols |
| PasswordGenerator.GenerateSpec | components/PasswordGeneratorWidget.tsx:53-82 | the output has the chosen length; random output uses only enabled alphabets (letters only with both toggles off); a PIN digit is its byte modulo 10 |
| PasswordGenerator.CharsetPart | components/PasswordGeneratorWidget.tsx:59-61 | charset positions 0–51 are letters, then digits if enabled, then symbols if enabled |
| PasswordGenerator.ClassOf | components/PasswordGeneratorWidget.tsx:152-161 | digits get the number colour, the 12 symbols the symbol colour, anything else the letter colour |
| PasswordGenerator.Colours | components/PasswordGeneratorWidget.tsx:149-169 | an empty password shows the placeholder; otherwise one colour per character |
| PasswordGenerator.ClassOfCharset | components/PasswordGeneratorWidget.tsx:152-161 | a character's colour tells which alphabet of the charset it came from |
| PasswordGenerator.Widget.constructor | components/PasswordGeneratorWidget.tsx:25-28 | default settings, no password, not mounted |
| PasswordGenerator.Widget.Mount | components/PasswordGeneratorWidget.tsx:31-90 | stored settings replace the defaults, are written back, and the first password is generated from them; the lengths are on their sliders when the record taken was |
| PasswordGenerator.Widget.Update | components/PasswordGeneratorWidget.tsx:45-98 | new settings are stored, and the password is regenerated when a field changed and one already existed |
| PasswordGenerator.Widget.HandleTypeChange | components/PasswordGeneratorWidget.tsx:123-125 | only the mode changes; an existing password is regenerated from the new settings when the mode really changed, and otherwise kept; lengths on their sliders stay there |
| PasswordGenerator.Widget.HandleRandomLengthChange | components/PasswordGeneratorWidget.tsx:128-130 | only the random length changes; an existing password is regenerated when the length really changed, and otherwise kept; the new length is one the Random slider can give, so lengths on their sliders stay there |
| PasswordGenerator.Widget.HandlePinLengthChange | components/PasswordGeneratorWidget.tsx:133-135 | only the PIN length changes; an existing password is regenerated when the length really changed, and otherwise kept; the new length is one the PIN slider can give, so lengths on their sliders stay there |
| PasswordGenerator.Widget.ToggleNumbers | components/PasswordGeneratorWidget.tsx:138-141 | only `includeNumbers` flips; an existing password is regenerated and an empty one stays empty; lengths on their sliders stay there |
| PasswordGenerator.Widget.ToggleSymbols | components/PasswordGeneratorWidget.tsx:143-146 | only `includeSymbols` flips; an existing password is regenerated and an empty one stays empty; lengths on their sliders stay there |
| PasswordGenerator.Widget.HandleRefresh | components/PasswordGeneratorWidget.tsx:115-120 | a new password from the same settings |
| Clock.FormatTimeSpec | components/ui/Clock.tsx:19-25 | dashes before the first tick; otherwise eight characters with colons at 2 and 5 whose fields read back as hour, minute and second |
| Clock.FormatTimeInjective | components/ui/Clock.tsx:19-25 | different times read differently |
| Clock.GreetingBuckets | components/ui/Clock.tsx:38-50 | every hour gets one of four greetings, which change only at 5, 12, 17 and 21; night spans midnight |
| Weather.IconMatchesDescription | components/WeatherWidget.tsx:19-42 | the icon always matches the description; an unlisted code is sunny with the sun icon |
| Weather.CodeListsDisjoint | components/WeatherWidget.tsx:25-40 | the code lists do not overlap |
| Weather.ViewSpec | components/WeatherWidget.tsx:44-83 | loading wins over an error; an error or missing data shows the unavailable view; a report shows the city, the temperature within half a degree, and a matching icon |

## Left out

- JSON parsing and serialisation are not modelled. The stored value is a datatype (unparseable, `null`, array, scalar, object). Keys named like integers are enumerated first by JavaScript objects; that ordering is not modelled: iteration order is insertion order.
- IconCacheTable.Find and IconCacheTable.FindAfterPut: reads and writes are own-property only. A JavaScript object lookup also sees names inherited from `Object.prototype` (`constructor`, `toString`, …), and assigning to `__proto__` sets the prototype rather than storing an entry. The model has neither. For a domain named like an inherited property, the source's `getIconFromCache` returns the inherited function where the model misses. On a full table `!cache[domain]` is then false, so the source skips eviction and can hold 101 entries. The 100-entry bound of IconCacheTable.InsertedBounded and IconCacheTable.EvictionSpec therefore holds only for domains that are not such names.
- IconCacheTable.FindAfterPut: a write to the `__proto__` key stores nothing in the source (JSON serialisation drops the prototype); the model stores it like any other domain.
- Whether the store can be used (`isIconCacheAvailable`'s probe write) is a constant of the icon store, not a fresh probe per call.
- How a write ends (written, over quota, other failure) is a function of the payload alone. A store whose quota depends on other keys is not modelled.
- Alerts, console output and the 100 ms deferred alert of the quota-safe save are not modelled: they change no state.
- Timers become separate steps: the deferred expired-entry deletion (`DropExpired`), the logo debounce (`DebounceFires`), the animation frames (`AnimationFrame`) and each typewriter delay (`Step`). The copy and refresh animations' timers and `copied`/`isRotating` flags are not modelled; clipboard access is not modelled.
- React effect scheduling is not modelled; concurrent renders are not modelled either. In the widgets (tasks, notes, password, logo editor, typewriter), a handler and the effects its state change triggers form one method.
- Dashboard.Home: the page's persistence effect is the separate step `Persist`, not part of the methods that change the list. `Mount`, `DeleteShortcut` and `HandleSaveShortcut` leave the store untouched, and no contract of theirs says what is stored afterwards. The effect's outcome is stated by `Persist` alone, for whatever list the page holds when it runs.
- AnimatedLogo.Typewriter.SetTexts: the reset is taken to win. In the source, the phase effect of the same commit runs after the reset effect with the old phase and display, and its update lands last. For example, a change of texts while the old text is fully typed leaves an empty display in the displaying phase. The new first text then appears only after a display, delete and wait round, and with several texts the first one is skipped. The model does not capture this.
- AnimatedLogo.Next and AnimatedLogo.Typewriter.Step: strings are sequences of Unicode scalar values. The source slices UTF-16 code units, so a character outside the Basic Multilingual Plane (an emoji) takes two typing and two deleting steps, and halfway it shows half a surrogate pair. AnimatedLogo.FullCycle's 2n + 4 steps count scalar values, not code units.
- The image compressor, the file reader and the image decoder are oracles (`IconUpload.Browser`). Their own behaviour (RFC 2397 data URLs, image formats) is not modelled.
- The URL parser (`new URL`) is an oracle returning the host name and origin, or nothing when the address does not parse.
- `Date` conversion to local hours, minutes and seconds is not modelled; those fields are parameters. `formatDate` (locale formatting) is not modelled.
- The theme persistence effect and the DOM class toggle of the page are not modelled, and neither is the random background orbs' state.
- The page's `isClient` flag is modelled only as the guard of the persistence effect.
- PasswordGenerator.Widget: the slider's fill percentage (floating point) is not modelled. Lengths are natural numbers, as the range slider yields; `parseInt` of other input is not modelled. A stored settings record is taken to parse into a settings record. Its lengths are not checked against the sliders, so they are on their sliders after mounting only when the stored record had them there.
- Weather.Round models `Math.round` on exact reals; floating-point representation of the temperature is not modelled.
- QuickNotes.NotesBoard.HandleAdd: the colour index comes in as a parameter in range, where the source derives it from `Math.random`.
- The model does not cover `getWeatherIcon`'s sizes and CSS classes, the notes' colour CSS strings beyond their mapping, or any other rendering markup.
- LogoSettings.LogoEditor: the editor follows the corrected debounce of the third finding below, not the code as written. Settings replaced from outside the editor while it is mounted are not modelled.
- IconCache.IconCacheStore.SaveCache follows the corrected retry (second finding), and the store's load follows the corrected `loadCache` (first finding). It also stops when an empty table is over quota. The source would retry forever there, and so would keeping none when `keepCount` is 0, because an empty table cannot shrink.
- Dashboard.Home.HandleSaveShortcut requires the generated id to be new; `uuidv4` collisions are not modelled.

## Findings

| source | as written | input that shows it | evidently intended | confidence | as-written member | corrected member |
|---|---|---|---|---|---|---|
| lib/utils/iconCache.ts:37-42 | `typeof cache !== 'object'` lets a stored JSON `null` through, so `loadCache` returns `null` and `cache[domain]` in `getIconFromCache` throws | the text `null` stored under `nexus_icon_cache`, then any icon lookup | a stored value that is not an object reads as the empty cache | high, not executed | IconCache.NullCacheThrows | IconCache.Load |
| lib/utils/iconCache.ts:68-71 | for a table of one entry `keepCount` is 0 and `slice(-0)` keeps every entry, so the quota retry recurses on the same table | a one-entry cache whose write exceeds the quota | keep the newest `keepCount` entries, none when it is 0, so each retry shrinks a non-empty table; an empty table over quota gives up rather than retrying forever | high, not executed | IconCacheTable.RetainNewestAsWrittenStalls | IconCacheTable.RetainNewestSpec |
| components/settings/LogoSettings.tsx:60-67 | the debounced update sends the whole settings object captured when the edit was typed, and adding, removing or hiding does not cancel it | texts `["Nexus"]`, visible; edit the text to `Nexus!`, add a text and switch the logo off within 300 ms | the typed texts reach the parent without undoing later changes | medium, not executed | LogoSettings.StaleDebounceReverts | LogoSettings.LogoEditor.DebounceFires |
