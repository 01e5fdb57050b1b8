# Soundfonter, modelled in Dafny

Soundfonter is a macOS browser for a sforzando instrument library. The library
directory holds converted soundfonts laid out as
`ARIAConverted/sf2/<name>_sf2/<bank>/<number>_<words>.sfz`. The app scans them
into collections, keeps a favourites collection and the user's own
collections, and shows them in a sidebar beside a searchable table of
instruments.

This project models the app's model layer and the decision code in its views
and view models:

- `Instruments`: an instrument is its path. Its number, name and bank are
  derived from the path. Proved: the layout convention round-trips, the sample
  instrument of the app's preview, and a `-1` sentinel for a number that does
  not parse.
- `Collections`: a collection is a class with an immutable identity and
  directory, and an editable name and instrument list. Equality and hashing
  use the identity alone.
- `Libraries`: the soundfont scan, `loadSoundfonts`.
  - The file system is a value: whether `ARIAConverted/sf2` exists, and the
    enumerated relative paths.
  - The scan is a specification function with its properties proved: one
    entry per `_sf2` directory in listing order, its name, exactly its `.sfz`
    files, sorted by bank then number, and no file in two soundfonts.
  - The load is a method. Its loop replaces `soundfonts` with one fresh
    collection per entry, and it throws before touching any state.
- `CollectionViews`: the search filter, the favourite and membership actions,
  and selection of an instrument by identity.
- `ImportFlows`: the import state machine `advanceImportFlow`. It is a
  specification function `Next`, and a class whose status assignments keep
  the three dialogue flags in step.
- `LibraryViews`: the window's action handler (append, new collection, remove
  every occurrence), the favourite and membership toggles built on it, and
  the import, appear and URL-change handlers that drive the import flow.
- `Sidebars`: deleting a user collection with the selection falling back,
  "New Collection", and `resetSelection`.
- `CollectionRowModels`, `CollectionRows`: the row icon, the rename, delete
  and "Show in Finder" capabilities, and the all-or-nothing drop.
- `Wrappers`, `Seqs`, `Strings`: `Option`, and the Swift standard-library
  operations the code relies on, with contracts where the model needs them
  (`joined`, `hasPrefix`, `hasSuffix` and `String(Int)` are plain
  definitions, and `String(Int)` is tied to `Int(String)` by a round-trip
  lemma). They cover
  `filter`, `removeAll(where:)`, `split` (which drops empty pieces),
  `joined`, `hasPrefix`/`hasSuffix`/`contains`, `replacingOccurrences`,
  `trimmingCharacters(in: .whitespaces)`, `lowercased`, `Int(String)` and
  `String(Int)`.

Randomness and the operating system are parameters.
- A new UUID is passed in: `id`, `newId`, or `mint(k)` for the k-th scanned
  soundfont.
- Whether the security-scoped directory can be accessed is a boolean.
- What the file manager reports is a `FileSystem` value.

Two points about what the code guarantees:

- Duplicate membership. The `addTo` handler appends without a duplicate
  check (Soundfonter/Views/LibraryView.swift:30). Only its callers avoid
  duplicates: the favourite button flips membership, and a membership toggle
  that changes state can only flip. The drop handler checks the batch against
  the collection but not against itself
  (Soundfonter/Views/CollectionRow.swift:35-43,
  `CollectionRows.DropOfRepeatedInstrument`). So "no duplicates" is proved
  only as something these callers preserve.
- Scan order. Swift's `sorted` (Soundfonter/Models/Library.swift:102-110) is
  not guaranteed stable, so only "sorted by bank then number" and "a
  permutation of the `.sfz` files" are claimed.

## Model

| member | source | states |
|---|---|---|
| Instruments.Name | Soundfonter/Models/Instrument.swift:28-32 | the display name never contains `_`: split drops the separators and the words are joined with spaces |
| Instruments.SameMeansEqual | Soundfonter/Models/Instrument.swift:40-64 | instrument `==` compares the identity alone, and equal instruments have the same number, name and bank (hashing of instruments is not modelled) |
| Instruments.PathComponents | Soundfonter/Models/Instrument.swift:21-38 | for `<dir>/<parent>/<file>` the last path component is `file` and the bank is `parent` parsed as an integer, -1 when it is not one |
| Instruments.ConventionalPath | Soundfonter/Models/Instrument.swift:21-38 | a file `<dir>/<bank>/<number>_<w1>_…_<wk>.sfz` with decimal bank and number has exactly that bank and number, and the name `w1 … wk` |
| Instruments.ConventionalBank | Soundfonter/Models/Instrument.swift:35-38 | the bank of a conventional path is the value of its parent directory's digits |
| Instruments.ConventionalNumber | Soundfonter/Models/Instrument.swift:21-25 | the number of a conventional path is the value of the digits before the first `_` |
| Instruments.ConventionalName | Soundfonter/Models/Instrument.swift:28-32 | the name of a conventional path is its words joined by spaces; only the final extension is removed, so a word may contain `.` |
| Instruments.StemOfSfz | Soundfonter/Models/Instrument.swift:29 | removing the extension of `<stem>.sfz` gives `stem` |
| Instruments.NumberOfFileWithoutUnderscore | Soundfonter/Models/Instrument.swift:21-25 | a file name with an extension and no `_` has number -1, because the extension is part of the parsed piece |
| Instruments.SampleExtensionOnly | Soundfonter/Models/Instrument.swift:22-24 | `12.sfz` has number -1 |
| Instruments.SampleSpaces | Soundfonter/Views/LibraryView.swift:119 | the preview instrument `199/090_Instrument_Spaces_3.sfz` has number 90, name "Instrument Spaces 3" and bank 199 |
| Instruments.Id | Soundfonter/Models/Instrument.swift:40-42 | an instrument's identity is its path, the `absoluteString` of its URL without percent-encoding |
| Instruments.Same | Soundfonter/Models/Instrument.swift:56-58 | instrument `==` compares identities; SameMeansEqual states that it is datatype equality |
| Instruments.Stem | Soundfonter/Models/Instrument.swift:29 | `deletingPathExtension` on a file name: the text from the last `.` on is removed when that `.` is neither first nor last; StemOfSfz states its value on `.sfz` names |
| Instruments.LastPathComponent | Soundfonter/Models/Instrument.swift:22 | `lastPathComponent`: the last non-empty `/`-separated piece of the path, and `/` for a path made only of separators; the ConventionalPath and PathComponents rows state what it gives on library paths |
| Instruments.Number | Soundfonter/Models/Instrument.swift:21-25 | the number is the first `_`-separated piece of the file name parsed as an integer, -1 when there is no piece or it does not parse; the ConventionalNumber, NumberOfFileWithoutUnderscore and SampleExtensionOnly rows state its values |
| Instruments.Bank | Soundfonter/Models/Instrument.swift:35-38 | the bank is the parent directory's name parsed as an integer, -1 when it does not parse or there is no parent; the ConventionalBank and PathComponents rows state its values |
| Strings.Trimmed | Soundfonter/ViewModel/CollectionViewModel.swift:54 | trimming gives the part of the query between a blank prefix and a blank suffix: the empty string exactly for a blank query, and otherwise a string that starts and ends with a non-blank |
| Strings.ParseIntToString | Soundfonter/Models/Instrument.swift:24 | parsing the unpadded decimal text of an integer gives the integer back |
| Strings.IntOr | Soundfonter/Models/Instrument.swift:24 | `Int(s) ?? -1`: the parsed integer, or -1 when the text is not one; ParseIntToString gives its value on the text of an integer |
| Seqs.RemoveAll | Soundfonter/Views/LibraryView.swift:38 | `removeAll(where: { $0 == x })` leaves no `x`, keeps the count of every other instrument and their order, and changes nothing when `x` is absent |
| Collections.Collection.constructor | Soundfonter/Models/Collection.swift:38-43 | the designated initializer stores the identity, name, instruments and directory it is given |
| Collections.Collection.Default | Soundfonter/Models/Collection.swift:38-43 | `Collection()` is named "New Collection", with no instruments and no directory |
| Collections.Collection.FromPath | Soundfonter/Models/Collection.swift:45-47 | the `path:` initializer always gives a directory-backed collection |
| Collections.SameIsEquivalence | Soundfonter/Models/Collection.swift:49-59 | collection `==` is an equivalence on identities and agrees with `hash`; it reads no mutable field, so renaming or editing never changes it |
| Collections.FavouritesAreOne | Soundfonter/Models/Collection.swift:17-34 | `isFavourites` holds exactly for the collections equal to a favourites collection, the ones whose identity is `favouritesId` |
| Collections.Collection.IsFavourites | Soundfonter/Models/Collection.swift:32-34 | `isFavourites` holds exactly when the identity is the fixed favourites identity |
| Collections.SameCollection | Soundfonter/Models/Collection.swift:51-53 | collection `==` compares the identities alone; SameIsEquivalence states its laws |
| Collections.HashKey | Soundfonter/Models/Collection.swift:57-59 | `hash(into:)` combines the identity alone; SameIsEquivalence states that equal collections hash alike |
| Libraries.Library.constructor | Soundfonter/Models/Library.swift:20-59 | a new library has no soundfonts, no user collections and an empty "Favourites" collection with the favourites identity |
| Libraries.Library.With | Soundfonter/Models/Library.swift:61-66 | the three-list initializer stores the lists it is given |
| Libraries.Library.LoadSoundfonts | Soundfonter/Models/Library.swift:72-83 | without a directory or without access it throws `noAccess` before the scan; otherwise it behaves as `ReadSoundfonts`; favourites and user collections never change |
| Libraries.Library.ReadSoundfonts | Soundfonter/Models/Library.swift:88-113 | a missing sf2 directory or a failed enumeration throws `invalidFiles` with `soundfonts` unchanged; otherwise `soundfonts` becomes one fresh collection per scanned entry, in order |
| Libraries.Library.ReplaceSoundfonts | Soundfonter/Models/Library.swift:98-113 | the loop empties `soundfonts` and appends one fresh collection per entry carrying the entry's name, directory and sorted instruments |
| Libraries.Sf2Path | Soundfonter/Models/Library.swift:88 | the converted soundfonts live in `<library>/ARIAConverted/sf2` |
| Libraries.IsSoundfontDirectory | Soundfonter/Models/Library.swift:99 | the directory filter: a listed path ending in `_sf2` that contains no `/` |
| Libraries.InSoundfont | Soundfonter/Models/Library.swift:101 | the file filter: a listed path that starts with `<dir>/` and ends in `.sfz` |
| Libraries.Entry | Soundfonter/Models/Library.swift:99-112 | one pass of the loop: the entry's display name, its directory below the sf2 directory, and its `.sfz` files as instruments sorted by bank then number; ScanAt, EntryArranged and MemberIffInSoundfont state its properties |
| Libraries.SoundfontDirectories | Soundfonter/Models/Library.swift:99 | the soundfont directories are exactly the listed entries ending in `_sf2` with no `/`, in listing order and with their multiplicity |
| Libraries.SoundfontName | Soundfonter/Models/Library.swift:100 | a soundfont's display name contains no `_` |
| Libraries.SoundfontNameOfWords | Soundfonter/Models/Library.swift:100 | `<w1>_…_<wk>_sf2` is named `w1 … wk` when no later word starts with `sf2` |
| Libraries.SoundfontNameOfWord | Soundfonter/Models/Library.swift:100 | `<word>_sf2` is named `word` |
| Libraries.SoundfontFiles | Soundfonter/Models/Library.swift:101 | the files of a soundfont are the listed paths below `<dir>/` ending in `.sfz`, with their multiplicity |
| Libraries.InstrumentsAt | Soundfonter/Models/Library.swift:102 | each file becomes the instrument at `<sf2>/<path>`, in the same order |
| Libraries.SortByBankNumber | Soundfonter/Models/Library.swift:102-110 | the sort gives a permutation of its input that is ascending by bank and by number within a bank |
| Libraries.InIncreasingOrder | Soundfonter/Models/Library.swift:103-110 | the sort closure: by number when the banks are equal, by bank otherwise; MayPrecedeIsLexicographic states its laws |
| Libraries.MayPrecedeIsLexicographic | Soundfonter/Models/Library.swift:103-110 | the comparator is the lexicographic order on (bank, number): total and transitive, and irreflexive as a strict order |
| Libraries.Scan | Soundfonter/Models/Library.swift:99-113 | the scan yields one entry per soundfont directory |
| Libraries.ScanAt | Soundfonter/Models/Library.swift:99-112 | the k-th entry is the name, directory and sorted files of the k-th soundfont directory |
| Libraries.ScanFindsDirectory | Soundfonter/Models/Library.swift:99-112 | there is an entry for a directory iff the listing holds it as a soundfont directory |
| Libraries.EntryArranged | Soundfonter/Models/Library.swift:101-110 | an entry's instruments are ascending by bank then number and are, as a multiset, its `.sfz` files |
| Libraries.MemberIffInSoundfont | Soundfonter/Models/Library.swift:101-102 | a path's instrument is in an entry iff the path is listed, lies below the entry and ends in `.sfz` |
| Libraries.NoPathInTwoSoundfonts | Soundfonter/Models/Library.swift:99-101 | a path lies in at most one soundfont directory, because directory names contain no `/` |
| Libraries.EntriesDisjoint | Soundfonter/Models/Library.swift:99-102 | entries of different soundfont directories share no instrument |
| Libraries.EqualIsEquivalence | Soundfonter/Models/Library.swift:119-123 | library `==`, which compares the three lists element by element, is an equivalence |
| Libraries.Equal | Soundfonter/Models/Library.swift:119-123 | library `==` compares the soundfonts, the favourites and the user collections with collection `==`, element by element |
| Libraries.SameList | Soundfonter/Models/Library.swift:120-122 | array `==` on collections: the same length and collection `==` at every position |
| CollectionViews.CleanFilter | Soundfonter/ViewModel/CollectionViewModel.swift:54-55 | the cleaned query is empty exactly when the query is blank |
| CollectionViews.Matches | Soundfonter/ViewModel/CollectionViewModel.swift:56-59 | a non-blank cleaned query matches when the lower-cased name, the number as text or the bank as text contains it |
| CollectionViews.Keeps | Soundfonter/ViewModel/CollectionViewModel.swift:51-63 | the filter closure keeps every instrument for a blank query and otherwise the matching ones |
| CollectionViews.FilteredInstruments | Soundfonter/ViewModel/CollectionViewModel.swift:50-64 | the result keeps the collection's order; a blank query keeps everything; otherwise an instrument is kept iff its lower-cased name, number or bank contains the cleaned query, and a kept instrument keeps all its occurrences |
| CollectionViews.FindsByNumber | Soundfonter/ViewModel/CollectionViewModel.swift:56-59 | typing an instrument's number, such as `-1` for one that did not parse, finds it |
| CollectionViews.FindsByBank | Soundfonter/ViewModel/CollectionViewModel.swift:56-59 | typing an instrument's bank finds it |
| CollectionViews.IsFavourite | Soundfonter/ViewModel/CollectionViewModel.swift:149-155 | `isFavourite(instrument:in:)` is false without an instrument, and otherwise says whether the favourites contain it |
| CollectionViews.IsMember | Soundfonter/ViewModel/CollectionViewModel.swift:114-119 | the getter of a collection toggle: false without an instrument, and otherwise whether the collection contains it |
| CollectionViews.FavouriteAction | Soundfonter/ViewModel/CollectionViewModel.swift:71-85 | the favourite button removes from the favourites iff the instrument is a favourite, adds to them otherwise, and does nothing without an instrument |
| CollectionViews.ToggleAction | Soundfonter/ViewModel/CollectionViewModel.swift:114-131 | a collection toggle set on adds to that collection, set off removes from it, and does nothing without an instrument |
| CollectionViews.NewCollectionAction | Soundfonter/ViewModel/CollectionViewModel.swift:99-105 | "New Collection" asks for a new collection, and does nothing without an instrument |
| CollectionViews.FirstWithId | Soundfonter/ViewModel/CollectionViewModel.swift:38-42 | selecting by identity gives the first instrument with that identity, or none when there is none |
| CollectionViews.SelectionRoundTrip | Soundfonter/ViewModel/CollectionViewModel.swift:38-42 | selecting by the identity of a listed instrument gives that instrument back |
| CollectionViews.SelectNothing | Soundfonter/ViewModel/CollectionViewModel.swift:41 | clearing the table selection clears the selected instrument |
| ImportFlows.Next | Soundfonter/ViewModel/LibraryViewModel.swift:38-60 | idle goes to info, info and failure go to importing, importing goes to the result or back to info, and success stays |
| ImportFlows.ResultIgnoredOutsideImporting | Soundfonter/ViewModel/LibraryViewModel.swift:39-58 | an import result matters only while importing |
| ImportFlows.SuccessIsFinal | Soundfonter/ViewModel/LibraryViewModel.swift:57-58 | once the import succeeded, no sequence of advances leaves success |
| ImportFlows.NeverBackToIdle | Soundfonter/ViewModel/LibraryViewModel.swift:38-60 | advancing never returns to idle unless a result is idle itself |
| ImportFlows.FirstImport | Soundfonter/ViewModel/LibraryViewModel.swift:38-60 | from idle: two advances then a success end the flow; a failure leads back to the picker; a cancelled picker leads back to the information alert |
| ImportFlows.ImportFlow.constructor | Soundfonter/ViewModel/LibraryViewModel.swift:18-33 | the flow starts idle with all three flags false |
| ImportFlows.ImportFlow.FlagsMatch | Soundfonter/ViewModel/LibraryViewModel.swift:18-24 | what the `didSet` observer establishes: each of the three flags holds exactly for its status |
| ImportFlows.ImportFlow.SetStatus | Soundfonter/ViewModel/LibraryViewModel.swift:18-24 | every status assignment sets the flags to status == info, importing and failure |
| ImportFlows.ImportFlow.Advance | Soundfonter/ViewModel/LibraryViewModel.swift:38-60 | advancing assigns `Next` of the status when there is one, keeping the flags in step, and otherwise changes nothing |
| ImportFlows.AtMostOneDialogue | Soundfonter/ViewModel/LibraryViewModel.swift:18-24 | while the flags match the status, at most one of the three dialogues is shown |
| LibraryViews.LibraryWindow.constructor | Soundfonter/Views/LibraryView.swift:14-24 | a new window has an idle import flow, no selection, and a sidebar bound to its selected collection |
| LibraryViews.LibraryWindow.AddTo | Soundfonter/Views/LibraryView.swift:29-31 | `addTo` appends the instrument at the end, with no duplicate check |
| LibraryViews.LibraryWindow.AddToNewCollection | Soundfonter/Views/LibraryView.swift:32-36 | `addToNewCollection` appends one fresh unnamed collection holding just the instrument and selects it |
| LibraryViews.LibraryWindow.RemoveFrom | Soundfonter/Views/LibraryView.swift:37-42 | `removeFrom` removes every occurrence, and clears the selected instrument iff it is the removed one |
| LibraryViews.LibraryWindow.HandleAction | Soundfonter/Views/LibraryView.swift:27-47 | `addTo` appends and changes nothing else; `addToNewCollection` appends a fresh default collection holding the instrument and selects it, leaving the soundfonts, favourites, directory and selected instrument unchanged; `removeFrom` removes every occurrence and clears a selected removed instrument, leaving the library and the selected collection unchanged; "Show in Finder" changes no state |
| LibraryViews.LibraryWindow.PressFavourite | Soundfonter/ViewModel/CollectionViewModel.swift:72-85 | pressing the favourite button on a favourite removes every occurrence from the favourites and clears the selection if it was that instrument; on anything else it appends the instrument with the selection unchanged; so it flips favourite state and never introduces a duplicate |
| LibraryViews.LibraryWindow.SetMembership | Soundfonter/ViewModel/CollectionViewModel.swift:114-131 | setting a toggle on appends the instrument with the selection unchanged; setting it off removes every occurrence and clears the selection if it was that instrument; afterwards membership equals the toggle, and a toggle that flips keeps the collection duplicate-free |
| LibraryViews.LibraryWindow.Select | Soundfonter/Views/LibraryView.swift:53-68 | the alerts' "Select" button advances the flow with no result |
| LibraryViews.LibraryWindow.ImportPicked | Soundfonter/Views/LibraryView.swift:69-82 | the first picked folder becomes the library directory, or the directory is cleared when there is none or it cannot be accessed, and the library loads; the flow advances with success when the load succeeds and with failure when it throws, keeping the flags in step, and stays untouched once it has succeeded |
| LibraryViews.LibraryWindow.ImportFailed | Soundfonter/Views/LibraryView.swift:83-85 | a picker error advances the flow with failure, keeping the flags in step, and leaves a flow that has succeeded untouched |
| LibraryViews.LibraryWindow.OnAppear | Soundfonter/Views/LibraryView.swift:90-104 | on appear, without a directory the flow advances, or stays untouched once it has succeeded; with one the library loads, and a load that throws sets the status to failure |
| LibraryViews.LibraryWindow.UrlChanged | Soundfonter/Views/LibraryView.swift:105-110 | the directory becoming non-nil resets the status to idle |
| Sidebars.CollectionSelection.constructor | Soundfonter/Views/LibraryView.swift:17 | the selected collection starts empty |
| Sidebars.IndexOfCollection | Soundfonter/Views/SidebarView.swift:64 | `firstIndex(of:)` finds the first user collection equal to the given one, or none |
| Sidebars.DeletedList | Soundfonter/Views/SidebarView.swift:64-77 | the user collections after a delete: the first entry equal to the collection removed, or the list unchanged when there is none; DeleteAbsent, DeleteRemovesOne and DeleteKeepsOrder state its properties |
| Sidebars.SelectionAfterDelete | Soundfonter/Views/SidebarView.swift:64-75 | the selection after a delete: a selected deleted collection passes to the previous entry, or to the favourites when it was first; otherwise it stays; SelectionSurvivesDelete states its properties |
| Sidebars.DeleteAbsent | Soundfonter/Views/SidebarView.swift:63-66 | deleting a collection that is not a user collection, such as the favourites or a soundfont, changes neither the list nor the selection |
| Sidebars.DeleteRemovesOne | Soundfonter/Views/SidebarView.swift:64-77 | deleting a user collection removes exactly one entry, the first equal one |
| Sidebars.DeleteKeepsOrder | Soundfonter/Views/SidebarView.swift:77 | the other user collections keep their order |
| Sidebars.SelectionSurvivesDelete | Soundfonter/Views/SidebarView.swift:68-75 | a deleted selection moves to the preceding user collection, or to the favourites when it was first; with distinct identities it is never the deleted collection, and it is still listed or is the favourites |
| Sidebars.Sidebar.constructor | Soundfonter/Views/SidebarView.swift:52-54 | the sidebar shares the window's library and selection |
| Sidebars.Sidebar.NewCollection | Soundfonter/Views/SidebarView.swift:36-40 | "New Collection" appends a fresh default collection and selects it |
| Sidebars.Sidebar.ResetSelection | Soundfonter/Views/SidebarView.swift:90-92 | the selection becomes the first soundfont, or the favourites when there is none |
| Sidebars.Sidebar.Perform | Soundfonter/Views/SidebarView.swift:61-87 | delete removes the first equal user collection and moves a deleted selection back; a collection that is not listed and "Show in Finder" change nothing |
| CollectionRowModels.Icon | Soundfonter/ViewModel/CollectionRowModel.swift:24-31 | the icon is "waveform" iff the collection has a directory, "heart" iff it has none and is the favourites, "folder" otherwise |
| CollectionRows.CanRename | Soundfonter/Views/CollectionRow.swift:20-26 | the name is an editable field exactly for a collection with no directory that is not the favourites |
| CollectionRows.AcceptsDrops | Soundfonter/Views/CollectionRow.swift:32-33 | a row is a drop destination exactly when its collection has no directory |
| CollectionRows.OffersShowInFinder | Soundfonter/Views/CollectionRow.swift:49-53 | the context menu offers "Show in Finder" exactly when the collection has a directory |
| CollectionRows.OffersDelete | Soundfonter/Views/CollectionRow.swift:54-58 | the context menu offers "Delete" exactly for a collection with no directory that is not the favourites |
| CollectionRows.CapabilitiesFollowIcon | Soundfonter/Views/CollectionRow.swift:20-59 | a folder row can be renamed, deleted and dropped on, a heart row only dropped on, a waveform row only shown in the Finder |
| CollectionRows.FavouritesRowHasNoMenu | Soundfonter/Views/CollectionRow.swift:48-59 | the favourites row offers neither menu entry and no rename, but accepts drops |
| CollectionRows.AnyMember | Soundfonter/Views/CollectionRow.swift:35-37 | the drop check holds iff some dropped instrument is already a member |
| CollectionRows.Drop | Soundfonter/Views/CollectionRow.swift:32-46 | the drop is refused with the collection unchanged iff a dropped instrument is already a member; otherwise all are appended in order |
| CollectionRows.DropKeepsDistinct | Soundfonter/Views/CollectionRow.swift:35-45 | an accepted drop of a duplicate-free batch keeps a duplicate-free collection duplicate-free |
| CollectionRows.DropOfRepeatedInstrument | Soundfonter/Views/CollectionRow.swift:35-43 | one instrument dropped twice in one batch onto an empty collection is accepted and lands twice |
| CollectionRows.Rename | Soundfonter/Views/CollectionRow.swift:20-22 | renaming a user collection changes its name and nothing else |

## Left out

- Bookmarks and security scope. The bookmark resolution, the start and stop of security-scoped access, and the `url` getter and setter are operating-system calls. Access is a boolean input, and the directory is an `Option<string>` field that the import handler assigns, clearing it when access fails as the setter does. A bookmark that cannot be created, or one that resolves as stale, would also read back as no directory; the model does not capture those two cases.
- `FileManager`. The existence check and the enumeration are replaced by a `FileSystem` value: an existence flag and the enumerated paths, or `None` when enumeration fails.
- URLs. Paths are plain strings joined with `/`. An instrument's `absoluteString` identity is its path, with no percent-encoding.
- Strings.ParseInt: `Int(String)` is modelled as an optional sign followed by decimal digits, with no 64-bit overflow.
- Strings: a Swift `String` is compared here one Unicode scalar at a time. Swift's `==`, `split`, `hasPrefix`, `hasSuffix` and `contains` work on Characters (grapheme clusters) under canonical equivalence, so text in different normalisation forms, such as a precomposed `é` in a query and a decomposed one in a file name, matches in the app but not in the model.
- Strings.Lowercased: only ASCII letters are lower-cased. Only space and tab count as whitespace for trimming.
- Instruments.Stem: `deletingPathExtension` is modelled as dropping the text from the last `.`, when that `.` is neither the first nor the last character.
- Libraries.SortByBankNumber: the model fixes one sorted order, an insertion sort. Swift's `sorted`, which is not guaranteed stable, may order instruments with equal bank and number differently. So the load's exact order for such ties is a choice of the model, and the properties claimed are only sortedness and the multiset.
- Persistence: SwiftData and the `ModelContainer` lifecycle.
- Wiring: menus, commands, keyboard shortcuts and focused values.
- Table and list layout.
- Drag payload serialisation (`Transferable`).
- Previews, except as sample paths.
- The empty "New Collection" button of the app menu.
- Finder reveal through `NSWorkspace`. It changes no state and is modelled as a no-op.
- Callback closures. `CollectionRow.ViewModel.perform` and `CollectionView.ViewModel.perform` only forward their arguments to a closure. Here the sidebar's `Perform` and the window's handlers are called directly with the row's collection or the table's instrument.
- SwiftUI bindings.
  - The selected collection, shared through a binding, is one `CollectionSelection` object.
  - An alert dismissed by SwiftUI writes `false` to its flag through the binding; this is not modelled. `FlagsMatch` is stated after every assignment to the status.
- Observation. `onChange` and `onAppear` are operations that the caller invokes: `ResetSelection`, `UrlChanged` and `OnAppear`.
- Error logging with `print`.
- Collections.Collection: `id` is a `var` in Swift but is never reassigned, so it is a constant here, like the `private(set)` `url`.
