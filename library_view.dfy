/** The library window: the sidebar with the selected collection, the table of
    its instruments with the selected instrument, the handler of the table's
    actions, and the places that drive the import flow. */
module LibraryViews {
  import opened Wrappers
  import opened Seqs
  import opened Instruments
  import opened Collections
  import opened Libraries
  import opened CollectionViews
  import opened ImportFlows
  import opened Sidebars

  /** The collection an action edits, if any. */
  function Target(action: Action): set<Collection> {
    if action.AddTo? || action.RemoveFrom? then {action.collection} else {}
  }

  class LibraryWindow {
    const library: Library
    const model: ImportFlow
    /** The selected collection, which the sidebar shares through a binding. */
    const selectedCollection: CollectionSelection
    const sidebar: Sidebar
    var selectedInstrument: Option<Instrument>

    /** A new window: the import flow idle, nothing selected, and a sidebar
        bound to the same selection. */
    constructor (library: Library)
      ensures this.library == library && fresh(model) && fresh(selectedCollection) && fresh(sidebar)
      ensures model.importStatus == Idle && model.FlagsMatch()
      ensures selectedCollection.value == None && selectedInstrument == None
      ensures sidebar.library == library && sidebar.selection == selectedCollection
    {
      this.library := library;
      model := new ImportFlow();
      var selection := new CollectionSelection();
      selectedCollection := selection;
      sidebar := new Sidebar(library, selection);
      selectedInstrument := None;
    }

    // The table's action handler

    /** `.addTo`: the instrument is appended, whether or not it is already
        a member. */
    method AddTo(instrument: Instrument, c: Collection)
      modifies c
      ensures c.instruments == old(c.instruments) + [instrument]
      ensures c.name == old(c.name)
    {
      c.instruments := c.instruments + [instrument];
    }

    /** `.addToNewCollection`: a fresh collection holding just the instrument
        joins the user collections and becomes the selection. */
    method AddToNewCollection(instrument: Instrument, id: Uuid) returns (c: Collection)
      modifies library, selectedCollection
      ensures fresh(c) && c.id == id && c.name == DefaultName && c.url == None && c.instruments == [instrument]
      ensures library.userCollections == old(library.userCollections) + [c]
      ensures selectedCollection.value == Some(c)
      ensures library.soundfonts == old(library.soundfonts) && library.favourites == old(library.favourites)
      ensures library.url == old(library.url)
    {
      c := new Collection(DefaultName, [instrument], None, id);
      library.userCollections := library.userCollections + [c];
      selectedCollection.value := Some(c);
    }

    /** `.removeFrom`: every occurrence goes, and the instrument is no longer
        selected if it was. */
    method RemoveFrom(instrument: Instrument, c: Collection)
      modifies this, c
      ensures c.instruments == RemoveAll(old(c.instruments), instrument) && c.name == old(c.name)
      ensures selectedInstrument == if old(selectedInstrument) == Some(instrument) then None else old(selectedInstrument)
    {
      c.instruments := RemoveAll(c.instruments, instrument);
      if selectedInstrument == Some(instrument) {
        selectedInstrument := None;
      }
    }

    /** The closure handed to the collection table. A new collection takes
        the identity `newId`; revealing in the Finder changes no state. */
    method HandleAction(instrument: Instrument, action: Action, newId: Uuid)
      modifies this, library, selectedCollection, Target(action)
      ensures action.AddTo? ==>
        action.collection.instruments == old(action.collection.instruments) + [instrument]
        && action.collection.name == old(action.collection.name)
        && unchanged(this, library, selectedCollection)
      ensures action.RemoveFrom? ==>
        action.collection.instruments == RemoveAll(old(action.collection.instruments), instrument)
        && action.collection.name == old(action.collection.name)
        && selectedInstrument == (if old(selectedInstrument) == Some(instrument) then None else old(selectedInstrument))
        && unchanged(library, selectedCollection)
      ensures action.AddToNewCollection? ==>
        |library.userCollections| == |old(library.userCollections)| + 1
        && library.userCollections[..|old(library.userCollections)|] == old(library.userCollections)
        && var c := library.userCollections[|old(library.userCollections)|];
        fresh(c) && c.id == newId && c.name == DefaultName && c.url == None && c.instruments == [instrument]
        && selectedCollection.value == Some(c)
        && library.soundfonts == old(library.soundfonts) && library.favourites == old(library.favourites)
        && library.url == old(library.url) && unchanged(this)
      ensures action.ShowInFinder? ==> unchanged(this, library, selectedCollection)
    {
      match action
      case AddTo(c) =>
        AddTo(instrument, c);
      case AddToNewCollection =>
        var c := AddToNewCollection(instrument, newId);
      case RemoveFrom(c) =>
        RemoveFrom(instrument, c);
      case ShowInFinder =>
    }

    /** The favourite button of the table: a favourite is removed from the
        favourites, with the selection cleared if it was that instrument, and
        anything else is appended. So it flips whether the instrument is a
        favourite, and the favourites never gain a duplicate from it. */
    method PressFavourite(instrument: Option<Instrument>)
      modifies this, library.favourites
      ensures instrument.Some? && !old(IsFavourite(instrument, library)) ==>
        library.favourites.instruments == old(library.favourites.instruments) + [instrument.value]
        && selectedInstrument == old(selectedInstrument)
      ensures instrument.Some? && old(IsFavourite(instrument, library)) ==>
        library.favourites.instruments == RemoveAll(old(library.favourites.instruments), instrument.value)
        && selectedInstrument == (if old(selectedInstrument) == instrument then None else old(selectedInstrument))
      ensures library.favourites.name == old(library.favourites.name)
      ensures instrument.Some? ==> IsFavourite(instrument, library) == !old(IsFavourite(instrument, library))
      ensures instrument.None? ==> unchanged(this, library.favourites)
      ensures old(NoDuplicates(library.favourites.instruments)) ==> NoDuplicates(library.favourites.instruments)
    {
      var action := FavouriteAction(instrument, library);
      if action.None? {
        return;
      }
      var favourites := library.favourites;
      if action.value.AddTo? {
        if NoDuplicates(favourites.instruments) {
          AppendAbsentKeepsDistinct(favourites.instruments, instrument.value);
        }
        AddTo(instrument.value, favourites);
      } else {
        if NoDuplicates(favourites.instruments) {
          RemoveAllKeepsDistinct(favourites.instruments, instrument.value);
        }
        RemoveFrom(instrument.value, favourites);
      }
    }

    /** The toggle of a user collection in the table's menu: on appends the
        instrument, off removes every occurrence and clears the selection if it
        was that instrument. Afterwards the instrument is a member exactly when
        the toggle was set on. Turning on a toggle that is already on appends a
        second copy; a toggle that flips keeps the collection free of
        duplicates. */
    method SetMembership(instrument: Option<Instrument>, c: Collection, on: bool)
      modifies this, c
      ensures instrument.Some? && on ==>
        c.instruments == old(c.instruments) + [instrument.value] && selectedInstrument == old(selectedInstrument)
      ensures instrument.Some? && !on ==>
        c.instruments == RemoveAll(old(c.instruments), instrument.value)
        && selectedInstrument == (if old(selectedInstrument) == instrument then None else old(selectedInstrument))
      ensures c.name == old(c.name)
      ensures instrument.Some? ==> IsMember(instrument, c) == on
      ensures instrument.None? ==> unchanged(this, c)
      ensures old(NoDuplicates(c.instruments)) && (on ==> !old(IsMember(instrument, c))) ==> NoDuplicates(c.instruments)
    {
      var action := ToggleAction(instrument, c, on);
      if action.None? {
        return;
      }
      if on {
        if !IsMember(instrument, c) && NoDuplicates(c.instruments) {
          AppendAbsentKeepsDistinct(c.instruments, instrument.value);
        }
        AddTo(instrument.value, c);
      } else {
        if NoDuplicates(c.instruments) {
          RemoveAllKeepsDistinct(c.instruments, instrument.value);
        }
        RemoveFrom(instrument.value, c);
      }
    }

    // The import flow

    /** The alerts' "Select" button and a cancelled picker advance the flow
        with no outcome. */
    method Select()
      modifies model
      ensures Next(old(model.importStatus), None).None? ==> unchanged(model)
      ensures Next(old(model.importStatus), None).Some? ==>
        model.importStatus == Next(old(model.importStatus), None).value && model.FlagsMatch()
    {
      model.Advance(None);
    }

    /** The picker returned folders: the first becomes the library's
        directory, unless it cannot be accessed, in which case the directory is
        cleared; then the library loads; the flow advances with `Success`
        when the load succeeds and with `Failure` when it throws. */
    method ImportPicked(urls: seq<string>, canAccess: bool, fs: FileSystem, mint: nat -> Uuid)
      returns (err: Option<LibraryError>)
      modifies library, model
      ensures library.url == if urls == [] || !canAccess then None else Some(urls[0])
      ensures urls == [] || !canAccess ==> err == Some(NoAccess) && library.soundfonts == old(library.soundfonts)
      ensures urls != [] && canAccess && (!fs.sf2Exists || fs.listing.None?) ==>
        err == Some(InvalidFiles) && library.soundfonts == old(library.soundfonts)
      ensures urls != [] && canAccess && fs.sf2Exists && fs.listing.Some? ==>
        var entries := Scan(Sf2Path(urls[0]), fs.listing.value);
        err.None? && |library.soundfonts| == |entries|
        && forall k :: 0 <= k < |library.soundfonts| ==> Loaded(library.soundfonts[k], entries[k], mint(k))
      ensures library.favourites == old(library.favourites) && library.userCollections == old(library.userCollections)
      ensures var outcome := Some(if err.None? then Success else Failure);
        Next(old(model.importStatus), outcome).Some? ==>
        model.importStatus == Next(old(model.importStatus), outcome).value && model.FlagsMatch()
      ensures var outcome := Some(if err.None? then Success else Failure);
        Next(old(model.importStatus), outcome).None? ==> unchanged(model)
      ensures old(model.importStatus) == Importing ==> model.importStatus == if err.None? then Success else Failure
      ensures old(model.importStatus) == Success ==> model.importStatus == Success
    {
      if urls == [] || !canAccess {
        library.url := None;
      } else {
        library.url := Some(urls[0]);
      }
      err := library.LoadSoundfonts(canAccess, fs, mint);
      if err.None? {
        model.Advance(Some(Success));
      } else {
        model.Advance(Some(Failure));
      }
    }

    /** The picker itself failed. */
    method ImportFailed()
      modifies model
      ensures old(model.importStatus) == Importing ==> model.importStatus == Failure && model.FlagsMatch()
      ensures Next(old(model.importStatus), Some(Failure)).Some? ==>
        model.importStatus == Next(old(model.importStatus), Some(Failure)).value && model.FlagsMatch()
      ensures Next(old(model.importStatus), Some(Failure)).None? ==> unchanged(model)
    {
      model.Advance(Some(Failure));
    }

    /** On appear: without a library directory the flow starts; with one the
        library loads, and a load that throws shows the failure alert. */
    method OnAppear(canAccess: bool, fs: FileSystem, mint: nat -> Uuid) returns (err: Option<LibraryError>)
      modifies library, model
      ensures library.url == old(library.url)
      ensures library.url.None? ==> err.None? && unchanged(library)
      ensures library.url.None? && Next(old(model.importStatus), None).Some? ==>
        model.importStatus == Next(old(model.importStatus), None).value && model.FlagsMatch()
      ensures library.url.None? && Next(old(model.importStatus), None).None? ==> unchanged(model)
      ensures library.url.Some? && !canAccess ==> err == Some(NoAccess)
      ensures library.url.Some? && canAccess && (!fs.sf2Exists || fs.listing.None?) ==> err == Some(InvalidFiles)
      ensures library.url.Some? && err.Some? ==>
        library.soundfonts == old(library.soundfonts) && model.importStatus == Failure && model.FlagsMatch()
      ensures library.url.Some? && err.None? ==> unchanged(model)
      ensures library.url.Some? && canAccess && fs.sf2Exists && fs.listing.Some? ==>
        var entries := Scan(Sf2Path(library.url.value), fs.listing.value);
        err.None? && |library.soundfonts| == |entries|
        && forall k :: 0 <= k < |library.soundfonts| ==> Loaded(library.soundfonts[k], entries[k], mint(k))
      ensures library.favourites == old(library.favourites) && library.userCollections == old(library.userCollections)
    {
      if library.url.None? {
        model.Advance(None);
        return None;
      }
      err := library.LoadSoundfonts(canAccess, fs, mint);
      if err.Some? {
        model.SetStatus(Failure);
      }
    }

    /** Another window imported a library: the flow is dismissed. */
    method UrlChanged(newValue: Option<string>)
      modifies model
      ensures newValue.Some? ==> model.importStatus == Idle && model.FlagsMatch()
      ensures newValue.None? ==> unchanged(model)
    {
      if newValue.Some? {
        model.SetStatus(Idle);
      }
    }
  }
}
