/** The sidebar: the soundfonts, the favourites and the user collections,
    one of which is selected; rows ask it to delete a user collection. */
module Sidebars {
  import opened Wrappers
  import opened Collections
  import opened Libraries
  import opened CollectionRowModels

  /** The selected collection, shared between the window and its sidebar. */
  class CollectionSelection {
    var value: Option<Collection>

    constructor ()
      ensures value == None
    {
      value := None;
    }
  }

  /** `firstIndex(of:)` with collection `==`: the first position holding a
      collection with the same identity, or `|s|` when there is none. */
  function IndexOfCollection(s: seq<Collection>, c: Collection): (k: nat)
    ensures k <= |s|
    ensures k < |s| ==> SameCollection(s[k], c)
    ensures forall j :: 0 <= j < k ==> !SameCollection(s[j], c)
  {
    if s == [] then 0
    else if SameCollection(s[0], c) then 0
    else 1 + IndexOfCollection(s[1..], c)
  }

  /** The user collections after deleting `c`: the first entry with its
      identity is removed, and nothing when there is none. */
  function DeletedList(s: seq<Collection>, c: Collection): seq<Collection> {
    var k := IndexOfCollection(s, c);
    if k < |s| then s[..k] + s[k + 1..] else s
  }

  /** The selection after deleting `c`: a selected `c` passes to the entry
      before it, or to the favourites when it was first. */
  function SelectionAfterDelete(s: seq<Collection>, c: Collection, selected: Option<Collection>, favourites: Collection): Option<Collection>
  {
    var k := IndexOfCollection(s, c);
    if k < |s| && selected.Some? && SameCollection(selected.value, c) then
      Some(if k >= 1 then s[k - 1] else favourites)
    else selected
  }

  /** Deleting a collection that is not a user collection, such as the
      favourites or a soundfont, changes nothing. */
  lemma DeleteAbsent(s: seq<Collection>, c: Collection, selected: Option<Collection>, favourites: Collection)
    requires forall j :: 0 <= j < |s| ==> !SameCollection(s[j], c)
    ensures DeletedList(s, c) == s
    ensures SelectionAfterDelete(s, c, selected, favourites) == selected
  {
  }

  /** Deleting a user collection removes exactly one entry, the first with
      its identity. */
  lemma DeleteRemovesOne(s: seq<Collection>, c: Collection)
    requires exists j :: 0 <= j < |s| && SameCollection(s[j], c)
    ensures IndexOfCollection(s, c) < |s|
    ensures |DeletedList(s, c)| == |s| - 1
    ensures multiset(DeletedList(s, c)) + multiset{s[IndexOfCollection(s, c)]} == multiset(s)
  {
    var k := IndexOfCollection(s, c);
    var j :| 0 <= j < |s| && SameCollection(s[j], c);
    assert k <= j;
    assert s == s[..k] + [s[k]] + s[k + 1..];
  }

  /** Deleting keeps the other entries in order: those before the deleted one
      stay where they are, those after it move up by one. */
  lemma DeleteKeepsOrder(s: seq<Collection>, c: Collection)
    ensures forall j :: 0 <= j < IndexOfCollection(s, c) ==> DeletedList(s, c)[j] == s[j]
    ensures forall j :: IndexOfCollection(s, c) <= j < |DeletedList(s, c)| ==> DeletedList(s, c)[j] == s[j + 1]
  {
    var k := IndexOfCollection(s, c);
    var r := DeletedList(s, c);
    if k < |s| {
      forall i | k <= i < |r|
        ensures r[i] == s[i + 1]
      {
        assert r[i] == s[k + 1..][i - k];
      }
    }
  }

  /** The selection after a delete is never the deleted collection when user
      collections have distinct identities and the favourites is not one of
      them: it is still listed, or it is the favourites. */
  lemma {:induction false} SelectionSurvivesDelete(s: seq<Collection>, c: Collection, selected: Option<Collection>, favourites: Collection)
    requires selected.Some? && SameCollection(selected.value, c)
    requires exists j :: 0 <= j < |s| && SameCollection(s[j], c)
    requires forall i, j :: 0 <= i < j < |s| ==> !SameCollection(s[i], s[j])
    requires !SameCollection(favourites, c)
    ensures var r := SelectionAfterDelete(s, c, selected, favourites);
      r.Some? && !SameCollection(r.value, c)
      && (r.value in DeletedList(s, c) || r.value == favourites)
    ensures var k := IndexOfCollection(s, c);
      SelectionAfterDelete(s, c, selected, favourites) == Some(if k >= 1 then s[k - 1] else favourites)
  {
    var k := IndexOfCollection(s, c);
    if k >= 1 {
      assert DeletedList(s, c)[k - 1] == s[k - 1];
    }
  }

  /** The sidebar view: the library it lists and the selection it shares. */
  class Sidebar {
    const library: Library
    const selection: CollectionSelection

    constructor (library: Library, selection: CollectionSelection)
      ensures this.library == library && this.selection == selection
    {
      this.library := library;
      this.selection := selection;
    }

    /** The "New Collection" menu entry: a fresh default collection is
        appended to the user collections and selected. */
    method NewCollection(id: Uuid) returns (c: Collection)
      modifies library, selection
      ensures fresh(c) && c.id == id && c.name == DefaultName && c.url == None && c.instruments == []
      ensures library.userCollections == old(library.userCollections) + [c]
      ensures selection.value == Some(c)
      ensures library.soundfonts == old(library.soundfonts) && library.favourites == old(library.favourites)
      ensures library.url == old(library.url)
    {
      c := new Collection.Default(id);
      library.userCollections := library.userCollections + [c];
      selection.value := Some(c);
    }

    /** `resetSelection`, run on appear and whenever the soundfonts change:
        the first soundfont, or the favourites when there is none. */
    method ResetSelection()
      modifies selection
      ensures selection.value.Some?
      ensures |library.soundfonts| > 0 ==> selection.value == Some(library.soundfonts[0])
      ensures library.soundfonts == [] ==> selection.value == Some(library.favourites)
    {
      if |library.soundfonts| > 0 {
        selection.value := Some(library.soundfonts[0]);
      } else {
        selection.value := Some(library.favourites);
      }
    }

    /** `perform(collection:action:)`, the callback of every row. Revealing in
        the Finder changes no state. */
    method Perform(collection: Collection, action: RowAction)
      modifies library, selection
      ensures action == ShowInFinder ==> unchanged(library, selection)
      ensures action == Delete ==>
        library.userCollections == DeletedList(old(library.userCollections), collection)
        && selection.value == SelectionAfterDelete(old(library.userCollections), collection, old(selection.value), library.favourites)
      ensures library.soundfonts == old(library.soundfonts) && library.favourites == old(library.favourites)
      ensures library.url == old(library.url)
    {
      match action
      case Delete =>
        var index: int := IndexOfCollection(library.userCollections, collection);
        if index == |library.userCollections| {
          return;
        }
        if selection.value.Some? && SameCollection(selection.value.value, collection) {
          if index - 1 >= 0 {
            selection.value := Some(library.userCollections[index - 1]);
          } else {
            selection.value := Some(library.favourites);
          }
        }
        library.userCollections := library.userCollections[..index] + library.userCollections[index + 1..];
      case ShowInFinder =>
    }
  }
}
