/** One sidebar row: what it lets the user do with its collection, and the
    drop of instruments onto it. */
module CollectionRows {
  import opened Wrappers
  import opened Seqs
  import opened Instruments
  import opened Collections
  import opened CollectionRowModels

  /** The name is an editable text field only for user collections. */
  predicate CanRename(c: Collection) {
    c.url.None? && !c.IsFavourites()
  }

  /** Only collections not read from disk are drop destinations. */
  predicate AcceptsDrops(c: Collection) {
    c.url.None?
  }

  /** The context menu offers "Show in Finder" for soundfonts ... */
  predicate OffersShowInFinder(c: Collection) {
    c.url.Some?
  }

  /** ... and "Delete" for user collections; the favourites get no menu entry. */
  predicate OffersDelete(c: Collection) {
    c.url.None? && !c.IsFavourites()
  }

  /** Each kind of row has its own icon and its own capabilities: a folder can
      be renamed, deleted and dropped on, a heart only dropped on, a waveform
      only shown in the Finder. */
  lemma CapabilitiesFollowIcon(c: Collection)
    ensures Icon(c) == "folder" <==> CanRename(c) && OffersDelete(c)
    ensures Icon(c) == "waveform" <==> OffersShowInFinder(c)
    ensures Icon(c) == "heart" <==> AcceptsDrops(c) && !OffersDelete(c) && !CanRename(c)
    ensures AcceptsDrops(c) <==> !OffersShowInFinder(c)
    ensures !(OffersDelete(c) && OffersShowInFinder(c))
  {
  }

  /** The favourites row offers no context-menu entry at all. */
  lemma FavouritesRowHasNoMenu(c: Collection)
    requires c.IsFavourites() && c.url.None?
    ensures !OffersDelete(c) && !OffersShowInFinder(c) && !CanRename(c) && AcceptsDrops(c)
  {
  }

  /** `contains(where:)` over the dropped batch: some dropped instrument is
      already a member. */
  predicate AnyMember(dropped: seq<Instrument>, members: seq<Instrument>)
    ensures AnyMember(dropped, members) <==> exists k :: 0 <= k < |dropped| && dropped[k] in members
  {
    if dropped == [] then false
    else
      assert forall k :: 1 <= k < |dropped| ==> dropped[k] == dropped[1..][k - 1];
      assert forall k :: 0 <= k < |dropped[1..]| ==> dropped[1..][k] == dropped[k + 1];
      dropped[0] in members || AnyMember(dropped[1..], members)
  }

  /** The drop handler: refused as a whole when any dropped instrument is
      already a member, otherwise every dropped instrument is appended in
      order. */
  method Drop(c: Collection, dropped: seq<Instrument>) returns (accepted: bool)
    requires AcceptsDrops(c)
    modifies c
    ensures accepted <==> forall k :: 0 <= k < |dropped| ==> dropped[k] !in old(c.instruments)
    ensures c.instruments == if accepted then old(c.instruments) + dropped else old(c.instruments)
    ensures c.name == old(c.name)
  {
    if AnyMember(dropped, c.instruments) {
      return false;
    }
    for i := 0 to |dropped|
      invariant c.instruments == old(c.instruments) + dropped[..i]
      invariant c.name == old(c.name)
    {
      c.instruments := c.instruments + [dropped[i]];
    }
    assert dropped[..|dropped|] == dropped;
    return true;
  }

  /** An accepted drop keeps a duplicate-free collection duplicate-free when
      the batch itself holds no instrument twice. */
  lemma DropKeepsDistinct(members: seq<Instrument>, dropped: seq<Instrument>)
    requires NoDuplicates(members) && NoDuplicates(dropped)
    requires !AnyMember(dropped, members)
    ensures NoDuplicates(members + dropped)
  {
    ConcatKeepsDistinct(members, dropped);
  }

  /** The membership test does not look inside the batch: the same instrument
      dropped twice onto an empty collection is accepted and lands twice. */
  lemma DropOfRepeatedInstrument(i: Instrument)
    ensures !AnyMember([i, i], [])
    ensures !NoDuplicates([] + [i, i])
  {
    assert ([] + [i, i])[0] == ([] + [i, i])[1];
  }

  /** Editing the name field of a user collection. */
  method Rename(c: Collection, name: string)
    requires CanRename(c)
    modifies c
    ensures c.name == name && c.instruments == old(c.instruments)
  {
    c.name := name;
  }
}
