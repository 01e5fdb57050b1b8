/** The model behind the instrument table of one collection: the search
    filter, the favourite state of an instrument, which action each menu entry
    asks for, and the lookup from a selected row identity to its instrument. */
module CollectionViews {
  import opened Wrappers
  import opened Seqs
  import opened Strings
  import opened Instruments
  import opened Collections
  import opened Libraries

  /** What the table can ask the library view to do with an instrument. */
  datatype Action = AddTo(collection: Collection) | AddToNewCollection | RemoveFrom(collection: Collection) | ShowInFinder

  // Search

  /** The query as it is compared: whitespace trimmed, lower-cased. */
  function CleanFilter(filter: string): (r: string)
    ensures r == [] <==> IsBlank(filter)
  {
    Lowercased(Trimmed(filter))
  }

  /** The lower-cased name, the number or the bank, each as text, contains
      the cleaned query. */
  predicate Matches(i: Instrument, clean: string) {
    Contains(Lowercased(Name(i)), clean) || Contains(IntToString(Number(i)), clean)
    || Contains(IntToString(Bank(i)), clean)
  }

  /** The filter closure: every instrument passes a blank query. */
  predicate Keeps(i: Instrument, filter: string) {
    var clean := CleanFilter(filter);
    clean == [] || Matches(i, clean)
  }

  /** `getFilteredInstruments(with:)`: the instruments of the collection that
      pass the query, in collection order. */
  function FilteredInstruments(c: Collection, filter: string): (r: seq<Instrument>)
    reads c
    ensures IsSubsequence(r, c.instruments)
    ensures IsBlank(filter) ==> r == c.instruments
    ensures forall i :: i in r <==> i in c.instruments && (IsBlank(filter) || Matches(i, CleanFilter(filter)))
    ensures forall i :: multiset(r)[i] == if Keeps(i, filter) then multiset(c.instruments)[i] else 0
  {
    var keep := i => Keeps(i, filter);
    FilterIsSubsequence(c.instruments, keep);
    if IsBlank(filter) then
      FilterKeepsAll(c.instruments, keep);
      Filter(c.instruments, keep)
    else
      Filter(c.instruments, keep)
  }

  /** Typing an instrument's number finds it; numbers are unpadded and a
      number that did not parse is found by typing `-1`. */
  lemma FindsByNumber(c: Collection, i: Instrument)
    requires i in c.instruments
    ensures i in FilteredInstruments(c, IntToString(Number(i)))
  {
    CleanNumber(Number(i));
    SelfContains(IntToString(Number(i)));
  }

  /** Typing an instrument's bank finds it. */
  lemma FindsByBank(c: Collection, i: Instrument)
    requires i in c.instruments
    ensures i in FilteredInstruments(c, IntToString(Bank(i)))
  {
    CleanNumber(Bank(i));
    SelfContains(IntToString(Bank(i)));
  }

  /** The text of a number is already clean: no blanks, no capitals. */
  lemma CleanNumber(n: int)
    ensures CleanFilter(IntToString(n)) == IntToString(n)
  {
    var s := IntToString(n);
    NumberCharacters(n);
    TrimmedUnchanged(s);
    LowercasedUnchanged(s);
  }

  /** The text of a number is a sign and digits. */
  lemma NumberCharacters(n: int)
    ensures IntToString(n) != []
    ensures forall k :: 0 <= k < |IntToString(n)| ==> IntToString(n)[k] == '-' || IsDigit(IntToString(n)[k])
  {
    if n < 0 {
      var s := IntToString(n);
      var digits := NatToString(-n);
      assert forall k :: 1 <= k < |s| ==> s[k] == digits[k - 1];
    }
  }

  lemma SelfContains(s: string)
    ensures Contains(s, s)
  {
    assert s[..|s|] == s;
  }

  // Favourites and collection membership

  /** `isFavourite(instrument:in:)`: no instrument is never a favourite. */
  predicate IsFavourite(instrument: Option<Instrument>, library: Library)
    reads library, library.favourites
  {
    instrument.Some? && instrument.value in library.favourites.instruments
  }

  /** The favourite button: remove a favourite, add anything else, and do
      nothing without an instrument. */
  function FavouriteAction(instrument: Option<Instrument>, library: Library): (r: Option<Action>)
    reads library, library.favourites
    ensures r.None? <==> instrument.None?
    ensures r.Some? ==> (r.value.AddTo? || r.value.RemoveFrom?) && r.value.collection == library.favourites
    ensures r.Some? ==> (r.value.RemoveFrom? <==> IsFavourite(instrument, library))
    ensures r.Some? ==> (r.value.AddTo? <==> !IsFavourite(instrument, library))
  {
    if instrument.None? then None
    else if IsFavourite(instrument, library) then Some(RemoveFrom(library.favourites))
    else Some(AddTo(library.favourites))
  }

  /** The getter of a user collection's toggle: the instrument is in it. */
  predicate IsMember(instrument: Option<Instrument>, c: Collection)
    reads c
  {
    instrument.Some? && instrument.value in c.instruments
  }

  /** The setter of a user collection's toggle: on adds, off removes, and
      nothing happens without an instrument. */
  function ToggleAction(instrument: Option<Instrument>, c: Collection, on: bool): (r: Option<Action>)
    ensures r.None? <==> instrument.None?
    ensures r.Some? ==> (r.value.AddTo? <==> on) && (r.value.RemoveFrom? <==> !on)
    ensures r.Some? ==> (r.value.AddTo? || r.value.RemoveFrom?) && r.value.collection == c
  {
    if instrument.None? then None
    else if on then Some(AddTo(c))
    else Some(RemoveFrom(c))
  }

  /** The "New Collection" entry of the collections menu. */
  function NewCollectionAction(instrument: Option<Instrument>): (r: Option<Action>)
    ensures r.None? <==> instrument.None?
    ensures r.Some? ==> r.value == AddToNewCollection
  {
    if instrument.None? then None else Some(AddToNewCollection)
  }

  // Selection by identity

  /** `first(where: { $0.id == id })`: the first instrument with that identity;
      a missing identity matches nothing. */
  function FirstWithId(instruments: seq<Instrument>, id: Option<string>): (r: Option<Instrument>)
    ensures r.None? <==> forall k :: 0 <= k < |instruments| ==> Some(Id(instruments[k])) != id
    ensures r.Some? ==> Some(Id(r.value)) == id
    ensures r.Some? ==> exists k :: 0 <= k < |instruments| && instruments[k] == r.value &&
                          forall j :: 0 <= j < k ==> Some(Id(instruments[j])) != id
  {
    if instruments == [] then None
    else if Some(Id(instruments[0])) == id then Some(instruments[0])
    else
      var r := FirstWithId(instruments[1..], id);
      assert forall k :: 1 <= k < |instruments| ==> instruments[k] == instruments[1..][k - 1];
      if r.Some? then
        var k :| 0 <= k < |instruments[1..]| && instruments[1..][k] == r.value &&
                 forall j :: 0 <= j < k ==> Some(Id(instruments[1..][j])) != id;
        assert instruments[k + 1] == r.value;
        r
      else r
  }

  /** The table selects by identity: reading the selected instrument's
      identity and selecting by it gives that instrument back. */
  lemma SelectionRoundTrip(instruments: seq<Instrument>, i: Instrument)
    requires i in instruments
    ensures FirstWithId(instruments, Some(Id(i))) == Some(i)
  {
    var r := FirstWithId(instruments, Some(Id(i)));
    assert r.Some?;
    SameMeansEqual(r.value, i);
  }

  /** Clearing the table's selection clears the selected instrument. */
  lemma SelectNothing(instruments: seq<Instrument>)
    ensures FirstWithId(instruments, None) == None
  {
  }
}
