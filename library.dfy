/** The library: the soundfonts found in a sforzando library directory, the
    favourites and the user's own collections. Soundfonts live under
    `ARIAConverted/sf2/<name>_sf2/<bank>/<number>_<words>.sfz`. */
module Libraries {
  import opened Wrappers
  import opened Seqs
  import opened Strings
  import opened Instruments
  import opened Collections

  /** Why a load failed. */
  datatype LibraryError = NoAccess | InvalidFiles

  /** What the file manager reports below the library directory: whether
      `ARIAConverted/sf2` exists, and the relative paths of everything under it,
      at any depth, or `None` when enumeration fails. */
  datatype FileSystem = FileSystem(sf2Exists: bool, listing: Option<seq<string>>)

  /** The directory holding the converted soundfonts. */
  function Sf2Path(root: string): string {
    root + "/" + "ARIAConverted/sf2"
  }

  /** An entry directly under the sf2 directory whose name ends in `_sf2`. */
  predicate IsSoundfontDirectory(path: string) {
    HasSuffix(path, "_sf2") && '/' !in path
  }

  /** A `.sfz` file anywhere below the entry `dir`. */
  predicate InSoundfont(path: string, dir: string) {
    HasPrefix(path, dir + "/") && HasSuffix(path, ".sfz")
  }

  /** The soundfont entries of a listing, in listing order. */
  function SoundfontDirectories(paths: seq<string>): (dirs: seq<string>)
    ensures IsSubsequence(dirs, paths)
    ensures forall d :: d in dirs <==> d in paths && IsSoundfontDirectory(d)
    ensures forall d :: multiset(dirs)[d] == if IsSoundfontDirectory(d) then multiset(paths)[d] else 0
  {
    FilterIsSubsequence(paths, IsSoundfontDirectory);
    Filter(paths, IsSoundfontDirectory)
  }

  /** The display name of a soundfont entry: every `_sf2` removed, the rest
      split on `_` with empty pieces dropped, joined with spaces. */
  function SoundfontName(dir: string): (r: string)
    ensures '_' !in r
  {
    var words := Split(RemovingOccurrences(dir, "_sf2"), '_');
    JoinAvoids(words, " ", '_');
    Join(words, " ")
  }

  /** The instruments for some paths relative to the sf2 directory. */
  function InstrumentsAt(sf2: string, paths: seq<string>): (r: seq<Instrument>)
    ensures |r| == |paths|
    ensures forall k :: 0 <= k < |paths| ==> r[k] == Instrument(sf2 + "/" + paths[k])
  {
    seq(|paths|, k requires 0 <= k < |paths| => Instrument(sf2 + "/" + paths[k]))
  }

  /** The sort comparator: by bank, then by number within a bank. */
  predicate InIncreasingOrder(a: Instrument, b: Instrument) {
    if Bank(a) == Bank(b) then Number(a) < Number(b) else Bank(a) < Bank(b)
  }

  /** `a` may come before `b`: `b` is not strictly before `a`. */
  predicate MayPrecede(a: Instrument, b: Instrument) {
    !InIncreasingOrder(b, a)
  }

  /** Ascending by bank, then by number within equal banks. */
  predicate SortedByBankNumber(s: seq<Instrument>) {
    forall i, j :: 0 <= i < j < |s| ==> MayPrecede(s[i], s[j])
  }

  /** The comparator is a strict weak order whose incomparable pairs share
      bank and number: `MayPrecede` is the lexicographic order on them. */
  lemma MayPrecedeIsLexicographic(a: Instrument, b: Instrument, c: Instrument)
    ensures MayPrecede(a, b) <==> Bank(a) < Bank(b) || (Bank(a) == Bank(b) && Number(a) <= Number(b))
    ensures MayPrecede(a, b) || MayPrecede(b, a)
    ensures MayPrecede(a, b) && MayPrecede(b, c) ==> MayPrecede(a, c)
    ensures !InIncreasingOrder(a, a)
  {
  }

  lemma MayPrecedeIsTotal()
    ensures Total(MayPrecede)
  {
    forall a, b ensures MayPrecede(a, b) || MayPrecede(b, a) {
      MayPrecedeIsLexicographic(a, b, a);
    }
  }

  /** A sequence ordered pair by adjacent pair is ordered throughout, since
      the comparator is transitive. */
  lemma {:induction false} ChainIsSorted(s: seq<Instrument>)
    requires SortedBy(s, MayPrecede)
    ensures SortedByBankNumber(s)
  {
    if |s| > 1 {
      var init := s[..|s| - 1];
      assert SortedBy(init, MayPrecede) by {
        forall i | 0 < i < |init| ensures MayPrecede(init[i - 1], init[i]) {
          assert init[i - 1] == s[i - 1] && init[i] == s[i];
        }
      }
      ChainIsSorted(init);
      forall i, j | 0 <= i < j < |s| ensures MayPrecede(s[i], s[j]) {
        if j < |s| - 1 {
          assert s[i] == init[i] && s[j] == init[j];
        } else if i < j - 1 {
          assert MayPrecede(init[i], init[j - 1]);
          MayPrecedeIsLexicographic(s[i], s[j - 1], s[j]);
        }
      }
    }
  }

  /** The scan's sort by bank then number. Swift's `sorted` is not guaranteed stable,
      so this alone is promised of the order: sorted, and a permutation. */
  function SortByBankNumber(s: seq<Instrument>): (r: seq<Instrument>)
    ensures SortedByBankNumber(r)
    ensures multiset(r) == multiset(s)
  {
    MayPrecedeIsTotal();
    var r := SortBy(s, MayPrecede);
    ChainIsSorted(r);
    r
  }

  /** What the scan finds for one soundfont entry: its name, its directory and
      its `.sfz` files sorted by bank and number. */
  datatype SoundfontEntry = SoundfontEntry(name: string, url: string, members: seq<Instrument>)

  /** The listed `.sfz` files below the entry `dir`, in listing order. */
  function SoundfontFiles(paths: seq<string>, dir: string): (files: seq<string>)
    ensures forall p :: p in files <==> p in paths && InSoundfont(p, dir)
    ensures forall p :: multiset(files)[p] == if InSoundfont(p, dir) then multiset(paths)[p] else 0
  {
    Filter(paths, p => InSoundfont(p, dir))
  }

  /** One pass of the scan: the name, directory and sorted instruments of the
      entry `dir`. */
  function Entry(sf2: string, paths: seq<string>, dir: string): SoundfontEntry {
    SoundfontEntry(SoundfontName(dir), sf2 + "/" + dir, SortByBankNumber(InstrumentsAt(sf2, SoundfontFiles(paths, dir))))
  }

  /** One entry per soundfont directory of the listing, in listing order. */
  function Scan(sf2: string, paths: seq<string>): (r: seq<SoundfontEntry>)
    ensures |r| == |SoundfontDirectories(paths)|
  {
    ScanFrom(sf2, paths, SoundfontDirectories(paths))
  }

  /** The entries for the directories `dirs`, in order. */
  function ScanFrom(sf2: string, paths: seq<string>, dirs: seq<string>): (r: seq<SoundfontEntry>)
    ensures |r| == |dirs|
  {
    if dirs == [] then [] else [Entry(sf2, paths, dirs[0])] + ScanFrom(sf2, paths, dirs[1..])
  }

  /** The k-th entry of the scan is the entry for the k-th soundfont directory. */
  lemma {:induction false} ScanFromAt(sf2: string, paths: seq<string>, dirs: seq<string>, k: nat)
    requires k < |dirs|
    ensures ScanFrom(sf2, paths, dirs)[k] == Entry(sf2, paths, dirs[k])
  {
    if k > 0 {
      ScanFromAt(sf2, paths, dirs[1..], k - 1);
    }
  }

  /** The k-th entry of the scan belongs to the k-th soundfont directory of the
      listing. */
  lemma ScanAt(sf2: string, paths: seq<string>, k: nat)
    requires k < |SoundfontDirectories(paths)|
    ensures Scan(sf2, paths)[k] == Entry(sf2, paths, SoundfontDirectories(paths)[k])
  {
    ScanFromAt(sf2, paths, SoundfontDirectories(paths), k);
  }

  /** A collection holds what the scan found for its entry: same name, same
      directory, the given identity and the entry's sorted instruments. */
  predicate Loaded(c: Collection, e: SoundfontEntry, id: Uuid)
    reads c
  {
    c.name == e.name && c.url == Some(e.url) && c.id == id && c.instruments == e.members
  }

  /** `==` on collection arrays: same length and equal element by element. */
  predicate SameList(s: seq<Collection>, t: seq<Collection>) {
    |s| == |t| && forall k :: 0 <= k < |s| ==> SameCollection(s[k], t[k])
  }

  class Library {
    /** The soundfonts found by the last load; not persisted. */
    var soundfonts: seq<Collection>
    var favourites: Collection
    var userCollections: seq<Collection>
    /** The library directory, when its bookmark resolves. */
    var url: Option<string>

    /** A new library: no soundfonts, no user collections, no directory, and
        an empty favourites collection with the fixed favourites identity. */
    constructor ()
      ensures soundfonts == [] && userCollections == [] && url == None
      ensures fresh(favourites) && favourites.IsFavourites()
      ensures favourites.name == "Favourites" && favourites.instruments == [] && favourites.url == None
    {
      soundfonts := [];
      favourites := new Collection("Favourites", [], None, FavouritesId);
      userCollections := [];
      url := None;
    }

    /** The initializer that takes all three lists. */
    constructor With(soundfonts: seq<Collection>, favourites: Collection, userCollections: seq<Collection>)
      ensures this.soundfonts == soundfonts && this.favourites == favourites
      ensures this.userCollections == userCollections && url == None
    {
      this.soundfonts := soundfonts;
      this.favourites := favourites;
      this.userCollections := userCollections;
      url := None;
    }

    /** `loadSoundfonts`: the scan below runs only through `accessFiles`, which
        fails with `NoAccess` when there is no directory or no access. */
    method LoadSoundfonts(canAccess: bool, fs: FileSystem, mint: nat -> Uuid) returns (err: Option<LibraryError>)
      modifies this
      ensures url.None? || !canAccess ==> err == Some(NoAccess) && soundfonts == old(soundfonts)
      ensures url.Some? && canAccess && (!fs.sf2Exists || fs.listing.None?) ==>
        err == Some(InvalidFiles) && soundfonts == old(soundfonts)
      ensures url.Some? && canAccess && fs.sf2Exists && fs.listing.Some? ==>
        var entries := Scan(Sf2Path(url.value), fs.listing.value);
        err.None? && |soundfonts| == |entries|
        && forall k :: 0 <= k < |soundfonts| ==> fresh(soundfonts[k]) && Loaded(soundfonts[k], entries[k], mint(k))
      ensures favourites == old(favourites) && userCollections == old(userCollections) && url == old(url)
    {
      if url.None? || !canAccess {
        return Some(NoAccess);
      }
      err := ReadSoundfonts(Sf2Path(url.value), fs, mint);
    }

    /** The closure `loadSoundfonts` hands to `accessFiles`. */
    method ReadSoundfonts(sf2: string, fs: FileSystem, mint: nat -> Uuid) returns (err: Option<LibraryError>)
      modifies this
      ensures !fs.sf2Exists || fs.listing.None? ==> err == Some(InvalidFiles) && soundfonts == old(soundfonts)
      ensures fs.sf2Exists && fs.listing.Some? ==>
        var entries := Scan(sf2, fs.listing.value);
        err.None? && |soundfonts| == |entries|
        && forall k :: 0 <= k < |soundfonts| ==> fresh(soundfonts[k]) && Loaded(soundfonts[k], entries[k], mint(k))
      ensures favourites == old(favourites) && userCollections == old(userCollections) && url == old(url)
    {
      if !fs.sf2Exists || fs.listing.None? {
        return Some(InvalidFiles);
      }
      ReplaceSoundfonts(Scan(sf2, fs.listing.value), mint);
      return None;
    }

    /** The scan loop: `soundfonts` is emptied, then one fresh collection per
        entry is appended, in order. */
    method ReplaceSoundfonts(entries: seq<SoundfontEntry>, mint: nat -> Uuid)
      modifies this
      ensures |soundfonts| == |entries|
      ensures forall k :: 0 <= k < |soundfonts| ==> fresh(soundfonts[k]) && Loaded(soundfonts[k], entries[k], mint(k))
      ensures favourites == old(favourites) && userCollections == old(userCollections) && url == old(url)
    {
      soundfonts := [];
      for i := 0 to |entries|
        invariant |soundfonts| == i
        invariant forall k :: 0 <= k < i ==> fresh(soundfonts[k]) && Loaded(soundfonts[k], entries[k], mint(k))
        invariant favourites == old(favourites) && userCollections == old(userCollections) && url == old(url)
      {
        var e := entries[i];
        var c := new Collection(e.name, e.members, Some(e.url), mint(i));
        soundfonts := soundfonts + [c];
      }
    }
  }

  /** `==` on libraries compares the three lists, never the directory. */
  predicate Equal(a: Library, b: Library)
    reads a, b
  {
    SameList(a.soundfonts, b.soundfonts) && SameCollection(a.favourites, b.favourites)
    && SameList(a.userCollections, b.userCollections)
  }

  /** Library `==` is an equivalence. */
  lemma EqualIsEquivalence(a: Library, b: Library, c: Library)
    ensures Equal(a, a)
    ensures Equal(a, b) ==> Equal(b, a)
    ensures Equal(a, b) && Equal(b, c) ==> Equal(a, c)
  {
  }

  /** Two soundfont entries can never claim the same path: entry names hold
      no `/`, so the first `/` of the path fixes the entry. */
  lemma NoPathInTwoSoundfonts(path: string, d1: string, d2: string)
    requires IsSoundfontDirectory(d1) && IsSoundfontDirectory(d2)
    requires InSoundfont(path, d1) && InSoundfont(path, d2)
    ensures d1 == d2
  {
    if |d1| <= |d2| {
      ShorterEntryIsSame(path, d1, d2);
    } else {
      ShorterEntryIsSame(path, d2, d1);
    }
  }

  lemma ShorterEntryIsSame(path: string, d1: string, d2: string)
    requires '/' !in d2 && |d1| <= |d2|
    requires HasPrefix(path, d1 + "/") && HasPrefix(path, d2 + "/")
    ensures d1 == d2
  {
    assert path[|d1|] == (d1 + "/")[|d1|];
    if |d1| < |d2| {
      assert false;
    }
    assert d1 == (d1 + "/")[..|d1|] == path[..|d1|] == (d2 + "/")[..|d2|];
  }

  /** Appending to a common prefix is injective. */
  lemma PrefixCancels(a: string, x: string, y: string)
    ensures a + x == a + y <==> x == y
  {
    if a + x == a + y {
      assert x == (a + x)[|a|..] && y == (a + y)[|a|..];
    }
  }

  /** The instruments of an entry are exactly the `.sfz` files below its
      directory: a path is a member iff it is listed and lies in the entry. */
  lemma MemberIffInSoundfont(sf2: string, paths: seq<string>, dir: string, path: string)
    ensures Instrument(sf2 + "/" + path) in Entry(sf2, paths, dir).members
        <==> path in paths && InSoundfont(path, dir)
  {
    FileIffInSoundfont(sf2, paths, dir, path);
    SortKeepsMembers(InstrumentsAt(sf2, SoundfontFiles(paths, dir)), Instrument(sf2 + "/" + path));
  }

  lemma FileIffInSoundfont(sf2: string, paths: seq<string>, dir: string, path: string)
    ensures Instrument(sf2 + "/" + path) in InstrumentsAt(sf2, SoundfontFiles(paths, dir))
        <==> path in paths && InSoundfont(path, dir)
  {
    var files := SoundfontFiles(paths, dir);
    var members := InstrumentsAt(sf2, files);
    if Instrument(sf2 + "/" + path) in members {
      var k :| 0 <= k < |members| && members[k] == Instrument(sf2 + "/" + path);
      PrefixCancels(sf2 + "/", files[k], path);
      assert files[k] in files;
    }
    if path in paths && InSoundfont(path, dir) {
      var k :| 0 <= k < |files| && files[k] == path;
      assert members[k] == Instrument(sf2 + "/" + path);
    }
  }

  /** The instruments of an entry are its `.sfz` files, ascending by bank and
      then by number. */
  lemma EntryArranged(sf2: string, paths: seq<string>, dir: string)
    ensures SortedByBankNumber(Entry(sf2, paths, dir).members)
    ensures multiset(Entry(sf2, paths, dir).members) == multiset(InstrumentsAt(sf2, SoundfontFiles(paths, dir)))
  {
  }

  /** Sorting neither adds nor drops an instrument. */
  lemma SortKeepsMembers(s: seq<Instrument>, i: Instrument)
    ensures i in SortByBankNumber(s) <==> i in s
  {
    var r := SortByBankNumber(s);
    assert multiset(r)[i] == multiset(s)[i];
  }

  /** Entries with different directories share no instrument. */
  lemma EntriesDisjoint(sf2: string, paths: seq<string>, d1: string, d2: string, i: Instrument)
    requires IsSoundfontDirectory(d1) && IsSoundfontDirectory(d2) && d1 != d2
    requires i in Entry(sf2, paths, d1).members
    ensures i !in Entry(sf2, paths, d2).members
  {
    var path := EntryMemberPath(sf2, paths, d1, i);
    MemberIffInSoundfont(sf2, paths, d2, path);
    if InSoundfont(path, d2) {
      NoPathInTwoSoundfonts(path, d1, d2);
    }
  }

  /** Every member of an entry is the instrument of a listed path in it. */
  lemma EntryMemberPath(sf2: string, paths: seq<string>, dir: string, i: Instrument) returns (path: string)
    requires i in Entry(sf2, paths, dir).members
    ensures i == Instrument(sf2 + "/" + path) && InSoundfont(path, dir)
  {
    var files := SoundfontFiles(paths, dir);
    var members := InstrumentsAt(sf2, files);
    SortKeepsMembers(members, i);
    var k :| 0 <= k < |members| && members[k] == i;
    path := files[k];
    assert path in files;
  }

  /** The scan yields an entry for a directory iff the listing holds it as a
      soundfont directory. */
  lemma ScanFindsDirectory(sf2: string, paths: seq<string>, dir: string)
    ensures (exists k :: 0 <= k < |Scan(sf2, paths)| && Scan(sf2, paths)[k].url == sf2 + "/" + dir)
        <==> dir in paths && IsSoundfontDirectory(dir)
  {
    var entries := Scan(sf2, paths);
    var dirs := SoundfontDirectories(paths);
    if exists k :: 0 <= k < |entries| && entries[k].url == sf2 + "/" + dir {
      var k :| 0 <= k < |entries| && entries[k].url == sf2 + "/" + dir;
      ScanFromAt(sf2, paths, dirs, k);
      PrefixCancels(sf2 + "/", dirs[k], dir);
      assert dirs[k] in dirs;
    }
    if dir in paths && IsSoundfontDirectory(dir) {
      var k :| 0 <= k < |dirs| && dirs[k] == dir;
      ScanFromAt(sf2, paths, dirs, k);
      assert entries[k].url == sf2 + "/" + dir;
    }
  }

  /** Removing a pattern from `s + pat` leaves `s` when no occurrence of the
      pattern starts inside `s`. */
  lemma {:induction false} RemovingTrailing(s: string, pat: string)
    requires |pat| > 0
    requires forall i :: 0 <= i < |s| ==> !HasPrefix((s + pat)[i..], pat)
    ensures RemovingOccurrences(s + pat, pat) == s
  {
    if s == [] {
      assert s + pat == pat;
      assert pat[|pat|..] == [];
    } else {
      assert (s + pat)[0..] == s + pat;
      assert (s + pat)[1..] == s[1..] + pat;
      forall i | 0 <= i < |s[1..]| ensures !HasPrefix((s[1..] + pat)[i..], pat) {
        assert (s[1..] + pat)[i..] == (s + pat)[i + 1..];
      }
      RemovingTrailing(s[1..], pat);
      assert s == [s[0]] + s[1..];
    }
  }

  /** The name of an entry `<words joined by _>_sf2` is the words joined by
      spaces, provided no later word starts with `sf2`, which would make an
      earlier `_sf2` match. */
  lemma {:induction false} SoundfontNameOfWords(words: seq<string>)
    requires forall w :: w in words ==> |w| > 0 && '_' !in w
    requires forall i :: 0 <= i < |Join(words, "_")| ==> !HasPrefix((Join(words, "_") + "_sf2")[i..], "_sf2")
    ensures SoundfontName(Join(words, "_") + "_sf2") == Join(words, " ")
  {
    RemovingTrailing(Join(words, "_"), "_sf2");
    SplitJoin(words, '_');
    assert Join(words, "_") == Join(words, ['_']);
  }

  /** A one-word entry `<word>_sf2` is named `word`. */
  lemma SoundfontNameOfWord(word: string)
    requires |word| > 0 && '_' !in word
    ensures SoundfontName(word + "_sf2") == word
  {
    assert Join([word], "_") == word;
    forall i | 0 <= i < |word| ensures !HasPrefix((word + "_sf2")[i..], "_sf2") {
      assert (word + "_sf2")[i..][0] == word[i];
    }
    SoundfontNameOfWords([word]);
  }
}
