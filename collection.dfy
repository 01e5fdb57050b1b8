/** A named collection of instruments: a soundfont read from disk, the user's
    favourites, or a collection the user made. Collections are reference
    objects whose name and instrument list are edited in place. */
module Collections {
  import opened Wrappers
  import opened Instruments

  /** A UUID, kept as its canonical text. */
  datatype Uuid = Uuid(text: string)

  /** The fixed identity of the favourites collection. */
  const FavouritesId: Uuid := Uuid("12CD3324-0121-4842-AAE0-4591C388F36E")

  /** The name a collection gets when none is given. */
  const DefaultName: string := "New Collection"

  class Collection {
    /** Unique identity; `==` and `hash` use nothing else. */
    const id: Uuid
    /** The display name, editable by the user. */
    var name: string
    /** The directory this collection was read from, if any. It is set by the
        initializer alone (`private(set)`), so it is a constant here. */
    const url: Option<string>
    /** The instruments, in display order. */
    var instruments: seq<Instrument>

    /** The designated initializer. `UUID()`, the default identity, is random,
        so the identity is always passed in. */
    constructor (name: string, instruments: seq<Instrument>, url: Option<string>, id: Uuid)
      ensures this.id == id && this.name == name
      ensures this.url == url && this.instruments == instruments
    {
      this.id := id;
      this.name := name;
      this.url := url;
      this.instruments := instruments;
    }

    /** `Collection()`: every argument left at its default. */
    constructor Default(id: Uuid)
      ensures this.id == id && name == DefaultName
      ensures url == None && instruments == []
    {
      this.id := id;
      name := DefaultName;
      url := None;
      instruments := [];
    }

    /** The initializer taking a directory path: the collection is always
        directory-backed. */
    constructor FromPath(name: string, instruments: seq<Instrument>, path: string, id: Uuid)
      ensures this.id == id && this.name == name
      ensures url == Some(path) && this.instruments == instruments
    {
      this.id := id;
      this.name := name;
      url := Some(path);
      this.instruments := instruments;
    }

    /** `isFavourites`. It reads no mutable field, so no edit of a collection
        can change it. */
    predicate IsFavourites() {
      id == FavouritesId
    }
  }

  /** `==` on collections. It reads no mutable field either: renaming or
      editing the instruments never changes which collections are equal. */
  predicate SameCollection(a: Collection, b: Collection) {
    a.id == b.id
  }

  /** `hash(into:)` feeds the identity alone to the hasher. */
  function HashKey(c: Collection): Uuid {
    c.id
  }

  /** `==` is an equivalence and agrees with `hash`. */
  lemma SameIsEquivalence(a: Collection, b: Collection, c: Collection)
    ensures SameCollection(a, a)
    ensures SameCollection(a, b) ==> SameCollection(b, a)
    ensures SameCollection(a, b) && SameCollection(b, c) ==> SameCollection(a, c)
    ensures SameCollection(a, b) ==> HashKey(a) == HashKey(b)
  {
  }

  /** Any two favourites collections are equal, and a collection equal to a
      favourites collection is one itself. */
  lemma FavouritesAreOne(a: Collection, b: Collection)
    requires a.IsFavourites()
    ensures b.IsFavourites() <==> SameCollection(a, b)
  {
  }
}
