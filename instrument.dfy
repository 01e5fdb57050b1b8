/** An instrument: one `.sfz` file, identified by its path. Its number, name and
    bank are computed from the path on every access and are never stored. */
module Instruments {
  import opened Wrappers
  import opened Strings

  /** The path is assigned once, at construction, and never changes; so a value
      type with the path as its only field is the instrument. */
  datatype Instrument = Instrument(url: string)

  /** The identity used by `==` and `hash`. */
  function Id(i: Instrument): string {
    i.url
  }

  /** `==`: instruments are equal when their identities are. */
  predicate Same(a: Instrument, b: Instrument) {
    Id(a) == Id(b)
  }

  /** `lastPathComponent`, the last non-empty `/`-separated part of a path. */
  function LastPathComponent(path: string): string {
    var parts := Split(path, '/');
    if parts == [] then (if path == [] then "" else "/") else parts[|parts| - 1]
  }

  /** A file name without its final extension, as `deletingPathExtension` gives it:
      the text from the last `.` on is removed, provided that `.` is neither the
      first nor the last character. */
  function Stem(filename: string): string {
    var k := LastIndexOf(filename, '.');
    if 0 < k < |filename| - 1 then filename[..k] else filename
  }

  /** `number`: the first `_`-piece of the file name, extension included, as an
      integer; -1 when it is not one. */
  function Number(i: Instrument): int {
    var pieces := Split(LastPathComponent(i.url), '_');
    IntOr(if pieces == [] then "-1" else pieces[0])
  }

  /** `name`: the `_`-pieces of the file name without its extension, all but the
      first, joined with single spaces. */
  function Name(i: Instrument): (r: string)
    ensures '_' !in r
  {
    var pieces := Split(Stem(LastPathComponent(i.url)), '_');
    var words := if pieces == [] then [] else pieces[1..];
    JoinAvoids(words, " ", '_');
    Join(words, " ")
  }

  /** `bank`: the name of the directory holding the file, as an integer; -1 when
      it is not one. */
  function Bank(i: Instrument): int {
    var parts := Split(i.url, '/');
    if |parts| >= 2 then IntOr(parts[|parts| - 2]) else -1
  }

  /** Equality depends on the identity alone, so equal instruments agree on
      everything derived from the path. */
  lemma SameMeansEqual(a: Instrument, b: Instrument)
    ensures Same(a, b) <==> a == b
    ensures Same(a, b) ==> Number(a) == Number(b) && Name(a) == Name(b) && Bank(a) == Bank(b)
  {
  }

  /** For a path `<dir>/<parent>/<file>`, the file name is `file` and the bank is
      read from `parent`. */
  lemma PathComponents(dir: string, parent: string, file: string)
    requires |parent| > 0 && '/' !in parent
    requires |file| > 0 && '/' !in file
    ensures LastPathComponent(dir + "/" + parent + "/" + file) == file
    ensures Bank(Instrument(dir + "/" + parent + "/" + file)) == IntOr(parent)
  {
    var parts := Split(dir + "/" + parent + "/" + file, '/');
    SplitPath(dir, parent, file);
    assert parts[|parts| - 1] == file && parts[|parts| - 2] == parent;
  }

  /** A path `<dir>/<parent>/<file>` splits into the pieces of `dir`, then
      `parent`, then `file`. */
  lemma SplitPath(dir: string, parent: string, file: string)
    requires |parent| > 0 && '/' !in parent
    requires |file| > 0 && '/' !in file
    ensures Split(dir + "/" + parent + "/" + file, '/') == Split(dir, '/') + [parent, file]
  {
    var tail := parent + "/" + file;
    SplitTwo(parent, file);
    SplitAround(dir, tail, '/');
    assert dir + "/" + parent + "/" + file == dir + ['/'] + tail;
  }

  lemma SplitTwo(parent: string, file: string)
    requires |parent| > 0 && '/' !in parent
    requires |file| > 0 && '/' !in file
    ensures Split(parent + "/" + file, '/') == [parent, file]
  {
    SplitAround(parent, file, '/');
    SplitWhole(parent, '/');
    SplitWhole(file, '/');
    assert parent + "/" + file == parent + ['/'] + file;
  }

  /** The first `_`-piece of `<number>_<rest>` is `number`. */
  lemma FirstPiece(number: string, rest: string)
    requires |number| > 0 && '_' !in number
    ensures Split(number + "_" + rest, '_')[0] == number
  {
    SplitAround(number, rest, '_');
    SplitWhole(number, '_');
    assert number + "_" + rest == number + ['_'] + rest;
  }

  /** Removing the extension of `<stem>.sfz` gives `stem`. */
  lemma StemOfSfz(stem: string)
    requires |stem| > 0
    ensures Stem(stem + ".sfz") == stem
  {
    var file := stem + ".sfz";
    assert file[|stem|] == '.';
    assert file[|stem| + 1] == 's' && file[|stem| + 2] == 'f' && file[|stem| + 3] == 'z';
    assert LastIndexOf(file, '.') == |stem|;
    assert file[..|stem|] == stem;
  }

  lemma DigitsAvoid(s: string, c: char)
    requires AllDigits(s) && !IsDigit(c)
    ensures c !in s
  {
    forall k | 0 <= k < |s| ensures s[k] != c {
      assert IsDigit(s[k]);
    }
  }

  /** A file laid out by the library convention `<dir>/<bank>/<number>_<w1>_…_<wk>.sfz`,
      with decimal bank and number, has exactly that bank and number, and the
      words joined by spaces as its name. Words may contain `.`: only the final
      extension is removed. */
  lemma {:induction false} ConventionalPath(dir: string, bank: string, number: string, words: seq<string>)
    requires |bank| > 0 && AllDigits(bank)
    requires |number| > 0 && AllDigits(number)
    requires forall w :: w in words ==> |w| > 0 && '_' !in w && '/' !in w
    ensures var i := Instrument(dir + "/" + bank + "/" + (number + "_" + Join(words, "_") + ".sfz"));
      Bank(i) == DigitsValue(bank) && Number(i) == DigitsValue(number) && Name(i) == Join(words, " ")
  {
    var joined := Join(words, "_");
    var file := number + "_" + joined + ".sfz";
    DigitsAvoid(number, '/');
    DigitsAvoid(bank, '/');
    JoinAvoids(words, "_", '/');
    assert '/' !in file;
    ConventionalBank(dir, bank, file);
    assert file == number + "_" + (joined + ".sfz");
    ConventionalNumber(dir, bank, number, joined + ".sfz");
    ConventionalName(dir, bank, number, words);
  }

  lemma {:induction false} ConventionalBank(dir: string, bank: string, file: string)
    requires |bank| > 0 && AllDigits(bank)
    requires |file| > 0 && '/' !in file
    ensures Bank(Instrument(dir + "/" + bank + "/" + file)) == DigitsValue(bank)
  {
    DigitsAvoid(bank, '/');
    PathComponents(dir, bank, file);
  }

  lemma {:induction false} ConventionalNumber(dir: string, bank: string, number: string, rest: string)
    requires |bank| > 0 && AllDigits(bank)
    requires |number| > 0 && AllDigits(number) && '/' !in rest
    ensures Number(Instrument(dir + "/" + bank + "/" + (number + "_" + rest))) == DigitsValue(number)
  {
    var file := number + "_" + rest;
    DigitsAvoid(number, '/');
    DigitsAvoid(bank, '/');
    DigitsAvoid(number, '_');
    assert '/' !in file;
    PathComponents(dir, bank, file);
    FirstPiece(number, rest);
  }

  lemma {:induction false} ConventionalName(dir: string, bank: string, number: string, words: seq<string>)
    requires |bank| > 0 && AllDigits(bank)
    requires |number| > 0 && AllDigits(number)
    requires forall w :: w in words ==> |w| > 0 && '_' !in w && '/' !in w
    ensures Name(Instrument(dir + "/" + bank + "/" + (number + "_" + Join(words, "_") + ".sfz"))) == Join(words, " ")
  {
    var joined := Join(words, "_");
    var stem := number + "_" + joined;
    var file := stem + ".sfz";
    DigitsAvoid(number, '/');
    DigitsAvoid(bank, '/');
    DigitsAvoid(number, '_');
    JoinAvoids(words, "_", '/');
    assert '/' !in file;
    PathComponents(dir, bank, file);
    StemOfSfz(stem);
    assert stem == number + ['_'] + joined;
    SplitAround(number, joined, '_');
    SplitWhole(number, '_');
    SplitJoin(words, '_');
    assert Split(stem, '_') == [number] + words;
  }

  /** A file name with no `_` at all yields -1 as its number when it has an
      extension, because the extension is part of the piece that is parsed. */
  lemma NumberOfFileWithoutUnderscore(dir: string, filename: string)
    requires |filename| > 0 && '_' !in filename && '/' !in filename && '.' in filename
    ensures Number(Instrument(dir + "/" + filename)) == -1
  {
    var path := dir + "/" + filename;
    SplitAround(dir, filename, '/');
    SplitWhole(filename, '/');
    assert path == dir + ['/'] + filename;
    assert LastPathComponent(path) == filename;
    SplitWhole(filename, '_');
    var k :| 0 <= k < |filename| && filename[k] == '.';
    assert !IsDigit(filename[k]);
  }

  /** The three words of the preview instrument "090_Instrument_Spaces_3.sfz". */
  lemma SpacesPath(dir: string, words: seq<string>)
    requires words == ["Instrument", "Spaces", "3"]
    ensures dir + "/199/" + "090_Instrument_Spaces_3.sfz" == dir + "/" + "199" + "/" + ("090" + "_" + Join(words, "_") + ".sfz")
  {
    var file := "090" + "_" + Join(words, "_") + ".sfz";
    JoinThree("Instrument", "Spaces", "3", "_");
    assert file == "090_Instrument_Spaces_3.sfz";
    assert "/" + "199" + "/" == "/199/";
    assert dir + "/" + "199" + "/" + file == dir + "/199/" + file;
  }

  lemma SpacesBank(dir: string, words: seq<string>)
    requires words == ["Instrument", "Spaces", "3"]
    ensures Bank(Instrument(dir + "/" + "199" + "/" + ("090" + "_" + Join(words, "_") + ".sfz"))) == 199
  {
    assert "199"[..2] == "19" && "19"[..1] == "1" && "1"[..0] == "";
    ConventionalPath(dir, "199", "090", words);
  }

  lemma SpacesNumber(dir: string, words: seq<string>)
    requires words == ["Instrument", "Spaces", "3"]
    ensures Number(Instrument(dir + "/" + "199" + "/" + ("090" + "_" + Join(words, "_") + ".sfz"))) == 90
  {
    assert "090"[..2] == "09" && "09"[..1] == "0" && "0"[..0] == "";
    ConventionalPath(dir, "199", "090", words);
  }

  lemma SpacesName(dir: string, words: seq<string>)
    requires words == ["Instrument", "Spaces", "3"]
    ensures Name(Instrument(dir + "/" + "199" + "/" + ("090" + "_" + Join(words, "_") + ".sfz"))) == "Instrument Spaces 3"
  {
    SpacesWords(words);
    ConventionalName(dir, "199", "090", words);
  }

  lemma SpacesWords(words: seq<string>)
    requires words == ["Instrument", "Spaces", "3"]
    ensures Join(words, " ") == "Instrument Spaces 3"
  {
    JoinThree("Instrument", "Spaces", "3", " ");
  }

  /** The preview instrument of the library screen, in any directory. */
  lemma SampleSpaces(dir: string)
    ensures var i := Instrument(dir + "/199/" + "090_Instrument_Spaces_3.sfz");
      Number(i) == 90 && Name(i) == "Instrument Spaces 3" && Bank(i) == 199
  {
    var words := ["Instrument", "Spaces", "3"];
    SpacesPath(dir, words);
    SpacesBank(dir, words);
    SpacesNumber(dir, words);
    SpacesName(dir, words);
  }

  lemma SampleExtensionOnly(dir: string)
    ensures Number(Instrument(dir + "/" + "12.sfz")) == -1
  {
    assert '.' == "12.sfz"[2];
    NumberOfFileWithoutUnderscore(dir, "12.sfz");
  }

  lemma JoinThree(a: string, b: string, c: string, sep: string)
    ensures Join([a, b, c], sep) == a + sep + b + sep + c
  {
    assert [a, b, c][1..] == [b, c];
    assert [b, c][1..] == [c];
    assert Join([b, c], sep) == b + sep + c;
  }
}
