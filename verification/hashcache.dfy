/** The hosting hash cache: a text file of `path,mtime,hash` lines stored
    under the project directory, read back into a dictionary on the next
    deploy so that unchanged files need not be hashed again.

    The file system is a map from path to file state; a path that is not in
    the map does not exist (ENOENT). */
module HashCache {
  import opened Wrappers
  import opened JsText
  import opened Assoc

  // ---------------------------------------------------------------------
  // cachePath
  // ---------------------------------------------------------------------

  /** `path.resolve(cwd, ".firebase/hosting." + name + ".cache")` for an
      absolute, normalised `cwd` and a name without path separators. */
  function CachePath(cwd: string, name: string): string {
    cwd + "/" + ".firebase/hosting." + name + ".cache"
  }

  /** Different site names never share a cache file. */
  lemma CachePathInjective(cwd: string, a: string, b: string)
    requires CachePath(cwd, a) == CachePath(cwd, b)
    ensures a == b
  {
    var prefix := cwd + "/" + ".firebase/hosting.";
    assert CachePath(cwd, a) == prefix + a + ".cache";
    assert CachePath(cwd, b) == prefix + b + ".cache";
    assert a == (prefix + a + ".cache")[|prefix|..|prefix| + |a|];
    assert b == (prefix + b + ".cache")[|prefix|..|prefix| + |b|];
  }

  // ---------------------------------------------------------------------
  // Entries and files
  // ---------------------------------------------------------------------

  /** `HashCacheEntry`; the mtime is whatever `parseInt` made of the field. */
  datatype Entry = Entry(mtime: IntOrNaN, hash: string)

  datatype FileState = Text(content: string) | Unreadable(code: string)

  class FileSystem {
    var files: map<string, FileState>

    constructor (files: map<string, FileState>)
      ensures this.files == files
    {
      this.files := files;
    }
  }

  /** `fs.readFileSync(path, "utf8")`: the text, or the error code it throws. */
  function ReadFile(files: map<string, FileState>, path: string): (r: Result<string, string>)
    ensures r.Failure? <==> path !in files || files[path].Unreadable?
    ensures path !in files ==> r == Failure("ENOENT")
    ensures path in files && files[path].Text? ==> r == Success(files[path].content)
    ensures path in files && files[path].Unreadable? ==> r == Failure(files[path].code)
  {
    if path !in files then Failure("ENOENT")
    else match files[path]
      case Text(content) => Success(content)
      case Unreadable(code) => Failure(code)
  }

  // ---------------------------------------------------------------------
  // load
  // ---------------------------------------------------------------------

  /** The `forEach` over the lines: a line with exactly three comma fields
      sets its path to `(parseInt(mtime), hash)`; other lines are skipped. */
  function LoadLines(lines: seq<string>): map<string, Entry> {
    if |lines| == 0 then map[]
    else
      var out := LoadLines(lines[..|lines| - 1]);
      var d := Split(lines[|lines| - 1], ',');
      if |d| == 3 then out[d[0] := Entry(ParseInt(d[1]), d[2])] else out
  }

  function LoadText(text: string): map<string, Entry> {
    LoadLines(Split(text, '\n'))
  }

  /** What `load(cwd, name)` returns: any read error, a missing file
      included, gives an empty cache instead of an exception. */
  function LoadFile(files: map<string, FileState>, path: string): (m: map<string, Entry>)
    ensures ReadFile(files, path).Failure? ==> m == map[]
    ensures ReadFile(files, path).Success? ==> m == LoadText(ReadFile(files, path).value)
  {
    match ReadFile(files, path)
    case Failure(_) => map[]
    case Success(text) => LoadText(text)
  }

  /** A line that `load` turns into an entry. */
  predicate IsRecord(line: string) {
    |Split(line, ',')| == 3
  }

  /** A path is in the loaded cache exactly when some three-field line names it. */
  lemma {:induction false} LoadLinesKeys(lines: seq<string>, path: string)
    ensures path in LoadLines(lines) <==>
      exists i :: 0 <= i < |lines| && IsRecord(lines[i]) && Split(lines[i], ',')[0] == path
  {
    if |lines| > 0 {
      var init := lines[..|lines| - 1];
      LoadLinesKeys(init, path);
      assert forall i :: 0 <= i < |init| ==> init[i] == lines[i];
      if path in LoadLines(lines) && path !in LoadLines(init) {
        assert IsRecord(lines[|lines| - 1]) && Split(lines[|lines| - 1], ',')[0] == path;
      }
    }
  }

  /** The last three-field line for a path decides its entry. */
  lemma {:induction false} LoadLinesLastWins(lines: seq<string>, i: nat)
    requires i < |lines| && IsRecord(lines[i])
    requires forall j :: i < j < |lines| && IsRecord(lines[j]) ==>
      Split(lines[j], ',')[0] != Split(lines[i], ',')[0]
    ensures var d := Split(lines[i], ',');
      d[0] in LoadLines(lines) && LoadLines(lines)[d[0]] == Entry(ParseInt(d[1]), d[2])
  {
    if i < |lines| - 1 {
      var init := lines[..|lines| - 1];
      assert forall j :: 0 <= j < |init| ==> init[j] == lines[j];
      LoadLinesLastWins(init, i);
    }
  }

  /** One step of the `forEach`: the line after a prefix updates the map of
      that prefix, or leaves it alone. */
  lemma LoadLinesStep(lines: seq<string>, i: nat)
    requires i < |lines|
    ensures LoadLines(lines[..i + 1]) ==
      var d := Split(lines[i], ',');
      if |d| == 3 then LoadLines(lines[..i])[d[0] := Entry(ParseInt(d[1]), d[2])] else LoadLines(lines[..i])
  {
    assert lines[..i + 1][..i] == lines[..i];
  }

  /** `lines.split("\n").forEach(...)`: fill the dictionary line by line. */
  method FillFromLines(lines: seq<string>) returns (out: map<string, Entry>)
    ensures out == LoadLines(lines)
  {
    out := map[];
    for i := 0 to |lines|
      invariant out == LoadLines(lines[..i])
    {
      LoadLinesStep(lines, i);
      var d := Split(lines[i], ',');
      if |d| == 3 {
        out := out[d[0] := Entry(ParseInt(d[1]), d[2])];
      }
    }
    assert lines[..|lines|] == lines;
  }

  /** `load(cwd, name)`: read the cache file and parse it; a read error gives
      an empty cache. */
  method Load(fs: FileSystem, cwd: string, name: string) returns (out: map<string, Entry>)
    ensures out == LoadFile(fs.files, CachePath(cwd, name))
  {
    var read := ReadFile(fs.files, CachePath(cwd, name));
    if read.Failure? {
      return map[];
    }
    out := FillFromLines(Split(read.value, '\n'));
  }

  // ---------------------------------------------------------------------
  // dump
  // ---------------------------------------------------------------------

  /** One record without its line feed: `${path},${mtime},${hash}`. */
  function Row(pair: (string, Entry)): string {
    pair.0 + "," + NumberToString(pair.1.mtime) + "," + pair.1.hash
  }

  /** The text `dump` builds from the pairs it iterates, one line each. */
  function DumpText(pairs: seq<(string, Entry)>): string {
    if |pairs| == 0 then "" else Row(pairs[0]) + "\n" + DumpText(pairs[1..])
  }

  lemma {:induction false} DumpTextAppend(pairs: seq<(string, Entry)>, pair: (string, Entry))
    ensures DumpText(pairs + [pair]) == DumpText(pairs) + Row(pair) + "\n"
  {
    if |pairs| == 0 {
      assert pairs + [pair] == [pair];
    } else {
      assert (pairs + [pair])[1..] == pairs[1..] + [pair];
      DumpTextAppend(pairs[1..], pair);
    }
  }

  /** The loop of `dump`: `st` accumulates one line per pair and `count`
      counts them. */
  method Serialise(pairs: seq<(string, Entry)>) returns (st: string, count: nat)
    ensures st == DumpText(pairs)
    ensures count == |pairs|
  {
    st, count := "", 0;
    for i := 0 to |pairs|
      invariant st == DumpText(pairs[..i])
      invariant count == i
    {
      DumpTextAppend(pairs[..i], pairs[i]);
      assert pairs[..i + 1] == pairs[..i] + [pairs[i]];
      count := count + 1;
      st := st + Row(pairs[i]) + "\n";
    }
    assert pairs[..|pairs|] == pairs;
  }

  /** `dump(cwd, name, data)` over the entries of `data` in the dictionary's
      iteration order; a failing write is caught and leaves the files as
      they were. */
  method Dump(fs: FileSystem, cwd: string, name: string, data: seq<(string, Entry)>, writeOk: bool)
    modifies fs
    ensures writeOk ==> fs.files == old(fs.files)[CachePath(cwd, name) := Text(DumpText(data))]
    ensures !writeOk ==> fs.files == old(fs.files)
  {
    var st, count := Serialise(data);
    if writeOk {
      fs.files := fs.files[CachePath(cwd, name) := Text(st)];
    }
  }

  /** `Object.entries` applied to a `Map`: a `Map` keeps its entries out of
      its own enumerable properties, so there are none. */
  function ObjectEntries(data: seq<(string, Entry)>): seq<(string, Entry)> {
    []
  }

  /** `dump` as the source writes it: the loop runs over `Object.entries(data)`. */
  method DumpAsWritten(fs: FileSystem, cwd: string, name: string, data: seq<(string, Entry)>, writeOk: bool)
    modifies fs
    ensures writeOk ==> fs.files == old(fs.files)[CachePath(cwd, name) := Text(DumpText(ObjectEntries(data)))]
    ensures !writeOk ==> fs.files == old(fs.files)
  {
    var st, count := Serialise(ObjectEntries(data));
    if writeOk {
      fs.files := fs.files[CachePath(cwd, name) := Text(st)];
    }
  }

  // ---------------------------------------------------------------------
  // The record format round trip
  // ---------------------------------------------------------------------

  /** A pair that survives the format: neither the path nor the hash holds a
      field or line separator. */
  predicate Storable(pair: (string, Entry)) {
    ',' !in pair.0 && '\n' !in pair.0 && ',' !in pair.1.hash && '\n' !in pair.1.hash
  }

  function Rows(pairs: seq<(string, Entry)>): (rows: seq<string>)
    ensures |rows| == |pairs|
  {
    seq(|pairs|, i requires 0 <= i < |pairs| => Row(pairs[i]))
  }

  lemma RowFields(pair: (string, Entry))
    requires Storable(pair)
    ensures Split(Row(pair), ',') == [pair.0, NumberToString(pair.1.mtime), pair.1.hash]
    ensures '\n' !in Row(pair)
  {
    var n := NumberToString(pair.1.mtime);
    var fields := [pair.0, n, pair.1.hash];
    NumberToStringSeparatorFree(pair.1.mtime);
    assert Join(fields[1..], ',') == n + [','] + pair.1.hash;
    assert Join(fields, ',') == Row(pair);
    SplitJoin(fields, ',');
  }

  /** The dumped text splits into one row per pair, in order, and the empty
      piece after the final line feed. */
  lemma {:induction false} DumpTextLines(pairs: seq<(string, Entry)>)
    requires forall i :: 0 <= i < |pairs| ==> Storable(pairs[i])
    ensures Split(DumpText(pairs), '\n') == Rows(pairs) + [""]
  {
    DumpTextIsJoin(pairs);
    forall i | 0 <= i < |pairs| ensures '\n' !in Rows(pairs)[i] {
      RowFields(pairs[i]);
    }
    SplitJoin(Rows(pairs) + [""], '\n');
  }

  lemma {:induction false} DumpTextIsJoin(pairs: seq<(string, Entry)>)
    ensures DumpText(pairs) == Join(Rows(pairs) + [""], '\n')
  {
    if |pairs| > 0 {
      DumpTextIsJoin(pairs[1..]);
      var parts := Rows(pairs) + [""];
      assert parts[1..] == Rows(pairs[1..]) + [""];
    }
  }

  /** Loading the rows of storable pairs replays them in order. */
  lemma {:induction false} LoadRows(pairs: seq<(string, Entry)>)
    requires forall i :: 0 <= i < |pairs| ==> Storable(pairs[i])
    ensures LoadLines(Rows(pairs)) == LastWins(pairs)
  {
    if |pairs| > 0 {
      var init := pairs[..|pairs| - 1];
      var last := pairs[|pairs| - 1];
      LoadRows(init);
      assert Rows(pairs)[..|pairs| - 1] == Rows(init);
      RowFields(last);
      ParseIntOfNumberToString(last.1.mtime);
    }
  }

  /** Loading what `dump` writes gives back the dictionary the pairs
      describe (for distinct paths, every pair as given; see
      `Assoc.DistinctKeysStored`). */
  lemma DumpLoadRoundTrip(pairs: seq<(string, Entry)>)
    requires forall i :: 0 <= i < |pairs| ==> Storable(pairs[i])
    ensures LoadText(DumpText(pairs)) == LastWins(pairs)
  {
    DumpTextLines(pairs);
    LoadRows(pairs);
    var lines := Rows(pairs) + [""];
    assert lines[..|lines| - 1] == Rows(pairs);
    assert Split("", ',') == [""];
  }

  /** After a successful corrected `dump`, `load` of the same name returns
      the dumped entries. */
  lemma DumpThenLoad(files: map<string, FileState>, cwd: string, name: string, pairs: seq<(string, Entry)>)
    requires forall i :: 0 <= i < |pairs| ==> Storable(pairs[i])
    ensures LoadFile(files[CachePath(cwd, name) := Text(DumpText(pairs))], CachePath(cwd, name))
         == LastWins(pairs)
  {
    DumpLoadRoundTrip(pairs);
  }

  /** Dumping one site's cache leaves every other site's cache as it loads. */
  lemma DumpLeavesOtherNames(files: map<string, FileState>, cwd: string, name: string, other: string, text: string)
    requires other != name
    ensures LoadFile(files[CachePath(cwd, name) := Text(text)], CachePath(cwd, other))
         == LoadFile(files, CachePath(cwd, other))
  {
    if CachePath(cwd, name) == CachePath(cwd, other) {
      CachePathInjective(cwd, name, other);
    }
  }

  /** The source's `dump` stores an empty file whatever the dictionary holds,
      so the next `load` finds no entry even for a non-empty cache. */
  lemma DumpAsWrittenLosesEntries(files: map<string, FileState>, cwd: string, name: string,
                                  pairs: seq<(string, Entry)>)
    requires |pairs| > 0
    ensures LoadFile(files[CachePath(cwd, name) := Text(DumpText(ObjectEntries(pairs)))], CachePath(cwd, name))
         == map[]
    ensures LastWins(pairs) != map[]
  {
    assert DumpText(ObjectEntries(pairs)) == "";
    assert Split("", '\n') == [""];
    assert Split("", ',') == [""];
    assert LoadLines([""]) == map[];
    assert pairs[0].0 in LastWins(pairs);
  }
}
