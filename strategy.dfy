/** Prompt strategies: JSON files in `~/.config/fabric/strategies`, looked
    up by name (`LoadStrategy`), all loaded into a map keyed by name
    (`LoadAllFiles`), and listed sorted with an aligned description column
    (`ListStrategies`). */
module Strategy {
  import opened Common

  datatype Strategy = Strategy(name: string, description: string, prompt: string)

  /** A node in the strategies directory: a regular file, with what
      `os.ReadFile` + `json.Unmarshal` make of it, or a sub-directory. */
  datatype Node = File(decoded: Result<Strategy, string>) | Directory

  /** The strategies directory. `home` is what `os.UserHomeDir` returns;
      `entries` maps every path below the directory, relative to it and
      separated by '/', to its node. A directory that does not exist is a
      directory with no entries: both load nothing. */
  datatype StrategyDir = StrategyDir(home: Option<string>, entries: map<string, Node>)

  datatype LoadError =
    | HomeDirUnknown            // `os.UserHomeDir` failed
    | NotFound(name: string)    // neither `<name>.json` nor `<name>` exists
    | ReadFailed(path: string)  // the path is a directory
    | Malformed(path: string, reason: string)

  const JsonExt := ".json"

  predicate NoSlash(n: string) {
    forall i :: 0 <= i < |n| ==> n[i] != '/'
  }

  /** `filepath.Base` of a '/'-separated relative path: its last element. */
  function Base(path: string): (r: string)
    ensures EndsWith(path, r)
    ensures NoSlash(r)
    ensures NoSlash(path) ==> r == path
  {
    if path == [] then []
    else if path[|path| - 1] == '/' then []
    else
      var r := Base(path[..|path| - 1]) + [path[|path| - 1]];
      assert path[..|path| - 1] + [path[|path| - 1]] == path;
      r
  }

  /** The path `LoadStrategy` reads: `<name>.json` when it exists, else `<name>`. */
  function LookupPath(d: StrategyDir, filename: string): string {
    if filename + JsonExt in d.entries then filename + JsonExt else filename
  }

  /** `LoadStrategy`: `Ok(None)` for the empty name (nil strategy, nil error);
      the decoded strategy with its name taken from the file name otherwise. */
  function LoadStrategy(d: StrategyDir, filename: string): (r: Result<Option<Strategy>, LoadError>)
    ensures r == Ok(None) <==> filename == ""
  {
    if filename == "" then Ok(None)
    else if d.home.None? then Err(HomeDirUnknown)
    else
      var path := LookupPath(d, filename);
      if path !in d.entries then Err(NotFound(filename))
      else match d.entries[path]
        case Directory => Err(ReadFailed(path))
        case File(Err(reason)) => Err(Malformed(path, reason))
        case File(Ok(s)) => Ok(Some(s.(name := TrimSuffix(Base(path), JsonExt))))
  }

  /** `<name>.json` is preferred to `<name>`; whichever is read, the loaded
      strategy's name is that file's base name with one ".json" removed,
      whatever the JSON said; with neither present the lookup fails. */
  lemma LoadStrategyLookup(d: StrategyDir, filename: string)
    requires filename != "" && d.home.Some?
    ensures filename + JsonExt in d.entries ==> LookupPath(d, filename) == filename + JsonExt
    ensures LoadStrategy(d, filename) == Err(NotFound(filename))
        <==> filename + JsonExt !in d.entries && filename !in d.entries
    ensures forall s ::
      (LookupPath(d, filename) in d.entries && d.entries[LookupPath(d, filename)] == File(Ok(s)))
      ==> LoadStrategy(d, filename) == Ok(Some(s.(name := TrimSuffix(Base(LookupPath(d, filename)), JsonExt))))
  {
  }

  /** For a plain name (no '/'), the loaded strategy is called by that name
      when `<name>.json` is read, and by `<name>` minus a trailing ".json"
      when the extension-less file is read instead. */
  lemma {:induction false} LoadedNameIsFileStem(d: StrategyDir, filename: string)
    requires filename != "" && d.home.Some?
    requires NoSlash(filename)
    requires LoadStrategy(d, filename).Ok?
    ensures var s := LoadStrategy(d, filename).value.value;
      s.name == (if filename + JsonExt in d.entries then filename else TrimSuffix(filename, JsonExt))
  {
    if filename + JsonExt in d.entries {
      JsonNameStem(filename);
    }
  }

  /** Appending ".json" to a plain name keeps it plain, and trimming the
      extension gives the name back. */
  lemma JsonNameStem(filename: string)
    requires NoSlash(filename)
    ensures Base(filename + JsonExt) == filename + JsonExt
    ensures TrimSuffix(filename + JsonExt, JsonExt) == filename
  {
    var p := filename + JsonExt;
    assert NoSlash(p) by {
      forall i | 0 <= i < |p| ensures p[i] != '/' {
        if i < |filename| { assert p[i] == filename[i]; } else { assert p[i] == JsonExt[i - |filename|]; }
      }
    }
    assert p[|p| - |JsonExt|..] == JsonExt;
    assert p[..|p| - |JsonExt|] == filename;
  }

  // ---------------------------------------------------------------------------
  // LoadAllFiles

  /** The entries directly in the strategies directory. */
  function TopLevel(d: StrategyDir): set<string> {
    set n | n in d.entries && NoSlash(n)
  }

  /** True when the walk's callback loads `name`: a regular file whose
      extension is ".json"; sub-directories are skipped whatever their name. */
  predicate IsStrategyFile(d: StrategyDir, name: string) {
    name in d.entries && d.entries[name].File? && EndsWith(name, JsonExt)
  }

  /** The `filepath.WalkDir` callback over the top-level `names`, in order, as
      written: a file that fails to load stops the walk (and the error is
      dropped by `LoadAllFiles`); a file named exactly ".json" makes
      `LoadStrategy("")` return a nil strategy, which is dereferenced. `None`
      stands for that nil-pointer panic. */
  function WalkAsWritten(d: StrategyDir, names: seq<string>, acc: map<string, Strategy>): (r: Option<map<string, Strategy>>)
    ensures r.Some? ==> acc.Keys <= r.value.Keys
    ensures names == [] ==> r == Some(acc)
  {
    if names == [] then Some(acc)
    else if !IsStrategyFile(d, names[0]) then WalkAsWritten(d, names[1..], acc)
    else match LoadStrategy(d, TrimSuffix(names[0], JsonExt))
      case Err(_) => Some(acc)
      case Ok(None) => None
      case Ok(Some(s)) => WalkAsWritten(d, names[1..], acc[s.name := s])
  }

  /** The walk with the nil strategy of a bare ".json" file skipped. */
  function Walk(d: StrategyDir, names: seq<string>, acc: map<string, Strategy>): (r: map<string, Strategy>)
    ensures acc.Keys <= r.Keys
    ensures |r| <= |acc| + |names|
  {
    if names == [] then acc
    else if !IsStrategyFile(d, names[0]) then Walk(d, names[1..], acc)
    else match LoadStrategy(d, TrimSuffix(names[0], JsonExt))
      case Err(_) => acc
      case Ok(None) => Walk(d, names[1..], acc)
      case Ok(Some(s)) => Walk(d, names[1..], acc[s.name := s])
  }

  /** A strategies directory holding a file named ".json" (and a home
      directory) makes the walk as written dereference a nil strategy. */
  lemma DotJsonFilePanics(s: Strategy)
    ensures WalkAsWritten(StrategyDir(Some("/home/u"), map[".json" := File(Ok(s))]), [".json"], map[]) == None
  {
    var d := StrategyDir(Some("/home/u"), map[".json" := File(Ok(s))]);
    assert EndsWith(".json", JsonExt);
    assert TrimSuffix(".json", JsonExt) == "";
  }

  /** Where the walk as written does not panic, it agrees with `Walk`. */
  lemma {:induction false} WalkAgreesUnlessPanic(d: StrategyDir, names: seq<string>, acc: map<string, Strategy>)
    requires WalkAsWritten(d, names, acc).Some?
    ensures WalkAsWritten(d, names, acc) == Some(Walk(d, names, acc))
    decreases |names|
  {
    if names != [] {
      if !IsStrategyFile(d, names[0]) {
        WalkAgreesUnlessPanic(d, names[1..], acc);
      } else {
        match LoadStrategy(d, TrimSuffix(names[0], JsonExt))
        case Err(_) =>
        case Ok(None) =>
        case Ok(Some(s)) => WalkAgreesUnlessPanic(d, names[1..], acc[s.name := s]);
      }
    }
  }

  /** What loading a top-level ".json" file `n` through its stem gives: the
      file itself, named by the stem, or the nil strategy when the stem is empty. */
  lemma StrategyFileLoad(d: StrategyDir, n: string)
    requires d.home.Some? && IsStrategyFile(d, n) && NoSlash(n)
    ensures var stem := TrimSuffix(n, JsonExt);
      && stem + JsonExt == n
      && LoadStrategy(d, stem) == (
        if stem == "" then Ok(None)
        else match d.entries[n].decoded
          case Ok(s) => Ok(Some(s.(name := stem)))
          case Err(e) => Err(Malformed(n, e)))
  {
    var stem := TrimSuffix(n, JsonExt);
    assert stem + JsonExt == n;
    if stem != "" {
      assert NoSlash(stem) by {
        forall i | 0 <= i < |stem| ensures stem[i] != '/' { assert stem[i] == n[i]; }
      }
      assert LookupPath(d, stem) == n;
      if d.entries[n].decoded.Ok? {
        LoadedNameIsFileStem(d, stem);
      }
    }
  }

  /** Every strategy in `m` is stored under its own name. */
  predicate KeyedByName(m: map<string, Strategy>) {
    forall k :: k in m ==> m[k].name == k
  }

  /** Every strategy the walk holds is keyed by its own name. */
  lemma {:induction false} WalkKeysAreNames(d: StrategyDir, names: seq<string>, acc: map<string, Strategy>)
    requires d.home.Some?
    requires forall n :: n in names ==> NoSlash(n)
    requires KeyedByName(acc)
    ensures KeyedByName(Walk(d, names, acc))
    decreases |names|
  {
    if names != [] {
      if IsStrategyFile(d, names[0]) {
        StrategyFileLoad(d, names[0]);
        match LoadStrategy(d, TrimSuffix(names[0], JsonExt))
        case Err(_) =>
        case Ok(None) => WalkKeysAreNames(d, names[1..], acc);
        case Ok(Some(s)) => WalkKeysAreNames(d, names[1..], acc[s.name := s]);
      } else {
        WalkKeysAreNames(d, names[1..], acc);
        assert Walk(d, names, acc) == Walk(d, names[1..], acc);
      }
    }
  }

  /** Every strategy the walk adds comes from a top-level ".json" file among
      `names` whose stem is its key. */
  lemma {:induction false} WalkKeysFromFiles(d: StrategyDir, names: seq<string>, acc: map<string, Strategy>)
    requires d.home.Some?
    requires forall n :: n in names ==> NoSlash(n)
    ensures var m := Walk(d, names, acc);
      forall k :: k in m && k !in acc ==> k != "" && k + JsonExt in names && IsStrategyFile(d, k + JsonExt)
    decreases |names|
  {
    if names != [] {
      if IsStrategyFile(d, names[0]) {
        StrategyFileLoad(d, names[0]);
        match LoadStrategy(d, TrimSuffix(names[0], JsonExt))
        case Err(_) =>
        case Ok(None) =>
          assert Walk(d, names, acc) == Walk(d, names[1..], acc);
          WalkKeysFromFiles(d, names[1..], acc);
        case Ok(Some(s)) =>
          assert Walk(d, names, acc) == Walk(d, names[1..], acc[s.name := s]);
          WalkKeysFromFiles(d, names[1..], acc[s.name := s]);
      } else {
        assert Walk(d, names, acc) == Walk(d, names[1..], acc);
        WalkKeysFromFiles(d, names[1..], acc);
      }
    }
  }

  /** When every top-level ".json" file has a non-empty stem and decodes,
      the walk loads every one of them: nothing is skipped or cut short. */
  lemma {:induction false} WalkLoadsAll(d: StrategyDir, names: seq<string>, acc: map<string, Strategy>)
    requires d.home.Some?
    requires forall n :: n in names ==> NoSlash(n)
    requires forall n :: n in names && IsStrategyFile(d, n) ==> n != JsonExt && d.entries[n].decoded.Ok?
    ensures forall n :: n in names && IsStrategyFile(d, n) ==> TrimSuffix(n, JsonExt) in Walk(d, names, acc)
    decreases |names|
  {
    if names != [] {
      var n := names[0];
      if IsStrategyFile(d, n) {
        StrategyFileLoad(d, n);
        var stem := TrimSuffix(n, JsonExt);
        assert stem != "";
        var s := LoadStrategy(d, stem).value.value;
        WalkLoadsAll(d, names[1..], acc[s.name := s]);
        WalkKeepsAcc(d, names[1..], acc[s.name := s]);
      } else {
        WalkLoadsAll(d, names[1..], acc);
      }
    }
  }

  /** The walk only adds to what it has already loaded. */
  lemma {:induction false} WalkKeepsAcc(d: StrategyDir, names: seq<string>, acc: map<string, Strategy>)
    ensures acc.Keys <= Walk(d, names, acc).Keys
    decreases |names|
  {
    if names != [] {
      if !IsStrategyFile(d, names[0]) {
        WalkKeepsAcc(d, names[1..], acc);
      } else {
        match LoadStrategy(d, TrimSuffix(names[0], JsonExt))
        case Err(_) =>
        case Ok(None) => WalkKeepsAcc(d, names[1..], acc);
        case Ok(Some(s)) => WalkKeepsAcc(d, names[1..], acc[s.name := s]);
      }
    }
  }

  /** `LoadAllFiles`, with the bare ".json" file skipped (see `WalkAsWritten`):
      walks the top-level entries in lexical order, skips sub-directories and
      non-".json" files, and keys each loaded strategy by its name. Without a
      home directory the map is empty and the error is returned. */
  method LoadAllFiles(d: StrategyDir) returns (strategies: map<string, Strategy>, err: Option<LoadError>)
    ensures d.home.None? ==> strategies == map[] && err == Some(HomeDirUnknown)
    ensures d.home.Some? ==> err.None? && strategies == Walk(d, SortedSet(TopLevel(d)), map[])
  {
    strategies := map[];
    if d.home.None? {
      return strategies, Some(HomeDirUnknown);
    }
    err := None;
    // filepath.WalkDir reads the directory and visits its entries in lexical order
    var names := CollectKeys(TopLevel(d));
    names := SortStrings(names);
    SortedOfSet(names, TopLevel(d));
    var i := 0;
    var stopped := false;
    while i < |names| && !stopped
      invariant 0 <= i <= |names|
      invariant !stopped ==> Walk(d, names, map[]) == Walk(d, names[i..], strategies)
      invariant stopped ==> Walk(d, names, map[]) == strategies
    {
      var name := names[i];
      if IsStrategyFile(d, name) {
        var loaded := LoadStrategy(d, TrimSuffix(name, JsonExt));
        match loaded {
          case Err(_) =>
            stopped := true;
          case Ok(None) =>
          case Ok(Some(s)) =>
            strategies := strategies[s.name := s];
        }
      }
      assert names[i..][1..] == names[i + 1..];
      i := i + 1;
    }
  }

  /** `IsConfigured`: the plugin's own setup is complete and at least one
      strategy was loaded. */
  function IsConfigured(pluginConfigured: bool, strategies: map<string, Strategy>): (r: bool)
    ensures strategies == map[] ==> !r
    ensures r ==> pluginConfigured
    ensures pluginConfigured && strategies != map[] ==> r
  {
    pluginConfigured && |strategies| != 0
  }

  // ---------------------------------------------------------------------------
  // ListStrategies

  /** Bytes in the UTF-8 encoding of `c`; Go's `len` of a string counts these. */
  function Utf8Width(c: char): (n: nat)
    ensures 1 <= n <= 4
  {
    if c as int < 0x80 then 1 else if c as int < 0x800 then 2 else if c as int < 0x10000 then 3 else 4
  }

  function Utf8Len(s: string): (n: nat)
    ensures |s| <= n
  {
    if s == [] then 0 else Utf8Len(s[..|s| - 1]) + Utf8Width(s[|s| - 1])
  }

  /** The longest byte length among `names` (0 for none). */
  function MaxLen(names: seq<string>): nat {
    if names == [] then 0
    else
      var m := MaxLen(names[..|names| - 1]);
      var l := Utf8Len(names[|names| - 1]);
      if l > m then l else m
  }

  lemma {:induction false} MaxLenIsLongest(names: seq<string>)
    ensures forall i :: 0 <= i < |names| ==> Utf8Len(names[i]) <= MaxLen(names)
    ensures names != [] ==> exists i :: 0 <= i < |names| && Utf8Len(names[i]) == MaxLen(names)
  {
    if names != [] {
      var front := names[..|names| - 1];
      MaxLenIsLongest(front);
      assert forall i :: 0 <= i < |front| ==> names[i] == front[i];
      if front != [] && MaxLen(front) >= Utf8Len(names[|names| - 1]) {
        var i :| 0 <= i < |front| && Utf8Len(front[i]) == MaxLen(front);
        assert names[i] == front[i];
      } else {
        assert Utf8Len(names[|names| - 1]) == MaxLen(names);
      }
    }
  }

  function Spaces(n: nat): (r: string)
    ensures |r| == n && forall i :: 0 <= i < n ==> r[i] == ' '
  {
    if n == 0 then "" else Spaces(n - 1) + " "
  }

  /** `%-<width>s`: left-justified, padded with spaces to `width` characters. */
  function PadRight(s: string, width: nat): (r: string)
    ensures |s| <= width ==> |r| == width
    ensures |r| >= |s| && r[..|s|] == s
  {
    if |s| < width then s + Spaces(width - |s|) else s
  }

  /** One printed line. */
  function Row(s: Strategy, width: nat, shellCompleteList: bool): string {
    if shellCompleteList then s.name + "\n" else PadRight(s.name, width) + " " + s.description + "\n"
  }

  function Rows(m: map<string, Strategy>, names: seq<string>, width: nat, shellCompleteList: bool): string
    requires forall n :: n in names ==> n in m
  {
    if names == [] then ""
    else Rows(m, names[..|names| - 1], width, shellCompleteList) + Row(m[names[|names| - 1]], width, shellCompleteList)
  }

  /** What `ListStrategies` prints for a non-empty map: the header unless
      shell completion is asked for, then one row per name in ascending order,
      names padded to the longest name's length plus 2. */
  ghost function Listing(m: map<string, Strategy>, shellCompleteList: bool, header: string): string
  {
    var names := SortedSet(m.Keys);
    assert forall n :: n in names ==> n in m by {
      forall n | n in names ensures n in m { assert n in multiset(names); }
    }
    (if shellCompleteList then "" else header + "\n\n")
      + Rows(m, names, MaxLen(names) + 2, shellCompleteList)
  }

  /** The sorted keys of a map are all keys of it. */
  lemma SortedSetMembers(m: map<string, Strategy>)
    ensures forall n :: n in SortedSet(m.Keys) ==> n in m
  {
    forall n | n in SortedSet(m.Keys) ensures n in m { assert n in multiset(SortedSet(m.Keys)); }
  }

  /** `Listing` for the names already sorted. */
  lemma ListingOfSorted(m: map<string, Strategy>, names: seq<string>, shellCompleteList: bool, header: string)
    requires names == SortedSet(m.Keys)
    requires forall n :: n in names ==> n in m
    ensures Listing(m, shellCompleteList, header)
         == (if shellCompleteList then "" else header + "\n\n") + Rows(m, names, MaxLen(names) + 2, shellCompleteList)
  {
  }

  datatype ListError = NoStrategiesFound

  /** The loop of `ListStrategies` that finds the longest name, in bytes. */
  method MaxNameLength(names: seq<string>) returns (maxNameLength: nat)
    ensures maxNameLength == MaxLen(names)
    ensures forall i :: 0 <= i < |names| ==> Utf8Len(names[i]) <= maxNameLength
  {
    maxNameLength := 0;
    var i := 0;
    while i < |names|
      invariant 0 <= i <= |names|
      invariant maxNameLength == MaxLen(names[..i])
    {
      if Utf8Len(names[i]) > maxNameLength {
        maxNameLength := Utf8Len(names[i]);
      }
      assert names[..i + 1][..i] == names[..i];
      i := i + 1;
    }
    assert names[..i] == names;
    MaxLenIsLongest(names);
  }

  lemma RowsSnoc(m: map<string, Strategy>, names: seq<string>, i: nat, width: nat, shellCompleteList: bool)
    requires forall n :: n in names ==> n in m
    requires i < |names|
    ensures Rows(m, names[..i + 1], width, shellCompleteList)
         == Rows(m, names[..i], width, shellCompleteList) + Row(m[names[i]], width, shellCompleteList)
  {
    assert names[..i + 1][..i] == names[..i];
  }

  /** The printing loop of `ListStrategies`: one row per name, in order. */
  method RenderRows(m: map<string, Strategy>, names: seq<string>, width: nat, shellCompleteList: bool)
    returns (out: string)
    requires forall n :: n in names ==> n in m
    ensures out == Rows(m, names, width, shellCompleteList)
  {
    out := "";
    var i := 0;
    while i < |names|
      invariant 0 <= i <= |names|
      invariant out == Rows(m, names[..i], width, shellCompleteList)
    {
      out := out + Row(m[names[i]], width, shellCompleteList);
      RowsSnoc(m, names, i, width, shellCompleteList);
      i := i + 1;
    }
    assert names[..i] == names;
  }

  /** The strategy names gathered from the map and sorted. */
  method SortedNames(strategies: map<string, Strategy>) returns (names: seq<string>)
    ensures names == SortedSet(strategies.Keys)
    ensures forall n :: n in names ==> n in strategies
  {
    names := CollectKeys(strategies.Keys);
    names := SortStrings(names);
    SortedOfSet(names, strategies.Keys);
    SortedSetMembers(strategies);
  }

  /** `ListStrategies`, with the printed text returned as `out`. */
  method ListStrategies(strategies: map<string, Strategy>, shellCompleteList: bool, header: string)
    returns (out: string, err: Option<ListError>)
    ensures strategies == map[] <==> err == Some(NoStrategiesFound)
    ensures strategies == map[] ==> out == ""
    ensures strategies != map[] ==> err.None? && out == Listing(strategies, shellCompleteList, header)
  {
    if strategies == map[] {
      return "", Some(NoStrategiesFound);
    }
    var names := SortedNames(strategies);
    var maxNameLength := MaxNameLength(names);
    var rows := RenderRows(strategies, names, maxNameLength + 2, shellCompleteList);
    out := (if shellCompleteList then "" else header + "\n\n") + rows;
    err := None;
    ListingOfSorted(strategies, names, shellCompleteList, header);
  }

  /** The description column lines up: when every strategy is keyed by its
      own name (as `LoadAllFiles` builds the map), every padded name is
      exactly as wide as the longest name's byte length plus 2. */
  lemma NameColumnWidth(m: map<string, Strategy>, k: string)
    requires KeyedByName(m)
    requires k in m
    ensures var names := SortedSet(m.Keys);
      |PadRight(m[k].name, MaxLen(names) + 2)| == MaxLen(names) + 2
  {
    var names := SortedSet(m.Keys);
    assert k in multiset(names);
    MaxLenIsLongest(names);
  }
}
