/**
 * The category table that `_file_dispatch` fills: category -> set of paths.
 *
 * The functions here specify, one loop level at a time, what the nested loops
 * of `_file_dispatch` do to the table; `CannFileParser.FileDispatch` is proved
 * against `Dispatch`, and the lemmas below say what `Dispatch` means.
 */
module FileCatalog {
  import opened CannDataMatch
  import opened Text

  type Path = string

  type FileTable = map<CANNDataEnum, set<Path>>

  /** A table of categories and their patterns, in the shape of `CANN_DATA_MATCH`. */
  type MatchTable = seq<(CANNDataEnum, seq<Pattern>)>

  /** `table.get(c, set())` */
  function Get(table: FileTable, c: CANNDataEnum): set<Path> {
    if c in table then table[c] else {}
  }

  /** `table.setdefault(c, set()).add(path)` */
  function Add(table: FileTable, c: CANNDataEnum, path: Path): (r: FileTable)
    ensures r.Keys == table.Keys + {c}
    ensures Get(r, c) == Get(table, c) + {path}
    ensures forall c' :: c' != c ==> Get(r, c') == Get(table, c')
  {
    table[c := Get(table, c) + {path}]
  }

  /** The innermost loop: the patterns of one category, tried in order, with no break. */
  function ScanPatterns(table: FileTable, c: CANNDataEnum, patterns: seq<Pattern>, name: string, path: Path): (r: FileTable)
    ensures table.Keys <= r.Keys
    ensures forall c' :: Get(table, c') <= Get(r, c') <= Get(table, c') + {path}
    decreases |patterns|
  {
    if patterns == [] then table
    else
      var before := ScanPatterns(table, c, patterns[..|patterns| - 1], name, path);
      if Matches(patterns[|patterns| - 1], name) then Add(before, c, path) else before
  }

  /** The middle loop over the first n entries of a match table. */
  function ScanTable(table: FileTable, matchTable: MatchTable, n: nat, name: string, path: Path): (r: FileTable)
    requires n <= |matchTable|
    ensures table.Keys <= r.Keys
    ensures forall c :: Get(table, c) <= Get(r, c) <= Get(table, c) + {path}
  {
    if n == 0 then table
    else ScanPatterns(ScanTable(table, matchTable, n - 1, name, path), matchTable[n - 1].0, matchTable[n - 1].1, name, path)
  }

  /** One file of the outer loop: skipped unless it is a regular file. */
  function DispatchFile(table: FileTable, matchTable: MatchTable, path: Path, regular: set<Path>): (r: FileTable)
    ensures table.Keys <= r.Keys
    ensures forall c :: Get(table, c) <= Get(r, c) <= Get(table, c) + (if path in regular then {path} else {})
  {
    if path !in regular then table
    else ScanTable(table, matchTable, |matchTable|, Basename(path), path)
  }

  /** The outer loop over the listed files, starting from the table as it stands. */
  function DispatchWith(table: FileTable, matchTable: MatchTable, files: seq<Path>, regular: set<Path>): (r: FileTable)
    ensures table.Keys <= r.Keys
    ensures forall c :: Get(table, c) <= Get(r, c) <= Get(table, c) + (set f | f in files && f in regular)
    decreases |files|
  {
    if files == [] then table
    else
      assert forall f :: f in files[..|files| - 1] ==> f in files;
      DispatchFile(DispatchWith(table, matchTable, files[..|files| - 1], regular), matchTable, files[|files| - 1], regular)
  }

  /**
   * `_file_dispatch` with the patterns of `CANN_DATA_MATCH`: it only adds
   * listed regular files, and no key or path of the old table is lost.
   */
  function Dispatch(table: FileTable, files: seq<Path>, regular: set<Path>): (r: FileTable)
    ensures table.Keys <= r.Keys
    ensures forall c :: Get(table, c) <= Get(r, c) <= Get(table, c) + (set f | f in files && f in regular)
  {
    DispatchWith(table, CANN_DATA_MATCH, files, regular)
  }

  /** Some entry among the first n of the table is for c and has a pattern matching name. */
  predicate ClassifiedUpTo(matchTable: MatchTable, c: CANNDataEnum, name: string, n: nat) {
    exists j :: 0 <= j < n && j < |matchTable| && matchTable[j].0 == c && MatchesAny(matchTable[j].1, name)
  }

  /** The listed regular files whose basename category c recognises. */
  function Recognised(files: seq<Path>, regular: set<Path>, c: CANNDataEnum): set<Path> {
    set f | f in files && f in regular && Classified(c, Basename(f))
  }

  /** Trying every pattern of a category adds the path once if any of them matches. */
  lemma {:induction false} ScanPatternsEffect(table: FileTable, c: CANNDataEnum, patterns: seq<Pattern>, name: string, path: Path)
    ensures ScanPatterns(table, c, patterns, name, path) == if MatchesAny(patterns, name) then Add(table, c, path) else table
    decreases |patterns|
  {
    if patterns != [] {
      var init := patterns[..|patterns| - 1];
      ScanPatternsEffect(table, c, init, name, path);
      if MatchesAny(patterns, name) && !Matches(patterns[|patterns| - 1], name) {
        var k :| 0 <= k < |patterns| && Matches(patterns[k], name);
        assert init[k] == patterns[k];
      }
      if MatchesAny(init, name) {
        var k :| 0 <= k < |init| && Matches(init[k], name);
        assert patterns[k] == init[k];
        assert Add(Add(table, c, path), c, path) == Add(table, c, path);
      }
    }
  }

  /** After the first n entries, every category matched so far holds the path, and nothing else changed. */
  lemma {:induction false} ScanTableEffect(table: FileTable, matchTable: MatchTable, n: nat, name: string, path: Path)
    requires n <= |matchTable|
    ensures forall c :: Get(ScanTable(table, matchTable, n, name, path), c) ==
                        Get(table, c) + (if ClassifiedUpTo(matchTable, c, name, n) then {path} else {})
    ensures forall c :: c in ScanTable(table, matchTable, n, name, path) <==>
                        c in table || ClassifiedUpTo(matchTable, c, name, n)
  {
    if n > 0 {
      ScanTableEffect(table, matchTable, n - 1, name, path);
      var (cat, patterns) := matchTable[n - 1];
      ScanPatternsEffect(ScanTable(table, matchTable, n - 1, name, path), cat, patterns, name, path);
      forall c ensures ClassifiedUpTo(matchTable, c, name, n) <==>
                       ClassifiedUpTo(matchTable, c, name, n - 1) || (c == cat && MatchesAny(patterns, name)) {
        if ClassifiedUpTo(matchTable, c, name, n) && !ClassifiedUpTo(matchTable, c, name, n - 1) {
          var j :| 0 <= j < n && j < |matchTable| && matchTable[j].0 == c && MatchesAny(matchTable[j].1, name);
          assert j == n - 1;
        }
      }
    }
  }

  /** Scanning the whole table adds the path to exactly the categories that recognise the name. */
  lemma ScanAllEffect(table: FileTable, name: string, path: Path)
    ensures forall c :: Get(ScanTable(table, CANN_DATA_MATCH, |CANN_DATA_MATCH|, name, path), c) ==
                        Get(table, c) + (if Classified(c, name) then {path} else {})
    ensures forall c :: c in ScanTable(table, CANN_DATA_MATCH, |CANN_DATA_MATCH|, name, path) <==>
                        c in table || Classified(c, name)
  {
    ScanTableEffect(table, CANN_DATA_MATCH, |CANN_DATA_MATCH|, name, path);
    forall c ensures ClassifiedUpTo(CANN_DATA_MATCH, c, name, |CANN_DATA_MATCH|) <==> Classified(c, name) {
      if Classified(c, name) {
        var j :| 0 <= j < |CANN_DATA_MATCH| && CANN_DATA_MATCH[j].0 == c && MatchesAny(CANN_DATA_MATCH[j].1, name);
        assert j < |CANN_DATA_MATCH|;
      }
    }
  }

  /** One file lands in exactly the categories that recognise its basename, if it is a regular file. */
  lemma DispatchFileEffect(table: FileTable, path: Path, regular: set<Path>)
    ensures forall c :: Get(DispatchFile(table, CANN_DATA_MATCH, path, regular), c) ==
                        Get(table, c) + (if path in regular && Classified(c, Basename(path)) then {path} else {})
    ensures forall c :: c in DispatchFile(table, CANN_DATA_MATCH, path, regular) <==>
                        c in table || (path in regular && Classified(c, Basename(path)))
  {
    if path in regular {
      ScanAllEffect(table, Basename(path), path);
    }
  }

  /**
   * What `_file_dispatch` leaves in the table: the old contents of every
   * category plus every listed regular file the category recognises; a
   * category gains a key only when some file is added to it.
   */
  lemma {:induction false} DispatchContents(table: FileTable, files: seq<Path>, regular: set<Path>)
    ensures forall c :: Get(Dispatch(table, files, regular), c) == Get(table, c) + Recognised(files, regular, c)
    ensures forall c :: c in Dispatch(table, files, regular) <==> c in table || Recognised(files, regular, c) != {}
    decreases |files|
  {
    if files != [] {
      var init, last := files[..|files| - 1], files[|files| - 1];
      assert files == init + [last];
      DispatchContents(table, init, regular);
      DispatchFileEffect(Dispatch(table, init, regular), last, regular);
      RecognisedAppend(init, last, regular);
    }
  }

  lemma RecognisedAppend(init: seq<Path>, last: Path, regular: set<Path>)
    ensures forall c :: Recognised(init + [last], regular, c) ==
                        Recognised(init, regular, c) + (if last in regular && Classified(c, Basename(last)) then {last} else {})
  {
  }

  /**
   * Starting from an empty table, a path is in category c's set exactly when
   * it was listed, is a regular file and its basename matches a pattern of c.
   */
  lemma LookupAfterScan(files: seq<Path>, regular: set<Path>, c: CANNDataEnum, path: Path)
    ensures path in Get(Dispatch(map[], files, regular), c) <==>
      path in files && path in regular && Classified(c, Basename(path))
  {
    DispatchContents(map[], files, regular);
  }

  /** Although every pattern of every category is tried, a scanned path lands in one category only. */
  lemma ScannedInOneCategory(files: seq<Path>, regular: set<Path>, c1: CANNDataEnum, c2: CANNDataEnum, path: Path)
    requires path in Get(Dispatch(map[], files, regular), c1)
    requires path in Get(Dispatch(map[], files, regular), c2)
    ensures c1 == c2
  {
    LookupAfterScan(files, regular, c1, path);
    LookupAfterScan(files, regular, c2, path);
    AtMostOneCategory(Basename(path), c1, c2);
  }

  /** Dispatching only adds: no key and no path of the old table is lost. */
  lemma DispatchMonotone(table: FileTable, files: seq<Path>, regular: set<Path>, c: CANNDataEnum)
    ensures table.Keys <= Dispatch(table, files, regular).Keys
    ensures Get(table, c) <= Get(Dispatch(table, files, regular), c)
  {
    DispatchContents(table, files, regular);
  }

  /** Dispatching the same listing again leaves the table as it is. */
  lemma DispatchIdempotent(table: FileTable, files: seq<Path>, regular: set<Path>)
    ensures Dispatch(Dispatch(table, files, regular), files, regular) == Dispatch(table, files, regular)
  {
    var once := Dispatch(table, files, regular);
    var twice := Dispatch(once, files, regular);
    DispatchContents(table, files, regular);
    DispatchContents(once, files, regular);
    assert twice.Keys == once.Keys;
    forall c | c in once ensures twice[c] == once[c] {
      assert Get(twice, c) == Get(once, c);
    }
  }
}
