/**
 * `CANNFileParser`: the object that owns the category table of a CANN
 * output directory, fills it by scanning, reads the timeline and
 * communication files it lists, joins the timeline's flow events, and drives
 * the `msprof` export before a scan.
 *
 * What the parser reads from outside (directory listings, `isdir`/`isfile`,
 * file contents, the step-trace rows, the exit code of a command, JSON
 * decoding and the `EventBean` view of a record) comes in as parameters.
 */
module CannFileParser {
  import opened Wrappers
  import opened Text
  import opened CannDataMatch
  import opened FileCatalog
  import opened JsonLoad
  import opened FlowCorrelation
  import opened ExportSteps

  /** The filesystem as the parser sees it. */
  datatype FileSystem = FileSystem(
    dirs: set<Path>,                // os.path.isdir
    regular: set<Path>,             // os.path.isfile
    summaryFiles: seq<Path>,        // the device "summary" listing of the CANN path
    timelineFiles: seq<Path>,       // the device "timeline" listing of the CANN path
    analyzeFiles: seq<Path>,        // the "analyze" listing of the CANN path
    contents: Path -> string,       // FileManager.file_read_all
    stepRows: Path -> seq<string>)  // the step_id column of a step-trace csv

  /** The three listings, concatenated in the order `_file_dispatch` builds them. */
  function AllFileList(fs: FileSystem): seq<Path> {
    fs.summaryFiles + fs.timelineFiles + fs.analyzeFiles
  }

  /** The outcome of `export_cann_profiling`: it returns, or raises RuntimeError. */
  datatype ExportOutcome = Completed | Raised(error: ParserError)

  /** Extending the records loaded so far by the next file's: the first failure is kept. */
  function Extend(loaded: Result<seq<Json>, ParserError>, next: Result<seq<Json>, ParserError>): Result<seq<Json>, ParserError> {
    if loaded.Failure? then loaded
    else if next.Failure? then next
    else Success(loaded.value + next.value)
  }

  /** The records of the listed timeline files, loaded in that order; the first undecodable file raises. */
  function LoadAll(files: seq<Path>, fs: FileSystem, decode: string -> Option<Json>): (r: Result<seq<Json>, ParserError>)
    ensures r.Failure? ==> r.error == RuntimeError(INVALID_TRACE_DATA)
    decreases |files|
  {
    if files == [] then Success([])
    else Extend(LoadAll(files[..|files| - 1], fs, decode), JsonLoadList(fs.contents(files[|files| - 1]), decode))
  }

  /** Loading fails exactly when one of the files does not decode. */
  lemma {:induction false} LoadAllFails(files: seq<Path>, fs: FileSystem, decode: string -> Option<Json>)
    ensures LoadAll(files, fs, decode).Success? <==>
            forall i :: 0 <= i < |files| ==> JsonLoadList(fs.contents(files[i]), decode).Success?
    decreases |files|
  {
    if files != [] {
      var init := files[..|files| - 1];
      LoadAllFails(init, fs, decode);
      assert forall i :: 0 <= i < |init| ==> init[i] == files[i];
    }
  }

  /** The timeline of a concatenated file list is the first timeline extended by the second. */
  lemma {:induction false} LoadAllAppend(a: seq<Path>, b: seq<Path>, fs: FileSystem, decode: string -> Option<Json>)
    ensures LoadAll(a + b, fs, decode) == Extend(LoadAll(a, fs, decode), LoadAll(b, fs, decode))
    decreases |b|
  {
    if b == [] {
      assert a + b == a;
      if LoadAll(a, fs, decode).Success? {
        assert LoadAll(a, fs, decode).value + [] == LoadAll(a, fs, decode).value;
      }
    } else {
      var init, last := b[..|b| - 1], b[|b| - 1];
      assert (a + b)[..|a + b| - 1] == a + init;
      assert (a + b)[|a + b| - 1] == last;
      LoadAllAppend(a, init, fs, decode);
      var x, y, z := LoadAll(a, fs, decode), LoadAll(init, fs, decode), JsonLoadList(fs.contents(last), decode);
      if x.Success? && y.Success? && z.Success? {
        assert x.value + (y.value + z.value) == (x.value + y.value) + z.value;
      }
    }
  }

  /** The `EventBean` view of every loaded record. */
  function Beans(records: seq<Json>, bean: Json -> Event): (r: seq<Event>)
    ensures |r| == |records|
  {
    seq(|records|, i requires 0 <= i < |records| => bean(records[i]))
  }

  /** Each element occurs once and the list holds exactly the set: an iteration order of the set. */
  ghost predicate Enumerates(order: seq<Path>, s: set<Path>) {
    (forall f :: f in order <==> f in s) &&
    (forall i, j :: 0 <= i < j < |order| ==> order[i] != order[j])
  }

  class CANNFileParser {
    /** `PathManager.get_cann_path(profiler_path)`, given here directly. */
    const cannPath: Path
    /** `self._file_dict` */
    var fileDict: FileTable

    /** Records the CANN path and scans it into an empty table. */
    constructor(cannPath: Path, fs: FileSystem)
      ensures this.cannPath == cannPath
      ensures fileDict == Dispatch(map[], AllFileList(fs), fs.regular)
    {
      this.cannPath := cannPath;
      fileDict := map[];
      new;
      FileDispatch(fs);
    }

    /** `get_file_list_by_type`: the stored set of a category, empty when it has none. */
    function GetFileListByType(fileType: CANNDataEnum): (r: set<Path>)
      reads this
      ensures fileType !in fileDict ==> r == {}
      ensures forall f :: f in r <==> fileType in fileDict && f in fileDict[fileType]
    {
      if fileType in fileDict then fileDict[fileType] else {}
    }

    /**
     * `_file_dispatch`: every listed regular file is tested against every
     * pattern of every category, and added to each category that matches.
     * The table is not cleared first.
     */
    method FileDispatch(fs: FileSystem)
      modifies this
      ensures fileDict == Dispatch(old(fileDict), AllFileList(fs), fs.regular)
    {
      var allFileList := fs.summaryFiles;
      allFileList := allFileList + fs.timelineFiles;
      allFileList := allFileList + fs.analyzeFiles;
      DispatchFiles(CANN_DATA_MATCH, allFileList, fs.regular);
    }

    /** The outer loop of `_file_dispatch`: every listed file, in order. */
    method DispatchFiles(matchTable: MatchTable, allFileList: seq<Path>, regular: set<Path>)
      modifies this
      ensures fileDict == DispatchWith(old(fileDict), matchTable, allFileList, regular)
    {
      var i := 0;
      while i < |allFileList|
        invariant 0 <= i <= |allFileList|
        invariant fileDict == DispatchWith(old(fileDict), matchTable, allFileList[..i], regular)
      {
        var filePath := allFileList[i];
        assert allFileList[..i + 1][..i] == allFileList[..i];
        if filePath in regular {
          ScanFile(matchTable, filePath);
        }
        i := i + 1;
      }
      assert allFileList[..i] == allFileList;
    }

    /** The middle loop of `_file_dispatch`: every category of the match table, in order. */
    method ScanFile(matchTable: MatchTable, filePath: Path)
      modifies this
      ensures fileDict == ScanTable(old(fileDict), matchTable, |matchTable|, Basename(filePath), filePath)
    {
      var name := Basename(filePath);
      var j := 0;
      while j < |matchTable|
        invariant 0 <= j <= |matchTable|
        invariant fileDict == ScanTable(old(fileDict), matchTable, j, name, filePath)
      {
        var (dataType, reMatchExpList) := matchTable[j];
        ScanCategory(dataType, reMatchExpList, name, filePath);
        j := j + 1;
      }
    }

    /** The inner loop of `_file_dispatch`: every pattern of one category, with no break. */
    method ScanCategory(dataType: CANNDataEnum, reMatchExpList: seq<Pattern>, name: string, filePath: Path)
      modifies this
      ensures fileDict == ScanPatterns(old(fileDict), dataType, reMatchExpList, name, filePath)
    {
      var k := 0;
      while k < |reMatchExpList|
        invariant 0 <= k <= |reMatchExpList|
        invariant fileDict == ScanPatterns(old(fileDict), dataType, reMatchExpList[..k], name, filePath)
      {
        assert reMatchExpList[..k + 1][..k] == reMatchExpList[..k];
        if Matches(reMatchExpList[k], name) {
          var existing := if dataType in fileDict then fileDict[dataType] else {};
          fileDict := fileDict[dataType := existing + {filePath}];
        }
        k := k + 1;
      }
      assert reMatchExpList[..k] == reMatchExpList;
    }

    /**
     * `get_timeline_all_data`: the records of every timeline file, in the
     * order the set is iterated (`order`, which Python leaves unspecified).
     * It fails exactly when some timeline file does not decode.
     */
    method GetTimelineAllData(fs: FileSystem, decode: string -> Option<Json>)
      returns (r: Result<seq<Json>, ParserError>, ghost order: seq<Path>)
      ensures r == LoadAll(order, fs, decode)
      ensures r.Success? ==> Enumerates(order, Get(fileDict, MsprofTimeline))
      ensures forall f :: f in order ==> f in Get(fileDict, MsprofTimeline)
      ensures r.Success? <==>
              forall f :: f in Get(fileDict, MsprofTimeline) ==> JsonLoadList(fs.contents(f), decode).Success?
      ensures r.Failure? ==> r.error == RuntimeError(INVALID_TRACE_DATA)
    {
      var timelineData: seq<Json> := [];
      var msprofFileList := if MsprofTimeline in fileDict then fileDict[MsprofTimeline] else {};
      var remaining := msprofFileList;
      order := [];
      while remaining != {}
        invariant remaining <= msprofFileList
        invariant forall f :: f in order <==> f in msprofFileList && f !in remaining
        invariant forall i, j :: 0 <= i < j < |order| ==> order[i] != order[j]
        invariant LoadAll(order, fs, decode) == Success(timelineData)
        decreases |remaining|
      {
        var msprofFile :| msprofFile in remaining;
        var data := JsonLoadList(fs.contents(msprofFile), decode);
        assert (order + [msprofFile])[..|order|] == order;
        order := order + [msprofFile];
        remaining := remaining - {msprofFile};
        if data.Failure? {
          r := Failure(data.error);
          LoadAllFails(order, fs, decode);
          assert order[|order| - 1] == msprofFile;
          return;
        }
        timelineData := timelineData + data.value;
      }
      r := Success(timelineData);
      LoadAllFails(order, fs, decode);
      forall f | f in msprofFileList ensures JsonLoadList(fs.contents(f), decode).Success? {
        var i :| 0 <= i < |order| && order[i] == f;
      }
    }

    /**
     * `get_analyze_communication_data`: the dict of one file of the category
     * (any one, when there are several), or {} when the category has none.
     */
    method GetAnalyzeCommunicationData(fileType: CANNDataEnum, fs: FileSystem, decode: string -> Option<Json>)
      returns (r: Result<map<string, Json>, ParserError>)
      ensures Get(fileDict, fileType) == {} ==> r == Success(map[])
      ensures Get(fileDict, fileType) != {} ==>
              exists f :: f in Get(fileDict, fileType) && r == JsonLoadDict(fs.contents(f), decode)
    {
      r := Success(map[]);
      var communicationFileSet := GetFileListByType(fileType);
      if communicationFileSet != {} {
        var subFile :| subFile in communicationFileSet;
        r := JsonLoadDict(fs.contents(subFile), decode);
      }
    }

    /**
     * `get_acl_to_npu_data`: loads the timeline, views each record as an
     * `EventBean`, and joins the flow events; a timeline that does not
     * decode raises before any join.
     */
    method GetAclToNpuData(fs: FileSystem, decode: string -> Option<Json>, bean: Json -> Event)
      returns (r: Result<AclTable, ParserError>, ghost order: seq<Path>)
      ensures LoadAll(order, fs, decode).Failure? ==> r == Failure(RuntimeError(INVALID_TRACE_DATA))
      ensures LoadAll(order, fs, decode).Success? ==>
              Enumerates(order, Get(fileDict, MsprofTimeline)) &&
              r == Success(AclToNpu(Beans(LoadAll(order, fs, decode).value, bean)))
      ensures r.Success? <==>
              forall f :: f in Get(fileDict, MsprofTimeline) ==> JsonLoadList(fs.contents(f), decode).Success?
    {
      var allData;
      allData, order := GetTimelineAllData(fs, decode);
      if allData.Failure? {
        return Failure(allData.error), order;
      }
      var events := Beans(allData.value, bean);
      var aclToNpu := CorrelateFlows(events);
      r := Success(aclToNpu);
    }

    /**
     * The decisions of `export_cann_profiling`: the `msprof` commands it
     * issues (in order), whether it warns that analysis failed, whether it
     * raises, and the table it leaves. `fs` is the filesystem after the
     * export, `run` the exit code of a command, `invalid` the step id that
     * marks an invalid row; `stepFile` is the step-trace file `pop` chose.
     */
    method ExportCannProfiling(fs: FileSystem, run: Args -> int, invalid: string)
      returns (calls: seq<Args>, warned: bool, outcome: ExportOutcome, ghost stepFile: Option<Path>)
      modifies this
      ensures cannPath !in fs.dirs ==>
                calls == [] && !warned && outcome == Completed && fileDict == old(fileDict)
      ensures cannPath in fs.dirs && run(ExportArgs(cannPath)) != COMMAND_SUCCESS ==>
                calls == [ExportArgs(cannPath)] && !warned &&
                outcome == Raised(RuntimeError(ExportFailedMessage(cannPath))) && fileDict == old(fileDict)
      ensures cannPath in fs.dirs && run(ExportArgs(cannPath)) == COMMAND_SUCCESS ==>
                var scanned := Dispatch(old(fileDict), AllFileList(fs), fs.regular);
                var steps := Get(scanned, StepTrace);
                |calls| >= 2 && calls[..2] == [ExportArgs(cannPath), AnalyzeArgs(cannPath)] &&
                warned == (run(AnalyzeArgs(cannPath)) != COMMAND_SUCCESS) &&
                (steps == {} ==> calls == calls[..2] && outcome == Completed && fileDict == scanned) &&
                (steps != {} ==>
                   stepFile.Some? && stepFile.value in steps &&
                   fileDict == scanned[StepTrace := steps - {stepFile.value}] &&
                   var (iterationCalls, ok) :=
                     IterationCalls(cannPath, fs.stepRows(stepFile.value), ParsedStep(stepFile.value), invalid, run);
                   calls == calls[..2] + iterationCalls &&
                   outcome == if ok then Completed else Raised(RuntimeError(ITERATION_EXPORT_FAILED)))
    {
      calls, warned, outcome, stepFile := [], false, Completed, None;
      if cannPath !in fs.dirs {
        return;
      }
      var exportArgs := ["msprof", "--export=on", "--output=" + cannPath];
      calls := calls + [exportArgs];
      if run(exportArgs) != COMMAND_SUCCESS {
        outcome := Raised(RuntimeError(ExportFailedMessage(cannPath)));
        return;
      }
      var analyzeArgs := ["msprof", "--analyze=on", "--output=" + cannPath];
      calls := calls + [analyzeArgs];
      if run(analyzeArgs) != COMMAND_SUCCESS {
        warned := true;
      }
      FileDispatch(fs);
      ghost var scanned := fileDict;
      assert calls == [ExportArgs(cannPath), AnalyzeArgs(cannPath)];
      var stepTraceFileSet := GetFileListByType(StepTrace);
      assert stepTraceFileSet == Get(scanned, StepTrace);
      if stepTraceFileSet == {} {
        return;
      }
      var chosen :| chosen in stepTraceFileSet;
      fileDict := fileDict[StepTrace := stepTraceFileSet - {chosen}];
      stepFile := Some(chosen);
      var stepTraceData := fs.stepRows(chosen);
      var parsedStep := AfterLast(BeforeFirst(Basename(chosen), '.'), '_');
      assert parsedStep == ParsedStep(chosen);
      var iterationCalls, ok := IssueIterationExports(cannPath, stepTraceData, parsedStep, invalid, run);
      assert (calls + iterationCalls)[..2] == calls;
      calls := calls + iterationCalls;
      if !ok {
        outcome := Raised(RuntimeError(ITERATION_EXPORT_FAILED));
      }
    }
  }
}
