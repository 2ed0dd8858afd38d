# CANN profiling post-processing: file catalogue, flow join and memory records

This project models the core of the Ascend NPU profiler's post-processing in
torch_npu, and proves properties of that model:

- **`CANNFileParser`** (`cann_file_parser.py`) owns a table from trace
  category (`CANNDataEnum`) to a set of file paths.
  - `_file_dispatch` fills the table by testing each listed regular file's
    basename against the start-anchored patterns of `CANN_DATA_MATCH`.
  - `_json_load` and `_json_dict_load` read timeline and communication files
    tolerantly.
  - `get_timeline_all_data` concatenates the records of all timeline files.
  - `get_analyze_communication_data` reads one communication file.
  - `get_acl_to_npu_data` joins flow-start, flow-end and "X" events into a
    map from host timestamp to device events.
  - `export_cann_profiling` runs `msprof` to export and analyze, rescans, pops
    one step-trace file, and issues one `--iteration-id` export per qualifying
    step-trace row.
- **`MemoryUseBean`** (`memory_use_bean.py`) decodes a memory-event record
  with the struct format `"<5qbB2Q"` into nine integers. It reads them through
  accessors indexed by `MemoryEnum`.

Modules:

- `Wrappers`: Option and Result.
- `Text`: basename and the `split` pieces used on file names.
- `CannDataMatch`: the categories, the pattern table and a backtracking matcher
  for its `\d` / `\d+` patterns.
- `FileCatalog`: the table and the specification of the dispatch loops.
- `JsonLoad`: the two tolerant loaders.
- `FlowCorrelation`: the two-pass join.
- `ExportSteps`: the `msprof` argument lists and the iteration-export loop.
- `CannFileParser`: the stateful parser class, a Dafny `class` with field
  `fileDict`.
- `MemoryUseBean`: the struct layout and the record.

Facts of the code that the model keeps and proves:

- The record format `"<5qbB2Q"` is 58 bytes long (5×8 + 1 + 1 + 2×8), with
  no padding (`LayoutSize`).
- `_file_dispatch` has no `break`. It tries every pattern of every category
  and adds the file to every category that matches. `AtMostOneCategory`
  proves that, with this table, a name still lands in at most one category.
- `_file_dispatch` never clears `_file_dict`. A rescan merges into the
  existing table (`DispatchMonotone`, `DispatchIdempotent`); it does not
  replace it.

## Model

| member | source | states |
|---|---|---|
| MemoryUseBean.FormatStringLayout | torch_npu/profiler/analysis/prof_bean/memory_use_bean.py:20 | the format "<5qbB2Q" describes five q fields, one b, one B and two Q fields, in that order |
| MemoryUseBean.LayoutSize | torch_npu/profiler/analysis/prof_bean/memory_use_bean.py:20 | the layout is 58 bytes; '<' adds no padding |
| MemoryUseBean.LayoutOffsets | torch_npu/profiler/analysis/prof_bean/memory_use_bean.py:7-20 | the nine fields start at bytes 0, 8, 16, 24, 32, 40, 41, 42 and 50 |
| MemoryUseBean.Unpack | torch_npu/profiler/analysis/prof_bean/memory_use_bean.py:24 | `struct.unpack` succeeds exactly when the buffer has calcsize bytes; otherwise the error names the required size; each unpacked value lies in its field's range |
| MemoryUseBean.UnpackFieldAt | torch_npu/profiler/analysis/prof_bean/memory_use_bean.py:24 | field k is decoded from exactly the bytes Offset(k) .. Offset(k)+size(k) |
| MemoryUseBean.UnpackFieldsInRange | torch_npu/profiler/analysis/prof_bean/memory_use_bean.py:24 | every unpacked value lies in the range of its format code |
| MemoryUseBean.UnpackPack | torch_npu/profiler/analysis/prof_bean/memory_use_bean.py:20-24 | unpacking the packing of in-range values returns those values |
| MemoryUseBean.PackUnpack | torch_npu/profiler/analysis/prof_bean/memory_use_bean.py:20-24 | a buffer of calcsize bytes, unpacked and packed again, is the same buffer |
| MemoryUseBean.FieldRoundTrip | torch_npu/profiler/analysis/prof_bean/memory_use_bean.py:20 | decoding the little-endian two's-complement encoding of an in-range value returns the value |
| MemoryUseBean.FieldBytesRoundTrip | torch_npu/profiler/analysis/prof_bean/memory_use_bean.py:20 | encoding the decoded value of a field's bytes returns those bytes |
| MemoryUseBean.LeUnsignedLeBytes | torch_npu/profiler/analysis/prof_bean/memory_use_bean.py:20 | reading back the w little-endian bytes of v < 256^w gives v |
| MemoryUseBean.LeBytesLeUnsigned | torch_npu/profiler/analysis/prof_bean/memory_use_bean.py:20 | writing the value of little-endian bytes gives the same bytes |
| MemoryUseBean.NewMemoryUseBean | torch_npu/profiler/analysis/prof_bean/memory_use_bean.py:22-24 | construction succeeds exactly when the constant-bytes entry is present and 58 bytes long; a missing entry fails with `NoConstantBytes`; a wrong length fails with the size mismatch naming 58; a built record has every field in range |
| MemoryUseBean.DecodedField | torch_npu/profiler/analysis/prof_bean/memory_use_bean.py:24-60 | entry k of a decoded blob is the decoding of field k's bytes |
| MemoryUseBean.SignedFieldsReadLayout | torch_npu/profiler/analysis/prof_bean/memory_use_bean.py:26-45 | ptr, time_ns, alloc_size, total_allocated and total_reserved are the signed little-endian values of bytes 0-7, 8-15, 16-23, 24-31 and 32-39 |
| MemoryUseBean.DeviceFieldsReadLayout | torch_npu/profiler/analysis/prof_bean/memory_use_bean.py:46-52 | device_type is byte 40 read as signed; device_index is byte 41 |
| MemoryUseBean.IdFieldsReadLayout | torch_npu/profiler/analysis/prof_bean/memory_use_bean.py:54-60 | tid and pid are the unsigned little-endian values of bytes 42-49 and 50-57 |
| MemoryUseBean.MemoryEnum.Value | torch_npu/profiler/analysis/prof_bean/memory_use_bean.py:7-17 | the nine accessor indices are 0 to 8 |
| MemoryUseBean.MemoryEnumValuesDistinct | torch_npu/profiler/analysis/prof_bean/memory_use_bean.py:7-17 | distinct accessors read distinct entries of the tuple |
| MemoryUseBean.MemoryUseBean.Field | torch_npu/profiler/analysis/prof_bean/memory_use_bean.py:26-60 | in a record built from a blob, the entry an accessor reads lies in the range of its struct code |
| MemoryUseBean.MemoryUseBean.Ptr | torch_npu/profiler/analysis/prof_bean/memory_use_bean.py:26-28 | ptr is a q field: in [-2^63, 2^63) |
| MemoryUseBean.MemoryUseBean.AllocSize | torch_npu/profiler/analysis/prof_bean/memory_use_bean.py:34-36 | alloc_size is a q field: in [-2^63, 2^63), so a negative size is representable |
| MemoryUseBean.MemoryUseBean.TotalAllocated | torch_npu/profiler/analysis/prof_bean/memory_use_bean.py:38-40 | total_allocated is a q field: in [-2^63, 2^63) |
| MemoryUseBean.MemoryUseBean.TotalReserved | torch_npu/profiler/analysis/prof_bean/memory_use_bean.py:42-44 | total_reserved is a q field: in [-2^63, 2^63) |
| MemoryUseBean.MemoryUseBean.DeviceType | torch_npu/profiler/analysis/prof_bean/memory_use_bean.py:46-48 | device_type is the b field: in [-128, 127] |
| MemoryUseBean.MemoryUseBean.DeviceIndex | torch_npu/profiler/analysis/prof_bean/memory_use_bean.py:50-52 | device_index is the B field: in [0, 255] |
| MemoryUseBean.MemoryUseBean.Tid | torch_npu/profiler/analysis/prof_bean/memory_use_bean.py:54-56 | tid is a Q field: in [0, 2^64) |
| MemoryUseBean.MemoryUseBean.Pid | torch_npu/profiler/analysis/prof_bean/memory_use_bean.py:58-60 | pid is a Q field: in [0, 2^64) |
| MemoryUseBean.MemoryUseBean.TimeUs | torch_npu/profiler/analysis/prof_bean/memory_use_bean.py:30-32 | time_us times 1000 is time_ns: it depends on the time_ns field only |
| MemoryUseBean.EncodeDecodeRecord | torch_npu/profiler/analysis/prof_bean/memory_use_bean.py:20-60 | nine in-range values written as a record decode to a record holding exactly them, and each accessor returns its value |
| MemoryUseBean.DecodeEncodeRecord | torch_npu/profiler/analysis/prof_bean/memory_use_bean.py:20-24 | a 58-byte blob decodes, and writing the decoded tuple back gives the same blob |
| Text.AfterLast | torch_npu/profiler/analysis/prof_parse/cann_file_parser.py:103 | `split(c)[-1]` is a suffix without c, preceded by c unless it is the whole string |
| Text.BeforeFirst | torch_npu/profiler/analysis/prof_parse/cann_file_parser.py:103 | `split(c)[0]` is a prefix without c, followed by c unless it is the whole string |
| Text.Basename | torch_npu/profiler/analysis/prof_parse/cann_file_parser.py:103 | `os.path.basename` contains no '/' |
| Text.AfterLastSplit | torch_npu/profiler/analysis/prof_parse/cann_file_parser.py:103 | when c occurs, the string is what precedes the last c, then c, then the last piece |
| Text.NoSeparator | torch_npu/profiler/analysis/prof_parse/cann_file_parser.py:103 | a string without c is its own first and last piece |
| Text.AfterLastAppend | torch_npu/profiler/analysis/prof_parse/cann_file_parser.py:103 | the last piece of a + c + b is b when b has no c |
| Text.BeforeFirstPrepend | torch_npu/profiler/analysis/prof_parse/cann_file_parser.py:103 | the first piece of a + c + b is a when a has no c |
| JsonLoad.JsonLoadList | torch_npu/profiler/analysis/prof_parse/cann_file_parser.py:57-69 | `_json_load`: empty text, a non-list, or a non-empty list whose first element is not a dict give []; undecodable text raises "Invalid CANN trace data."; any other list is returned unchanged |
| JsonLoad.JsonLoadDict | torch_npu/profiler/analysis/prof_parse/cann_file_parser.py:71-81 | `_json_dict_load`: empty text or a non-dict gives {}; undecodable text raises "Invalid communication data."; a dict is returned unchanged |
| CannDataMatch.CANNDataEnum.Value | torch_npu/profiler/analysis/prof_parse/cann_file_parser.py:15-25 | the ten category values are 0 to 9 |
| CannDataMatch.CategoryValuesDistinct | torch_npu/profiler/analysis/prof_parse/cann_file_parser.py:15-25 | distinct categories have distinct values |
| CannDataMatch.TableOrder | torch_npu/profiler/analysis/prof_parse/cann_file_parser.py:36-50 | entry j of `CANN_DATA_MATCH` is the category whose value is j: the ten categories, once each, in enum order |
| CannDataMatch.TableCoversCategories | torch_npu/profiler/analysis/prof_parse/cann_file_parser.py:36-50 | every category has its entry in `CANN_DATA_MATCH` |
| CannDataMatch.Matches | torch_npu/profiler/analysis/prof_parse/cann_file_parser.py:176 | `re.match` anchors only the start: a name that matches still matches with any text appended |
| CannDataMatch.MatchTokensExtend | torch_npu/profiler/analysis/prof_parse/cann_file_parser.py:176 | the tokens after a pattern's head that match a prefix still match it with any text appended |
| CannDataMatch.PrefixMatchExtends | torch_npu/profiler/analysis/prof_parse/cann_file_parser.py:176 | a head and tokens that match the start of a name match the start of any extension of it |
| CannDataMatch.PatternSelectsCategory | torch_npu/profiler/analysis/prof_parse/cann_file_parser.py:36-50 | a name beginning with a pattern's literal head has the leading characters that select that pattern's category |
| CannDataMatch.ClassifiedSelects | torch_npu/profiler/analysis/prof_parse/cann_file_parser.py:36-50 | a name matched by some pattern of category c carries c's head |
| CannDataMatch.AtMostOneCategory | torch_npu/profiler/analysis/prof_parse/cann_file_parser.py:36-50 | no name matches patterns of two different categories |
| CannDataMatch.DigitsMatch | torch_npu/profiler/analysis/prof_parse/cann_file_parser.py:37-47 | `\d+` consumes any non-empty run of digits ahead of the rest of the pattern |
| CannDataMatch.NumberedMatches | torch_npu/profiler/analysis/prof_parse/cann_file_parser.py:37-47 | `^head\d_\d+ext` matches head, one digit, '_', digits, ext and any trailing text |
| CannDataMatch.NumberedTwiceMatches | torch_npu/profiler/analysis/prof_parse/cann_file_parser.py:37-47 | `^head\d_\d+_\d+ext` matches head, one digit, '_', digits, '_', digits, ext and any trailing text |
| CannDataMatch.TwoDigitsUnmatched | torch_npu/profiler/analysis/prof_parse/cann_file_parser.py:37-47 | `\d` is one digit: a head followed by two digits matches neither numbered pattern |
| CannDataMatch.OpSummaryExample | torch_npu/profiler/analysis/prof_parse/cann_file_parser.py:37 | op_summary_1_100.csv is in OP_SUMMARY and in no other category |
| CannDataMatch.GeMemoryRecordExample | torch_npu/profiler/analysis/prof_parse/cann_file_parser.py:42-43 | ge_memory_record_1_100.csv is in GE_MEMORY_RECORD only |
| CannDataMatch.MemoryRecordExample | torch_npu/profiler/analysis/prof_parse/cann_file_parser.py:42-43 | memory_record_1_100.csv is in GE_MEMORY_RECORD only |
| CannDataMatch.TrailingTextExample | torch_npu/profiler/analysis/prof_parse/cann_file_parser.py:43 | `re.match` anchors only the start: memory_record_0_12_3.csv.bak is a memory record |
| CannDataMatch.TwoDigitDeviceExample | torch_npu/profiler/analysis/prof_parse/cann_file_parser.py:37 | op_summary_12_100.csv is in no category |
| CannDataMatch.CommunicationExample | torch_npu/profiler/analysis/prof_parse/cann_file_parser.py:48 | communication.json is in COMMUNICATION only |
| CannDataMatch.MatrixExample | torch_npu/profiler/analysis/prof_parse/cann_file_parser.py:49 | communication_matrix.json is in MATRIX only; the two are told apart at their 14th character |
| FileCatalog.Add | torch_npu/profiler/analysis/prof_parse/cann_file_parser.py:177 | `setdefault(c, set()).add(p)` adds p to c's set, creates c's key if needed, and leaves every other category alone |
| FileCatalog.ScanPatterns | torch_npu/profiler/analysis/prof_parse/cann_file_parser.py:175-177 | trying one category's patterns keeps every key and path and adds at most the scanned path |
| FileCatalog.ScanTable | torch_npu/profiler/analysis/prof_parse/cann_file_parser.py:174-177 | the loop over table entries keeps every key and path and adds at most the scanned path |
| FileCatalog.DispatchFile | torch_npu/profiler/analysis/prof_parse/cann_file_parser.py:171-177 | one listed file keeps every key and path, and adds that file only if it is a regular file |
| FileCatalog.DispatchWith | torch_npu/profiler/analysis/prof_parse/cann_file_parser.py:171-177 | the loop over the listing keeps every key and path, and adds only listed regular files |
| FileCatalog.Dispatch | torch_npu/profiler/analysis/prof_parse/cann_file_parser.py:167-177 | `_file_dispatch` with `CANN_DATA_MATCH` keeps every key and path of the old table, and adds only listed regular files |
| FileCatalog.ScanPatternsEffect | torch_npu/profiler/analysis/prof_parse/cann_file_parser.py:175-177 | trying all patterns of one category adds the path once when any of them matches, and otherwise changes nothing |
| FileCatalog.ScanTableEffect | torch_npu/profiler/analysis/prof_parse/cann_file_parser.py:174-177 | after the first n table entries, the path is added to exactly the categories among them that match |
| FileCatalog.ScanAllEffect | torch_npu/profiler/analysis/prof_parse/cann_file_parser.py:36-50 | scanning all of `CANN_DATA_MATCH` adds the path to exactly the categories that recognise the name, and creates only their keys |
| FileCatalog.DispatchFileEffect | torch_npu/profiler/analysis/prof_parse/cann_file_parser.py:171-177 | a non-file is skipped; a file is added to exactly the categories recognising its basename |
| FileCatalog.DispatchContents | torch_npu/profiler/analysis/prof_parse/cann_file_parser.py:167-177 | after dispatch, each category holds its old paths plus the listed regular files it recognises, and gains a key only if something was added |
| FileCatalog.LookupAfterScan | torch_npu/profiler/analysis/prof_parse/cann_file_parser.py:52-55 | from an empty table, a path is in c's set exactly when it is listed, is a regular file and its basename matches a pattern of c |
| FileCatalog.ScannedInOneCategory | torch_npu/profiler/analysis/prof_parse/cann_file_parser.py:167-177 | from an empty table, a scanned path is in at most one category's set |
| FileCatalog.DispatchMonotone | torch_npu/profiler/analysis/prof_parse/cann_file_parser.py:167-177 | dispatch never removes a key or a path |
| FileCatalog.DispatchIdempotent | torch_npu/profiler/analysis/prof_parse/cann_file_parser.py:167-177 | dispatching the same listing twice gives the table of dispatching it once |
| FlowCorrelation.CorrelateFlows | torch_npu/profiler/analysis/prof_parse/cann_file_parser.py:132-148 | the two loops compute the join `AclToNpu` of the events |
| FlowCorrelation.AclToNpu | torch_npu/profiler/analysis/prof_parse/cann_file_parser.py:131-148 | the list under t is the input-order list of the events resolving to t through the flow tables, and t is a key exactly when that list is non-empty |
| FlowCorrelation.CollectIsMatching | torch_npu/profiler/analysis/prof_parse/cann_file_parser.py:140-147 | each key's list is the input-order list of the events that resolve to it, and a key exists exactly when that list is non-empty |
| FlowCorrelation.MatchingAppend | torch_npu/profiler/analysis/prof_parse/cann_file_parser.py:141-147 | the list for a concatenation of inputs is the concatenation of the lists: input order is kept |
| FlowCorrelation.MatchingCounts | torch_npu/profiler/analysis/prof_parse/cann_file_parser.py:141-147 | an event occurs in t's list as often as in the input if it resolves to t, and otherwise not at all |
| FlowCorrelation.AclToNpuPlacement | torch_npu/profiler/analysis/prof_parse/cann_file_parser.py:131-148 | an event is listed under t exactly when it is an X event whose unique id has a flow end whose flow id has a flow start at t; it is listed as often as it occurs and under no other key; a key exists exactly when some event resolves to it |
| FlowCorrelation.FlowStartsLastWins | torch_npu/profiler/analysis/prof_parse/cann_file_parser.py:134-137 | a flow id is in the start table exactly when some flow start carries it, with the timestamp of the last such event |
| FlowCorrelation.FlowEndsLastWins | torch_npu/profiler/analysis/prof_parse/cann_file_parser.py:134-139 | a unique id is in the end table exactly when some flow end carries it, with the flow id of the last such event |
| FlowCorrelation.DuplicateStartExample | torch_npu/profiler/analysis/prof_parse/cann_file_parser.py:131-148 | starts of flow 7 at 100 and 200, an end linking unique id 55 to flow 7, and an X event with unique id 55 give {200: [that event]} |
| FlowCorrelation.UnresolvedDropped | torch_npu/profiler/analysis/prof_parse/cann_file_parser.py:143-147 | an X event whose unique id has no flow end is listed nowhere |
| ExportSteps.ParsedStep | torch_npu/profiler/analysis/prof_parse/cann_file_parser.py:103 | the parsed step contains no '_', '.' or '/' |
| ExportSteps.ParsedStepOfName | torch_npu/profiler/analysis/prof_parse/cann_file_parser.py:103 | for dir/stem_step.ext, the parsed step is step |
| ExportSteps.IssueIterationExports | torch_npu/profiler/analysis/prof_parse/cann_file_parser.py:104-112 | the row loop issues exactly the calls of `IterationCalls` and reports whether it finished |
| ExportSteps.IterationCalls | torch_npu/profiler/analysis/prof_parse/cann_file_parser.py:104-112 | a loop that did not finish issued at least one call; every issued call succeeded except the last, which failed exactly when the loop did not finish |
| ExportSteps.FailureStops | torch_npu/profiler/analysis/prof_parse/cann_file_parser.py:110-112 | after a failed iteration export, later rows issue nothing |
| ExportSteps.IterationCallsSpec | torch_npu/profiler/analysis/prof_parse/cann_file_parser.py:104-112 | the calls issued are the exports of the qualifying rows in row order, up to and including the first failing one; all earlier calls succeeded; the loop finishes exactly when every qualifying row's call was issued and succeeded |
| ExportSteps.AllSucceed | torch_npu/profiler/analysis/prof_parse/cann_file_parser.py:104-112 | when every export succeeds, one call is issued per qualifying row, in row order |
| ExportSteps.QualifyingFromRows | torch_npu/profiler/analysis/prof_parse/cann_file_parser.py:106 | every qualifying step id is a row that is neither the invalid value nor the parsed step |
| ExportSteps.ThreeRowsExample | torch_npu/profiler/analysis/prof_parse/cann_file_parser.py:104-112 | rows 1, 2, 3 with parsed step 1 issue the exports for 2 and then 3 |
| ExportSteps.DuplicateRowsExample | torch_npu/profiler/analysis/prof_parse/cann_file_parser.py:104-112 | two rows with step 2 issue two identical exports: no deduplication |
| CannFileParser.LoadAll | torch_npu/profiler/analysis/prof_parse/cann_file_parser.py:114-120 | a failed load raises "Invalid CANN trace data." |
| CannFileParser.LoadAllFails | torch_npu/profiler/analysis/prof_parse/cann_file_parser.py:114-120 | loading timeline files fails exactly when one of them does not decode |
| CannFileParser.LoadAllAppend | torch_npu/profiler/analysis/prof_parse/cann_file_parser.py:114-120 | the timeline of two file lists in sequence is the first timeline extended by the second |
| CannFileParser.CANNFileParser.constructor | torch_npu/profiler/analysis/prof_parse/cann_file_parser.py:52-55 | a new parser holds the CANN path and the dispatch of its listing into an empty table |
| CannFileParser.CANNFileParser.GetFileListByType | torch_npu/profiler/analysis/prof_parse/cann_file_parser.py:150-151 | the stored set of the category, or the empty set when it has no key |
| CannFileParser.CANNFileParser.FileDispatch | torch_npu/profiler/analysis/prof_parse/cann_file_parser.py:167-177 | the table becomes `Dispatch(old table, summary ++ timeline ++ analyze listings, regular files)`: the old contents plus every recognised regular file |
| CannFileParser.CANNFileParser.DispatchFiles | torch_npu/profiler/analysis/prof_parse/cann_file_parser.py:171-177 | the loop over the listed files leaves `DispatchWith` of the old table: non-files are skipped |
| CannFileParser.CANNFileParser.ScanFile | torch_npu/profiler/analysis/prof_parse/cann_file_parser.py:174-177 | the loop over the match table leaves `ScanTable` of the old table over all its entries |
| CannFileParser.CANNFileParser.ScanCategory | torch_npu/profiler/analysis/prof_parse/cann_file_parser.py:175-177 | the loop over one category's patterns, with no break, leaves `ScanPatterns` of the old table |
| CannFileParser.CANNFileParser.GetTimelineAllData | torch_npu/profiler/analysis/prof_parse/cann_file_parser.py:114-120 | the result is the timeline of the files in the set's iteration order; on success that order lists each timeline file once; it fails exactly when some timeline file does not decode |
| CannFileParser.CANNFileParser.GetAnalyzeCommunicationData | torch_npu/profiler/analysis/prof_parse/cann_file_parser.py:122-129 | {} when the category has no file, else the loaded dict of one of its files |
| CannFileParser.CANNFileParser.GetAclToNpuData | torch_npu/profiler/analysis/prof_parse/cann_file_parser.py:131-148 | raises when the timeline does not decode; otherwise the result is the flow join of the loaded records, viewed as events |
| CannFileParser.CANNFileParser.ExportCannProfiling | torch_npu/profiler/analysis/prof_parse/cann_file_parser.py:83-112 | not a directory: no call. A failed export raises the install/set-env message naming the command. Otherwise: export then analyze; a failed analyze only warns; the table is rescanned; without step-trace files it stops; else one file is popped from the stored set and the iteration exports of `IterationCalls` follow, raising on the first failure |

## Left out

- `check_prof_data_size` is not modelled. It walks directories, sums file sizes and compares them with one threshold to print a warning.
- Running `msprof` is not modelled. The parameter `run` gives each argument list's exit code. It is a function, so the same command always returns the same code. The model records the argument lists issued.
- ExportCannProfiling: `subprocess.run` raises `FileNotFoundError` (an `OSError`) when `msprof` cannot be launched at all, at any of the three calls. That exception propagates unchanged and is not modelled: `run` always returns an exit code. The install/set-env message is raised only for a launched command with a non-zero exit code.
- The warning print after a failed analyze, which includes the process id, is the boolean `warned`.
- File reading is not modelled: file contents and the step-trace csv's `step_id` column are fields of `FileSystem`.
- `os.path.isdir` and `os.path.isfile` are set memberships.
- The `PathManager` listings are the given sequences. `PathManager.get_cann_path` is replaced by passing the CANN path itself.
- ExportCannProfiling: `isdir` is read from the same `FileSystem` value as the rescan, which is the filesystem after the export. The export is taken not to create or remove the CANN directory.
- JSON text decoding is the parameter `decode`, which returns None where `json.loads` raises. JSON numbers are integers; floats are not modelled.
- `EventBean` is the parameter `bean`, which gives an event's kind (flow start, flow end, X, other), id, unique id and timestamp. Ids and timestamps are integers, so a `None` id or timestamp is not modelled.
- `StepTraceBean` rows are their `step_id` strings, and `Constant.INVALID_VALUE` is the parameter `invalid`. A step id of another type than the parsed string is not modelled.
- The regex engine is replaced by the matcher `CannDataMatch.Matches` for the fixed pattern shapes of the table. Python's `\d` also matches non-ASCII Unicode digits; the model accepts only '0'..'9'.
- Set iteration order (`for` over a set, `next(iter(...))`, `pop()`) is a nondeterministic choice. GetTimelineAllData returns that order as a ghost value; ExportCannProfiling returns the popped file as a ghost value.
- Python sets are mutable objects shared with callers. The table stores sets as values. Only the one effect of sharing that the source relies on, `pop()` removing the chosen step-trace file from the stored set, is modelled. Aliasing through other callers holding the returned set is not.
- MemoryUseBean.MemoryUseBean.TimeUs: it is stated as exact division by 1000 over the reals. The IEEE-754 rounding of `/ 1000.0` is not modelled.
- MemoryUseBean.Unpack: the size-mismatch error names the required size only, as CPython's message "unpack requires a buffer of N bytes" does. The text of the message is not modelled.
- `_file_dict` and `acl_to_npu_dict` are Dafny maps, which have no insertion order. Python dicts keep insertion order, but no operation of the core reads these dicts in order: they are only looked up by key.
- MemoryUseBean.NewMemoryUseBean: the raw record is reduced to its constant-bytes entry, None when the key is absent. `struct.unpack` of None raises TypeError, which is modelled as the error `NoConstantBytes`. The other entries of `_origin_data` are not kept.
- The struct module is modelled only for the '<' byte order and the codes q, b, B and Q with decimal repeat counts. Other codes and byte orders are not.
- `syncbatchnorm.py`, the C++ kernel and framework files, the autograd codegen template, the contrib re-exports and the test files are not part of this model. They are device glue, numerics, registration and tests, not this component.
