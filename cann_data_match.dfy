/**
 * The trace categories of the CANN toolchain and the table of file-name
 * patterns that recognises them (`CANNDataEnum` and `CANN_DATA_MATCH`).
 *
 * Every pattern of the table is a start-anchored regular expression built from
 * literal text, `\d` (exactly one digit) and `\d+` (one or more digits); the
 * patterns are applied with `re.match`, so only the start is anchored and any
 * text may follow a match. `Matches` is that semantics written out, including
 * the backtracking choice of how many digits `\d+` consumes.
 */
module CannDataMatch {

  datatype CANNDataEnum =
    | OpSummary | NpuMemory | MsprofTimeline | StepTrace | GeMemoryRecord
    | GeOperatorMemory | L2Cache | AiCpu | Communication | Matrix
  {
    /** The enum value: ten categories numbered 0 to 9. */
    function Value(): (r: nat)
      ensures r < 10
    {
      match this
      case OpSummary => 0
      case NpuMemory => 1
      case MsprofTimeline => 2
      case StepTrace => 3
      case GeMemoryRecord => 4
      case GeOperatorMemory => 5
      case L2Cache => 6
      case AiCpu => 7
      case Communication => 8
      case Matrix => 9
    }
  }

  /** One element of a pattern after its literal head: literal text, `\d`, or `\d+`. */
  datatype Token = Lit(text: string) | Digit | Digits

  /** `^head` followed by the tokens; every pattern of the table starts with literal text. */
  datatype Pattern = Pattern(head: string, tokens: seq<Token>)

  /** `\d`, restricted to the ASCII digits. */
  predicate IsDigit(c: char) {
    '0' <= c <= '9'
  }

  predicate StartsWith(s: string, prefix: string) {
    |prefix| <= |s| && forall i :: 0 <= i < |prefix| ==> s[i] == prefix[i]
  }

  /** The tokens match some prefix of s (with backtracking over `\d+`). */
  predicate MatchTokens(p: seq<Token>, s: string)
    decreases |p|, |s|
  {
    if p == [] then true
    else
      match p[0]
      case Lit(t) => StartsWith(s, t) && MatchTokens(p[1..], s[|t|..])
      case Digit => |s| > 0 && IsDigit(s[0]) && MatchTokens(p[1..], s[1..])
      case Digits =>
        // one digit, then either the rest of the pattern or more of `\d+`
        |s| > 0 && IsDigit(s[0]) && (MatchTokens(p[1..], s[1..]) || MatchTokens(p, s[1..]))
  }

  /** Distinct categories have distinct values. */
  lemma CategoryValuesDistinct(a: CANNDataEnum, b: CANNDataEnum)
    ensures a.Value() == b.Value() <==> a == b
  {
  }

  /** A prefix the tokens match stays matched whatever text follows it. */
  lemma {:induction false} MatchTokensExtend(p: seq<Token>, s: string, t: string)
    ensures MatchTokens(p, s) ==> MatchTokens(p, s + t)
    decreases |p|, |s|
  {
    if p != [] && MatchTokens(p, s) {
      match p[0]
      case Lit(x) =>
        assert (s + t)[|x|..] == s[|x|..] + t;
        MatchTokensExtend(p[1..], s[|x|..], t);
      case Digit =>
        assert (s + t)[1..] == s[1..] + t;
        MatchTokensExtend(p[1..], s[1..], t);
      case Digits =>
        assert (s + t)[1..] == s[1..] + t;
        MatchTokensExtend(p[1..], s[1..], t);
        MatchTokensExtend(p, s[1..], t);
    }
  }

  /** The head and tokens of p match the start of s, whatever text follows. */
  lemma PrefixMatchExtends(p: Pattern, s: string)
    ensures StartsWith(s, p.head) && MatchTokens(p.tokens, s[|p.head|..]) ==>
            forall t :: StartsWith(s + t, p.head) && MatchTokens(p.tokens, (s + t)[|p.head|..])
  {
    if StartsWith(s, p.head) && MatchTokens(p.tokens, s[|p.head|..]) {
      forall t ensures StartsWith(s + t, p.head) && MatchTokens(p.tokens, (s + t)[|p.head|..]) {
        assert (s + t)[|p.head|..] == s[|p.head|..] + t;
        MatchTokensExtend(p.tokens, s[|p.head|..], t);
      }
    }
  }

  /**
   * `re.match(p, s)` succeeds: p matches some prefix of s. Only the start is
   * anchored, so a match survives any text appended to s.
   */
  predicate Matches(p: Pattern, s: string): (r: bool)
    ensures r ==> forall t :: StartsWith(s + t, p.head) && MatchTokens(p.tokens, (s + t)[|p.head|..])
  {
    PrefixMatchExtends(p, s);
    StartsWith(s, p.head) && MatchTokens(p.tokens, s[|p.head|..])
  }

  /** Some pattern of the list matches. */
  predicate MatchesAny(patterns: seq<Pattern>, s: string) {
    exists k :: 0 <= k < |patterns| && Matches(patterns[k], s)
  }

  /** `^<head>\d_\d+<ext>` */
  function Numbered(head: string, ext: string): Pattern {
    Pattern(head, [Digit, Lit("_"), Digits, Lit(ext)])
  }

  /** `^<head>\d_\d+_\d+<ext>` */
  function NumberedTwice(head: string, ext: string): Pattern {
    Pattern(head, [Digit, Lit("_"), Digits, Lit("_"), Digits, Lit(ext)])
  }

  /** `CANN_DATA_MATCH`, in its declaration order. */
  const CANN_DATA_MATCH: seq<(CANNDataEnum, seq<Pattern>)> := [
    (OpSummary, [Numbered("op_summary_", ".csv"), NumberedTwice("op_summary_", ".csv")]),
    (NpuMemory, [Numbered("npu_mem_", ".csv"), NumberedTwice("npu_mem_", ".csv")]),
    (MsprofTimeline, [
      Numbered("msprof_", ".json"), NumberedTwice("msprof_", ".json"),
      Pattern("msprof_", [Digit, Lit("_"), Digits, Lit("_slice_"), Digits, Lit(".json")]),
      Pattern("msprof_", [Digit, Lit("_"), Digits, Lit("_"), Digits, Lit("_slice_"), Digits, Lit(".json")])]),
    (StepTrace, [Numbered("step_trace_", ".csv"), NumberedTwice("step_trace_", ".csv")]),
    (GeMemoryRecord, [
      Numbered("ge_memory_record_", ".csv"), NumberedTwice("ge_memory_record_", ".csv"),
      Numbered("memory_record_", ".csv"), NumberedTwice("memory_record_", ".csv")]),
    (GeOperatorMemory, [
      Numbered("ge_operator_memory_", ".csv"), NumberedTwice("ge_operator_memory_", ".csv"),
      Numbered("operator_memory_", ".csv"), NumberedTwice("operator_memory_", ".csv")]),
    (L2Cache, [Numbered("l2_cache_", ".csv"), NumberedTwice("l2_cache_", ".csv")]),
    (AiCpu, [Numbered("aicpu_", ".csv"), NumberedTwice("aicpu_", ".csv")]),
    (Communication, [Pattern("communication.json", [])]),
    (Matrix, [Pattern("communication_matrix.json", [])])
  ]

  /** The file name matches at least one pattern listed for category c. */
  predicate Classified(c: CANNDataEnum, name: string) {
    exists j :: 0 <= j < |CANN_DATA_MATCH| && CANN_DATA_MATCH[j].0 == c && MatchesAny(CANN_DATA_MATCH[j].1, name)
  }

  /**
   * The category selected by a name's leading characters: the literal heads of
   * different categories first differ at index 0, 1, 2, 3 or 13.
   */
  predicate HeadSelects(s: string, c: CANNDataEnum) {
    |s| > 3 &&
    match s[0]
    case 'o' => c == (if s[2] == '_' then OpSummary else GeOperatorMemory)
    case 'n' => c == NpuMemory
    case 'm' => c == (if s[1] == 's' then MsprofTimeline else GeMemoryRecord)
    case 's' => c == StepTrace
    case 'g' => c == (if s[3] == 'm' then GeMemoryRecord else GeOperatorMemory)
    case 'l' => c == L2Cache
    case 'a' => c == AiCpu
    case 'c' => |s| > 13 && c == (if s[13] == '.' then Communication else Matrix)
    case _ => false
  }

  /** The literal head of a pattern decides its category. */
  lemma PatternSelectsCategory(s: string, j: nat, k: nat)
    requires j < |CANN_DATA_MATCH| && k < |CANN_DATA_MATCH[j].1|
    ensures StartsWith(s, CANN_DATA_MATCH[j].1[k].head) ==> HeadSelects(s, CANN_DATA_MATCH[j].0)
  {
    var h := CANN_DATA_MATCH[j].1[k].head;
    if j == 0 {
      assert h == "op_summary_";
    } else if j == 1 {
      assert h == "npu_mem_";
    } else if j == 2 {
      assert h == "msprof_";
    } else if j == 3 {
      assert h == "step_trace_";
    } else if j == 4 {
      assert h == "ge_memory_record_" || h == "memory_record_";
    } else if j == 5 {
      assert h == "ge_operator_memory_" || h == "operator_memory_";
    } else if j == 6 {
      assert h == "l2_cache_";
    } else if j == 7 {
      assert h == "aicpu_";
    } else if j == 8 {
      assert h == "communication.json";
    } else {
      assert h == "communication_matrix.json";
    }
    if StartsWith(s, h) {
      assert s[0] == h[0] && s[1] == h[1] && s[2] == h[2] && s[3] == h[3];
      if h[0] == 'c' {
        assert s[13] == h[13];
      }
    }
  }

  /** The table lists the categories in the order of their values. */
  lemma TableOrder(j: nat)
    requires j < |CANN_DATA_MATCH|
    ensures CANN_DATA_MATCH[j].0.Value() == j
  {
    if j < 5 {
      if j == 0 {} else if j == 1 {} else if j == 2 {} else if j == 3 {} else {}
    } else {
      if j == 5 {} else if j == 6 {} else if j == 7 {} else if j == 8 {} else {}
    }
  }

  /** Every category has an entry of the table: the one at its value. */
  lemma TableCoversCategories(c: CANNDataEnum)
    ensures c.Value() < |CANN_DATA_MATCH| && CANN_DATA_MATCH[c.Value()].0 == c
  {
    TableOrder(c.Value());
    CategoryValuesDistinct(c, CANN_DATA_MATCH[c.Value()].0);
  }

  /** A classified name carries the head of its category. */
  lemma ClassifiedSelects(name: string, c: CANNDataEnum)
    ensures Classified(c, name) ==> HeadSelects(name, c)
  {
    if Classified(c, name) {
      var j :| 0 <= j < |CANN_DATA_MATCH| && CANN_DATA_MATCH[j].0 == c && MatchesAny(CANN_DATA_MATCH[j].1, name);
      var k :| 0 <= k < |CANN_DATA_MATCH[j].1| && Matches(CANN_DATA_MATCH[j].1[k], name);
      PatternSelectsCategory(name, j, k);
    }
  }

  /**
   * The table sends a file name to at most one category, although the
   * dispatch loop tries every pattern of every category.
   */
  lemma AtMostOneCategory(name: string, c1: CANNDataEnum, c2: CANNDataEnum)
    requires Classified(c1, name) && Classified(c2, name)
    ensures c1 == c2
  {
    ClassifiedSelects(name, c1);
    ClassifiedSelects(name, c2);
  }

  predicate AllDigits(s: string) {
    forall i :: 0 <= i < |s| ==> IsDigit(s[i])
  }

  /** `\d+` consumes any nonempty run of digits before the rest of a pattern. */
  lemma {:induction false} DigitsMatch(p: seq<Token>, digits: string, rest: string)
    requires digits != [] && AllDigits(digits)
    requires MatchTokens(p, rest)
    ensures MatchTokens([Digits] + p, digits + rest)
    decreases |digits|
  {
    var s := digits + rest;
    assert s[0] == digits[0];
    assert ([Digits] + p)[0] == Digits && ([Digits] + p)[1..] == p;
    if |digits| == 1 {
      assert s[1..] == rest;
    } else {
      assert s[1..] == digits[1..] + rest;
      DigitsMatch(p, digits[1..], rest);
    }
  }

  lemma LitMatch(t: string, p: seq<Token>, rest: string)
    requires MatchTokens(p, rest)
    ensures MatchTokens([Lit(t)] + p, t + rest)
  {
    var s := t + rest;
    assert ([Lit(t)] + p)[0] == Lit(t) && ([Lit(t)] + p)[1..] == p;
    assert s[|t|..] == rest;
    assert StartsWith(s, t);
  }

  lemma DigitMatch(d: char, p: seq<Token>, rest: string)
    requires IsDigit(d) && MatchTokens(p, rest)
    ensures MatchTokens([Digit] + p, [d] + rest)
  {
    assert ([Digit] + p)[0] == Digit && ([Digit] + p)[1..] == p;
    assert ([d] + rest)[1..] == rest;
  }

  /** `<head>\d_\d+<ext>` matches such a name, whatever text follows it. */
  lemma NumberedMatches(head: string, ext: string, d: char, digits: string, rest: string)
    requires IsDigit(d) && digits != [] && AllDigits(digits)
    ensures Matches(Numbered(head, ext), head + ([d] + ("_" + (digits + (ext + rest)))))
  {
    var t2 := ext + rest;
    var t1 := digits + t2;
    var t0 := "_" + t1;
    var tail := [d] + t0;
    LitMatch(ext, [], rest);
    assert [Lit(ext)] + [] == [Lit(ext)];
    DigitsMatch([Lit(ext)], digits, t2);
    assert [Digits] + [Lit(ext)] == [Digits, Lit(ext)];
    LitMatch("_", [Digits, Lit(ext)], t1);
    assert [Lit("_")] + [Digits, Lit(ext)] == [Lit("_"), Digits, Lit(ext)];
    DigitMatch(d, [Lit("_"), Digits, Lit(ext)], t0);
    assert [Digit] + [Lit("_"), Digits, Lit(ext)] == Numbered(head, ext).tokens;
    var s := head + tail;
    assert s[|head|..] == tail;
    assert StartsWith(s, head);
  }

  /** `<head>\d_\d+_\d+<ext>` matches such a name, whatever text follows it. */
  lemma NumberedTwiceMatches(head: string, ext: string, d: char, digits1: string, digits2: string, rest: string)
    requires IsDigit(d) && digits1 != [] && AllDigits(digits1) && digits2 != [] && AllDigits(digits2)
    ensures Matches(NumberedTwice(head, ext), head + ([d] + ("_" + (digits1 + ("_" + (digits2 + (ext + rest)))))))
  {
    var t4 := ext + rest;
    var t3 := digits2 + t4;
    var t2 := "_" + t3;
    var t1 := digits1 + t2;
    var t0 := "_" + t1;
    var tail := [d] + t0;
    LitMatch(ext, [], rest);
    assert [Lit(ext)] + [] == [Lit(ext)];
    DigitsMatch([Lit(ext)], digits2, t4);
    assert [Digits] + [Lit(ext)] == [Digits, Lit(ext)];
    LitMatch("_", [Digits, Lit(ext)], t3);
    assert [Lit("_")] + [Digits, Lit(ext)] == [Lit("_"), Digits, Lit(ext)];
    DigitsMatch([Lit("_"), Digits, Lit(ext)], digits1, t2);
    assert [Digits] + [Lit("_"), Digits, Lit(ext)] == [Digits, Lit("_"), Digits, Lit(ext)];
    LitMatch("_", [Digits, Lit("_"), Digits, Lit(ext)], t1);
    assert [Lit("_")] + [Digits, Lit("_"), Digits, Lit(ext)] == [Lit("_"), Digits, Lit("_"), Digits, Lit(ext)];
    DigitMatch(d, [Lit("_"), Digits, Lit("_"), Digits, Lit(ext)], t0);
    assert [Digit] + [Lit("_"), Digits, Lit("_"), Digits, Lit(ext)] == NumberedTwice(head, ext).tokens;
    var s := head + tail;
    assert s[|head|..] == tail;
    assert StartsWith(s, head);
  }

  /** The second token of both numbered patterns is the literal "_". */
  lemma UnderscoreSecond(p: seq<Token>, t: string)
    requires |p| > 1 && p[0] == Digit && p[1] == Lit("_")
    requires |t| > 1 && t[1] != '_'
    ensures !MatchTokens(p, t)
  {
    assert p[1..][0] == Lit("_");
    assert t[1..][0] == t[1];
    assert !StartsWith(t[1..], "_");
  }

  /**
   * `\d` is exactly one digit: a name whose head is followed by two digits
   * matches neither numbered pattern of that head.
   */
  lemma TwoDigitsUnmatched(head: string, ext: string, s: string)
    requires StartsWith(s, head) && |s| > |head| + 1 && IsDigit(s[|head| + 1])
    ensures !Matches(Numbered(head, ext), s) && !Matches(NumberedTwice(head, ext), s)
  {
    var t := s[|head|..];
    assert t[1] == s[|head| + 1];
    UnderscoreSecond(Numbered(head, ext).tokens, t);
    UnderscoreSecond(NumberedTwice(head, ext).tokens, t);
  }

  const OP_SUMMARY_EXAMPLE: string := "op_summary_1_100.csv"

  /** A summary file of device 1 is an op-summary file and nothing else. */
  lemma OpSummaryExample(c: CANNDataEnum)
    ensures Classified(OpSummary, OP_SUMMARY_EXAMPLE)
    ensures Classified(c, OP_SUMMARY_EXAMPLE) <==> c == OpSummary
  {
    OpSummaryMatches();
    assert Matches(CANN_DATA_MATCH[0].1[0], OP_SUMMARY_EXAMPLE);
    if Classified(c, OP_SUMMARY_EXAMPLE) {
      AtMostOneCategory(OP_SUMMARY_EXAMPLE, c, OpSummary);
    }
  }

  lemma OpSummaryMatches()
    ensures Matches(Numbered("op_summary_", ".csv"), OP_SUMMARY_EXAMPLE)
  {
    NumberedMatches("op_summary_", ".csv", '1', "100", "");
    OpSummaryName();
  }

  lemma OpSummaryName()
    ensures OP_SUMMARY_EXAMPLE == "op_summary_" + (['1'] + ("_" + ("100" + (".csv" + ""))))
  {
  }

  const GE_MEMORY_RECORD_EXAMPLE: string := "ge_memory_record_1_100.csv"
  const MEMORY_RECORD_EXAMPLE: string := "memory_record_1_100.csv"

  /** The old name of the memory-record file goes to GE_MEMORY_RECORD and nowhere else. */
  lemma GeMemoryRecordExample(c: CANNDataEnum)
    ensures Classified(c, GE_MEMORY_RECORD_EXAMPLE) <==> c == GeMemoryRecord
  {
    GeMemoryRecordMatches();
    assert Matches(CANN_DATA_MATCH[4].1[0], GE_MEMORY_RECORD_EXAMPLE);
    if Classified(c, GE_MEMORY_RECORD_EXAMPLE) {
      AtMostOneCategory(GE_MEMORY_RECORD_EXAMPLE, c, GeMemoryRecord);
    }
  }

  lemma GeMemoryRecordMatches()
    ensures Matches(Numbered("ge_memory_record_", ".csv"), GE_MEMORY_RECORD_EXAMPLE)
  {
    NumberedMatches("ge_memory_record_", ".csv", '1', "100", "");
    GeMemoryRecordName();
  }

  lemma GeMemoryRecordName()
    ensures GE_MEMORY_RECORD_EXAMPLE == "ge_memory_record_" + (['1'] + ("_" + ("100" + (".csv" + ""))))
  {
  }

  /** The new name of the memory-record file goes to the same category, and nowhere else. */
  lemma MemoryRecordExample(c: CANNDataEnum)
    ensures Classified(c, MEMORY_RECORD_EXAMPLE) <==> c == GeMemoryRecord
  {
    MemoryRecordMatches();
    assert Matches(CANN_DATA_MATCH[4].1[2], MEMORY_RECORD_EXAMPLE);
    if Classified(c, MEMORY_RECORD_EXAMPLE) {
      AtMostOneCategory(MEMORY_RECORD_EXAMPLE, c, GeMemoryRecord);
    }
  }

  lemma MemoryRecordMatches()
    ensures Matches(Numbered("memory_record_", ".csv"), MEMORY_RECORD_EXAMPLE)
  {
    NumberedMatches("memory_record_", ".csv", '1', "100", "");
    MemoryRecordName();
  }

  lemma MemoryRecordName()
    ensures MEMORY_RECORD_EXAMPLE == "memory_record_" + (['1'] + ("_" + ("100" + (".csv" + ""))))
  {
  }

  /** `re.match` anchors only the start: text after the extension is accepted. */
  lemma TrailingTextExample()
    ensures Classified(GeMemoryRecord, "memory_record_0_12_3.csv.bak")
  {
    TrailingTextMatches();
    assert Matches(CANN_DATA_MATCH[4].1[3], "memory_record_0_12_3.csv.bak");
  }

  lemma TrailingTextMatches()
    ensures Matches(NumberedTwice("memory_record_", ".csv"), "memory_record_0_12_3.csv.bak")
  {
    NumberedTwiceMatches("memory_record_", ".csv", '0', "12", "3", ".bak");
    TrailingTextName();
  }

  lemma TrailingTextName()
    ensures "memory_record_0_12_3.csv.bak" == "memory_record_" + (['0'] + ("_" + ("12" + ("_" + ("3" + (".csv" + ".bak"))))))
  {
  }

  const TWO_DIGIT_DEVICE_EXAMPLE: string := "op_summary_12_100.csv"

  /** A device number of two digits is not recognised by any category. */
  lemma TwoDigitDeviceExample(c: CANNDataEnum)
    ensures !Classified(c, TWO_DIGIT_DEVICE_EXAMPLE)
  {
    ClassifiedSelects(TWO_DIGIT_DEVICE_EXAMPLE, c);
    TwoDigitDeviceHead(c);
    if c == OpSummary {
      TwoDigitDeviceNoSummary();
    }
  }

  /** Only OP_SUMMARY's head fits the two-digit name. */
  lemma TwoDigitDeviceHead(c: CANNDataEnum)
    ensures HeadSelects(TWO_DIGIT_DEVICE_EXAMPLE, c) ==> c == OpSummary
  {
    var s := TWO_DIGIT_DEVICE_EXAMPLE;
    assert s[0] == 'o' && s[2] == '_';
  }

  /** Neither OP_SUMMARY pattern accepts the two-digit name. */
  lemma TwoDigitDeviceNoSummary()
    ensures forall j :: 0 <= j < |CANN_DATA_MATCH| && CANN_DATA_MATCH[j].0 == OpSummary ==>
                        !MatchesAny(CANN_DATA_MATCH[j].1, TWO_DIGIT_DEVICE_EXAMPLE)
  {
    var s := TWO_DIGIT_DEVICE_EXAMPLE;
    assert StartsWith(s, "op_summary_") && s[12] == '2';
    TwoDigitsUnmatched("op_summary_", ".csv", s);
    forall j | 0 <= j < |CANN_DATA_MATCH| && CANN_DATA_MATCH[j].0 == OpSummary
      ensures !MatchesAny(CANN_DATA_MATCH[j].1, s)
    {
      TableOrder(j);
    }
  }

  /** The two communication files are told apart at their 14th character. */
  lemma CommunicationExample(c: CANNDataEnum)
    ensures Classified(c, "communication.json") <==> c == Communication
  {
    var a := "communication.json";
    assert StartsWith(a, a) && MatchTokens([], a[|a|..]);
    assert Matches(CANN_DATA_MATCH[8].1[0], a);
    ClassifiedSelects(a, c);
  }

  /** The matrix file is the other of the two. */
  lemma MatrixExample(c: CANNDataEnum)
    ensures Classified(c, "communication_matrix.json") <==> c == Matrix
  {
    var b := "communication_matrix.json";
    assert StartsWith(b, b) && MatchTokens([], b[|b|..]);
    assert Matches(CANN_DATA_MATCH[9].1[0], b);
    ClassifiedSelects(b, c);
  }
}
