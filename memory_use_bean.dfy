/**
 * The memory-event record of the profiler: a fixed little-endian binary
 * layout, described by the struct format string "<5qbB2Q", unpacked once
 * into a nine-entry tuple and read through nine accessors indexed by
 * `MemoryEnum`.
 *
 * The struct module itself is modelled only as far as this format needs:
 * the standard-size, no-padding byte order '<' and the codes q, b, B and Q,
 * each optionally preceded by a decimal repeat count.
 */
module MemoryUseBean {
  import opened Wrappers

  type Byte = b: int | 0 <= b < 256

  /** 256^n: the number of distinct values of an n-byte field. */
  function Pow256(n: nat): (r: nat)
    ensures r >= 1
  {
    if n == 0 then 1 else 256 * Pow256(n - 1)
  }

  /** The struct format codes used by the memory record: q, b, B and Q. */
  datatype FieldFormat = Int64 | Int8 | UInt8 | UInt64
  {
    /** Standard size in bytes under the '<' byte order. */
    function Size(): nat {
      match this
      case Int64 => 8
      case UInt64 => 8
      case Int8 => 1
      case UInt8 => 1
    }

    predicate Signed() {
      this == Int64 || this == Int8
    }

    /** The values the field can hold: two's complement when signed. */
    predicate InRange(v: int) {
      if Signed() then -(Pow256(Size()) / 2) <= v < Pow256(Size()) / 2
      else 0 <= v < Pow256(Size())
    }
  }

  function FormatCode(c: char): Option<FieldFormat> {
    match c
    case 'q' => Some(Int64)
    case 'b' => Some(Int8)
    case 'B' => Some(UInt8)
    case 'Q' => Some(UInt64)
    case _ => None
  }

  function Repeat(f: FieldFormat, n: nat): (r: seq<FieldFormat>)
    ensures |r| == n && forall k :: 0 <= k < n ==> r[k] == f
  {
    if n == 0 then [] else [f] + Repeat(f, n - 1)
  }

  /**
   * Expands the codes after the byte-order character; `pending` is the repeat
   * count read so far and `counted` says whether any digit of it was read.
   * A dangling count or an unknown code is a format error (None).
   */
  function ExpandCodes(s: string, pending: nat, counted: bool): Option<seq<FieldFormat>>
    decreases |s|
  {
    if s == [] then
      if counted then None else Some([])
    else if '0' <= s[0] <= '9' then
      ExpandCodes(s[1..], pending * 10 + (s[0] as int - '0' as int), true)
    else
      match FormatCode(s[0])
      case None => None
      case Some(f) =>
        match ExpandCodes(s[1..], 0, false)
        case None => None
        case Some(rest) => Some(Repeat(f, if counted then pending else 1) + rest)
  }

  /** The field list a '<' format string describes. */
  function ParseFormat(fmt: string): Option<seq<FieldFormat>> {
    if |fmt| > 0 && fmt[0] == '<' then ExpandCodes(fmt[1..], 0, false) else None
  }

  /** struct.calcsize for the '<' byte order: no alignment padding. */
  function CalcSize(fmt: seq<FieldFormat>): nat {
    if fmt == [] then 0 else fmt[0].Size() + CalcSize(fmt[1..])
  }

  /** Byte offset of field k: the sizes of the fields before it. */
  function Offset(fmt: seq<FieldFormat>, k: nat): nat
    requires k <= |fmt|
  {
    CalcSize(fmt[..k])
  }

  const CONSTANT_STRUCT: string := "<5qbB2Q"

  /** The field list of CONSTANT_STRUCT written out. */
  const LAYOUT: seq<FieldFormat> :=
    [Int64, Int64, Int64, Int64, Int64, Int8, UInt8, UInt64, UInt64]

  /** Unsigned little-endian value of a byte string. */
  function LeUnsigned(bytes: seq<Byte>): (r: nat)
    ensures r < Pow256(|bytes|)
  {
    if bytes == [] then 0 else bytes[0] + 256 * LeUnsigned(bytes[1..])
  }

  /** The n little-endian bytes of n mod 256^w. */
  function LeBytes(v: nat, w: nat): (r: seq<Byte>)
    ensures |r| == w
  {
    if w == 0 then [] else [v % 256] + LeBytes(v / 256, w - 1)
  }

  /** Reads one field from exactly its own bytes. */
  function DecodeField(f: FieldFormat, bytes: seq<Byte>): (r: int)
    requires |bytes| == f.Size()
    ensures f.InRange(r)
  {
    var u := LeUnsigned(bytes);
    if f.Signed() && u >= Pow256(f.Size()) / 2 then u - Pow256(f.Size()) else u
  }

  /** Writes one field: the two's complement bytes of v. */
  function EncodeField(f: FieldFormat, v: int): (r: seq<Byte>)
    requires f.InRange(v)
    ensures |r| == f.Size()
  {
    LeBytes(if v < 0 then v + Pow256(f.Size()) else v, f.Size())
  }

  function UnpackFields(fmt: seq<FieldFormat>, data: seq<Byte>): (r: seq<int>)
    requires |data| == CalcSize(fmt)
    ensures |r| == |fmt|
  {
    if fmt == [] then []
    else [DecodeField(fmt[0], data[..fmt[0].Size()])] + UnpackFields(fmt[1..], data[fmt[0].Size()..])
  }

  predicate AllInRange(fmt: seq<FieldFormat>, values: seq<int>) {
    |values| == |fmt| && forall k :: 0 <= k < |fmt| ==> fmt[k].InRange(values[k])
  }

  datatype StructError = UnpackSizeMismatch(required: nat)

  /** struct.unpack: a buffer of any other length than calcsize is an error. */
  function Unpack(fmt: seq<FieldFormat>, data: seq<Byte>): (r: Result<seq<int>, StructError>)
    ensures r.Success? <==> |data| == CalcSize(fmt)
    ensures r.Failure? ==> r.error == UnpackSizeMismatch(CalcSize(fmt))
    ensures r.Success? ==> AllInRange(fmt, r.value)
  {
    if |data| != CalcSize(fmt) then Failure(UnpackSizeMismatch(CalcSize(fmt)))
    else
      var values := UnpackFields(fmt, data);
      UnpackFieldsInRange(fmt, data);
      Success(values)
  }

  /** struct.pack, for values each within its field's range. */
  function Pack(fmt: seq<FieldFormat>, values: seq<int>): (r: seq<Byte>)
    requires AllInRange(fmt, values)
    ensures |r| == CalcSize(fmt)
  {
    if fmt == [] then [] else EncodeField(fmt[0], values[0]) + Pack(fmt[1..], values[1..])
  }

  /*** Little-endian lemmas ***/

  lemma {:induction false} LeUnsignedLeBytes(v: nat, w: nat)
    requires v < Pow256(w)
    ensures LeUnsigned(LeBytes(v, w)) == v
  {
    if w > 0 {
      LeUnsignedLeBytes(v / 256, w - 1);
      var b := LeBytes(v, w);
      assert b[1..] == LeBytes(v / 256, w - 1);
    }
  }

  lemma {:induction false} LeBytesLeUnsigned(bytes: seq<Byte>)
    ensures LeBytes(LeUnsigned(bytes), |bytes|) == bytes
  {
    if bytes != [] {
      var u := LeUnsigned(bytes[1..]);
      var v := bytes[0] + 256 * u;
      assert v % 256 == bytes[0] && v / 256 == u;
      LeBytesLeUnsigned(bytes[1..]);
      assert bytes == [bytes[0]] + bytes[1..];
    }
  }

  lemma FieldRoundTrip(f: FieldFormat, v: int)
    requires f.InRange(v)
    ensures DecodeField(f, EncodeField(f, v)) == v
  {
    LeUnsignedLeBytes(if v < 0 then v + Pow256(f.Size()) else v, f.Size());
  }

  lemma FieldBytesRoundTrip(f: FieldFormat, bytes: seq<Byte>)
    requires |bytes| == f.Size()
    ensures EncodeField(f, DecodeField(f, bytes)) == bytes
  {
    LeBytesLeUnsigned(bytes);
  }

  /*** struct lemmas ***/

  lemma {:induction false} UnpackFieldsInRange(fmt: seq<FieldFormat>, data: seq<Byte>)
    requires |data| == CalcSize(fmt)
    ensures AllInRange(fmt, UnpackFields(fmt, data))
  {
    if fmt != [] {
      UnpackFieldsInRange(fmt[1..], data[fmt[0].Size()..]);
      var r := UnpackFields(fmt, data);
      forall k | 0 <= k < |fmt| ensures fmt[k].InRange(r[k]) {
        if k > 0 {
          assert r[k] == UnpackFields(fmt[1..], data[fmt[0].Size()..])[k - 1];
          assert fmt[k] == fmt[1..][k - 1];
        }
      }
    }
  }

  /** Decoding values that were packed gives those values back. */
  lemma {:induction false} UnpackPack(fmt: seq<FieldFormat>, values: seq<int>)
    requires AllInRange(fmt, values)
    ensures Unpack(fmt, Pack(fmt, values)) == Success(values)
  {
    if fmt != [] {
      var head := EncodeField(fmt[0], values[0]);
      var tail := Pack(fmt[1..], values[1..]);
      assert AllInRange(fmt[1..], values[1..]) by {
        forall k | 0 <= k < |fmt| - 1 ensures fmt[1..][k].InRange(values[1..][k]) {
          assert fmt[k + 1].InRange(values[k + 1]);
        }
      }
      UnpackPack(fmt[1..], values[1..]);
      FieldRoundTrip(fmt[0], values[0]);
      assert (head + tail)[..fmt[0].Size()] == head;
      assert (head + tail)[fmt[0].Size()..] == tail;
      assert values == [values[0]] + values[1..];
    }
  }

  /** Re-packing what a buffer of the right size unpacks to gives the buffer back. */
  lemma {:induction false} PackUnpack(fmt: seq<FieldFormat>, data: seq<Byte>)
    requires |data| == CalcSize(fmt)
    ensures Unpack(fmt, data).Success?
    ensures Pack(fmt, Unpack(fmt, data).value) == data
  {
    if fmt != [] {
      var n := fmt[0].Size();
      var head, rest := data[..n], data[n..];
      PackUnpack(fmt[1..], rest);
      var values := UnpackFields(fmt, data);
      assert values == [DecodeField(fmt[0], head)] + UnpackFields(fmt[1..], rest);
      assert values[1..] == UnpackFields(fmt[1..], rest);
      UnpackFieldsInRange(fmt, data);
      FieldBytesRoundTrip(fmt[0], head);
      assert Pack(fmt, values) == EncodeField(fmt[0], values[0]) + Pack(fmt[1..], values[1..]);
      assert data == head + rest;
    }
  }

  lemma {:induction false} CalcSizeSplit(fmt: seq<FieldFormat>, k: nat)
    requires k <= |fmt|
    ensures CalcSize(fmt) == CalcSize(fmt[..k]) + CalcSize(fmt[k..])
  {
    if k > 0 {
      CalcSizeSplit(fmt[1..], k - 1);
      assert fmt[1..][..k - 1] == fmt[..k][1..];
      assert fmt[1..][k - 1..] == fmt[k..];
    }
  }

  /** Field k of an unpacked buffer is read from the bytes at Offset(fmt, k). */
  lemma {:induction false} UnpackFieldAt(fmt: seq<FieldFormat>, data: seq<Byte>, k: nat)
    requires |data| == CalcSize(fmt) && k < |fmt|
    ensures Offset(fmt, k) + fmt[k].Size() <= |data|
    ensures UnpackFields(fmt, data)[k] == DecodeField(fmt[k], data[Offset(fmt, k)..Offset(fmt, k) + fmt[k].Size()])
  {
    OffsetBound(fmt, k);
    var n := fmt[0].Size();
    var rest := UnpackFields(fmt[1..], data[n..]);
    assert UnpackFields(fmt, data) == [DecodeField(fmt[0], data[..n])] + rest;
    if k == 0 {
      assert fmt[..0] == [];
      assert data[0..n] == data[..n];
    } else {
      OffsetStep(fmt, k);
      UnpackFieldAt(fmt[1..], data[n..], k - 1);
      assert UnpackFields(fmt, data)[k] == rest[k - 1];
      var o := Offset(fmt[1..], k - 1);
      assert fmt[1..][k - 1] == fmt[k];
      SliceOfSlice(data, n, o, o + fmt[k].Size());
    }
  }

  /** Field k ends within the buffer. */
  lemma OffsetBound(fmt: seq<FieldFormat>, k: nat)
    requires k < |fmt|
    ensures Offset(fmt, k) + fmt[k].Size() <= CalcSize(fmt)
  {
    CalcSizeSplit(fmt, k);
    assert fmt[k..][0] == fmt[k];
  }

  /** The offset of field k is the first field's size plus k - 1's offset in the rest. */
  lemma OffsetStep(fmt: seq<FieldFormat>, k: nat)
    requires 0 < k <= |fmt|
    ensures Offset(fmt, k) == fmt[0].Size() + Offset(fmt[1..], k - 1)
  {
    assert fmt[..k][0] == fmt[0];
    assert fmt[..k][1..] == fmt[1..][..k - 1];
  }

  lemma SliceOfSlice<T>(s: seq<T>, a: nat, b: nat, c: nat)
    requires a <= |s| && b <= c <= |s| - a
    ensures s[a..][b..c] == s[a + b..a + c]
  {
  }

  /*** The memory record ***/

  /** MemoryEnum: the index of each accessor's entry in the unpacked tuple. */
  datatype MemoryEnum =
    | Ptr | TimeNs | AllocSize | TotalAllocated | TotalReserved
    | DeviceType | DeviceIndex | ThreadId | ProcessId
  {
    /** The enum value: the nine entries of the tuple, numbered 0 to 8. */
    function Value(): (r: nat)
      ensures r < 9
    {
      match this
      case Ptr => 0
      case TimeNs => 1
      case AllocSize => 2
      case TotalAllocated => 3
      case TotalReserved => 4
      case DeviceType => 5
      case DeviceIndex => 6
      case ThreadId => 7
      case ProcessId => 8
    }
  }

  /** Distinct accessors read distinct entries. */
  lemma MemoryEnumValuesDistinct(a: MemoryEnum, b: MemoryEnum)
    ensures a.Value() == b.Value() <==> a == b
  {
  }

  /** The unpacked tuple: one entry per field of LAYOUT. */
  type Unpacked = s: seq<int> | |s| == 9 witness [0, 0, 0, 0, 0, 0, 0, 0, 0]

  /** The missing-key error (unpacking None) and the wrong-size error. */
  datatype BeanError = NoConstantBytes | StructFailure(e: StructError)

  /**
   * A decoded record. It holds the unpacked tuple and nothing else changes it:
   * every accessor is a projection.
   */
  datatype MemoryUseBean = MemoryUseBean(constantData: Unpacked)
  {
    /** Every entry lies in the range of its field of LAYOUT. */
    predicate Valid() {
      AllInRange(LAYOUT, constantData)
    }

    /** The entry an accessor reads; in a valid record it lies in its field's range. */
    function Field(e: MemoryEnum): (r: int)
      ensures Valid() ==> LAYOUT[e.Value()].InRange(r)
    {
      constantData[e.Value()]
    }

    /** ptr, alloc_size, total_allocated and total_reserved are q fields: signed 64-bit. */
    function Ptr(): (r: int)
      ensures Valid() ==> -0x8000_0000_0000_0000 <= r < 0x8000_0000_0000_0000
    {
      Pow256Values();
      Field(MemoryEnum.Ptr)
    }

    function AllocSize(): (r: int)
      ensures Valid() ==> -0x8000_0000_0000_0000 <= r < 0x8000_0000_0000_0000
    {
      Pow256Values();
      Field(MemoryEnum.AllocSize)
    }

    function TotalAllocated(): (r: int)
      ensures Valid() ==> -0x8000_0000_0000_0000 <= r < 0x8000_0000_0000_0000
    {
      Pow256Values();
      Field(MemoryEnum.TotalAllocated)
    }

    function TotalReserved(): (r: int)
      ensures Valid() ==> -0x8000_0000_0000_0000 <= r < 0x8000_0000_0000_0000
    {
      Pow256Values();
      Field(MemoryEnum.TotalReserved)
    }

    /** device_type is the b field: a signed byte. */
    function DeviceType(): (r: int)
      ensures Valid() ==> -128 <= r < 128
    {
      Pow256Values();
      Field(MemoryEnum.DeviceType)
    }

    /** device_index is the B field: an unsigned byte. */
    function DeviceIndex(): (r: int)
      ensures Valid() ==> 0 <= r < 256
    {
      Pow256Values();
      Field(MemoryEnum.DeviceIndex)
    }

    /** tid and pid are Q fields: unsigned 64-bit. */
    function Tid(): (r: int)
      ensures Valid() ==> 0 <= r < 0x1_0000_0000_0000_0000
    {
      Pow256Values();
      Field(MemoryEnum.ThreadId)
    }

    function Pid(): (r: int)
      ensures Valid() ==> 0 <= r < 0x1_0000_0000_0000_0000
    {
      Pow256Values();
      Field(MemoryEnum.ProcessId)
    }

    /** Microseconds from the stored nanoseconds; exact real division. */
    function TimeUs(): (r: real)
      ensures r * 1000.0 == Field(MemoryEnum.TimeNs) as real
    {
      Field(MemoryEnum.TimeNs) as real / 1000.0
    }
  }

  /**
   * The constructor: `constantBytes` is the value stored under the constant-bytes
   * key of the raw record, None when the key is absent.
   */
  function NewMemoryUseBean(constantBytes: Option<seq<Byte>>): (r: Result<MemoryUseBean, BeanError>)
    ensures r.Success? <==> constantBytes.Some? && |constantBytes.value| == 58
    ensures constantBytes.None? ==> r == Failure(NoConstantBytes)
    ensures r.Failure? && constantBytes.Some? ==> r.error == StructFailure(UnpackSizeMismatch(58))
    ensures r.Success? ==> r.value.Valid()
  {
    LayoutSize();
    match constantBytes
    case None => Failure(NoConstantBytes)
    case Some(blob) =>
      match Unpack(LAYOUT, blob)
      case Failure(e) => Failure(StructFailure(e))
      case Success(values) => Success(MemoryUseBean(values))
  }

  /** Packs nine field values into a record blob (the writer's side of the layout). */
  function EncodeRecord(values: seq<int>): (r: seq<Byte>)
    requires AllInRange(LAYOUT, values)
    ensures |r| == 58
  {
    LayoutSize();
    Pack(LAYOUT, values)
  }

  /** The format string describes LAYOUT. */
  lemma FormatStringLayout()
    ensures ParseFormat(CONSTANT_STRUCT) == Some(LAYOUT)
  {
    var s := CONSTANT_STRUCT[1..];
    assert s == "5qbB2Q";
    var s1, s2, s3, s4, s5 := s[1..], s[2..], s[3..], s[4..], s[5..];
    assert s1 == "qbB2Q" && s2 == "bB2Q" && s3 == "B2Q" && s4 == "2Q" && s5 == "Q";
    ExpandTail(s2);
    assert Repeat(Int64, 5) + [Int8, UInt8, UInt64, UInt64] == LAYOUT;
    assert s1[0] == 'q' && s1[1..] == s2;
    assert ExpandCodes(s1, 5, true) == Some(LAYOUT);
    assert s[0] == '5' && s1 == s[1..] && '5' as int - '0' as int == 5;
  }

  lemma ExpandTail(s2: string)
    requires s2 == "bB2Q"
    ensures ExpandCodes(s2, 0, false) == Some([Int8, UInt8, UInt64, UInt64])
  {
    var s3, s4, s5 := s2[1..], s2[2..], s2[3..];
    assert s3 == "B2Q" && s4 == "2Q" && s5 == "Q";
    assert s5[1..] == [];
    assert Repeat(UInt64, 2) + [] == [UInt64, UInt64];
    assert Repeat(UInt8, 1) + [UInt64, UInt64] == [UInt8, UInt64, UInt64];
    assert Repeat(Int8, 1) + [UInt8, UInt64, UInt64] == [Int8, UInt8, UInt64, UInt64];
    assert ExpandCodes(s5, 2, true) == Some(Repeat(UInt64, 2) + []);
    assert s4[0] == '2' && s4[1..] == s5 && '2' as int - '0' as int == 2;
    assert ExpandCodes(s4, 0, false) == Some([UInt64, UInt64]);
    assert s3[0] == 'B' && s4 == s3[1..];
    assert ExpandCodes(s3, 0, false) == Some([UInt8, UInt64, UInt64]);
    assert s2[0] == 'b' && s3 == s2[1..];
  }

  /** The layout is 58 bytes long: '<' inserts no padding. */
  lemma LayoutSize()
    ensures CalcSize(LAYOUT) == 58
  {
    LastOffset();
    CalcSizeSplit(LAYOUT, 8);
    assert LAYOUT[8..] == [UInt64];
    assert [UInt64][1..] == [];
  }

  lemma LastOffset()
    ensures Offset(LAYOUT, 8) == 50
  {
    LayoutOffsets();
  }

  lemma LayoutOffsets()
    ensures Offset(LAYOUT, 0) == 0 && Offset(LAYOUT, 1) == 8 && Offset(LAYOUT, 2) == 16
    ensures Offset(LAYOUT, 3) == 24 && Offset(LAYOUT, 4) == 32 && Offset(LAYOUT, 5) == 40
    ensures Offset(LAYOUT, 6) == 41 && Offset(LAYOUT, 7) == 42 && Offset(LAYOUT, 8) == 50
  {
    assert LAYOUT[..0] == [];
    OffsetNext(LAYOUT, 0); OffsetNext(LAYOUT, 1); OffsetNext(LAYOUT, 2); OffsetNext(LAYOUT, 3);
    OffsetNext(LAYOUT, 4); OffsetNext(LAYOUT, 5); OffsetNext(LAYOUT, 6); OffsetNext(LAYOUT, 7);
  }

  lemma OffsetNext(fmt: seq<FieldFormat>, k: nat)
    requires k < |fmt|
    ensures Offset(fmt, k + 1) == Offset(fmt, k) + fmt[k].Size()
  {
    CalcSizeSplit(fmt[..k + 1], k);
    assert fmt[..k + 1][..k] == fmt[..k];
    assert fmt[..k + 1][k..] == [fmt[k]];
  }

  /** Field k of a decoded 58-byte blob is read from that field's bytes. */
  lemma DecodedField(blob: seq<Byte>, k: nat)
    requires |blob| == 58 && k < 9
    ensures NewMemoryUseBean(Some(blob)).Success?
    ensures Offset(LAYOUT, k) + LAYOUT[k].Size() <= 58
    ensures NewMemoryUseBean(Some(blob)).value.constantData[k]
         == DecodeField(LAYOUT[k], blob[Offset(LAYOUT, k)..Offset(LAYOUT, k) + LAYOUT[k].Size()])
  {
    LayoutSize();
    UnpackFieldAt(LAYOUT, blob, k);
  }

  /** The five q fields are read from bytes 0-7, 8-15, 16-23, 24-31 and 32-39. */
  lemma SignedFieldsReadLayout(blob: seq<Byte>)
    requires |blob| == 58
    ensures NewMemoryUseBean(Some(blob)).Success?
    ensures var b := NewMemoryUseBean(Some(blob)).value;
      && b.Ptr() == DecodeField(Int64, blob[0..8])
      && b.Field(MemoryEnum.TimeNs) == DecodeField(Int64, blob[8..16])
      && b.AllocSize() == DecodeField(Int64, blob[16..24])
      && b.TotalAllocated() == DecodeField(Int64, blob[24..32])
      && b.TotalReserved() == DecodeField(Int64, blob[32..40])
  {
    assert MemoryEnum.Ptr.Value() == 0 && MemoryEnum.TimeNs.Value() == 1;
    assert MemoryEnum.AllocSize.Value() == 2 && MemoryEnum.TotalAllocated.Value() == 3;
    assert MemoryEnum.TotalReserved.Value() == 4;
    LayoutOffsets();
    DecodedField(blob, 0);
    DecodedField(blob, 1);
    DecodedField(blob, 2);
    DecodedField(blob, 3);
    DecodedField(blob, 4);
  }

  /** device_type is the signed byte 40, device_index the unsigned byte 41. */
  lemma DeviceFieldsReadLayout(blob: seq<Byte>)
    requires |blob| == 58
    ensures NewMemoryUseBean(Some(blob)).Success?
    ensures var b := NewMemoryUseBean(Some(blob)).value;
      && b.DeviceType() == (if blob[40] < 128 then blob[40] as int else blob[40] as int - 256)
      && b.DeviceIndex() == blob[41]
  {
    DeviceTypeReadsLayout(blob);
    DeviceIndexReadsLayout(blob);
  }

  lemma DeviceTypeReadsLayout(blob: seq<Byte>)
    requires |blob| == 58
    ensures NewMemoryUseBean(Some(blob)).Success?
    ensures NewMemoryUseBean(Some(blob)).value.DeviceType() ==
            if blob[40] < 128 then blob[40] as int else blob[40] as int - 256
  {
    BeanUnpacks(blob);
    DeviceTypeOffset();
    SignedByteAt(LAYOUT, blob, 5, 40);
    assert MemoryEnum.DeviceType.Value() == 5;
  }

  lemma DeviceIndexReadsLayout(blob: seq<Byte>)
    requires |blob| == 58
    ensures NewMemoryUseBean(Some(blob)).Success?
    ensures NewMemoryUseBean(Some(blob)).value.DeviceIndex() == blob[41]
  {
    BeanUnpacks(blob);
    DeviceIndexOffset();
    UnsignedByteAt(LAYOUT, blob, 6, 41);
    assert MemoryEnum.DeviceIndex.Value() == 6;
  }

  /** A 58-byte blob builds the record of its unpacked fields. */
  lemma BeanUnpacks(blob: seq<Byte>)
    requires |blob| == 58
    ensures CalcSize(LAYOUT) == |blob|
    ensures NewMemoryUseBean(Some(blob)) == Success(MemoryUseBean(UnpackFields(LAYOUT, blob)))
  {
    LayoutSize();
  }

  /** A B field at byte off reads that byte. */
  lemma UnsignedByteAt(fmt: seq<FieldFormat>, data: seq<Byte>, k: nat, off: nat)
    requires |data| == CalcSize(fmt) && k < |fmt| && fmt[k] == UInt8 && Offset(fmt, k) == off
    ensures off < |data| && UnpackFields(fmt, data)[k] == data[off]
  {
    ReadAt(fmt, data, k, off);
    UnsignedByte(data[off..off + 1]);
  }

  /** A b field at byte off reads that byte as two's complement. */
  lemma SignedByteAt(fmt: seq<FieldFormat>, data: seq<Byte>, k: nat, off: nat)
    requires |data| == CalcSize(fmt) && k < |fmt| && fmt[k] == Int8 && Offset(fmt, k) == off
    ensures off < |data|
    ensures UnpackFields(fmt, data)[k] == if data[off] < 128 then data[off] as int else data[off] as int - 256
  {
    ReadAt(fmt, data, k, off);
    SignedByte(data[off..off + 1]);
  }

  lemma DeviceTypeOffset()
    ensures Offset(LAYOUT, 5) == 40 && LAYOUT[5] == Int8
  {
    LayoutOffsets();
  }

  lemma DeviceIndexOffset()
    ensures Offset(LAYOUT, 6) == 41 && LAYOUT[6] == UInt8
  {
    LayoutOffsets();
  }

  /** UnpackFieldAt with the offset given. */
  lemma ReadAt(fmt: seq<FieldFormat>, data: seq<Byte>, k: nat, off: nat)
    requires |data| == CalcSize(fmt) && k < |fmt| && Offset(fmt, k) == off
    ensures off + fmt[k].Size() <= |data|
    ensures UnpackFields(fmt, data)[k] == DecodeField(fmt[k], data[off..off + fmt[k].Size()])
  {
    UnpackFieldAt(fmt, data, k);
  }

  lemma SingleByte(bytes: seq<Byte>)
    requires |bytes| == 1
    ensures LeUnsigned(bytes) == bytes[0]
  {
    assert bytes[1..] == [];
  }

  /** A b field is its byte read as two's complement. */
  lemma SignedByte(bytes: seq<Byte>)
    requires |bytes| == 1
    ensures DecodeField(Int8, bytes) == if bytes[0] < 128 then bytes[0] as int else bytes[0] as int - 256
  {
    SingleByte(bytes);
    Pow256Values();
  }

  /** A B field is its byte. */
  lemma UnsignedByte(bytes: seq<Byte>)
    requires |bytes| == 1
    ensures DecodeField(UInt8, bytes) == bytes[0]
  {
    SingleByte(bytes);
  }

  /** tid and pid are the unsigned Q fields at bytes 42-49 and 50-57. */
  lemma IdFieldsReadLayout(blob: seq<Byte>)
    requires |blob| == 58
    ensures NewMemoryUseBean(Some(blob)).Success?
    ensures var b := NewMemoryUseBean(Some(blob)).value;
      && b.Tid() == LeUnsigned(blob[42..50])
      && b.Pid() == LeUnsigned(blob[50..58])
  {
    assert MemoryEnum.ThreadId.Value() == 7 && MemoryEnum.ProcessId.Value() == 8;
    LayoutOffsets();
    DecodedField(blob, 7);
    DecodedField(blob, 8);
  }

  lemma Pow256Values()
    ensures Pow256(1) == 256 && Pow256(8) == 0x1_0000_0000_0000_0000
  {
  }

  /** Nine in-range values written to a blob are read back unchanged by the accessors. */
  lemma {:induction false} EncodeDecodeRecord(values: seq<int>)
    requires AllInRange(LAYOUT, values)
    ensures |values| == 9
    ensures NewMemoryUseBean(Some(EncodeRecord(values))) == Success(MemoryUseBean(values))
    ensures var b := MemoryUseBean(values);
      && b.Ptr() == values[0] && b.Field(MemoryEnum.TimeNs) == values[1]
      && b.AllocSize() == values[2] && b.TotalAllocated() == values[3]
      && b.TotalReserved() == values[4] && b.DeviceType() == values[5]
      && b.DeviceIndex() == values[6] && b.Tid() == values[7] && b.Pid() == values[8]
  {
    UnpackPack(LAYOUT, values);
    AccessorsProject(values);
  }

  /** Each accessor returns its own entry of the tuple. */
  lemma AccessorsProject(values: Unpacked)
    ensures var b := MemoryUseBean(values);
      && b.Ptr() == values[0] && b.Field(MemoryEnum.TimeNs) == values[1]
      && b.AllocSize() == values[2] && b.TotalAllocated() == values[3]
      && b.TotalReserved() == values[4] && b.DeviceType() == values[5]
      && b.DeviceIndex() == values[6] && b.Tid() == values[7] && b.Pid() == values[8]
  {
  }

  /** A 58-byte blob, decoded and written back, gives the same bytes. */
  lemma {:induction false} DecodeEncodeRecord(blob: seq<Byte>)
    requires |blob| == 58
    ensures NewMemoryUseBean(Some(blob)).Success?
    ensures EncodeRecord(NewMemoryUseBean(Some(blob)).value.constantData) == blob
  {
    LayoutSize();
    PackUnpack(LAYOUT, blob);
  }
}
