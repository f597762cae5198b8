/** The device record and its conversion to a named tuple, the reset
    methods and the base function table (msp430dll/base.py). */
module Base {
  import opened Util
  import opened Api

  // ---------------------------------------------------------------------
  // Record layout

  /** The ctypes field types of the device record: WORD, ULONG, BYTE
      (c_byte, signed) and an array BYTE * length. */
  datatype FieldKind = WORD | ULONG | BYTE | BYTE_ARRAY(length: nat)

  function Width(k: FieldKind): nat
  {
    match k
    case WORD => 2
    case ULONG => 4
    case BYTE => 1
    case BYTE_ARRAY(n) => n
  }

  /** The natural alignment ctypes gives a field when packing allows it. */
  function Alignment(k: FieldKind): (a: nat)
    ensures a >= 1
  {
    match k
    case WORD => 2
    case ULONG => 4
    case BYTE => 1
    case BYTE_ARRAY(_) => 1
  }

  /** One entry of a Structure's _fields_. */
  datatype Field = Field(name: string, kind: FieldKind)

  /** _DeviceStructure._fields_, in declaration order, written as five runs
      so that offsets can be computed run by run. */
  const DeviceFields: seq<Field> :=
    DeviceIdentity + DeviceMemoryMap + DeviceSupply + DeviceCore + DeviceEem

  const DeviceIdentity: seq<Field> := [
    Field("endian", WORD),
    Field("id", WORD),
    Field("string", BYTE_ARRAY(32))
  ]

  const DeviceMemoryMap: seq<Field> := [
    Field("mainStart", WORD),
    Field("infoStart", WORD),
    Field("ramEnd", WORD),
    Field("nBreakpoints", WORD),
    Field("emulation", WORD),
    Field("clockControl", WORD),
    Field("lcdStart", WORD),
    Field("lcdEnd", WORD)
  ]

  const DeviceSupply: seq<Field> := [
    Field("vccMinOp", WORD),
    Field("vccMaxOp", WORD),
    Field("hasTestVpp", WORD),
    Field("ramStart", WORD),
    Field("ram2Start", WORD),
    Field("ram2End", WORD),
    Field("infoEnd", WORD)
  ]

  const DeviceCore: seq<Field> := [
    Field("mainEnd", ULONG),
    Field("bslStart", WORD),
    Field("bslEnd", WORD),
    Field("nRegTrigger", WORD),
    Field("nCombinations", WORD),
    Field("cpuArch", BYTE),
    Field("jtagId", BYTE),
    Field("coreIpId", WORD),
    Field("deviceIdPtr", ULONG)
  ]

  const DeviceEem: seq<Field> := [
    Field("eemVersion", WORD),
    Field("nBreakpointsOptions", WORD),
    Field("nBreakpointsReadWrite", WORD),
    Field("nBreakpointsDma", WORD),
    Field("nTrigerMask", WORD),
    Field("nRegTriggerOperations", WORD),
    Field("nStateStorage", WORD),
    Field("nCycleCounter", WORD),
    Field("nCycleCounterOperations", WORD),
    Field("nSequencer", WORD),
    Field("hasFramMemory", WORD)
  ]

  /** The offset of field k when fields are laid end to end. */
  function Offset(fields: seq<Field>, k: nat): nat
    requires k <= |fields|
  {
    if k == 0 then 0 else Offset(fields, k - 1) + Width(fields[k - 1].kind)
  }

  function Size(fields: seq<Field>): nat
  {
    Offset(fields, |fields|)
  }

  /** `x` rounded up to a multiple of `a`. */
  function RoundUp(x: nat, a: nat): (r: nat)
    requires a >= 1
    ensures x <= r < x + a
    ensures a == 1 ==> r == x
  {
    if x % a == 0 then x else x + (a - x % a)
  }

  /** The alignment ctypes uses for a field under `_pack_ = pack`. */
  function PackedAlignment(k: FieldKind, pack: nat): (a: nat)
    requires pack >= 1
    ensures 1 <= a <= pack
  {
    if Alignment(k) < pack then Alignment(k) else pack
  }

  /** Where ctypes places field k under `_pack_ = pack`: after the previous
      field, rounded up to the field's packed alignment. */
  function Start(fields: seq<Field>, pack: nat, k: nat): nat
    requires pack >= 1 && k < |fields|
    decreases k, 1
  {
    RoundUp(End(fields, pack, k), PackedAlignment(fields[k].kind, pack))
  }

  /** The end of the first k fields under `_pack_ = pack`. */
  function End(fields: seq<Field>, pack: nat, k: nat): nat
    requires pack >= 1 && k <= |fields|
    decreases k, 0
  {
    if k == 0 then 0 else Start(fields, pack, k - 1) + Width(fields[k - 1].kind)
  }

  /** With `_pack_ = 1` there is no padding anywhere: every field starts at
      the sum of the widths before it. */
  lemma {:induction false} PackOneHasNoPadding(fields: seq<Field>, k: nat)
    requires k <= |fields|
    ensures End(fields, 1, k) == Offset(fields, k)
    ensures k < |fields| ==> Start(fields, 1, k) == Offset(fields, k)
    decreases k
  {
    if k > 0 {
      PackOneHasNoPadding(fields, k - 1);
    }
  }

  /** Laying out two runs of fields one after the other. */
  lemma {:induction false} OffsetAppend(a: seq<Field>, b: seq<Field>, k: nat)
    requires k <= |b|
    ensures Offset(a + b, |a| + k) == Size(a) + Offset(b, k)
    decreases k
  {
    if k == 0 {
      OffsetPrefix(a + b, a, |a|);
    } else {
      OffsetAppend(a, b, k - 1);
      assert (a + b)[|a| + k - 1] == b[k - 1];
    }
  }

  /** Offsets depend only on the fields before them. */
  lemma {:induction false} OffsetPrefix(s: seq<Field>, p: seq<Field>, k: nat)
    requires k <= |p| <= |s| && s[..|p|] == p
    ensures Offset(s, k) == Offset(p, k)
    decreases k
  {
    if k > 0 {
      assert s[k - 1] == p[k - 1] by { assert s[..|p|][k - 1] == s[k - 1]; }
      OffsetPrefix(s, p, k - 1);
    }
  }

  lemma SizeAppend(a: seq<Field>, b: seq<Field>)
    ensures Size(a + b) == Size(a) + Size(b)
  {
    OffsetAppend(a, b, |b|);
  }

  /** A run of WORD fields takes two bytes per field. */
  lemma {:induction false} WordRun(fields: seq<Field>, i: nat, j: nat)
    requires i <= j <= |fields|
    requires forall k :: i <= k < j ==> fields[k].kind == WORD
    ensures Offset(fields, j) == Offset(fields, i) + 2 * (j - i)
    decreases j
  {
    if i < j {
      WordRun(fields, i, j - 1);
    }
  }

  lemma RunSizes()
    ensures Size(DeviceIdentity) == 36
    ensures Size(DeviceMemoryMap) == 16
    ensures Size(DeviceSupply) == 14
    ensures Size(DeviceCore) == 20
    ensures Size(DeviceEem) == 22
    ensures Offset(DeviceEem, 10) == 20
  {
    assert Offset(DeviceIdentity, 2) == 4;
    WordRun(DeviceMemoryMap, 0, 8);
    WordRun(DeviceSupply, 0, 7);
    CoreSize();
    EemSize();
  }

  lemma CoreSize()
    ensures Size(DeviceCore) == 20
  {
    assert Offset(DeviceCore, 1) == 4;
    WordRun(DeviceCore, 1, 5);
    assert Offset(DeviceCore, 7) == 14;
    assert Offset(DeviceCore, 8) == 16;
  }

  lemma EemSize()
    ensures Size(DeviceEem) == 22
    ensures Offset(DeviceEem, 10) == 20
  {
    WordRun(DeviceEem, 0, 10);
    WordRun(DeviceEem, 0, 11);
  }

  /** The byte sizes of the record's leading runs taken together. */
  lemma PrefixSizes()
    ensures Size(DeviceIdentity + DeviceMemoryMap + DeviceSupply) == 66
    ensures Size(DeviceIdentity + DeviceMemoryMap + DeviceSupply + DeviceCore) == 86
    ensures Size(DeviceFields) == 108
  {
    var p2 := DeviceIdentity + DeviceMemoryMap;
    var p3 := p2 + DeviceSupply;
    var p4 := p3 + DeviceCore;
    RunSizes();
    SizeAppend(DeviceIdentity, DeviceMemoryMap);
    SizeAppend(p2, DeviceSupply);
    SizeAppend(p3, DeviceCore);
    SizeAppend(p4, DeviceEem);
  }

  /** The record is 108 bytes: mainEnd sits at 66, hasFramMemory at 106. */
  lemma DeviceLayout()
    ensures |DeviceFields| == 38
    ensures DeviceFields[18].name == "mainEnd" && Start(DeviceFields, 1, 18) == 66
    ensures DeviceFields[37].name == "hasFramMemory" && Start(DeviceFields, 1, 37) == 106
    ensures End(DeviceFields, 1, 38) == Size(DeviceFields) == 108
  {
    var p3 := DeviceIdentity + DeviceMemoryMap + DeviceSupply;
    var p4 := p3 + DeviceCore;
    PrefixSizes();
    assert |p3| == 18 && |p4| == 27;
    OffsetAppend(p3, DeviceCore + DeviceEem, 0);
    assert p3 + (DeviceCore + DeviceEem) == DeviceFields;
    OffsetAppend(p4, DeviceEem, 10);
    PackOneHasNoPadding(DeviceFields, 18);
    PackOneHasNoPadding(DeviceFields, 37);
    PackOneHasNoPadding(DeviceFields, 38);
  }

  /** The size of a Union: its largest member. */
  function UnionSize(sizes: seq<nat>): (r: nat)
    ensures forall i :: 0 <= i < |sizes| ==> sizes[i] <= r
    ensures sizes == [] ==> r == 0
    ensures sizes != [] ==> exists i :: 0 <= i < |sizes| && sizes[i] == r
  {
    if sizes == [] then 0
    else
      var rest := UnionSize(sizes[1..]);
      assert forall i :: 1 <= i < |sizes| ==> sizes[i] == sizes[1..][i - 1];
      if sizes[0] >= rest then sizes[0] else rest
  }

  /** The Device union: the buffer c_char * 112 and the record. */
  const DeviceBufferSize: nat := 112

  /** The union is 112 bytes, so the whole record fits in its buffer. */
  lemma DeviceUnionHoldsRecord()
    ensures UnionSize([DeviceBufferSize, Size(DeviceFields)]) == DeviceBufferSize
    ensures Size(DeviceFields) <= DeviceBufferSize
  {
    DeviceLayout();
  }

  // ---------------------------------------------------------------------
  // Reading fields out of memory

  function Word(mem: seq<byte>, o: nat): (v: nat)
    requires o + 2 <= |mem|
    ensures v < 0x1_0000
  {
    mem[o] as int + 0x100 * (mem[o + 1] as int)
  }

  function Ulong(mem: seq<byte>, o: nat): (v: nat)
    requires o + 4 <= |mem|
    ensures v < 0x1_0000_0000
  {
    Word(mem, o) + 0x1_0000 * Word(mem, o + 2)
  }

  /** A c_byte: the byte read as a two's-complement number. */
  function SignedByte(b: byte): (v: int)
    ensures -128 <= v < 128
    ensures v % 256 == b
  {
    if b < 128 then b else b - 256
  }

  /** The little-endian bytes of a WORD value. */
  function EncodeWord(v: nat): (bs: seq<byte>)
    requires v < 0x1_0000
    ensures |bs| == 2
  {
    [v % 0x100, v / 0x100]
  }

  function EncodeUlong(v: nat): (bs: seq<byte>)
    requires v < 0x1_0000_0000
    ensures |bs| == 4
  {
    EncodeWord(v % 0x1_0000) + EncodeWord(v / 0x1_0000)
  }

  lemma WordRoundTrip(v: nat)
    requires v < 0x1_0000
    ensures Word(EncodeWord(v), 0) == v
  {
  }

  lemma UlongRoundTrip(v: nat)
    requires v < 0x1_0000_0000
    ensures Ulong(EncodeUlong(v), 0) == v
  {
    var bs := EncodeUlong(v);
    assert bs[2..] == EncodeWord(v / 0x1_0000);
    WordRoundTrip(v % 0x1_0000);
    WordRoundTrip(v / 0x1_0000);
  }

  /** What getattr returns for a field: an integer, or the bytes of an
      array field. */
  datatype Value = IntValue(n: int) | BytesValue(bytes: seq<byte>)

  function ReadField(mem: seq<byte>, o: nat, k: FieldKind): Value
    requires o + Width(k) <= |mem|
  {
    match k
    case WORD => IntValue(Word(mem, o))
    case ULONG => IntValue(Ulong(mem, o))
    case BYTE => IntValue(SignedByte(mem[o]))
    case BYTE_ARRAY(n) => BytesValue(mem[o..o + n])
  }

  /** cast(value, c_char_p).value: the bytes from `o` up to the first zero
      byte; None when no zero byte follows before the end of `mem`, where
      the read would leave the buffer. */
  function CStringAt(mem: seq<byte>, o: nat): (r: Option<seq<byte>>)
    requires o <= |mem|
    ensures r.None? <==> forall i :: o <= i < |mem| ==> mem[i] != 0
    ensures r.Some? ==> (o + |r.value| < |mem| && mem[o + |r.value|] == 0 &&
      r.value == mem[o..o + |r.value|] && forall i :: 0 <= i < |r.value| ==> r.value[i] != 0)
    decreases |mem| - o
  {
    if o == |mem| then None
    else if mem[o] == 0 then Some([])
    else
      match CStringAt(mem, o + 1)
      case None => None
      case Some(rest) => Some([mem[o]] + rest)
  }

  /** A zero byte inside the array ends the string there: the value is
      shorter than the array and lies inside it. */
  lemma {:induction false} CStringInsideArray(mem: seq<byte>, o: nat, n: nat, z: nat)
    requires o + n <= |mem|
    requires o <= z < o + n && mem[z] == 0
    ensures CStringAt(mem, o).Some?
    ensures |CStringAt(mem, o).value| < n
  {
  }

  /** With no zero byte in the array, the string runs past its end. */
  lemma CStringPastArray(mem: seq<byte>, o: nat, n: nat)
    requires o + n <= |mem|
    requires forall i :: o <= i < o + n ==> mem[i] != 0
    ensures CStringAt(mem, o).Some? ==> |CStringAt(mem, o).value| >= n
  {
  }

  // ---------------------------------------------------------------------
  // Named tuples

  /** A namedtuple class: its name and its field names. */
  datatype NamedtupleType = NamedtupleType(typename: string, fields: seq<string>)

  /** A namedtuple instance. */
  datatype Instance = Instance(kind: NamedtupleType, values: seq<Value>)

  /** What separates field names: a comma (namedtuple turns commas into
      blanks) or any character Python 2's str.split() treats as whitespace. */
  predicate IsSeparator(c: char)
  {
    c == ',' || c == ' ' || c == '\t' || c == '\n' || c == '\r' || c == '\U{B}' || c == '\U{C}'
  }

  /** ' '.join(names). */
  function Join(names: seq<string>): string
  {
    if names == [] then ""
    else if |names| == 1 then names[0]
    else names[0] + " " + Join(names[1..])
  }

  /** The index of the first separator in `s`, or |s|. */
  function WordEnd(s: string): (k: nat)
    ensures k <= |s|
    ensures forall i :: 0 <= i < k ==> !IsSeparator(s[i])
    ensures k < |s| ==> IsSeparator(s[k])
  {
    if s == [] || IsSeparator(s[0]) then 0 else 1 + WordEnd(s[1..])
  }

  /** How namedtuple reads its field list: commas count as blanks, then the
      text is split on whitespace. */
  function SplitFields(s: string): seq<string>
    decreases |s|
  {
    if s == [] then []
    else if IsSeparator(s[0]) then SplitFields(s[1..])
    else
      var k := WordEnd(s);
      [s[..k]] + SplitFields(s[k..])
  }

  /** namedtuple(typename, fieldNames). Its check that the names are
      identifiers is not modelled. */
  function Namedtuple(typename: string, fieldNames: string): (t: NamedtupleType)
    ensures t.typename == typename
  {
    NamedtupleType(typename, SplitFields(fieldNames))
  }

  /** A field name without separators: it survives the round trip through
      a blank-separated list. */
  predicate PlainName(n: string)
  {
    n != [] && forall i :: 0 <= i < |n| ==> !IsSeparator(n[i])
  }

  /** Joining plain names with blanks and splitting again gives them back. */
  lemma {:induction false} SplitJoinRoundTrip(names: seq<string>)
    requires forall i :: 0 <= i < |names| ==> PlainName(names[i])
    ensures SplitFields(Join(names)) == names
    decreases |names|
  {
    if names != [] {
      var n := names[0];
      assert PlainName(n);
      var s := Join(names);
      if |names| == 1 {
        WordEndOfPlain(n, "");
        assert s[..|n|] == n && s[|n|..] == "";
      } else {
        var rest := Join(names[1..]);
        assert s == n + (" " + rest);
        WordEndOfPlain(n, " " + rest);
        assert s[..|n|] == n && s[|n|..] == " " + rest;
        assert (" " + rest)[1..] == rest;
        SplitJoinRoundTrip(names[1..]);
      }
    }
  }

  lemma {:induction false} WordEndOfPlain(n: string, t: string)
    requires PlainName(n)
    requires t == [] || IsSeparator(t[0])
    ensures WordEnd(n + t) == |n|
    decreases |n|
  {
    if |n| > 1 {
      assert (n + t)[1..] == n[1..] + t;
      WordEndOfPlain(n[1..], t);
    } else {
      assert (n + t)[1..] == t;
    }
  }

  /** The names of a Structure's fields, in declaration order. */
  function FieldNames(fields: seq<Field>): (r: seq<string>)
    ensures |r| == |fields|
    ensures forall i :: 0 <= i < |r| ==> r[i] == fields[i].name
  {
    if fields == [] then [] else [fields[0].name] + FieldNames(fields[1..])
  }

  /** makeNamedtupleFromStructure(name, struct): collects the field names
      in a loop and hands them to namedtuple as one blank-separated list.
      When the names are plain, the tuple's fields are exactly the record's
      field names in declaration order. */
  method MakeNamedtupleFromStructure(name: string, struct: seq<Field>) returns (t: NamedtupleType)
    ensures t == Namedtuple(name, Join(FieldNames(struct)))
    ensures (forall i :: 0 <= i < |struct| ==> PlainName(struct[i].name)) ==>
      t.typename == name && t.fields == FieldNames(struct)
  {
    var fields: seq<string> := [];
    for i := 0 to |struct|
      invariant fields == FieldNames(struct[..i])
    {
      assert struct[..i + 1] == struct[..i] + [struct[i]];
      fields := fields + [struct[i].name];
      assert fields == FieldNames(struct[..i + 1]);
    }
    assert struct[..|struct|] == struct;
    t := Namedtuple(name, Join(fields));
    if forall i :: 0 <= i < |struct| ==> PlainName(struct[i].name) {
      SplitJoinRoundTrip(fields);
    }
  }

  /** DeviceStructureNT: the tuple type built from the record's field names. */
  const DeviceStructureNT: NamedtupleType :=
    Namedtuple("DeviceStructureNT", Join(FieldNames(DeviceFields)))

  // ---------------------------------------------------------------------
  // instanceiateNamedtuple

  /** Why instanceiateNamedtuple fails: getattr raised AttributeError for a
      tuple field the record lacks, or a byte array had no terminating zero
      before the end of the memory behind the record. */
  datatype Failure = AttributeError(name: string) | UnterminatedString(name: string)

  datatype BuildResult = Built(instance: Instance) | Failed(failure: Failure)

  /** The field getattr finds for `name`: ctypes defines one attribute per
      field in declaration order, so a later duplicate wins. */
  function FieldIndex(fields: seq<Field>, name: string): (r: Option<nat>)
    ensures r.None? <==> forall j :: 0 <= j < |fields| ==> fields[j].name != name
    ensures r.Some? ==> (r.value < |fields| && fields[r.value].name == name &&
      forall j :: r.value < j < |fields| ==> fields[j].name != name)
  {
    if fields == [] then None
    else if fields[|fields| - 1].name == name then Some(|fields| - 1)
    else FieldIndex(fields[..|fields| - 1], name)
  }

  /** The value instanceiateNamedtuple records for one tuple field. */
  function Converted(fields: seq<Field>, mem: seq<byte>, name: string): (r: Result)
    requires Size(fields) <= |mem|
  {
    match FieldIndex(fields, name)
    case None => Err(AttributeError(name))
    case Some(i) =>
      OffsetBound(fields, i);
      var o := Offset(fields, i);
      var k := fields[i].kind;
      if k.BYTE_ARRAY? then
        match CStringAt(mem, o)
        case None => Err(UnterminatedString(name))
        case Some(s) => Ok([BytesValue(s)])
      else Ok([ReadField(mem, o, k)])
  }

  /** A list of values, or the failure that stopped collecting them. */
  datatype Result = Ok(values: seq<Value>) | Err(failure: Failure)

  /** `values` in front of what follows, unless that failed. */
  function Prepend(values: seq<Value>, r: Result): Result
  {
    match r
    case Ok(rest) => Ok(values + rest)
    case Err(f) => r
  }

  /** The values for `names`, in order, stopping at the first failure. */
  function Values(fields: seq<Field>, mem: seq<byte>, names: seq<string>): (r: Result)
    requires Size(fields) <= |mem|
    ensures r.Ok? ==> |r.values| == |names|
    decreases |names|
  {
    if names == [] then Ok([])
    else
      match Converted(fields, mem, names[0])
      case Err(f) => Err(f)
      case Ok(v) => Prepend(v, Values(fields, mem, names[1..]))
  }

  function Instantiate(t: NamedtupleType, fields: seq<Field>, mem: seq<byte>): BuildResult
    requires Size(fields) <= |mem|
  {
    match Values(fields, mem, t.fields)
    case Ok(vs) => Built(Instance(t, vs))
    case Err(f) => Failed(f)
  }

  lemma {:induction false} OffsetBound(fields: seq<Field>, i: nat)
    requires i < |fields|
    ensures Offset(fields, i) + Width(fields[i].kind) <= Size(fields)
  {
    OffsetMonotone(fields, i + 1, |fields|);
  }

  lemma {:induction false} OffsetMonotone(fields: seq<Field>, i: nat, j: nat)
    requires i <= j <= |fields|
    ensures Offset(fields, i) <= Offset(fields, j)
    decreases j - i
  {
    if i < j {
      OffsetMonotone(fields, i, j - 1);
    }
  }

  /** instanceiateNamedtuple(ntType, struc), where the record `fields`
      lies at the start of `mem`: for each tuple field in order, getattr
      on the record, a byte array replaced by the C string it starts. */
  method InstanceiateNamedtuple(ntType: NamedtupleType, fields: seq<Field>, mem: seq<byte>) returns (r: BuildResult)
    requires Size(fields) <= |mem|
    ensures r == Instantiate(ntType, fields, mem)
  {
    var result: seq<Value> := [];
    var i := 0;
    while i < |ntType.fields|
      invariant 0 <= i <= |ntType.fields|
      invariant Values(fields, mem, ntType.fields) == Prepend(result, Values(fields, mem, ntType.fields[i..]))
    {
      var field := ntType.fields[i];
      assert ntType.fields[i..][0] == field && ntType.fields[i..][1..] == ntType.fields[i + 1..];
      var index := FieldIndex(fields, field);
      if index.None? {
        r := Failed(AttributeError(field));
        return;
      }
      OffsetBound(fields, index.value);
      var o := Offset(fields, index.value);
      var value := ReadField(mem, o, fields[index.value].kind);
      if fields[index.value].kind.BYTE_ARRAY? {
        var s := CStringAt(mem, o);
        if s.None? {
          r := Failed(UnterminatedString(field));
          return;
        }
        value := BytesValue(s.value);
      }
      PrependAssociates(result, [value], Values(fields, mem, ntType.fields[i + 1..]));
      result := result + [value];
      i := i + 1;
    }
    assert ntType.fields[i..] == [];
    assert result + [] == result;
    r := Built(Instance(ntType, result));
  }

  lemma PrependAssociates(a: seq<Value>, b: seq<Value>, r: Result)
    ensures Prepend(a, Prepend(b, r)) == Prepend(a + b, r)
  {
    if r.Ok? {
      assert a + (b + r.values) == (a + b) + r.values;
    }
  }

  /** Building a tuple type from a record's own fields never meets a
      missing attribute; it fails only on an unterminated byte array, and
      otherwise the i-th value is the i-th field read at its offset, a byte
      array as its C string. */
  lemma {:induction false} ValuesOfOwnFields(fields: seq<Field>, mem: seq<byte>, k: nat)
    requires Size(fields) <= |mem|
    requires k <= |fields|
    requires forall a, b :: 0 <= a < b < |fields| ==> fields[a].name != fields[b].name
    ensures var r := Values(fields, mem, FieldNames(fields)[k..]);
      (r.Err? ==> r.failure.UnterminatedString?) &&
      (r.Ok? ==> r.values == FieldValues(fields, mem, k))
    decreases |fields| - k
  {
    var names := FieldNames(fields)[k..];
    if k < |fields| {
      assert names[0] == fields[k].name;
      assert names[1..] == FieldNames(fields)[k + 1..];
      ConvertedOwnField(fields, mem, k);
      ValuesOfOwnFields(fields, mem, k + 1);
    }
  }

  /** The values of fields k, k + 1, ... in order. */
  function FieldValues(fields: seq<Field>, mem: seq<byte>, k: nat): (r: seq<Value>)
    requires Size(fields) <= |mem| && k <= |fields|
    ensures |r| == |fields| - k
    ensures forall i :: k <= i < |fields| ==> r[i - k] == FieldValue(fields, mem, i)
    decreases |fields| - k
  {
    if k == |fields| then [] else [FieldValue(fields, mem, k)] + FieldValues(fields, mem, k + 1)
  }

  /** A record's own field is found at its position and converted to its
      FieldValue, unless it is an unterminated byte array. */
  lemma ConvertedOwnField(fields: seq<Field>, mem: seq<byte>, k: nat)
    requires Size(fields) <= |mem|
    requires k < |fields|
    requires forall a, b :: 0 <= a < b < |fields| ==> fields[a].name != fields[b].name
    ensures var r := Converted(fields, mem, fields[k].name);
      (r.Err? ==> r.failure.UnterminatedString?) &&
      (r.Ok? ==> r.values == [FieldValue(fields, mem, k)])
  {
    FieldIndexOwn(fields, k);
  }

  lemma {:induction false} FieldIndexOwn(fields: seq<Field>, k: nat)
    requires k < |fields|
    requires forall a, b :: 0 <= a < b < |fields| ==> fields[a].name != fields[b].name
    ensures FieldIndex(fields, fields[k].name) == Some(k)
    decreases |fields|
  {
    if k < |fields| - 1 {
      var front := fields[..|fields| - 1];
      assert front[k] == fields[k];
      FieldIndexOwn(front, k);
    }
  }

  /** The value of field i as instanceiateNamedtuple records it, given that
      it can be read. */
  function FieldValue(fields: seq<Field>, mem: seq<byte>, i: nat): Value
    requires Size(fields) <= |mem| && i < |fields|
  {
    OffsetBound(fields, i);
    var o := Offset(fields, i);
    if fields[i].kind.BYTE_ARRAY? then
      match CStringAt(mem, o)
      case Some(s) => BytesValue(s)
      case None => BytesValue([])
    else ReadField(mem, o, fields[i].kind)
  }

  // ---------------------------------------------------------------------
  // getFoundDevice

  /** The 256-byte buffer getFoundDevice hands to MSP430_GetFoundDevice. */
  const FoundDeviceBufferSize: nat := 256

  /** getFoundDevice(), given the buffer the library filled: the record at
      its start, converted to DeviceStructureNT. */
  method GetFoundDevice(buffer: seq<byte>) returns (r: BuildResult)
    requires |buffer| == FoundDeviceBufferSize
    ensures (DeviceLayout(); r == Instantiate(DeviceStructureNT, DeviceFields, buffer))
  {
    DeviceLayout();
    r := InstanceiateNamedtuple(DeviceStructureNT, DeviceFields, buffer);
  }

  // ---------------------------------------------------------------------
  // ResetMethodType

  datatype ResetMethod =
    | PUC_RESET | RST_RESET | VCC_RESET | FORCE_RESET
    | ALL_RESETS | FORCE_PUC_RESET | FORCE_RST_RESET | FORCE_VCC_RESET

  /** The values as the enumeration computes them. */
  function ResetValue(m: ResetMethod): nat
  {
    match m
    case PUC_RESET => ShiftLeft(1, 0)
    case RST_RESET => ShiftLeft(1, 1)
    case VCC_RESET => ShiftLeft(1, 2)
    case FORCE_RESET => ShiftLeft(1, 3)
    case ALL_RESETS => BitOr(BitOr(ShiftLeft(1, 0), ShiftLeft(1, 1)), ShiftLeft(1, 2))
    case FORCE_PUC_RESET => BitOr(ShiftLeft(1, 3), ShiftLeft(1, 0))
    case FORCE_RST_RESET => BitOr(ShiftLeft(1, 3), ShiftLeft(1, 1))
    case FORCE_VCC_RESET => BitOr(ShiftLeft(1, 3), ShiftLeft(1, 2))
  }

  /** The three methods a FORCE_* value can force. */
  predicate IsBaseMethod(m: ResetMethod)
  {
    m == PUC_RESET || m == RST_RESET || m == VCC_RESET
  }

  lemma ResetValues()
    ensures ResetValue(PUC_RESET) == 1 && ResetValue(RST_RESET) == 2
    ensures ResetValue(VCC_RESET) == 4 && ResetValue(FORCE_RESET) == 8
    ensures ResetValue(ALL_RESETS) == 7
    ensures ResetValue(FORCE_PUC_RESET) == 9
    ensures ResetValue(FORCE_RST_RESET) == 10
    ensures ResetValue(FORCE_VCC_RESET) == 12
  {
    BitOrHighBit(1, 1);
    BitOrHighBit(3, 2);
    BitOrCommutes(8, 1);
    BitOrHighBit(1, 3);
    BitOrCommutes(8, 2);
    BitOrHighBit(2, 3);
    BitOrCommutes(8, 4);
    BitOrHighBit(4, 3);
  }

  /** Each FORCE_* combination is the FORCE bit plus exactly one base
      method. */
  lemma ForceCombinations(m: ResetMethod)
    requires m == FORCE_PUC_RESET || m == FORCE_RST_RESET || m == FORCE_VCC_RESET
    ensures exists b :: IsBaseMethod(b) && ResetValue(m) == ResetValue(FORCE_RESET) + ResetValue(b)
    ensures forall b :: IsBaseMethod(b) && ResetValue(m) == ResetValue(FORCE_RESET) + ResetValue(b) ==>
      b == ForcedMethod(m)
  {
    ResetValues();
    var b := ForcedMethod(m);
    assert IsBaseMethod(b) && ResetValue(m) == ResetValue(FORCE_RESET) + ResetValue(b);
  }

  /** The base method a FORCE_* combination forces. */
  function ForcedMethod(m: ResetMethod): ResetMethod
  {
    match m
    case FORCE_RST_RESET => RST_RESET
    case FORCE_VCC_RESET => VCC_RESET
    case _ => PUC_RESET
  }

  /** ResetMethodType(n); None stands for ValueError. */
  function ResetMethodFromValue(n: int): (r: Option<ResetMethod>)
    ensures r.Some? <==> n in {1, 2, 4, 8, 7, 9, 10, 12}
    ensures r.Some? ==> ResetValue(r.value) == n
  {
    ResetValues();
    if n == 1 then Some(PUC_RESET)
    else if n == 2 then Some(RST_RESET)
    else if n == 4 then Some(VCC_RESET)
    else if n == 8 then Some(FORCE_RESET)
    else if n == 7 then Some(ALL_RESETS)
    else if n == 9 then Some(FORCE_PUC_RESET)
    else if n == 10 then Some(FORCE_RST_RESET)
    else if n == 12 then Some(FORCE_VCC_RESET)
    else None
  }

  lemma ResetMethodRoundTrip(m: ResetMethod)
    ensures ResetMethodFromValue(ResetValue(m)) == Some(m)
  {
    ResetValues();
  }

  // ---------------------------------------------------------------------
  // BaseAPI

  const BaseFunctions: seq<FunctionDef> := [
    Def3("MSP430_GetNumberOfUsbIfs", STATUS_T, [POINTER(LONG)]),
    Def3("MSP430_GetNameOfUsbIf", STATUS_T, [LONG, POINTER(c_char_p), POINTER(LONG)]),
    Def3("MSP430_SET_SYSTEM_NOTIFY_CALLBACK", STATUS_T, [SystemNotifyCallback]),
    Def3("MSP430_Initialize", STATUS_T, [c_char_p, POINTER(DWORD)]),
    Def3("MSP430_Close", STATUS_T, [LONG]),
    Def3("MSP430_GetJtagID", STATUS_T, [POINTER(LONG)]),
    Def3("MSP430_GetFoundDevice", STATUS_T, [c_char_p, LONG]),
    Def3("MSP430_OpenDevice", STATUS_T, [c_char_p, c_char_p, LONG, LONG, LONG]),
    Def3("MSP430_Identify", STATUS_T, []),
    Def3("MSP430_Device", STATUS_T, [LONG, c_char_p, LONG]),
    Def3("MSP430_Configure", STATUS_T, [LONG, LONG]),
    Def3("MSP430_VCC", STATUS_T, [LONG]),
    Def3("MSP430_GetCurVCCT", LONG, [POINTER(LONG)]),
    Def3("MSP430_GetExtVoltage", LONG, [POINTER(LONG), POINTER(LONG)]),
    Def3("MSP430_Reset", STATUS_T, [LONG, LONG, LONG]),
    Def3("MSP430_Erase", STATUS_T, [LONG, LONG, LONG]),
    Def3("MSP430_Memory", STATUS_T, [LONG, c_char_p, LONG, LONG]),
    Def3("MSP430_Secure", STATUS_T, []),
    Def3("MSP430_ReadOutFile", STATUS_T, [LONG, LONG, c_char_p, LONG]),
    Def3("MSP430_ProgramFile", STATUS_T, []),
    Def3("MSP430_VerifyFile", STATUS_T, []),
    Def3("MSP430_VerifyMem", STATUS_T, []),
    Def3("MSP430_EraseCheck", STATUS_T, []),
    Def3("MSP430_Error_Number", STATUS_T, []),
    Def3("MSP430_Error_String", POINTER(c_char), [LONG])
  ]

  /** Loading BaseAPI's table never raises. */
  lemma BaseFunctionsLoad(library: Library, s: LoadState)
    ensures Load(library, s, BaseFunctions).error.None?
  {
    assert WellFormed(BaseFunctions);
    LoadWellFormed(library, s, BaseFunctions);
  }

  /** BaseAPI.writeMemory(address, buffer, byteCount) does nothing: no
      library call, no change to the API object, no result. */
  method WriteMemory(api: ApiObject, address: int, buffer: seq<byte>, byteCount: int)
    ensures api.State() == old(api.State())
  {
  }
}
