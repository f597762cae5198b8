/** Status checking and the function-table loader (msp430dll/api.py). */
module Api {
  import opened Util
  import opened Errors

  /** StatusCode: the two values a STATUS_T result is documented to take. */
  datatype StatusCode = STATUS_ERROR | STATUS_OK

  function StatusValue(s: StatusCode): int
  {
    match s
    case STATUS_ERROR => -1
    case STATUS_OK => 0
  }

  /** StatusCode(v); None stands for Python's ValueError. */
  function StatusFromValue(v: int): (r: Option<StatusCode>)
    ensures r.Some? <==> v == -1 || v == 0
    ensures r.Some? ==> StatusValue(r.value) == v
  {
    if v == -1 then Some(STATUS_ERROR) else if v == 0 then Some(STATUS_OK) else None
  }

  /** What API.returnValue does with a raw status value. */
  datatype ReturnOutcome =
    | Returned(status: StatusCode)
      /** MSPError raised after querying the last error number and its text. */
    | RaisedMSPError(error: MSPError)
      /** The warning "Unexpected return value: v" was logged, then
          StatusCode(v) raised ValueError. */
    | RaisedValueError(warning: string)

  /** The message returnValue puts in the MSPError it raises. */
  function ErrorMessage(errno: int, errstr: string): string
  {
    Decimal(errno) + " -- " + errstr + "."
  }

  /** API.returnValue(value). `errorNumber` is what the library's
      MSP430_Error_Number would report and `errorString` its
      MSP430_Error_String; both are consulted only for value -1. */
  function ReturnValue(value: int, errorNumber: int, errorString: int -> string): (r: ReturnOutcome)
    ensures r.Returned? <==> value == 0
    ensures r.Returned? ==> r.status == STATUS_OK && StatusValue(r.status) == value
    ensures r.RaisedMSPError? <==> value == -1
    ensures r.RaisedMSPError? ==>
      r.error.errno == Some(errorNumber) &&
      r.error.args == [ErrorMessage(errorNumber, errorString(errorNumber))]
    ensures r.RaisedValueError? <==> value != -1 && value != 0
    ensures r.RaisedValueError? ==> r.warning == "Unexpected return value: " + Decimal(value)
  {
    if value == -1 then
      var errno := errorNumber;
      var errstr := errorString(errno);
      RaisedMSPError(NewMSPError([ErrorMessage(errno, errstr)], map["errno" := errno]))
    else
      var warning := "Unexpected return value: " + Decimal(value);
      match StatusFromValue(value)
      case Some(status) => Returned(status)
      case None => RaisedValueError(warning)
  }

  /** A success does not depend on the error query at all: returnValue(0)
      gives STATUS_OK whatever the library would report. */
  lemma ReturnValueOkIgnoresErrorQuery(n1: int, n2: int, f1: int -> string, f2: int -> string)
    ensures ReturnValue(0, n1, f1) == ReturnValue(0, n2, f2) == Returned(STATUS_OK)
  {
  }

  /** STATUS_ERROR is never returned: -1 always raises. */
  lemma ErrorStatusNeverReturned(value: int, errorNumber: int, errorString: int -> string)
    ensures ReturnValue(value, errorNumber, errorString) != Returned(STATUS_ERROR)
  {
  }

  /** The error number can be read back from the front of the message:
      everything before the first blank is its decimal form. */
  lemma {:induction false} ErrorMessageLeadsWithErrno(errno: int, errstr: string)
    ensures var msg := ErrorMessage(errno, errstr);
      var k := IndexOf(msg, ' ');
      k.Some? && DecimalValue(msg[..k.value]) == Some(errno)
  {
    var d := Decimal(errno);
    var msg := ErrorMessage(errno, errstr);
    assert msg == d + (" -- " + errstr + ".");
    DecimalChars(errno);
    assert ' ' !in d;
    assert msg[|d|] == ' ';
    assert IndexOf(msg, ' ') == Some(|d|);
    assert msg[..|d|] == d;
    DecimalRoundTrip(errno);
  }

  // ---------------------------------------------------------------------
  // Function tables

  /** The ctypes types that appear in the function tables. */
  datatype CType =
    | LONG | DWORD | c_int32 | c_char | c_char_p | SystemNotifyCallback
    | POINTER(target: CType)

  /** STATUS_T, the result type of most library functions. */
  const STATUS_T: CType := LONG

  /** One entry of a FUNCTIONS table: a 3-tuple (name, result type,
      argument types), a 4-tuple that adds an error checker, or a tuple of
      any other length, kept as its printed form. */
  datatype FunctionDef =
    | Def3(name: string, resultType: CType, argTypes: seq<CType>)
    | Def4(name: string, resultType: CType, argTypes: seq<CType>, checker: string)
    | Malformed(text: string)

  predicate WellFormed(table: seq<FunctionDef>)
  {
    forall i :: 0 <= i < |table| ==> !table[i].Malformed?
  }

  /** The shared library as far as the loader sees it: the symbols it
      exports. */
  datatype Library = Library(name: string, exports: set<string>)

  /** The result conversion ctypes applies: its default (a C int), or
      API.returnValue. */
  datatype Restype = DefaultRestype | ReturnValueChecker

  /** A bound foreign function as functionFactory leaves it. */
  datatype ForeignFunction = ForeignFunction(name: string, restype: Restype, argtypes: Option<seq<CType>>)

  /** The functions that do not return a STATUS_T and so get no checker. */
  const UncheckedFunctions: set<string> :=
    {"MSP430_Error_Number", "MSP430_Error_String", "MSP430_GetCurVCCT", "MSP430_GetExtVoltage"}

  /** API.functionFactory(library, name, resultType, argTypes): None stands
      for the AttributeError raised when the library does not export the
      name. The declared result type and any checker are not used. */
  function FunctionFactory(library: Library, name: string, argTypes: Option<seq<CType>>): (r: Option<ForeignFunction>)
    ensures r.Some? <==> name in library.exports
    ensures r.Some? ==> r.value.name == name && r.value.argtypes == argTypes
    ensures r.Some? ==> (r.value.restype == ReturnValueChecker <==> name !in UncheckedFunctions)
  {
    if name !in library.exports then None
    else
      var restype := if name !in UncheckedFunctions then ReturnValueChecker else DefaultRestype;
      Some(ForeignFunction(name, restype, argTypes))
  }

  /** The argument types handed to ctypes: an empty list becomes None. */
  function ArgTypesFor(argTypes: seq<CType>): (r: Option<seq<CType>>)
    ensures r.None? <==> argTypes == []
    ensures r.Some? ==> r.value == argTypes
  {
    if argTypes == [] then None else Some(argTypes)
  }

  /** What loadFunctions records: the unsupported names in the order met,
      and the functions bound as attributes of the API object. */
  datatype LoadState = LoadState(unsupported: seq<string>, functions: map<string, ForeignFunction>)

  /** The state after a run of loadFunctions, and the message of the
      AttributeError it raised, if any. */
  datatype LoadOutcome = LoadOutcome(state: LoadState, error: Option<string>)

  function MalformedMessage(text: string): string
  {
    "wrong length of function definition '" + text + "'."
  }

  /** One iteration of the loop in loadFunctions. */
  function LoadEntry(library: Library, s: LoadState, d: FunctionDef): (r: LoadOutcome)
  {
    match d
    case Malformed(text) => LoadOutcome(s, Some(MalformedMessage(text)))
    case _ =>
      match FunctionFactory(library, d.name, ArgTypesFor(d.argTypes))
      case None => LoadOutcome(LoadState(s.unsupported + [d.name], s.functions), None)
      case Some(f) => LoadOutcome(LoadState(s.unsupported, s.functions[d.name := f]), None)
  }

  /** The whole loop: the table's entries in order, stopping at the first
      one that raises. */
  function Load(library: Library, s: LoadState, table: seq<FunctionDef>): (r: LoadOutcome)
    decreases |table|
  {
    if table == [] then LoadOutcome(s, None)
    else
      var first := LoadEntry(library, s, table[0]);
      if first.error.Some? then first else Load(library, first.state, table[1..])
  }

  /** The names of a well-formed table's entries that the library does not
      export, in table order. */
  function Missing(library: Library, table: seq<FunctionDef>): (r: seq<string>)
    requires WellFormed(table)
    ensures forall n :: n in r <==> exists i :: 0 <= i < |table| && table[i].name == n && n !in library.exports
  {
    if table == [] then []
    else
      var rest := Missing(library, table[1..]);
      assert forall i :: 1 <= i < |table| ==> table[i] == table[1..][i - 1];
      if table[0].name in library.exports then rest else [table[0].name] + rest
  }

  /** The functions that loading a well-formed table binds, on top of `m`:
      later entries with the same name overwrite earlier ones. */
  function Bound(library: Library, m: map<string, ForeignFunction>, table: seq<FunctionDef>): map<string, ForeignFunction>
    requires WellFormed(table)
    decreases |table|
  {
    if table == [] then m
    else
      var d := table[0];
      var m' := if d.name in library.exports then m[d.name := FunctionFactory(library, d.name, ArgTypesFor(d.argTypes)).value] else m;
      Bound(library, m', table[1..])
  }

  /** Loading a well-formed table never raises; it appends the missing
      names to `unsupported` in table order and binds the others. */
  lemma {:induction false} LoadWellFormed(library: Library, s: LoadState, table: seq<FunctionDef>)
    requires WellFormed(table)
    ensures Load(library, s, table).error.None?
    ensures Load(library, s, table).state.unsupported == s.unsupported + Missing(library, table)
    ensures Load(library, s, table).state.functions == Bound(library, s.functions, table)
    decreases |table|
  {
    if table != [] {
      var first := LoadEntry(library, s, table[0]);
      assert WellFormed(table[1..]) by {
        forall i | 0 <= i < |table[1..]| ensures !table[1..][i].Malformed? {
          assert table[1..][i] == table[i + 1];
        }
      }
      LoadWellFormed(library, first.state, table[1..]);
    }
  }

  /** The entries before a malformed one keep their effects; the malformed
      one raises AttributeError and nothing after it is looked at. */
  lemma {:induction false} LoadStopsAtMalformed(library: Library, s: LoadState, table: seq<FunctionDef>, k: nat)
    requires k < |table| && table[k].Malformed?
    requires WellFormed(table[..k])
    ensures Load(library, s, table) ==
      LoadOutcome(Load(library, s, table[..k]).state, Some(MalformedMessage(table[k].text)))
    decreases k
  {
    if k > 0 {
      var first := LoadEntry(library, s, table[0]);
      assert table[..k][0] == table[0];
      assert !table[0].Malformed?;
      assert table[1..][..k - 1] == table[..k][1..];
      TailWellFormed(table[..k]);
      LoadStopsAtMalformed(library, first.state, table[1..], k - 1);
    }
  }

  /** The result functionFactory gives for a name the library exports. */
  function Binding(n: string, argTypes: seq<CType>): ForeignFunction
  {
    ForeignFunction(n, if n in UncheckedFunctions then DefaultRestype else ReturnValueChecker, ArgTypesFor(argTypes))
  }

  lemma TailWellFormed(table: seq<FunctionDef>)
    requires table != [] && WellFormed(table)
    ensures WellFormed(table[1..])
  {
    forall i | 0 <= i < |table[1..]| ensures !table[1..][i].Malformed? {
      assert table[1..][i] == table[i + 1];
    }
  }

  /** A name is bound after loading exactly when it was bound before or
      some entry of the table has that name and the library exports it. */
  lemma {:induction false} BoundKeys(library: Library, m: map<string, ForeignFunction>, table: seq<FunctionDef>, n: string)
    requires WellFormed(table)
    ensures n in Bound(library, m, table) <==>
      n in m || (n in library.exports && exists i :: 0 <= i < |table| && table[i].name == n)
    decreases |table|
  {
    if table != [] {
      var d := table[0];
      var m' := if d.name in library.exports then m[d.name := FunctionFactory(library, d.name, ArgTypesFor(d.argTypes)).value] else m;
      TailWellFormed(table);
      BoundKeys(library, m', table[1..], n);
      if exists i :: 0 <= i < |table| && table[i].name == n {
        var i :| 0 <= i < |table| && table[i].name == n;
        if i > 0 { assert table[1..][i - 1] == table[i]; }
      }
      if exists i :: 0 <= i < |table[1..]| && table[1..][i].name == n {
        var i :| 0 <= i < |table[1..]| && table[1..][i].name == n;
        assert table[i + 1] == table[1..][i];
      }
    }
  }

  /** Every function loading binds comes from an entry of the table with
      that name, with functionFactory's checker rule and the entry's
      argument types (None for an empty list). */
  lemma {:induction false} BoundValues(library: Library, m: map<string, ForeignFunction>, table: seq<FunctionDef>, n: string)
    requires WellFormed(table)
    requires n in Bound(library, m, table) && n !in m
    ensures exists i :: (0 <= i < |table| && table[i].name == n &&
      Bound(library, m, table)[n] == Binding(n, table[i].argTypes))
    decreases |table|
  {
    var d := table[0];
    var m' := if d.name in library.exports then m[d.name := FunctionFactory(library, d.name, ArgTypesFor(d.argTypes)).value] else m;
    TailWellFormed(table);
    var b := Bound(library, m, table);
    if n in m' {
      assert d.name == n && m'[n] == Binding(n, d.argTypes);
      BoundKeepsOrOverrides(library, m', table[1..], n);
      if b[n] == m'[n] {
        assert table[0].name == n;
      } else {
        var i :| 0 <= i < |table[1..]| && table[1..][i].name == n && b[n] == Binding(n, table[1..][i].argTypes);
        assert table[i + 1] == table[1..][i];
      }
    } else {
      BoundValues(library, m', table[1..], n);
      var i :| 0 <= i < |table[1..]| && table[1..][i].name == n && b[n] == Binding(n, table[1..][i].argTypes);
      assert table[i + 1] == table[1..][i];
    }
  }

  /** An entry already bound either keeps its value or is overwritten by a
      later table entry of the same name. */
  lemma {:induction false} BoundKeepsOrOverrides(library: Library, m: map<string, ForeignFunction>, table: seq<FunctionDef>, n: string)
    requires WellFormed(table)
    requires n in m
    ensures n in Bound(library, m, table)
    ensures Bound(library, m, table)[n] == m[n] ||
      exists i :: 0 <= i < |table| && table[i].name == n && Bound(library, m, table)[n] == Binding(n, table[i].argTypes)
    decreases |table|
  {
    if table != [] {
      var d := table[0];
      var m' := if d.name in library.exports then m[d.name := FunctionFactory(library, d.name, ArgTypesFor(d.argTypes)).value] else m;
      TailWellFormed(table);
      BoundKeepsOrOverrides(library, m', table[1..], n);
      var b := Bound(library, m, table);
      if b[n] == m'[n] {
        if m'[n] != m[n] {
          assert table[0].name == n;
        }
      } else {
        var i :| 0 <= i < |table[1..]| && table[1..][i].name == n && b[n] == Binding(n, table[1..][i].argTypes);
        assert table[i + 1] == table[1..][i];
      }
    }
  }

  /** Starting from a fresh API object and a well-formed table, each table
      name ends up either bound or unsupported, never both. */
  lemma LoadPartitions(library: Library, table: seq<FunctionDef>, n: string)
    requires WellFormed(table)
    requires exists i :: 0 <= i < |table| && table[i].name == n
    ensures var s := Load(library, LoadState([], map[]), table).state;
      (n in s.functions <==> n !in s.unsupported) &&
      (n in s.functions <==> n in library.exports)
  {
    LoadWellFormed(library, LoadState([], map[]), table);
    BoundKeys(library, map[], table, n);
  }

  /** An API object: the library it wraps, its FUNCTIONS table, the names
      it found missing, and the foreign functions bound on it. */
  class ApiObject {
    const parent: object?
    const dll: Library
    const functionTable: seq<FunctionDef>
    var unsupported: seq<string>
    var functions: map<string, ForeignFunction>

    /** API.__init__(parent, dll). */
    constructor (parent: object?, dll: Library, functionTable: seq<FunctionDef>)
      ensures this.parent == parent && this.dll == dll && this.functionTable == functionTable
      ensures unsupported == [] && functions == map[]
    {
      this.parent := parent;
      this.dll := dll;
      this.functionTable := functionTable;
      unsupported := [];
      functions := map[];
    }

    function State(): LoadState
      reads this
    {
      LoadState(unsupported, functions)
    }

    /** API.isImplemented(funcName). */
    function IsImplemented(funcName: string): (b: bool)
      reads this
      ensures b <==> funcName !in unsupported
    {
      funcName !in unsupported
    }

    /** API.loadFunctions(): on success `error` is None; otherwise it is the
        message of the AttributeError raised for a malformed entry, and the
        entries before it keep their effects. */
    method LoadFunctions() returns (error: Option<string>)
      modifies this
      ensures LoadOutcome(State(), error) == Load(dll, old(State()), functionTable)
    {
      var i := 0;
      while i < |functionTable|
        invariant 0 <= i <= |functionTable|
        invariant Load(dll, old(State()), functionTable) == Load(dll, State(), functionTable[i..])
      {
        var fun := functionTable[i];
        assert functionTable[i..][0] == fun && functionTable[i..][1..] == functionTable[i + 1..];
        var addFunction := true;
        var func: ForeignFunction;
        if fun.Def3? || fun.Def4? {
          var argTypes := ArgTypesFor(fun.argTypes);
          var f := FunctionFactory(dll, fun.name, argTypes);
          if f.None? {
            unsupported := unsupported + [fun.name];
            addFunction := false;
          } else {
            func := f.value;
          }
        } else {
          error := Some(MalformedMessage(fun.text));
          return;
        }
        if addFunction {
          functions := functions[fun.name := func];
        }
        i := i + 1;
      }
      error := None;
    }
  }

  /** After loading from a fresh object, a function counts as implemented
      exactly when it is not a table entry the library lacks. */
  lemma IsImplementedAfterLoad(library: Library, table: seq<FunctionDef>, n: string)
    requires WellFormed(table)
    ensures var s := Load(library, LoadState([], map[]), table).state;
      n !in s.unsupported <==> (n in library.exports || forall i :: 0 <= i < |table| ==> table[i].name != n)
  {
    LoadWellFormed(library, LoadState([], map[]), table);
  }
}
