/** Register naming, register masks, the run and state modes and the
    register snapshot (msp430dll/debug.py). */
module Debug {
  import opened Util
  import opened Api

  /** A c_int32 value. */
  type int32 = x: int | -0x8000_0000 <= x < 0x8000_0000

  // ---------------------------------------------------------------------
  // DEVICE_REGISTERS

  /** The sixteen CPU registers, in declaration order. */
  datatype DeviceRegister =
    R0 | R1 | R2 | R3 | R4 | R5 | R6 | R7 | R8 | R9 | R10 | R11 | R12 | R13 | R14 | R15

  const RegisterCount := 16

  function RegisterValue(r: DeviceRegister): nat
  {
    match r
    case R0 => 0 case R1 => 1 case R2 => 2 case R3 => 3
    case R4 => 4 case R5 => 5 case R6 => 6 case R7 => 7
    case R8 => 8 case R9 => 9 case R10 => 10 case R11 => 11
    case R12 => 12 case R13 => 13 case R14 => 14 case R15 => 15
  }

  function RegisterName(r: DeviceRegister): string
  {
    match r
    case R0 => "R0" case R1 => "R1" case R2 => "R2" case R3 => "R3"
    case R4 => "R4" case R5 => "R5" case R6 => "R6" case R7 => "R7"
    case R8 => "R8" case R9 => "R9" case R10 => "R10" case R11 => "R11"
    case R12 => "R12" case R13 => "R13" case R14 => "R14" case R15 => "R15"
  }

  /** The member with value `n`. */
  function RegisterOf(n: nat): (r: DeviceRegister)
    requires n < RegisterCount
    ensures RegisterValue(r) == n
  {
    if n < 8 then
      if n == 0 then R0 else if n == 1 then R1 else if n == 2 then R2 else if n == 3 then R3
      else if n == 4 then R4 else if n == 5 then R5 else if n == 6 then R6 else R7
    else
      if n == 8 then R8 else if n == 9 then R9 else if n == 10 then R10 else if n == 11 then R11
      else if n == 12 then R12 else if n == 13 then R13 else if n == 14 then R14 else R15
  }

  /** The members with values below `k`, in declaration order. */
  function MembersBelow(k: nat): (r: seq<DeviceRegister>)
    requires k <= RegisterCount
    ensures |r| == k
    ensures forall i :: 0 <= i < k ==> r[i] == RegisterOf(i)
  {
    if k == 0 then [] else MembersBelow(k - 1) + [RegisterOf(k - 1)]
  }

  /** DEVICE_REGISTERS.__members__, in declaration order. */
  const Registers: seq<DeviceRegister> := MembersBelow(RegisterCount)

  /** DEVICE_REGISTERS(n); None stands for ValueError. */
  function RegisterFromValue(n: int): (r: Option<DeviceRegister>)
    ensures r.Some? <==> 0 <= n < RegisterCount
    ensures r.Some? ==> RegisterValue(r.value) == n
  {
    if 0 <= n < RegisterCount then Some(RegisterOf(n)) else None
  }

  /** The enumeration has exactly sixteen members; the i-th is named
      "R<i>" and has value i. */
  lemma DeviceRegistersNumbered(i: nat)
    requires i < RegisterCount
    ensures |Registers| == RegisterCount
    ensures RegisterValue(Registers[i]) == i
    ensures RegisterName(Registers[i]) == "R" + Decimal(i)
  {
    if i < 10 {
      assert Decimal(i) == [DigitChar(i)];
    } else {
      assert i / 10 == 1 && i % 10 == i - 10;
      assert Decimal(i) == Digits(1, 10) + [DigitChar(i - 10)];
    }
  }

  /** Every member appears in `Registers`, at the position of its value. */
  lemma RegisterAtItsValue(r: DeviceRegister)
    ensures RegisterValue(r) < |Registers| && Registers[RegisterValue(r)] == r
  {
    RegisterOfValue(r);
  }

  lemma RegisterOfValue(r: DeviceRegister)
    ensures RegisterOf(RegisterValue(r)) == r
  {
    match r
    case R0 => {} case R1 => {} case R2 => {} case R3 => {}
    case R4 => {} case R5 => {} case R6 => {} case R7 => {}
    case R8 => {} case R9 => {} case R10 => {} case R11 => {}
    case R12 => {} case R13 => {} case R14 => {} case R15 => {}
  }

  lemma RegisterFromValueRoundTrip(r: DeviceRegister)
    ensures RegisterFromValue(RegisterValue(r)) == Some(r)
  {
  }

  /** DEVICE_REGISTERS[name]; None stands for KeyError. */
  function RegisterFromName(name: string): (r: Option<DeviceRegister>)
    ensures r.Some? ==> RegisterName(r.value) == name
  {
    if |name| < 2 || name[0] != 'R' then None
    else if name == "R0" then Some(R0) else if name == "R1" then Some(R1)
    else if name == "R2" then Some(R2) else if name == "R3" then Some(R3)
    else if name == "R4" then Some(R4) else if name == "R5" then Some(R5)
    else if name == "R6" then Some(R6) else if name == "R7" then Some(R7)
    else if name == "R8" then Some(R8) else if name == "R9" then Some(R9)
    else if name == "R10" then Some(R10) else if name == "R11" then Some(R11)
    else if name == "R12" then Some(R12) else if name == "R13" then Some(R13)
    else if name == "R14" then Some(R14) else if name == "R15" then Some(R15)
    else None
  }

  /** Looking a register up by its own name finds it; so distinct members
      have distinct names. */
  lemma RegisterNameRoundTrip(r: DeviceRegister)
    ensures RegisterFromName(RegisterName(r)) == Some(r)
  {
    match r
    case R0 => {} case R1 => {} case R2 => {} case R3 => {}
    case R4 => {} case R5 => {} case R6 => {} case R7 => {}
    case R8 => {} case R9 => {} case R10 => {} case R11 => {}
    case R12 => {} case R13 => {} case R14 => {} case R15 => {}
  }

  // ---------------------------------------------------------------------
  // REGISTER_ALIAS

  const REGISTER_ALIAS: map<string, string> :=
    map["PC" := "R0", "SP" := "R1", "SR" := "R2", "CG1" := "R2", "CG2" := "R3"]

  /** registerAlias(regName): the register an alias stands for, any other
      name unchanged. */
  function RegisterAlias(regName: string): (r: string)
    ensures regName in REGISTER_ALIAS ==> r == REGISTER_ALIAS[regName]
    ensures regName !in REGISTER_ALIAS ==> r == regName
  {
    if regName in REGISTER_ALIAS then REGISTER_ALIAS[regName] else regName
  }

  lemma AliasTargets()
    ensures RegisterAlias("PC") == RegisterName(R0)
    ensures RegisterAlias("SP") == RegisterName(R1)
    ensures RegisterAlias("SR") == RegisterName(R2)
    ensures RegisterAlias("CG1") == RegisterName(R2)
    ensures RegisterAlias("CG2") == RegisterName(R3)
  {
  }

  /** Exactly the five alias names are changed. */
  lemma AliasChangesOnlyAliases(regName: string)
    ensures RegisterAlias(regName) != regName <==>
      regName in {"PC", "SP", "SR", "CG1", "CG2"}
  {
  }

  /** Whatever an alias resolves to is the name of a device register. */
  lemma AliasResolvesToRegister(regName: string)
    requires regName in REGISTER_ALIAS
    ensures exists r: DeviceRegister :: RegisterAlias(regName) == RegisterName(r)
  {
    var t := RegisterAlias(regName);
    if t == "R0" { assert t == RegisterName(R0); }
    else if t == "R1" { assert t == RegisterName(R1); }
    else if t == "R2" { assert t == RegisterName(R2); }
    else { assert t == RegisterName(R3); }
  }

  /** No alias target is itself an alias, so resolving twice is resolving
      once. */
  lemma {:induction false} RegisterAliasIdempotent(regName: string)
    ensures RegisterAlias(RegisterAlias(regName)) == RegisterAlias(regName)
  {
    if regName in REGISTER_ALIAS {
      var t := REGISTER_ALIAS[regName];
      assert t in {"R0", "R1", "R2", "R3"};
      assert t !in REGISTER_ALIAS;
    }
  }

  // ---------------------------------------------------------------------
  // maskreg and ALL_REGS

  /** maskreg(reg) = 1 << reg; None stands for the ValueError Python raises
      for a negative shift count. */
  function MaskReg(reg: int): (r: Option<nat>)
    ensures r.Some? <==> reg >= 0
    ensures r.Some? ==> r.value == Pow2(reg)
  {
    if reg < 0 then None else ShiftLeftIsProduct(1, reg); Some(ShiftLeft(1, reg))
  }

  const ALL_REGS: nat := 0xffff

  /** maskreg(0) | ... | maskreg(k - 1). */
  function MasksBelow(k: nat): nat
  {
    if k == 0 then 0 else BitOr(MasksBelow(k - 1), Pow2(k - 1))
  }

  lemma {:induction false} MasksBelowFill(k: nat)
    ensures MasksBelow(k) == Pow2(k) - 1
    decreases k
  {
    if k > 0 {
      MasksBelowFill(k - 1);
      Pow2Monotone(k - 1, k);
      BitOrHighBit(Pow2(k - 1) - 1, k - 1);
    }
  }

  /** ALL_REGS selects all sixteen registers: it is the OR of their
      masks. */
  lemma AllRegsIsAllMasks()
    ensures MasksBelow(RegisterCount) == ALL_REGS
  {
    MasksBelowFill(16);
    assert Pow2(4) == 16;
    assert Pow2(8) == 256;
    assert Pow2(12) == 4096;
  }

  /** The masks of distinct registers are distinct and share no bit: or-ing
      them adds them. */
  lemma MasksDisjoint(r: nat, s: nat)
    requires r != s
    ensures MaskReg(r) != MaskReg(s)
    ensures BitOr(MaskReg(r).value, MaskReg(s).value) == MaskReg(r).value + MaskReg(s).value
  {
    if r < s {
      Pow2Monotone(r, s);
      BitOrHighBit(Pow2(r), s);
    } else {
      Pow2Monotone(s, r);
      BitOrHighBit(Pow2(s), r);
      BitOrCommutes(Pow2(r), Pow2(s));
    }
  }

  // ---------------------------------------------------------------------
  // RUN_MODES and STATE_MODES

  datatype RunMode = FREE_RUN | SINGLE_STEP | RUN_TO_BREAKPOINT

  function RunModeValue(m: RunMode): nat
  {
    match m
    case FREE_RUN => 1
    case SINGLE_STEP => 2
    case RUN_TO_BREAKPOINT => 3
  }

  /** RUN_MODES(n); None stands for ValueError. */
  function RunModeFromValue(n: int): (r: Option<RunMode>)
    ensures r.Some? <==> 1 <= n <= 3
    ensures r.Some? ==> RunModeValue(r.value) == n
  {
    if n == 1 then Some(FREE_RUN)
    else if n == 2 then Some(SINGLE_STEP)
    else if n == 3 then Some(RUN_TO_BREAKPOINT)
    else None
  }

  lemma RunModeRoundTrip(m: RunMode)
    ensures RunModeFromValue(RunModeValue(m)) == Some(m)
  {
  }

  datatype StateMode =
    STOPPED | RUNNING | SINGLE_STEP_COMPLETE | BREAKPOINT_HIT | LPMX5_MODE | LPMX5_WAKEUP

  function StateModeValue(m: StateMode): nat
  {
    match m
    case STOPPED => 0
    case RUNNING => 1
    case SINGLE_STEP_COMPLETE => 2
    case BREAKPOINT_HIT => 3
    case LPMX5_MODE => 4
    case LPMX5_WAKEUP => 5
  }

  /** STATE_MODES(n); None stands for ValueError. */
  function StateModeFromValue(n: int): (r: Option<StateMode>)
    ensures r.Some? <==> 0 <= n <= 5
    ensures r.Some? ==> StateModeValue(r.value) == n
  {
    if n == 0 then Some(STOPPED)
    else if n == 1 then Some(RUNNING)
    else if n == 2 then Some(SINGLE_STEP_COMPLETE)
    else if n == 3 then Some(BREAKPOINT_HIT)
    else if n == 4 then Some(LPMX5_MODE)
    else if n == 5 then Some(LPMX5_WAKEUP)
    else None
  }

  lemma StateModeRoundTrip(m: StateMode)
    ensures StateModeFromValue(StateModeValue(m)) == Some(m)
  {
  }

  /** DebugAPI.getState(stop), given the state and cycle count
      MSP430_State wrote: the state decoded through STATE_MODES (None for
      the ValueError of an undefined state) and the cycles unchanged. */
  function GetState(state: int32, cycles: int32): (r: Option<(StateMode, int32)>)
    ensures r.Some? <==> 0 <= state <= 5
    ensures r.Some? ==> StateModeValue(r.value.0) == state && r.value.1 == cycles
  {
    match StateModeFromValue(state)
    case Some(m) => Some((m, cycles))
    case None => None
  }

  // ---------------------------------------------------------------------
  // readRegisters

  /** One item of an OrderedDict from register names to words. */
  datatype Item = Item(key: string, value: int32)

  /** Python's zip of names and words: pairs up to the shorter of the two. */
  function Zip(keys: seq<string>, values: seq<int32>): (r: seq<Item>)
    ensures |r| == if |keys| < |values| then |keys| else |values|
    ensures forall i :: 0 <= i < |r| ==> r[i] == Item(keys[i], values[i])
  {
    if keys == [] || values == [] then [] else [Item(keys[0], values[0])] + Zip(keys[1..], values[1..])
  }

  /** The register names, in DEVICE_REGISTERS.__members__ order. */
  function RegisterNames(regs: seq<DeviceRegister>): (r: seq<string>)
    ensures |r| == |regs|
    ensures forall i :: 0 <= i < |r| ==> r[i] == RegisterName(regs[i])
  {
    if regs == [] then [] else [RegisterName(regs[0])] + RegisterNames(regs[1..])
  }

  /** An OrderedDict built from pairs: the value of the last pair with that
      key (the first too when the keys are distinct). */
  function Lookup(d: seq<Item>, key: string): (r: Option<int32>)
    ensures r.None? <==> forall i :: 0 <= i < |d| ==> d[i].key != key
    ensures r.Some? ==> exists i :: 0 <= i < |d| && d[i] == Item(key, r.value)
  {
    if d == [] then None
    else
      match Lookup(d[1..], key)
      case Some(v) => Some(v)
      case None => if d[0].key == key then Some(d[0].value) else None
  }

  /** readRegisters() and readRegistersExt(), given the sixteen words the
      library wrote into the c_int32 * 16 buffer: keys R0 .. R15 in order,
      each with the word at its position. */
  function ReadRegisters(buffer: seq<int32>): (r: seq<Item>)
    requires |buffer| == RegisterCount
    ensures |r| == RegisterCount
    ensures forall i :: 0 <= i < RegisterCount ==> r[i] == Item(RegisterName(RegisterOf(i)), buffer[i])
  {
    Zip(RegisterNames(Registers), buffer)
  }

  /** With distinct keys, a key's lookup is the value paired with it. */
  lemma LookupDistinct(d: seq<Item>, i: nat)
    requires i < |d|
    requires forall a, b :: 0 <= a < b < |d| ==> d[a].key != d[b].key
    ensures Lookup(d, d[i].key) == Some(d[i].value)
  {
    var v := Lookup(d, d[i].key).value;
    var j :| 0 <= j < |d| && d[j] == Item(d[i].key, v);
    assert j == i;
  }

  /** No register name occurs twice in the snapshot. */
  lemma ReadRegistersDistinct(buffer: seq<int32>)
    requires |buffer| == RegisterCount
    ensures var d := ReadRegisters(buffer);
      forall a, b :: 0 <= a < b < |d| ==> d[a].key != d[b].key
  {
    var d := ReadRegisters(buffer);
    forall a, b | 0 <= a < b < |d| ensures d[a].key != d[b].key {
      RegisterNameRoundTrip(RegisterOf(a));
      RegisterNameRoundTrip(RegisterOf(b));
    }
  }

  /** Looking a register's name up in the snapshot gives the word at that
      register's position in the buffer. */
  lemma ReadRegistersLookup(buffer: seq<int32>, r: DeviceRegister)
    requires |buffer| == RegisterCount
    ensures Lookup(ReadRegisters(buffer), RegisterName(r)) == Some(buffer[RegisterValue(r)])
  {
    var d := ReadRegisters(buffer);
    var i := RegisterValue(r);
    RegisterOfValue(r);
    ReadRegistersDistinct(buffer);
    LookupDistinct(d, i);
  }

  /** The snapshot's keys are exactly the register names. */
  lemma ReadRegistersKeys(buffer: seq<int32>, key: string)
    requires |buffer| == RegisterCount
    ensures Lookup(ReadRegisters(buffer), key).Some? <==> RegisterFromName(key).Some?
  {
    var d := ReadRegisters(buffer);
    match RegisterFromName(key)
    case Some(r) =>
      RegisterOfValue(r);
      assert d[RegisterValue(r)].key == key;
    case None =>
      if Lookup(d, key).Some? {
        var j :| 0 <= j < |d| && d[j].key == key;
        RegisterNameRoundTrip(RegisterOf(j));
      }
  }

  // ---------------------------------------------------------------------
  // DebugAPI.FUNCTIONS

  const DebugFunctions: seq<FunctionDef> := [
    Def3("MSP430_Registers", STATUS_T, [POINTER(c_int32), c_int32, c_int32]),
    Def3("MSP430_ExtRegisters", STATUS_T, [POINTER(c_int32), c_int32, c_int32, c_int32]),
    Def3("MSP430_Register", STATUS_T, [POINTER(c_int32), c_int32, c_int32]),
    Def3("MSP430_Run", STATUS_T, [c_int32, c_int32]),
    Def3("MSP430_State", STATUS_T, [POINTER(c_int32), c_int32, POINTER(c_int32)]),
    Def3("MSP430_CcGetClockNames", STATUS_T, [c_char_p, POINTER(DWORD)]),
    Def3("MSP430_CcGetModuleNames", STATUS_T, [c_char_p, POINTER(DWORD)])
  ]

  /** Loading DebugAPI's table never raises, and every function it binds
      gets the status checker. */
  lemma DebugFunctionsLoad(library: Library, s: LoadState)
    ensures Load(library, s, DebugFunctions).error.None?
    ensures forall i :: 0 <= i < |DebugFunctions| ==> DebugFunctions[i].name !in UncheckedFunctions
  {
    LoadWellFormed(library, s, DebugFunctions);
  }
}
