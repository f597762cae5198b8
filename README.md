# msp430dll host-side core in Dafny

msp430dll is a Python (ctypes) wrapper around TI's MSP430.DLL debug
interface. This project models the part of it that runs on the host and
does not depend on the foreign library:

- `Errors` (errors.py): the 70-member `ErrorType` enumeration, the
  `ERROR_MAP` table of messages, and `MSPError` with its optional `errno`.
- `Api` (api.py): `StatusCode`, `returnValue` (STATUS_OK passes,
  STATUS_ERROR raises `MSPError` with the library's error number and
  string, anything else warns and then fails in `StatusCode(value)`),
  `functionFactory` with its four exempt function names, and
  `loadFunctions`. The API object is a class whose `unsupported` list and
  bound functions are updated in place.
- `Debug` (debug.py): `DEVICE_REGISTERS`, `REGISTER_ALIAS` and
  `registerAlias`, `maskreg` and `ALL_REGS`, `RUN_MODES`/`STATE_MODES`,
  `getState`, `readRegisters`, and DebugAPI's function table.
- `Base` (base.py): the packed `_DeviceStructure` record (38 fields,
  108 bytes) and the 112-byte `Device` union, little-endian field reads,
  `makeNamedtupleFromStructure`, `instanceiateNamedtuple`,
  `getFoundDevice`, `ResetMethodType`, BaseAPI's function table, and the
  empty `writeMemory`.
- `Info` (msp430-info.py): `displayMemoryInfo`, `yesNo`,
  `beautifyEnumerator`, and the decoding of the library's version number.
- `Dll` (__init__.py): `DLL.__new__` with the class-wide `_dllInstances`
  registry, and `DLL.loadedDlls`.
- `Util`: shared helpers. They cover Python's `str()` of integers,
  `{:04x}` hexadecimal, `<`/`>` padding, and search in strings.

The library itself is a parameter. A `Library` is a name and the set of
symbols it exports. The values the foreign functions write into buffers
are given as inputs: the register buffer, the 256-byte device buffer, and
the error number and string.

## Model

| member | source | states |
|---|---|---|
| Errors.FromCode | msp430dll/errors.py:41-111 | `ErrorType(n)` succeeds exactly for 0 <= n < 70, and gives the member whose value is n |
| Errors.FromCodeRoundTrip | msp430dll/errors.py:41-111 | every member's value is below 70, and looking the value up gives the member back |
| Errors.Member | msp430dll/errors.py:41-111 | for every n below 70, there is a member with value n |
| Errors.CodeInjective | msp430dll/errors.py:42-111 | no two members share a value |
| Errors.FromName | msp430dll/errors.py:41-111 | `ErrorType[name]` finds a member with that name, and fails exactly when no member has it |
| Errors.ErrorMapTotal | msp430dll/errors.py:114-185 | ERROR_MAP has one entry per member (70 entries), each holding that member's message |
| Errors.ErrorMapLookup | msp430dll/errors.py:114-185 | a member key always finds its message; an int key finds one only when it is a member's value (IntEnum hashes as int); a str key finds nothing |
| Errors.PreserveRestoreByName | msp430dll/errors.py:191-192 | `ErrorType['PRESERVE_RESTORE_ERR']` is the member with value 12 |
| Errors.UnknownName | msp430dll/errors.py:194-196 | `ErrorType['FooBar']` fails (KeyError) |
| Errors.UsbFetNotFoundMessage | msp430dll/errors.py:198-199 | USB_FET_NOT_FOUND_ERR's message is the com-port text the test expects |
| Errors.StringKeyMissing | msp430dll/errors.py:201-203 | `ERROR_MAP['FooBar']` fails (KeyError) |
| Errors.FirstAndLastMessages | msp430dll/errors.py:114-185 | the first and last entries of the table hold the expected texts |
| Errors.NewMSPError | msp430dll/errors.py:31-38 | the exception keeps its positional arguments, and has `errno` exactly when it was passed as a keyword, with that value |
| Api.StatusFromValue | msp430dll/api.py:37-39 | `StatusCode(v)` succeeds exactly for -1 and 0, giving the member with that value |
| Api.ReturnValue | msp430dll/api.py:54-61 | 0 returns STATUS_OK. -1 raises MSPError carrying errno and a "errno -- errstr." message. Any other value warns "Unexpected return value: v" and then raises ValueError |
| Api.ReturnValueOkIgnoresErrorQuery | msp430dll/api.py:54-61 | a 0 result does not depend on the error number or error string |
| Api.ErrorStatusNeverReturned | msp430dll/api.py:55-61 | returnValue never hands STATUS_ERROR back to the caller |
| Api.ErrorMessageLeadsWithErrno | msp430dll/api.py:58 | the text before the first blank of the MSPError message reads back as the error number |
| Api.FunctionFactory | msp430dll/api.py:63-71 | the lookup succeeds exactly for exported names, keeps the name and argtypes, and installs the status checker exactly when the name is not one of the four exempt functions |
| Api.ArgTypesFor | msp430dll/api.py:78-79 | an empty argument list becomes None; any other list is kept |
| Api.Missing | msp430dll/api.py:80-85 | the names recorded as unsupported are exactly the table's names the library does not export |
| Api.LoadWellFormed | msp430dll/api.py:73-98 | on a table of 3- and 4-element entries, loading raises nothing, appends the missing names to `unsupported`, and binds the rest |
| Api.LoadStopsAtMalformed | msp430dll/api.py:95-96 | an entry of any other length raises AttributeError there, after everything before it was loaded |
| Api.BoundKeys | msp430dll/api.py:97-98 | a name is bound after loading exactly when it was bound before, or is in the table and exported |
| Api.BoundValues | msp430dll/api.py:97-98 | a newly bound name holds the function built from one of its table entries |
| Api.BoundKeepsOrOverrides | msp430dll/api.py:97-98 | a name bound before stays bound, either unchanged or replaced by a table entry's function |
| Api.LoadPartitions | msp430dll/api.py:73-98 | after a fresh load, each table name is either bound or unsupported, never both, and it is bound exactly when exported |
| Api.ApiObject.constructor | msp430dll/api.py:44-48 | stores parent and dll; unsupported is empty and nothing is bound |
| Api.ApiObject.IsImplemented | msp430dll/api.py:50-51 | true exactly when the name is not in `unsupported` |
| Api.ApiObject.LoadFunctions | msp430dll/api.py:73-98 | the loop leaves the object's state, and returns the error, that the specification function Load computes from the old state |
| Api.IsImplementedAfterLoad | msp430dll/api.py:50-85 | after a fresh load, isImplemented holds exactly for exported names and for names not in the table |
| Debug.RegisterOf | msp430dll/debug.py:37-53 | for every n below 16, there is a register with value n |
| Debug.RegisterFromValue | msp430dll/debug.py:37-53 | `DEVICE_REGISTERS(n)` succeeds exactly for 0..15, giving the register with that value |
| Debug.DeviceRegistersNumbered | msp430dll/debug.py:37-53 | the members in definition order are R0..R15: the i-th has value i and name "R" + str(i) |
| Debug.RegisterAtItsValue | msp430dll/debug.py:37-53 | each register sits at the position of its value in the member order |
| Debug.RegisterFromValueRoundTrip | msp430dll/debug.py:37-53 | value to register to value is the identity |
| Debug.RegisterFromName | msp430dll/debug.py:37-53 | `DEVICE_REGISTERS[name]`, when found, has that name |
| Debug.RegisterNameRoundTrip | msp430dll/debug.py:37-53 | looking up a register's name gives the register back |
| Debug.RegisterAlias | msp430dll/debug.py:63-64 | an alias maps to its table entry; any other name is returned unchanged |
| Debug.AliasTargets | msp430dll/debug.py:55-61 | PC, SP, SR, CG1 and CG2 resolve to R0, R1, R2, R2 and R3 |
| Debug.AliasChangesOnlyAliases | msp430dll/debug.py:55-64 | registerAlias changes a name exactly when it is one of the five aliases |
| Debug.AliasResolvesToRegister | msp430dll/debug.py:55-61 | every alias resolves to the name of a real register |
| Debug.RegisterAliasIdempotent | msp430dll/debug.py:63-64 | resolving twice gives the same as resolving once |
| Debug.MaskReg | msp430dll/debug.py:67-68 | `1 << reg` is 2^reg for reg >= 0; a negative shift fails (ValueError) |
| Debug.MasksBelowFill | msp430dll/debug.py:67-70 | the masks of registers below k together are 2^k - 1 |
| Debug.AllRegsIsAllMasks | msp430dll/debug.py:70 | ALL_REGS (0xffff) is the union of the masks of all 16 registers |
| Debug.MasksDisjoint | msp430dll/debug.py:67-68 | distinct registers have distinct, non-overlapping masks, so or-ing them adds them |
| Debug.RunModeFromValue | msp430dll/debug.py:72-77 | `RUN_MODES(n)` succeeds exactly for 1..3 |
| Debug.RunModeRoundTrip | msp430dll/debug.py:72-77 | every run mode is found from its value |
| Debug.StateModeFromValue | msp430dll/debug.py:80-88 | `STATE_MODES(n)` succeeds exactly for 0..5 |
| Debug.StateModeRoundTrip | msp430dll/debug.py:80-88 | every state mode is found from its value |
| Debug.GetState | msp430dll/debug.py:160-164 | returns the state mode with the reported value and the cycle count unchanged; an out-of-range state fails |
| Debug.Zip | msp430dll/debug.py:185 | zip pairs keys and values up to the shorter length |
| Debug.RegisterNames | msp430dll/debug.py:185 | the names of the given registers, in order |
| Debug.Lookup | msp430dll/debug.py:185 | the OrderedDict has a key exactly when some pair carries it, and the value found belongs to such a pair |
| Debug.ReadRegisters | msp430dll/debug.py:180-185 | 16 items; the i-th pairs the i-th register's name with the i-th word the library wrote |
| Debug.ReadRegistersDistinct | msp430dll/debug.py:185 | the 16 keys are pairwise distinct |
| Debug.ReadRegistersLookup | msp430dll/debug.py:180-185 | looking up a register's name gives the word at the register's index |
| Debug.ReadRegistersKeys | msp430dll/debug.py:180-185 | the result's keys are exactly the register names |
| Debug.DebugFunctionsLoad | msp430dll/debug.py:147-155 | loading DebugAPI's table never raises, and every one of its functions gets the status checker |
| Base.PackedAlignment | msp430dll/base.py:39 | with `_pack_` = p a field aligns to min(its natural alignment, p), between 1 and p |
| Base.PackOneHasNoPadding | msp430dll/base.py:39 | with `_pack_ = 1` every field starts where the previous one ends |
| Base.RunSizes | msp430dll/base.py:40-79 | the five groups of fields take 36, 16, 14, 20 and 22 bytes |
| Base.PrefixSizes | msp430dll/base.py:40-79 | the first three groups take 66 bytes, the first four 86, and all fields 108 |
| Base.DeviceLayout | msp430dll/base.py:38-79 | 38 fields; mainEnd (ULONG) starts at byte 66, hasFramMemory at 106, and the record is the 108 bytes its comment claims |
| Base.UnionSize | msp430dll/base.py:102-104 | a union is as large as its largest member |
| Base.DeviceUnionHoldsRecord | msp430dll/base.py:102-104 | the Device union is 112 bytes, so its buffer holds the whole record |
| Base.Word | msp430dll/base.py:41 | a WORD is read little-endian and is below 2^16 |
| Base.Ulong | msp430dll/base.py:59 | a ULONG is read little-endian and is below 2^32 |
| Base.SignedByte | msp430dll/base.py:64-65 | a BYTE (c_byte) reads as the signed value -128..127 of the same byte |
| Base.WordRoundTrip | msp430dll/base.py:41 | a 16-bit value encoded and then read back is unchanged |
| Base.UlongRoundTrip | msp430dll/base.py:59 | a 32-bit value encoded and then read back is unchanged |
| Base.CStringAt | msp430dll/base.py:86-87 | `cast(value, c_char_p).value` is the bytes up to the first zero byte inside the memory given; with no zero byte before its end the model reports a missing string, where the source reads on past the buffer |
| Base.CStringInsideArray | msp430dll/base.py:86-87 | a zero byte inside the array ends the string inside the array |
| Base.CStringPastArray | msp430dll/base.py:86-87 | without a zero byte in the array, the string runs past the array's end |
| Base.Namedtuple | msp430dll/base.py:98 | namedtuple keeps the type name |
| Base.SplitJoinRoundTrip | msp430dll/base.py:98 | joining plain names with blanks and splitting them again as namedtuple does gives the names back |
| Base.FieldNames | msp430dll/base.py:94-96 | the names of a Structure's fields, in declaration order |
| Base.MakeNamedtupleFromStructure | msp430dll/base.py:92-98 | the loop builds the namedtuple of the joined field names; with plain names, its fields are exactly the record's names in order |
| Base.FieldIndex | msp430dll/base.py:85 | getattr finds a field by name exactly when the record declares it, and the last declaration wins |
| Base.Values | msp430dll/base.py:84-88 | when no field fails, one value per tuple field |
| Base.InstanceiateNamedtuple | msp430dll/base.py:82-89 | the loop gives the values the specification function Instantiate computes, and stops at the same failure |
| Base.ValuesOfOwnFields | msp430dll/base.py:82-89 | with distinct names, building from a record's own fields never meets a missing attribute, and yields each field's value in order |
| Base.FieldValues | msp430dll/base.py:84-88 | one value per remaining field, each being that field's converted value |
| Base.ConvertedOwnField | msp430dll/base.py:85-87 | a record's own field converts to its value, or fails only as an unterminated string |
| Base.FieldIndexOwn | msp430dll/base.py:85 | with distinct names, getattr finds each field at its own position |
| Base.GetFoundDevice | msp430dll/base.py:327-332 | the record at the start of the 256-byte buffer, converted to DeviceStructureNT |
| Base.ResetValues | msp430dll/base.py:125-140 | the reset methods are 1, 2, 4, 8, 7, 9, 10 and 12 as the shifts and ors compute them |
| Base.ForceCombinations | msp430dll/base.py:129-140 | every FORCE_* value is FORCE_RESET plus exactly one basic reset method |
| Base.ResetMethodFromValue | msp430dll/base.py:125-140 | `ResetMethodType(n)` succeeds exactly for the eight values, giving the member with that value |
| Base.ResetMethodRoundTrip | msp430dll/base.py:125-140 | every reset method is found from its value |
| Base.BaseFunctionsLoad | msp430dll/base.py:221-247 | loading BaseAPI's table never raises |
| Base.WriteMemory | msp430dll/base.py:343-344 | writeMemory changes nothing in the API object |
| Info.DisplayMemoryInfo | msp430dll/msp430-info.py:43-48 | the name padded with blanks to at least 10 characters, then ": " |
| Info.NotImplementedExactly | msp430dll/msp430-info.py:44-45 | the line ends in "[Not implemented]" exactly when start and stop are both 0 |
| Info.ReportedSize | msp430dll/msp430-info.py:43-48 | the number in parentheses before " bytes)" reads back as stop - start + 1, and the not-implemented line carries no size |
| Info.SizeReported | msp430dll/msp430-info.py:47 | a right-justified size in " (… bytes)" reads back as that size |
| Info.YesNo | msp430dll/msp430-info.py:50-56 | "yes" exactly for 1, "no" exactly for 0, "<unknown>" otherwise |
| Info.BeautifyEnumerator | msp430dll/msp430-info.py:58-61 | the substitution never lengthens the text, and shortens it whenever it holds a dot |
| Info.BeautifyUnchanged | msp430dll/msp430-info.py:61 | the text is unchanged exactly when it has no dot |
| Info.BeautifyOneLine | msp430dll/msp430-info.py:61 | on one line, everything up to and including the first dot is removed |
| Info.BeautifyMember | msp430dll/msp430-info.py:61 | `str()` of an enumerator, "Class.MEMBER", becomes "MEMBER" |
| Info.DecodeAsWrittenParts | msp430dll/msp430-info.py:89-91 | as written, minor and patch keep the higher digits: minor is major*100+minor, and patch is that number times 100 plus patch |
| Info.DecodeAsWrittenMisreads | msp430dll/msp430-info.py:89-91 | version 3.4.5.6 prints minor 304 and patch 30405 as written; the corrected decoding gives 3, 4, 5, 6 |
| Info.DecodeVersion | msp430dll/msp430-info.py:94-98 | minor and patch are below 100, and flavor below 1000 |
| Info.DecodeEncodeVersion | msp430dll/msp430-info.py:94-98 | decoding `a.bb.cc.ddd` gives back major, minor, patch and flavor |
| Info.EncodeDecodeVersion | msp430dll/msp430-info.py:94-98 | re-encoding the decoded parts gives the version number back |
| Dll.DllObject.constructor | msp430dll/__init__.py:57 | a new object has no base, no debug and no dll yet |
| Dll.DllText | msp430dll/__init__.py:88 | the text is the path, a backslash, the library name and ".dll" |
| Dll.DllTextInjective | msp430dll/__init__.py:85-90 | different paths give different texts |
| Dll.AttachApis | msp430dll/__init__.py:60-66 | the object gets fresh base and debug API objects, parented to it and loaded from their own tables |
| Dll.DllRegistry.constructor | msp430dll/__init__.py:53 | the registry starts empty |
| Dll.DllRegistry.NewAsWritten | msp430dll/__init__.py:55-74 | a cached path returns the cached object with its dll re-set and its base and debug untouched; a new path always raises and caches nothing |
| Dll.DllRegistry.New | msp430dll/__init__.py:55-74 | a cached path returns the same object, re-setting only its dll (base and debug stay as they were). A new path raises if loading fails, and otherwise caches and returns a fresh object with loaded base and debug APIs. Existing entries never change |
| Dll.DllRegistry.LoadedDlls | msp430dll/__init__.py:84-90 | one text per cached path and nothing else, as many texts as paths; in a valid registry no text appears twice |
| Dll.Listing | msp430dll/__init__.py:86-90 | a list built by visiting every path once, in any order, holds every cached library's text and nothing else; when all libraries share one name, no text repeats |
| Util.DecimalRoundTrip | msp430dll/api.py:58 | `str()` of an integer reads back as that integer |
| Util.HexFormat | msp430dll/msp430-info.py:47 | `{:04x}` is exactly max(4, digits + sign) characters wide, and reads back as the number (with a leading '-' when negative) |
| Util.LeftJustify | msp430dll/msp430-info.py:48 | `{:<w}` keeps the text and pads blanks on the right up to w |
| Util.RightJustify | msp430dll/msp430-info.py:47 | `{:>w}` keeps the text and pads blanks on the left up to w |

## Left out

- Calls into MSP430.DLL, ctypes and `LoadLibrary`. The library is a name plus the set of symbols it exports. The values it writes into buffers are method inputs. `_loadDll` (__init__.py:77-82), with its `chdir`, is the `exports` parameter: None when loading fails.
- Logging (`Logger`, `info`, `debug`, `warn`, `error` in api.py:100-111) is not modelled. The warning from `returnValue` is carried in its result instead.
- The BaseAPI and DebugAPI wrappers around single library calls are left out. In BaseAPI these are initialize, getVCC, setVCC, getExternalVoltage, openDevice, getJTAGId, memory, readMemory, readOutFile, getNumberOfIFs, getIF, secure, errorNumber and errorString. In DebugAPI they are run, readRegister and writeRegister. Each only forwards its arguments to the library. `getState`, `readRegisters` and `writeMemory` are modelled.
- Debug.ReadRegisters also stands for `readRegistersExt` (debug.py:188-193), which builds the same dictionary from another library call.
- DLL.__new__ copies `errorNumber` and `errorString` from the base API to the debug API (__init__.py:68-69). The model does not carry these method references.
- Python leaves no particular order on dictionary iteration. Dll.DllRegistry.LoadedDlls therefore reports the order it visited the paths in as a ghost result, and states nothing about that order.
- Errors.FromName: the proof does not show that the 70 names are pairwise distinct. A name lookup finds a member with that name, and fails exactly when there is none.
- Base.MakeNamedtupleFromStructure: the 38 names of `_DeviceStructure` are not proved free of whitespace and commas. So DeviceStructureNT's fields are not proved equal to the record's names, and Base.GetFoundDevice is stated through Instantiate only.
- Base.CStringAt: when no zero byte follows a byte array's offset before the end of the 256-byte buffer, the source's `cast(value, c_char_p).value` reads past the buffer, which is undefined and raises no Python error. The model instead reports a missing string, and Base.InstanceiateNamedtuple then fails with UnterminatedString.
- Namedtuple's check that field names are valid identifiers is not modelled.
- `StructureWithEnums`, the other base.py enumerations (ArchType, ReadWriteType, EnableDisableType, EraseType, ConfigModeType, InterfaceType, FileType, SystemEventMSPType) and the `SystemNotifyCallback` type are left out. They are plain constants that no modelled operation computes with.
- The debug.py constants are left out: EMEX_MODE, DEVICE_CLOCK_CONTROL and the clock and EEM bit definitions.
- eem.py, msp430tc.py and logger.py are not part of this model.
- msp430-info.py's `displayInfo` and `main` are not modelled. They print, read voltages, convert to floating point, and call `DLL(pathToDll, dllName)`. Only the pieces named above are modelled.

## Findings

| source | as written | input that shows it | evidently intended | confidence | as-written member | corrected member |
|---|---|---|---|---|---|---|
| msp430dll/msp430-info.py:89-91 | `minor = ver / 100000` and `patch = ver / 1000` keep all higher digits | version 3.4.5.6, i.e. 30405006, prints minor 304 and patch 30405 | minor = (ver / 100000) % 100, patch = (ver / 1000) % 100, matching `a.bb.cc.ddd` in lines 94-98 | not executed | Info.DecodeAsWrittenMisreads | Info.DecodeEncodeVersion |
| msp430dll/__init__.py:60-66 | `BaseAPI(dll)` and `DebugAPI(dll)` pass one argument to `API.__init__(self, parent, dll)` (api.py:44), and `DebugAPI` is never imported | any path not yet cached: the call raises TypeError and nothing is cached | `BaseAPI(klass, dll)` and `DebugAPI(klass, dll)`, with the new object as parent | not executed | Dll.DllRegistry.NewAsWritten | Dll.DllRegistry.New |
