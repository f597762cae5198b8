/** The probe's error numbers and their messages (msp430dll/errors.py). */
module Errors {
  import opened Util

  /** ErrorType: the closed enumeration of msp430.dll error numbers, in
      declaration order, from NO_ERR = 0 to INVALID_ERR = 69. */
  datatype ErrorType =
    | NO_ERR
    | INITIALIZE_ERR
    | CLOSE_ERR
    | PARAMETER_ERR
    | NO_DEVICE_ERR
    | DEVICE_UNKNOWN_ERR
    | READ_MEMORY_ERR
    | WRITE_MEMORY_ERR
    | READ_FUSES_ERR
    | CONFIGURATION_ERR
    | VCC_ERR
    | RESET_ERR
    | PRESERVE_RESTORE_ERR
    | FREQUENCY_ERR
    | ERASE_ERR
    | BREAKPOINT_ERR
    | STEP_ERR
    | RUN_ERR
    | STATE_ERR
    | EEM_OPEN_ERR
    | EEM_READ_ERR
    | EEM_WRITE_ERR
    | EEM_CLOSE_ERR
    | FILE_OPEN_ERR
    | FILE_DETECT_ERR
    | FILE_END_ERR
    | FILE_IO_ERR
    | FILE_DATA_ERR
    | VERIFY_ERR
    | BLOW_FUSE_ERR
    | FUSE_BLOWN_ERR
    | INTEL_HEX_CODE_ERR
    | WRITE_REGISTER_ERR
    | READ_REGISTER_ERR
    | INTERFACE_SUPPORT_ERR
    | COMM_ERR
    | NO_EX_POWER
    | LOW_EX_POWER
    | EX_POWER_OK
    | HIGH_EX_POWER
    | SELFTEST_ERR
    | FLASH_TIMEOUT_ERR
    | THREAD_ERR
    | EEM_INIT_ERR
    | RESOURCE_ERR
    | CLK_CTRL_ERR
    | STATE_STOR_ERR
    | READ_TRACE_ERR
    | VAR_WATCH_EN_ERR
    | SEQUENCER_ERR
    | SEQ_ENABLE_ERR
    | CLR_SEQ_TRIGGER
    | SET_SEQ_TRIGGER
    | SPMA_ACTIVE_ERR
    | SPMA_INVALID_KEY_ERR
    | SPMA_MAX_TRIALS
    | USB_FET_BSL_ACTIVE_ERR
    | USB_FET_NOT_FOUND_ERR
    | USB_FET_BUSY_ERR
    | THREAD_ACTIVE_ERR
    | THREAD_TERMINATE_ERR
    | UNLOCK_BSL_ERR
    | BSL_MEMORY_LOCKED_ERR
    | FOUND_OTHER_DEVICE
    | WRONG_PASSWORD
    | UPDATE_MULTIPLE_UIF_ERR
    | CDC_UIF_ERR
    | UIF_MANUAL_POWERCYCLE_NEEDED
    | INTERNAL_ERR
    | INVALID_ERR

  /** The number of members of ErrorType. */
  const ErrorCount := 70

  /** The integer value of a member (an IntEnum member compares equal to it). */
  function Code(e: ErrorType): (n: nat)
  {
    match e
    case NO_ERR => 0
    case INITIALIZE_ERR => 1
    case CLOSE_ERR => 2
    case PARAMETER_ERR => 3
    case NO_DEVICE_ERR => 4
    case DEVICE_UNKNOWN_ERR => 5
    case READ_MEMORY_ERR => 6
    case WRITE_MEMORY_ERR => 7
    case READ_FUSES_ERR => 8
    case CONFIGURATION_ERR => 9
    case VCC_ERR => 10
    case RESET_ERR => 11
    case PRESERVE_RESTORE_ERR => 12
    case FREQUENCY_ERR => 13
    case ERASE_ERR => 14
    case BREAKPOINT_ERR => 15
    case STEP_ERR => 16
    case RUN_ERR => 17
    case STATE_ERR => 18
    case EEM_OPEN_ERR => 19
    case EEM_READ_ERR => 20
    case EEM_WRITE_ERR => 21
    case EEM_CLOSE_ERR => 22
    case FILE_OPEN_ERR => 23
    case FILE_DETECT_ERR => 24
    case FILE_END_ERR => 25
    case FILE_IO_ERR => 26
    case FILE_DATA_ERR => 27
    case VERIFY_ERR => 28
    case BLOW_FUSE_ERR => 29
    case FUSE_BLOWN_ERR => 30
    case INTEL_HEX_CODE_ERR => 31
    case WRITE_REGISTER_ERR => 32
    case READ_REGISTER_ERR => 33
    case INTERFACE_SUPPORT_ERR => 34
    case COMM_ERR => 35
    case NO_EX_POWER => 36
    case LOW_EX_POWER => 37
    case EX_POWER_OK => 38
    case HIGH_EX_POWER => 39
    case SELFTEST_ERR => 40
    case FLASH_TIMEOUT_ERR => 41
    case THREAD_ERR => 42
    case EEM_INIT_ERR => 43
    case RESOURCE_ERR => 44
    case CLK_CTRL_ERR => 45
    case STATE_STOR_ERR => 46
    case READ_TRACE_ERR => 47
    case VAR_WATCH_EN_ERR => 48
    case SEQUENCER_ERR => 49
    case SEQ_ENABLE_ERR => 50
    case CLR_SEQ_TRIGGER => 51
    case SET_SEQ_TRIGGER => 52
    case SPMA_ACTIVE_ERR => 53
    case SPMA_INVALID_KEY_ERR => 54
    case SPMA_MAX_TRIALS => 55
    case USB_FET_BSL_ACTIVE_ERR => 56
    case USB_FET_NOT_FOUND_ERR => 57
    case USB_FET_BUSY_ERR => 58
    case THREAD_ACTIVE_ERR => 59
    case THREAD_TERMINATE_ERR => 60
    case UNLOCK_BSL_ERR => 61
    case BSL_MEMORY_LOCKED_ERR => 62
    case FOUND_OTHER_DEVICE => 63
    case WRONG_PASSWORD => 64
    case UPDATE_MULTIPLE_UIF_ERR => 65
    case CDC_UIF_ERR => 66
    case UIF_MANUAL_POWERCYCLE_NEEDED => 67
    case INTERNAL_ERR => 68
    case INVALID_ERR => 69
  }

  /** ErrorType(n): the member whose value is n; None stands for Python's
      ValueError. The numbers are contiguous, so decoding succeeds exactly on
      0..69, and it inverts Code. */
  function FromCode(n: int): (r: Option<ErrorType>)
    ensures r.Some? <==> 0 <= n < ErrorCount
    ensures r.Some? ==> Code(r.value) == n
  {
    if n < 0 then None
    else if n < 5 then FromCode0To4(n)
    else if n < 10 then FromCode5To9(n)
    else if n < 15 then FromCode10To14(n)
    else if n < 20 then FromCode15To19(n)
    else if n < 25 then FromCode20To24(n)
    else if n < 30 then FromCode25To29(n)
    else if n < 35 then FromCode30To34(n)
    else if n < 40 then FromCode35To39(n)
    else if n < 45 then FromCode40To44(n)
    else if n < 50 then FromCode45To49(n)
    else if n < 55 then FromCode50To54(n)
    else if n < 60 then FromCode55To59(n)
    else if n < 65 then FromCode60To64(n)
    else if n < 70 then FromCode65To69(n)
    else None
  }

  // ErrorType(n), five numbers per function.

  function FromCode0To4(n: int): (r: Option<ErrorType>)
    ensures r.Some? <==> 0 <= n < 5
    ensures r.Some? ==> Code(r.value) == n
  {
    match n
    case 0 => Some(NO_ERR)
    case 1 => Some(INITIALIZE_ERR)
    case 2 => Some(CLOSE_ERR)
    case 3 => Some(PARAMETER_ERR)
    case 4 => Some(NO_DEVICE_ERR)
    case _ => None
  }

  function FromCode5To9(n: int): (r: Option<ErrorType>)
    ensures r.Some? <==> 5 <= n < 10
    ensures r.Some? ==> Code(r.value) == n
  {
    match n
    case 5 => Some(DEVICE_UNKNOWN_ERR)
    case 6 => Some(READ_MEMORY_ERR)
    case 7 => Some(WRITE_MEMORY_ERR)
    case 8 => Some(READ_FUSES_ERR)
    case 9 => Some(CONFIGURATION_ERR)
    case _ => None
  }

  function FromCode10To14(n: int): (r: Option<ErrorType>)
    ensures r.Some? <==> 10 <= n < 15
    ensures r.Some? ==> Code(r.value) == n
  {
    match n
    case 10 => Some(VCC_ERR)
    case 11 => Some(RESET_ERR)
    case 12 => Some(PRESERVE_RESTORE_ERR)
    case 13 => Some(FREQUENCY_ERR)
    case 14 => Some(ERASE_ERR)
    case _ => None
  }

  function FromCode15To19(n: int): (r: Option<ErrorType>)
    ensures r.Some? <==> 15 <= n < 20
    ensures r.Some? ==> Code(r.value) == n
  {
    match n
    case 15 => Some(BREAKPOINT_ERR)
    case 16 => Some(STEP_ERR)
    case 17 => Some(RUN_ERR)
    case 18 => Some(STATE_ERR)
    case 19 => Some(EEM_OPEN_ERR)
    case _ => None
  }

  function FromCode20To24(n: int): (r: Option<ErrorType>)
    ensures r.Some? <==> 20 <= n < 25
    ensures r.Some? ==> Code(r.value) == n
  {
    match n
    case 20 => Some(EEM_READ_ERR)
    case 21 => Some(EEM_WRITE_ERR)
    case 22 => Some(EEM_CLOSE_ERR)
    case 23 => Some(FILE_OPEN_ERR)
    case 24 => Some(FILE_DETECT_ERR)
    case _ => None
  }

  function FromCode25To29(n: int): (r: Option<ErrorType>)
    ensures r.Some? <==> 25 <= n < 30
    ensures r.Some? ==> Code(r.value) == n
  {
    match n
    case 25 => Some(FILE_END_ERR)
    case 26 => Some(FILE_IO_ERR)
    case 27 => Some(FILE_DATA_ERR)
    case 28 => Some(VERIFY_ERR)
    case 29 => Some(BLOW_FUSE_ERR)
    case _ => None
  }

  function FromCode30To34(n: int): (r: Option<ErrorType>)
    ensures r.Some? <==> 30 <= n < 35
    ensures r.Some? ==> Code(r.value) == n
  {
    match n
    case 30 => Some(FUSE_BLOWN_ERR)
    case 31 => Some(INTEL_HEX_CODE_ERR)
    case 32 => Some(WRITE_REGISTER_ERR)
    case 33 => Some(READ_REGISTER_ERR)
    case 34 => Some(INTERFACE_SUPPORT_ERR)
    case _ => None
  }

  function FromCode35To39(n: int): (r: Option<ErrorType>)
    ensures r.Some? <==> 35 <= n < 40
    ensures r.Some? ==> Code(r.value) == n
  {
    match n
    case 35 => Some(COMM_ERR)
    case 36 => Some(NO_EX_POWER)
    case 37 => Some(LOW_EX_POWER)
    case 38 => Some(EX_POWER_OK)
    case 39 => Some(HIGH_EX_POWER)
    case _ => None
  }

  function FromCode40To44(n: int): (r: Option<ErrorType>)
    ensures r.Some? <==> 40 <= n < 45
    ensures r.Some? ==> Code(r.value) == n
  {
    match n
    case 40 => Some(SELFTEST_ERR)
    case 41 => Some(FLASH_TIMEOUT_ERR)
    case 42 => Some(THREAD_ERR)
    case 43 => Some(EEM_INIT_ERR)
    case 44 => Some(RESOURCE_ERR)
    case _ => None
  }

  function FromCode45To49(n: int): (r: Option<ErrorType>)
    ensures r.Some? <==> 45 <= n < 50
    ensures r.Some? ==> Code(r.value) == n
  {
    match n
    case 45 => Some(CLK_CTRL_ERR)
    case 46 => Some(STATE_STOR_ERR)
    case 47 => Some(READ_TRACE_ERR)
    case 48 => Some(VAR_WATCH_EN_ERR)
    case 49 => Some(SEQUENCER_ERR)
    case _ => None
  }

  function FromCode50To54(n: int): (r: Option<ErrorType>)
    ensures r.Some? <==> 50 <= n < 55
    ensures r.Some? ==> Code(r.value) == n
  {
    match n
    case 50 => Some(SEQ_ENABLE_ERR)
    case 51 => Some(CLR_SEQ_TRIGGER)
    case 52 => Some(SET_SEQ_TRIGGER)
    case 53 => Some(SPMA_ACTIVE_ERR)
    case 54 => Some(SPMA_INVALID_KEY_ERR)
    case _ => None
  }

  function FromCode55To59(n: int): (r: Option<ErrorType>)
    ensures r.Some? <==> 55 <= n < 60
    ensures r.Some? ==> Code(r.value) == n
  {
    match n
    case 55 => Some(SPMA_MAX_TRIALS)
    case 56 => Some(USB_FET_BSL_ACTIVE_ERR)
    case 57 => Some(USB_FET_NOT_FOUND_ERR)
    case 58 => Some(USB_FET_BUSY_ERR)
    case 59 => Some(THREAD_ACTIVE_ERR)
    case _ => None
  }

  function FromCode60To64(n: int): (r: Option<ErrorType>)
    ensures r.Some? <==> 60 <= n < 65
    ensures r.Some? ==> Code(r.value) == n
  {
    match n
    case 60 => Some(THREAD_TERMINATE_ERR)
    case 61 => Some(UNLOCK_BSL_ERR)
    case 62 => Some(BSL_MEMORY_LOCKED_ERR)
    case 63 => Some(FOUND_OTHER_DEVICE)
    case 64 => Some(WRONG_PASSWORD)
    case _ => None
  }

  function FromCode65To69(n: int): (r: Option<ErrorType>)
    ensures r.Some? <==> 65 <= n < 70
    ensures r.Some? ==> Code(r.value) == n
  {
    match n
    case 65 => Some(UPDATE_MULTIPLE_UIF_ERR)
    case 66 => Some(CDC_UIF_ERR)
    case 67 => Some(UIF_MANUAL_POWERCYCLE_NEEDED)
    case 68 => Some(INTERNAL_ERR)
    case 69 => Some(INVALID_ERR)
    case _ => None
  }

  /** Every member lies in 0..69, and decoding its number gives it back. */
  lemma FromCodeRoundTrip(e: ErrorType)
    ensures Code(e) < ErrorCount
    ensures FromCode(Code(e)) == Some(e)
  {
    match e
    case NO_ERR => {}
    case INITIALIZE_ERR => {}
    case CLOSE_ERR => {}
    case PARAMETER_ERR => {}
    case NO_DEVICE_ERR => {}
    case DEVICE_UNKNOWN_ERR => {}
    case READ_MEMORY_ERR => {}
    case WRITE_MEMORY_ERR => {}
    case READ_FUSES_ERR => {}
    case CONFIGURATION_ERR => {}
    case VCC_ERR => {}
    case RESET_ERR => {}
    case PRESERVE_RESTORE_ERR => {}
    case FREQUENCY_ERR => {}
    case ERASE_ERR => {}
    case BREAKPOINT_ERR => {}
    case STEP_ERR => {}
    case RUN_ERR => {}
    case STATE_ERR => {}
    case EEM_OPEN_ERR => {}
    case EEM_READ_ERR => {}
    case EEM_WRITE_ERR => {}
    case EEM_CLOSE_ERR => {}
    case FILE_OPEN_ERR => {}
    case FILE_DETECT_ERR => {}
    case FILE_END_ERR => {}
    case FILE_IO_ERR => {}
    case FILE_DATA_ERR => {}
    case VERIFY_ERR => {}
    case BLOW_FUSE_ERR => {}
    case FUSE_BLOWN_ERR => {}
    case INTEL_HEX_CODE_ERR => {}
    case WRITE_REGISTER_ERR => {}
    case READ_REGISTER_ERR => {}
    case INTERFACE_SUPPORT_ERR => {}
    case COMM_ERR => {}
    case NO_EX_POWER => {}
    case LOW_EX_POWER => {}
    case EX_POWER_OK => {}
    case HIGH_EX_POWER => {}
    case SELFTEST_ERR => {}
    case FLASH_TIMEOUT_ERR => {}
    case THREAD_ERR => {}
    case EEM_INIT_ERR => {}
    case RESOURCE_ERR => {}
    case CLK_CTRL_ERR => {}
    case STATE_STOR_ERR => {}
    case READ_TRACE_ERR => {}
    case VAR_WATCH_EN_ERR => {}
    case SEQUENCER_ERR => {}
    case SEQ_ENABLE_ERR => {}
    case CLR_SEQ_TRIGGER => {}
    case SET_SEQ_TRIGGER => {}
    case SPMA_ACTIVE_ERR => {}
    case SPMA_INVALID_KEY_ERR => {}
    case SPMA_MAX_TRIALS => {}
    case USB_FET_BSL_ACTIVE_ERR => {}
    case USB_FET_NOT_FOUND_ERR => {}
    case USB_FET_BUSY_ERR => {}
    case THREAD_ACTIVE_ERR => {}
    case THREAD_TERMINATE_ERR => {}
    case UNLOCK_BSL_ERR => {}
    case BSL_MEMORY_LOCKED_ERR => {}
    case FOUND_OTHER_DEVICE => {}
    case WRONG_PASSWORD => {}
    case UPDATE_MULTIPLE_UIF_ERR => {}
    case CDC_UIF_ERR => {}
    case UIF_MANUAL_POWERCYCLE_NEEDED => {}
    case INTERNAL_ERR => {}
    case INVALID_ERR => {}
  }

  /** The member numbered n, for n in 0..69. */
  function Member(n: nat): (e: ErrorType)
    requires n < ErrorCount
    ensures Code(e) == n
  {
    FromCode(n).value
  }

  /** Distinct members have distinct numbers. */
  lemma CodeInjective(d: ErrorType, e: ErrorType)
    requires Code(d) == Code(e)
    ensures d == e
  {
    FromCodeRoundTrip(d);
    FromCodeRoundTrip(e);
  }

  /** The name of a member, as Python spells it. */
  function Name(e: ErrorType): (s: string)
  {
    match e
    case NO_ERR => "NO_ERR"
    case INITIALIZE_ERR => "INITIALIZE_ERR"
    case CLOSE_ERR => "CLOSE_ERR"
    case PARAMETER_ERR => "PARAMETER_ERR"
    case NO_DEVICE_ERR => "NO_DEVICE_ERR"
    case DEVICE_UNKNOWN_ERR => "DEVICE_UNKNOWN_ERR"
    case READ_MEMORY_ERR => "READ_MEMORY_ERR"
    case WRITE_MEMORY_ERR => "WRITE_MEMORY_ERR"
    case READ_FUSES_ERR => "READ_FUSES_ERR"
    case CONFIGURATION_ERR => "CONFIGURATION_ERR"
    case VCC_ERR => "VCC_ERR"
    case RESET_ERR => "RESET_ERR"
    case PRESERVE_RESTORE_ERR => "PRESERVE_RESTORE_ERR"
    case FREQUENCY_ERR => "FREQUENCY_ERR"
    case ERASE_ERR => "ERASE_ERR"
    case BREAKPOINT_ERR => "BREAKPOINT_ERR"
    case STEP_ERR => "STEP_ERR"
    case RUN_ERR => "RUN_ERR"
    case STATE_ERR => "STATE_ERR"
    case EEM_OPEN_ERR => "EEM_OPEN_ERR"
    case EEM_READ_ERR => "EEM_READ_ERR"
    case EEM_WRITE_ERR => "EEM_WRITE_ERR"
    case EEM_CLOSE_ERR => "EEM_CLOSE_ERR"
    case FILE_OPEN_ERR => "FILE_OPEN_ERR"
    case FILE_DETECT_ERR => "FILE_DETECT_ERR"
    case FILE_END_ERR => "FILE_END_ERR"
    case FILE_IO_ERR => "FILE_IO_ERR"
    case FILE_DATA_ERR => "FILE_DATA_ERR"
    case VERIFY_ERR => "VERIFY_ERR"
    case BLOW_FUSE_ERR => "BLOW_FUSE_ERR"
    case FUSE_BLOWN_ERR => "FUSE_BLOWN_ERR"
    case INTEL_HEX_CODE_ERR => "INTEL_HEX_CODE_ERR"
    case WRITE_REGISTER_ERR => "WRITE_REGISTER_ERR"
    case READ_REGISTER_ERR => "READ_REGISTER_ERR"
    case INTERFACE_SUPPORT_ERR => "INTERFACE_SUPPORT_ERR"
    case COMM_ERR => "COMM_ERR"
    case NO_EX_POWER => "NO_EX_POWER"
    case LOW_EX_POWER => "LOW_EX_POWER"
    case EX_POWER_OK => "EX_POWER_OK"
    case HIGH_EX_POWER => "HIGH_EX_POWER"
    case SELFTEST_ERR => "SELFTEST_ERR"
    case FLASH_TIMEOUT_ERR => "FLASH_TIMEOUT_ERR"
    case THREAD_ERR => "THREAD_ERR"
    case EEM_INIT_ERR => "EEM_INIT_ERR"
    case RESOURCE_ERR => "RESOURCE_ERR"
    case CLK_CTRL_ERR => "CLK_CTRL_ERR"
    case STATE_STOR_ERR => "STATE_STOR_ERR"
    case READ_TRACE_ERR => "READ_TRACE_ERR"
    case VAR_WATCH_EN_ERR => "VAR_WATCH_EN_ERR"
    case SEQUENCER_ERR => "SEQUENCER_ERR"
    case SEQ_ENABLE_ERR => "SEQ_ENABLE_ERR"
    case CLR_SEQ_TRIGGER => "CLR_SEQ_TRIGGER"
    case SET_SEQ_TRIGGER => "SET_SEQ_TRIGGER"
    case SPMA_ACTIVE_ERR => "SPMA_ACTIVE_ERR"
    case SPMA_INVALID_KEY_ERR => "SPMA_INVALID_KEY_ERR"
    case SPMA_MAX_TRIALS => "SPMA_MAX_TRIALS"
    case USB_FET_BSL_ACTIVE_ERR => "USB_FET_BSL_ACTIVE_ERR"
    case USB_FET_NOT_FOUND_ERR => "USB_FET_NOT_FOUND_ERR"
    case USB_FET_BUSY_ERR => "USB_FET_BUSY_ERR"
    case THREAD_ACTIVE_ERR => "THREAD_ACTIVE_ERR"
    case THREAD_TERMINATE_ERR => "THREAD_TERMINATE_ERR"
    case UNLOCK_BSL_ERR => "UNLOCK_BSL_ERR"
    case BSL_MEMORY_LOCKED_ERR => "BSL_MEMORY_LOCKED_ERR"
    case FOUND_OTHER_DEVICE => "FOUND_OTHER_DEVICE"
    case WRONG_PASSWORD => "WRONG_PASSWORD"
    case UPDATE_MULTIPLE_UIF_ERR => "UPDATE_MULTIPLE_UIF_ERR"
    case CDC_UIF_ERR => "CDC_UIF_ERR"
    case UIF_MANUAL_POWERCYCLE_NEEDED => "UIF_MANUAL_POWERCYCLE_NEEDED"
    case INTERNAL_ERR => "INTERNAL_ERR"
    case INVALID_ERR => "INVALID_ERR"
  }

  /** ErrorType[name]: the member called `name`; None stands for Python's
      KeyError. */
  function FromName(name: string): (r: Option<ErrorType>)
    ensures r.Some? ==> Name(r.value) == name
    ensures r.None? <==> forall e: ErrorType :: Name(e) != name
  {
    var r := FindName(name, 0);
    if r.None? then
      assert forall e: ErrorType :: Name(e) != name by {
        forall e: ErrorType ensures Name(e) != name {
          FromCodeRoundTrip(e);
          assert Member(Code(e)) == e by { CodeInjective(Member(Code(e)), e); }
        }
      }
      r
    else r
  }

  /** The first member numbered `from` or later whose name is `name`. */
  function FindName(name: string, from: nat): (r: Option<ErrorType>)
    requires from <= ErrorCount
    ensures r.Some? ==> Name(r.value) == name && from <= Code(r.value)
    ensures r.None? ==> forall n :: from <= n < ErrorCount ==> Name(Member(n)) != name
    decreases ErrorCount - from
  {
    if from == ErrorCount then None
    else if Name(Member(from)) == name then Some(Member(from))
    else FindName(name, from + 1)
  }

  /** The message ERROR_MAP holds for a member. */
  function Message(e: ErrorType): (s: string)
  {
    match e
    case NO_ERR => "No error"
    case INITIALIZE_ERR => "Could not initialize device interface"
    case CLOSE_ERR => "Could not close device interface"
    case PARAMETER_ERR => "Invalid parameter(s)"
    case NO_DEVICE_ERR => "Could not find device (or device not supported)"
    case DEVICE_UNKNOWN_ERR => "Unknown device"
    case READ_MEMORY_ERR => "Could not read device memory"
    case WRITE_MEMORY_ERR => "Could not write device memory"
    case READ_FUSES_ERR => "Could not read device configuration fuses"
    case CONFIGURATION_ERR => "Incorrectly configured device; device derivative not supported"
    case VCC_ERR => "Could not set device Vcc"
    case RESET_ERR => "Could not reset device"
    case PRESERVE_RESTORE_ERR => "Could not preserve/restore device memory"
    case FREQUENCY_ERR => "Could not set device operating frequency"
    case ERASE_ERR => "Could not erase device memory"
    case BREAKPOINT_ERR => "Could not set device breakpoint"
    case STEP_ERR => "Could not single step device"
    case RUN_ERR => "Could not run device (to breakpoint)"
    case STATE_ERR => "Could not determine device state"
    case EEM_OPEN_ERR => "Could not open Enhanced Emulation Module"
    case EEM_READ_ERR => "Could not read Enhanced Emulation Module register"
    case EEM_WRITE_ERR => "Could not write Enhanced Emulation Module register"
    case EEM_CLOSE_ERR => "Could not close Enhanced Emulation Module"
    case FILE_OPEN_ERR => "File open error"
    case FILE_DETECT_ERR => "File type could not be identified"
    case FILE_END_ERR => "File end error"
    case FILE_IO_ERR => "File input/output error"
    case FILE_DATA_ERR => "File data error"
    case VERIFY_ERR => "Verification error"
    case BLOW_FUSE_ERR => "Could not blow device security fuse"
    case FUSE_BLOWN_ERR => "Security Fuse has been blown"
    case INTEL_HEX_CODE_ERR => "Error within Intel Hex file"
    case WRITE_REGISTER_ERR => "Could not write device Register"
    case READ_REGISTER_ERR => "Could not read device Register"
    case INTERFACE_SUPPORT_ERR => "Not supported by selected Interface or Interface is not initialized"
    case COMM_ERR => "Interface Communication error"
    case NO_EX_POWER => "No external power supply detected"
    case LOW_EX_POWER => "External power too low"
    case EX_POWER_OK => "External power detected"
    case HIGH_EX_POWER => "External power too high"
    case SELFTEST_ERR => "Hardware Self Test Error"
    case FLASH_TIMEOUT_ERR => "Fast Flash Routine experienced a timeout"
    case THREAD_ERR => "Could not create thread for polling"
    case EEM_INIT_ERR => "Could not initialize Enhanced Emulation Module"
    case RESOURCE_ERR => "Insufficent resources"
    case CLK_CTRL_ERR => "No clock control emulation on connected device"
    case STATE_STOR_ERR => "No state storage buffer implemented on connected device"
    case READ_TRACE_ERR => "Could not read trace buffer"
    case VAR_WATCH_EN_ERR => "Enable the variable watch function"
    case SEQUENCER_ERR => "No trigger sequencer implemented on connected device"
    case SEQ_ENABLE_ERR => "Could not read sequencer state - Sequencer is disabled"
    case CLR_SEQ_TRIGGER => "Could not remove trigger - Used in sequencer"
    case SET_SEQ_TRIGGER => "Could not set combination - Trigger is used in sequencer"
    case SPMA_ACTIVE_ERR => "System Protection Module A is enabled - Device locked"
    case SPMA_INVALID_KEY_ERR => "Invalid SPMA key was passed to the target device - Device locked"
    case SPMA_MAX_TRIALS => "Device does not accept any further SPMA keys - Device locked"
    case USB_FET_BSL_ACTIVE_ERR => "MSP-FET430UIF Firmware erased - Bootloader active"
    case USB_FET_NOT_FOUND_ERR => "Could not find MSP-FET430UIF on specified COM port"
    case USB_FET_BUSY_ERR => "MSP-FET430UIF is already in use"
    case THREAD_ACTIVE_ERR => "EEM polling thread is already active"
    case THREAD_TERMINATE_ERR => "Could not terminate EEM polling thread"
    case UNLOCK_BSL_ERR => "Could not unlock BSL memory segments"
    case BSL_MEMORY_LOCKED_ERR => "Could not perform access, BSL memory segments are protected"
    case FOUND_OTHER_DEVICE => "Another device as selected was found"
    case WRONG_PASSWORD => "Could not enable JTAG wrong password"
    case UPDATE_MULTIPLE_UIF_ERR => "Only one UIF must be connected during update to v3"
    case CDC_UIF_ERR => "CDC-USB-FET-Driver was not installed. Please install the driver"
    case UIF_MANUAL_POWERCYCLE_NEEDED => "Manual reboot of USB-FET needed ! PLEASE unplug and reconnect your USB-FET!!"
    case INTERNAL_ERR => "Internal error"
    case INVALID_ERR => "Invalid error number"
  }

  /** The members numbered below k. */
  function MembersBelow(k: nat): (s: set<ErrorType>)
    requires k <= ErrorCount
  {
    set n | 0 <= n < k :: Member(n)
  }

  /** ERROR_MAP: the dictionary from member to message. */
  const ERROR_MAP: map<ErrorType, string> := map e | e in MembersBelow(ErrorCount) :: Message(e)

  /** ERROR_MAP holds exactly one entry per member (70 in all), and the
      entry for a member is its message. */
  lemma ErrorMapTotal()
    ensures forall e: ErrorType :: e in ERROR_MAP && ERROR_MAP[e] == Message(e)
    ensures |ERROR_MAP| == ErrorCount
  {
    forall e: ErrorType ensures e in ERROR_MAP {
      assert Member(Code(e)) == e by { FromCodeRoundTrip(e); CodeInjective(Member(Code(e)), e); }
    }
    MembersBelowSize(ErrorCount);
    assert ERROR_MAP.Keys == MembersBelow(ErrorCount);
  }

  lemma {:induction false} MembersBelowSize(k: nat)
    requires k <= ErrorCount
    ensures |MembersBelow(k)| == k
  {
    if k > 0 {
      MembersBelowSize(k - 1);
      assert MembersBelow(k) == MembersBelow(k - 1) + {Member(k - 1)};
      assert Member(k - 1) !in MembersBelow(k - 1);
    }
  }

  /** A key handed to ERROR_MAP[...]: a member, a bare integer (an IntEnum
      member hashes and compares like its value) or a string. */
  datatype Key = MemberKey(member: ErrorType) | IntKey(number: int) | StrKey(text: string)

  /** ERROR_MAP[key]; None stands for Python's KeyError. */
  function ErrorMapLookup(key: Key): (r: Option<string>)
    ensures r.Some? <==> key.MemberKey? || (key.IntKey? && 0 <= key.number < ErrorCount)
    ensures key.MemberKey? ==> r == Some(Message(key.member))
    ensures key.IntKey? && r.Some? ==> r == Some(Message(Member(key.number)))
  {
    ErrorMapTotal();
    match key
    case MemberKey(e) => Some(ERROR_MAP[e])
    case IntKey(n) => if 0 <= n < ErrorCount then Some(ERROR_MAP[Member(n)]) else None
    case StrKey(_) => None
  }

  /** ErrorType['PRESERVE_RESTORE_ERR'] is the member numbered 12. */
  lemma PreserveRestoreByName()
    ensures FromName("PRESERVE_RESTORE_ERR") == Some(PRESERVE_RESTORE_ERR)
    ensures Code(PRESERVE_RESTORE_ERR) == 12
  {
    var name := "PRESERVE_RESTORE_ERR";
    assert forall e: ErrorType :: Code(e) < 12 ==> Name(e) != name;
    FindNameSkips(name, 0, 12);
  }

  /** The search passes over members whose name differs. */
  lemma {:induction false} FindNameSkips(name: string, from: nat, to: nat)
    requires from <= to <= ErrorCount
    requires forall n :: from <= n < to ==> Name(Member(n)) != name
    ensures FindName(name, from) == FindName(name, to)
    decreases ErrorCount - from
  {
    if from < to {
      FindNameSkips(name, from + 1, to);
    }
  }

  /** ErrorType['FooBar'] raises KeyError. */
  lemma UnknownName()
    ensures FromName("FooBar") == None
  {
    forall e: ErrorType ensures Name(e) != "FooBar" {
      match e
      case NO_ERR => {}
      case INITIALIZE_ERR => {}
      case CLOSE_ERR => {}
      case PARAMETER_ERR => {}
      case NO_DEVICE_ERR => {}
      case DEVICE_UNKNOWN_ERR => {}
      case READ_MEMORY_ERR => {}
      case WRITE_MEMORY_ERR => {}
      case READ_FUSES_ERR => {}
      case CONFIGURATION_ERR => {}
      case VCC_ERR => {}
      case RESET_ERR => {}
      case PRESERVE_RESTORE_ERR => {}
      case FREQUENCY_ERR => {}
      case ERASE_ERR => {}
      case BREAKPOINT_ERR => {}
      case STEP_ERR => {}
      case RUN_ERR => {}
      case STATE_ERR => {}
      case EEM_OPEN_ERR => {}
      case EEM_READ_ERR => {}
      case EEM_WRITE_ERR => {}
      case EEM_CLOSE_ERR => {}
      case FILE_OPEN_ERR => {}
      case FILE_DETECT_ERR => {}
      case FILE_END_ERR => {}
      case FILE_IO_ERR => {}
      case FILE_DATA_ERR => {}
      case VERIFY_ERR => {}
      case BLOW_FUSE_ERR => {}
      case FUSE_BLOWN_ERR => {}
      case INTEL_HEX_CODE_ERR => {}
      case WRITE_REGISTER_ERR => {}
      case READ_REGISTER_ERR => {}
      case INTERFACE_SUPPORT_ERR => {}
      case COMM_ERR => {}
      case NO_EX_POWER => {}
      case LOW_EX_POWER => {}
      case EX_POWER_OK => {}
      case HIGH_EX_POWER => {}
      case SELFTEST_ERR => {}
      case FLASH_TIMEOUT_ERR => {}
      case THREAD_ERR => {}
      case EEM_INIT_ERR => {}
      case RESOURCE_ERR => {}
      case CLK_CTRL_ERR => {}
      case STATE_STOR_ERR => {}
      case READ_TRACE_ERR => {}
      case VAR_WATCH_EN_ERR => {}
      case SEQUENCER_ERR => {}
      case SEQ_ENABLE_ERR => {}
      case CLR_SEQ_TRIGGER => {}
      case SET_SEQ_TRIGGER => {}
      case SPMA_ACTIVE_ERR => {}
      case SPMA_INVALID_KEY_ERR => {}
      case SPMA_MAX_TRIALS => {}
      case USB_FET_BSL_ACTIVE_ERR => {}
      case USB_FET_NOT_FOUND_ERR => {}
      case USB_FET_BUSY_ERR => {}
      case THREAD_ACTIVE_ERR => {}
      case THREAD_TERMINATE_ERR => {}
      case UNLOCK_BSL_ERR => {}
      case BSL_MEMORY_LOCKED_ERR => {}
      case FOUND_OTHER_DEVICE => {}
      case WRONG_PASSWORD => {}
      case UPDATE_MULTIPLE_UIF_ERR => {}
      case CDC_UIF_ERR => {}
      case UIF_MANUAL_POWERCYCLE_NEEDED => {}
      case INTERNAL_ERR => {}
      case INVALID_ERR => {}
    }
  }

  lemma UsbFetNotFoundMessage()
    ensures ErrorMapLookup(MemberKey(USB_FET_NOT_FOUND_ERR)) == Some("Could not find MSP-FET430UIF on specified COM port")
  {
  }

  lemma FirstAndLastMessages()
    ensures ErrorMapLookup(MemberKey(NO_ERR)) == Some("No error")
    ensures ErrorMapLookup(MemberKey(INVALID_ERR)) == Some("Invalid error number")
  {
  }

  /** ERROR_MAP['FooBar'] raises KeyError. */
  lemma StringKeyMissing()
    ensures ErrorMapLookup(StrKey("FooBar")) == None
  {
  }

  /** MSPError: the exception the wrapper raises. `args` are the positional
      arguments; `errno` is set only when passed as a keyword. */
  datatype MSPError = MSPError(args: seq<string>, errno: Option<int>)

  /** MSPError(*args, **kws). */
  function NewMSPError(args: seq<string>, kws: map<string, int>): (e: MSPError)
    ensures e.args == args
    ensures e.errno.Some? <==> "errno" in kws
    ensures e.errno.Some? ==> e.errno.value == kws["errno"]
  {
    MSPError(args, if "errno" in kws then Some(kws["errno"]) else None)
  }
}
