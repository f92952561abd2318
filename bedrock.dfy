/**
 * The crash interceptor of Sentinel::Bedrock: a vectored exception handler
 * that watches every exception raised in the process, reports guard-page
 * faults and access violations through the logger, and always lets the
 * search for a handler continue.
 *
 * HandlerRoutine is a decision over the exception record and is modelled as
 * a function whose result is the disposition and the one line it passes to
 * LogError, if any. InvokeHandler performs that LogError on a Logger, and
 * Initialize is the registration step, with the result of
 * AddVectoredExceptionHandler as its input.
 */
module Bedrock {
  import opened Wrappers
  import opened HexFormat
  import opened Utils

  /** NTSTATUS codes the handler recognises (ntstatus.h). */
  const STATUS_GUARD_PAGE_VIOLATION: bv32 := 0x8000_0001
  const STATUS_ACCESS_VIOLATION: bv32 := 0xC000_0005

  /** The ExceptionInformation array of an EXCEPTION_RECORD always has this many slots. */
  const EXCEPTION_MAXIMUM_PARAMETERS: nat := 15

  /** DWORD and ULONG_PTR of a 64-bit build. */
  type Dword = x: nat | x < 0x1_0000_0000
  type UlongPtr = x: nat | x < UINTPTR_LIMIT

  /** The fixed-size parameter array; only the first NumberParameters slots are meaningful. */
  type ExceptionInformation = s: seq<UlongPtr> | |s| == EXCEPTION_MAXIMUM_PARAMETERS
    witness [0, 0, 0, 0, 0, 0, 0, 0, 0, 0, 0, 0, 0, 0, 0]

  /** The fields of EXCEPTION_RECORD the handler looks at. */
  datatype ExceptionRecord = ExceptionRecord(
    exceptionCode: bv32,
    numberParameters: Dword,
    exceptionInformation: ExceptionInformation)

  /** EXCEPTION_POINTERS; None stands for a null ExceptionRecord pointer. */
  datatype ExceptionPointers = ExceptionPointers(exceptionRecord: Option<ExceptionRecord>)

  /** EXCEPTION_CONTINUE_SEARCH and the reserved EXCEPTION_CONTINUE_EXECUTION. */
  datatype Disposition = ContinueSearch | ContinueExecution

  /** What one call of the handler does: its return value and the text it passes to LogError, if any. */
  datatype HandlerOutcome = HandlerOutcome(disposition: Disposition, logLine: Option<string>)

  /** The decoded ExceptionInformation[0] of an access violation. */
  datatype AccessKind = Read | Write | DepViolation | OtherAccess

  /** The forensic fact one log line carries. */
  datatype Report =
    | GuardPageViolation(address: UlongPtr)
    | AccessViolation(kind: AccessKind, address: UlongPtr)

  const GUARD_PAGE_TEMPLATE: string := "[CRITICAL] Guard Page Violation Detected at 0x"
  const ACCESS_VIOLATION_TEMPLATE: string := "[CRITICAL] Access Violation! "
  const ADDRESS_TEMPLATE: string := " address 0x"

  /** The access-type switch: 0, 1 and 8 are named, every other value falls into the default bucket. */
  function AccessKindOf(accessType: UlongPtr): (kind: AccessKind)
    ensures kind == Read <==> accessType == 0
    ensures kind == Write <==> accessType == 1
    ensures kind == DepViolation <==> accessType == 8
    ensures kind == OtherAccess <==> accessType !in {0, 1, 8}
  {
    match accessType
    case 0 => Read
    case 1 => Write
    case 8 => DepViolation
    case _ => OtherAccess
  }

  /** The words the handler writes for each access kind; no two kinds share them. */
  function Phrase(kind: AccessKind): (words: string)
    ensures words == "Read from" <==> kind == Read
    ensures words == "Write to" <==> kind == Write
    ensures words == "DEP violation at" <==> kind == DepViolation
    ensures words == "Access to" <==> kind == OtherAccess
  {
    match kind
    case Read => "Read from"
    case Write => "Write to"
    case DepViolation => "DEP violation at"
    case OtherAccess => "Access to"
  }

  /**
   * The text of the message the handler builds with its ostringstream: its
   * template, then the 16-digit address, then "!" on a guard-page line and
   * nothing at all on an access-violation line.
   */
  function FormatReport(report: Report): (line: string)
    ensures report.GuardPageViolation? ==>
      && |line| == |GUARD_PAGE_TEMPLATE| + 17
      && line[..|GUARD_PAGE_TEMPLATE|] == GUARD_PAGE_TEMPLATE
      && line[|GUARD_PAGE_TEMPLATE|..|GUARD_PAGE_TEMPLATE| + 16] == Hex16(report.address)
      && line[|line| - 1] == '!'
    ensures report.AccessViolation? ==>
      var head := ACCESS_VIOLATION_TEMPLATE + Phrase(report.kind) + ADDRESS_TEMPLATE;
      && |line| == |head| + 16
      && line[..|head|] == head
      && line[|head|..] == Hex16(report.address)
  {
    match report
    case GuardPageViolation(address) => GUARD_PAGE_TEMPLATE + Hex16(address) + "!"
    case AccessViolation(kind, address) => ACCESS_VIOLATION_TEMPLATE + Phrase(kind) + ADDRESS_TEMPLATE + Hex16(address)
  }

  /**
   * The exception handler. A null ExceptionInfo or ExceptionRecord, and any
   * code other than the two it recognises, produce no log line; a guard-page
   * fault and an access violation produce exactly one; and every path
   * continues the search.
   */
  function HandlerRoutine(exceptionInfo: Option<ExceptionPointers>): (r: HandlerOutcome)
    ensures r.disposition == ContinueSearch
    ensures r.logLine.Some? <==>
      && exceptionInfo.Some?
      && exceptionInfo.value.exceptionRecord.Some?
      && exceptionInfo.value.exceptionRecord.value.exceptionCode in {STATUS_GUARD_PAGE_VIOLATION, STATUS_ACCESS_VIOLATION}
  {
    if exceptionInfo.None? || exceptionInfo.value.exceptionRecord.None? then
      HandlerOutcome(ContinueSearch, None)
    else
      var record := exceptionInfo.value.exceptionRecord.value;
      var exceptionCode := record.exceptionCode;
      if exceptionCode == STATUS_GUARD_PAGE_VIOLATION then
        var faultingAddress := if record.numberParameters >= 2 then record.exceptionInformation[1] else 0;
        HandlerOutcome(ContinueSearch, Some(FormatReport(GuardPageViolation(faultingAddress))))
      else if exceptionCode == STATUS_ACCESS_VIOLATION then
        var (accessType, faultingAddress) :=
          if record.numberParameters >= 2 then (record.exceptionInformation[0], record.exceptionInformation[1])
          else (0, 0);
        HandlerOutcome(ContinueSearch, Some(FormatReport(AccessViolation(AccessKindOf(accessType), faultingAddress))))
      else
        HandlerOutcome(ContinueSearch, None)
  }

  // ---------------------------------------------------------------------------
  // Reading a log line back

  /** Sixteen uppercase hex digits, as a 64-bit value. */
  function ParseAddress(digits: string): (r: Option<UlongPtr>)
    ensures r.Some? ==> |digits| == 16 && HexValue(digits) == Some(r.value)
  {
    if |digits| != 16 then None
    else
      match HexValue(digits)
      case Some(v) => if v < UINTPTR_LIMIT then Some(v) else None
      case None => None
  }

  /** The rest of an access-violation line, read as one given access kind. */
  function ParseAccessAs(rest: string, kind: AccessKind): Option<Report> {
    var tag := Phrase(kind) + ADDRESS_TEMPLATE;
    if |rest| == |tag| + 16 && rest[..|tag|] == tag then
      match ParseAddress(rest[|tag|..])
      case Some(address) => Some(AccessViolation(kind, address))
      case None => None
    else None
  }

  /** The report a log line of either template carries, or None for any other text. */
  function ParseReport(line: string): Option<Report> {
    var g := |GUARD_PAGE_TEMPLATE|;
    var a := |ACCESS_VIOLATION_TEMPLATE|;
    if |line| == g + 17 && line[..g] == GUARD_PAGE_TEMPLATE && line[g + 16] == '!' then
      match ParseAddress(line[g..g + 16])
      case Some(address) => Some(GuardPageViolation(address))
      case None => None
    else if |line| >= a && line[..a] == ACCESS_VIOLATION_TEMPLATE then
      var rest := line[a..];
      var asRead := ParseAccessAs(rest, Read);
      if asRead.Some? then asRead
      else
        var asWrite := ParseAccessAs(rest, Write);
        if asWrite.Some? then asWrite
        else
          var asDep := ParseAccessAs(rest, DepViolation);
          if asDep.Some? then asDep
          else ParseAccessAs(rest, OtherAccess)
    else None
  }

  lemma ParseAccessAsFormatted(kind: AccessKind, address: UlongPtr, other: AccessKind)
    ensures var rest := Phrase(kind) + ADDRESS_TEMPLATE + Hex16(address);
            ParseAccessAs(rest, other) == if other == kind then Some(AccessViolation(kind, address)) else None
  {
    var rest := Phrase(kind) + ADDRESS_TEMPLATE + Hex16(address);
    var tag := Phrase(other) + ADDRESS_TEMPLATE;
    if other == kind {
      assert rest[..|tag|] == tag;
      assert rest[|tag|..] == Hex16(address);
      Hex16RoundTrip(address);
    } else if |rest| == |tag| + 16 {
      assert rest[0] == Phrase(kind)[0];
      assert tag[0] == Phrase(other)[0];
      assert rest[..|tag|][0] != tag[0];
    }
  }

  /** Every line the handler can write reads back as the report it was built from. */
  lemma ParseFormatRoundTrip(report: Report)
    ensures ParseReport(FormatReport(report)) == Some(report)
  {
    var line := FormatReport(report);
    var g := |GUARD_PAGE_TEMPLATE|;
    var a := |ACCESS_VIOLATION_TEMPLATE|;
    match report
    case GuardPageViolation(address) =>
      assert line[..g] == GUARD_PAGE_TEMPLATE;
      assert line[g..g + 16] == Hex16(address);
      Hex16RoundTrip(address);
    case AccessViolation(kind, address) =>
      assert line[..a] == ACCESS_VIOLATION_TEMPLATE;
      assert line[a..] == Phrase(kind) + ADDRESS_TEMPLATE + Hex16(address);
      ParseAccessAsFormatted(kind, address, Read);
      ParseAccessAsFormatted(kind, address, Write);
      ParseAccessAsFormatted(kind, address, DepViolation);
      ParseAccessAsFormatted(kind, address, OtherAccess);
  }

  /** Distinct faults are never logged with the same text. */
  lemma FormatReportInjective(r1: Report, r2: Report)
    requires FormatReport(r1) == FormatReport(r2)
    ensures r1 == r2
  {
    ParseFormatRoundTrip(r1);
    ParseFormatRoundTrip(r2);
  }

  // ---------------------------------------------------------------------------
  // What the handler logs

  /** A record as the host passes it: non-null pointers all the way down. */
  function Delivered(record: ExceptionRecord): Option<ExceptionPointers> {
    Some(ExceptionPointers(Some(record)))
  }

  /**
   * A guard-page fault is logged once, and the line reads back as a
   * guard-page report of ExceptionInformation[1] when at least two
   * parameters are present, of address 0 otherwise.
   */
  lemma GuardPageLogged(record: ExceptionRecord)
    requires record.exceptionCode == STATUS_GUARD_PAGE_VIOLATION
    ensures HandlerRoutine(Delivered(record)).logLine.Some?
    ensures var line := HandlerRoutine(Delivered(record)).logLine.value;
            ParseReport(line) == Some(GuardPageViolation(
              if record.numberParameters >= 2 then record.exceptionInformation[1] else 0))
  {
    var faultingAddress := if record.numberParameters >= 2 then record.exceptionInformation[1] else 0;
    ParseFormatRoundTrip(GuardPageViolation(faultingAddress));
  }

  /**
   * An access violation is logged once; with at least two parameters the
   * line reads back as the access kind of ExceptionInformation[0] at
   * ExceptionInformation[1], with fewer as a read from address 0.
   */
  lemma AccessViolationLogged(record: ExceptionRecord)
    requires record.exceptionCode == STATUS_ACCESS_VIOLATION
    ensures HandlerRoutine(Delivered(record)).logLine.Some?
    ensures var line := HandlerRoutine(Delivered(record)).logLine.value;
            ParseReport(line) == Some(
              if record.numberParameters >= 2
              then AccessViolation(AccessKindOf(record.exceptionInformation[0]), record.exceptionInformation[1])
              else AccessViolation(Read, 0))
  {
    if record.numberParameters >= 2 {
      ParseFormatRoundTrip(AccessViolation(AccessKindOf(record.exceptionInformation[0]), record.exceptionInformation[1]));
    } else {
      ParseFormatRoundTrip(AccessViolation(Read, 0));
    }
  }

  /** With fewer than two parameters the handler reads none of them: the array's contents cannot change the outcome. */
  lemma ShortRecordIgnoresInformation(r1: ExceptionRecord, r2: ExceptionRecord)
    requires r1.exceptionCode == r2.exceptionCode
    requires r1.numberParameters < 2 && r2.numberParameters < 2
    ensures HandlerRoutine(Delivered(r1)) == HandlerRoutine(Delivered(r2))
  {
  }

  /** Only the code, the parameter count's test and the first two parameters matter. */
  lemma OnlyFirstTwoParametersMatter(r1: ExceptionRecord, r2: ExceptionRecord)
    requires r1.exceptionCode == r2.exceptionCode
    requires (r1.numberParameters >= 2) == (r2.numberParameters >= 2)
    requires r1.exceptionInformation[..2] == r2.exceptionInformation[..2]
    ensures HandlerRoutine(Delivered(r1)) == HandlerRoutine(Delivered(r2))
  {
  }

  // ---------------------------------------------------------------------------
  // Concrete records

  function Parameters(p0: UlongPtr, p1: UlongPtr): ExceptionInformation {
    [p0, p1, 0, 0, 0, 0, 0, 0, 0, 0, 0, 0, 0, 0, 0]
  }

  /** A short access-violation record is reported as a read from address zero. */
  lemma ShortAccessViolationLine(record: ExceptionRecord)
    requires record.exceptionCode == STATUS_ACCESS_VIOLATION && record.numberParameters < 2
    ensures HandlerRoutine(Delivered(record)).logLine
         == Some(ACCESS_VIOLATION_TEMPLATE + "Read from" + ADDRESS_TEMPLATE + "0000000000000000")
  {
    Hex16OfZero();
  }

  /** A short guard-page record is reported at address zero. */
  lemma ShortGuardPageLine(record: ExceptionRecord)
    requires record.exceptionCode == STATUS_GUARD_PAGE_VIOLATION && record.numberParameters < 2
    ensures HandlerRoutine(Delivered(record)).logLine
         == Some(GUARD_PAGE_TEMPLATE + "0000000000000000" + "!")
  {
    Hex16OfZero();
  }

  /** A write to address zero. */
  lemma WriteToNullLine()
    ensures HandlerRoutine(Delivered(ExceptionRecord(STATUS_ACCESS_VIOLATION, 2, Parameters(1, 0)))).logLine
         == Some(ACCESS_VIOLATION_TEMPLATE + "Write to" + ADDRESS_TEMPLATE + "0000000000000000")
  {
    Hex16OfZero();
  }

  /** Access type 8 is a DEP violation. */
  lemma DepViolationLine()
    ensures HandlerRoutine(Delivered(ExceptionRecord(STATUS_ACCESS_VIOLATION, 2, Parameters(8, 0)))).logLine
         == Some(ACCESS_VIOLATION_TEMPLATE + "DEP violation at" + ADDRESS_TEMPLATE + "0000000000000000")
  {
    Hex16OfZero();
  }

  /** Access types outside 0, 1 and 8, such as 2 and 255, fall into the default bucket. */
  lemma UnclassifiedAccessLine(accessType: UlongPtr)
    requires accessType == 2 || accessType == 255
    ensures HandlerRoutine(Delivered(ExceptionRecord(STATUS_ACCESS_VIOLATION, 2, Parameters(accessType, 0)))).logLine
         == Some(ACCESS_VIOLATION_TEMPLATE + "Access to" + ADDRESS_TEMPLATE + "0000000000000000")
  {
    Hex16OfZero();
  }

  /** A breakpoint (STATUS_BREAKPOINT) is not logged and the search continues. */
  lemma BreakpointNotLogged()
    ensures HandlerRoutine(Delivered(ExceptionRecord(0x8000_0003, 0, Parameters(0, 0))))
         == HandlerOutcome(ContinueSearch, None)
  {
  }

  // ---------------------------------------------------------------------------
  // Page alignment, as documented but not done

  const PAGE_SIZE: nat := 4096

  /** The address with its offset within a 4 KB page cleared. */
  function PageAlign(address: UlongPtr): (r: UlongPtr)
    ensures r % PAGE_SIZE == 0 && r <= address && address - r < PAGE_SIZE
  {
    address - address % PAGE_SIZE
  }

  /**
   * The handler logs the raw faulting address, not the page it lies in: a
   * guard-page fault at 0x00007FF6A0001234 is logged with that address,
   * which differs from its page 0x00007FF6A0001000.
   */
  lemma LoggedAddressIsRaw()
    ensures var record := ExceptionRecord(STATUS_GUARD_PAGE_VIOLATION, 2, Parameters(0, 0x0000_7FF6_A000_1234));
            && ParseReport(HandlerRoutine(Delivered(record)).logLine.value) == Some(GuardPageViolation(0x0000_7FF6_A000_1234))
            && PageAlign(0x0000_7FF6_A000_1234) == 0x0000_7FF6_A000_1000
  {
    GuardPageLogged(ExceptionRecord(STATUS_GUARD_PAGE_VIOLATION, 2, Parameters(0, 0x0000_7FF6_A000_1234)));
  }

  // ---------------------------------------------------------------------------
  // The effectful parts

  const INITIALIZED_MESSAGE: string := "Crash Interceptor initialized successfully"
  const REGISTRATION_FAILED_MESSAGE: string := "Failed to register Vectored Exception Handler"

  /**
   * CrashInterceptor::Initialize. `registration` is what
   * AddVectoredExceptionHandler(1, HandlerRoutine) returned, None for null.
   * There is no guard against a second call: every call attempts a new
   * registration and logs one line.
   */
  method Initialize(logger: Logger, registration: Option<nat>) returns (ok: bool)
    requires logger.Valid()
    modifies logger
    ensures logger.Valid()
    ensures ok <==> registration.Some?
    ensures ok ==> logger.InfoLogged(INITIALIZED_MESSAGE)
    ensures !ok ==> logger.ErrorLogged(REGISTRATION_FAILED_MESSAGE)
  {
    if registration.None? {
      logger.LogError(REGISTRATION_FAILED_MESSAGE);
      return false;
    }
    logger.LogInfo(INITIALIZED_MESSAGE);
    return true;
  }

  /**
   * One invocation of the registered handler by the host: the disposition
   * HandlerRoutine decides, and its line, when it has one, sent to LogError
   * exactly once; otherwise the logger is not touched.
   */
  method InvokeHandler(logger: Logger, exceptionInfo: Option<ExceptionPointers>) returns (disposition: Disposition)
    requires logger.Valid()
    modifies logger
    ensures logger.Valid()
    ensures disposition == ContinueSearch
    ensures var outcome := HandlerRoutine(exceptionInfo);
            && (outcome.logLine.Some? ==> logger.ErrorLogged(outcome.logLine.value))
            && (outcome.logLine.None? ==> unchanged(logger))
  {
    var outcome := HandlerRoutine(exceptionInfo);
    if outcome.logLine.Some? {
      logger.LogError(outcome.logLine.value);
    }
    disposition := outcome.disposition;
  }
}
