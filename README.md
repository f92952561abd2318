# Sentinel crash interceptor and console logger, in Dafny

This project models the two working pieces of Sentinel's "Bedrock" layer:

- **The crash interceptor** (`Sentinel::Bedrock::CrashInterceptor`). It registers a vectored exception handler. The handler is called on every exception raised in the process. It recognises `STATUS_GUARD_PAGE_VIOLATION` and `STATUS_ACCESS_VIOLATION` and writes one forensic line for each through the logger. It always returns `EXCEPTION_CONTINUE_SEARCH`.
- **The console logger** (`Sentinel::Utils::Logger`). Its state is static. On first use it caches the stdout and stderr handles and the text attributes to restore. Every `LogInfo` / `LogError` call sets a colour, writes a prefixed line, then restores the cached attributes.

Files:

- `wrappers.dfy`: the `Option` type. It stands for null pointers and for failed decoding.
- `hex_format.dfy` (module `HexFormat`): the `std::uppercase << std::hex << std::setw(16) << std::setfill('0')` rendering as a recursive function (`HexDigits`, `Hex16`). It also holds the decoder `HexValue` and the round-trip lemmas.
- `utils.dfy` (module `Utils`): class `Logger`. Its fields are the logger's static members plus an abstract console: the text attribute behind each console handle (each handle stands for a screen buffer of its own), and the lines written to stdout and stderr. The handles that `GetStdHandle` returns are constructor inputs. `IsConsoleAvailable`, the attribute fallback (`Baseline`, `Captured`) and the set-then-restore effect (`ColouredWrite`) are pure functions. The methods are proved against them.
- `bedrock.dfy` (module `Bedrock`): the exception record types, `HandlerRoutine` as a pure function, the two message templates (`FormatReport`), a parser that reads a log line back (`ParseReport`), `Initialize`, and `InvokeHandler`. `InvokeHandler` performs the handler's single `LogError` on a `Logger`.

### Where the documentation and the code disagree

The model follows the `.cpp` files.

- The header's doc comment (`src/Sentinel/Bedrock/CrashInterceptor.hpp:141-145`, `:164-165`) says logged addresses are masked to 4 KB pages and marked "page-aligned". The handler in `CrashInterceptor.cpp` prints the raw `ExceptionInformation[1]` and adds no suffix. The guard-page line ends in `!` and the access-violation line ends right after the 16 digits. `PageAlign` states the documented masking. `LoggedAddressIsRaw` shows that a fault at `0x00007FF6A0001234` is logged with that exact address, not with its page `0x00007FF6A0001000`.
- The header says formatting uses `sprintf_s` on stack buffers (`CrashInterceptor.hpp:160-162`). The code uses `std::ostringstream`. The model has no buffers, so this makes no difference to it.
- A second call is not refused. `CrashInterceptor::Initialize` has no guard, and its header says repeated calls register the routine again (`CrashInterceptor.hpp:102-103`). Each call of `Bedrock.Initialize` makes a new registration attempt and logs a new line.
- No fallback message for a formatting failure exists in the code, so none is modelled.
- `Logger.cpp` defines `errorDefaultAttributes_` and `IsConsoleAvailable`, but the class body in `Logger.hpp` does not declare them. The model follows `Logger.cpp`.

### Constants not spelled out in the sources

These are the standard Windows header values. The model uses them:

- `STATUS_ACCESS_VIOLATION` = `0xC0000005`
- `EXCEPTION_MAXIMUM_PARAMETERS` = 15
- the `FOREGROUND_*` bits: blue 1, green 2, red 4, intensity 8, so `DEFAULT_CONSOLE_ATTRIBUTES` = 7
- `INVALID_HANDLE_VALUE` is a distinct handle value (`Handle.InvalidHandleValue`)

`ULONG_PTR` and `uintptr_t` are taken to be 64 bits wide, as in an x64 build.

## Model

| member | source | states |
|---|---|---|
| `HexFormat.HexDigits` | src/Sentinel/Bedrock/CrashInterceptor.cpp:54-55 | the zero-filled field is exactly n characters long, each an uppercase hex digit |
| `HexFormat.Hex16` | src/Sentinel/Bedrock/CrashInterceptor.cpp:108-110 | a 64-bit address prints as exactly 16 characters, each an uppercase hex digit |
| `HexFormat.HexDigitsValue` | src/Sentinel/Bedrock/CrashInterceptor.cpp:54-55 | decoding the n-digit field gives back any value below 16^n |
| `HexFormat.Hex16RoundTrip` | src/Sentinel/Bedrock/CrashInterceptor.cpp:108-110 | the 16 printed digits of a 64-bit address decode back to that address |
| `HexFormat.HexDigitsLeadingZeros` | src/Sentinel/Bedrock/CrashInterceptor.cpp:54 | zero padding: a value below 16^k has '0' in every position left of its last k digits |
| `HexFormat.Hex16OfZero` | src/Sentinel/Bedrock/CrashInterceptor.cpp:44-55 | the null address prints as sixteen '0' characters |
| `Bedrock.HandlerRoutine` | src/Sentinel/Bedrock/CrashInterceptor.cpp:29-122 | every path returns ContinueSearch; a line is logged exactly when ExceptionInfo and ExceptionRecord are non-null and the code is STATUS_GUARD_PAGE_VIOLATION or STATUS_ACCESS_VIOLATION, so null input and every other code log nothing |
| `Bedrock.AccessKindOf` | src/Sentinel/Bedrock/CrashInterceptor.cpp:93-106 | access type 0 is a read, 1 a write, 8 a DEP violation, each if and only if; every other value falls in the default "Access to" bucket |
| `Bedrock.Phrase` | src/Sentinel/Bedrock/CrashInterceptor.cpp:93-106 | the four access phrases, each chosen if and only if its access kind is: "Read from", "Write to", "DEP violation at", "Access to" |
| `Bedrock.FormatReport` | src/Sentinel/Bedrock/CrashInterceptor.cpp:52-110 | a guard-page line (lines 52-55) is its template, the 16 address digits and "!", and nothing else; an access-violation line (lines 89-110) is its template, the access phrase, " address 0x" and the 16 address digits, and nothing after them |
| `Bedrock.ParseFormatRoundTrip` | src/Sentinel/Bedrock/CrashInterceptor.cpp:52-112 | each of the two message templates reads back as exactly the report it was built from, so nothing follows the digits except the guard line's "!" |
| `Bedrock.FormatReportInjective` | src/Sentinel/Bedrock/CrashInterceptor.cpp:52-112 | two different faults never produce the same log text |
| `Bedrock.GuardPageLogged` | src/Sentinel/Bedrock/CrashInterceptor.cpp:41-57 | a guard-page fault logs one line, which reads back as a guard-page report of ExceptionInformation[1] when NumberParameters >= 2 and of address 0 otherwise |
| `Bedrock.AccessViolationLogged` | src/Sentinel/Bedrock/CrashInterceptor.cpp:74-112 | an access violation logs one line, which reads back as the access kind of ExceptionInformation[0] at ExceptionInformation[1] when NumberParameters >= 2, and as a read from address 0 otherwise |
| `Bedrock.ShortRecordIgnoresInformation` | src/Sentinel/Bedrock/CrashInterceptor.cpp:44-86 | with NumberParameters < 2 the contents of ExceptionInformation cannot change the outcome, so the array is not read |
| `Bedrock.OnlyFirstTwoParametersMatter` | src/Sentinel/Bedrock/CrashInterceptor.cpp:44-86 | only the code, whether NumberParameters >= 2, and the first two parameters decide the outcome |
| `Bedrock.ShortAccessViolationLine` | src/Sentinel/Bedrock/CrashInterceptor.cpp:78-110 | a short access-violation record is logged as "[CRITICAL] Access Violation! Read from address 0x0000000000000000" |
| `Bedrock.ShortGuardPageLine` | src/Sentinel/Bedrock/CrashInterceptor.cpp:44-55 | a short guard-page record is logged as "[CRITICAL] Guard Page Violation Detected at 0x0000000000000000!" |
| `Bedrock.WriteToNullLine` | src/Sentinel/Bedrock/CrashInterceptor.cpp:81-110 | parameters [1, 0] are logged as "[CRITICAL] Access Violation! Write to address 0x0000000000000000", with no suffix |
| `Bedrock.DepViolationLine` | src/Sentinel/Bedrock/CrashInterceptor.cpp:100-110 | parameters [8, 0] are logged as "[CRITICAL] Access Violation! DEP violation at address 0x0000000000000000" |
| `Bedrock.UnclassifiedAccessLine` | src/Sentinel/Bedrock/CrashInterceptor.cpp:103-110 | access types 2 and 255 at address 0 are logged as "[CRITICAL] Access Violation! Access to address 0x0000000000000000" |
| `Bedrock.BreakpointNotLogged` | src/Sentinel/Bedrock/CrashInterceptor.cpp:119-121 | an unrelated code (a breakpoint) logs nothing and continues the search |
| `Bedrock.PageAlign` | src/Sentinel/Bedrock/CrashInterceptor.hpp:141-145 | the documented sanitisation: a multiple of 4096, not above the address, less than one page below it |
| `Bedrock.LoggedAddressIsRaw` | src/Sentinel/Bedrock/CrashInterceptor.cpp:44-55 | the handler logs the raw address 0x00007FF6A0001234, not its page 0x00007FF6A0001000, unlike what the header documents |
| `Bedrock.Initialize` | src/Sentinel/Bedrock/CrashInterceptor.cpp:14-27 | returns false and logs one error line "Failed to register Vectored Exception Handler" exactly when the registration result is null; otherwise returns true and logs one info line; no guard against repeated calls |
| `Bedrock.InvokeHandler` | src/Sentinel/Bedrock/CrashInterceptor.cpp:52-116 | the host's call of the handler returns ContinueSearch and sends the handler's line to LogError exactly once, or leaves the logger untouched when there is none |
| `Utils.IsConsoleAvailable` | src/Sentinel/Utils/Logger.cpp:23-25 | holds if and only if the handle is neither INVALID_HANDLE_VALUE nor null |
| `Utils.Baseline` | src/Sentinel/Utils/Logger.cpp:35-61 | the cached attributes are the console's own only when the handle is usable and GetConsoleScreenBufferInfo succeeds; otherwise DEFAULT_CONSOLE_ATTRIBUTES |
| `Utils.Captured` | src/Sentinel/Utils/Logger.cpp:27-64 | initialisation caches both standard handles, and applies the attribute rule to stdout and stderr independently |
| `Utils.ColouredWrite` | src/Sentinel/Utils/Logger.cpp:75-86 | set-then-restore: an unusable handle leaves the console alone; a usable one ends at the restore attributes; every other handle keeps its colour |
| `Utils.RestoreOfCapturedIsIdentity` | src/Sentinel/Utils/Logger.cpp:27-86 | a log call right after initialisation leaves the colour behind every handle exactly as it found it |
| `Utils.Logger.constructor` | src/Sentinel/Utils/Logger.cpp:13-18 | the statics start not initialised, with null handles and zero attributes |
| `Utils.Logger.Initialize` | src/Sentinel/Utils/Logger.cpp:27-65 | idempotent: when already initialised nothing changes; otherwise caches what Captured gives; afterwards initialized_ is true |
| `Utils.Logger.LogInfo` | src/Sentinel/Utils/Logger.cpp:67-87 | initialises only if not yet done, otherwise keeps the cached handles and attributes; appends exactly "[INFO] " + message to stdout; leaves stderr unchanged; restores the stdout handle's colour to the cached default and leaves other handles alone |
| `Utils.Logger.LogError` | src/Sentinel/Utils/Logger.cpp:89-110 | the same for stderr: appends exactly "[ERROR] " + message, leaves stdout unchanged, restores the stderr buffer to its own cached default |

## Left out

- The mutex (`std::lock_guard` in `LogInfo` / `LogError`) and all concurrency. Each log call is one atomic step, and the handler runs as one call.
- Windows API behaviour. `GetStdHandle` results are constructor inputs. `GetConsoleScreenBufferInfo` succeeds exactly on handles that name a screen buffer in the console map. `SetConsoleTextAttribute` changes only such a buffer. The value returned by `AddVectoredExceptionHandler(1, HandlerRoutine)` is an input of `Initialize`. The host's list of registered handlers and the priority argument are not modelled, so a repeated registration shows only as a repeated log line.
- `Utils.ColouredWrite`: screen buffers are identified with handles, so two handles naming one buffer (stdout and stderr on the same console) are not modelled. "Every other handle keeps its colour" means other handles, not other buffers.
- `Utils.Logger.LogInfo`: the bright-green attribute that is in force while the line is written is set in the body but not recorded with the line; the contract states the final attributes only.
- `Utils.Logger.LogError`: the same for the bright-red attribute.
- Output-stream details beyond appending one line: `std::endl` flushing, and stream failure.
- Allocation failure in `std::ostringstream`. The model's formatting cannot fail.
- The `CONTEXT` record and the `EXCEPTION_RECORD` fields the handler never reads (flags, chained record, exception address).
- The numeric values of the two dispositions.
- The future JIT decryption and the resume path. They exist only as comments, and `ContinueExecution` is never produced.
- The header's claims of no heap allocation, no throwing, and 4 KB address masking. The code does not implement them. The masking is stated separately as `PageAlign`.
- 32-bit builds. Addresses are modelled as 64-bit values.
- `src/main.cpp`, a demo driver with no logic of its own.
