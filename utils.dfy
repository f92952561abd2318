/**
 * The console logger of Sentinel::Utils: a process-wide sink with two
 * severities. Its static state (a one-shot `initialized_` flag, the cached
 * stdout and stderr handles and the text attributes to restore after each
 * coloured line) is the state of one `Logger` object here. The Windows
 * console it drives is modelled abstractly in the same object: the handles
 * GetStdHandle returns, the text attribute behind each console handle (a
 * handle stands for a screen buffer of its own),
 * and the lines written to stdout and stderr. The mutex that serialises the
 * calls is not modelled: each log call is one atomic step.
 */
module Utils {

  /** A Windows HANDLE as far as the logger can tell them apart. */
  datatype Handle = NullHandle | InvalidHandleValue | Open(id: nat)

  /** Console text attribute bits (wincon.h). */
  const FOREGROUND_BLUE: bv16 := 0x0001
  const FOREGROUND_GREEN: bv16 := 0x0002
  const FOREGROUND_RED: bv16 := 0x0004
  const FOREGROUND_INTENSITY: bv16 := 0x0008

  /** White on black: what the logger restores when it cannot read the console's own attributes. */
  const DEFAULT_CONSOLE_ATTRIBUTES: bv16 := FOREGROUND_RED | FOREGROUND_GREEN | FOREGROUND_BLUE

  /** The colours of the two severities. */
  const INFO_ATTRIBUTES: bv16 := FOREGROUND_GREEN | FOREGROUND_INTENSITY
  const ERROR_ATTRIBUTES: bv16 := FOREGROUND_RED | FOREGROUND_INTENSITY

  const INFO_PREFIX: string := "[INFO] "
  const ERROR_PREFIX: string := "[ERROR] "

  /** A handle the logger may colour: neither INVALID_HANDLE_VALUE nor null. */
  function IsConsoleAvailable(handle: Handle): (r: bool)
    ensures r <==> handle.Open?
  {
    handle != InvalidHandleValue && handle != NullHandle
  }

  /**
   * GetConsoleScreenBufferInfo: succeeds, with the buffer's current text
   * attribute, exactly on handles of console screen buffers.
   */
  function ScreenBufferAttributes(console: map<Handle, bv16>, handle: Handle): (r: (bool, bv16))
    ensures r.0 <==> handle in console
    ensures r.0 ==> r.1 == console[handle]
  {
    if handle in console then (true, console[handle]) else (false, 0)
  }

  /**
   * SetConsoleTextAttribute on the console as a value: only the given
   * handle's screen buffer can change, and only when it is one.
   */
  function WithAttribute(console: map<Handle, bv16>, handle: Handle, attributes: bv16): (r: map<Handle, bv16>)
    ensures r.Keys == console.Keys
    ensures handle in console ==> r[handle] == attributes
    ensures forall h :: h in console && h != handle ==> r[h] == console[h]
  {
    if handle in console then console[handle := attributes] else console
  }

  /**
   * The attribute word Initialize caches for one stream: the console's own
   * attributes when the handle is usable and GetConsoleScreenBufferInfo
   * succeeds on it, DEFAULT_CONSOLE_ATTRIBUTES in every other case.
   */
  function Baseline(console: map<Handle, bv16>, handle: Handle): (r: bv16)
    ensures !IsConsoleAvailable(handle) ==> r == DEFAULT_CONSOLE_ATTRIBUTES
    ensures IsConsoleAvailable(handle) && handle !in console ==> r == DEFAULT_CONSOLE_ATTRIBUTES
    ensures IsConsoleAvailable(handle) && handle in console ==> r == console[handle]
  {
    if IsConsoleAvailable(handle) then
      var (ok, attributes) := ScreenBufferAttributes(console, handle);
      if ok then attributes else DEFAULT_CONSOLE_ATTRIBUTES
    else
      DEFAULT_CONSOLE_ATTRIBUTES
  }

  /** The static fields Initialize fills in, taken together. */
  datatype Cache = Cache(
    consoleHandle: Handle,
    errorConsoleHandle: Handle,
    defaultAttributes: bv16,
    errorDefaultAttributes: bv16)

  /** The values the static fields hold before any log call. */
  const STATIC_CACHE: Cache := Cache(NullHandle, NullHandle, 0, 0)

  /** What Initialize caches, given the process's standard handles and the console as it is then. */
  function Captured(stdOutput: Handle, stdError: Handle, console: map<Handle, bv16>): (c: Cache)
    ensures c.consoleHandle == stdOutput && c.errorConsoleHandle == stdError
    ensures c.defaultAttributes == Baseline(console, stdOutput)
    ensures c.errorDefaultAttributes == Baseline(console, stdError)
  {
    Cache(stdOutput, stdError, Baseline(console, stdOutput), Baseline(console, stdError))
  }

  /**
   * One log call's effect on the console's colours: when the handle is
   * usable, set the severity colour, write, then set the restore attributes;
   * otherwise leave the console alone.
   */
  function ColouredWrite(console: map<Handle, bv16>, handle: Handle, colour: bv16, restore: bv16): (r: map<Handle, bv16>)
    ensures !IsConsoleAvailable(handle) ==> r == console
    ensures r.Keys == console.Keys
    ensures IsConsoleAvailable(handle) && handle in console ==> r[handle] == restore
    ensures forall h :: h in console && h != handle ==> r[h] == console[h]
  {
    if IsConsoleAvailable(handle) then WithAttribute(WithAttribute(console, handle, colour), handle, restore)
    else console
  }

  /**
   * Restoring what was just captured is invisible: a log call made right
   * after initialisation leaves the colour behind every handle as it found it,
   * whatever colour it wrote in.
   */
  lemma RestoreOfCapturedIsIdentity(console: map<Handle, bv16>, handle: Handle, colour: bv16)
    ensures ColouredWrite(console, handle, colour, Baseline(console, handle)) == console
  {
  }

  class Logger {
    /** What GetStdHandle(STD_OUTPUT_HANDLE) and GetStdHandle(STD_ERROR_HANDLE) return in this process. */
    const stdOutput: Handle
    const stdError: Handle

    /**
     * The console: the current text attribute behind each handle that names a
     * screen buffer. Each handle stands for a buffer of its own; two handles
     * on one buffer are not modelled.
     */
    var console: map<Handle, bv16>
    /** The lines written to std::cout and std::cerr, oldest first. */
    var stdout: seq<string>
    var stderr: seq<string>

    /** The static members of Sentinel::Utils::Logger. */
    var initialized: bool
    var consoleHandle: Handle
    var errorConsoleHandle: Handle
    var defaultAttributes: bv16
    var errorDefaultAttributes: bv16

    function Cached(): Cache
      reads this
    {
      Cache(consoleHandle, errorConsoleHandle, defaultAttributes, errorDefaultAttributes)
    }

    /**
     * Before the first log call the statics hold their static initialisers;
     * afterwards they hold the standard handles, and a stream without a
     * usable handle restores DEFAULT_CONSOLE_ATTRIBUTES.
     */
    ghost predicate Valid()
      reads this
    {
      && (!initialized ==> Cached() == STATIC_CACHE)
      && (initialized ==>
            && consoleHandle == stdOutput
            && errorConsoleHandle == stdError
            && (!IsConsoleAvailable(consoleHandle) ==> defaultAttributes == DEFAULT_CONSOLE_ATTRIBUTES)
            && (!IsConsoleAvailable(errorConsoleHandle) ==> errorDefaultAttributes == DEFAULT_CONSOLE_ATTRIBUTES))
    }

    /** The process at start-up: statics at their initial values, nothing written yet. */
    constructor (stdOutput: Handle, stdError: Handle, console: map<Handle, bv16>)
      ensures Valid() && !initialized
      ensures this.stdOutput == stdOutput && this.stdError == stdError
      ensures this.console == console && stdout == [] && stderr == []
    {
      this.stdOutput, this.stdError := stdOutput, stdError;
      this.console := console;
      stdout, stderr := [], [];
      initialized := false;
      consoleHandle, errorConsoleHandle := NullHandle, NullHandle;
      defaultAttributes, errorDefaultAttributes := 0, 0;
    }

    /** SetConsoleTextAttribute; a handle that is not a console buffer is left as it is. */
    method SetConsoleTextAttribute(handle: Handle, attributes: bv16)
      modifies this`console
      ensures console == WithAttribute(old(console), handle, attributes)
    {
      if handle in console {
        console := console[handle := attributes];
      }
    }

    /**
     * The one-shot initialisation: on the first call it caches both standard
     * handles and the attributes to restore; on any later call it changes nothing.
     */
    method Initialize()
      requires Valid()
      modifies this`initialized, this`consoleHandle, this`errorConsoleHandle,
               this`defaultAttributes, this`errorDefaultAttributes
      ensures Valid() && initialized
      ensures Cached() == if old(initialized) then old(Cached()) else Captured(stdOutput, stdError, console)
    {
      if !initialized {
        consoleHandle := stdOutput;
        errorConsoleHandle := stdError;

        if IsConsoleAvailable(consoleHandle) {
          var (ok, attributes) := ScreenBufferAttributes(console, consoleHandle);
          if ok {
            defaultAttributes := attributes;
          } else {
            defaultAttributes := DEFAULT_CONSOLE_ATTRIBUTES;
          }
        } else {
          defaultAttributes := DEFAULT_CONSOLE_ATTRIBUTES;
        }

        if IsConsoleAvailable(errorConsoleHandle) {
          var (ok, attributes) := ScreenBufferAttributes(console, errorConsoleHandle);
          if ok {
            errorDefaultAttributes := attributes;
          } else {
            errorDefaultAttributes := DEFAULT_CONSOLE_ATTRIBUTES;
          }
        } else {
          errorDefaultAttributes := DEFAULT_CONSOLE_ATTRIBUTES;
        }

        initialized := true;
      }
    }

    /**
     * The state after one LogInfo(message): initialised (by this call only if
     * not before), exactly one "[INFO] " line more on stdout, stderr as it
     * was, and the stdout buffer's colour back at the cached default while
     * every other buffer keeps its colour.
     */
    twostate predicate InfoLogged(message: string)
      reads this
    {
      && initialized
      && Cached() == (if old(initialized) then old(Cached()) else Captured(stdOutput, stdError, old(console)))
      && stdout == old(stdout) + [INFO_PREFIX + message]
      && stderr == old(stderr)
      && console == ColouredWrite(old(console), consoleHandle, INFO_ATTRIBUTES, defaultAttributes)
    }

    /** The same for LogError(message), with stderr, its handle and its cached default. */
    twostate predicate ErrorLogged(message: string)
      reads this
    {
      && initialized
      && Cached() == (if old(initialized) then old(Cached()) else Captured(stdOutput, stdError, old(console)))
      && stderr == old(stderr) + [ERROR_PREFIX + message]
      && stdout == old(stdout)
      && console == ColouredWrite(old(console), errorConsoleHandle, ERROR_ATTRIBUTES, errorDefaultAttributes)
    }

    method LogInfo(message: string)
      requires Valid()
      modifies this
      ensures Valid() && InfoLogged(message)
    {
      if !initialized {
        Initialize();
      }
      if IsConsoleAvailable(consoleHandle) {
        SetConsoleTextAttribute(consoleHandle, INFO_ATTRIBUTES);
      }
      stdout := stdout + [INFO_PREFIX + message];
      if IsConsoleAvailable(consoleHandle) {
        SetConsoleTextAttribute(consoleHandle, defaultAttributes);
      }
    }

    method LogError(message: string)
      requires Valid()
      modifies this
      ensures Valid() && ErrorLogged(message)
    {
      if !initialized {
        Initialize();
      }
      if IsConsoleAvailable(errorConsoleHandle) {
        SetConsoleTextAttribute(errorConsoleHandle, ERROR_ATTRIBUTES);
      }
      stderr := stderr + [ERROR_PREFIX + message];
      if IsConsoleAvailable(errorConsoleHandle) {
        SetConsoleTextAttribute(errorConsoleHandle, errorDefaultAttributes);
      }
    }
  }
}
