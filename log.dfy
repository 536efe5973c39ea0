/** core/src/log.c: formatted log lines are echoed to the console and
    collected in a 4 KiB buffer that is written to `dnf_game.log` when the
    next line would not fit, and when the system shuts down.  A formatted
    line is an opaque byte sequence; the file is the ghost sequence of bytes
    handed to `write`. */
module Log {
  import opened Numeric

  const BUFFER_SIZE: int := 1024 * 4
  const MAX_MESSAGE_LENGTH: int := 1024 - 256
  /** The size of the `log_line` array the line is formatted into. */
  const MAX_LINE_LENGTH: int := MAX_MESSAGE_LENGTH + 256

  // `DNF_LogLevel` of core/include/log.h.
  const LOG_NONE: int := 0
  const LOG_TRACE: int := 1
  const LOG_DEBUG: int := 2
  const LOG_INFO: int := 3
  const LOG_WARN: int := 4
  const LOG_ERROR: int := 5
  const LOG_FATAL: int := 6
  const LEVEL_COUNT: int := 7

  /** `dnf_log_level_names`, indexed by level. */
  const LEVEL_NAMES: seq<string> := ["NONE", "TRACE", "DEBUG", "INFO", "WARN", "ERROR", "FATAL"]

  /** `global_log_level`: never changed after its initialisation. */
  const GLOBAL_LOG_LEVEL: int := LOG_DEBUG

  /** There is one name per level, and no two levels share a name. */
  lemma LevelNamesMatchLevels()
    ensures |LEVEL_NAMES| == LEVEL_COUNT
    ensures forall i, j :: 0 <= i < j < LEVEL_COUNT ==> LEVEL_NAMES[i] != LEVEL_NAMES[j]
  {
  }

  /** The console stream a line of `level` is echoed to: only levels above
      ERROR go to `stderr`, and of the enum's levels that is FATAL alone. */
  function StreamFor(level: int): (s: Stream)
    requires 0 <= level < LEVEL_COUNT
    ensures s == Stderr <==> level == LOG_FATAL
  {
    if level > LOG_ERROR then Stderr else Stdout
  }

  /** Whether a line of `len` bytes makes `dnf_log_message` flush first. */
  predicate FlushesFirst(pos: int, len: int)
  {
    len >= BUFFER_SIZE || pos + len >= BUFFER_SIZE
  }

  /** The bytes that leave the buffer when `line` is logged behind `pending`. */
  function FlushedBy(pending: seq<byte>, line: seq<byte>): (r: seq<byte>)
  {
    if FlushesFirst(|pending|, |line|) then pending else []
  }

  /** The buffer contents after `line` is logged behind `pending`. */
  function BufferAfter(pending: seq<byte>, line: seq<byte>): (r: seq<byte>)
    // the line always ends up in the buffer, behind whatever was not flushed
    ensures FlushedBy(pending, line) + r == pending + line
    // a buffer that fits keeps fitting, since a line shorter than the buffer
    // never overflows an empty buffer
    ensures |pending| < BUFFER_SIZE && |line| < BUFFER_SIZE ==> |r| < BUFFER_SIZE
  {
    if FlushesFirst(|pending|, |line|) then line else pending + line
  }

  /** The number of bytes `snprintf` stores in `log_line` for a line whose
      full length is `len`: it truncates to the array, keeping the NUL. */
  function CopiedLength(len: nat): (n: nat)
    ensures n < MAX_LINE_LENGTH && n <= len
    ensures len < MAX_LINE_LENGTH ==> n == len
  {
    Min(len, MAX_LINE_LENGTH - 1)
  }

  /** The buffer position after a line as the source computes it: it copies
      and advances by `len`, the value `snprintf` returns, which is the
      untruncated length. */
  function PosAfterAsWritten(pos: int, len: int): (r: int)
  {
    (if FlushesFirst(pos, len) then 0 else pos) + len
  }

  /** A line whose untruncated length is 1100 makes `memcpy` copy 1100
      bytes out of the 1024-byte `log_line`, of which `snprintf` filled
      only 1023; one of 5000 bytes makes it write past the end of
      `log_buffer` even after the flush. */
  lemma AsWrittenOverruns()
    ensures PosAfterAsWritten(0, 1100) > MAX_LINE_LENGTH > CopiedLength(1100)
    ensures PosAfterAsWritten(0, 5000) > BUFFER_SIZE
  {
  }

  /** With the copied length in place of the returned one, the position
      stays inside the buffer for every length `snprintf` can return. */
  lemma CopiedLengthStaysInBuffer(pos: int, len: nat)
    requires 0 <= pos < BUFFER_SIZE
    ensures 0 <= PosAfterAsWritten(pos, CopiedLength(len)) < BUFFER_SIZE
  {
  }

  /** The module-level state of log.c. */
  class LogSystem {
    const buffer: array<byte>
    var pos: int
    var initialized: bool
    /** `dnf_log_fd != -1`. */
    var fileOpen: bool
    /** The bytes written to the log file since it was created. */
    ghost var file: seq<byte>
    /** The lines accepted into the buffer since the log file was created. */
    ghost var accepted: seq<byte>

    /** The position is inside the buffer, and while the file is open the
        file followed by the pending bytes is every accepted line, in
        order. */
    ghost predicate Valid()
      reads this, buffer
    {
      buffer.Length == BUFFER_SIZE && 0 <= pos < BUFFER_SIZE
      && (fileOpen ==> initialized)
      && (fileOpen ==> file + buffer[..pos] == accepted)
    }

    /** The static initialisers: an empty buffer, no file, not initialised. */
    constructor ()
      ensures Valid() && fresh(buffer)
      ensures pos == 0 && !initialized && !fileOpen
    {
      buffer := new byte[BUFFER_SIZE](_ => 0);
      pos := 0;
      initialized := false;
      fileOpen := false;
      file := [];
      accepted := [];
    }

    /** `dnf_log_flush_buffer`: nothing when the buffer is empty, otherwise
        the pending bytes go to the file (if one is open) and the buffer is
        emptied. */
    method Flush()
      requires Valid()
      modifies this`pos, this`file
      ensures Valid()
      ensures pos == 0
      ensures file == old(file) + (if fileOpen then old(buffer[..pos]) else [])
    {
      if pos == 0 {
        return;
      }
      if fileOpen {
        file := file + buffer[..pos];
      }
      pos := 0;
    }

    /** `dnf_log_system_init`: nothing when already initialised; otherwise
        the file is created (`openOk` says whether `open` succeeded, and a
        created file starts empty), the buffer is zeroed and emptied and the
        flag is set. */
    method Init(openOk: bool)
      requires Valid()
      modifies this, buffer
      ensures Valid() && initialized
      ensures old(initialized) ==>
        pos == old(pos) && fileOpen == old(fileOpen) && file == old(file)
        && accepted == old(accepted) && buffer[..] == old(buffer[..])
      ensures !old(initialized) ==>
        pos == 0 && fileOpen == openOk && (openOk ==> file == []) && accepted == []
        && forall i :: 0 <= i < BUFFER_SIZE ==> buffer[i] == 0
    {
      if initialized {
        return;
      }
      fileOpen := openOk;
      if openOk {
        file := [];
      }
      forall i | 0 <= i < buffer.Length {
        buffer[i] := 0;
      }
      pos := 0;
      accepted := [];
      initialized := true;
    }

    /** `dnf_log_system_close`: nothing when not initialised; otherwise the
        rest of the buffer is flushed, the file closed and the flag cleared.
        If the file was open, it then holds every line accepted since it
        was created. */
    method Close()
      requires Valid()
      modifies this`pos, this`file, this`fileOpen, this`initialized
      ensures Valid()
      ensures !old(initialized) ==>
        pos == old(pos) && file == old(file) && fileOpen == old(fileOpen) && !initialized
      ensures old(initialized) ==> pos == 0 && !fileOpen && !initialized
      ensures old(initialized) && old(fileOpen) ==> file == accepted
    {
      if !initialized {
        return;
      }
      if pos > 0 {
        Flush();
      }
      fileOpen := false;
      initialized := false;
    }

    /** The filter, echo and buffer part of `dnf_log_message`.  `len` is the
        full length of the formatted line and `line` the bytes `snprintf`
        stored; the line is copied by its stored length (see
        `AsWrittenOverruns` for the returned length the source uses).
        Returns the stream the line is echoed to, or `None` when the level
        is filtered out. */
    method LogMessage(level: int, len: nat, line: seq<byte>) returns (echo: Option<Stream>)
      requires Valid()
      requires 0 <= level < LEVEL_COUNT && |line| == CopiedLength(len)
      modifies this`pos, this`file, this`accepted, buffer
      ensures Valid()
      ensures level < GLOBAL_LOG_LEVEL ==>
        echo == None && pos == old(pos) && file == old(file)
        && accepted == old(accepted) && buffer[..] == old(buffer[..])
      ensures level >= GLOBAL_LOG_LEVEL ==>
        echo == Some(StreamFor(level))
        && buffer[..pos] == BufferAfter(old(buffer[..pos]), line)
        && file == old(file) + (if fileOpen then FlushedBy(old(buffer[..pos]), line) else [])
        && accepted == old(accepted) + line
    {
      if level < GLOBAL_LOG_LEVEL {
        return None;
      }
      echo := Some(StreamFor(level));
      ghost var pending := buffer[..pos];
      if |line| >= BUFFER_SIZE || pos + |line| >= BUFFER_SIZE {
        Flush();
      }
      ghost var kept := buffer[..pos];
      assert kept == (if FlushesFirst(|pending|, |line|) then [] else pending);
      Append(line);
      assert buffer[..pos] == kept + line;
      accepted := accepted + line;
    }

    /** The `memcpy` and position update: `line` lands at `pos`. */
    method Append(line: seq<byte>)
      requires buffer.Length == BUFFER_SIZE && 0 <= pos && pos + |line| < BUFFER_SIZE
      modifies this`pos, buffer
      ensures pos == old(pos) + |line|
      ensures buffer[..pos] == old(buffer[..pos]) + line
    {
      forall k | 0 <= k < |line| {
        buffer[pos + k] := line[k];
      }
      assert buffer[..pos + |line|] == old(buffer[..pos]) + line;
      pos := pos + |line|;
    }
  }
}
