/** core/src/logger.c, the other revision of the log buffer: 32 KiB, saved
    with raylib's `SaveFileData`, and a message that does not fit is
    dropped after the flush instead of being buffered.  A formatted message
    is an opaque byte sequence; the file is a ghost byte sequence. */
module Logger {
  import opened Numeric
  import Log

  const BUFFER_SIZE: int := 32768
  const MAX_MSG_LENGTH: int := 8192
  /** `sprintf_s` returns -1 on failure, and `message_len` is a `uint32_t`. */
  const UINT32_LIMIT: int := 0x1_0000_0000

  // `dnf_log_level` of core/include/logger.h.
  const LEVEL_TRACE: int := 0
  const LEVEL_DEBUG: int := 1
  const LEVEL_INFO: int := 2
  const LEVEL_WARN: int := 3
  const LEVEL_ERROR: int := 4
  const LEVEL_FATAL: int := 5
  const LEVEL_COUNT: int := 6

  /** `log_level_names`, indexed by level. */
  const LEVEL_NAMES: seq<string> := ["TRACE", "DEBUG", "INFO", "WARN", "ERROR", "FATAL"]

  /** There is one name per level, and no two levels share a name. */
  lemma LevelNamesMatchLevels()
    ensures |LEVEL_NAMES| == LEVEL_COUNT
    ensures forall i, j :: 0 <= i < j < LEVEL_COUNT ==> LEVEL_NAMES[i] != LEVEL_NAMES[j]
  {
  }

  /** `is_error ? stderr : stdout`: ERROR and FATAL go to `stderr`. */
  function StreamFor(level: int): (s: Stream)
    requires 0 <= level < LEVEL_COUNT
    ensures s == Stderr <==> level == LEVEL_ERROR || level == LEVEL_FATAL
  {
    if level > LEVEL_WARN then Stderr else Stdout
  }

  /** Whether a message of `len` bytes is refused by a buffer at `pos`. */
  predicate Overflows(pos: int, len: int)
  {
    len >= MAX_MSG_LENGTH || pos + len >= BUFFER_SIZE
  }

  /** The buffer contents after a message is logged behind `pending`;
      `saveOk` says whether `SaveFileData` would succeed. */
  function BufferAfter(pending: seq<byte>, len: int, line: seq<byte>, saveOk: bool): (r: seq<byte>)
    // a message that fits is appended
    ensures !Overflows(|pending|, len) ==> r == pending + line
    // one that does not is never buffered: the buffer keeps what it had,
    // or is emptied by a successful save
    ensures Overflows(|pending|, len) ==> r == (if saveOk then [] else pending)
    // so a buffer that fits keeps fitting
    ensures |pending| < BUFFER_SIZE && (!Overflows(|pending|, len) ==> |line| == len) ==> |r| < BUFFER_SIZE
  {
    if Overflows(|pending|, len) then
      (if |pending| == 0 || !saveOk then pending else [])
    else pending + line
  }

  /** The two revisions on a line that does not fit their own buffers, when
      the file write succeeds: log.c flushes `p1` and keeps the line as the
      only content of its buffer, logger.c flushes `p2` and loses the line.
      And a line log.c must flush for would still fit logger.c's buffer
      behind the same pending bytes. */
  lemma RevisionsDifferOnOverflow(p1: seq<byte>, p2: seq<byte>, line: seq<byte>)
    requires |p1| < Log.BUFFER_SIZE && |line| < Log.MAX_LINE_LENGTH && Log.FlushesFirst(|p1|, |line|)
    requires |p2| < BUFFER_SIZE && Overflows(|p2|, |line|)
    ensures Log.FlushedBy(p1, line) == p1 && Log.BufferAfter(p1, line) == line
    ensures BufferAfter(p2, |line|, line, true) == []
    ensures line != [] ==> Log.BufferAfter(p1, line) != BufferAfter(p2, |line|, line, true)
    ensures !Overflows(|p1|, |line|) && BufferAfter(p1, |line|, line, true) == p1 + line
  {
  }

  /** The module-level state of logger.c. */
  class LoggerState {
    const buffer: array<byte>
    var pos: int
    /** The contents of `./logs/dnf_game.log`. */
    ghost var file: seq<byte>
    /** Every chunk saved so far, in order. */
    ghost var saved: seq<byte>
    /** Every message appended so far, in order. */
    ghost var accepted: seq<byte>

    /** The position is inside the buffer, and the saved chunks followed by
        the pending bytes are every appended message, in order. */
    ghost predicate Valid()
      reads this, buffer
    {
      buffer.Length == BUFFER_SIZE && 0 <= pos < BUFFER_SIZE
      && saved + buffer[..pos] == accepted
    }

    /** The static initialisers: an empty buffer. */
    constructor ()
      ensures Valid() && fresh(buffer) && pos == 0 && file == []
    {
      buffer := new byte[BUFFER_SIZE](_ => 0);
      pos := 0;
      file := [];
      saved := [];
      accepted := [];
    }

    /** `flush_log_buffer_to_file`.  `saveOk` is the result of
        `SaveFileData`, which replaces the whole file with the pending
        bytes, so the file holds only the last chunk saved. */
    method Flush(saveOk: bool) returns (ok: bool)
      requires Valid()
      modifies this`pos, this`file, this`saved
      ensures Valid()
      // an empty buffer needs no write
      ensures old(pos) == 0 ==> ok && pos == 0 && file == old(file) && saved == old(saved)
      // a failed write keeps everything
      ensures old(pos) > 0 && !saveOk ==> !ok && pos == old(pos) && file == old(file) && saved == old(saved)
      // a successful one empties the buffer into the file
      ensures old(pos) > 0 && saveOk ==>
        ok && pos == 0 && file == old(buffer[..pos]) && saved == old(saved) + old(buffer[..pos])
    {
      if pos == 0 {
        return true;
      }
      if !saveOk {
        return false;
      }
      file := buffer[..pos];
      saved := saved + buffer[..pos];
      pos := 0;
      return true;
    }

    /** `dnf_logger_shutdown`: one last flush, whose result is ignored.
        When it succeeds, every message ever appended has been saved. */
    method Shutdown(saveOk: bool)
      requires Valid()
      modifies this`pos, this`file, this`saved
      ensures Valid()
      ensures saveOk ==> pos == 0 && saved == accepted
      // `SaveFileData` overwrites: the file holds the last chunk only
      ensures file == (if saveOk && old(pos) > 0 then old(buffer[..pos]) else old(file))
      ensures !saveOk ==> pos == old(pos) && file == old(file) && saved == old(saved)
    {
      var _ := Flush(saveOk);
    }

    /** The echo and buffer part of `dnf_log_message`.  `len` is
        `message_len` and `line` the formatted message, `len` bytes long
        when it fits the 8 KiB format buffer.  Returns the stream the
        message is echoed to. */
    method LogMessage(level: int, len: int, line: seq<byte>, saveOk: bool) returns (echo: Stream)
      requires Valid()
      requires 0 <= level < LEVEL_COUNT && 0 <= len < UINT32_LIMIT
      requires len < MAX_MSG_LENGTH ==> |line| == len
      modifies this`pos, this`file, this`saved, this`accepted, buffer
      ensures Valid()
      ensures echo == StreamFor(level)
      ensures buffer[..pos] == BufferAfter(old(buffer[..pos]), len, line, saveOk)
      ensures accepted == old(accepted) + (if Overflows(old(pos), len) then [] else line)
      ensures file == (if Overflows(old(pos), len) && old(pos) > 0 && saveOk then old(buffer[..pos]) else old(file))
    {
      echo := if level > LEVEL_WARN then Stderr else Stdout;
      if len >= MAX_MSG_LENGTH || pos + len >= BUFFER_SIZE {
        var _ := Flush(saveOk);
      } else {
        Append(line);
        accepted := accepted + line;
      }
    }

    /** The `memcpy` and position update: `line` lands at `pos`. */
    method Append(line: seq<byte>)
      requires buffer.Length == BUFFER_SIZE && 0 <= pos && pos + |line| < BUFFER_SIZE
      modifies this`pos, buffer
      ensures pos == old(pos) + |line|
      ensures buffer[..pos] == old(buffer[..pos]) + line
    {
      forall k | 0 <= k < |line| {
        buffer[pos + k] := line[k];
      }
      assert buffer[..pos + |line|] == old(buffer[..pos]) + line;
      pos := pos + |line|;
    }
  }
}
