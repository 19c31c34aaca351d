/**
 * The console devices: `Stdin`, a FIFO of characters filled from the serial
 * line, and `Stdout`, which writes straight through to it. The serial line
 * is an input sequence on reads and an append-only output log on writes.
 */
module Stdio {
  import opened Base

  datatype FsError = Again | NotSupported

  /** `rcore_fs::vfs::Result<usize>`. */
  datatype FsResult = Ok(value: nat) | Err(error: FsError)

  datatype PollStatus = PollStatus(read: bool, write: bool, error: bool)

  /** `u8 -> char` (`From<u8> for char`): the character whose code point is the byte. */
  function ByteToChar(b: u8): (c: char)
    ensures c as int == b
  {
    b as char
  }

  /** `c as u8`: keeps the low eight bits of the code point. */
  function CharToByte(c: char): (b: u8)
    ensures (c as int - b) % 0x100 == 0
    ensures c as int < 0x100 ==> b == c as int
  {
    (c as int) % 0x100
  }

  /** A byte survives the trip through the character buffer. */
  lemma ByteCharRoundTrip(b: u8)
    ensures CharToByte(ByteToChar(b)) == b
  {
  }

  function BytesToChars(s: seq<u8>): (cs: seq<char>)
    ensures |cs| == |s|
    ensures forall i :: 0 <= i < |s| ==> cs[i] as int == s[i]
  {
    seq(|s|, i requires 0 <= i < |s| => ByteToChar(s[i]))
  }

  /** What one `Stdin::read_at` reports, and the byte it stores into `buf[0]`, if any. */
  datatype ReadOutcome = ReadOutcome(result: FsResult, stored: Option<u8>)

  /** The buffer after a read, and what the read reported. */
  datatype ReadStep = ReadStep(queue: seq<char>, outcome: ReadOutcome)

  /**
   * One `Stdin::read_at` on buffer contents `queue`, where `serial` is what
   * the serial line would deliver if asked.
   */
  function Read(queue: seq<char>, serial: seq<u8>): (s: ReadStep)
    ensures |queue| > 0 ==> s.queue == queue[1..] && s.outcome == ReadOutcome(Ok(1), Some(CharToByte(queue[0])))
    ensures |queue| == 0 ==> s.outcome == ReadOutcome(Err(Again), None)
    ensures |queue| == 0 ==> |s.queue| == |serial| && forall i :: 0 <= i < |serial| ==> s.queue[i] as int == serial[i]
  {
    if |queue| > 0 then ReadStep(queue[1..], ReadOutcome(Ok(1), Some(CharToByte(queue[0]))))
    else ReadStep(queue + BytesToChars(serial), ReadOutcome(Err(Again), None))
  }

  /** The outcomes of successive reads, the k-th one offered `serials[k]`. */
  function Reads(queue: seq<char>, serials: seq<seq<u8>>): (outs: seq<ReadOutcome>)
    ensures |outs| == |serials|
    ensures |serials| > 0 ==> outs[0] == Read(queue, serials[0]).outcome
    decreases |serials|
  {
    if serials == [] then []
    else
      var step := Read(queue, serials[0]);
      [step.outcome] + Reads(step.queue, serials[1..])
  }

  /**
   * Reading a buffer of n characters n times yields them front to back, one
   * per call, whatever the serial line holds meanwhile.
   */
  lemma {:induction false} ReadsDrainInOrder(queue: seq<char>, serials: seq<seq<u8>>)
    requires |serials| == |queue|
    ensures forall i :: 0 <= i < |queue| ==>
      Reads(queue, serials)[i] == ReadOutcome(Ok(1), Some(CharToByte(queue[i])))
    decreases |queue|
  {
    if |queue| > 0 {
      ReadsDrainInOrder(queue[1..], serials[1..]);
      var outs := Reads(queue, serials);
      assert outs == [ReadOutcome(Ok(1), Some(CharToByte(queue[0])))] + Reads(queue[1..], serials[1..]);
      forall i | 0 <= i < |queue|
        ensures outs[i] == ReadOutcome(Ok(1), Some(CharToByte(queue[i])))
      {
        if i > 0 {
          assert outs[i] == Reads(queue[1..], serials[1..])[i - 1];
        }
      }
    }
  }

  /**
   * FIFO round trip: a read on an empty buffer answers Again and takes in
   * the serial bytes; the next |bytes| reads return exactly those bytes in
   * order.
   */
  lemma SerialBytesReadBack(bytes: seq<u8>, serials: seq<seq<u8>>)
    requires |bytes| <= 255 && |serials| == |bytes|
    ensures |Reads([], [bytes] + serials)| == |bytes| + 1
    ensures Reads([], [bytes] + serials)[0] == ReadOutcome(Err(Again), None)
    ensures forall i :: 0 <= i < |bytes| ==>
      Reads([], [bytes] + serials)[i + 1] == ReadOutcome(Ok(1), Some(bytes[i]))
  {
    var step := Read([], bytes);
    var outs := Reads([], [bytes] + serials);
    assert ([bytes] + serials)[1..] == serials;
    assert outs == [step.outcome] + Reads(step.queue, serials);
    ReadsDrainInOrder(step.queue, serials);
    forall i | 0 <= i < |bytes|
      ensures outs[i + 1] == ReadOutcome(Ok(1), Some(bytes[i]))
    {
      assert outs[i + 1] == Reads(step.queue, serials)[i];
      assert CharToByte(step.queue[i]) == bytes[i];
    }
  }

  /** The console input buffer. */
  class Stdin {
    var buffer: seq<char>

    constructor ()
      ensures buffer == []
    {
      buffer := [];
    }

    /** `Stdin::push`: append at the back. */
    method Push(c: char)
      modifies this
      ensures buffer == old(buffer) + [c]
    {
      buffer := buffer + [c];
    }

    /** `Stdin::pop` on a non-empty buffer: remove and return the front. */
    method Pop() returns (c: char)
      requires |buffer| > 0
      modifies this
      ensures c == old(buffer)[0] && buffer == old(buffer)[1..]
      ensures old(buffer) == [c] + buffer
    {
      c := buffer[0];
      buffer := buffer[1..];
    }

    /** `Stdin::can_read`. */
    function CanRead(): (r: bool)
      reads this
      ensures r <==> |buffer| > 0
    {
      |buffer| > 0
    }

    /**
     * `Stdin::read_at`. `serial` is what `serial_read` delivers into its
     * 255-byte scratch buffer. On a readable buffer the source pops the front
     * character and then stores it at `buf[0]`, which panics on an empty
     * slice after the character is gone; a readable buffer therefore demands
     * a non-empty `buf`.
     */
    method ReadAt(offset: nat, buf: array<u8>, serial: seq<u8>) returns (r: FsResult)
      requires |serial| <= 255
      requires |buffer| > 0 ==> buf.Length >= 1
      modifies this, buf
      ensures var step := Read(old(buffer), serial);
        && buffer == step.queue
        && r == step.outcome.result
        && (step.outcome.stored.Some? ==> buf[0] == step.outcome.stored.value && buf[1..] == old(buf[1..]))
        && (step.outcome.stored.None? ==> buf[..] == old(buf[..]))
    {
      if CanRead() {
        var c := Pop();
        buf[0] := CharToByte(c);
        r := Ok(1);
      } else {
        for i := 0 to |serial|
          invariant buffer == old(buffer) + BytesToChars(serial[..i])
          modifies this
        {
          assert BytesToChars(serial[..i + 1]) == BytesToChars(serial[..i]) + [ByteToChar(serial[i])];
          Push(ByteToChar(serial[i]));
        }
        assert serial[..|serial|] == serial;
        r := Err(Again);
      }
    }

    /** `INode::poll for Stdin` (always `Ok`): readable iff characters are buffered. */
    function Poll(): (s: PollStatus)
      reads this
      ensures s.read <==> |buffer| > 0
      ensures !s.write && !s.error
    {
      PollStatus(CanRead(), false, false)
    }
  }

  /** The ioctl command codes Stdout recognises: four distinct codes; the values shown are the x86 Linux ones. */
  const TCGETS: u32 := 0x5401
  const TIOCSPGRP: u32 := 0x5410
  const TIOCGPGRP: u32 := 0x540F
  const TIOCGWINSZ: u32 := 0x5413

  /** What `io_control` returns, and the value it stores through its `data` pointer, if any. */
  datatype IoctlOutcome = IoctlOutcome(result: FsResult, stored: Option<u32>)

  /** The console output device. `output` is everything handed to `serial_write`. */
  class Stdout {
    var output: seq<u8>

    constructor ()
      ensures output == []
    {
      output := [];
    }

    /** `Stdout::write_at`: all of `buf` goes to the serial line. */
    method WriteAt(offset: nat, buf: seq<u8>) returns (r: FsResult)
      modifies this
      ensures output == old(output) + buf
      ensures r == Ok(|buf|)
    {
      output := output + buf;
      r := Ok(|buf|);
    }

    /** `INode::poll for Stdout` (always `Ok`): writable, never readable. */
    function Poll(): (s: PollStatus)
      ensures !s.read && s.write && !s.error
    {
      PollStatus(false, true, false)
    }

    /**
     * `Stdout::io_control`: pretend to be a terminal. The four terminal
     * queries succeed with 0; TIOCGPGRP also stores process group 0 through
     * `data`; every other command is NotSupported.
     */
    function IoControl(cmd: u32, data: nat): (r: IoctlOutcome)
      ensures r.result.Ok? <==> cmd in {TCGETS, TIOCGWINSZ, TIOCSPGRP, TIOCGPGRP}
      ensures r.result.Ok? ==> r.result.value == 0
      ensures r.result.Err? ==> r.result.error == NotSupported
      ensures r.stored.Some? <==> cmd == TIOCGPGRP
      ensures r.stored.Some? ==> r.stored.value == 0
    {
      if cmd == TCGETS || cmd == TIOCGWINSZ || cmd == TIOCSPGRP then IoctlOutcome(Ok(0), None)
      else if cmd == TIOCGPGRP then IoctlOutcome(Ok(0), Some(0))
      else IoctlOutcome(Err(NotSupported), None)
    }
  }
}
