// Length-prefixed frames over a byte stream that delivers them in arbitrary pieces,
// with timeouts in between.
module Framing {
  import opened Midi

  type Bytes = seq<byte>

  const MAX_FRAME_BYTES: nat := 16 * 1024 * 1024

  // ------------------------------------------------------------------- the stream

  /** What one read does: deliver at most n + 1 bytes, time out, find the end of the stream, or fail. */
  datatype Event = Arrives(n: nat) | TimesOut | Closes | Fails

  /** The world as one round of the read loop finds it; the last two flags are loaded after a timeout. */
  datatype Round = Round(stopping: bool, done: bool, late: bool, event: Event, lateAfter: bool, doneAfter: bool)

  datatype Status =
    | Complete
    | Idle            // would block: nothing has arrived
    | Interrupted     // the server is stopping
    | PlaybackDone
    | DeadlineExceeded
    | EndOfStream
    | Broken
    | StillReading    // no more rounds in the script

  datatype Options = Options(watchesDone: bool, returnsOnIdle: bool, hasDeadline: bool)

  /** A read gives no more than there is and no more than fits; with nothing there it times out. */
  function Delivered(event: Event, available: nat, room: nat): nat {
    if !event.Arrives? || available == 0 || room == 0 then 0
    else if event.n + 1 <= available && event.n + 1 <= room then event.n + 1
    else if available <= room then available else room
  }

  class Stream {
    var input: Bytes
    var script: seq<Round>

    constructor (input: Bytes, script: seq<Round>)
      ensures this.input == input && this.script == script
    {
      this.input, this.script := input, script;
    }

    method Read(buffer: array<byte>, offset: nat, event: Event) returns (read: nat)
      requires offset <= buffer.Length
      modifies this`input, buffer
      ensures read == Delivered(event, |old(input)|, buffer.Length - offset)
      ensures read <= |old(input)| && offset + read <= buffer.Length && input == old(input)[read..]
      ensures buffer[..] == old(buffer[..offset]) + old(input)[..read] + old(buffer[offset + read..])
    {
      read := Delivered(event, |input|, buffer.Length - offset);
      for i := 0 to read
        invariant input == old(input)
        invariant buffer[..] == old(buffer[..offset]) + input[..i] + old(buffer[offset + i..])
      {
        buffer[offset + i] := input[i];
      }
      input := input[read..];
    }

    /** Fill the buffer, keeping what has arrived across timeouts. */
    method ReadExact(buffer: array<byte>, o: Options) returns (status: Status, ghost taken: nat)
      modifies this, buffer
      ensures (status, taken, script) == Reading(old(input), old(script), buffer.Length, 0, o)
      ensures taken <= |old(input)| && taken <= buffer.Length && input == old(input)[taken..]
      ensures buffer[..taken] == old(input)[..taken]
    {
      hide Delivered;
      var offset: nat := 0;
      while offset < buffer.Length
        invariant offset <= buffer.Length && offset <= |old(input)| && input == old(input)[offset..]
        invariant buffer[..offset] == old(input)[..offset]
        invariant Reading(old(input), old(script), buffer.Length, 0, o)
            == Reading(old(input), script, buffer.Length, offset, o)
        decreases |script|
      {
        taken := offset;
        if script == [] {
          return StillReading, offset;
        }
        var round := script[0];
        script := script[1..];
        if round.stopping {
          return Interrupted, offset;
        }
        if o.watchesDone && round.done {
          return PlaybackDone, offset;
        }
        if o.hasDeadline && round.late {
          return DeadlineExceeded, offset;
        }
        if round.event.Closes? {
          return EndOfStream, offset;
        }
        if round.event.Fails? {
          return Broken, offset;
        }
        var read := Read(buffer, offset, round.event);
        if read > 0 {
          offset := offset + read;
        } else {
          if o.hasDeadline && round.lateAfter {
            return DeadlineExceeded, offset;
          }
          if (offset == 0 && o.returnsOnIdle) || (o.watchesDone && round.doneAfter) {
            return Idle, offset;
          }
        }
      }
      return Complete, offset;
    }

    /** Read one frame: a header that says how long it is, then its payload. */
    method ReadFrame(o: Options) returns (r: Result)
      modifies this
      ensures (r, input, script) == Frame(old(input), old(script), o)
    {
      hide Reading;
      var header := new byte[4];
      var status, taken := ReadExact(header, o);
      if status != Complete {
        return NoFrame(status);
      }
      ReadingIsBounded(old(input), old(script), 4, 0, o);
      assert header[..] == old(input)[..4];
      var size := FromBigEndian(header[..]);
      if size > MAX_FRAME_BYTES {
        return TooLarge;
      }
      var data := new byte[size];
      ghost var before, rounds := input, script;
      status, taken := ReadExact(data, o.(returnsOnIdle := false));
      if status != Complete {
        return NoFrame(status);
      }
      ReadingIsBounded(before, rounds, size, 0, o.(returnsOnIdle := false));
      assert data[..] == data[..size];
      return Payload(data[..]);
    }

    /** The connection's read loop: timeouts are ignored, anything else unusual ends it. */
    method ReadFrames(o: Options) returns (frames: seq<Bytes>, last: Result)
      modifies this
      ensures (frames, last) == Frames(old(input), old(script), o)
    {
      hide Frame;
      frames := [];
      while true
        invariant Frames(old(input), old(script), o).0 == frames + Frames(input, script, o).0
        invariant Frames(old(input), old(script), o).1 == Frames(input, script, o).1
        decreases |script|
      {
        ghost var before, rounds := input, script;
        last := ReadFrame(o);
        FrameUsesRounds(before, rounds, o);
        if last.Payload? {
          frames := frames + [last.data];
        } else if last.TooLarge? || !IsTimeout(last.status) {
          assert frames + [] == frames;
          return;
        }
      }
    }
  }

  // ---------------------------------------------------------------- what is computed

  datatype Result = Payload(data: Bytes) | TooLarge | NoFrame(status: Status)

  /** How reading `need` bytes ends, having taken `offset` of them already: status, bytes taken, rounds left. */
  function Reading(input: Bytes, script: seq<Round>, need: nat, offset: nat, o: Options): (Status, nat, seq<Round>)
    requires offset <= need && offset <= |input|
    decreases |script|
  {
    if offset == need then (Complete, offset, script)
    else if script == [] then (StillReading, offset, [])
    else
      var (round, rest) := (script[0], script[1..]);
      if round.stopping then (Interrupted, offset, rest)
      else if o.watchesDone && round.done then (PlaybackDone, offset, rest)
      else if o.hasDeadline && round.late then (DeadlineExceeded, offset, rest)
      else if round.event.Closes? then (EndOfStream, offset, rest)
      else if round.event.Fails? then (Broken, offset, rest)
      else
        var read := Delivered(round.event, |input| - offset, need - offset);
        if read > 0 then Reading(input, rest, need, offset + read, o)
        else if o.hasDeadline && round.lateAfter then (DeadlineExceeded, offset, rest)
        else if (offset == 0 && o.returnsOnIdle) || (o.watchesDone && round.doneAfter) then (Idle, offset, rest)
        else Reading(input, rest, need, offset, o)
  }

  function FromBigEndian(header: Bytes): nat
    requires |header| == 4
  {
    var (b0: int, b1: int, b2: int, b3: int) := (header[0], header[1], header[2], header[3]);
    ((b0 * 256 + b1) * 256 + b2) * 256 + b3
  }

  function Frame(input: Bytes, script: seq<Round>, o: Options): (Result, Bytes, seq<Round>) {
    ReadingIsBounded(input, script, 4, 0, o);
    var (status, taken, rest) := Reading(input, script, 4, 0, o);
    if status != Complete then (NoFrame(status), input[taken..], rest)
    else
      var size := FromBigEndian(input[..4]);
      if size > MAX_FRAME_BYTES then (TooLarge, input[4..], rest)
      else
        ReadingIsBounded(input[4..], rest, size, 0, o.(returnsOnIdle := false));
        var (status', taken', rest') := Reading(input[4..], rest, size, 0, o.(returnsOnIdle := false));
        if status' != Complete then (NoFrame(status'), input[4..][taken'..], rest')
        else (Payload(input[4..][..size]), input[4..][size..], rest')
  }

  /** A timeout leaves the connection open; with the script at its end nothing more can be told. */
  predicate IsTimeout(status: Status) {
    status in {Idle, PlaybackDone, DeadlineExceeded}
  }

  function Frames(input: Bytes, script: seq<Round>, o: Options): (seq<Bytes>, Result)
    decreases |script|
  {
    FrameUsesRounds(input, script, o);
    var (r, input', script') := Frame(input, script, o);
    if r.Payload? then
      var (more, last) := Frames(input', script', o);
      ([r.data] + more, last)
    else if r.TooLarge? || !IsTimeout(r.status) then ([], r)
    else Frames(input', script', o)
  }

  lemma {:induction false} ReadingIsBounded(input: Bytes, script: seq<Round>, need: nat, offset: nat, o: Options)
    requires offset <= need && offset <= |input|
    ensures var (status, taken, rest) := Reading(input, script, need, offset, o);
            && offset <= taken <= need && taken <= |input| && |rest| <= |script|
            && (status == Complete <==> taken == need)
            && (offset < need && status != StillReading ==> |rest| < |script|)
    decreases |script|
  {
    ReadingOne(input, script, need, offset, o);
    if offset < need && script != [] {
      var read := Delivered(script[0].event, |input| - offset, need - offset);
      ReadingIsBounded(input, script[1..], need, offset + read, o);
    }
    hide Reading, Delivered;
  }

  /** One round either ends the reading or goes on with what it delivered. */
  lemma ReadingOne(input: Bytes, script: seq<Round>, need: nat, offset: nat, o: Options)
    requires offset <= need && offset <= |input|
    ensures var (status, taken, rest) := Reading(input, script, need, offset, o);
            if offset == need then status == Complete && taken == offset && rest == script
            else if script == [] then status == StillReading && taken == offset && rest == []
            else
              var read := Delivered(script[0].event, |input| - offset, need - offset);
              || (status !in {Complete, StillReading} && taken == offset && rest == script[1..])
              || (status, taken, rest) == Reading(input, script[1..], need, offset + read, o)
  {
  }

  lemma FrameUsesRounds(input: Bytes, script: seq<Round>, o: Options)
    ensures var (r, input', script') := Frame(input, script, o);
            r != NoFrame(StillReading) ==> |script'| < |script|
  {
    hide Reading;
    ReadingIsBounded(input, script, 4, 0, o);
    var (status, taken, rest) := Reading(input, script, 4, 0, o);
    if status == Complete && FromBigEndian(input[..4]) <= MAX_FRAME_BYTES {
      ReadingIsBounded(input[4..], rest, FromBigEndian(input[..4]), 0, o.(returnsOnIdle := false));
    }
  }

  // ------------------------------------------------------------------- the writer

  const U32: nat := 0x1_0000_0000

  function BigEndian(n: nat): (header: Bytes)
    requires n < U32
    ensures |header| == 4
  {
    [n / 0x100_0000, n / 0x1_0000 % 256, n / 256 % 256, n % 256]
  }

  /** A header is read back, and its bytes stand for the length, most significant first. */
  lemma BigEndianRoundTrip(n: nat)
    requires n < U32
    ensures FromBigEndian(BigEndian(n)) == n
    ensures var h := BigEndian(n);
            (h[0] as int) * 16_777_216 + (h[1] as int) * 65_536 + (h[2] as int) * 256 + h[3] == n
  {
    FourDigits(n);
    FromDigits(BigEndian(n));
  }

  lemma FromDigits(h: Bytes)
    requires |h| == 4
    ensures FromBigEndian(h)
            == (h[0] as int) * 16_777_216 + (h[1] as int) * 65_536 + (h[2] as int) * 256 + h[3]
  {
  }

  lemma FourDigits(n: int)
    ensures n / 0x100_0000 * 16_777_216 + n / 0x1_0000 % 256 * 65_536 + n / 256 % 256 * 256 + n % 256 == n
  {
    Shift(n, 256);
    Shift(n / 256, 256);
    Shift(n / 0x1_0000, 256);
    Halves(n);
  }

  lemma Shift(n: int, d: int)
    requires d > 0
    ensures n == n / d * d + n % d
  {
  }

  lemma Halves(n: int)
    ensures n / 0x1_0000 == n / 256 / 256 && n / 0x100_0000 == n / 0x1_0000 / 256
  {
  }

  /** The length is truncated to 32 bits before it is written. */
  function Encoded(payload: Bytes): (frame: Bytes)
    ensures |frame| == 4 + |payload|
  {
    BigEndian(|payload| % U32) + payload
  }

  function EncodedAll(payloads: seq<Bytes>): Bytes {
    if payloads == [] then [] else Encoded(payloads[0]) + EncodedAll(payloads[1..])
  }

  // --------------------------------------------------------------------- theorems

  /** Nobody stops the server, playback does not end, no deadline passes and the connection stays up. */
  predicate Quiet(script: seq<Round>) {
    forall r :: r in script ==>
      !r.stopping && !r.done && !r.late && !r.lateAfter && !r.doneAfter && (r.event.Arrives? || r.event.TimesOut?)
  }

  function Arrivals(script: seq<Round>): nat {
    if script == [] then 0 else (if script[0].event.Arrives? then 1 else 0) + Arrivals(script[1..])
  }

  lemma {:induction false} QuietReading(input: Bytes, script: seq<Round>, need: nat, offset: nat, o: Options)
    requires offset <= need && offset <= |input| && Quiet(script)
    ensures var (status, taken, rest) := Reading(input, script, need, offset, o);
            && Quiet(rest)
            && (status == Complete || (status == StillReading && rest == [])
                || (status == Idle && taken == offset == 0 && o.returnsOnIdle))
            && (need <= |input| ==> Arrivals(rest) + taken >= Arrivals(script) + offset)
    decreases |script|
  {
    if offset < need && script != [] {
      assert script[0] in script;
      var read := Delivered(script[0].event, |input| - offset, need - offset);
      QuietReading(input, script[1..], need, offset + read, o);
    }
  }

  /** One frame at the front of the input: it comes whole, or not yet; an idle timeout takes nothing. */
  lemma QuietFrame(payload: Bytes, more: Bytes, script: seq<Round>, o: Options)
    requires |payload| <= 16_777_216 && Quiet(script)
    ensures var (r, input, rest) := Frame(Encoded(payload) + more, script, o);
            && Quiet(rest)
            && (|| (r == Payload(payload) && input == more && Arrivals(rest) + |Encoded(payload)| >= Arrivals(script))
                || (r == NoFrame(Idle) && o.returnsOnIdle && input == Encoded(payload) + more
                   && Arrivals(rest) >= Arrivals(script))
                || (r == NoFrame(StillReading) && Arrivals(script) < |Encoded(payload)|))
  {
    hide Reading, Encoded, FromBigEndian;
    var input := Encoded(payload) + more;
    EncodedParts(payload, more);
    QuietReading(input, script, 4, 0, o);
    ReadingIsBounded(input, script, 4, 0, o);
    var (status, taken, rest) := Reading(input, script, 4, 0, o);
    if status == Complete {
      var o' := o.(returnsOnIdle := false);
      QuietReading(payload + more, rest, |payload|, 0, o');
      ReadingIsBounded(payload + more, rest, |payload|, 0, o');
      Parts(payload, more);
    } else if status == Idle {
      assert input[0..] == input;
    }
  }

  /** What the reader sees of a frame at the front of the input. */
  lemma EncodedParts(payload: Bytes, more: Bytes)
    requires |payload| < U32
    ensures var input := Encoded(payload) + more;
            FromBigEndian(input[..4]) == |payload| && input[4..] == payload + more
  {
    hide BigEndian, FromBigEndian;
    BigEndianRoundTrip(|payload|);
    assert (Encoded(payload) + more)[..4] == BigEndian(|payload|);
  }

  lemma Parts(a: Bytes, b: Bytes)
    ensures (a + b)[..|a|] == a && (a + b)[|a|..] == b
  {
  }

  lemma QuietSilence(script: seq<Round>, o: Options)
    requires Quiet(script)
    ensures var (r, input, rest) := Frame([], script, o);
            Quiet(rest) && input == [] && (r == NoFrame(Idle) || r == NoFrame(StillReading))
  {
    hide Reading;
    QuietReading([], script, 4, 0, o);
    ReadingIsBounded([], script, 4, 0, o);
  }

  /**
   * However the stream is cut into reads and whatever timeouts come in between, the reader
   * yields the payloads that were written, in order; with enough arrivals, all of them.
   */
  lemma {:induction false} FramesRoundTrip(payloads: seq<Bytes>, script: seq<Round>, o: Options)
    requires Quiet(script) && forall p :: p in payloads ==> |p| <= 16_777_216
    ensures var (frames, last) := Frames(EncodedAll(payloads), script, o);
            && frames <= payloads && last == NoFrame(StillReading)
            && (Arrivals(script) >= |EncodedAll(payloads)| ==> frames == payloads)
    decreases |script|
  {
    hide Frame, Encoded, Reading;
    var input := EncodedAll(payloads);
    FrameUsesRounds(input, script, o);
    var (r, input', script') := Frame(input, script, o);
    if payloads == [] {
      QuietSilence(script, o);
      if r == NoFrame(Idle) { FramesRoundTrip(payloads, script', o); }
    } else {
      QuietFrame(payloads[0], EncodedAll(payloads[1..]), script, o);
      if r.Payload? {
        FramesRoundTrip(payloads[1..], script', o);
        assert payloads == [payloads[0]] + payloads[1..];
      } else if r == NoFrame(Idle) {
        FramesRoundTrip(payloads, script', o);
      }
    }
  }

  /** A frame that arrives whole is read back exactly when it is within the limit. */
  lemma RoundTripExactlyWithinTheLimit(payload: Bytes, more: Bytes, script: seq<Round>, o: Options)
    requires Quiet(script) && !o.returnsOnIdle && Arrivals(script) >= |Encoded(payload)|
    ensures Frame(Encoded(payload) + more, script, o).0 == Payload(payload) <==> |payload| <= 16_777_216
  {
    if |payload| <= 16_777_216 {
      QuietFrame(payload, more, script, o);
    } else {
      hide Reading, BigEndian, FromBigEndian;
      var input := Encoded(payload) + more;
      BigEndianRoundTrip(|payload| % U32);
      assert input[..4] == BigEndian(|payload| % U32);
      assert |input[4..][..|payload| % U32]| == |payload| % U32;
    }
  }

  /**
   * What comes of a frame above the limit: it is refused, unless its truncated length hides that, and
   * then it is cut off.
   */
  lemma OversizedFrame(payload: Bytes, more: Bytes, script: seq<Round>, o: Options)
    requires Quiet(script) && !o.returnsOnIdle && Arrivals(script) >= |Encoded(payload)| && |payload| > 16_777_216
    ensures Frame(Encoded(payload) + more, script, o).0
            == if |payload| % U32 > 16_777_216 then TooLarge else Payload(payload[..|payload| % U32])
  {
    hide Reading, BigEndian, FromBigEndian;
    var input, size := Encoded(payload) + more, |payload| % U32;
    BigEndianRoundTrip(size);
    assert input[..4] == BigEndian(size) && input[4..] == payload + more;
    QuietReading(input, script, 4, 0, o);
    ReadingIsBounded(input, script, 4, 0, o);
    var (_, _, rest) := Reading(input, script, 4, 0, o);
    if size <= 16_777_216 {
      QuietReading(input[4..], rest, size, 0, o.(returnsOnIdle := false));
      ReadingIsBounded(input[4..], rest, size, 0, o.(returnsOnIdle := false));
      assert (payload + more)[..size] == payload[..size];
    }
  }

  /** One byte arrives in each of n rounds. */
  function OneByteEach(n: nat): (script: seq<Round>)
    ensures |script| == n && Quiet(script) && Arrivals(script) == n
  {
    if n == 0 then [] else [Round(false, false, false, Arrives(0), false, false)] + OneByteEach(n - 1)
  }

  /** A frame that the writer sends and the reader refuses: one byte above the limit. */
  lemma OneByteTooMany(o: Options) returns (payload: Bytes, script: seq<Round>)
    requires !o.returnsOnIdle
    ensures |payload| == 16_777_217 && Quiet(script) && Arrivals(script) == |Encoded(payload)|
    ensures Frame(Encoded(payload), script, o).0 == TooLarge
  {
    hide Encoded, Frame, OneByteEach;
    payload := seq(16_777_217, _ => 0);
    script := OneByteEach(|Encoded(payload)|);
    OversizedFrame(payload, [], script, o);
    assert Encoded(payload) + [] == Encoded(payload);
  }

  /** While a script ends in the middle of a read, what follows it goes on from there. */
  lemma {:induction false} ReadsOn(input: Bytes, script: seq<Round>, more: seq<Round>, need: nat, offset: nat,
                                  o: Options)
    requires offset <= need && offset <= |input| && Reading(input, script, need, offset, o).0 == StillReading
    ensures var taken := Reading(input, script, need, offset, o).1;
            && taken < need && taken <= |input|
            && Reading(input, script + more, need, offset, o) == Reading(input, more, need, taken, o)
    decreases |script|
  {
    if script == [] {
      assert script + more == more;
    } else {
      assert (script + more)[0] == script[0] && (script + more)[1..] == script[1..] + more;
      var read := Delivered(script[0].event, |input| - offset, need - offset);
      ReadsOn(input, script[1..], more, need, offset + read, o);
    }
  }

  /**
   * What ends a read that has not all it needs: in this order, the server stopping, the end of playback
   * if it is watched, the deadline, the connection; after a timeout, the deadline again, then silence
   * before the first byte or the end of playback. Every time what has arrived stays taken.
   */
  lemma TroubleEndsTheRead(input: Bytes, quiet: seq<Round>, round: Round, rest: seq<Round>, need: nat, o: Options)
    requires Reading(input, quiet, need, 0, o).0 == StillReading
    ensures var (_, k, _) := Reading(input, quiet, need, 0, o);
            var (status, taken, left) := Reading(input, quiet + ([round] + rest), need, 0, o);
            var done, late := o.watchesDone && round.done, o.hasDeadline && round.late;
            var comes := !round.stopping && !done && !late;
            var silent := comes && round.event.TimesOut?;
            && (round.stopping ==> status == Interrupted)
            && (!round.stopping && done ==> status == PlaybackDone)
            && (!round.stopping && !done && late ==> status == DeadlineExceeded)
            && (comes && round.event.Closes? ==> status == EndOfStream)
            && (comes && round.event.Fails? ==> status == Broken)
            && (silent && o.hasDeadline && round.lateAfter ==> status == DeadlineExceeded)
            && (silent && !(o.hasDeadline && round.lateAfter) && k == 0 && o.returnsOnIdle ==> status == Idle)
            && (silent && !(o.hasDeadline && round.lateAfter) && o.watchesDone && round.doneAfter ==> status == Idle)
            && (round.stopping || done || late || round.event.Closes? || round.event.Fails? ==>
                  taken == k && left == rest)
  {
    ReadsOn(input, quiet, [round] + rest, need, 0, o);
    assert ([round] + rest)[0] == round && ([round] + rest)[1..] == rest;
    var k := Reading(input, quiet, need, 0, o).1;
    ReadingIsBounded(input, [round] + rest, need, k, o);
  }

  /** An idle timeout takes nothing from the stream, whatever else happens but the end of playback. */
  lemma IdleTakesNothing(input: Bytes, script: seq<Round>, o: Options)
    requires !o.watchesDone || forall r :: r in script ==> !r.doneAfter
    requires Frame(input, script, o).0 == NoFrame(Idle)
    ensures Frame(input, script, o).1 == input
  {
    hide Reading;
    IdleReading(input, script, 4, 0, o);
    ReadingIsBounded(input, script, 4, 0, o);
    var (status, taken, rest) := Reading(input, script, 4, 0, o);
    if status == Complete && FromBigEndian(input[..4]) <= 16_777_216 {
      IdleReading(input[4..], rest, FromBigEndian(input[..4]), 0, o.(returnsOnIdle := false));
    }
  }

  lemma {:induction false} IdleReading(input: Bytes, script: seq<Round>, need: nat, offset: nat, o: Options)
    requires offset <= need && offset <= |input|
    requires !o.watchesDone || forall r :: r in script ==> !r.doneAfter
    ensures var (status, taken, rest) := Reading(input, script, need, offset, o);
            && (status == Idle ==> taken == 0 && o.returnsOnIdle)
            && (forall r :: r in rest ==> r in script)
    decreases |script|
  {
    if offset < need && script != [] {
      var read := Delivered(script[0].event, |input| - offset, need - offset);
      IdleReading(input, script[1..], need, offset + read, o);
    }
  }
}
