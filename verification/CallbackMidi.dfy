// Moving pending MIDI from the callback's queue to the plug-in, for VST2 and VST3.
module CallbackMidi {
  import opened Wrappers
  import opened U64
  import opened Midi
  import opened MidiPlayback

  datatype Bytes = Bytes(b0: byte, b1: byte, b2: byte)

  /** A queued message of one to three bytes, padded to three. */
  datatype MidiPacket = MidiPacket(generation: u64, data: Bytes, len: u64, timestampUs: u64) {
    function Message(): seq<byte> {
      [data.b0, data.b1, data.b2][..Min(len, 3)]
    }
  }

  datatype RackKind =
    | NoteOff(note: byte, velocity: byte, channel: int)
    | NoteOn(note: byte, velocity: byte, channel: int)
    | PolyphonicAftertouch(note: byte, pressure: byte, channel: int)
    | ControlChange(controller: byte, value: byte, channel: int)
    | ProgramChange(program: byte, channel: int)
    | ChannelAftertouch(pressure: byte, channel: int)
    | PitchBend(bend: int, channel: int)

  datatype RackEvent = RackEvent(sampleOffset: u64, kind: RackKind)
  datatype Vst2Event = Vst2Event(deltaFrames: u64, midiData: Bytes)

  /** `(high << 7) | low`: bit 7 belongs to both operands. */
  function Combine7(high: byte, low: byte): int {
    high * 128 + low - (if low >= 128 && high % 2 == 1 then 128 else 0)
  }

  function ToRackKind(data: Bytes): Option<RackKind>
  {
    var channel := Channel(data.b0);
    match Kind(data.b0)
    case 8 => Some(NoteOff(data.b1, data.b2, channel))
    case 9 => Some(if data.b2 == 0 then NoteOff(data.b1, 0, channel) else NoteOn(data.b1, data.b2, channel))
    case 10 => Some(PolyphonicAftertouch(data.b1, data.b2, channel))
    case 11 => Some(ControlChange(data.b1, data.b2, channel))
    case 12 => Some(ProgramChange(data.b1, channel))
    case 13 => Some(ChannelAftertouch(data.b1, channel))
    case 14 => Some(PitchBend(Combine7(data.b2, data.b1), channel))
    case _ => None
  }

  predicate Converts(p: MidiPacket) {
    ToRackKind(p.data).Some?
  }

  /** The messages a VST3 plug-in can receive, in order. */
  function Kinds(packets: seq<MidiPacket>): seq<RackKind> {
    if packets == [] then []
    else (if Converts(packets[0]) then [ToRackKind(packets[0].data).value] else []) + Kinds(packets[1..])
  }

  lemma {:induction false} KindsConcat(a: seq<MidiPacket>, b: seq<MidiPacket>)
    ensures Kinds(a + b) == Kinds(a) + Kinds(b)
    decreases |a|
  {
    hide ToRackKind;
    if a == [] {
      assert a + b == b;
    } else {
      assert (a + b)[1..] == a[1..] + b && (a + b)[0] == a[0];
      KindsOfFirst(a);
      KindsOfFirst(a + b);
      hide Kinds, Converts;
      KindsConcat(a[1..], b);
    }
  }

  lemma KindsOfFirst(packets: seq<MidiPacket>)
    requires packets != []
    ensures Kinds(packets) == (if Converts(packets[0]) then [ToRackKind(packets[0].data).value] else [])
                              + Kinds(packets[1..])
  {
  }

  function Stamps(packets: seq<MidiPacket>): seq<u64> {
    if packets == [] then []
    else (if Converts(packets[0]) then [packets[0].timestampUs] else []) + Stamps(packets[1..])
  }

  function EventKinds(events: seq<RackEvent>): seq<RackKind> {
    seq(|events|, i requires 0 <= i < |events| => events[i].kind)
  }

  function EventOffsets(events: seq<RackEvent>): seq<u64> {
    seq(|events|, i requires 0 <= i < |events| => events[i].sampleOffset)
  }

  function FrontStamp(packets: seq<MidiPacket>): Option<u64> {
    if packets == [] then None else Some(packets[0].timestampUs)
  }

  function NextStamp(pending: seq<MidiPacket>, ring: seq<MidiPacket>): Option<u64> {
    if pending != [] then FrontStamp(pending) else FrontStamp(ring)
  }

  /** The next event is the first one pending, or, with none pending, the first one in the ring. */
  lemma NextIsTheFirst(p: MidiPacket, pending: seq<MidiPacket>, ring: seq<MidiPacket>)
    ensures NextStamp([p] + pending, ring) == Some(p.timestampUs)
    ensures NextStamp([], [p] + ring) == Some(p.timestampUs) && NextStamp([], []) == None
  {
  }

  // --------------------------------------------------- admission to the pending queue

  /** The part of a queue of this capacity that only releases may use. */
  function Reserve(capacity: nat): (r: nat)
    ensures r <= capacity
  {
    Min(256, capacity / 8)
  }

  predicate IsNoteOn(p: MidiPacket) {
    p.len >= 3 && Kind(p.data.b0) == 9 && p.data.b2 > 0
  }

  predicate IsNoteOff(p: MidiPacket) {
    Kind(p.data.b0) == 8 || (p.len >= 3 && Kind(p.data.b0) == 9 && p.data.b2 == 0)
  }

  predicate IsSustainOff(p: MidiPacket) {
    p.len >= 3 && Kind(p.data.b0) == 11 && p.data.b1 == 64 && p.data.b2 < 64
  }

  predicate IsRelease(p: MidiPacket) {
    IsNoteOff(p) || IsSustainOff(p) || IsCriticalRelease(p.Message())
  }

  /** On validated bytes the packet's own tests add nothing to the message's. */
  lemma ReleaseMeansCritical(p: MidiPacket)
    requires IsWellFormed(p.Message())
    ensures IsRelease(p) <==> IsCriticalRelease(p.Message())
  {
    AcceptedMessages(p.Message());
    assert |p.Message()| == Min(p.len, 3) && p.Message()[0] == p.data.b0;
    if |p.Message()| > 1 { assert p.Message()[1] == p.data.b1; }
    if |p.Message()| > 2 { assert p.Message()[2] == p.data.b2; }
  }

  /** The first place where `test` answers `sense`. */
  function FirstIndex<P>(queue: seq<P>, test: P -> bool, sense: bool): (i: nat)
    ensures i <= |queue|
    ensures i < |queue| ==> test(queue[i]) == sense
    ensures forall j :: 0 <= j < i ==> test(queue[j]) != sense
  {
    if queue == [] || test(queue[0]) == sense then 0 else 1 + FirstIndex(queue[1..], test, sense)
  }

  function Without<P>(queue: seq<P>, i: nat): seq<P>
    requires i < |queue|
  {
    queue[..i] + queue[i + 1..]
  }

  /** What admission does to the queue: the packets kept, how many were dropped, and whether it gave up and reset. */
  datatype Admission<P> = Admission(pending: seq<P>, dropped: nat, reset: bool)

  function Admit<P>(pending: seq<P>, p: P, max: nat, isRelease: P -> bool, isNoteOn: P -> bool): Admission<P> {
    var noteOn := FirstIndex(pending, isNoteOn, true);
    var minor := FirstIndex(pending, isRelease, false);
    if !isRelease(p) && |pending| >= max - Reserve(max) then Admission(pending, 1, false)
    else if |pending| < max then Admission(pending + [p], 0, false)
    else if noteOn < |pending| then Admission(Without(pending, noteOn) + [p], 1, false)
    else if !isRelease(p) then Admission(pending, 1, false)
    else if minor < |pending| then Admission(Without(pending, minor) + [p], 1, false)
    else Admission([p], |pending|, true)
  }

  /** The releases of a queue, in order. */
  function ReleasesIn(queue: seq<MidiPacket>): seq<MidiPacket> {
    if queue == [] then [] else (if IsRelease(queue[0]) then [queue[0]] else []) + ReleasesIn(queue[1..])
  }

  lemma {:induction false} ReleasesConcat(a: seq<MidiPacket>, b: seq<MidiPacket>)
    ensures ReleasesIn(a + b) == ReleasesIn(a) + ReleasesIn(b)
    decreases |a|
  {
    if a == [] {
      assert a + b == b;
    } else {
      assert (a + b)[1..] == a[1..] + b && (a + b)[0] == a[0];
      ReleasesOfFirst(a);
      ReleasesOfFirst(a + b);
      hide ReleasesIn, IsRelease;
      ReleasesConcat(a[1..], b);
    }
  }

  lemma ReleasesOfFirst(queue: seq<MidiPacket>)
    requires queue != []
    ensures ReleasesIn(queue) == (if IsRelease(queue[0]) then [queue[0]] else []) + ReleasesIn(queue[1..])
  {
  }

  lemma ReleasesWithout(queue: seq<MidiPacket>, i: nat)
    requires i < |queue| && !IsRelease(queue[i])
    ensures ReleasesIn(Without(queue, i)) == ReleasesIn(queue)
  {
    hide IsRelease;
    assert queue == queue[..i] + ([queue[i]] + queue[i + 1..]);
    ReleasesConcat(queue[..i], [queue[i]] + queue[i + 1..]);
    ReleasesConcat([queue[i]], queue[i + 1..]);
    ReleasesConcat(queue[..i], queue[i + 1..]);
  }

  lemma NoteOnsReleaseNothing(p: MidiPacket)
    requires IsNoteOn(p)
    ensures !IsRelease(p)
  {
  }

  lemma ReleasesAfterEviction(pending: seq<MidiPacket>, i: nat, p: MidiPacket)
    requires i < |pending| && !IsRelease(pending[i])
    ensures ReleasesIn(Without(pending, i) + [p]) == ReleasesIn(pending) + ReleasesIn([p])
  {
    hide IsRelease;
    ReleasesWithout(pending, i);
    ReleasesConcat(Without(pending, i), [p]);
  }

  /** The cases of admission: refused, appended, appended in the place of one that releases nothing, or reset. */
  lemma AdmissionCases(pending: seq<MidiPacket>, p: MidiPacket, max: nat)
    ensures var a := Admit(pending, p, max, IsRelease, IsNoteOn);
            || (a == Admission(pending, 1, false) && !IsRelease(p))
            || (a == Admission(pending + [p], 0, false) && |pending| < max)
            || (exists i: nat :: i < |pending| && !IsRelease(pending[i])
                  && a == Admission(Without(pending, i) + [p], 1, false))
            || (a == Admission([p], |pending|, true) && IsRelease(p) && forall q :: q in pending ==> IsRelease(q))
  {
    hide IsRelease, IsNoteOn;
    var noteOn := FirstIndex(pending, IsNoteOn, true);
    if noteOn < |pending| { NoteOnsReleaseNothing(pending[noteOn]); }
  }

  /**
   * Admission never loses a release: the queue's releases stay in order, and a new one
   * joins them, unless the queue holds nothing else and is given up for a reset. Every
   * packet is kept or counted as dropped, and the queue stays within its bound.
   */
  lemma AdmissionKeepsReleases(pending: seq<MidiPacket>, p: MidiPacket, max: nat)
    ensures var a := Admit(pending, p, max, IsRelease, IsNoteOn);
            && (!a.reset ==> ReleasesIn(a.pending) == ReleasesIn(pending) + if IsRelease(p) then [p] else [])
            && (a.reset ==> a.pending == [p] && IsRelease(p) && forall q :: q in pending ==> IsRelease(q))
            && |a.pending| + a.dropped == |pending| + 1
            && (0 < |pending| <= max ==> |a.pending| <= max)
  {
    hide IsRelease, IsNoteOn, Admit;
    AdmissionCases(pending, p, max);
    var a := Admit(pending, p, max, IsRelease, IsNoteOn);
    assert ReleasesIn([p]) == if IsRelease(p) then [p] else [];
    ReleasesConcat(pending, [p]);
    if i: nat :| i < |pending| && !IsRelease(pending[i]) && a == Admission(Without(pending, i) + [p], 1, false) {
      ReleasesAfterEviction(pending, i, p);
    }
  }

  /**
   * What becomes of a packet. The last eighth of the queue, at most 256 places, is kept for releases.
   * A release that finds the queue full takes the place of the first Note-On, or else of the first
   * packet that is no release; with releases alone in the queue, all are given up for a reset.
   */
  lemma AdmissionRules<P(!new)>(pending: seq<P>, p: P, max: nat, isRelease: P -> bool, isNoteOn: P -> bool)
    requires forall q :: isNoteOn(q) ==> !isRelease(q)
    ensures var a := Admit(pending, p, max, isRelease, isNoteOn);
            var reserve := if max < 2048 then max / 8 else 256;
            && (|pending| < max - reserve ==> a == Admission(pending + [p], 0, false))
            && (max - reserve <= |pending| && !isRelease(p) ==> a == Admission(pending, 1, false))
            && (|pending| < max && isRelease(p) ==> a == Admission(pending + [p], 0, false))
            && (forall i :: 0 <= i < |pending| && |pending| >= max && isRelease(p)
                            && isNoteOn(pending[i]) && (forall j :: 0 <= j < i ==> !isNoteOn(pending[j]))
                            ==> a == Admission(pending[..i] + pending[i + 1..] + [p], 1, false))
            && (forall i :: 0 <= i < |pending| && |pending| >= max && isRelease(p)
                            && (forall q :: q in pending ==> !isNoteOn(q))
                            && !isRelease(pending[i]) && (forall j :: 0 <= j < i ==> isRelease(pending[j]))
                            ==> a == Admission(pending[..i] + pending[i + 1..] + [p], 1, false))
            && (|pending| >= max && isRelease(p) && (forall q :: q in pending ==> isRelease(q)) ==>
                 a == Admission([p], |pending|, true))
  {
  }

  // ------------------------------------------------------------- specifications

  datatype Batch<E> = Batch(events: seq<E>, consumed: nat)

  /** The longest prefix VST3 can take: due packets, at most `scan` of them, at most `limit` events. */
  function Scan(block: Timing, pending: seq<MidiPacket>, scan: nat, limit: nat): (r: Batch<RackEvent>)
    ensures r.consumed <= |pending| && r.consumed <= scan
    decreases |pending|
  {
    if pending == [] || scan == 0 || !Contains(block, pending[0].timestampUs) then Batch([], 0)
    else if !Converts(pending[0]) then
      var rest := Scan(block, pending[1..], scan - 1, limit);
      Batch(rest.events, rest.consumed + 1)
    else if limit == 0 then Batch([], 0)
    else
      var block' := AfterOffset(block, pending[0].timestampUs);
      var rest := Scan(block', pending[1..], scan - 1, limit - 1);
      Batch([RackEvent(block'.lastOffset, ToRackKind(pending[0].data).value)] + rest.events, rest.consumed + 1)
  }

  /** The longest due prefix of at most `room` packets, as VST2 events. */
  function Pop(block: Timing, pending: seq<MidiPacket>, room: nat): (r: Batch<Vst2Event>)
    ensures r.consumed <= |pending| && r.consumed == |r.events| <= room
    decreases |pending|
  {
    if pending == [] || room == 0 || !Contains(block, pending[0].timestampUs) then Batch([], 0)
    else
      var block' := AfterOffset(block, pending[0].timestampUs);
      var rest := Pop(block', pending[1..], room - 1);
      Batch([Vst2Event(block'.lastOffset, pending[0].data)] + rest.events, rest.consumed + 1)
  }

  /** The callback's MIDI state: the pending queue, the ring behind it, and the source clock's cursor. */
  datatype Queue = Queue(pending: seq<MidiPacket>, ring: seq<MidiPacket>, cursor: Option<u64>)

  function BlockFor(q: Queue, frames: u64, sampleRate: u64, nowUs: u64): Timing {
    Begin(q.cursor, frames, sampleRate, nowUs, FrontStamp(q.pending))
  }

  function AfterConsuming(q: Queue, block: Timing, consumed: nat): Queue
    requires consumed <= |q.pending|
  {
    var rest := q.pending[consumed..];
    Queue(rest, q.ring, Committed(block, NextStamp(rest, q.ring)))
  }

  lemma PopOne(block: Timing, pending: seq<MidiPacket>, room: nat)
    ensures Pop(block, pending, room) ==
            if pending == [] || room == 0 || !Contains(block, pending[0].timestampUs) then Batch([], 0)
            else
              var block' := AfterOffset(block, pending[0].timestampUs);
              var rest := Pop(block', pending[1..], room - 1);
              Batch([Vst2Event(block'.lastOffset, pending[0].data)] + rest.events, rest.consumed + 1)
  {
  }

  lemma ScanOne(block: Timing, pending: seq<MidiPacket>, i: nat, scan: nat, limit: nat)
    requires i < |pending| && scan > 0
    ensures var block' := AfterOffset(block, pending[i].timestampUs);
            var rest := if Converts(pending[i]) && limit > 0 then Scan(block', pending[i + 1..], scan - 1, limit - 1)
                        else Scan(block, pending[i + 1..], scan - 1, limit);
            Scan(block, pending[i..], scan, limit) ==
            if !Contains(block, pending[i].timestampUs) then Batch([], 0)
            else if !Converts(pending[i]) then Batch(rest.events, rest.consumed + 1)
            else if limit == 0 then Batch([], 0)
            else
              Batch([RackEvent(block'.lastOffset, ToRackKind(pending[i].data).value)] + rest.events, rest.consumed + 1)
  {
    assert pending[i..][0] == pending[i] && pending[i..][1..] == pending[i + 1..];
  }

  lemma ScanNone(block: Timing, pending: seq<MidiPacket>, scan: nat, limit: nat)
    requires pending == [] || scan == 0
    ensures Scan(block, pending, scan, limit) == Batch([], 0)
  {
  }

  // ------------------------------------------------------- the callback's methods

  class AudioCallbackState {
    var pendingMidi: seq<MidiPacket>
    var midiRing: seq<MidiPacket>
    var midiPlayback: MidiPlaybackClock
    var lastFrames: u64
    var sampleRate: u64
    var needsEmergencyReset: bool
    var dropCount: nat
    const batchCapacity: nat
    const maxPending: nat

    constructor (sampleRate: u64, batchCapacity: nat, maxPending: nat)
      ensures fresh(midiPlayback) && View() == Queue([], [], None)
      ensures this.sampleRate == sampleRate && this.batchCapacity == batchCapacity && lastFrames == 0
      ensures this.maxPending == maxPending && !needsEmergencyReset && dropCount == 0
    {
      pendingMidi, midiRing := [], [];
      midiPlayback := new MidiPlaybackClock();
      lastFrames := 0;
      this.sampleRate := sampleRate;
      needsEmergencyReset, dropCount := false, 0;
      this.batchCapacity, this.maxPending := batchCapacity, maxPending;
    }

    function View(): Queue
      reads this, midiPlayback
    {
      Queue(pendingMidi, midiRing, midiPlayback.cursorUs)
    }

    method EnqueueMidi(msg: MidiPacket)
      modifies this`pendingMidi, this`needsEmergencyReset, this`dropCount, midiPlayback
      ensures var a := Admit(old(pendingMidi), msg, maxPending, IsRelease, IsNoteOn);
              && pendingMidi == a.pending && dropCount == old(dropCount) + a.dropped
              && needsEmergencyReset == (old(needsEmergencyReset) || a.reset)
              && midiPlayback.cursorUs == (if a.reset then None else old(midiPlayback.cursorUs))
    {
      if !IsRelease(msg) && |pendingMidi| >= maxPending - Reserve(maxPending) {
        dropCount := dropCount + 1;
        return;
      }
      if |pendingMidi| < maxPending {
        pendingMidi := pendingMidi + [msg];
        return;
      }
      var evicted := DropOldestNoteOn();
      if evicted {
        pendingMidi, dropCount := pendingMidi + [msg], dropCount + 1;
        return;
      }
      if !IsRelease(msg) {
        assert false; // the reserve already turned these away
      }
      evicted := DropOldestNonCritical();
      if evicted {
        pendingMidi, dropCount := pendingMidi + [msg], dropCount + 1;
        return;
      }
      dropCount := dropCount + |pendingMidi|;
      midiPlayback.Reset();
      pendingMidi := [msg];
      needsEmergencyReset := true;
    }

    method DropOldestNoteOn() returns (found: bool)
      modifies this`pendingMidi
      ensures var i := FirstIndex(old(pendingMidi), IsNoteOn, true);
              && found == (i < |old(pendingMidi)|)
              && pendingMidi == if found then Without(old(pendingMidi), i) else old(pendingMidi)
    {
      var position := FirstIndex(pendingMidi, IsNoteOn, true);
      found := position < |pendingMidi|;
      if found {
        pendingMidi := pendingMidi[..position] + pendingMidi[position + 1..];
      }
    }

    method DropOldestNonCritical() returns (found: bool)
      modifies this`pendingMidi
      ensures var i := FirstIndex(old(pendingMidi), IsRelease, false);
              && found == (i < |old(pendingMidi)|)
              && pendingMidi == if found then Without(old(pendingMidi), i) else old(pendingMidi)
    {
      var position := FirstIndex(pendingMidi, IsRelease, false);
      found := position < |pendingMidi|;
      if found {
        pendingMidi := pendingMidi[..position] + pendingMidi[position + 1..];
      }
    }

    method NextMidiTimestampUs() returns (next: Option<u64>)
      ensures next == NextStamp(pendingMidi, midiRing)
    {
      next := if pendingMidi != [] then Some(pendingMidi[0].timestampUs)
              else if midiRing != [] then Some(midiRing[0].timestampUs) else None;
    }

    method PreparePendingVst2Midi(nowUs: u64) returns (events: seq<Vst2Event>)
      modifies this`pendingMidi, midiPlayback
      ensures var block := BlockFor(old(View()), lastFrames, sampleRate, nowUs);
              var batch := Pop(block, old(pendingMidi), batchCapacity);
              events == batch.events && View() == AfterConsuming(old(View()), block, batch.consumed)
    {
      hide Pop;
      var timing := midiPlayback.BeginBlock(lastFrames, sampleRate, nowUs, FrontStamp(pendingMidi));
      events := PopDue(timing);
      var next := NextMidiTimestampUs();
      midiPlayback.Commit(timing, next);
    }

    method PopDue(timing: MidiBlockTiming) returns (events: seq<Vst2Event>)
      modifies this`pendingMidi, timing`lastOffset
      ensures var batch := Pop(old(timing.Value()), old(pendingMidi), batchCapacity);
              events == batch.events && pendingMidi == old(pendingMidi)[batch.consumed..]
    {
      hide Pop;
      ghost var total := Pop(timing.Value(), pendingMidi, batchCapacity);
      ghost var queue := pendingMidi;
      events := [];
      while |events| < batchCapacity
        invariant |events| <= |queue| && |events| <= batchCapacity && pendingMidi == queue[|events|..]
        invariant total.events == events + Pop(timing.Value(), pendingMidi, batchCapacity - |events|).events
        invariant total.consumed == |events| + Pop(timing.Value(), pendingMidi, batchCapacity - |events|).consumed
        decreases |pendingMidi|
      {
        PopOne(timing.Value(), pendingMidi, batchCapacity - |events|);
        if pendingMidi == [] {
          return;
        }
        var msg := pendingMidi[0];
        var inside := timing.Contains(msg.timestampUs);
        if !inside {
          return;
        }
        pendingMidi := pendingMidi[1..];
        var delta := timing.Offset(msg.timestampUs);
        events := events + [Vst2Event(delta, msg.data)];
      }
      PopOne(timing.Value(), pendingMidi, batchCapacity - |events|);
    }

    /** `accepts` is the backend's verdict on the batch; it is asked only about a non-empty one. */
    method SubmitPendingVst3MidiAt(available: nat, nowUs: u64, accepts: bool)
      returns (ok: bool, batch: seq<RackEvent>)
      modifies this`pendingMidi, midiPlayback
      ensures var block := BlockFor(old(View()), lastFrames, sampleRate, nowUs);
              var scan := Scan(block, old(pendingMidi), batchCapacity, Min(available, batchCapacity));
              && batch == scan.events
              && ok == (batch == [] || accepts)
              && View() == if ok then AfterConsuming(old(View()), block, scan.consumed) else old(View())
    {
      hide Scan, Begin;
      var timing := midiPlayback.BeginBlock(lastFrames, sampleRate, nowUs, FrontStamp(pendingMidi));
      var consumed;
      batch, consumed := ScanDue(timing, Min(available, batchCapacity));
      if batch != [] {
        if !accepts {
          return false, batch;
        }
      }
      pendingMidi := pendingMidi[consumed..];
      var next := NextMidiTimestampUs();
      midiPlayback.Commit(timing, next);
      ok := true;
    }

    method ScanDue(timing: MidiBlockTiming, eventLimit: nat) returns (events: seq<RackEvent>, consumed: nat)
      modifies timing`lastOffset
      ensures Batch(events, consumed) == Scan(old(timing.Value()), pendingMidi, batchCapacity, eventLimit)
    {
      hide Scan;
      ghost var block := timing.Value();
      ghost var total := Scan(block, pendingMidi, batchCapacity, eventLimit);
      ghost var rest := total;
      var queue := pendingMidi;
      events, consumed := [], 0;
      for i := 0 to Min(|queue|, batchCapacity)
        invariant consumed == i <= |queue| && |events| <= eventLimit && timing.Value() == block
        invariant rest == Scan(block, queue[i..], batchCapacity - i, eventLimit - |events|)
        invariant total.events == events + rest.events && total.consumed == i + rest.consumed
      {
        var msg := queue[i];
        ScanOne(block, queue, i, batchCapacity - i, eventLimit - |events|);
        var inside := timing.Contains(msg.timestampUs);
        if !inside {
          break;
        }
        var kind := ToRackKind(msg.data);
        if kind.Some? {
          if |events| == eventLimit {
            break;
          }
          var offset := timing.Offset(msg.timestampUs);
          block := AfterOffset(block, msg.timestampUs);
          events := events + [RackEvent(offset, kind.value)];
        }
        rest := Scan(block, queue[i + 1..], batchCapacity - i - 1, eventLimit - |events|);
        consumed := consumed + 1;
      }
      if consumed == Min(|queue|, batchCapacity) {
        ScanNone(block, queue[consumed..], batchCapacity - consumed, eventLimit - |events|);
      }
    }
  }

  // ------------------------------------------------------- what a batch contains

  lemma {:induction false} ScanConvertsAPrefix(block: Timing, pending: seq<MidiPacket>, scan: nat, limit: nat)
    ensures var r := Scan(block, pending, scan, limit);
            EventKinds(r.events) == Kinds(pending[..r.consumed]) && |r.events| <= limit
    decreases |pending|
  {
    var r := Scan(block, pending, scan, limit);
    if r.consumed == 0 {
      assert pending[..0] == [];
    } else {
      assert pending[..r.consumed][0] == pending[0];
      assert pending[..r.consumed][1..] == pending[1..][..r.consumed - 1];
      if Converts(pending[0]) {
        var block' := AfterOffset(block, pending[0].timestampUs);
        ScanConvertsAPrefix(block', pending[1..], scan - 1, limit - 1);
        var rest := Scan(block', pending[1..], scan - 1, limit - 1);
        assert EventKinds(r.events) == [r.events[0].kind] + EventKinds(rest.events);
      } else {
        ScanConvertsAPrefix(block, pending[1..], scan - 1, limit);
      }
    }
  }

  lemma {:induction false} ScanPlacesAPrefix(block: Timing, pending: seq<MidiPacket>, scan: nat, limit: nat)
    ensures var r := Scan(block, pending, scan, limit);
            EventOffsets(r.events) == Offsets(block, Stamps(pending[..r.consumed]))
    decreases |pending|
  {
    hide AfterOffset, Contains, ToRackKind;
    var r := Scan(block, pending, scan, limit);
    if r.consumed == 0 {
      assert pending[..0] == [];
    } else {
      assert pending[..r.consumed][0] == pending[0];
      assert pending[..r.consumed][1..] == pending[1..][..r.consumed - 1];
      var stamps := Stamps(pending[1..][..r.consumed - 1]);
      if Converts(pending[0]) {
        var block' := AfterOffset(block, pending[0].timestampUs);
        ScanPlacesAPrefix(block', pending[1..], scan - 1, limit - 1);
        var rest := Scan(block', pending[1..], scan - 1, limit - 1);
        assert EventOffsets(r.events) == [block'.lastOffset] + EventOffsets(rest.events);
        assert ([pending[0].timestampUs] + stamps)[1..] == stamps;
      } else {
        ScanPlacesAPrefix(block, pending[1..], scan - 1, limit);
        assert Stamps(pending[..r.consumed]) == stamps;
      }
    }
  }

  /** A VST3 batch is the converted prefix, each event placed by the block's clock. */
  lemma ScanTakesAPrefix(block: Timing, pending: seq<MidiPacket>, scan: nat, limit: nat)
    ensures var r := Scan(block, pending, scan, limit);
            && EventKinds(r.events) == Kinds(pending[..r.consumed])
            && EventOffsets(r.events) == Offsets(block, Stamps(pending[..r.consumed]))
            && |r.events| <= limit
  {
    ScanConvertsAPrefix(block, pending, scan, limit);
    ScanPlacesAPrefix(block, pending, scan, limit);
  }

  /** It stops only at the scan bound, at a packet that is not due, or at an event with no room left. */
  lemma {:induction false} ScanStopsOnlyWhenItMust(block: Timing, pending: seq<MidiPacket>, scan: nat, limit: nat)
    ensures var r := Scan(block, pending, scan, limit);
            r.consumed < |pending| && r.consumed < scan ==>
              || pending[r.consumed].timestampUs > block.endUs
              || (Converts(pending[r.consumed]) && |r.events| == limit)
    ensures var r := Scan(block, pending, scan, limit);
            forall i :: 0 <= i < r.consumed ==> pending[i].timestampUs <= block.endUs
    decreases |pending|
  {
    if pending != [] && scan > 0 && Contains(block, pending[0].timestampUs) {
      if !Converts(pending[0]) {
        ScanStopsOnlyWhenItMust(block, pending[1..], scan - 1, limit);
      } else if limit > 0 {
        ScanStopsOnlyWhenItMust(AfterOffset(block, pending[0].timestampUs), pending[1..], scan - 1, limit - 1);
      }
    }
  }

  function AllStamps(packets: seq<MidiPacket>): seq<u64> {
    seq(|packets|, i requires 0 <= i < |packets| => packets[i].timestampUs)
  }

  /**
   * A VST2 batch is the longest due prefix that fits: every packet as it is, placed by the block's clock.
   */
  lemma {:induction false} PopTakesThePrefix(block: Timing, pending: seq<MidiPacket>, room: nat)
    ensures var r := Pop(block, pending, room);
            && (forall i :: 0 <= i < r.consumed ==>
                  pending[i].timestampUs <= block.endUs && r.events[i].midiData == pending[i].data
                  && r.events[i].deltaFrames == Offsets(block, AllStamps(pending[..r.consumed]))[i])
            && (r.consumed < |pending| && r.consumed < room ==> pending[r.consumed].timestampUs > block.endUs)
    decreases |pending|
  {
    hide RawOffset, Pop, Offsets;
    PopOne(block, pending, room);
    if pending != [] && room > 0 && Contains(block, pending[0].timestampUs) {
      var block' := AfterOffset(block, pending[0].timestampUs);
      PopTakesThePrefix(block', pending[1..], room - 1);
      var r, rest := Pop(block, pending, room), Pop(block', pending[1..], room - 1);
      var stamps := AllStamps(pending[..r.consumed]);
      OffsetsOne(block, stamps);
      assert stamps[1..] == AllStamps(pending[1..][..rest.consumed]);
    }
  }

  lemma OffsetsOne(block: Timing, stamps: seq<u64>)
    requires stamps != []
    ensures var next := AfterOffset(block, stamps[0]);
            Offsets(block, stamps) == [next.lastOffset] + Offsets(next, stamps[1..])
  {
  }

  /** Batches have nondecreasing offsets below the block length, even for regressing timestamps. */
  lemma BatchesAreOrdered(q: Queue, frames: u64, sampleRate: u64, nowUs: u64, scan: nat, limit: nat)
    ensures var r := Scan(BlockFor(q, frames, sampleRate, nowUs), q.pending, scan, limit);
            && (forall i :: 0 <= i < |r.events| ==> r.events[i].sampleOffset < Max(frames, 1))
            && (forall i, j :: 0 <= i <= j < |r.events| ==> r.events[i].sampleOffset <= r.events[j].sampleOffset)
  {
    var block := BlockFor(q, frames, sampleRate, nowUs);
    var r := Scan(block, q.pending, scan, limit);
    var offsets := EventOffsets(r.events);
    BeginShape(q.cursor, frames, sampleRate, nowUs, FrontStamp(q.pending));
    ScanTakesAPrefix(block, q.pending, scan, limit);
    OffsetsAreOrdered(block, Stamps(q.pending[..r.consumed]));
    forall i, j | 0 <= i <= j < |r.events|
      ensures r.events[i].sampleOffset <= r.events[j].sampleOffset < Max(frames, 1)
    {
      assert offsets[i] == r.events[i].sampleOffset && offsets[j] == r.events[j].sampleOffset;
    }
  }

  // ------------------------------------------------ the two loops do the same work

  /** What SubmitPendingVst3MidiAt does to a queue, and what the backend gets. */
  function Submit(q: Queue, sampleRate: u64, capacity: nat, frames: u64, nowUs: u64, available: nat, accepts: bool)
    : (Queue, seq<RackEvent>)
  {
    var block := BlockFor(q, frames, sampleRate, nowUs);
    var scan := Scan(block, q.pending, capacity, Min(available, capacity));
    if scan.events == [] || accepts then (AfterConsuming(q, block, scan.consumed), scan.events) else (q, [])
  }

  ghost predicate SameEvent(v2: Vst2Event, v3: RackEvent) {
    && v2.deltaFrames == v3.sampleOffset
    && ToRackKind(v2.midiData) == Some(v3.kind)
  }

  lemma {:induction false} ScanAgreesWithPop(block: Timing, pending: seq<MidiPacket>, room: nat, limit: nat)
    requires forall i :: 0 <= i < |pending| ==> Converts(pending[i])
    requires Pop(block, pending, room).consumed <= limit
    ensures var v2, v3 := Pop(block, pending, room), Scan(block, pending, room, limit);
            && v3.consumed == v2.consumed == |v3.events|
            && forall i :: 0 <= i < v2.consumed ==> SameEvent(v2.events[i], v3.events[i])
    decreases |pending|
  {
    hide RawOffset, ToRackKind;
    if pending != [] && room > 0 && Contains(block, pending[0].timestampUs) {
      var block' := AfterOffset(block, pending[0].timestampUs);
      assert Converts(pending[0]);
      ScanAgreesWithPop(block', pending[1..], room - 1, limit - 1);
    }
  }

  /**
   * On packets that all convert, with VST3 capacity not limiting, both plug-in kinds
   * get the same prefix at the same offsets, and are left with the same queue and cursor.
   */
  lemma BothBackendsAgree(q: Queue, frames: u64, sampleRate: u64, nowUs: u64, capacity: nat, available: nat)
    requires forall i :: 0 <= i < |q.pending| ==> Converts(q.pending[i])
    requires Pop(BlockFor(q, frames, sampleRate, nowUs), q.pending, capacity).consumed <= available
    ensures var block := BlockFor(q, frames, sampleRate, nowUs);
            var v2 := Pop(block, q.pending, capacity);
            var (queue, events) := Submit(q, sampleRate, capacity, frames, nowUs, available, true);
            && queue == AfterConsuming(q, block, v2.consumed)
            && |events| == |v2.events|
            && forall i :: 0 <= i < |events| ==> SameEvent(v2.events[i], events[i])
  {
    ScanAgreesWithPop(BlockFor(q, frames, sampleRate, nowUs), q.pending, capacity, Min(available, capacity));
  }
}
