// What a VST3 plug-in is told: the events submitted, written back as MIDI bytes,
// are the messages that were enqueued.
module RackMessages {
  import opened Wrappers
  import opened U64
  import opened Midi
  import opened MidiPlayback
  import opened CallbackMidi
  import CallbackRuns

  // --------------------------------------------------------------- one event

  /** The bytes of a channel message, as the MIDI 1.0 specification lays them out. */
  function Written(kind: RackKind): seq<int> {
    match kind
    case NoteOff(note, velocity, channel) => [0x80 + channel, note, velocity]
    case NoteOn(note, velocity, channel) => [0x90 + channel, note, velocity]
    case PolyphonicAftertouch(note, pressure, channel) => [0xA0 + channel, note, pressure]
    case ControlChange(controller, value, channel) => [0xB0 + channel, controller, value]
    case ProgramChange(program, channel) => [0xC0 + channel, program]
    case ChannelAftertouch(pressure, channel) => [0xD0 + channel, pressure]
    case PitchBend(bend, channel) => [0xE0 + channel, bend % 128, bend / 128]
  }

  predicate IsChannelPacket(p: MidiPacket) {
    p.data.b0 < 0xF0
  }

  /**
   * A packet that carries a well-formed message becomes an event if and only if it is a channel
   * message, and written back the event is that message in its canonical form.
   */
  lemma EventSaysTheMessage(p: MidiPacket)
    requires IsWellFormed(p.Message())
    ensures Converts(p) <==> IsChannelPacket(p)
    ensures Converts(p) ==> Written(ToRackKind(p.data).value) == Canonical(p.Message())
  {
    assert p.Message()[0] == p.data.b0;
    if |p.Message()| > 1 { assert p.Message()[1] == p.data.b1; }
    if |p.Message()| > 2 { assert p.Message()[2] == p.data.b2; }
    if IsChannelPacket(p) { NoLongerThanItsStatus(p.Message()); }
  }

  lemma NoLongerThanItsStatus(data: seq<byte>)
    requires IsWellFormed(data) && data[0] < 0xF0
    ensures 0x80 <= data[0] && |data| == (if 0xC0 <= data[0] < 0xE0 then 2 else 3)
    ensures forall i :: 0 < i < |data| ==> data[i] < 128
  {
    forall i | 0 < i < |data|
      ensures data[i] < 128
    {
      assert data[1..][i - 1] == data[i] && data[i] in data[1..];
    }
  }

  /** What an event does to a key or pedal, by its fields. */
  function EventEffect(kind: RackKind, h: Held): Effect {
    match kind
    case NoteOn(note, velocity, channel) => if h == Key(channel, note) then Press else Keep
    case NoteOff(note, velocity, channel) => if h == Key(channel, note) then Release else Keep
    case ControlChange(controller, value, channel) =>
      if h.channel != channel then Keep
      else if controller in {64, 66, 69} then
        if h != Pedal(channel, controller) then Keep else if value < 64 then Release else Press
      else if h.Key? then (if controller in {120, 123, 124, 125, 126, 127} then Release else Keep)
      else if controller == 121 then Release else Keep
    case _ => Keep
  }

  /** An event presses and releases exactly what the packet's message does. */
  lemma EventDoesWhatTheMessageDoes(p: MidiPacket, h: Held)
    requires IsWellFormed(p.Message())
    ensures (if Converts(p) then EventEffect(ToRackKind(p.data).value, h) else Keep) == EffectOn(p.Message(), h)
  {
    assert p.Message()[0] == p.data.b0;
    if |p.Message()| > 1 { assert p.Message()[1] == p.data.b1; }
    if |p.Message()| > 2 { assert p.Message()[2] == p.data.b2; }
    if IsChannelPacket(p) { NoLongerThanItsStatus(p.Message()); }
  }

  // ------------------------------------------------------------ a batch, a run

  ghost predicate AllWellFormed(packets: seq<MidiPacket>) {
    forall p :: p in packets ==> IsWellFormed(p.Message())
  }

  /** The channel messages of some packets, in canonical form and in order. */
  function ChannelMessages(packets: seq<MidiPacket>): seq<seq<int>> {
    if packets == [] then []
    else
      (if IsChannelPacket(packets[0]) then [Canonical(packets[0].Message())] else []) + ChannelMessages(packets[1..])
  }

  function AllWritten(kinds: seq<RackKind>): seq<seq<int>> {
    seq(|kinds|, i requires 0 <= i < |kinds| => Written(kinds[i]))
  }

  lemma {:induction false} KindsAreTheMessages(packets: seq<MidiPacket>)
    requires AllWellFormed(packets)
    ensures AllWritten(Kinds(packets)) == ChannelMessages(packets)
    decreases |packets|
  {
    hide Written, Canonical, IsWellFormed, ToRackKind, IsChannelPacket;
    if packets != [] {
      EventSaysTheMessage(packets[0]);
      KindsAreTheMessages(packets[1..]);
      KindsOfFirst(packets);
    }
  }

  /** Every batch submitted says, in order, the channel messages of the packets it takes. */
  lemma BatchSaysTheMessages(block: Timing, pending: seq<MidiPacket>, scan: nat, limit: nat)
    requires AllWellFormed(pending)
    ensures var r := Scan(block, pending, scan, limit);
            AllWritten(EventKinds(r.events)) == ChannelMessages(pending[..r.consumed])
  {
    hide IsWellFormed, Written, Scan, Kinds, ChannelMessages;
    ScanTakesAPrefix(block, pending, scan, limit);
    KindsAreTheMessages(pending[..Scan(block, pending, scan, limit).consumed]);
  }

  lemma {:induction false} PartsAreWellFormed(a: seq<MidiPacket>, b: seq<MidiPacket>)
    requires CallbackRuns.IsPart(a, b) && AllWellFormed(b)
    ensures AllWellFormed(a)
    decreases |b|
  {
    hide IsWellFormed;
    if b != [] {
      var b' := b[..|b| - 1];
      if CallbackRuns.IsPart(a, b') {
        PartsAreWellFormed(a, b');
      } else {
        PartsAreWellFormed(a[..|a| - 1], b');
        assert a == a[..|a| - 1] + [b[|b| - 1]];
      }
    }
  }

  /**
   * Over any run since the last reset, whatever the capacities and rejections: the bytes the plug-in
   * was told are the channel messages of the packets taken, and if admission dropped nothing, these
   * and the pending ones are the channel messages enqueued.
   */
  lemma PluginHearsTheMessages(ring: seq<MidiPacket>, setup: CallbackRuns.Setup, steps: seq<CallbackRuns.Step>)
    requires AllWellFormed(CallbackRuns.Run(CallbackRuns.Fresh([], ring), setup, steps).enqueued)
    ensures var h := CallbackRuns.Run(CallbackRuns.Fresh([], ring), setup, steps);
            && AllWritten(CallbackRuns.Delivered(h.batches)) == ChannelMessages(h.taken)
            && (h.dropped == 0 ==>
                  AllWritten(CallbackRuns.Delivered(h.batches)) + ChannelMessages(h.queue.pending)
                  == ChannelMessages(h.enqueued))
  {
    hide CallbackRuns.Run, IsWellFormed, ChannelMessages, AllWritten, AllWellFormed;
    var h := CallbackRuns.Run(CallbackRuns.Fresh([], ring), setup, steps);
    CallbackRuns.FreshIsConserved([], ring);
    CallbackRuns.DeliveryIsExactlyOnce(CallbackRuns.Fresh([], ring), setup, steps);
    TakenIsWellFormed(h);
    KindsAreTheMessages(h.taken);
    if h.dropped == 0 {
      CallbackRuns.NothingDroppedMeansNothingMissing(ring, setup, steps);
      MessagesConcat(h.taken, h.queue.pending);
    }
  }

  lemma TakenIsWellFormed(h: CallbackRuns.History)
    requires CallbackRuns.Conserved(h) && AllWellFormed(h.enqueued)
    ensures AllWellFormed(h.taken)
  {
    hide IsWellFormed, CallbackRuns.IsPart;
    PartsAreWellFormed(h.taken + h.queue.pending, h.enqueued);
    forall p | p in h.taken
      ensures IsWellFormed(p.Message())
    {
      assert p in h.taken + h.queue.pending;
    }
  }

  lemma {:induction false} MessagesConcat(a: seq<MidiPacket>, b: seq<MidiPacket>)
    ensures ChannelMessages(a + b) == ChannelMessages(a) + ChannelMessages(b)
    decreases |a|
  {
    hide Canonical;
    if a == [] {
      assert a + b == b;
    } else {
      assert (a + b)[1..] == a[1..] + b && (a + b)[0] == a[0];
      MessagesConcat(a[1..], b);
    }
  }

  // --------------------------------------------------------------- admission

  /** On well-formed packets, what admission evicts first are those that press a key. */
  lemma NoteOnsPressKeys(p: MidiPacket)
    requires IsWellFormed(p.Message())
    ensures IsNoteOn(p) <==> exists h: Held :: h.Key? && EffectOn(p.Message(), h) == Press
  {
    assert p.Message()[0] == p.data.b0;
    if |p.Message()| > 1 { assert p.Message()[1] == p.data.b1; }
    if |p.Message()| > 2 { assert p.Message()[2] == p.data.b2; }
    if IsNoteOn(p) {
      NoLongerThanItsStatus(p.Message());
      assert EffectOn(p.Message(), Key(Channel(p.data.b0), p.data.b1)) == Press;
    }
  }
}
