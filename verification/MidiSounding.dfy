// What sounds: a message that is sent reaches the plug-in, and nothing else does.
module MidiSounding {
  import opened Wrappers
  import opened Midi
  import opened MidiIngress
  import CallbackMidi

  // ------------------------------------------------------------ reaching the ring

  /** The send of one message, without another thread in between. */
  function SendSteps(i: nat, data: seq<byte>): seq<Action> {
    [Begin(data), Stamp(i), Check(i), Push(i)]
  }

  /** The state after a message went through to the ring. */
  function AfterSend(s: State, data: seq<byte>): State {
    var i := |s.calls|;
    s.(calls := s.calls + [Call(data, Returned(s), Done(s.generation, Sent))],
       ring := s.ring + [Packet(i, s.generation, data)])
  }

  lemma RunOfOne(c: Config, s: State, a: Action, rest: seq<Action>, t: State)
    ensures IsRun(c, s, [a] + rest, t) <==> Enabled(c, s, a) && IsRun(c, Apply(c, s, a), rest, t)
    ensures IsRun(c, s, [], t) <==> t == s
  {
    assert ([a] + rest)[1..] == rest;
  }

  lemma RunOfFour(c: Config, s: State, a0: Action, a1: Action, a2: Action, a3: Action, t: State)
    ensures IsRun(c, s, [a0, a1, a2, a3], t)
            <==> (Enabled(c, s, a0) &&
                  var s1 := Apply(c, s, a0);
                  Enabled(c, s1, a1) &&
                  var s2 := Apply(c, s1, a1);
                  Enabled(c, s2, a2) &&
                  var s3 := Apply(c, s2, a2);
                  Enabled(c, s3, a3) && t == Apply(c, s3, a3))
  {
    hide Apply, Enabled, IsRun;
    assert [a0, a1, a2, a3] == [a0] + [a1, a2, a3] && [a1, a2, a3] == [a1] + [a2, a3];
    assert [a2, a3] == [a2] + [a3] && [a3] == [a3] + [];
    RunOfOne(c, s, a0, [a1, a2, a3], t);
    if Enabled(c, s, a0) {
      var s1 := Apply(c, s, a0);
      RunOfOne(c, s1, a1, [a2, a3], t);
      if Enabled(c, s1, a1) {
        var s2 := Apply(c, s1, a1);
        RunOfOne(c, s2, a2, [a3], t);
        if Enabled(c, s2, a2) {
          var s3 := Apply(c, s2, a2);
          RunOfOne(c, s3, a3, [], t);
          if Enabled(c, s3, a3) { RunOfOne(c, Apply(c, s3, a3), a3, [], t); }
        }
      }
    }
  }

  /**
   * An uncontended send reaches the ring, from any state: if and only if the message is well formed
   * and the ring has a free slot, and, unless the message is a release, more than an eighth of its
   * slots free, or more than 256.
   */
  lemma UncontendedSendReachesTheRing(c: Config, s: State, data: seq<byte>, t: State)
    ensures var room, eighth := c.ringCapacity - |s.ring|, c.ringCapacity / 8;
            IsRun(c, s, SendSteps(|s.calls|, data), t)
            <==> && |data| <= 3 && IsWellFormed(data) && room > 0
                 && (IsCriticalRelease(data) || room > eighth || room > 256)
                 && t == AfterSend(s, data)
  {
    hide IsWellFormed, IsCriticalRelease, EffectOn, Pressed, Judged, Observed, Returned, IsRun;
    var i := |s.calls|;
    RunOfFour(c, s, Begin(data), Stamp(i), Check(i), Push(i), t);
    if |data| <= 3 && IsWellFormed(data) {
      var begun := Apply(c, s, Begin(data));
      var stamped := Apply(c, begun, Stamp(i));
      var checked := Apply(c, stamped, Check(i));
      assert checked.calls[i] == Call(data, Returned(s), Checked(s.generation)) && checked.ring == s.ring;
      if Enabled(c, checked, Push(i)) {
        assert Apply(c, checked, Push(i)).calls == s.calls + [Call(data, Returned(s), Done(s.generation, Sent))];
      }
    }
  }

  /**
   * A send whose push fails leaves the ring alone. It asks for a reset if the message was a release,
   * and otherwise the message is simply gone.
   */
  lemma FailedSend(c: Config, s: State, data: seq<byte>, t: State)
    requires |data| <= 3 && IsWellFormed(data)
    ensures var i, lost := |s.calls|, IsCriticalRelease(data);
            (exists missed :: IsRun(c, s, [Begin(data), Stamp(i), Check(i), Miss(i)], missed)
                              && Enabled(c, missed, Finish(i)) && t == Apply(c, missed, Finish(i)))
            <==>
            t == s.(calls := s.calls + [Call(data, Returned(s),
                      Done(s.generation, if lost then CriticalFallbackReset else DroppedNonCritical))],
                    generation := if lost then s.generation + 1 else s.generation)
  {
    hide IsWellFormed, IsCriticalRelease, EffectOn, Pressed, Judged, Observed, Returned, IsRun;
    var i := |s.calls|;
    var begun := Apply(c, s, Begin(data));
    var stamped := Apply(c, begun, Stamp(i));
    var checked := Apply(c, stamped, Check(i));
    assert checked.calls[i] == Call(data, Returned(s), Checked(s.generation)) && checked.ring == s.ring;
    var missed := Apply(c, checked, Miss(i));
    forall m
      ensures IsRun(c, s, [Begin(data), Stamp(i), Check(i), Miss(i)], m) <==> m == missed
    {
      RunOfFour(c, s, Begin(data), Stamp(i), Check(i), Miss(i), m);
    }
    var lost := IsCriticalRelease(data);
    var outcome := if lost then CriticalFallbackReset else DroppedNonCritical;
    assert Apply(c, missed, Finish(i)).calls == s.calls + [Call(data, Returned(s), Done(s.generation, outcome))];
  }

  /** A call knows of exactly the calls that had returned when it began. */
  lemma CallsKnowWhoReturned(c: Config, s: State, data: seq<byte>, i: nat)
    requires Enabled(c, s, Begin(data))
    ensures var t := Apply(c, s, Begin(data));
            i in t.calls[|s.calls|].before <==> i < |s.calls| && s.calls[i].phase.Done?
  {
    hide IsWellFormed, Judged, Observed, EffectOn, Pressed, IsCriticalRelease;
  }

  /** The packets that a full queue gives up first for a release are those that press a key. */
  lemma NoteOnsPressKeys(p: Packet)
    requires |p.data| <= 3 && IsWellFormed(p.data)
    ensures IsNoteOn(p) <==> exists h: Held :: h.Key? && EffectOn(p.data, h) == Press
    ensures IsNoteOn(p) ==> !IsRelease(p)
  {
    AcceptedMessages(p.data);
    if |p.data| == 3 { assert p.data[1..] == [p.data[1], p.data[2]]; }
    if IsNoteOn(p) { assert EffectOn(p.data, Key(Channel(p.data[0]), p.data[1])) == Press; }
  }

  // ---------------------------------------------------------- from the ring to the ear

  /** The call whose press of h is the last word of a list of packets, given the one that held h before. */
  function Holder(h: Held, before: Option<nat>, packets: seq<Packet>): Option<nat>
    decreases |packets|
  {
    if packets == [] then before
    else
      var next := match EffectOn(packets[0].data, h)
                  case Press => Some(packets[0].call)
                  case Release => None
                  case Keep => before;
      Holder(h, next, packets[1..])
  }

  lemma HolderOfOne(h: Held, before: Option<nat>, p: Packet)
    ensures Holder(h, before, [p]) ==
            match EffectOn(p.data, h)
            case Press => Some(p.call)
            case Release => None
            case Keep => before
  {
    hide EffectOn;
    var rest := [p][1..];
    assert rest == [];
  }

  lemma {:induction false} HolderConcat(h: Held, before: Option<nat>, a: seq<Packet>, b: seq<Packet>)
    ensures Holder(h, before, a + b) == Holder(h, Holder(h, before, a), b)
    decreases |a|
  {
    hide EffectOn;
    if a == [] {
      assert a + b == b;
    } else {
      assert (a + b)[0] == a[0] && (a + b)[1..] == a[1..] + b;
      var next := match EffectOn(a[0].data, h)
                  case Press => Some(a[0].call)
                  case Release => None
                  case Keep => before;
      HolderConcat(h, next, a[1..], b);
    }
  }

  /** The packets of one generation. */
  function Current(packets: seq<Packet>, generation: nat): seq<Packet> {
    if packets == [] then []
    else (if packets[0].generation == generation then [packets[0]] else []) + Current(packets[1..], generation)
  }

  lemma {:induction false} CurrentConcat(a: seq<Packet>, b: seq<Packet>, g: nat)
    ensures Current(a + b, g) == Current(a, g) + Current(b, g)
    decreases |a|
  {
    if a == [] {
      assert a + b == b;
    } else {
      assert (a + b)[0] == a[0] && (a + b)[1..] == a[1..] + b;
      CurrentConcat(a[1..], b, g);
    }
  }

  function HeldBy(s: State, h: Held): Option<nat> {
    if h in s.held then Some(s.held[h]) else None
  }

  /** What will hold h once everything on its way has arrived. */
  function Sounding(s: State, h: Held): Option<nat> {
    Holder(h, HeldBy(s, h), Current(Line(s), s.generation))
  }

  /** The callback has honoured the generation and owes no reset. */
  predicate InStep(s: State) {
    s.seen == s.generation && !s.needsReset && forall p :: p in s.pending ==> p.generation == s.generation
  }

  /** The pending queue takes the packet being judged: a release below its bound, others below the reserve. */
  predicate Roomy(c: Config, s: State, a: Action) {
    a.Judge? && s.popped.Some? ==>
      |s.pending| < if IsCriticalRelease(s.popped.value.data) then c.maxPending
                    else if c.maxPending < 2048 then c.maxPending - c.maxPending / 8 else c.maxPending - 256
  }

  ghost predicate RoomyRun(c: Config, s: State, actions: seq<Action>)
    decreases |actions|
  {
    actions != [] && Enabled(c, s, actions[0]) ==>
      Roomy(c, s, actions[0]) && RoomyRun(c, Apply(c, s, actions[0]), actions[1..])
  }

  /** The packet a step puts into the ring. */
  function PushedBy(s: State, a: Action): seq<Packet> {
    if a.Push? && a.i < |s.calls| && s.calls[a.i].phase.Checked? then
      [Packet(a.i, s.calls[a.i].phase.stamp, s.calls[a.i].data)]
    else []
  }

  /** The packets put into the ring during a run, in order. */
  ghost function Pushed(c: Config, s: State, actions: seq<Action>): seq<Packet>
    decreases |actions|
  {
    if actions == [] || !Enabled(c, s, actions[0]) then []
    else PushedBy(s, actions[0]) + Pushed(c, Apply(c, s, actions[0]), actions[1..])
  }

  lemma GenerationsGrow(c: Config, s: State, a: Action)
    requires Enabled(c, s, a)
    ensures Apply(c, s, a).generation >= s.generation
  {
    hide CallbackMidi.Admit, EffectOn, Pressed, IsCriticalRelease;
  }

  lemma {:induction false} RunGenerationsGrow(c: Config, s: State, actions: seq<Action>, t: State)
    requires IsRun(c, s, actions, t)
    ensures t.generation >= s.generation
    decreases |actions|
  {
    hide Apply, Enabled;
    if actions != [] {
      GenerationsGrow(c, s, actions[0]);
      RunGenerationsGrow(c, Apply(c, s, actions[0]), actions[1..], t);
    }
  }

  /** A roomy queue takes the packet being judged, if it is of the current generation. */
  lemma JudgeTakes(c: Config, s: State)
    requires InStep(s) && s.popped.Some? && Roomy(c, s, Judge)
    ensures var p := s.popped.value;
            Judged(c, s, p) == s.(popped := None,
                                  pending := if p.generation == s.generation then s.pending + [p] else s.pending)
  {
    hide EffectOn, Pressed, IsCriticalRelease;
  }

  lemma JudgeSounds(c: Config, s: State)
    requires InStep(s) && s.popped.Some? && Roomy(c, s, Judge)
    ensures var t := Judged(c, s, s.popped.value);
            && InStep(t) && t.held == s.held && t.generation == s.generation
            && Current(Line(t), t.generation) == Current(Line(s), s.generation)
  {
    hide Judged, Roomy;
    JudgeTakes(c, s);
    var p, t := s.popped.value, Judged(c, s, s.popped.value);
    if p.generation == s.generation {
      assert Line(t) == Line(s);
    } else {
      assert Line(s) == s.pending + ([p] + s.ring) && Line(t) == s.pending + s.ring;
      CurrentConcat(s.pending, [p] + s.ring, s.generation);
      CurrentConcat([p], s.ring, s.generation);
      CurrentConcat(s.pending, s.ring, s.generation);
    }
  }

  lemma DeliverSounds(c: Config, s: State, h: Held)
    requires InStep(s) && Enabled(c, s, Deliver)
    ensures var t := Apply(c, s, Deliver);
            InStep(t) && t.generation == s.generation && Sounding(t, h) == Sounding(s, h)
  {
    var p, t := s.pending[0], Apply(c, s, Deliver);
    DeliverHeld(s, c, h);
    hide EffectOn, Pressed;
    assert p in s.pending;
    TailOfLine(s.pending, if s.popped.Some? then [s.popped.value] else [], s.ring);
    assert Line(s)[0] == p && Line(s)[1..] == Line(t);
    assert Current(Line(s), s.generation)[1..] == Current(Line(t), t.generation);
  }

  /** A step that changes no generation changes what will sound only by the packet it pushes. */
  lemma StepSounds(c: Config, s: State, a: Action, h: Held)
    requires InStep(s) && Enabled(c, s, a) && Roomy(c, s, a) && Apply(c, s, a).generation == s.generation
    ensures var t := Apply(c, s, a);
            InStep(t) && Sounding(t, h) == Holder(h, Sounding(s, h), Current(PushedBy(s, a), s.generation))
  {
    hide EffectOn, Pressed, IsCriticalRelease, Judged, Roomy;
    var t := Apply(c, s, a);
    if a.Judge? {
      JudgeSounds(c, s);
    } else if a.Deliver? {
      DeliverSounds(c, s, h);
    } else if a.Push? {
      assert Line(t) == Line(s) + PushedBy(s, a);
      CurrentConcat(Line(s), PushedBy(s, a), s.generation);
      HolderConcat(h, HeldBy(s, h), Current(Line(s), s.generation), Current(PushedBy(s, a), s.generation));
    } else {
      assert Line(t) == Line(s);
    }
  }

  /**
   * While no reset comes and the pending queue has room, what sounds in the end is what sounded at
   * first, changed by each message pushed, in the order of the pushes, and by nothing else.
   */
  lemma {:induction false} RunSounds(c: Config, s: State, actions: seq<Action>, t: State, h: Held)
    requires InStep(s) && IsRun(c, s, actions, t) && RoomyRun(c, s, actions) && t.generation == s.generation
    ensures InStep(t)
    ensures Sounding(t, h) == Holder(h, Sounding(s, h), Current(Pushed(c, s, actions), s.generation))
    decreases |actions|
  {
    hide Apply, Enabled, Roomy, InStep, Sounding, PushedBy, EffectOn;
    if actions != [] {
      var a, s' := actions[0], Apply(c, s, actions[0]);
      GenerationsGrow(c, s, a);
      RunGenerationsGrow(c, s', actions[1..], t);
      StepSounds(c, s, a, h);
      RunSounds(c, s', actions[1..], t, h);
      var first, rest := PushedBy(s, a), Pushed(c, s', actions[1..]);
      CurrentConcat(first, rest, s.generation);
      HolderConcat(h, Sounding(s, h), Current(first, s.generation), Current(rest, s.generation));
    }
  }

  /** With nothing left on its way, what sounds is what the plug-in holds. */
  lemma QuietSounds(s: State, h: Held)
    requires Quiet(s)
    ensures Sounding(s, h) == HeldBy(s, h)
  {
    hide EffectOn;
  }

  lemma ReachedInStep(c: Config, before: seq<Action>, s: State)
    requires IsRun(c, Init(), before, s)
    ensures forall p :: p in s.pending ==> p.generation == s.seen
  {
    hide EffectOn, Apply, Enabled;
    assert Inv(Init());
    RunKeepsInv(c, Init(), before, s);
  }

  /**
   * An uncontended send sounds: if no reset comes, the pending queue has room and no later message is
   * about h, then once the callback is quiet, h is held by the very call that pressed it, or not held
   * if the call released it.
   */
  lemma UncontendedSendSounds(c: Config, before: seq<Action>, s: State, data: seq<byte>, sent: State,
                              actions: seq<Action>, t: State, h: Held)
    requires IsRun(c, Init(), before, s) && s.seen == s.generation && !s.needsReset
    requires IsRun(c, s, SendSteps(|s.calls|, data), sent)
    requires IsRun(c, sent, actions, t) && RoomyRun(c, sent, actions) && t.generation == s.generation && Quiet(t)
    requires forall p :: p in Pushed(c, sent, actions) ==> EffectOn(p.data, h) == Keep
    ensures EffectOn(data, h) == Press ==> h in t.held && t.held[h] == |s.calls|
    ensures EffectOn(data, h) == Release ==> h !in t.held
  {
    hide EffectOn, Apply, Enabled, IsRun, RoomyRun, IsWellFormed, IsCriticalRelease;
    ReachedInStep(c, before, s);
    UncontendedSendReachesTheRing(c, s, data, sent);
    RunSounds(c, sent, actions, t, h);
    SendSounds(s, data, h);
    IndifferentPackets(h, Sounding(sent, h), Pushed(c, sent, actions), s.generation);
    QuietSounds(t, h);
  }

  /** A message that went through has the last word. */
  lemma SendSounds(s: State, data: seq<byte>, h: Held)
    ensures Sounding(AfterSend(s, data), h) ==
            match EffectOn(data, h)
            case Press => Some(|s.calls|)
            case Release => None
            case Keep => Sounding(s, h)
  {
    hide EffectOn;
    var sent, p, g := AfterSend(s, data), Packet(|s.calls|, s.generation, data), s.generation;
    assert Line(sent) == Line(s) + [p];
    CurrentConcat(Line(s), [p], g);
    assert [p][1..] == [] && Current([p], g) == [p] && HeldBy(sent, h) == HeldBy(s, h);
    HolderConcat(h, HeldBy(s, h), Current(Line(s), g), [p]);
    HolderOfOne(h, Sounding(s, h), p);
  }

  lemma {:induction false} IndifferentPackets(h: Held, before: Option<nat>, packets: seq<Packet>, g: nat)
    requires forall p :: p in packets ==> EffectOn(p.data, h) == Keep
    ensures Holder(h, before, Current(packets, g)) == before
    decreases |packets|
  {
    hide EffectOn;
    if packets != [] {
      IndifferentPackets(h, before, packets[1..], g);
      HolderOfOne(h, before, packets[0]);
      HolderConcat(h, before, Current(packets[..1], g), Current(packets[1..], g));
      CurrentConcat(packets[..1], packets[1..], g);
      assert packets == packets[..1] + packets[1..];
    }
  }

  // -------------------------------------------------------------- the callback drains

  predicate IsCallback(a: Action) {
    a.Observe? || a.Pop? || a.Judge? || a.SendReset? || a.Deliver? || a.ClearReset?
  }

  /** A run of the callback alone: it pushes nothing and asks for no reset. */
  ghost predicate IsDrain(c: Config, s: State, actions: seq<Action>, t: State) {
    IsRun(c, s, actions, t) && RoomyRun(c, s, actions) && forall a :: a in actions ==> IsCallback(a)
  }

  lemma DrainStep(c: Config, s: State, a: Action, rest: seq<Action>, t: State)
    requires Enabled(c, s, a) && Roomy(c, s, a) && IsCallback(a) && IsDrain(c, Apply(c, s, a), rest, t)
    ensures IsDrain(c, s, [a] + rest, t)
  {
    hide Apply, Enabled, Roomy, IsCallback;
    assert ([a] + rest)[1..] == rest;
  }

  lemma NothingToDrain(c: Config, s: State)
    requires InStep(s) && Line(s) == []
    ensures IsDrain(c, s, [], s) && Quiet(s)
  {
  }

  /** In step, the callback can empty its line, never letting the pending queue grow. */
  lemma {:induction false} DrainInStep(c: Config, s: State) returns (actions: seq<Action>, t: State)
    requires InStep(s) && c.maxPending > 0
    ensures IsDrain(c, s, actions, t) && Quiet(t) && t.generation == s.generation
    decreases |s.pending| + (if s.popped.Some? then 2 else 0) + 3 * |s.ring|
  {
    hide EffectOn, Pressed, IsCriticalRelease, Judged, IsDrain;
    var a: Action;
    if s.pending != [] {
      a := Deliver;
      DeliverSounds(c, s, Key(0, 0));
    } else if s.popped.Some? {
      a := Judge;
      JudgeTakes(c, s);
      JudgeSounds(c, s);
    } else if s.ring != [] {
      a := Pop;
    } else {
      actions, t := [], s;
      NothingToDrain(c, s);
      return;
    }
    var rest: seq<Action>;
    rest, t := DrainInStep(c, Apply(c, s, a));
    DrainStep(c, s, a, rest, t);
    actions := [a] + rest;
  }

  /** From every reachable state the callback alone can become quiet. */
  lemma CallbackCanDrain(c: Config, before: seq<Action>, s: State) returns (actions: seq<Action>, t: State)
    requires IsRun(c, Init(), before, s) && c.maxPending > 0
    ensures IsDrain(c, s, actions, t) && Quiet(t) && t.generation == s.generation
  {
    hide EffectOn, Pressed, Judged, IsDrain, IsRun;
    ReachedInStep(c, before, s);
    var seen := Apply(c, s, Observe);
    if seen.needsReset {
      var silent := Apply(c, seen, SendReset);
      var clear := Apply(c, silent, ClearReset);
      actions, t := DrainInStep(c, clear);
      DrainStep(c, silent, ClearReset, actions, t);
      actions := [ClearReset] + actions;
      DrainStep(c, seen, SendReset, actions, t);
      actions := [SendReset] + actions;
    } else {
      actions, t := DrainInStep(c, seen);
    }
    DrainStep(c, s, Observe, actions, t);
    actions := [Observe] + actions;
  }

  lemma CallbackStep(c: Config, s: State, a: Action)
    requires Enabled(c, s, a) && IsCallback(a)
    ensures PushedBy(s, a) == [] && Apply(c, s, a).generation == s.generation
  {
    hide CallbackMidi.Admit, EffectOn, Pressed, IsCriticalRelease;
  }

  lemma {:induction false} DrainPushesNothing(c: Config, s: State, actions: seq<Action>, t: State)
    requires IsDrain(c, s, actions, t)
    ensures Pushed(c, s, actions) == [] && t.generation == s.generation
    decreases |actions|
  {
    hide Apply, Enabled, IsCallback, PushedBy, Roomy;
    if actions != [] {
      CallbackStep(c, s, actions[0]);
      DrainPushesNothing(c, Apply(c, s, actions[0]), actions[1..], t);
    }
  }

  /** Whenever a key or pedal can be pressed at all, an uncontended press sounds once the callback has drained. */
  lemma PressSoundsAfterADrain(c: Config, before: seq<Action>, s: State, data: seq<byte>, h: Held)
    requires IsRun(c, Init(), before, s) && s.seen == s.generation && !s.needsReset && c.maxPending > 0
    requires |data| <= 3 && IsWellFormed(data) && EffectOn(data, h) == Press
    requires var room := c.ringCapacity - |s.ring|; room > c.ringCapacity / 8 || room > 256
    ensures var sent := AfterSend(s, data);
            && IsRun(c, s, SendSteps(|s.calls|, data), sent)
            && (exists actions, t :: IsDrain(c, sent, actions, t) && Quiet(t))
            && forall actions, t :: IsDrain(c, sent, actions, t) && Quiet(t) ==>
                 h in t.held && t.held[h] == |s.calls|
  {
    hide EffectOn, Apply, Enabled, IsRun, RoomyRun, IsWellFormed, IsCriticalRelease, Quiet;
    var sent := AfterSend(s, data);
    UncontendedSendReachesTheRing(c, s, data, sent);
    RunsConcat(c, Init(), before, s, SendSteps(|s.calls|, data), sent);
    var actions, t := CallbackCanDrain(c, before + SendSteps(|s.calls|, data), sent);
    forall actions, t | IsDrain(c, sent, actions, t) && Quiet(t)
      ensures h in t.held && t.held[h] == |s.calls|
    {
      DrainPushesNothing(c, sent, actions, t);
      UncontendedSendSounds(c, before, s, data, sent, actions, t, h);
    }
  }

  /**
   * A reset can be asked for in every state, by whichever way, and silences everything: once the callback
   * has drained, nothing is held.
   */
  lemma ResetSilencesEverything(c: Config, before: seq<Action>, s: State)
    requires IsRun(c, Init(), before, s)
    ensures Enabled(c, s, RequestReset) && Enabled(c, s, TakeResetRequest)
    ensures forall reset, actions, t ::
              reset in {RequestReset, TakeResetRequest} && IsDrain(c, Apply(c, s, reset), actions, t) && Quiet(t) ==>
                t.held == map[]
  {
    hide Apply, IsRun, RoomyRun, IsDrain;
    assert Inv(Init());
    RunKeepsInv(c, Init(), before, s);
    forall reset, actions, t |
      reset in {RequestReset, TakeResetRequest} && IsDrain(c, Apply(c, s, reset), actions, t) && Quiet(t)
      ensures t.held == map[]
    {
      ResetSilences(c, s, reset, actions, t);
    }
  }

  lemma ResetSilences(c: Config, s: State, reset: Action, actions: seq<Action>, t: State)
    requires Inv(s) && (reset.RequestReset? || reset.TakeResetRequest?)
    requires IsDrain(c, Apply(c, s, reset), actions, t) && Quiet(t)
    ensures t.held == map[]
  {
    hide EffectOn, IsRun, RoomyRun, IsCallback, CallbackMidi.Admit;
    StepKeepsInv(c, s, reset);
    var asked := Apply(c, s, reset);
    RunKeepsInv(c, asked, actions, t);
    DrainPushesNothing(c, asked, actions, t);
    DrainKeepsCalls(c, asked, actions, t);
    forall h
      ensures h !in t.held
    {
      assert h in t.held ==> Pressing(t, h, t.held[h]);
      assert h in t.held ==> StampInv(s, t.held[h]);
    }
  }

  lemma {:induction false} DrainKeepsCalls(c: Config, s: State, actions: seq<Action>, t: State)
    requires IsDrain(c, s, actions, t)
    ensures t.calls == s.calls
    decreases |actions|
  {
    hide Apply, Enabled, Roomy;
    if actions != [] {
      assert IsCallback(actions[0]);
      CallbackKeepsCalls(c, s, actions[0]);
      DrainKeepsCalls(c, Apply(c, s, actions[0]), actions[1..], t);
    }
  }

  lemma {:induction false} RunsConcat(c: Config, s: State, a: seq<Action>, m: State, b: seq<Action>, t: State)
    requires IsRun(c, s, a, m) && IsRun(c, m, b, t)
    ensures IsRun(c, s, a + b, t)
    decreases |a|
  {
    hide Apply, Enabled;
    if a == [] {
      assert a + b == b;
    } else {
      assert (a + b)[0] == a[0] && (a + b)[1..] == a[1..] + b;
      RunsConcat(c, Apply(c, s, a[0]), a[1..], m, b, t);
    }
  }

  // ------------------------------------------------- sequential senders, both directions

  /** Every call was sent, and none began before those before it had returned. */
  predicate SentInTurn(calls: seq<Call>) {
    && (forall i :: 0 <= i < |calls| ==> calls[i].phase.Done? && calls[i].phase.outcome == Sent)
    && (forall i, j :: 0 <= i < j < |calls| ==> i in calls[j].before)
  }

  /** A call keeps its message and what it began after, and a call that has returned changes no more. */
  predicate Continues(calls: seq<Call>, calls': seq<Call>) {
    && |calls| <= |calls'|
    && forall i :: 0 <= i < |calls| ==>
         && calls'[i].data == calls[i].data && calls'[i].before == calls[i].before
         && (calls[i].phase.Done? ==> calls'[i] == calls[i])
  }

  lemma CallbackKeepsCalls(c: Config, s: State, a: Action)
    requires Enabled(c, s, a) && !IsProducer(a)
    ensures Apply(c, s, a).calls == s.calls
  {
    hide CallbackMidi.Admit, EffectOn, Pressed, IsCriticalRelease;
  }

  lemma StepContinues(c: Config, s: State, a: Action)
    requires Enabled(c, s, a)
    ensures Continues(s.calls, Apply(c, s, a).calls)
  {
    hide Judged, Observed, EffectOn, Pressed, IsCriticalRelease;
    if !IsProducer(a) { CallbackKeepsCalls(c, s, a); }
  }

  lemma {:induction false} RunContinues(c: Config, s: State, actions: seq<Action>, t: State)
    requires IsRun(c, s, actions, t)
    ensures Continues(s.calls, t.calls)
    decreases |actions|
  {
    hide Apply, Enabled;
    if actions != [] {
      StepContinues(c, s, actions[0]);
      RunContinues(c, Apply(c, s, actions[0]), actions[1..], t);
    }
  }

  /** How many calls have returned, when at most the last has not. */
  function ReturnedCount(s: State): nat {
    if s.calls != [] && !s.calls[|s.calls| - 1].phase.Done? then |s.calls| - 1 else |s.calls|
  }

  lemma StillOut(s: State, i: nat, j: nat)
    requires CallsInv(s) && i < |s.calls| && j < |s.calls| && !s.calls[i].phase.Done?
    ensures i !in s.calls[j].before
  {
    assert BeforeInv(s, j, i);
  }

  /** The only calls that return do so by pushing, and they are the first that had not returned. */
  lemma TurnStep(c: Config, s: State, a: Action, t: State)
    requires CallsInv(s) && Enabled(c, s, a) && IsProducer(a)
    requires Continues(Apply(c, s, a).calls, t.calls) && SentInTurn(t.calls)
    ensures var s' := Apply(c, s, a);
            if a.Push? then
              a.i == ReturnedCount(s) < |t.calls| && ReturnedCount(s') == a.i + 1
              && PushedBy(s, a) == [Packet(a.i, s.calls[a.i].phase.stamp, t.calls[a.i].data)]
            else ReturnedCount(s') == ReturnedCount(s) && PushedBy(s, a) == []
  {
    hide EffectOn, Pressed, IsCriticalRelease, Judged, Observed, LostInv, StampInv;
    var s' := Apply(c, s, a);
    var n := |s.calls|;
    if a.Begin? {
      assert t.calls[n].before == s'.calls[n].before == Returned(s);
      assert n > 0 ==> n - 1 in t.calls[n].before;
    } else {
      assert s'.calls[n - 1].before == s.calls[n - 1].before;
      StillOut(s, a.i, n - 1);
      assert a.i !in t.calls[n - 1].before;
      assert s'.calls[a.i].phase.Done? ==> t.calls[a.i] == s'.calls[a.i];
    }
  }

  lemma AllReturned(s: State)
    requires SentInTurn(s.calls)
    ensures ReturnedCount(s) == |s.calls|
  {
  }

  /** Calls made in turn and all sent are pushed in their order, each once. */
  lemma {:induction false} PushedInTurn(c: Config, s: State, actions: seq<Action>, t: State)
    requires CallsInv(s) && IsRun(c, s, actions, t) && SentInTurn(t.calls) && s.generation == t.generation == 0
    ensures ReturnedCount(s) <= |t.calls|
    ensures Data(Current(Pushed(c, s, actions), 0)) == Messages(t.calls)[ReturnedCount(s)..]
    decreases |actions|
  {
    hide Apply, Enabled, CallsInv, ReturnedCount, PushedBy;
    if actions == [] {
      AllReturned(s);
    } else {
      var a, s' := actions[0], Apply(c, s, actions[0]);
      GenerationsGrow(c, s, a);
      RunGenerationsGrow(c, s', actions[1..], t);
      RunContinues(c, s', actions[1..], t);
      CallsStep(c, s, a);
      PushedInTurn(c, s', actions[1..], t);
      var rest := Pushed(c, s', actions[1..]);
      CurrentConcat(PushedBy(s, a), rest, 0);
      if IsProducer(a) {
        TurnStep(c, s, a, t);
        if a.Push? {
          PushedStamp(c, s, a);
          assert Current(PushedBy(s, a), 0) == PushedBy(s, a);
          assert Messages(t.calls)[a.i..] == [t.calls[a.i].data] + Messages(t.calls)[a.i + 1..];
        }
      } else {
        CallbackKeepsCalls(c, s, a);
        SameCallsSameCount(s, s', a);
      }
    }
  }

  lemma SameCallsSameCount(s: State, t: State, a: Action)
    requires s.calls == t.calls && !IsProducer(a)
    ensures ReturnedCount(s) == ReturnedCount(t) && PushedBy(s, a) == []
  {
  }

  /** Before the first reset every stamp is zero. */
  lemma PushedStamp(c: Config, s: State, a: Action)
    requires CallsInv(s) && s.generation == 0 && a.Push? && Enabled(c, s, a)
    ensures s.calls[a.i].phase.stamp == 0
  {
    assert StampInv(s, a.i);
  }

  function Data(packets: seq<Packet>): seq<seq<byte>> {
    seq(|packets|, i requires 0 <= i < |packets| => packets[i].data)
  }

  lemma {:induction false} HolderIsHolding(h: Held, before: Option<nat>, packets: seq<Packet>)
    ensures Holder(h, before, packets).Some? == Holding(h, before.Some?, Data(packets))
    decreases |packets|
  {
    hide EffectOn;
    if packets != [] {
      assert Data(packets)[1..] == Data(packets[1..]);
      var next := match EffectOn(packets[0].data, h)
                  case Press => Some(packets[0].call)
                  case Release => None
                  case Keep => before;
      HolderIsHolding(h, next, packets[1..]);
    }
  }

  /**
   * When messages are issued one after another, all are sent, no reset comes and the pending queue
   * has room, then what sounds is exactly what the messages leave pressed.
   */
  lemma SequentialSendersAreHeard(c: Config, actions: seq<Action>, t: State, h: Held)
    requires IsRun(c, Init(), actions, t) && RoomyRun(c, Init(), actions) && Quiet(t) && t.generation == 0
    requires SentInTurn(t.calls)
    ensures h in t.held <==> Holding(h, false, Messages(t.calls))
  {
    hide EffectOn, Apply, Enabled, IsRun, RoomyRun;
    assert Inv(Init()) && InStep(Init()) && Sounding(Init(), h) == None;
    RunSounds(c, Init(), actions, t, h);
    PushedInTurn(c, Init(), actions, t);
    HolderIsHolding(h, None, Current(Pushed(c, Init(), actions), 0));
    QuietSounds(t, h);
  }
}
