// The input preparation: what a published routing profile does to a message before it is admitted.
module InputProfile {
  import opened Wrappers
  import opened Midi

  type Map128 = m: seq<byte> | |m| == 128 witness seq(128, _ => 0)

  datatype Profile = Profile(channelFilter: Option<byte>, noteMin: Option<byte>, noteMax: Option<byte>,
                             ccMap: Map128, programMap: Map128)

  /**
   * None published, or one that may be withdrawn at any moment; `profile` is the source's, if it has
   * an enabled one.
   */
  datatype Preparation =
    | Unpublished
    | Published(valid: bool, channelFilter: Option<byte>, profile: Option<Profile>)

  predicate AcceptsChannel(filter: Option<byte>, data: seq<byte>) {
    data != [] && 0x80 <= data[0] < 0xF0 && filter.Some? ==> Channel(data[0]) + 1 == filter.value
  }

  /** A lookup in place of the first data byte; none if that byte has no entry. */
  function Mapped(m: Map128, data: seq<byte>): Option<seq<byte>>
    requires data != []
  {
    if |data| < 2 then Some(data)
    else if data[1] < 128 then Some(data[1 := m[data[1]]])
    else None
  }

  function ApplyProfile(profile: Profile, data: seq<byte>): Option<seq<byte>> {
    if data == [] || data[0] >= 0xF0 then Some(data)
    else if profile.channelFilter.Some? && Channel(data[0]) + 1 != profile.channelFilter.value then None
    else
      match Kind(data[0])
      case 8 => if InRange(profile, data) then Some(data) else None
      case 9 => if InRange(profile, data) then Some(data) else None
      case 11 => Mapped(profile.ccMap, data)
      case 12 => Mapped(profile.programMap, data)
      case _ => Some(data)
  }

  predicate InRange(profile: Profile, data: seq<byte>) {
    |data| >= 2 ==>
      && (profile.noteMin.Some? ==> data[1] >= profile.noteMin.value)
      && (profile.noteMax.Some? ==> data[1] <= profile.noteMax.value)
  }

  /** What is admitted of a normalised message: nothing if it is filtered out. */
  function Prepare(how: Preparation, data: seq<byte>): Option<seq<byte>> {
    match how
    case Unpublished => Some(data)
    case Published(valid, filter, profile) =>
      if !valid || !AcceptsChannel(filter, data) then None
      else if profile.Some? then ApplyProfile(profile.value, data)
      else Some(data)
  }

  /**
   * Preparation keeps a message's length and status, so also its channel, and every byte but
   * the number of a controller or a program.
   */
  lemma PreparationKeepsTheKind(how: Preparation, data: seq<byte>)
    requires data != [] && Prepare(how, data).Some?
    ensures var r := Prepare(how, data).value;
            && |r| == |data| && r[0] == data[0]
            && (forall i :: 2 <= i < |data| ==> r[i] == data[i])
            && (|data| > 1 && Kind(data[0]) !in {11, 12} ==> r == data)
  {
  }

  /**
   * A preparation cannot separate a press from its release: messages about the same key, or the
   * same controller, of a channel are both let through or both filtered out, and those let
   * through are still about one key or one controller.
   */
  lemma PressAndReleasePassAlike(how: Preparation, press: seq<byte>, release: seq<byte>)
    requires IsChannelMessage(press) && IsChannelMessage(release)
    requires Channel(press[0]) == Channel(release[0]) && press[1] == release[1]
    requires (Kind(press[0]) in {8, 9} && Kind(release[0]) in {8, 9}) || Kind(press[0]) == Kind(release[0]) == 11
    ensures Prepare(how, press).Some? <==> Prepare(how, release).Some?
    ensures Prepare(how, press).Some? ==>
              && Prepare(how, press).value[1] == Prepare(how, release).value[1]
              && (Kind(press[0]) in {8, 9} ==> Prepare(how, press).value[1] == press[1])
  {
  }

  /** The channel filters that are in force, by number from one to sixteen. */
  predicate Passes(channel: int, filter: Option<byte>, profile: Option<Profile>) {
    && (filter.Some? ==> filter.value == channel + 1)
    && (profile.Some? && profile.value.channelFilter.Some? ==> profile.value.channelFilter.value == channel + 1)
  }

  /**
   * What a published preparation admits, message by message: none on a channel filtered out, no note
   * outside the range, a controller's or program's number looked up in its own map, all else as it is.
   */
  lemma WhatIsAdmitted(filter: Option<byte>, profile: Profile, channel: int, a: byte, b: byte)
    requires 0 <= channel < 16 && a < 128 && b < 128
    ensures var how := Published(true, filter, Some(profile));
            var passes := Passes(channel, filter, Some(profile));
            var inRange := profile.noteMin.GetOr(0) <= a <= profile.noteMax.GetOr(127);
            && Prepare(how, [0x80 + channel, a, b])
               == (if passes && inRange then Some([0x80 + channel, a, b]) else None)
            && Prepare(how, [0x90 + channel, a, b])
               == (if passes && inRange then Some([0x90 + channel, a, b]) else None)
            && Prepare(how, [0xA0 + channel, a, b]) == (if passes then Some([0xA0 + channel, a, b]) else None)
            && Prepare(how, [0xB0 + channel, a, b])
               == (if passes then Some([0xB0 + channel, profile.ccMap[a], b]) else None)
            && Prepare(how, [0xC0 + channel, a])
               == (if passes then Some([0xC0 + channel, profile.programMap[a]]) else None)
            && Prepare(how, [0xD0 + channel, a]) == (if passes then Some([0xD0 + channel, a]) else None)
            && Prepare(how, [0xE0 + channel, a, b]) == (if passes then Some([0xE0 + channel, a, b]) else None)
  {
    assert [0xB0 + channel, a, b][1 := profile.ccMap[a]] == [0xB0 + channel, profile.ccMap[a], b];
    assert [0xC0 + channel, a][1 := profile.programMap[a]] == [0xC0 + channel, profile.programMap[a]];
  }

  /**
   * Without a profile the bridge's channel filter alone decides, before anything is published all is
   * admitted, and once the preparation was withdrawn nothing is. System messages pass every filter.
   */
  lemma WhatIsAdmittedOtherwise(filter: Option<byte>, profile: Option<Profile>, data: seq<byte>)
    requires data != [] && data[0] >= 0x80
    ensures Prepare(Unpublished, data) == Some(data)
    ensures Prepare(Published(false, filter, profile), data) == None
    ensures data[0] >= 0xF0 ==> Prepare(Published(true, filter, profile), data) == Some(data)
    ensures data[0] < 0xF0 ==>
              Prepare(Published(true, filter, None), data)
              == if Passes(data[0] % 16, filter, None) then Some(data) else None
  {
  }
}
