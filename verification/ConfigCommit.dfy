// Committing a configuration change to the running engine and to disk, with rollback.
module ConfigCommit {
  import opened Wrappers

  // Gains and equalizer settings are only compared, so they are opaque values.
  type Gain = int
  type Eq = int

  const DEFAULT_EQ: Eq := 0
  const BUNDLED_EQ_KEY: string := "__bundled_default__"

  datatype Config = Config(
    enabled: bool,
    gameMode: bool,
    gain: Gain,
    limiter: bool,
    pluginId: Option<string>,
    eqByPlugin: map<string, Eq>,
    rest: int)

  function EqOf(c: Config): Eq {
    var key := c.pluginId.GetOr(BUNDLED_EQ_KEY);
    if key in c.eqByPlugin then c.eqByPlugin[key] else DEFAULT_EQ
  }

  /** What the engine plays with. */
  datatype Controls = Controls(gain: Gain, limiter: bool, eq: Eq)

  function ControlsOf(c: Config): Controls {
    Controls(c.gain, c.limiter, EqOf(c))
  }

  /**
   * Whether audio is to run. Switching it on takes effect at once only if the bridge or the audio
   * runs already; an edit that does not switch it leaves it as it was.
   */
  function DesiredRunning(previousEnabled: bool, nextEnabled: bool, initiallyRunning: bool, bridgeRunning: bool): bool {
    if !nextEnabled then false
    else if previousEnabled == nextEnabled then initiallyRunning
    else bridgeRunning || initiallyRunning
  }

  function ShouldStop(enabled: bool, restartAttempted: bool, running: bool): bool {
    !enabled || restartAttempted || running
  }

  // ------------------------------------------------------------------- the engine

  /** How a fallible call goes; a failed start may have left the old worker alone, or a pending request. */
  datatype Fortune = Fortune(ok: bool, untouched: bool, pending: bool)

  predicate AllWell(fortunes: seq<Fortune>) {
    forall f :: f in fortunes ==> f.ok
  }

  class Engine {
    var requested: bool
    var running: bool
    var live: Controls
    var gameMode: bool
    var bridge: Config
    var rtp: Config
    var disk: Config
    var stopFailed: bool
    var fortunes: seq<Fortune>
    const writable: bool

    constructor (disk: Config, requested: bool, running: bool, fortunes: seq<Fortune>, writable: bool)
      ensures this.disk == disk == bridge == rtp && this.requested == requested && this.running == running
      ensures live == ControlsOf(disk) && gameMode == disk.gameMode && !stopFailed && this.fortunes == fortunes
      ensures this.writable == writable
    {
      this.writable := writable;
      this.disk, bridge, rtp := disk, disk, disk;
      this.requested, this.running, this.fortunes := requested, running, fortunes;
      live, gameMode, stopFailed := ControlsOf(disk), disk.gameMode, false;
    }

    method Next() returns (f: Fortune)
      modifies this`fortunes
      ensures old(AllWell(fortunes)) ==> f.ok && AllWell(fortunes)
    {
      f := Fortune(true, false, false);
      if fortunes != [] {
        f, fortunes := fortunes[0], fortunes[1..];
      }
    }

    method SetGameMode(enabled: bool) returns (ok: bool)
      modifies this`fortunes, this`gameMode
      ensures gameMode == if ok then enabled else old(gameMode)
      ensures old(AllWell(fortunes)) ==> ok && AllWell(fortunes)
    {
      var f := Next();
      ok := f.ok;
      if ok {
        gameMode := enabled;
      }
    }

    method UpdateBridge(c: Config) returns (ok: bool)
      modifies this`fortunes, this`bridge
      ensures bridge == if ok then c else old(bridge)
      ensures old(AllWell(fortunes)) ==> ok && AllWell(fortunes)
    {
      var f := Next();
      ok := f.ok;
      if ok {
        bridge := c;
      }
    }

    method SyncRtp(c: Config) returns (ok: bool)
      modifies this`fortunes, this`rtp
      ensures ok ==> rtp == c
      ensures old(AllWell(fortunes)) ==> ok && AllWell(fortunes)
    {
      var f := Next();
      ok := f.ok;
      if ok {
        rtp := c;
      }
    }

    method Start(c: Config) returns (ok: bool)
      modifies this`fortunes, this`requested, this`running, this`live, this`gameMode
      ensures ok ==> running && requested && live == ControlsOf(c) && gameMode == c.gameMode
      ensures !ok ==> !running || (old(running) && requested == old(requested) && live == old(live))
      ensures old(AllWell(fortunes)) ==> ok && AllWell(fortunes)
    {
      var f := Next();
      ok := f.ok;
      if ok {
        running, requested, live, gameMode := true, true, ControlsOf(c), c.gameMode;
      } else if !f.untouched {
        running, requested := false, f.pending;
      }
    }

    /** A failing stop is only logged. */
    method Stop()
      modifies this`fortunes, this`requested, this`running, this`stopFailed
      ensures old(stopFailed) ==> stopFailed
      ensures old(AllWell(fortunes)) ==> AllWell(fortunes) && stopFailed == old(stopFailed)
      ensures (!running && !requested) || (stopFailed && running == old(running) && requested == old(requested))
    {
      var f := Next();
      if f.ok {
        running, requested := false, false;
      } else {
        stopFailed := true;
      }
    }

    method Control(c: Controls) returns (ok: bool)
      modifies this`fortunes, this`live
      ensures live == if ok then c else old(live)
      ensures old(AllWell(fortunes)) ==> ok && AllWell(fortunes)
    {
      var f := Next();
      ok := f.ok;
      if ok {
        live := c;
      }
    }

    /** One change writes at most once. */
    method Save(c: Config) returns (ok: bool)
      modifies this`disk
      ensures ok == writable && disk == if ok then c else old(disk)
    {
      ok := writable;
      if ok {
        disk := c;
      }
    }
  }

  // -------------------------------------------------------------- one change at a time

  datatype Result = Committed | Invalid | Failed(rolledBack: bool)

  /** The variables one change keeps while it is applied and, maybe, rolled back. */
  class Change {
    const engine: Engine
    const previous: Config
    const wasRunning: bool
    const wasRequested: bool
    const bridgeRunning: bool
    var restartAttempted: bool
    var stopAttempted: bool
    var applied: Controls

    constructor (engine: Engine, bridgeRunning: bool)
      ensures this.engine == engine && previous == engine.disk && this.bridgeRunning == bridgeRunning
      ensures wasRunning == engine.running && wasRequested == engine.requested
      ensures !restartAttempted && !stopAttempted && applied == ControlsOf(engine.disk)
    {
      this.engine, previous, this.bridgeRunning := engine, engine.disk, bridgeRunning;
      wasRunning, wasRequested := engine.running, engine.requested;
      restartAttempted, stopAttempted, applied := false, false, ControlsOf(engine.disk);
    }

    /** Until the worker is replaced, the tracked controls are the live ones. */
    ghost predicate Tracks()
      reads this, engine
    {
      && (engine.running ==> engine.requested)
      && (!restartAttempted && !stopAttempted ==> engine.running == wasRunning && engine.requested == wasRequested)
      && (!restartAttempted && engine.running ==> engine.live == applied)
      && (!restartAttempted && stopAttempted && !engine.stopFailed ==> !engine.running && !engine.requested)
    }

    /** Whether audio should run under a configuration, seen from the change so far. */
    ghost function Wanted(c: Config, stopped: bool): bool {
      DesiredRunning(previous.enabled, c.enabled, wasRunning || (stopped && c.enabled && wasRequested), bridgeRunning)
    }

    method ApplyControls(c: Config) returns (ok: bool)
      requires engine.live == applied
      modifies this`applied, engine`live, engine`fortunes
      ensures engine.live == applied
      ensures ok ==> applied == ControlsOf(c)
      ensures old(AllWell(engine.fortunes)) ==> ok && AllWell(engine.fortunes)
    {
      if applied.gain != c.gain {
        ok := engine.Control(applied.(gain := c.gain));
        if !ok {
          return;
        }
        applied := applied.(gain := c.gain);
      }
      if applied.limiter != c.limiter {
        ok := engine.Control(applied.(limiter := c.limiter));
        if !ok {
          return;
        }
        applied := applied.(limiter := c.limiter);
      }
      if applied.eq != EqOf(c) {
        ok := engine.Control(applied.(eq := EqOf(c)));
        if !ok {
          return;
        }
        applied := applied.(eq := EqOf(c));
      }
      ok := true;
    }

    /** Game mode of a running engine first, then the bridge's listener, then its network session. */
    method ApplyBridge(c: Config) returns (ok: bool)
      modifies engine`gameMode, engine`bridge, engine`rtp, engine`fortunes
      ensures ok ==> engine.bridge == c && engine.rtp == c && (engine.running ==> engine.gameMode == c.gameMode)
      ensures old(AllWell(engine.fortunes)) ==> ok && AllWell(engine.fortunes)
    {
      if engine.running {
        ok := engine.SetGameMode(c.gameMode);
        if !ok {
          return;
        }
      }
      ok := engine.UpdateBridge(c);
      if !ok {
        return;
      }
      ok := engine.SyncRtp(c);
    }

    /** From the attempt on, the worker counts as replaced. */
    method Restart(c: Config) returns (ok: bool)
      requires Tracks()
      modifies this`restartAttempted, this`applied
      modifies engine`requested, engine`running, engine`live, engine`gameMode, engine`fortunes
      ensures Tracks() && restartAttempted
      ensures ok ==> engine.running && engine.requested && engine.live == ControlsOf(c) && engine.gameMode == c.gameMode
      ensures old(AllWell(engine.fortunes)) ==> ok && AllWell(engine.fortunes)
    {
      hide AllWell, ControlsOf;
      restartAttempted := true;
      ok := engine.Start(c);
      if ok {
        applied := ControlsOf(c);
      }
    }

    method StopAudio()
      requires Tracks()
      modifies this`stopAttempted, engine`requested, engine`running, engine`stopFailed, engine`fortunes
      ensures Tracks() && stopAttempted && (old(engine.stopFailed) ==> engine.stopFailed)
      ensures !engine.stopFailed ==> !engine.running && !engine.requested
      ensures old(AllWell(engine.fortunes)) ==> AllWell(engine.fortunes) && engine.stopFailed == old(engine.stopFailed)
    {
      hide AllWell, ControlsOf;
      stopAttempted := true;
      engine.Stop();
    }

    method Apply(c: Config, force: bool) returns (ok: bool)
      requires Tracks()
      modifies this, engine
      ensures Tracks()
      ensures engine.disk == old(engine.disk)
      ensures (old(restartAttempted) ==> restartAttempted) && (old(stopAttempted) ==> stopAttempted)
      ensures old(engine.stopFailed) ==> engine.stopFailed
      ensures restartAttempted && !old(restartAttempted) ==> Wanted(c, old(stopAttempted))
      ensures stopAttempted && !old(stopAttempted) ==>
                !Wanted(c, old(stopAttempted)) && (!c.enabled || old(restartAttempted || engine.running))
      ensures ok ==> engine.bridge == c && engine.rtp == c
      ensures old(AllWell(engine.fortunes)) ==>
                ok && AllWell(engine.fortunes) && engine.stopFailed == old(engine.stopFailed)
      ensures var wanted := Wanted(c, old(stopAttempted));
              ok ==>
                if wanted then
                  && engine.running && engine.requested && engine.live == ControlsOf(c)
                  && (old(engine.running) || restartAttempted ==> engine.gameMode == c.gameMode)
                else if ShouldStop(c.enabled, old(restartAttempted), old(engine.running)) then
                  stopAttempted && (!engine.stopFailed ==> !engine.running && !engine.requested)
                else
                  engine.running == old(engine.running) && engine.requested == old(engine.requested)
                  && restartAttempted == old(restartAttempted) && stopAttempted == old(stopAttempted)
    {
      hide AllWell, ControlsOf;
      ok := ApplyBridge(c);
      if !ok {
        return;
      }
      var shouldRun := DesiredRunning(previous.enabled, c.enabled,
                                      wasRunning || (stopAttempted && c.enabled && wasRequested), bridgeRunning);
      if shouldRun && (force || restartAttempted || !engine.running) {
        ok := Restart(c);
      } else if !shouldRun && ShouldStop(c.enabled, restartAttempted, engine.running) {
        StopAudio();
      } else if shouldRun {
        ok := ApplyControls(c);
      }
    }

    method Commit(next: Config, force: bool, valid: bool) returns (r: Result)
      requires Tracks() && !restartAttempted && !stopAttempted && !engine.stopFailed && applied == ControlsOf(previous)
      requires engine.disk == previous == engine.bridge
      requires wasRunning ==> wasRequested && engine.gameMode == previous.gameMode
      modifies this, engine
      ensures r == Invalid <==> !valid
      ensures valid && old(AllWell(engine.fortunes)) ==>
                !engine.stopFailed && r == if engine.writable then Committed else Failed(true)
      // A refused configuration changes nothing.
      ensures r == Invalid ==> engine.disk == previous && engine.bridge == previous && engine.live == old(engine.live)
                               && engine.running == wasRunning && engine.requested == wasRequested
      // A committed one is on disk, in the bridge and in the engine.
      ensures r == Committed ==>
                && engine.disk == next && engine.bridge == next && engine.rtp == next
                && (if Wanted(next, false) then engine.running && engine.requested && engine.live == ControlsOf(next)
                    else engine.stopFailed || engine.requested == (next.enabled && wasRequested))
      // Switched off, audio stops; not switched, it stays as it was; switched on, it runs if it or the bridge did.
      ensures r == Committed && !next.enabled && !engine.stopFailed ==> !engine.running && !engine.requested
      ensures r == Committed && next.enabled && previous.enabled ==>
                engine.running == wasRunning && engine.requested == wasRequested
      ensures r == Committed && next.enabled && !previous.enabled ==>
                && engine.running == (bridgeRunning || wasRunning)
                && engine.requested == (bridgeRunning || wasRequested)
      // While it runs it plays with the new settings, and a restarted worker in the new mode.
      ensures r == Committed && engine.running && !engine.stopFailed ==>
                && engine.live.gain == next.gain && engine.live.limiter == next.limiter
                && (next.pluginId.Some? && next.pluginId.value in next.eqByPlugin ==>
                      engine.live.eq == next.eqByPlugin[next.pluginId.value])
                && (next.pluginId.None? && "__bundled_default__" in next.eqByPlugin ==>
                      engine.live.eq == next.eqByPlugin["__bundled_default__"])
                && (wasRunning || restartAttempted ==> engine.gameMode == next.gameMode)
      // A failed one leaves the disk alone, and a successful rollback restores the engine.
      ensures r.Failed? ==> engine.disk == previous
      ensures r == Failed(true) ==> engine.bridge == previous && engine.rtp == previous
      ensures r == Failed(true) && !engine.stopFailed ==>
                && engine.requested == (previous.enabled && wasRequested)
                && (engine.running ==> engine.requested)
                && (wasRunning && previous.enabled ==>
                      engine.running && engine.live == ControlsOf(previous) && engine.gameMode == previous.gameMode)
    {
      hide AllWell, ControlsOf;
      SettingsOf(next);
      if !valid {
        return Invalid;
      }
      var ok := Apply(next, force);
      if ok {
        ok := engine.Save(next);
      }
      if !ok {
        var rolledBack := Apply(previous, false);
        return Failed(rolledBack);
      }
      return Committed;
    }
  }

  /** A configuration plays with the equalizer of its plug-in, or else of the bundled one. */
  lemma SettingsOf(c: Config)
    ensures ControlsOf(c).gain == c.gain && ControlsOf(c).limiter == c.limiter
    ensures c.pluginId.Some? && c.pluginId.value in c.eqByPlugin ==>
              ControlsOf(c).eq == c.eqByPlugin[c.pluginId.value]
    ensures c.pluginId.None? && "__bundled_default__" in c.eqByPlugin ==>
              ControlsOf(c).eq == c.eqByPlugin["__bundled_default__"]
  {
  }

  /**
   * A rollback can lose a pending request for audio. Whenever the previous configuration had audio
   * switched off, and only the disk fails, the change is rolled back and the request is gone.
   */
  method RollbackLosesTheRequest(previous: Config, next: Config, force: bool, bridgeRunning: bool)
    returns (engine: Engine, wasRequested: bool, r: Result)
    requires !previous.enabled
    ensures r == Failed(true) && wasRequested && !engine.requested && engine.disk == previous
  {
    engine := new Engine(previous, true, false, [], false);
    wasRequested := engine.requested;
    var change := new Change(engine, bridgeRunning);
    r := change.Commit(next, force, true);
  }
}
