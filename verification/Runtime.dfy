/** The supervisor's state as the program keeps it: fields updated one by one under a lock.  Each
    method is one critical section and is proved to leave exactly the state, and to hand out exactly
    the work, that RecorderState says. */
module Runtime {
  import opened Wrappers
  import opened RecorderState

  class RuntimeState {
    var tx: Option<ServiceId>
    var generation: nat
    var desired: bool
    var manual: bool
    var settings: Settings
    var game: Option<Game>
    var gate: Option<Verdict>
    var lookup: bool
    var quotaBlocked: bool

    ghost function State(): Inner
      reads this
    {
      Inner(tx, generation, desired, manual, settings, game, gate, lookup, quotaBlocked)
    }

    constructor (settings: Settings)
      ensures State() == Initial(settings)
    {
      tx := None;
      generation := 0;
      desired := false;
      manual := false;
      this.settings := settings;
      game := None;
      gate := None;
      lookup := false;
      quotaBlocked := false;
    }

    method InstallRecordingSender(service: ServiceId) returns (issued: nat)
      modifies this
      ensures State() == InstallSender(old(State()), service) && issued == generation
    {
      generation := generation + 1;
      desired := true;
      tx := Some(service);
      issued := generation;
    }

    method AcceptServiceStatus(from: nat, recording: bool) returns (accepted: bool)
      modifies this
      ensures (State(), accepted) == AcceptStatus(old(State()), from, recording)
    {
      if generation != from || tx.None? {
        return false;
      }
      if !recording {
        tx := None;
        if !quotaBlocked {
          desired := false;
          manual := false;
        }
        generation := generation + 1;
      }
      return true;
    }

    method AcceptServiceQuota(from: nat) returns (accepted: bool)
      modifies this
      ensures (State(), accepted) == AcceptQuota(old(State()), from)
    {
      if generation != from || tx.None? {
        return false;
      }
      quotaBlocked := true;
      return true;
    }

    method PrepareServiceRestart(builds: bool) returns (prepared: Result<Prepared, BuildError>)
      modifies this
      ensures (State(), prepared) == PrepareRestart(old(State()), builds)
    {
      var shouldRun := desired && !quotaBlocked
                       && (manual || (RecorderShouldRun(settings, game) && GateAllows(gate)));
      if shouldRun && !builds {
        if tx.None? {
          generation := generation + 1;
        }
        return Err(BuildError);
      }
      var outgoing := tx;
      tx := None;
      generation := generation + 1;
      var waiting := desired && !quotaBlocked && !manual && !RecorderShouldRun(settings, game);
      return Ok(Prepared(outgoing,
                         if shouldRun then Some(generation) else None,
                         if waiting then Some(generation) else None));
    }

    method InstallPreparedServiceRestart(planned: nat, service: ServiceId)
      returns (installed: Result<nat, ServiceId>)
      modifies this
      ensures (State(), installed.Ok?) == InstallPrepared(old(State()), planned, service)
      ensures installed == if installed.Ok? then Ok(generation) else Err(service)
    {
      if !desired || quotaBlocked || generation != planned || tx.Some? {
        return Err(service);
      }
      var issued := InstallRecordingSender(service);
      return Ok(issued);
    }

    method CommitPreparedRestart(next: Settings, builds: bool, service: ServiceId)
      returns (committed: Result<Committed, BuildError>)
      modifies this
      ensures (State(), committed) == CommitSettings(old(State()), next, builds, service)
    {
      var cleared := game.Some? && !StillConfigured(next, game);
      var active := if cleared then None else game;
      var baseShouldRun := RecorderShouldRun(next, active);
      var shouldRun := desired && !quotaBlocked
                       && (manual || (baseShouldRun && (cleared || GateAllows(gate))));
      var waiting := desired && !quotaBlocked && !manual && !baseShouldRun;
      if shouldRun && !builds {
        return Err(BuildError);
      }
      settings := next;
      if cleared {
        game := None;
        gate := None;
        lookup := false;
      }
      var outgoing := tx;
      tx := None;
      var replacement := None;
      if shouldRun {
        var issued := InstallRecordingSender(service);
        replacement := Some(issued);
      }
      if waiting {
        generation := generation + 1;
      }
      return Ok(Committed(outgoing, replacement, cleared, if waiting then Some(generation) else None));
    }

    method Start(builds: bool, service: ServiceId) returns (outcome: Result<StartOutcome, BuildError>)
      modifies this
      ensures (State(), outcome) == StartRecording(old(State()), builds, service)
    {
      if tx.Some? {
        return Ok(AlreadyRunning);
      }
      desired := true;
      if quotaBlocked {
        return Ok(Blocked);
      } else if manual || (RecorderShouldRun(settings, game) && GateAllows(gate)) {
        if !builds {
          return Err(BuildError);
        }
        var issued := InstallRecordingSender(service);
        return Ok(Spawned(issued));
      }
      return Ok(NotStarted);
    }

    method Stop() returns (outgoing: Option<ServiceId>)
      modifies this
      ensures (State(), outgoing) == StopRecording(old(State()))
    {
      desired := false;
      manual := false;
      generation := generation + 1;
      outgoing := tx;
      tx := None;
    }

    method StartManualSession(builds: bool, service: ServiceId)
      returns (outcome: Result<SessionOutcome, BuildError>)
      modifies this
      ensures (State(), outcome) == StartSession(old(State()), builds, service)
    {
      if quotaBlocked {
        return Ok(SessionBlocked);
      }
      manual := true;
      desired := true;
      if tx.Some? {
        return Ok(Existing(tx.value));
      }
      if !builds {
        return Err(BuildError);
      }
      var issued := InstallRecordingSender(service);
      return Ok(SessionSpawned(issued));
    }

    method PrepareManualSessionStop(builds: bool)
      returns (outcome: Result<(Option<ServiceId>, Option<Prepared>), BuildError>)
      modifies this
      ensures (State(), outcome) == StopSession(old(State()), builds)
    {
      manual := false;
      if desired && !quotaBlocked && !(RecorderShouldRun(settings, game) && GateAllows(gate)) {
        var restart := PrepareServiceRestart(builds);
        match restart {
          case Ok(prepared) => return Ok((prepared.oldTx, Some(prepared)));
          case Err(error) => return Err(error);
        }
      }
      return Ok((tx, None));
    }

    method PlanDetectionTransition(seen: Option<Game>, lookupReady: bool, builds: bool)
      returns (restart: Result<Option<Prepared>, BuildError>)
      modifies this
      ensures (State(), restart) == DetectGame(old(State()), seen, lookupReady, builds)
    {
      var detected := if StillConfigured(settings, seen) then seen else None;
      if SameWindow(game, detected) {
        var modeChanged := ModeChanged(game, detected);
        game := detected;
        if !modeChanged {
          return Ok(None);
        }
      } else {
        game := detected;
        if GateApplies(settings, game) && lookupReady {
          gate := Some(Pending);
          lookup := true;
        } else {
          gate := None;
          lookup := false;
        }
      }
      var prepared := PrepareServiceRestart(builds);
      if prepared.Err? {
        return Err(prepared.error);
      }
      return Ok(Some(prepared.value));
    }

    method ResolveLeagueGate(answer: Lookup, builds: bool)
      returns (resolution: Result<Option<Resolution>, BuildError>)
      modifies this
      ensures (State(), resolution) == ResolveGate(old(State()), answer, builds)
    {
      if !lookup || answer.Unresolved? {
        return Ok(None);
      }
      lookup := false;
      if answer.category !in settings.recordedQueues {
        gate := Some(Denied);
        return Ok(Some(Deny));
      }
      gate := Some(Allowed);
      if manual {
        return Ok(Some(Allow(None)));
      }
      var prepared := PrepareServiceRestart(builds);
      if prepared.Err? {
        return Err(prepared.error);
      }
      return Ok(Some(Allow(Some(prepared.value))));
    }

    /** The closing section of a quota recheck: block again, or unblock and say whether to start. */
    method SettleQuotaRecheck(over: bool) returns (restart: bool)
      modifies this
      ensures (State(), restart) == SettleRecheck(old(State()), over)
    {
      quotaBlocked := over;
      restart := !over && desired;
    }
  }
}
