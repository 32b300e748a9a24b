/**
The mutable side of the handoff: the repository that owns both dictionaries, the coordinator that
reads, prepares and commits, the live browser session, and the locked service in front of them.
Every method is tied to the pure function of `Handoff` or `LiveControl` that the theorems are about.
*/
module InterventionService {
  import opened Prelude
  import opened Handoff
  import opened LiveControl

  class TransitionRepository {
    var interventions: map<Id, Intervention>
    var leases: map<Id, Lease>

    constructor ()
      ensures View() == Store(map[], map[])
    {
      interventions, leases := map[], map[];
    }

    function View(): Store
      reads this
    {
      Store(interventions, leases)
    }

    method CompareAndSwap(id: Id, status: Status, version: nat, owner: Owner, after: Pair)
      returns (r: Result<Pair, Refusal>)
      modifies this
      ensures match old(View()).CompareAndSwap(id, status, version, owner, after)
              case Ok(store) => View() == store && r == Ok(after)
              case Err(e) => View() == old(View()) && r == Err(e)
    {
      if id !in interventions { return Err(InterventionNotFound); }
      var current := interventions[id];
      if current.session !in leases { return Err(LeaseNotFound); }
      var lease := leases[current.session];
      if current.status != status { return Err(InterventionConflict); }
      if lease.version != version || lease.owner != owner { return Err(LeaseConflict); }
      if after.intervention.id != current.id || after.intervention.session != current.session
         || after.intervention.identity != current.identity { return Err(InvalidValue); }
      if !LeaseReplaceable(lease, after.lease) { return Err(InvalidValue); }
      if !after.Agrees() { return Err(InvalidValue); }
      interventions := interventions[id := after.intervention];
      leases := leases[lease.session := after.lease];
      return Ok(after);
    }

    method CreatePaused(i: Intervention, version: nat, owner: Owner, paused: Lease) returns (r: Result<Pair, Refusal>)
      modifies this
      ensures match old(View()).CreatePaused(i, version, owner, paused)
              case Ok(store) => View() == store && r == Ok(Pair(i, paused))
              case Err(e) => View() == old(View()) && r == Err(e)
    {
      if i.id in interventions { return Err(InterventionConflict); }
      if i.session !in leases { return Err(LeaseNotFound); }
      var lease := leases[i.session];
      if lease.version != version || lease.owner != owner { return Err(LeaseConflict); }
      if !LeaseReplaceable(lease, paused) { return Err(InvalidValue); }
      if !Pair(i, paused).Agrees() { return Err(InvalidValue); }
      interventions := interventions[i.id := i];
      leases := leases[i.session := paused];
      return Ok(Pair(i, paused));
    }

    /** The automation heartbeat: check, build, and swap the lease alone. */
    method Pulse(session: Id, version: nat, t: Tick, ttl: nat) returns (r: Result<Lease, Refusal>)
      modifies this
      ensures View() == ReadAndCommit(old(View()), ReadPulse(0, session, version, t), ttl)
      ensures r.Ok? ==> session in leases && leases[session] == r.value
                        && r.value.version == version + 1 && r.value.owner.Automation?
      ensures r.Err? ==> View() == old(View())
    {
      if session !in leases { return Err(LeaseNotFound); }
      var lease := leases[session];
      var renewed := PrepareHeartbeat(lease, version, Automation, t, ttl);
      if renewed.Err? { return renewed; }
      leases := leases[session := renewed.value];
      return renewed;
    }
  }

  class Coordinator {
    const repository: TransitionRepository
    const ttl: nat

    constructor (repository: TransitionRepository, ttl: nat)
      ensures this.repository == repository && this.ttl == ttl
    {
      this.repository, this.ttl := repository, ttl;
    }

    /** One coordinator call: the snapshot, the replacements, the commit. */
    method Transact(op: Op, id: Id, expected: int, t: Tick) returns (r: Result<Pair, Refusal>)
      modifies repository
      ensures match Call(old(repository.View()), op, id, expected, t, ttl)
              case Ok(store) => repository.View() == store && r.Ok?
              case Err(e) => repository.View() == old(repository.View()) && r == Err(e)
    {
      var snapshot := repository.View().Get(id);
      if snapshot.Err? { return snapshot; }
      var before := snapshot.value;
      var after := Prepare(op, expected, before.intervention, before.lease, t, ttl);
      if after.Err? { return after; }
      r := repository.CompareAndSwap(id, before.intervention.status, before.lease.version, before.lease.owner,
                                     after.value);
    }
  }

  class LiveBrowserSession {
    var frameSequence: nat
    var latestFrame: Option<Frame>
    var lastClientSequence: nat
    ghost var dispatched: seq<Dispatch>

    constructor ()
      ensures View() == NEW_SESSION
    {
      frameSequence, latestFrame, lastClientSequence, dispatched := 0, None, 0, [];
    }

    ghost function View(): Live
      reads this
    {
      Live(frameSequence, latestFrame, lastClientSequence, dispatched)
    }

    method CaptureFrame(shot: Shot, version: nat) returns (frame: Frame)
      modifies this
      ensures View() == old(View()).Capture(shot, version)
      ensures latestFrame == Some(frame)
    {
      if latestFrame.Some? && latestFrame.value.shot == shot { return latestFrame.value; }
      frameSequence := frameSequence + 1;
      frame := Frame(shot, frameSequence, lastClientSequence + 1, version);
      latestFrame := Some(frame);
    }

    method ValidateInput(c: Command) returns (accepted: bool)
      ensures accepted == View().Accepts(c)
    {
      if c.client != lastClientSequence + 1 { return false; }
      if latestFrame.None? || c.source != latestFrame.value.sequence { return false; }
      return c.viewport == latestFrame.value.shot.viewport;
    }

    method InvalidateFrame()
      modifies this
      ensures View() == old(View()).Invalidate()
    {
      latestFrame := None;
    }

    /** The input counts as used before the browser is driven, so a failing browser cannot make it repeatable. */
    method ApplyInput(c: Command, ghost version: nat) returns (accepted: bool)
      modifies this
      ensures accepted == old(View()).Accepts(c)
      ensures View() == if accepted then old(View()).Apply(c, version) else old(View())
    {
      accepted := ValidateInput(c);
      if accepted {
        dispatched := dispatched + [Dispatch(c, latestFrame.value, version)];
        lastClientSequence := c.client;
        latestFrame := None;
      }
    }
  }

  class RuntimeInterventionService {
    const coordinator: Coordinator
    var sessions: map<Id, LiveBrowserSession>
    ghost var retired: seq<Live>

    constructor (coordinator: Coordinator)
      requires coordinator.repository.View() == Store(map[], map[])
      ensures this.coordinator == coordinator && Valid()
      ensures View() == Shift(coordinator.ttl, [])
    {
      this.coordinator := coordinator;
      sessions := map[];
      retired := [];
    }

    /** Two interventions never share a browser session object. */
    ghost predicate Valid()
      reads this
    {
      forall a, b :: a in sessions && b in sessions && a != b ==> sessions[a] != sessions[b]
    }

    ghost function View(): Desk
      reads this, coordinator.repository, sessions.Values
    {
      Desk(coordinator.repository.View(), map id | id in sessions :: sessions[id].View(), retired, coordinator.ttl)
    }

    method InvalidateFrame(id: Id)
      requires Valid()
      modifies sessions.Values
      ensures Valid() && sessions == old(sessions)
      ensures View() == if id in old(View()).live then Replace(old(View()), id, old(View()).live[id].Invalidate())
              else old(View())
    {
      if id in sessions {
        sessions[id].InvalidateFrame();
      }
    }

    method Drop(id: Id)
      requires Valid()
      modifies this
      ensures Valid()
      ensures View() == Retire(old(View()), id)
    {
      if id in sessions {
        retired := retired + [sessions[id].View()];
        sessions := sessions - {id};
      }
    }

    /** Claim, release, begin-resume, heartbeat and terminate, with what each does to the live frame. */
    method Coordinate(op: Op, id: Id, expected: int, t: Tick) returns (r: Result<Pair, Refusal>)
      requires Valid()
      modifies this, coordinator.repository, sessions.Values
      ensures Valid()
      ensures View() == Turn(old(View()), LiveControl.Coordinate(op, id, expected, t))
      ensures r.Ok? <==> Call(old(coordinator.repository.View()), op, id, expected, t, coordinator.ttl).Ok?
    {
      ghost var before := View();
      ghost var outcome := Call(before.store, op, id, expected, t, before.ttl);
      r := coordinator.Transact(op, id, expected, t);
      ghost var after := before.(store := coordinator.repository.View());
      assert View() == after;
      assert Turn(before, LiveControl.Coordinate(op, id, expected, t)) ==
             if outcome.Ok? then AfterCoordinate(after, op, id) else before;
      if r.Err? || op.Reopen? || op.CompleteResume? {
        return;
      }
      if op.Terminate? {
        Drop(id);
      } else {
        InvalidateFrame(id);
      }
    }

    method Viewport(id: Id, operator: string, expected: int, now: int, shot: Shot) returns (frame: Option<Frame>)
      requires Valid()
      modifies sessions.Values
      ensures Valid() && sessions == old(sessions)
      ensures View() == Turn(old(View()), ShowViewport(id, operator, expected, now, shot))
      ensures frame.Some? <==>
                Controls(coordinator.repository.View(), id, operator, expected, now) && id in sessions
                  && Presentable(shot)
      ensures frame.Some? ==> sessions[id].latestFrame == frame && frame.value.shot == shot
    {
      if !Controls(coordinator.repository.View(), id, operator, expected, now) || id !in sessions {
        return None;
      }
      var captured := sessions[id].CaptureFrame(shot, coordinator.repository.View().Get(id).value.lease.version);
      return if Presentable(captured.shot) then Some(captured) else None;
    }

    method Send(id: Id, operator: string, expected: int, now: int, journalled: bool, command: Command)
      returns (sent: bool)
      requires Valid()
      modifies sessions.Values
      ensures Valid() && sessions == old(sessions)
      ensures View() == Turn(old(View()), SendInput(id, operator, expected, now, journalled, command))
      ensures !sent ==> View() == old(View())
    {
      if !Controls(coordinator.repository.View(), id, operator, expected, now) || id !in sessions || !journalled {
        return false;
      }
      sent := sessions[id].ApplyInput(command, coordinator.repository.View().Get(id).value.lease.version);
    }
  }
}
