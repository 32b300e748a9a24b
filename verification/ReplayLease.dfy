/**
The lease a replay quotes is a view of the session's lease in the shared store: its heartbeats are pulses of
`Handoff`, its pauses are openings there, and nobody else can have changed the lease between two quotes that pass.
*/
module ReplayLease {
  import opened Prelude
  import opened Capability
  import opened Replay
  import Handoff

  function Shown(lease: Handoff.Lease): Lease {
    Lease(lease.version, lease.owner.Automation?)
  }

  /** The run and the store agree on the session's lease, and on whether it has expired when the clock is read. */
  ghost predicate Reflects<W>(job: Job<W>, run: Run<W>, store: Handoff.Store, session: Id, t: Handoff.Tick) {
    && session in store.leases && run.lease == Shown(store.leases[session])
    && (job.surface.leaseExpired(run.world) <==> store.leases[session].expiresAt <= t.check)
  }

  function Outcome<T>(reply: Reply<T>): Option<Handoff.Refusal>
    requires !reply.Raised? && (reply.Crashed? ==> reply.crash.LeaseConflict? || reply.crash.LeaseExpired?)
  {
    match reply
    case Value(_) => None
    case Crashed(LeaseConflict) => Some(Handoff.LeaseConflict)
    case Crashed(LeaseExpired) => Some(Handoff.LeaseExpired)
  }

  /** A heartbeat succeeds, conflicts or finds the lease expired as the pulse does, and leaves the same lease. */
  lemma HeartbeatIsAPulse<W>(job: Job<W>, run: Run<W>, version: nat, store: Handoff.Store, session: Id, t: Handoff.Tick,
                             ttl: nat)
    requires Handoff.Sound(store) && Reflects(job, run, store, session, t)
    requires store.leases[session].issuedAt <= t.stamp && ttl > 0
    ensures
      var beat := Heartbeat(job, run, version);
      var pulse := Handoff.AtOnce(store, Handoff.ReadPulse(0, session, version, t), ttl);
      && (beat.reply.Crashed? ==> beat.reply.crash.LeaseConflict? || beat.reply.crash.LeaseExpired?)
      && Outcome(beat.reply) == (if pulse.Ok? then None else Some(pulse.error))
      && (pulse.Ok? ==>
            && session in pulse.value.leases && Shown(pulse.value.leases[session]) == beat.run.lease
            && beat.reply == Value(pulse.value.leases[session].version))
  {
  }

  /** A pause opens the intervention in the store or fails as the opening does, and leaves the lease it stores. */
  lemma PauseIsAnOpening<W>(job: Job<W>, step: Step, code: string, run: Run<W>, version: nat, retryStep: bool,
                            attempt: nat,
                            store: Handoff.Store, session: Id, id: Id, identity: string, explanation: string,
                            t: Handoff.Tick, ttl: nat)
    requires job.allowIntervention && CaptureFrame(job, run).reply.Value? && ttl > 0
    requires Handoff.Sound(store) && Reflects(job, CaptureFrame(job, run).run, store, session, t)
    requires id !in store.interventions && !Blank(explanation) && |explanation| <= 1000
    ensures
      var paused := Intervene(job, step, code, run, version, retryStep, attempt);
      var opening := Handoff.AtOnce(store, Handoff.ReadOpening(0, id, session, identity, explanation, version, t), ttl);
      && !paused.reply.Raised?
        && (paused.reply.Crashed? ==> paused.reply.crash.LeaseConflict? || paused.reply.crash.LeaseExpired?)
      && Outcome(paused.reply) == (if opening.Ok? then None else Some(opening.error))
      && (opening.Ok? ==>
            && session in opening.value.leases && Shown(opening.value.leases[session]) == paused.run.lease
            && opening.value.Get(id).Ok? && opening.value.interventions[id].status.Open?)
  {
  }

  /**
  While others use the store too, a version that automation held at one moment and can still act under at a
  later one was not touched in between: whatever anybody did to the lease, the next quote would fail.
  */
  lemma InterferenceIsNoticed(ttl: nat, events: seq<Handoff.Event>, j: nat, m: nat, session: Id, version: nat, now: int)
    requires j <= m <= |events| && session in Handoff.Run(ttl, events[..j]).store.leases
    requires Shown(Handoff.Run(ttl, events[..j]).store.leases[session]) == Lease(version, true)
    requires Handoff.Run(ttl, events).store.CanAct(session, version, Handoff.Automation, now)
    ensures session in Handoff.Run(ttl, events[..m]).store.leases
    ensures Handoff.Run(ttl, events[..m]).store.leases[session] == Handoff.Run(ttl, events[..j]).store.leases[session]
  {
    Handoff.RunLater(ttl, events, m);
    assert events[..m][..j] == events[..j];
    Handoff.RunLater(ttl, events[..m], j);
  }

  // ---------------------------------------------------------------- a whole life in the shared store

  lemma SettleOnward<W>(job: Job<W>, step: Step, run: Run<W>, main: Out<W, MainEnd>, version: nat, index: nat,
                        attempt: nat)
    requires index < |job.artifact.steps| && MainEnding(job, step, run, main, version, attempt)
    ensures
      match Settle(job, main, version, index)
      case Over(end) => Onward(run.lease, RunOf(end).lease)
      case Next(run', _, _) => Onward(run.lease, run'.lease)
  {
  }

  lemma {:induction false} DriveOnward<W>(job: Job<W>, run: Run<W>, version: nat, index: nat, first: (nat, nat))
    requires index <= |job.artifact.steps|
    ensures Onward(run.lease, RunOf(Drive(job, run, version, index, first)).lease)
    decreases Budget(job.artifact.recoveries, run.uses), |job.artifact.steps| - index
  {
    if index < |job.artifact.steps| {
      var step, attempt := job.artifact.steps[index], AttemptAt(index, first);
      SettleOnward(job, step, run, ExecuteMain(job, step, run, version, attempt), version, index, attempt);
      match DriveOnce(job, run, version, index, first) {
        case Over(_) =>
        case Next(run', version', index') => DriveOnward(job, run', version', index', first);
      }
    }
  }

  lemma ExecuteOnward<W>(job: Job<W>, world: W)
    ensures Onward(Lease(1, true), RunOf(Execute(job, world)).lease)
  {
    var ready := AllEvaluate(job, job.artifact.preconditions, Begin(world));
    if ready.reply == Value(true) {
      DriveOnward(job, ready.run, 1, 0, (0, 1));
    }
  }

  /** A resumption whose check succeeds goes on from the version handed back; one whose check fails keeps its lease. */
  lemma ContinueOnward<W>(job: Job<W>, k: Continuation<W>, back: Handback<W>)
    requires k.index < |job.artifact.steps|
    ensures
      var checked := ValidateResume(job, k, Returned(k, back));
      var lease := RunOf(Continue(job, k, back)).lease;
      if checked.reply.Value? then Onward(Lease(back.version, true), lease) else lease == k.run.lease
  {
    var checked := ValidateResume(job, k, Returned(k, back));
    if checked.reply.Value? && checked.reply.value.None? {
      DriveOnward(job, checked.run.(lease := Lease(back.version, true)), back.version, StartAt(k),
                  (k.index, k.retryAttempt));
    }
  }

  lemma {:induction false} DriveHandsOver<W>(job: Job<W>, run: Run<W>, version: nat, index: nat, first: (nat, nat))
    requires index <= |job.artifact.steps|
    ensures
      var end := Drive(job, run, version, index, first);
      end.PausedAt? ==> !end.kept.run.lease.automation
    decreases Budget(job.artifact.recoveries, run.uses), |job.artifact.steps| - index
  {
    if index < |job.artifact.steps| {
      var step, attempt := job.artifact.steps[index], AttemptAt(index, first);
      PauseHandsOver(job, step, run, ExecuteMain(job, step, run, version, attempt), version, index, attempt);
      match DriveOnce(job, run, version, index, first) {
        case Over(_) =>
        case Next(run', version', index') => DriveHandsOver(job, run', version', index', first);
      }
    }
  }

  lemma PauseHandsOver<W>(job: Job<W>, step: Step, run: Run<W>, main: Out<W, MainEnd>, version: nat, index: nat,
                          attempt: nat)
    requires index < |job.artifact.steps| && MainEnding(job, step, run, main, version, attempt)
    ensures
      var round := Settle(job, main, version, index);
      round.Over? && round.end.PausedAt? ==> !round.end.kept.run.lease.automation
  {
  }

  /** While a life is paused automation does not hold the lease. */
  lemma {:induction false} PausedIsHandedOver<W>(job: Job<W>, world: W, backs: seq<Handback<W>>)
    ensures
      var end := Life(job, world, backs);
      end.PausedAt? ==> !end.kept.run.lease.automation
  {
    if backs == [] {
      var ready := AllEvaluate(job, job.artifact.preconditions, Begin(world));
      if ready.reply == Value(true) {
        DriveHandsOver(job, ready.run, 1, 0, (0, 1));
      }
    } else {
      PausedIsHandedOver(job, world, backs[..|backs| - 1]);
      var before, back := Life(job, world, backs[..|backs| - 1]), backs[|backs| - 1];
      if before.PausedAt? && before.kept.index < |job.artifact.steps| {
        ResumedHandsOver(job, before.kept, ValidateResume(job, before.kept, Returned(before.kept, back)), back.version);
      }
    }
  }

  lemma ResumedHandsOver<W>(job: Job<W>, k: Continuation<W>, checked: Out<W, Option<Id>>, version: nat)
    requires k.index < |job.artifact.steps| && !k.run.lease.automation && checked.run.lease == k.run.lease
    ensures
      var end := Resume(job, k, checked, version);
      end.PausedAt? ==> !end.kept.run.lease.automation
  {
    if checked.reply.Value? && checked.reply.value.None? {
      DriveHandsOver(job, checked.run.(lease := Lease(version, true)), version, StartAt(k), (k.index, k.retryAttempt));
    }
  }

  /** Heartbeats of automation at one time of the clock, one version after the other. */
  function Beats(session: Id, version: nat, n: nat, now: int): seq<Handoff.Event> {
    if n == 0 then [] else
    Beats(session, version, n - 1, now)
      + [Handoff.ReadPulse(0, session, version + n - 1, Handoff.Tick(now, now)), Handoff.Commit(0)]
  }

  /** The calls that bring automation's lease from `a` on to `b`: heartbeats, and an opening if it is handed over. */
  function Calls(session: Id, a: Lease, b: Lease, id: Id, now: int): seq<Handoff.Event>
    requires a.automation && Onward(a, b)
  {
    if b.automation then Beats(session, a.version, b.version - a.version, now)
    else Beats(session, a.version, b.version - 1 - a.version, now)
           + [Handoff.ReadOpening(0, id, session, "", "paused", b.version - 1, Handoff.Tick(now, now)),
              Handoff.Commit(0)]
  }

  /** Automation holds the lease on the session under that version, good at the time. */
  ghost predicate HeldAt(s: Handoff.System, session: Id, version: nat, now: int) {
    && session in s.store.leases && s.store.leases[session].owner.Automation?
    && s.store.leases[session].version == version
    && s.store.leases[session].issuedAt <= now < s.store.leases[session].expiresAt
  }

  ghost predicate Holds(ttl: nat, events: seq<Handoff.Event>, session: Id, version: nat, now: int) {
    HeldAt(Handoff.Run(ttl, events), session, version, now)
  }

  lemma TwoMore(ttl: nat, events: seq<Handoff.Event>, a: Handoff.Event, b: Handoff.Event)
    ensures Handoff.Run(ttl, events + [a, b]) == Handoff.Step(Handoff.Step(Handoff.Run(ttl, events), a), b)
  {
    assert (events + [a, b])[..|events| + 1] == events + [a];
    assert (events + [a])[..|events|] == events;
  }

  /** The system after so many heartbeats. */
  function Beaten(s: Handoff.System, session: Id, version: nat, n: nat, now: int): Handoff.System {
    if n == 0 then s else
    Handoff.Step(Handoff.Step(Beaten(s, session, version, n - 1, now),
                              Handoff.ReadPulse(0, session, version + n - 1, Handoff.Tick(now, now))),
                 Handoff.Commit(0))
  }

  lemma {:induction false} BeatsRun(ttl: nat, events: seq<Handoff.Event>, session: Id, version: nat, n: nat, now: int)
    ensures Handoff.Run(ttl, events + Beats(session, version, n, now))
            == Beaten(Handoff.Run(ttl, events), session, version, n, now)
  {
    if n == 0 {
      assert events + [] == events;
    } else {
      var before := events + Beats(session, version, n - 1, now);
      var read := Handoff.ReadPulse(0, session, version + n - 1, Handoff.Tick(now, now));
      BeatsRun(ttl, events, session, version, n - 1, now);
      TwoMore(ttl, before, read, Handoff.Commit(0));
      assert events + Beats(session, version, n, now) == before + [read, Handoff.Commit(0)];
    }
  }

  lemma OneBeat(s: Handoff.System, session: Id, version: nat, now: int)
    requires s.ttl > 0 && Handoff.Sound(s.store) && HeldAt(s, session, version, now)
    ensures
      var next := Beaten(s, session, version, 1, now);
      HeldAt(next, session, version + 1, now) && next.store.interventions == s.store.interventions
  {
    assert Beaten(s, session, version, 0, now) == s;
    var read := Handoff.Step(s, Handoff.ReadPulse(0, session, version, Handoff.Tick(now, now)));
    assert 0 in read.pending && read.store == s.store;
  }

  lemma LastBeaten(s: Handoff.System, session: Id, version: nat, n: nat, now: int)
    requires n > 0
    ensures Beaten(s, session, version, n, now)
            == Beaten(Beaten(s, session, version, n - 1, now), session, version + n - 1, 1, now)
  {
    var before := Beaten(s, session, version, n - 1, now);
    assert Beaten(before, session, version + n - 1, 0, now) == before;
  }

  lemma BeatKeeps(s: Handoff.System, session: Id, version: nat, now: int)
    requires Handoff.Inv(s)
    ensures Handoff.Inv(Beaten(s, session, version, 1, now)) && Beaten(s, session, version, 1, now).ttl == s.ttl
  {
    var read := Handoff.ReadPulse(0, session, version, Handoff.Tick(now, now));
    assert Beaten(s, session, version, 0, now) == s;
    Handoff.StepKeeps(s, read);
    Handoff.StepKeeps(Handoff.Step(s, read), Handoff.Commit(0));
  }

  lemma {:induction false} BeatenHolds(s: Handoff.System, session: Id, version: nat, n: nat, now: int)
    requires s.ttl > 0 && Handoff.Inv(s) && HeldAt(s, session, version, now)
    ensures
      var next := Beaten(s, session, version, n, now);
      && Handoff.Inv(next) && next.ttl == s.ttl
      && HeldAt(next, session, version + n, now) && next.store.interventions == s.store.interventions
  {
    if n > 0 {
      var before := Beaten(s, session, version, n - 1, now);
      BeatenHolds(s, session, version, n - 1, now);
      OneBeat(before, session, version + n - 1, now);
      BeatKeeps(before, session, version + n - 1, now);
      LastBeaten(s, session, version, n, now);
    }
  }

  lemma ManyBeats(ttl: nat, events: seq<Handoff.Event>, session: Id, version: nat, n: nat, now: int)
    requires ttl > 0 && Holds(ttl, events, session, version, now)
    ensures
      var more := events + Beats(session, version, n, now);
      && Holds(ttl, more, session, version + n, now)
      && Handoff.Run(ttl, more).store.interventions == Handoff.Run(ttl, events).store.interventions
  {
    Handoff.RunKeeps(ttl, events);
    BeatsRun(ttl, events, session, version, n, now);
    BeatenHolds(Handoff.Run(ttl, events), session, version, n, now);
  }

  lemma PauseAt(s: Handoff.System, session: Id, version: nat, id: Id, now: int)
    requires s.ttl > 0 && Handoff.Sound(s.store) && HeldAt(s, session, version, now) && id !in s.store.interventions
    ensures
      var read := Handoff.ReadOpening(0, id, session, "", "paused", version, Handoff.Tick(now, now));
      var store := Handoff.Step(Handoff.Step(s, read), Handoff.Commit(0)).store;
      && session in store.leases && Shown(store.leases[session]) == Lease(version + 1, false)
      && store.Get(id).Ok? && store.interventions[id].status.Open? && store.interventions[id].session == session
  {
    assert !Blank("paused") by { assert !Space("paused"[0]); }
    var read := Handoff.Step(s, Handoff.ReadOpening(0, id, session, "", "paused", version, Handoff.Tick(now, now)));
    assert 0 in read.pending && read.store == s.store;
  }

  lemma OnePause(ttl: nat, events: seq<Handoff.Event>, session: Id, version: nat, id: Id, now: int)
    requires ttl > 0 && Holds(ttl, events, session, version, now)
    requires id !in Handoff.Run(ttl, events).store.interventions
    ensures
      var read := Handoff.ReadOpening(0, id, session, "", "paused", version, Handoff.Tick(now, now));
      var store := Handoff.Run(ttl, events + [read, Handoff.Commit(0)]).store;
      && session in store.leases && Shown(store.leases[session]) == Lease(version + 1, false)
      && store.Get(id).Ok? && store.interventions[id].status.Open? && store.interventions[id].session == session
  {
    Handoff.RunKeeps(ttl, events);
    PauseAt(Handoff.Run(ttl, events), session, version, id, now);
    TwoMore(ttl, events, Handoff.ReadOpening(0, id, session, "", "paused", version, Handoff.Tick(now, now)),
            Handoff.Commit(0));
  }

  /** What the store shows of the lease a run holds: the same, or that automation does not hold it. */
  ghost predicate Mirrored(store: Handoff.Store, session: Id, lease: Lease) {
    && session in store.leases
    && (if lease.automation then Shown(store.leases[session]) == lease
        else !store.leases[session].owner.Automation? && lease.version <= store.leases[session].version)
  }

  lemma LastPause(events: seq<Handoff.Event>, session: Id, a: Lease, b: Lease, id: Id, now: int)
    requires a.automation && Onward(a, b) && !b.automation
    ensures events + Calls(session, a, b, id, now)
            == events + Beats(session, a.version, b.version - 1 - a.version, now)
                 + [Handoff.ReadOpening(0, id, session, "", "paused", b.version - 1, Handoff.Tick(now, now)),
                    Handoff.Commit(0)]
  {
    var pause := [Handoff.ReadOpening(0, id, session, "", "paused", b.version - 1, Handoff.Tick(now, now)),
                  Handoff.Commit(0)];
    assert Calls(session, a, b, id, now) == Beats(session, a.version, b.version - 1 - a.version, now) + pause;
  }

  lemma PauseMirrors(ttl: nat, events: seq<Handoff.Event>, session: Id, a: Lease, b: Lease, id: Id, now: int)
    requires ttl > 0 && a.automation && Onward(a, b) && !b.automation && Holds(ttl, events, session, a.version, now)
    requires id !in Handoff.Run(ttl, events).store.interventions
    ensures Mirrored(Handoff.Run(ttl, events + Calls(session, a, b, id, now)).store, session, b)
  {
    var n := b.version - 1 - a.version;
    ManyBeats(ttl, events, session, a.version, n, now);
    var before := events + Beats(session, a.version, n, now);
    OnePause(ttl, before, session, b.version - 1, id, now);
    LastPause(events, session, a, b, id, now);
  }

  lemma BeatsMirror(ttl: nat, events: seq<Handoff.Event>, session: Id, a: Lease, b: Lease, id: Id, now: int)
    requires ttl > 0 && a.automation && Onward(a, b) && b.automation && Holds(ttl, events, session, a.version, now)
    ensures Mirrored(Handoff.Run(ttl, events + Calls(session, a, b, id, now)).store, session, b)
  {
    var n := b.version - a.version;
    ManyBeats(ttl, events, session, a.version, n, now);
    assert Calls(session, a, b, id, now) == Beats(session, a.version, n, now);
  }

  /** Automation's calls all go through, and leave the lease that the run holds. */
  lemma CallsMirror(ttl: nat, events: seq<Handoff.Event>, session: Id, a: Lease, b: Lease, id: Id, now: int)
    requires ttl > 0 && a.automation && Onward(a, b) && Holds(ttl, events, session, a.version, now)
    requires id !in Handoff.Run(ttl, events).store.interventions
    ensures Mirrored(Handoff.Run(ttl, events + Calls(session, a, b, id, now)).store, session, b)
  {
    if b.automation {
      BeatsMirror(ttl, events, session, a, b, id, now);
    } else {
      PauseMirrors(ttl, events, session, a, b, id, now);
    }
  }

  /** What else happens to the store during a pause, then the time and the next unused identifier when it is over. */
  datatype Period = Period(others: seq<Handoff.Event>, now: int, id: Id)

  predicate Resumes<W>(job: Job<W>, before: RunEnd<W>) {
    before.PausedAt? && before.kept.index < |job.artifact.steps|
  }

  /** The calls of a whole life on the store, with what others do during its pauses; `periods[0]` opens it. */
  function Trail<W>(job: Job<W>, world: W, backs: seq<Handback<W>>, session: Id,
                    periods: seq<Period>): seq<Handoff.Event>
    requires |periods| == |backs| + 1
  {
    var p := periods[|backs|];
    if backs == [] then
      ExecuteOnward(job, world);
      p.others + [Handoff.CreateLease(session, Handoff.Tick(p.now, p.now))]
        + Calls(session, Lease(1, true), RunOf(Execute(job, world)).lease, p.id, p.now)
    else
      var n, back := |backs| - 1, backs[|backs| - 1];
      var before, trail := Life(job, world, backs[..n]), Trail(job, world, backs[..n], session, periods[..|backs|]);
      if !Resumes(job, before) then trail
      else if !ValidateResume(job, before.kept, Returned(before.kept, back)).reply.Value? then trail + p.others
      else
        ContinueOnward(job, before.kept, back);
        trail + p.others
          + Calls(session, Lease(back.version, true), RunOf(Continue(job, before.kept, back)).lease, p.id, p.now)
  }

  /** The last event has just given automation the lease under that version. */
  ghost predicate GivenBack(ttl: nat, events: seq<Handoff.Event>, session: Id, version: nat, now: int) {
    && Holds(ttl, events, session, version, now)
    && events != []
    && var before := Handoff.Run(ttl, events[..|events| - 1]).store.leases;
    && session in before && !before[session].owner.Automation?
  }

  /**
  The others play their part: for a resumption whose check succeeds they end by giving automation the lease under
  the version handed back, for one whose check fails they do not. Identifiers are new when they are used.
  */
  ghost predicate Played<W>(job: Job<W>, world: W, backs: seq<Handback<W>>, session: Id, periods: seq<Period>, ttl: nat)
    requires |periods| == |backs| + 1
  {
    var p := periods[|backs|];
    if backs == [] then
      var store := Handoff.Run(ttl, p.others).store;
      session !in store.leases && p.id !in store.interventions
    else
      var n, back := |backs| - 1, backs[|backs| - 1];
      var before := Life(job, world, backs[..n]);
      && Played(job, world, backs[..n], session, periods[..|backs|], ttl)
      && (Resumes(job, before) ==>
            var events := Trail(job, world, backs[..n], session, periods[..|backs|]) + p.others;
            var store := Handoff.Run(ttl, events).store;
            if ValidateResume(job, before.kept, Returned(before.kept, back)).reply.Value?
            then GivenBack(ttl, events, session, back.version, p.now) && p.id !in store.interventions
            else session in store.leases ==> !store.leases[session].owner.Automation?)
  }

  lemma Created(ttl: nat, events: seq<Handoff.Event>, session: Id, now: int)
    requires ttl > 0 && session !in Handoff.Run(ttl, events).store.leases
    ensures
      var more := events + [Handoff.CreateLease(session, Handoff.Tick(now, now))];
      && Holds(ttl, more, session, 1, now)
      && Handoff.Run(ttl, more).store.interventions == Handoff.Run(ttl, events).store.interventions
  {
    assert (events + [Handoff.CreateLease(session, Handoff.Tick(now, now))])[..|events|] == events;
  }

  lemma FirstSegmentMirrored<W>(job: Job<W>, world: W, session: Id, p: Period, ttl: nat)
    requires ttl > 0 && Played(job, world, [], session, [p], ttl)
    ensures Mirrored(Handoff.Run(ttl, Trail(job, world, [], session, [p])).store, session,
                     RunOf(Execute(job, world)).lease)
  {
    var created := p.others + [Handoff.CreateLease(session, Handoff.Tick(p.now, p.now))];
    Created(ttl, p.others, session, p.now);
    ExecuteOnward(job, world);
    CallsMirror(ttl, created, session, Lease(1, true), RunOf(Execute(job, world)).lease, p.id, p.now);
  }

  lemma StillMirrored(ttl: nat, events: seq<Handoff.Event>, others: seq<Handoff.Event>, session: Id, lease: Lease)
    requires Mirrored(Handoff.Run(ttl, events).store, session, lease) && !lease.automation
    requires
      var leases := Handoff.Run(ttl, events + others).store.leases;
      session in leases ==> !leases[session].owner.Automation?
    ensures Mirrored(Handoff.Run(ttl, events + others).store, session, lease)
  {
    assert (events + others)[..|events|] == events;
    Handoff.RunLater(ttl, events + others, |events|);
  }

  lemma NextSegmentMirrored<W>(job: Job<W>, world: W, backs: seq<Handback<W>>, session: Id, periods: seq<Period>,
                               ttl: nat)
    requires ttl > 0 && backs != [] && |periods| == |backs| + 1 && Played(job, world, backs, session, periods, ttl)
    requires
      var n := |backs| - 1;
      Mirrored(Handoff.Run(ttl, Trail(job, world, backs[..n], session, periods[..|backs|])).store, session,
               RunOf(Life(job, world, backs[..n])).lease)
    requires Resumes(job, Life(job, world, backs[..|backs| - 1]))
    requires !RunOf(Life(job, world, backs[..|backs| - 1])).lease.automation
    ensures Mirrored(Handoff.Run(ttl, Trail(job, world, backs, session, periods)).store, session,
                     RunOf(Life(job, world, backs)).lease)
  {
    var n, back, p := |backs| - 1, backs[|backs| - 1], periods[|backs|];
    var before, trail := Life(job, world, backs[..n]), Trail(job, world, backs[..n], session, periods[..|backs|]);
    ContinueOnward(job, before.kept, back);
    var lease := RunOf(Continue(job, before.kept, back)).lease;
    if ValidateResume(job, before.kept, Returned(before.kept, back)).reply.Value? {
      CallsMirror(ttl, trail + p.others, session, Lease(back.version, true), lease, p.id, p.now);
    } else {
      StillMirrored(ttl, trail, p.others, session, lease);
    }
  }

  /**
  A whole life is a run of the shared store: played there call by call, with whatever others do during its pauses,
  every heartbeat and every pause of the replay goes through, each resumption continues from the version that the
  completion stored, and the store holds the lease that the replay holds.
  */
  lemma {:induction false} LifeIsMirrored<W>(job: Job<W>, world: W, backs: seq<Handback<W>>, session: Id,
                                             periods: seq<Period>, ttl: nat)
    requires ttl > 0 && |periods| == |backs| + 1 && Played(job, world, backs, session, periods, ttl)
    ensures Mirrored(Handoff.Run(ttl, Trail(job, world, backs, session, periods)).store, session,
                     RunOf(Life(job, world, backs)).lease)
  {
    if backs == [] {
      assert periods == [periods[0]];
      FirstSegmentMirrored(job, world, session, periods[0], ttl);
    } else {
      var n := |backs| - 1;
      LifeIsMirrored(job, world, backs[..n], session, periods[..|backs|], ttl);
      if Resumes(job, Life(job, world, backs[..n])) {
        PausedIsHandedOver(job, world, backs[..n]);
        NextSegmentMirrored(job, world, backs, session, periods, ttl);
      }
    }
  }

  /** Of all transitions only a completion turns a lease over to automation. */
  lemma OnlyCompletionPrepares(op: Handoff.Op, expected: int, before: Handoff.Pair, t: Handoff.Tick, ttl: nat,
                               after: Handoff.Pair)
    requires Handoff.Prepare(op, expected, before.intervention, before.lease, t, ttl) == Ok(after)
    requires !before.lease.owner.Automation? && after.lease.owner.Automation?
    ensures op.CompleteResume? && expected == before.lease.version && after.lease.version == expected + 1
  {
  }

  lemma OthersKeepAway(store: Handoff.Store, p: Handoff.Pending, store': Handoff.Store, session: Id)
    requires !p.Transition? && Handoff.CommitCall(store, p) == Ok(store')
    requires session in store.leases && !store.leases[session].owner.Automation?
    ensures session in store'.leases && store'.leases[session] == store.leases[session]
  {
  }

  lemma OnlyCompletionGivesBack(store: Handoff.Store, p: Handoff.Pending, ttl: nat, store': Handoff.Store, session: Id)
    requires Handoff.Sound(store) && Handoff.PendingSound(p, store, ttl) && Handoff.CommitCall(store, p) == Ok(store')
    requires session in store.leases && !store.leases[session].owner.Automation?
    requires session in store'.leases && store'.leases[session].owner.Automation?
    ensures p.Transition? && p.op.CompleteResume? && p.before.lease.session == session
    ensures store'.leases[session].version == p.expected + 1
  {
    if p.Transition? {
      Handoff.TransitionCommit(store, p, ttl, store');
      Handoff.PreparedIsLegal(p.op, p.expected, p.before, p.t, ttl, p.after);
      assert store'.leases == store.leases[p.after.lease.session := p.after.lease];
      OnlyCompletionPrepares(p.op, p.expected, p.before, p.t, ttl, p.after);
    } else {
      OthersKeepAway(store, p, store', session);
    }
  }

  /** A step changes a lease that exists by a commit only. */
  lemma OnlyCommitsChange(s: Handoff.System, e: Handoff.Event, session: Id)
    requires session in s.store.leases && Handoff.Step(s, e).store.leases != s.store.leases && !e.CreateLease?
    ensures e.Commit? && e.caller in s.pending && Handoff.CommitCall(s.store, s.pending[e.caller]).Ok?
    ensures Handoff.Step(s, e).store == Handoff.CommitCall(s.store, s.pending[e.caller]).value
  {
  }

  lemma CreationSpares(s: Handoff.System, e: Handoff.Event, session: Id)
    requires session in s.store.leases && e.CreateLease?
    ensures session in Handoff.Step(s, e).store.leases
    ensures Handoff.Step(s, e).store.leases[session] == s.store.leases[session]
  {
  }

  /** The step is a completion, and stores the version after the one it quoted. */
  ghost predicate Completes(s: Handoff.System, e: Handoff.Event, session: Id, version: nat) {
    && e.Commit? && e.caller in s.pending
    && var p := s.pending[e.caller];
    && p.Transition? && p.op.CompleteResume? && p.before.lease.session == session && version == p.expected + 1
  }

  /**
  Whatever others do, automation gets a lease back in one way only: from a completion, under the version after the
  one that completion quoted. So the version a resumption continues from is the one `complete_resume` stored.
  */
  lemma HandbackIsACompletion(ttl: nat, events: seq<Handoff.Event>, e: Handoff.Event, session: Id)
    requires
      var before, after := Handoff.Run(ttl, events).store.leases, Handoff.Run(ttl, events + [e]).store.leases;
      && session in before && !before[session].owner.Automation?
      && session in after && after[session].owner.Automation?
    ensures Completes(Handoff.Run(ttl, events), e, session,
                      Handoff.Run(ttl, events + [e]).store.leases[session].version)
  {
    Handoff.RunKeeps(ttl, events);
    assert (events + [e])[..|events|] == events;
    var s := Handoff.Run(ttl, events);
    assert Handoff.Run(ttl, events + [e]) == Handoff.Step(s, e);
    if e.CreateLease? {
      CreationSpares(s, e, session);
    } else {
      OnlyCommitsChange(s, e, session);
      OnlyCompletionGivesBack(s.store, s.pending[e.caller], ttl, Handoff.Step(s, e).store, session);
    }
  }

  lemma GivenBackByCompletion(ttl: nat, events: seq<Handoff.Event>, session: Id, version: nat, now: int)
    requires GivenBack(ttl, events, session, version, now)
    ensures Completes(Handoff.Run(ttl, events[..|events| - 1]), events[|events| - 1], session, version)
  {
    var n := |events| - 1;
    assert events == events[..n] + [events[n]];
    HandbackIsACompletion(ttl, events[..n], events[n], session);
  }
}
