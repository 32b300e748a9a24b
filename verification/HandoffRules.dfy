/**
Who may do what to an intervention, and what it leaves: for every call the exact conditions under which it goes
through on the pair that is stored, and the pair it stores instead.
*/
module HandoffRules {
  import opened Prelude
  import opened Handoff

  /** The call quotes the stored version of a lease that has not expired when it checks. */
  predicate Holds(lease: Lease, expected: int, t: Tick) {
    lease.version == expected && t.check < lease.expiresAt
  }

  /** When a coordinator call goes through. */
  predicate May(op: Op, expected: int, before: Pair, t: Tick, ttl: nat) {
    var i, lease := before.intervention, before.lease;
    match op
    case Claim(operator) =>
      && ttl > 0 && !Blank(operator) && lease.version == expected
      && (i.status.Open? || (i.status.Claimed? && lease.expiresAt <= t.check))
    case Release(operator) => ttl > 0 && i.status.Claimed? && i.operator == Some(operator) && Holds(lease, expected, t)
    case BeginResume(operator) =>
      ttl > 0 && i.status.Claimed? && i.operator == Some(operator) && Holds(lease, expected, t)
    case Reopen(explanation) => i.status.Resuming? && !Blank(explanation) && |explanation| <= 1000
    case CompleteResume(resolution) => ttl > 0 && i.status.Resuming? && !Blank(resolution) && Holds(lease, expected, t)
    case Renew(operator) =>
      && ttl > 0 && i.status.Claimed? && i.operator == Some(operator) && Holds(lease, expected, t)
      && lease.issuedAt <= t.stamp
    case Terminate(who, resolution) =>
      && ttl > 0 && !Blank(resolution) && lease.version == expected
      && (i.status.Open? || (i.status.Claimed? && who.Some? && i.operator == who && t.check < lease.expiresAt))
  }

  /** The status, operator and resolution an intervention is left with, and the owner of its lease. */
  function Outcome(op: Op, i: Intervention): (Status, Option<string>, Option<string>, Owner) {
    match op
    case Claim(operator) => (Claimed, Some(operator), None, Human(operator))
    case Release(_) => (Open, None, None, Paused)
    case BeginResume(operator) => (Resuming, Some(operator), None, Paused)
    case Reopen(_) => (Open, None, None, Paused)
    case CompleteResume(resolution) => (Resolved, i.operator, Some(resolution), Automation)
    case Renew(operator) => (Claimed, Some(operator), None, Human(operator))
    case Terminate(_, resolution) => (Terminated, i.operator, Some(resolution), NoOwner)
  }

  /** What a call that went through has made of the pair. */
  predicate Leaves(op: Op, before: Pair, t: Tick, ttl: nat, after: Pair) {
    var i, j, lease, next := before.intervention, after.intervention, before.lease, after.lease;
    && (j.status, j.operator, j.resolution, next.owner) == Outcome(op, i)
    && j.id == i.id && j.session == i.session && j.identity == i.identity && next.session == lease.session
    && j.explanation == (if op.Reopen? then op.explanation else i.explanation)
    && next.binding == (if op.CompleteResume? || op.Terminate? then None else Some(i.id))
    && if op.Reopen? then next == lease
       else
         && next.version == lease.version + 1 && next.lastHeartbeat == t.stamp && next.expiresAt == t.stamp + ttl
         && next.issuedAt == (if op.Renew? then lease.issuedAt else t.stamp)
  }

  lemma PreparesExactly(op: Op, expected: int, before: Pair, t: Tick, ttl: nat)
    requires before.Agrees() && before.intervention.Valid() && before.lease.Valid()
    ensures
      var after := Prepare(op, expected, before.intervention, before.lease, t, ttl);
      && (after.Ok? <==> May(op, expected, before, t, ttl))
      && (after.Ok? ==> Leaves(op, before, t, ttl, after.value) && after.value.Agrees())
  {
  }

  /**
  In every reachable store a coordinator call goes through exactly when it may, and then the stored pair, and
  nothing else, is what the call leaves.
  */
  lemma CallsExactly(ttl: nat, events: seq<Event>, op: Op, id: Id, expected: int, t: Tick, before: Pair)
    requires Run(ttl, events).store.Get(id) == Ok(before)
    ensures
      var store := Run(ttl, events).store;
      var done := Call(store, op, id, expected, t, ttl);
      && (done.Ok? <==> May(op, expected, before, t, ttl))
      && (done.Ok? ==> exists after :: Leaves(op, before, t, ttl, after) && done.value == store.Put(after))
  {
    RunKeeps(ttl, events);
    PreparesExactly(op, expected, before, t, ttl);
    var after := Prepare(op, expected, before.intervention, before.lease, t, ttl);
    if after.Ok? {
      assert Leaves(op, before, t, ttl, after.value);
    }
  }

  /** And so it is for calls that interleave: what commits was permitted on the very pair it replaces. */
  lemma CommitsExactly(ttl: nat, events: seq<Event>, caller: nat)
    requires caller in Run(ttl, events).pending
    requires Run(ttl, events).pending[caller].Transition?
    requires CommitCall(Run(ttl, events).store, Run(ttl, events).pending[caller]).Ok?
    ensures
      var s := Run(ttl, events);
      var p := s.pending[caller];
      && s.store.Get(p.before.intervention.id) == Ok(p.before)
      && May(p.op, p.expected, p.before, p.t, ttl) && Leaves(p.op, p.before, p.t, ttl, p.after)
      && Step(s, Commit(caller)).store == s.store.Put(p.after)
  {
    RunKeeps(ttl, events);
    CommitIsAtomic(ttl, events, caller);
    var p := Run(ttl, events).pending[caller];
    PreparesExactly(p.op, p.expected, p.before, p.t, ttl);
  }

  /**
  Nobody but its operator touches a live claim: while the lease of a claimed intervention has not expired, a call
  goes through only if it is that operator's own release, resumption, renewal or termination.
  */
  lemma LiveClaimIsItsOperators(ttl: nat, events: seq<Event>, op: Op, id: Id, expected: int, t: Tick)
    requires id in Run(ttl, events).store.interventions
    requires Run(ttl, events).store.interventions[id].status.Claimed?
    ensures
      var store := Run(ttl, events).store;
      && store.Get(id).Ok?
      && var claimed := store.Get(id).value;
      && claimed.intervention.operator.Some?
      && var operator := claimed.intervention.operator.value;
      t.check < claimed.lease.expiresAt && Call(store, op, id, expected, t, ttl).Ok? ==>
        || op in {Release(operator), BeginResume(operator), Renew(operator)}
        || (op.Terminate? && op.who == Some(operator))
  {
    RunKeeps(ttl, events);
    var store := Run(ttl, events).store;
    CallsExactly(ttl, events, op, id, expected, t, store.Get(id).value);
  }

  /** A claimed intervention is taken over exactly once its lease has expired, under its current version. */
  lemma TakeoverExactly(ttl: nat, events: seq<Event>, operator: string, id: Id, expected: int, t: Tick)
    requires id in Run(ttl, events).store.interventions && ttl > 0 && !Blank(operator)
    requires Run(ttl, events).store.interventions[id].status.Claimed?
    ensures
      var store := Run(ttl, events).store;
      && store.Get(id).Ok?
      && var lease := store.Get(id).value.lease;
      Call(store, Claim(operator), id, expected, t, ttl).Ok? <==>
        lease.expiresAt <= t.check && lease.version == expected
  {
    RunKeeps(ttl, events);
    CallsExactly(ttl, events, Claim(operator), id, expected, t, Run(ttl, events).store.Get(id).value);
  }

  /** What is over stays over: no call goes through on an intervention that was resolved or terminated. */
  lemma OverIsOver(ttl: nat, events: seq<Event>, op: Op, id: Id, expected: int, t: Tick)
    requires id in Run(ttl, events).store.interventions && !Run(ttl, events).store.interventions[id].Active()
    ensures Call(Run(ttl, events).store, op, id, expected, t, ttl).Err?
  {
    RunKeeps(ttl, events);
    var store := Run(ttl, events).store;
    if store.Get(id).Ok? {
      CallsExactly(ttl, events, op, id, expected, t, store.Get(id).value);
    }
  }

  /** Automation renews its lease exactly while it may act, under the next version. */
  lemma PulsesExactly(ttl: nat, events: seq<Event>, caller: nat, session: Id, version: nat, t: Tick)
    requires ttl > 0 && session in Run(ttl, events).store.leases
    requires Run(ttl, events).store.leases[session].issuedAt <= t.stamp
    ensures
      var store := Run(ttl, events).store;
      var lease := store.leases[session];
      AtOnce(store, ReadPulse(caller, session, version, t), ttl) ==
        if !(lease.version == version && lease.owner.Automation?) then Err(LeaseConflict)
        else if !(t.check < lease.expiresAt) then Err(LeaseExpired)
        else Ok(Store(store.interventions,
                      store.leases[session := Lease(session, Automation, version + 1, lease.issuedAt, t.stamp,
                                                    t.stamp + ttl, lease.binding)]))
  {
    RunKeeps(ttl, events);
  }

  /** A run is paused exactly while automation may act, for an intervention that is new and explained. */
  lemma OpensExactly(ttl: nat, events: seq<Event>, caller: nat, id: Id, session: Id, identity: string,
                     explanation: string, version: nat, t: Tick)
    requires ttl > 0
    ensures
      var store := Run(ttl, events).store;
      var opened' := AtOnce(store, ReadOpening(caller, id, session, identity, explanation, version, t), ttl);
      && (opened'.Ok? <==>
            && store.CanAct(session, version, Automation, t.check)
            && !Blank(explanation) && |explanation| <= 1000 && id !in store.interventions)
      && (opened'.Ok? ==>
            opened'.value == store.Put(Pair(
              Intervention(id, session, identity, explanation, Open, None, None),
              Lease(session, Paused, version + 1, t.stamp, t.stamp, t.stamp + ttl, Some(id)))))
  {
    RunKeeps(ttl, events);
  }
}
