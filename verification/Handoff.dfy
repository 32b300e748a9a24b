/**
The human-handoff protocol: versioned control leases, interventions, and the
compare-and-swap that changes both as one unit.

Every coordinator call reads a snapshot, builds replacements from it and commits
them later, so calls of different operators, automation heartbeats and new pauses
interleave freely. `System` keeps the calls that have read and not yet committed.
*/
module Handoff {
  import opened Prelude

  datatype Refusal =
    | LeaseConflict
    | LeaseExpired
    | LeaseNotFound
    | InterventionConflict
    | InterventionNotFound
    | IllegalTransition
    | NotAuthorized
    | InvalidValue

  // ---------------------------------------------------------------- values

  datatype Owner = Automation | Paused | Human(principal: string) | NoOwner

  datatype Lease = Lease(
    session: Id,
    owner: Owner,
    version: nat,
    issuedAt: int,
    lastHeartbeat: int,
    expiresAt: int,
    binding: Option<Id>)
  {
    predicate Valid() {
      && (owner.Human? ==> !Blank(owner.principal))
      && version >= 1
      && issuedAt <= lastHeartbeat < expiresAt
      && ((owner.Paused? || owner.Human?) <==> binding.Some?)
    }
  }

  datatype Status = Open | Claimed | Resuming | Resolved | Terminated

  /** `identity` stands for the fields no transition may change: run, creation time, trigger and context. */
  datatype Intervention = Intervention(
    id: Id,
    session: Id,
    identity: string,
    explanation: string,
    status: Status,
    operator: Option<string>,
    resolution: Option<string>)
  {
    predicate Active() {
      status.Open? || status.Claimed? || status.Resuming?
    }

    predicate Valid() {
      && !Blank(explanation) && |explanation| <= 1000
      && (status.Claimed? || status.Resuming? || status.Resolved? ==> operator.Some?)
      && (status.Open? ==> operator.None?)
      && ((status.Resolved? || status.Terminated?) <==> resolution.Some?)
      && (operator.Some? ==> !Blank(operator.value))
      && (resolution.Some? ==> !Blank(resolution.value))
    }
  }

  /** Construction runs the field checks, so an invalid value is refused rather than stored. */
  function CheckedLease(lease: Lease): Result<Lease, Refusal> {
    if lease.Valid() then Ok(lease) else Err(InvalidValue)
  }

  function CheckedIntervention(i: Intervention): Result<Intervention, Refusal> {
    if i.Valid() then Ok(i) else Err(InvalidValue)
  }

  datatype Pair = Pair(intervention: Intervention, lease: Lease) {
    /** The agreement every stored transition must show between an intervention and its lease. */
    predicate Agrees() {
      && intervention.session == lease.session
      && (match intervention.status
          case Open => lease.owner.Paused?
          case Claimed => lease.owner.Human?
          case Resuming => lease.owner.Paused?
          case Resolved => lease.owner.Automation?
          case Terminated => lease.owner.NoOwner?)
      && (intervention.Active() ==> lease.binding == Some(intervention.id))
      && (!intervention.Active() ==> lease.binding.None?)
      && (intervention.status.Claimed? ==>
            lease.owner.Human? && intervention.operator == Some(lease.owner.principal))
    }
  }

  // ---------------------------------------------------------------- building replacements

  /** The two clock readings one call takes: the expiry check, then the stamp on the new lease. */
  datatype Tick = Tick(check: int, stamp: int)

  function AssertCurrent(lease: Lease, expected: int, owner: Owner, requireUnexpired: bool,
                         t: Tick): Result<(), Refusal> {
    if lease.version != expected || lease.owner != owner then Err(LeaseConflict)
    else if requireUnexpired && lease.expiresAt <= t.check then Err(LeaseExpired)
    else Ok(())
  }

  function PrepareHeartbeat(lease: Lease, expected: int, owner: Owner, t: Tick, ttl: nat): Result<Lease, Refusal> {
    var _ :- AssertCurrent(lease, expected, owner, true, t);
    CheckedLease(lease.(version := lease.version + 1, lastHeartbeat := t.stamp, expiresAt := t.stamp + ttl))
  }

  function PrepareTransfer(lease: Lease, expected: int, owner: Owner, next: Owner, binding: Option<Id>,
                           requireUnexpired: bool, t: Tick, ttl: nat): Result<Lease, Refusal>
  {
    var _ :- AssertCurrent(lease, expected, owner, requireUnexpired, t);
    CheckedLease(Lease(lease.session, next, lease.version + 1, t.stamp, t.stamp, t.stamp + ttl, binding))
  }

  datatype Op =
    | Claim(operator: string)
    | Release(operator: string)
    | BeginResume(operator: string)
    | Reopen(explanation: string)
    | CompleteResume(resolution: string)
    | Renew(operator: string)
    | Terminate(who: Option<string>, resolution: string)

  function PrepareClaim(operator: string, expected: int, i: Intervention, lease: Lease, t: Tick,
                        ttl: nat): Result<Pair, Refusal> {
    match i.status
    case Open =>
      if operator == "" then Err(InvalidValue) else
      var i' :- CheckedIntervention(i.(status := Claimed, operator := Some(operator)));
      if lease.binding != Some(i.id) then Err(LeaseConflict) else
      var lease' :- PrepareTransfer(lease, expected, Paused, Human(operator), Some(i.id), false, t, ttl);
      Ok(Pair(i', lease'))
    case Claimed =>
      if operator == "" then Err(InvalidValue) else
      var i' :- CheckedIntervention(i.(operator := Some(operator)));
      if lease.binding != Some(i.id) || !lease.owner.Human? then Err(LeaseConflict) else
      if lease.expiresAt > t.check then Err(LeaseConflict) else
      var lease' :- PrepareTransfer(lease, expected, lease.owner, Human(operator), Some(i.id), false, t, ttl);
      Ok(Pair(i', lease'))
    case _ => Err(IllegalTransition)
  }

  /** Release and begin-resume give the lease back to the paused owner; they differ in the next status. */
  function PrepareYield(operator: string, next: Intervention, expected: int, i: Intervention, lease: Lease, t: Tick,
                        ttl: nat)
    : Result<Pair, Refusal>
  {
    if i.operator != Some(operator) then Err(NotAuthorized) else
    if !i.status.Claimed? then Err(IllegalTransition) else
    var i' :- CheckedIntervention(next);
    var lease' :- PrepareTransfer(lease, expected, Human(operator), Paused, Some(i.id), true, t, ttl);
    Ok(Pair(i', lease'))
  }

  function PrepareTerminate(who: Option<string>, resolution: string, expected: int, i: Intervention, lease: Lease,
                            t: Tick, ttl: nat)
    : Result<Pair, Refusal>
  {
    if !(i.status.Open? || (i.status.Claimed? && i.operator == who && who.Some?)) then Err(NotAuthorized) else
    var owner := if i.status.Open? then Paused else Human(who.value);
    var i' :- CheckedIntervention(i.(status := Terminated, resolution := Some(resolution)));
    var lease' :- PrepareTransfer(lease, expected, owner, NoOwner, None, owner != Paused, t, ttl);
    Ok(Pair(i', lease'))
  }

  /** What one coordinator call would commit, computed from the snapshot it read. */
  function Prepare(op: Op, expected: int, i: Intervention, lease: Lease, t: Tick, ttl: nat): Result<Pair, Refusal> {
    match op
    case Claim(operator) => PrepareClaim(operator, expected, i, lease, t, ttl)
    case Release(operator) => PrepareYield(operator, i.(status := Open, operator := None), expected, i, lease, t, ttl)
    case BeginResume(operator) => PrepareYield(operator, i.(status := Resuming), expected, i, lease, t, ttl)
    case Reopen(explanation) =>
      if !i.status.Resuming? then Err(IllegalTransition) else
      var i' :- CheckedIntervention(i.(status := Open, operator := None, explanation := explanation));
      if lease.owner != Paused then Err(InvalidValue) else Ok(Pair(i', lease))
    case CompleteResume(resolution) =>
      if !i.status.Resuming? then Err(IllegalTransition) else
      var i' :- CheckedIntervention(i.(status := Resolved, resolution := Some(resolution)));
      var lease' :- PrepareTransfer(lease, expected, Paused, Automation, None, true, t, ttl);
      Ok(Pair(i', lease'))
    case Renew(operator) =>
      if !i.status.Claimed? || i.operator != Some(operator) then Err(NotAuthorized) else
      var lease' :- PrepareHeartbeat(lease, expected, Human(operator), t, ttl);
      Ok(Pair(i, lease'))
    case Terminate(who, resolution) => PrepareTerminate(who, resolution, expected, i, lease, t, ttl)
  }

  // ---------------------------------------------------------------- the stores

  datatype Store = Store(interventions: map<Id, Intervention>, leases: map<Id, Lease>) {
    function Get(id: Id): Result<Pair, Refusal> {
      if id !in interventions then Err(InterventionNotFound) else
      var i := interventions[id];
      if i.session !in leases then Err(LeaseNotFound) else
      var pair := Pair(i, leases[i.session]);
      if pair.Agrees() then Ok(pair) else Err(InvalidValue)
    }

    function Put(pair: Pair): Store {
      Store(interventions[pair.intervention.id := pair.intervention], leases[pair.lease.session := pair.lease])
    }

    function CompareAndSwap(id: Id, status: Status, version: nat, owner: Owner, after: Pair): Result<Store, Refusal> {
      if id !in interventions then Err(InterventionNotFound) else
      var i := interventions[id];
      if i.session !in leases then Err(LeaseNotFound) else
      var lease := leases[i.session];
      if i.status != status then Err(InterventionConflict) else
      if lease.version != version || lease.owner != owner then Err(LeaseConflict) else
      if after.intervention.id != i.id || after.intervention.session != i.session
         || after.intervention.identity != i.identity then Err(InvalidValue) else
      if !LeaseReplaceable(lease, after.lease) then Err(InvalidValue) else
      if !after.Agrees() then Err(InvalidValue) else
      Ok(Store(interventions[id := after.intervention], leases[lease.session := after.lease]))
    }

    function CreatePaused(i: Intervention, version: nat, owner: Owner, lease': Lease): Result<Store, Refusal> {
      if i.id in interventions then Err(InterventionConflict) else
      if i.session !in leases then Err(LeaseNotFound) else
      var lease := leases[i.session];
      if lease.version != version || lease.owner != owner then Err(LeaseConflict) else
      if !LeaseReplaceable(lease, lease') then Err(InvalidValue) else
      if !Pair(i, lease').Agrees() then Err(InvalidValue) else
      Ok(Store(interventions[i.id := i], leases[i.session := lease']))
    }

    /** The lease repository's own compare-and-swap, the path of automation heartbeats. */
    function SwapLease(session: Id, version: nat, owner: Owner, lease': Lease): Result<Store, Refusal> {
      if session !in leases then Err(LeaseNotFound) else
      var lease := leases[session];
      if lease.version != version || lease.owner != owner then Err(LeaseConflict) else
      if lease'.session != lease.session || lease'.version != lease.version + 1 then Err(InvalidValue) else
      Ok(Store(interventions, leases[session := lease']))
    }

    predicate CanAct(session: Id, version: int, owner: Owner, now: int) {
      && session in leases
      && leases[session].version == version && leases[session].owner == owner
      && leases[session].expiresAt > now
    }
  }

  predicate LeaseReplaceable(lease: Lease, lease': Lease) {
    lease'.session == lease.session && (lease' == lease || lease'.version == lease.version + 1)
  }

  // ---------------------------------------------------------------- interleavings

  /** A call that has read its snapshot and built its replacements but not committed them. */
  datatype Pending =
    | Transition(op: Op, expected: int, t: Tick, before: Pair, after: Pair)
    | Opening(raised: Intervention, expectedVersion: nat, paused: Lease)
    | Pulse(session: Id, beatVersion: nat, renewed: Lease)

  datatype System = System(store: Store, pending: map<nat, Pending>, ttl: nat)

  datatype Event =
    | CreateLease(session: Id, t: Tick)
    | ReadTransition(caller: nat, op: Op, id: Id, expected: int, t: Tick)
    | ReadOpening(caller: nat, id: Id, session: Id, identity: string, explanation: string, version: nat, t: Tick)
    | ReadPulse(caller: nat, session: Id, version: nat, t: Tick)
    | Commit(caller: nat)

  function ReadCall(s: System, e: Event): Result<Pending, Refusal>
    requires e.ReadTransition? || e.ReadOpening? || e.ReadPulse?
  {
    match e
    case ReadTransition(_, op, id, expected, t) =>
      var before :- s.store.Get(id);
      var after :- Prepare(op, expected, before.intervention, before.lease, t, s.ttl);
      Ok(Transition(op, expected, t, before, after))
    case ReadOpening(_, id, session, identity, explanation, version, t) =>
      var i :- CheckedIntervention(Intervention(id, session, identity, explanation, Open, None, None));
      if session !in s.store.leases then Err(LeaseNotFound) else
      var paused :- PrepareTransfer(s.store.leases[session], version, Automation, Paused, Some(id), true, t, s.ttl);
      Ok(Opening(i, version, paused))
    case ReadPulse(_, session, version, t) =>
      if session !in s.store.leases then Err(LeaseNotFound) else
      var renewed :- PrepareHeartbeat(s.store.leases[session], version, Automation, t, s.ttl);
      Ok(Pulse(session, version, renewed))
  }

  function CommitCall(store: Store, p: Pending): Result<Store, Refusal> {
    match p
    case Transition(_, _, _, before, after) =>
      store.CompareAndSwap(before.intervention.id, before.intervention.status, before.lease.version, before.lease.owner,
                           after)
    case Opening(i, version, paused) => store.CreatePaused(i, version, Automation, paused)
    case Pulse(session, version, renewed) => store.SwapLease(session, version, Automation, renewed)
  }

  /** A call made with nothing between its read and its commit. */
  function AtOnce(store: Store, e: Event, ttl: nat): Result<Store, Refusal>
    requires e.ReadTransition? || e.ReadOpening? || e.ReadPulse?
  {
    var pending :- ReadCall(System(store, map[], ttl), e);
    CommitCall(store, pending)
  }

  /** One atomic step of the interleaved system; a refused step leaves the store as it was. */
  function Step(s: System, e: Event): System {
    match e
    case CreateLease(session, t) =>
      if session in s.store.leases then s else
      var lease := Lease(session, Automation, 1, t.stamp, t.stamp, t.stamp + s.ttl, None);
      if !lease.Valid() then s else
      s.(store := Store(s.store.interventions, s.store.leases[session := lease]))
    case Commit(caller) =>
      if caller !in s.pending then s else
      var done := s.(pending := s.pending - {caller});
      (match CommitCall(s.store, s.pending[caller])
       case Ok(store') => done.(store := store')
       case Err(_) => done)
    case _ =>
      (match ReadCall(s, e)
       case Ok(p) => s.(pending := s.pending[e.caller := p])
       case Err(_) => s)
  }

  /** The system after a run of events from empty stores. */
  function Run(ttl: nat, events: seq<Event>): System {
    if events == [] then System(Store(map[], map[]), map[], ttl)
    else Step(Run(ttl, events[..|events| - 1]), events[|events| - 1])
  }

  // ---------------------------------------------------------------- invariants

  ghost predicate Sound(store: Store) {
    && (forall id <- store.interventions ::
          var i := store.interventions[id];
          i.id == id && i.Valid() && i.session in store.leases)
    && (forall s <- store.leases :: store.leases[s].session == s && store.leases[s].Valid())
    && (forall id <- store.interventions | store.interventions[id].Active() ::
          Pair(store.interventions[id], store.leases[store.interventions[id].session]).Agrees())
  }

  /**
  What may happen to a pair that was once read: the lease has moved to a higher version,
  or it is the very same lease and the intervention is unchanged or was reopened under it.
  */
  ghost predicate Moved(before: Pair, store: Store) {
    var i, lease := before.intervention, before.lease;
    && i.Active() && before.Agrees()
    && i.id in store.interventions && lease.session in store.leases
    && store.interventions[i.id].session == i.session
    && store.interventions[i.id].identity == i.identity
    && (|| store.leases[lease.session].version > lease.version
        || (&& store.leases[lease.session] == lease
            && (|| store.interventions[i.id] == i
                || (i.status.Resuming? && store.interventions[i.id].status.Open?))))
  }

  ghost predicate PendingSound(p: Pending, store: Store, ttl: nat) {
    match p
    case Transition(op, expected, t, before, after) =>
      && Moved(before, store)
      && before.intervention.Valid()
      && Prepare(op, expected, before.intervention, before.lease, t, ttl) == Ok(after)
    case Opening(i, version, paused) => i.Valid() && i.status.Open? && paused.Valid() && paused.version == version + 1
    case Pulse(session, version, renewed) => renewed.Valid() && renewed.owner.Automation? && renewed.binding.None?
  }

  ghost predicate Inv(s: System) {
    && Sound(s.store)
    && (forall c <- s.pending :: PendingSound(s.pending[c], s.store, s.ttl))
  }

  /** How a later store relates to an earlier one: versions only grow, and a version names one lease for ever. */
  ghost predicate Later(store: Store, store': Store) {
    && (forall s <- store.leases ::
          && s in store'.leases
          && (store'.leases[s].version > store.leases[s].version || store'.leases[s] == store.leases[s]))
    && (forall id <- store.interventions ::
          && id in store'.interventions
          && store'.interventions[id].session == store.interventions[id].session
          && store'.interventions[id].identity == store.interventions[id].identity
          && (!store.interventions[id].Active() ==> store'.interventions[id] == store.interventions[id]))
    && (forall id <- store.interventions | store.interventions[id].Active() ::
          store.interventions[id].session in store.leases &&
          Moved(Pair(store.interventions[id], store.leases[store.interventions[id].session]), store'))
  }

  lemma LaterReflexive(store: Store)
    requires Sound(store)
    ensures Later(store, store)
  {
  }

  lemma MovedLater(before: Pair, store: Store, store': Store)
    requires Sound(store) && Moved(before, store) && Later(store, store')
    ensures Moved(before, store')
  {
    var i := store.interventions[before.intervention.id];
    if i.Active() {
      assert Moved(Pair(i, store.leases[i.session]), store');
    }
  }

  lemma LaterTransitive(a: Store, b: Store, c: Store)
    requires Sound(a) && Sound(b) && Later(a, b) && Later(b, c)
    ensures Later(a, c)
  {
    forall id <- a.interventions | a.interventions[id].Active()
      ensures Moved(Pair(a.interventions[id], a.leases[a.interventions[id].session]), c)
    {
      MovedLater(Pair(a.interventions[id], a.leases[a.interventions[id].session]), b, c);
    }
  }

  // ---------------------------------------------------------------- one commit

  /**
  The compare-and-swap cannot be fooled by a pair that changed and changed back: whenever its
  three comparisons hold, the whole snapshot is what the store holds now.
  */
  lemma SnapshotIsCurrent(before: Pair, store: Store)
    requires Sound(store) && Moved(before, store)
    requires store.interventions[before.intervention.id].status == before.intervention.status
    requires store.leases[before.lease.session].version == before.lease.version
    ensures store.Get(before.intervention.id) == Ok(before)
  {
  }

  lemma PreparedIsLegal(op: Op, expected: int, before: Pair, t: Tick, ttl: nat, after: Pair)
    requires before.Agrees() && before.intervention.Valid()
    requires Prepare(op, expected, before.intervention, before.lease, t, ttl) == Ok(after)
    ensures before.intervention.Active()
    ensures after.intervention.Valid()
    ensures after.intervention.id == before.intervention.id
    ensures after.lease.session == before.lease.session
    ensures after.lease == before.lease || (after.lease.Valid() && after.lease.version == before.lease.version + 1)
    ensures after.lease == before.lease ==> before.intervention.status.Resuming? && after.intervention.status.Open?
  {
  }

  /** A legal replacement of the current pair keeps every pair in agreement. */
  lemma PutStaysSound(store: Store, before: Pair, after: Pair)
    requires Sound(store) && before.intervention.Active() && store.Get(before.intervention.id) == Ok(before)
    requires after.Agrees() && after.intervention.Valid() && after.lease.Valid()
    requires after.intervention.id == before.intervention.id
             && after.intervention.session == before.intervention.session
    ensures Sound(store.Put(after))
  {
  }

  lemma PutIsLater(store: Store, before: Pair, after: Pair)
    requires Sound(store) && before.intervention.Active() && store.Get(before.intervention.id) == Ok(before)
    requires after.intervention.id == before.intervention.id && after.lease.session == before.lease.session
    requires after.intervention.session == before.intervention.session
             && after.intervention.identity == before.intervention.identity
    requires after.lease.version == before.lease.version + 1
             || (after.lease == before.lease && before.intervention.status.Resuming?
                 && after.intervention.status.Open?)
    ensures Later(store, store.Put(after))
  {
  }

  lemma TransitionCommit(store: Store, p: Pending, ttl: nat, store': Store)
    requires Sound(store) && p.Transition? && PendingSound(p, store, ttl)
    requires CommitCall(store, p) == Ok(store')
    ensures store.Get(p.before.intervention.id) == Ok(p.before)
    ensures store' == store.Put(p.after)
    ensures Sound(store') && Later(store, store')
  {
    SnapshotIsCurrent(p.before, store);
    PreparedIsLegal(p.op, p.expected, p.before, p.t, ttl, p.after);
    PutStaysSound(store, p.before, p.after);
    PutIsLater(store, p.before, p.after);
  }

  lemma OpeningStaysSound(store: Store, p: Pending, ttl: nat, store': Store)
    requires Sound(store) && p.Opening? && PendingSound(p, store, ttl)
    requires CommitCall(store, p) == Ok(store')
    ensures Sound(store')
  {
  }

  lemma OpeningCommit(store: Store, p: Pending, ttl: nat, store': Store)
    requires Sound(store) && p.Opening? && PendingSound(p, store, ttl)
    requires CommitCall(store, p) == Ok(store')
    ensures Sound(store') && Later(store, store')
  {
    OpeningStaysSound(store, p, ttl, store');
  }

  lemma PulseCommit(store: Store, p: Pending, ttl: nat, store': Store)
    requires Sound(store) && p.Pulse? && PendingSound(p, store, ttl)
    requires CommitCall(store, p) == Ok(store')
    ensures Sound(store') && Later(store, store')
  {
  }

  lemma ReadIsSound(s: System, e: Event, p: Pending)
    requires Inv(s)
    requires e.ReadTransition? || e.ReadOpening? || e.ReadPulse?
    requires ReadCall(s, e) == Ok(p)
    ensures PendingSound(p, s.store, s.ttl)
  {
    if e.ReadTransition? {
      PreparedIsLegal(p.op, p.expected, p.before, p.t, s.ttl, p.after);
    }
  }

  lemma CommitKeepsStore(s: System, p: Pending)
    requires Inv(s) && PendingSound(p, s.store, s.ttl) && CommitCall(s.store, p).Ok?
    ensures Sound(CommitCall(s.store, p).value) && Later(s.store, CommitCall(s.store, p).value)
  {
    var next := CommitCall(s.store, p).value;
    match p {
      case Transition(_, _, _, _, _) => TransitionCommit(s.store, p, s.ttl, next);
      case Opening(_, _, _) => OpeningCommit(s.store, p, s.ttl, next);
      case Pulse(_, _, _) => PulseCommit(s.store, p, s.ttl, next);
    }
  }

  lemma StoreKeeps(s: System, e: Event)
    requires Inv(s)
    ensures Sound(Step(s, e).store) && Later(s.store, Step(s, e).store)
  {
    LaterReflexive(s.store);
    if e.Commit? && e.caller in s.pending && CommitCall(s.store, s.pending[e.caller]).Ok? {
      CommitKeepsStore(s, s.pending[e.caller]);
    }
  }

  lemma PendingKeeps(s: System, e: Event)
    requires Inv(s) && Later(s.store, Step(s, e).store)
    ensures
      var s' := Step(s, e);
      forall c <- s'.pending :: PendingSound(s'.pending[c], s'.store, s'.ttl)
  {
    var s' := Step(s, e);
    if !e.CreateLease? && !e.Commit? && ReadCall(s, e).Ok? {
      ReadIsSound(s, e, ReadCall(s, e).value);
    }
    forall c <- s'.pending
      ensures PendingSound(s'.pending[c], s'.store, s'.ttl)
    {
      var p := s'.pending[c];
      assert PendingSound(p, s.store, s.ttl);
      if p.Transition? {
        MovedLater(p.before, s.store, s'.store);
      }
    }
  }

  lemma StepKeeps(s: System, e: Event)
    requires Inv(s)
    ensures Inv(Step(s, e)) && Later(s.store, Step(s, e).store)
  {
    StoreKeeps(s, e);
    PendingKeeps(s, e);
  }

  // ---------------------------------------------------------------- every run

  lemma {:induction false} RunKeeps(ttl: nat, events: seq<Event>)
    ensures Inv(Run(ttl, events)) && Run(ttl, events).ttl == ttl
  {
    if events != [] {
      RunKeeps(ttl, events[..|events| - 1]);
      StepKeeps(Run(ttl, events[..|events| - 1]), events[|events| - 1]);
    }
  }

  lemma {:induction false} RunLater(ttl: nat, events: seq<Event>, k: nat)
    requires k <= |events|
    ensures Sound(Run(ttl, events[..k]).store) && Sound(Run(ttl, events).store)
    ensures Later(Run(ttl, events[..k]).store, Run(ttl, events).store)
  {
    RunKeeps(ttl, events[..k]);
    RunKeeps(ttl, events);
    if k == |events| {
      assert events[..k] == events;
      LaterReflexive(Run(ttl, events).store);
    } else {
      var prefix := events[..|events| - 1];
      assert prefix[..k] == events[..k];
      RunLater(ttl, prefix, k);
      RunKeeps(ttl, prefix);
      StepKeeps(Run(ttl, prefix), events[|events| - 1]);
      LaterTransitive(Run(ttl, events[..k]).store, Run(ttl, prefix).store, Run(ttl, events).store);
    }
  }

  /**
  In every reachable state an active intervention agrees with its session's lease, and a session
  has at most one active intervention.
  */
  lemma ActiveAgreesAndIsUnique(ttl: nat, events: seq<Event>, id: Id, other: Id)
    requires id in Run(ttl, events).store.interventions && other in Run(ttl, events).store.interventions
    requires Run(ttl, events).store.interventions[id].Active()
    ensures Run(ttl, events).store.Get(id).Ok?
    ensures Run(ttl, events).store.interventions[other].Active()
            && Run(ttl, events).store.interventions[other].session == Run(ttl, events).store.interventions[id].session
            ==> other == id
  {
    RunKeeps(ttl, events);
  }

  /**
  A lease version never decreases and names one lease value, hence one owner, for all time; so two
  principals can never pass the acting check with the same version, at the same or different moments.
  */
  lemma VersionHasOneOwner(ttl: nat, events: seq<Event>, j: nat, k: nat, session: Id, version: int,
                           first: Owner, second: Owner, now: int, then_: int)
    requires j <= k <= |events|
    requires Run(ttl, events[..j]).store.CanAct(session, version, first, now)
    ensures session in Run(ttl, events[..k]).store.leases
    ensures Run(ttl, events[..k]).store.leases[session].version >= version
    ensures Run(ttl, events[..k]).store.CanAct(session, version, second, then_) ==> first == second
  {
    assert events[..k][..j] == events[..j];
    RunLater(ttl, events[..k], j);
  }

  /**
  Every successful commit is one atomic, legal transition: the store it changes holds exactly the
  pair the call had read, and the result is the call's own preparation applied to that pair.
  */
  lemma CommitIsAtomic(ttl: nat, events: seq<Event>, caller: nat)
    requires caller in Run(ttl, events).pending
    requires Run(ttl, events).pending[caller].Transition?
    requires CommitCall(Run(ttl, events).store, Run(ttl, events).pending[caller]).Ok?
    ensures
      var s := Run(ttl, events);
      var p := s.pending[caller];
      && s.store.Get(p.before.intervention.id) == Ok(p.before)
      && Prepare(p.op, p.expected, p.before.intervention, p.before.lease, p.t, ttl) == Ok(p.after)
      && Step(s, Commit(caller)).store == s.store.Put(p.after)
      && Step(s, Commit(caller)).store.Get(p.before.intervention.id) == Ok(p.after)
  {
    RunKeeps(ttl, events);
    var s := Run(ttl, events);
    TransitionCommit(s.store, s.pending[caller], ttl, CommitCall(s.store, s.pending[caller]).value);
  }

  lemma CompletionNeeds(p: Pending, ttl: nat)
    requires p.Transition? && p.op.CompleteResume?
    requires Prepare(p.op, p.expected, p.before.intervention, p.before.lease, p.t, ttl) == Ok(p.after)
    ensures p.before.intervention.status.Resuming? && p.before.lease.version == p.expected
    ensures p.before.lease.owner == Paused
  {
  }

  lemma Unmoved(a: Store, b: Store, c: Store, started: Pair, current: Pair)
    requires Sound(a) && Sound(b) && Sound(c) && Later(a, b) && Later(b, c)
    requires a.Get(started.intervention.id) == Ok(started) && started.intervention.status.Resuming?
    requires c.Get(started.intervention.id) == Ok(current) && current.intervention.status.Resuming?
    requires current.lease.version == started.lease.version
    ensures current == started && b.Get(started.intervention.id) == Ok(started)
  {
    var i := b.interventions[started.intervention.id];
    assert Moved(started, b);
    MovedLater(started, b, c);
    assert b.leases[started.lease.session].version == started.lease.version;
    assert i.Active() ==> Moved(Pair(i, b.leases[i.session]), c);
  }

  /**
  A resume attempt that returned version `v` at moment `j` owns `v`: if a completion quoting `v`
  commits at a later moment, no commit of any caller touched the pair in between, so at every
  moment between them the lease was paused and the intervention was still resuming.
  */
  lemma CompletionBelongsToItsResume(ttl: nat, events: seq<Event>, j: nat, m: nat, started: Pair, caller: nat)
    requires j <= m <= |events|
    requires started.intervention.status.Resuming?
    requires Run(ttl, events[..j]).store.Get(started.intervention.id) == Ok(started)
    requires caller in Run(ttl, events).pending
    requires var p := Run(ttl, events).pending[caller];
             && p.Transition? && p.op.CompleteResume?
             && p.before.intervention.id == started.intervention.id
             && p.expected == started.lease.version
             && CommitCall(Run(ttl, events).store, p).Ok?
    ensures Run(ttl, events).pending[caller].before == started
    ensures Run(ttl, events[..m]).store.Get(started.intervention.id) == Ok(started)
    ensures started.lease.owner == Paused
  {
    var s := Run(ttl, events);
    CommitIsAtomic(ttl, events, caller);
    RunLater(ttl, events, m);
    assert events[..m][..j] == events[..j];
    RunLater(ttl, events[..m], j);
    var p := s.pending[caller];
    CompletionNeeds(p, ttl);
    Unmoved(Run(ttl, events[..j]).store, Run(ttl, events[..m]).store, s.store, started, p.before);
  }

  // ---------------------------------------------------------------- progress

  /** One coordinator call made with nothing in between: read, prepare, commit. */
  function Call(store: Store, op: Op, id: Id, expected: int, t: Tick, ttl: nat): Result<Store, Refusal> {
    var before :- store.Get(id);
    var after :- Prepare(op, expected, before.intervention, before.lease, t, ttl);
    store.CompareAndSwap(id, before.intervention.status, before.lease.version, before.lease.owner, after)
  }

  /** The calls that end an active intervention at time `now`, whatever has expired. */
  function Rescue(pair: Pair, now: int, operator: string): seq<(Op, int)> {
    var v := pair.lease.version;
    match pair.intervention.status
    case Open => [(Terminate(None, "stopped"), v)]
    case Resuming => [(Reopen("stopped"), v), (Terminate(None, "stopped"), v)]
    case Claimed =>
      if pair.lease.expiresAt > now then [(Terminate(pair.intervention.operator, "stopped"), v)]
      else [(Claim(operator), v), (Terminate(Some(operator), "stopped"), v + 1)]
    case _ => []
  }

  function CallAll(store: Store, calls: seq<(Op, int)>, id: Id, t: Tick, ttl: nat): Result<Store, Refusal>
    decreases calls
  {
    if calls == [] then Ok(store) else
    var next :- Call(store, calls[0].0, id, calls[0].1, t, ttl);
    CallAll(next, calls[1..], id, t, ttl)
  }

  lemma TerminateOpen(store: Store, id: Id, now: int, ttl: nat)
    requires ttl > 0 && store.Get(id).Ok?
    requires store.interventions[id].id == id && store.interventions[id].Valid()
    requires store.interventions[id].status.Open?
    ensures
      var done := Call(store, Terminate(None, "stopped"), id, store.Get(id).value.lease.version, Tick(now, now), ttl);
      done.Ok? && done.value.Get(id).Ok? && done.value.interventions[id].status.Terminated?
  {
    assert !Blank("stopped") by { assert !Space("stopped"[0]); }
  }

  lemma TerminateClaimed(store: Store, id: Id, now: int, ttl: nat)
    requires ttl > 0 && store.Get(id).Ok?
    requires store.interventions[id].id == id && store.interventions[id].Valid()
    requires store.interventions[id].status.Claimed? && store.Get(id).value.lease.expiresAt > now
    ensures
      var i := store.interventions[id];
      var done := Call(store, Terminate(i.operator, "stopped"), id, store.Get(id).value.lease.version, Tick(now, now),
                       ttl);
      done.Ok? && done.value.Get(id).Ok? && done.value.interventions[id].status.Terminated?
  {
    assert !Blank("stopped") by { assert !Space("stopped"[0]); }
  }

  lemma RescueFirst(store: Store, id: Id, now: int, operator: string, ttl: nat)
    requires ttl > 0 && !Blank(operator) && Sound(store)
    requires id in store.interventions && store.interventions[id].Active()
    ensures store.Get(id).Ok?
    ensures
      var calls := Rescue(store.Get(id).value, now, operator);
      && 1 <= |calls| <= 2
      && var first := Call(store, calls[0].0, id, calls[0].1, Tick(now, now), ttl);
      && first.Ok? && first.value.Get(id).Ok?
      && var last := if |calls| == 1 then first else Call(first.value, calls[1].0, id, calls[1].1, Tick(now, now), ttl);
      && last.Ok? && last.value.Get(id).Ok? && last.value.interventions[id].status.Terminated?
  {
    var pair := store.Get(id).value;
    var v := pair.lease.version;
    match pair.intervention.status {
      case Open => TerminateOpen(store, id, now, ttl);
      case Resuming =>
        assert !Blank("stopped") by { assert !Space("stopped"[0]); }
        var first := Call(store, Reopen("stopped"), id, v, Tick(now, now), ttl);
        assert first.Ok?;
        TerminateOpen(first.value, id, now, ttl);
      case Claimed =>
        if pair.lease.expiresAt > now {
          TerminateClaimed(store, id, now, ttl);
        } else {
          var first := Call(store, Claim(operator), id, v, Tick(now, now), ttl);
          assert operator != "";
          assert first.Ok?;
          TerminateClaimed(first.value, id, now, ttl);
        }
    }
  }

  /** The state `done` ends the intervention with its pair in agreement. */
  predicate Ends(done: Result<Store, Refusal>, id: Id) {
    done.Ok? && done.value.Get(id).Ok? && done.value.interventions[id].status.Terminated?
  }

  lemma RescueAll(store: Store, id: Id, now: int, operator: string, ttl: nat)
    requires ttl > 0 && !Blank(operator) && Sound(store)
    requires id in store.interventions && store.interventions[id].Active()
    ensures store.Get(id).Ok? && 1 <= |Rescue(store.Get(id).value, now, operator)| <= 2
    ensures Ends(CallAll(store, Rescue(store.Get(id).value, now, operator), id, Tick(now, now), ttl), id)
  {
    RescueFirst(store, id, now, operator, ttl);
    var calls := Rescue(store.Get(id).value, now, operator);
    var t := Tick(now, now);
    var first := Call(store, calls[0].0, id, calls[0].1, t, ttl);
    if |calls| == 1 {
      assert CallAll(first.value, calls[1..], id, t, ttl) == first;
    } else {
      assert calls[1..] == [calls[1]];
      var second := Call(first.value, calls[1].0, id, calls[1].1, t, ttl);
      assert CallAll(second.value, calls[1..][1..], id, t, ttl) == second;
    }
  }

  /**
  No intervention gets stuck: from every reachable state, an active intervention is terminated by
  at most two coordinator calls, and the pair still agrees.
  */
  lemma NeverStuck(ttl: nat, events: seq<Event>, id: Id, now: int, operator: string)
    requires ttl > 0 && !Blank(operator)
    requires id in Run(ttl, events).store.interventions && Run(ttl, events).store.interventions[id].Active()
    ensures
      var store := Run(ttl, events).store;
      && store.Get(id).Ok?
      && var calls := Rescue(store.Get(id).value, now, operator);
      && 1 <= |calls| <= 2
      && Ends(CallAll(store, calls, id, Tick(now, now), ttl), id)
  {
    RunKeeps(ttl, events);
    RescueAll(Run(ttl, events).store, id, now, operator, ttl);
  }
}
