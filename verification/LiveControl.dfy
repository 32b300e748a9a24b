/**
Live human control of a paused browser session: frames shown to an operator and the inputs
sequenced against them, while claims, releases, heartbeats, resumes, new pauses and automation
heartbeats change the lease underneath.

The service holds one lock around each of these operations, and `Handoff.CommitIsAtomic` shows
that a coordinator call acts as one atomic change, so a run here is a sequence of such steps.
*/
module LiveControl {
  import opened Prelude
  import opened Handoff

  datatype Viewport = Viewport(width: nat, height: nat)

  datatype Shot = Shot(content: string, viewport: Viewport)

  const PNG := "\U{89}PNG\r\n\U{1A}\n"

  /** What an operator may be sent; the check comes after the capture, which has then already counted. */
  predicate Presentable(shot: Shot) {
    |shot.content| <= 5 * 1024 * 1024 && PNG <= shot.content
  }

  /** `version` is a history tag: the lease version under which the frame was captured. */
  datatype Frame = Frame(shot: Shot, sequence: nat, nextClient: nat, version: nat)

  datatype Command = Command(client: nat, source: nat, viewport: Viewport, action: string)

  /** History record of one input handed to the browser. */
  datatype Dispatch = Dispatch(command: Command, frame: Frame, version: nat)

  datatype Live = Live(frameSequence: nat, latest: Option<Frame>, lastClient: nat, dispatched: seq<Dispatch>) {
    function Capture(shot: Shot, version: nat): Live {
      if latest.Some? && latest.value.shot == shot then this
      else this.(frameSequence := frameSequence + 1,
                 latest := Some(Frame(shot, frameSequence + 1, lastClient + 1, version)))
    }

    predicate Accepts(c: Command) {
      && c.client == lastClient + 1
      && latest.Some? && c.source == latest.value.sequence
      && c.viewport == latest.value.shot.viewport
    }

    function Invalidate(): Live {
      this.(latest := None)
    }

    function Apply(c: Command, version: nat): Live
      requires Accepts(c)
    {
      Live(frameSequence, None, c.client, dispatched + [Dispatch(c, latest.value, version)])
    }

    /**
    What an operator is promised: inputs reached the browser once each, numbered 1, 2, 3, ...; each
    was aimed at its own frame, newer than every frame used before, captured after the previous
    input and under the lease version the input itself was sent with.
    */
    ghost predicate Sequenced() {
      && |dispatched| == lastClient
      && (forall k :: 0 <= k < |dispatched| ==>
            var d := dispatched[k];
            && d.command.client == k + 1
            && d.command.source == d.frame.sequence <= frameSequence
            && d.frame.nextClient == k + 1
            && d.frame.version == d.version
            && d.command.viewport == d.frame.shot.viewport)
      && (forall j, k :: 0 <= j < k < |dispatched| ==> dispatched[j].frame.sequence < dispatched[k].frame.sequence)
      && (latest.Some? ==>
            && latest.value.sequence == frameSequence
            && latest.value.nextClient == lastClient + 1
            && (forall k :: 0 <= k < |dispatched| ==> dispatched[k].frame.sequence < frameSequence))
    }
  }

  const NEW_SESSION := Live(0, None, 0, [])

  /** `retired` keeps the sessions that were closed, so that the promise can be stated about them too. */
  datatype Desk = Desk(store: Store, live: map<Id, Live>, retired: seq<Live>, ttl: nat)

  datatype Move =
    | CreateSession(session: Id, t: Tick)
    | Coordinate(op: Op, id: Id, expected: int, t: Tick)
    | Pause(id: Id, session: Id, identity: string, explanation: string, version: nat, t: Tick)
    | AutomationBeat(session: Id, version: nat, t: Tick)
    | Attach(id: Id)
    | Retain(id: Id, next: Id)
    | Close(id: Id)
    | ShowViewport(id: Id, operator: string, expected: int, now: int, shot: Shot)
    | SendInput(id: Id, operator: string, expected: int, now: int, journalled: bool, command: Command)

  /** The ownership test shared by viewport and input: claimed by this operator, and able to act now. */
  predicate Controls(store: Store, id: Id, operator: string, expected: int, now: int) {
    && store.Get(id).Ok?
    && var i := store.Get(id).value.intervention;
    && i.status.Claimed? && i.operator == Some(operator)
    && store.CanAct(i.session, expected, Human(operator), now)
  }

  function Retire(d: Desk, id: Id): Desk {
    if id in d.live then d.(live := d.live - {id}, retired := d.retired + [d.live[id]]) else d
  }

  function Replace(d: Desk, id: Id, live: Live): Desk {
    d.(live := d.live[id := live])
  }

  function AfterCoordinate(d: Desk, op: Op, id: Id): Desk {
    match op
    case Terminate(_, _) => Retire(d, id)
    case Reopen(_) => d
    case CompleteResume(_) => d
    case _ => if id in d.live then Replace(d, id, d.live[id].Invalidate()) else d
  }

  /** A read with its commit right behind it: how the engine's own lease changes look from outside. */
  function ReadAndCommit(store: Store, e: Event, ttl: nat): Store
    requires e.ReadOpening? || e.ReadPulse?
  {
    match AtOnce(store, e, ttl)
    case Err(_) => store
    case Ok(store') => store'
  }

  function BackgroundStore(d: Desk, m: Move): Store
    requires m.CreateSession? || m.Pause? || m.AutomationBeat?
  {
    match m
    case CreateSession(session, t) => Step(System(d.store, map[], d.ttl), CreateLease(session, t)).store
    case Pause(id, session, identity, explanation, version, t) =>
      ReadAndCommit(d.store, ReadOpening(0, id, session, identity, explanation, version, t), d.ttl)
    case AutomationBeat(session, version, t) => ReadAndCommit(d.store, ReadPulse(0, session, version, t), d.ttl)
  }

  /** One step under the service lock; a refused step changes nothing. */
  function Turn(d: Desk, m: Move): Desk {
    match m
    case Coordinate(op, id, expected, t) =>
      (match Call(d.store, op, id, expected, t, d.ttl)
       case Ok(store') => AfterCoordinate(d.(store := store'), op, id)
       case Err(_) => d)
    case Attach(id) => Replace(Retire(d, id), id, NEW_SESSION)
    case Retain(id, next) =>
      // The worker continues a resumed run: only then is its session handed to the next pause.
      if id !in d.live || id !in d.store.interventions || !d.store.interventions[id].status.Resolved? then d
      else Replace(Retire(d.(live := d.live - {id}), next), next, d.live[id])
    case Close(id) => Retire(d, id)
    case ShowViewport(id, operator, expected, now, shot) =>
      if !Controls(d.store, id, operator, expected, now) || id !in d.live then d
      else Replace(d, id, d.live[id].Capture(shot, d.store.Get(id).value.lease.version))
    case SendInput(id, operator, expected, now, journalled, command) =>
      if !Controls(d.store, id, operator, expected, now) || id !in d.live || !journalled then d
      else if !d.live[id].Accepts(command) then d
      else Replace(d, id, d.live[id].Apply(command, d.store.Get(id).value.lease.version))
    case _ => d.(store := BackgroundStore(d, m))
  }

  function Shift(ttl: nat, moves: seq<Move>): Desk {
    if moves == [] then Desk(Store(map[], map[]), map[], [], ttl)
    else Turn(Shift(ttl, moves[..|moves| - 1]), moves[|moves| - 1])
  }

  /** A frame is on offer only while its intervention is claimed and the lease is the one it was captured under. */
  ghost predicate FrameCurrent(store: Store, id: Id, live: Live) {
    live.latest.Some? ==>
      && store.Get(id).Ok?
      && store.Get(id).value.intervention.status.Claimed?
      && store.Get(id).value.lease.version == live.latest.value.version
  }

  ghost predicate DeskInv(d: Desk) {
    && Sound(d.store)
    && (forall id <- d.live :: d.live[id].Sequenced() && FrameCurrent(d.store, id, d.live[id]))
    && (forall k :: 0 <= k < |d.retired| ==> d.retired[k].Sequenced())
  }

  lemma CallKeeps(store: Store, op: Op, id: Id, expected: int, t: Tick, ttl: nat)
    requires Sound(store) && Call(store, op, id, expected, t, ttl).Ok?
    ensures
      var store' := Call(store, op, id, expected, t, ttl).value;
      && Sound(store')
      && store.Get(id).Ok? && store.Get(id).value.intervention.Active()
      && (forall other | other != id && store.Get(other).Ok? && store.Get(other).value.intervention.Active() ::
            store'.Get(other) == store.Get(other))
      && (store.Get(id).value.intervention.status.Claimed? ==> !op.Reopen? && !op.CompleteResume?)
  {
    var before := store.Get(id).value;
    var after := Prepare(op, expected, before.intervention, before.lease, t, ttl).value;
    PreparedIsLegal(op, expected, before, t, ttl, after);
    var p := Transition(op, expected, t, before, after);
    TransitionCommit(store, p, ttl, Call(store, op, id, expected, t, ttl).value);
  }

  lemma CommitSparesClaims(store: Store, p: Pending, store': Store, id: Id)
    requires Sound(store) && !p.Transition? && CommitCall(store, p) == Ok(store')
    requires store.Get(id).Ok? && store.Get(id).value.intervention.status.Claimed?
    ensures store'.Get(id) == store.Get(id)
  {
    var touched := if p.Pulse? then p.session else p.raised.session;
    assert store.leases[touched].owner.Automation?;
    assert store'.leases == store.leases[touched := store'.leases[touched]];
  }

  lemma ReadAndCommitKeeps(store: Store, e: Event, ttl: nat)
    requires Sound(store) && (e.ReadOpening? || e.ReadPulse?)
    ensures Sound(ReadAndCommit(store, e, ttl)) && Later(store, ReadAndCommit(store, e, ttl))
    ensures forall id | store.Get(id).Ok? && store.Get(id).value.intervention.status.Claimed? ::
              ReadAndCommit(store, e, ttl).Get(id) == store.Get(id)
  {
    LaterReflexive(store);
    var s := System(store, map[], ttl);
    var r := ReadCall(s, e);
    if r.Ok? && CommitCall(store, r.value).Ok? {
      var store' := CommitCall(store, r.value).value;
      ReadIsSound(s, e, r.value);
      if e.ReadPulse? {
        PulseCommit(store, r.value, ttl, store');
      } else {
        OpeningCommit(store, r.value, ttl, store');
      }
      forall id | store.Get(id).Ok? && store.Get(id).value.intervention.status.Claimed?
        ensures ReadAndCommit(store, e, ttl).Get(id) == store.Get(id)
      {
        CommitSparesClaims(store, r.value, store', id);
      }
    }
  }

  /** What the engine does to leases in the background never touches a claimed intervention. */
  lemma BackgroundKeeps(d: Desk, m: Move)
    requires Sound(d.store) && (m.CreateSession? || m.Pause? || m.AutomationBeat?)
    ensures Sound(BackgroundStore(d, m)) && Later(d.store, BackgroundStore(d, m))
    ensures forall id | d.store.Get(id).Ok? && d.store.Get(id).value.intervention.status.Claimed? ::
              BackgroundStore(d, m).Get(id) == d.store.Get(id)
  {
    match m {
      case CreateSession(session, t) =>
        var s := System(d.store, map[], d.ttl);
        StepKeeps(s, CreateLease(session, t));
      case Pause(id, session, identity, explanation, version, t) =>
        ReadAndCommitKeeps(d.store, ReadOpening(0, id, session, identity, explanation, version, t), d.ttl);
      case AutomationBeat(session, version, t) =>
        ReadAndCommitKeeps(d.store, ReadPulse(0, session, version, t), d.ttl);
    }
  }

  lemma CoordinateKeeps(d: Desk, op: Op, id: Id, expected: int, t: Tick)
    requires DeskInv(d) && Call(d.store, op, id, expected, t, d.ttl).Ok?
    ensures DeskInv(AfterCoordinate(d.(store := Call(d.store, op, id, expected, t, d.ttl).value), op, id))
  {
    var store' := Call(d.store, op, id, expected, t, d.ttl).value;
    CallKeeps(d.store, op, id, expected, t, d.ttl);
    forall other <- d.live | other != id
      ensures FrameCurrent(store', other, d.live[other])
    {
      assert FrameCurrent(d.store, other, d.live[other]);
    }
    if id in d.live && (op.Reopen? || op.CompleteResume?) {
      assert FrameCurrent(d.store, id, d.live[id]);
    }
  }

  lemma RetainKeeps(d: Desk, id: Id, next: Id)
    requires DeskInv(d)
    ensures DeskInv(Turn(d, Retain(id, next)))
  {
    if id in d.live {
      assert FrameCurrent(d.store, id, d.live[id]);
    }
  }

  lemma CaptureKeeps(d: Desk, id: Id, shot: Shot)
    requires DeskInv(d) && id in d.live && d.store.Get(id).Ok?
    requires d.store.Get(id).value.intervention.status.Claimed?
    ensures
      var live := d.live[id].Capture(shot, d.store.Get(id).value.lease.version);
      live.Sequenced() && FrameCurrent(d.store, id, live)
  {
    assert FrameCurrent(d.store, id, d.live[id]);
  }

  lemma ReplaceKeeps(d: Desk, id: Id, live: Live)
    requires DeskInv(d) && live.Sequenced() && FrameCurrent(d.store, id, live)
    ensures DeskInv(Replace(d, id, live))
  {
  }

  lemma ViewportKeeps(d: Desk, id: Id, operator: string, expected: int, now: int, shot: Shot)
    requires DeskInv(d)
    ensures DeskInv(Turn(d, ShowViewport(id, operator, expected, now, shot)))
  {
    if id in d.live && Controls(d.store, id, operator, expected, now) {
      CaptureKeeps(d, id, shot);
      ReplaceKeeps(d, id, d.live[id].Capture(shot, d.store.Get(id).value.lease.version));
    }
  }

  lemma InputKeeps(d: Desk, m: Move)
    requires DeskInv(d) && m.SendInput?
    ensures DeskInv(Turn(d, m))
  {
  }

  lemma BackgroundTurnKeeps(d: Desk, m: Move)
    requires DeskInv(d) && (m.CreateSession? || m.Pause? || m.AutomationBeat?)
    ensures DeskInv(Turn(d, m))
  {
    BackgroundKeeps(d, m);
    forall id <- d.live
      ensures FrameCurrent(Turn(d, m).store, id, d.live[id])
    {
      assert FrameCurrent(d.store, id, d.live[id]);
    }
  }

  lemma TurnKeeps(d: Desk, m: Move)
    requires DeskInv(d)
    ensures DeskInv(Turn(d, m))
  {
    match m {
      case Coordinate(op, id, expected, t) =>
        if Call(d.store, op, id, expected, t, d.ttl).Ok? {
          CoordinateKeeps(d, op, id, expected, t);
        }
      case Attach(_) =>
      case Retain(id, next) => RetainKeeps(d, id, next);
      case Close(_) =>
      case ShowViewport(id, operator, expected, now, shot) => ViewportKeeps(d, id, operator, expected, now, shot);
      case SendInput(_, _, _, _, _, _) => InputKeeps(d, m);
      case _ => BackgroundTurnKeeps(d, m);
    }
  }

  lemma {:induction false} ShiftKeeps(ttl: nat, moves: seq<Move>)
    ensures DeskInv(Shift(ttl, moves))
  {
    if moves != [] {
      ShiftKeeps(ttl, moves[..|moves| - 1]);
      TurnKeeps(Shift(ttl, moves[..|moves| - 1]), moves[|moves| - 1]);
    }
  }

  /** In every run, every session, open or closed, has received its human inputs as promised. */
  lemma InputsAreSequenced(ttl: nat, moves: seq<Move>, live: Live)
    requires live in Shift(ttl, moves).live.Values || live in Shift(ttl, moves).retired
    ensures live.Sequenced()
  {
    ShiftKeeps(ttl, moves);
  }

  // ---------------------------------------------------------------- nobody acts while a resumption is checked

  lemma CallLater(store: Store, op: Op, id: Id, expected: int, t: Tick, ttl: nat)
    requires Sound(store) && Call(store, op, id, expected, t, ttl).Ok?
    ensures Later(store, Call(store, op, id, expected, t, ttl).value)
  {
    var before := store.Get(id).value;
    var after := Prepare(op, expected, before.intervention, before.lease, t, ttl).value;
    PreparedIsLegal(op, expected, before, t, ttl, after);
    TransitionCommit(store, Transition(op, expected, t, before, after), ttl,
                     Call(store, op, id, expected, t, ttl).value);
  }

  /** The store after a turn: a coordinator call, something in the background, or no change. */
  function TurnStore(d: Desk, m: Move): Store {
    match m
    case Coordinate(op, id, expected, t) =>
      var done := Call(d.store, op, id, expected, t, d.ttl);
      if done.Ok? then done.value else d.store
    case CreateSession(_, _) => BackgroundStore(d, m)
    case Pause(_, _, _, _, _, _) => BackgroundStore(d, m)
    case AutomationBeat(_, _, _) => BackgroundStore(d, m)
    case _ => d.store
  }

  lemma TurnStores(d: Desk, m: Move)
    ensures Turn(d, m).store == TurnStore(d, m)
  {
  }

  lemma TurnLater(d: Desk, m: Move)
    requires Sound(d.store)
    ensures Later(d.store, TurnStore(d, m))
  {
    if m.Coordinate? && Call(d.store, m.op, m.id, m.expected, m.t, d.ttl).Ok? {
      CallLater(d.store, m.op, m.id, m.expected, m.t, d.ttl);
    } else if m.CreateSession? || m.Pause? || m.AutomationBeat? {
      BackgroundKeeps(d, m);
    } else {
      LaterReflexive(d.store);
    }
  }

  lemma NextShift(ttl: nat, moves: seq<Move>, m: nat)
    requires m < |moves|
    ensures Shift(ttl, moves[..m + 1]) == Turn(Shift(ttl, moves[..m]), moves[m])
  {
    assert moves[..m + 1][..m] == moves[..m];
  }

  lemma {:induction false} ShiftLater(ttl: nat, moves: seq<Move>, j: nat)
    requires j <= |moves|
    ensures Sound(Shift(ttl, moves[..j]).store) && Sound(Shift(ttl, moves).store)
    ensures Later(Shift(ttl, moves[..j]).store, Shift(ttl, moves).store)
  {
    ShiftKeeps(ttl, moves[..j]);
    ShiftKeeps(ttl, moves);
    if j == |moves| {
      assert moves[..j] == moves;
      LaterReflexive(Shift(ttl, moves).store);
    } else {
      var prefix := moves[..|moves| - 1];
      assert prefix[..j] == moves[..j];
      ShiftKeeps(ttl, prefix);
      ShiftLater(ttl, prefix, j);
      TurnLater(Shift(ttl, prefix), moves[|moves| - 1]);
      TurnStores(Shift(ttl, prefix), moves[|moves| - 1]);
      LaterTransitive(Shift(ttl, moves[..j]).store, Shift(ttl, prefix).store, Shift(ttl, moves).store);
    }
  }

  /** While the pair of a resuming intervention stays as it was, no human controls that session. */
  lemma ResumingIsUncontrolled(store: Store, started: Pair, other: Id, operator: string, expected: int, now: int)
    requires store.Get(started.intervention.id) == Ok(started) && started.intervention.status.Resuming?
    requires other in store.interventions ==> store.interventions[other].session == started.lease.session
    ensures !Controls(store, other, operator, expected, now)
  {
  }

  lemma CompletionFinds(store: Store, id: Id, resolution: string, expected: int, t: Tick, ttl: nat)
    requires Call(store, CompleteResume(resolution), id, expected, t, ttl).Ok?
    ensures store.Get(id).Ok? && store.Get(id).value.intervention.status.Resuming?
    ensures store.Get(id).value.lease.version == expected
  {
  }

  /** A completion that quotes the version of a begin-resume finds the pair as that left it, at every moment between. */
  lemma ResumingIsUntouched(ttl: nat, moves: seq<Move>, j: nat, m: nat, started: Pair, resolution: string, t: Tick)
    requires j <= m <= |moves| && started.intervention.status.Resuming?
    requires Shift(ttl, moves[..j]).store.Get(started.intervention.id) == Ok(started)
    requires Call(Shift(ttl, moves).store, CompleteResume(resolution), started.intervention.id, started.lease.version,
                  t, Shift(ttl, moves).ttl).Ok?
    ensures Shift(ttl, moves[..m]).store.Get(started.intervention.id) == Ok(started)
  {
    var last, id := Shift(ttl, moves), started.intervention.id;
    ShiftLater(ttl, moves, m);
    assert moves[..m][..j] == moves[..j];
    ShiftLater(ttl, moves[..m], j);
    CompletionFinds(last.store, id, resolution, started.lease.version, t, last.ttl);
    Unmoved(Shift(ttl, moves[..j]).store, Shift(ttl, moves[..m]).store, last.store, started, last.store.Get(id).value);
  }

  /** The move sends an input to the session, or looks at it, through whichever intervention. */
  predicate Touches(d: Desk, move: Move, session: Id) {
    && (move.SendInput? || move.ShowViewport?)
    && (move.id in d.store.interventions ==> d.store.interventions[move.id].session == session)
  }

  lemma TouchIsRefused(d: Desk, move: Move, started: Pair)
    requires d.store.Get(started.intervention.id) == Ok(started) && started.intervention.status.Resuming?
    requires Touches(d, move, started.lease.session)
    ensures Turn(d, move) == d
  {
    ResumingIsUncontrolled(d.store, started, move.id, move.operator, move.expected, move.now);
  }

  /**
  Between the begin-resume that returned a version and a completion that quotes it and goes through, every input to
  the session and every look at it is refused: what automation gets back is the page it judged.
  */
  lemma NobodyActsWhileResuming(ttl: nat, moves: seq<Move>, j: nat, m: nat, started: Pair, resolution: string, t: Tick)
    requires j <= m < |moves| && started.intervention.status.Resuming?
    requires Shift(ttl, moves[..j]).store.Get(started.intervention.id) == Ok(started)
    requires Call(Shift(ttl, moves).store, CompleteResume(resolution), started.intervention.id, started.lease.version,
                  t, Shift(ttl, moves).ttl).Ok?
    ensures Touches(Shift(ttl, moves[..m]), moves[m], started.lease.session) ==>
              Shift(ttl, moves[..m + 1]) == Shift(ttl, moves[..m])
  {
    ResumingIsUntouched(ttl, moves, j, m, started, resolution, t);
    NextShift(ttl, moves, m);
    if Touches(Shift(ttl, moves[..m]), moves[m], started.lease.session) {
      TouchIsRefused(Shift(ttl, moves[..m]), moves[m], started);
    }
  }

  // ---------------------------------------------------------------- what is dispatched, and what is shown

  /** The intervention is claimed by this operator, whose lease has the quoted version and has not expired. */
  predicate InHand(store: Store, id: Id, operator: string, expected: int, now: int) {
    && store.Get(id).Ok?
    && var held := store.Get(id).value;
    && held.intervention.status.Claimed? && held.intervention.operator == Some(operator)
    && held.lease.owner == Human(operator) && held.lease.version == expected && now < held.lease.expiresAt
  }

  /** The command is the next one, aimed at the frame on offer in the size it was shown in. */
  predicate FitsFrame(live: Live, c: Command) {
    && live.latest.Some? && c.client == live.lastClient + 1
    && c.source == live.latest.value.sequence && c.viewport == live.latest.value.shot.viewport
  }

  /**
  An input reaches the browser exactly if its sender controls the intervention now, it was journalled, and it fits
  the frame on offer. It is then the one dispatch added, under the version it quotes, and uses up the frame;
  otherwise nothing changes.
  */
  lemma InputsExactly(d: Desk, id: Id, operator: string, expected: int, now: int, journalled: bool, c: Command)
    ensures
      var next := Turn(d, SendInput(id, operator, expected, now, journalled, c));
      if id in d.live && InHand(d.store, id, operator, expected, now) && journalled && FitsFrame(d.live[id], c)
      then
        var live := d.live[id];
        next == d.(live := d.live[id := live.(latest := None, lastClient := c.client,
                                              dispatched := live.dispatched
                                                + [Dispatch(c, live.latest.value, expected)])])
      else next == d
  {
  }

  /** A page is shown exactly to who controls the intervention now; one that looks as before is the same frame. */
  lemma ShowsExactly(d: Desk, id: Id, operator: string, expected: int, now: int, shot: Shot)
    ensures
      var next := Turn(d, ShowViewport(id, operator, expected, now, shot));
      if id in d.live && InHand(d.store, id, operator, expected, now)
         && !(d.live[id].latest.Some? && d.live[id].latest.value.shot == shot)
      then
        var live := d.live[id];
        var frame := Frame(shot, live.frameSequence + 1, live.lastClient + 1, expected);
        next == d.(live := d.live[id := live.(frameSequence := frame.sequence, latest := Some(frame))])
      else next == d
  {
    if id in d.live {
      assert d.live[id := d.live[id]] == d.live;
    }
  }

  /**
  A session is attached afresh, and what was there is retired; a resolved one goes over to the next pause with its
  numbers, its frame and all it has dispatched, so that numbering goes on; closing retires it.
  */
  lemma SessionsComeAndGo(d: Desk, id: Id, next: Id)
    ensures
      var kept := if id in d.live then [d.live[id]] else [];
      && Turn(d, Attach(id)) == d.(live := d.live[id := NEW_SESSION], retired := d.retired + kept)
      && Turn(d, Close(id)) == d.(live := d.live - {id}, retired := d.retired + kept)
      && var moved := Turn(d, Retain(id, next));
      if id in d.live && id in d.store.interventions && d.store.interventions[id].status.Resolved? then
        && next in moved.live && moved.live[next] == d.live[id] && (next != id ==> id !in moved.live)
        && moved.live.Keys == d.live.Keys - {id} + {next} && moved.store == d.store
        && (forall other <- moved.live | other != next :: other in d.live && moved.live[other] == d.live[other])
        && moved.retired == d.retired + (if next in d.live && next != id then [d.live[next]] else [])
      else moved == d
  {
    assert d.retired + [] == d.retired;
    if id !in d.live {
      assert d.live - {id} == d.live;
    }
  }
}
