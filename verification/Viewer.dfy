/** The bounded viewer: a few executions, each with a bounded window on its newest frames and events. */
module Viewer {
  import opened Prelude

  type Byte = n: nat | n < 256

  type Bytes = seq<Byte>

  datatype Mode = ReplayMode | DiscoveryMode

  datatype State = Running | Paused | Finished(status: string)

  datatype Limits = Limits(
    maximumActive: nat,
    maximumExecutions: nat,
    maximumFrames: nat,
    maximumBytes: nat,
    maximumFrameBytes: nat,
    maximumEvents: nat,
    retentionSeconds: nat)
  {
    /** What constructing the limits checks. */
    predicate Formed() {
      && maximumActive >= 1 && maximumExecutions >= 1 && maximumFrames >= 1 && maximumBytes >= 1
      && maximumFrameBytes >= 1 && maximumEvents >= 1 && retentionSeconds >= 1
      && maximumActive <= maximumExecutions
    }

    function FramesFor(mode: Mode): nat {
      if mode == ReplayMode then maximumFrames else 1
    }
  }

  datatype Frame = Frame(sequence: nat, runId: Id, phase: string, eventSequence: nat, data: Bytes)

  /** What an execution reports at its end or at a pause; only the status is interpreted. */
  datatype Result = Result(status: string, body: string)

  const TERMINAL := {"success", "failure", "business_outcome", "terminated"}

  datatype Event = Event(sequence: nat, runId: Id, phase: string, details: string)

  const PNG: Bytes := [0x89, 0x50, 0x4E, 0x47, 0x0D, 0x0A, 0x1A, 0x0A]

  // ---------------------------------------------------------------- windows

  function Size(frames: seq<Frame>): nat {
    if frames == [] then 0 else |frames[0].data| + Size(frames[1..])
  }

  predicate Fits(frames: seq<Frame>, most: nat, bytes: nat) {
    |frames| <= most && Size(frames) <= bytes
  }

  /** Drops the oldest frames until the rest fits. */
  function Newest(frames: seq<Frame>, most: nat, bytes: nat): (kept: seq<Frame>)
    ensures Fits(kept, most, bytes)
  {
    if Fits(frames, most, bytes) then frames
    else if frames == [] then []
    else Newest(frames[1..], most, bytes)
  }

  lemma {:induction false} SizeSplits(a: seq<Frame>, b: seq<Frame>)
    ensures Size(a + b) == Size(a) + Size(b)
  {
    if a == [] {
      assert a + b == b;
    } else {
      assert (a + b)[1..] == a[1..] + b;
      SizeSplits(a[1..], b);
    }
  }

  /** Eviction keeps the longest window of newest frames that fits: it is a suffix, and no longer suffix fits. */
  lemma {:induction false} NewestIsLongest(frames: seq<Frame>, most: nat, bytes: nat, longer: nat)
    ensures
      var kept := Newest(frames, most, bytes);
      && |kept| <= |frames| && kept == frames[|frames| - |kept|..]
      && (|kept| < longer <= |frames| ==> !Fits(frames[|frames| - longer..], most, bytes))
  {
    if !Fits(frames, most, bytes) && frames != [] {
      NewestIsLongest(frames[1..], most, bytes, longer);
      if longer == |frames| {
        assert frames[|frames| - longer..] == frames;
      }
    }
  }

  /** The newest frame stays, because on its own it fits. */
  lemma NewestKeepsLast(frames: seq<Frame>, last: Frame, most: nat, bytes: nat)
    requires most >= 1 && |last.data| <= bytes
    ensures
      var kept := Newest(frames + [last], most, bytes);
      |kept| > 0 && kept[|kept| - 1] == last
  {
    var all := frames + [last];
    NewestIsLongest(all, most, bytes, 1);
    assert all[|all| - 1..] == [last];
    assert Size([last]) == |last.data| + Size([last][1..]);
  }

  lemma {:induction false} EvictOne(frames: seq<Frame>, most: nat, bytes: nat)
    requires frames != [] && !Fits(frames, most, bytes)
    ensures Newest(frames, most, bytes) == Newest(frames[1..], most, bytes)
  {
  }

  /** Frames carry consecutive numbers, the first one above `before`. */
  predicate FramesFollow(frames: seq<Frame>, before: nat) {
    forall k :: 0 <= k < |frames| ==> frames[k].sequence == before + 1 + k
  }

  predicate EventsFollow(events: seq<Event>, before: nat) {
    forall k :: 0 <= k < |events| ==> events[k].sequence == before + 1 + k
  }

  function Last<T>(items: seq<T>, most: nat): seq<T> {
    if |items| <= most then items else items[|items| - most..]
  }

  // ---------------------------------------------------------------- one execution

  class Execution {
    const id: Id
    const mode: Mode
    const token: string
    var state: State
    var phase: string
    var frames: seq<Frame>
    var events: seq<Event>
    var runIds: seq<Id>
    var sequence: nat
    var eventSequence: nat
    var evictedFrames: nat
    var byteCount: nat
    var result: Option<Result>
    var finishedAt: Option<int>

    constructor (id: Id, mode: Mode, token: string, limits: Limits)
      requires limits.Formed()
      ensures Valid(limits) && this.id == id && this.mode == mode && this.token == token
      ensures finishedAt.None? && state == Running && frames == [] && events == []
    {
      this.id, this.mode, this.token := id, mode, token;
      state, phase, frames, events, runIds := Running, "starting", [], [], [];
      sequence, eventSequence, evictedFrames, byteCount := 0, 0, 0, 0;
      result, finishedAt := None, None;
    }

    /** The frames held are those numbered evicted + 1 up to the sequence, within both limits, the newest included. */
    ghost predicate FramesValid(limits: Limits)
      reads this`frames, this`sequence, this`evictedFrames, this`byteCount
    {
      && byteCount == Size(frames)
      && evictedFrames + |frames| == sequence && FramesFollow(frames, evictedFrames)
      && Fits(frames, limits.FramesFor(mode), limits.maximumBytes)
      && (sequence > 0 ==> frames != [])
    }

    /** The events held are the latest, as many as the limit allows. */
    ghost predicate EventsValid(limits: Limits)
      reads this`events, this`eventSequence
    {
      && |events| == (if eventSequence <= limits.maximumEvents then eventSequence else limits.maximumEvents)
      && EventsFollow(events, eventSequence - |events|)
    }

    ghost predicate EndValid()
      reads this`state, this`finishedAt
    {
      (finishedAt.Some? <==> state.Finished?) && (finishedAt.Some? ==> finishedAt.value > 0)
    }

    ghost predicate Valid(limits: Limits)
      reads this
    {
      FramesValid(limits) && EventsValid(limits) && EndValid()
    }

    method Accept(limits: Limits, runId: Id, phase: string, data: Bytes)
      requires limits.Formed() && FramesValid(limits) && |data| <= limits.maximumBytes
      modifies this`frames, this`sequence, this`evictedFrames, this`byteCount
      ensures FramesValid(limits) && sequence == old(sequence) + 1
      ensures frames == Newest(old(frames) + [Frame(sequence, runId, phase, eventSequence, data)],
                               limits.FramesFor(mode), limits.maximumBytes)
      ensures frames != [] && frames[|frames| - 1] == Frame(sequence, runId, phase, eventSequence, data)
    {
      sequence := sequence + 1;
      var newest := Frame(sequence, runId, phase, eventSequence, data);
      SizeSplits(frames, [newest]);
      assert Size([newest]) == |newest.data| + Size([newest][1..]);
      NewestKeepsLast(frames, newest, limits.FramesFor(mode), limits.maximumBytes);
      frames := frames + [newest];
      byteCount := byteCount + |data|;
      Evict(limits.FramesFor(mode), limits.maximumBytes);
    }

    /** Lets the oldest frames go until the rest fits. */
    method Evict(most: nat, bytes: nat)
      requires byteCount == Size(frames) && FramesFollow(frames, evictedFrames)
      modifies this`frames, this`evictedFrames, this`byteCount
      ensures byteCount == Size(frames) && FramesFollow(frames, evictedFrames)
      ensures frames == Newest(old(frames), most, bytes) && evictedFrames + |frames| == old(evictedFrames + |frames|)
    {
      while |frames| > most || byteCount > bytes
        invariant byteCount == Size(frames) && FramesFollow(frames, evictedFrames)
        invariant evictedFrames + |frames| == old(evictedFrames + |frames|)
        invariant Newest(old(frames), most, bytes) == Newest(frames, most, bytes)
        decreases |frames|
      {
        var removed := frames[0];
        EvictOne(frames, most, bytes);
        frames := frames[1..];
        byteCount := byteCount - |removed.data|;
        evictedFrames := evictedFrames + 1;
      }
    }

    method Note(limits: Limits, runId: Id, phase: string, details: string)
      requires limits.Formed() && EventsValid(limits)
      modifies this`events, this`eventSequence
      ensures EventsValid(limits) && eventSequence == old(eventSequence) + 1
      ensures events == Last(old(events) + [Event(eventSequence, runId, phase, details)], limits.maximumEvents)
    {
      eventSequence := eventSequence + 1;
      events := events + [Event(eventSequence, runId, phase, details)];
      if |events| > limits.maximumEvents {
        events := events[|events| - limits.maximumEvents..];
      }
    }

    /** A pause keeps the execution going; anything else ends it, and a status nobody knows ends it as a failure. */
    method Conclude(outcome: Result, now: int)
      requires EndValid() && now > 0 && finishedAt.None?
      modifies this`state, this`finishedAt, this`result
      ensures EndValid()
      ensures outcome.status == "intervention_required" ==>
                state == Paused && finishedAt.None? && result == Some(outcome)
      ensures outcome.status in TERMINAL ==>
                state == Finished(outcome.status) && finishedAt == Some(now) && result == Some(outcome)
      ensures outcome.status != "intervention_required" && outcome.status !in TERMINAL ==>
                state == Finished("failure") && finishedAt == Some(now)
                  && result == Some(Result("failure", "invalid_execution_result"))
    {
      if outcome.status == "intervention_required" {
        state, result := Paused, Some(outcome);
      } else if outcome.status in TERMINAL {
        state, finishedAt, result := Finished(outcome.status), Some(now), Some(outcome);
      } else {
        state, finishedAt, result := Finished("failure"), Some(now),
          Some(Result("failure", "invalid_execution_result"));
      }
    }

    method Continue()
      requires EndValid() && finishedAt.None?
      modifies this`state, this`result
      ensures EndValid() && state == Running && result.None?
    {
      state, result := Running, None;
    }
  }

  // ---------------------------------------------------------------- the viewer

  ghost predicate Distinct(items: seq<Execution>) {
    forall i, j :: 0 <= i < j < |items| ==> items[i] != items[j] && items[i].id != items[j].id
  }

  ghost function Unfinished(items: seq<Execution>): set<Execution>
    reads items`finishedAt
  {
    set e | e in items && e.finishedAt.None?
  }

  ghost predicate AllFramesValid(items: seq<Execution>, limits: Limits)
    reads items`frames, items`sequence, items`evictedFrames, items`byteCount
  {
    forall e <- items :: e.FramesValid(limits)
  }

  ghost predicate AllEventsValid(items: seq<Execution>, limits: Limits)
    reads items`events, items`eventSequence
  {
    forall e <- items :: e.EventsValid(limits)
  }

  ghost predicate AllEndsValid(items: seq<Execution>)
    reads items`state, items`finishedAt
  {
    forall e <- items :: e.EndValid()
  }

  lemma ValidGrows(items: seq<Execution>, e: Execution, limits: Limits)
    requires AllFramesValid(items, limits) && AllEventsValid(items, limits) && AllEndsValid(items) && e.Valid(limits)
    ensures AllFramesValid(items + [e], limits) && AllEventsValid(items + [e], limits) && AllEndsValid(items + [e])
  {
  }

  lemma DistinctGrows(items: seq<Execution>, e: Execution)
    requires Distinct(items) && forall x <- items :: x != e && x.id != e.id
    ensures Distinct(items + [e])
  {
  }

  lemma OneMore(items: seq<Execution>, e: Execution)
    ensures Unfinished(items + [e]) == if e.finishedAt.None? then Unfinished(items) + {e} else Unfinished(items)
  {
  }

  lemma Without(items: seq<Execution>, k: nat)
    requires k < |items| && Distinct(items)
    ensures
      var rest := items[..k] + items[k + 1..];
      && Distinct(rest)
      && (forall e :: e in rest <==> e in items && e != items[k])
      && (items[k].finishedAt.Some? ==> Unfinished(rest) == Unfinished(items))
  {
    var rest := items[..k] + items[k + 1..];
    forall e | e in items && e != items[k] ensures e in rest {
      var i :| 0 <= i < |items| && items[i] == e;
      assert rest[if i < k then i else i - 1] == e;
    }
  }

  predicate Over(e: Execution, now: int, retention: nat)
    reads e`finishedAt
  {
    e.finishedAt.Some? && now - e.finishedAt.value >= retention
  }

  /** What is left when everything past its retention is gone, in the same order. */
  ghost function Retained(items: seq<Execution>, now: int, retention: nat): seq<Execution>
    reads items`finishedAt
  {
    if items == [] then []
    else (if Over(items[0], now, retention) then [] else [items[0]]) + Retained(items[1..], now, retention)
  }

  /** The first `k` are kept, and of the others those that are not over. */
  ghost predicate Sifted(was: seq<Execution>, items: seq<Execution>, k: nat, now: int, retention: nat)
    reads was`finishedAt, items`finishedAt
  {
    k <= |items| && Retained(was, now, retention) == items[..k] + Retained(items[k..], now, retention)
  }

  lemma SiftOut(was: seq<Execution>, items: seq<Execution>, k: nat, now: int, retention: nat)
    requires Sifted(was, items, k, now, retention) && k < |items| && Over(items[k], now, retention)
    ensures Sifted(was, items[..k] + items[k + 1..], k, now, retention)
  {
    var rest := items[..k] + items[k + 1..];
    assert items[k..][1..] == items[k + 1..] && rest[..k] == items[..k] && rest[k..] == items[k + 1..];
  }

  lemma SiftOn(was: seq<Execution>, items: seq<Execution>, k: nat, now: int, retention: nat)
    requires Sifted(was, items, k, now, retention) && k < |items| && !Over(items[k], now, retention)
    ensures Sifted(was, items, k + 1, now, retention)
  {
    assert items[k..][1..] == items[k + 1..] && items[..k + 1] == items[..k] + [items[k]];
  }

  lemma SiftEnds(was: seq<Execution>, items: seq<Execution>, now: int, retention: nat)
    requires Sifted(was, items, |items|, now, retention)
    ensures items == Retained(was, now, retention)
  {
    assert items[..|items|] == items && items[|items|..] == [];
  }

  ghost function FirstFinished(items: seq<Execution>): (k: nat)
    reads items`finishedAt
    ensures k <= |items|
  {
    if items == [] || items[0].finishedAt.Some? then 0 else 1 + FirstFinished(items[1..])
  }

  lemma {:induction false} FirstFinishedIs(items: seq<Execution>, k: nat)
    requires k < |items| && items[k].finishedAt.Some? && forall j :: 0 <= j < k ==> items[j].finishedAt.None?
    ensures FirstFinished(items) == k
  {
    if k > 0 {
      FirstFinishedIs(items[1..], k - 1);
    }
  }

  /** What is left when the oldest finished executions make room, one after the other. */
  ghost function Roomy(items: seq<Execution>, most: nat): seq<Execution>
    reads items`finishedAt
    decreases |items|
  {
    var k := FirstFinished(items);
    if |items| < most || k == |items| then items else Roomy(items[..k] + items[k + 1..], most)
  }

  lemma {:induction false} AllUnfinished(items: seq<Execution>)
    requires Distinct(items) && forall e <- items :: e.finishedAt.None?
    ensures |Unfinished(items)| == |items|
  {
    if items != [] {
      var n := |items| - 1;
      AllUnfinished(items[..n]);
      assert items[..n] + [items[n]] == items;
      OneMore(items[..n], items[n]);
      assert items[n] !in items[..n];
    }
  }

  /** Fewer active executions than executions leaves a finished one. */
  lemma SomeFinished(items: seq<Execution>)
    requires Distinct(items) && |Unfinished(items)| < |items|
    ensures exists j :: 0 <= j < |items| && items[j].finishedAt.Some?
  {
    if forall e <- items :: e.finishedAt.None? {
      AllUnfinished(items);
    }
  }

  datatype Feed = Feed(executionId: Id, runId: Id, phase: string)

  /** The accepted frame is the newest one held, under the number just given. */
  predicate Held(frames: seq<Frame>, sequence: nat, feed: Feed, eventSequence: nat, data: Bytes) {
    frames != [] && frames[|frames| - 1] == Frame(sequence, feed.runId, feed.phase, eventSequence, data)
  }

  predicate Noted(events: seq<Event>, sequence: nat, feed: Feed, details: string) {
    events != [] && events[|events| - 1] == Event(sequence, feed.runId, feed.phase, details)
  }

  datatype Refusal = Unavailable | AtCapacity

  datatype Starting = Started(execution: Execution) | Refused(why: Refusal)

  class ExecutionViewer {
    const limits: Limits
    var items: seq<Execution>
    var closed: bool

    constructor (limits: Limits)
      requires limits.Formed()
      ensures Valid() && this.limits == limits && items == [] && !closed
    {
      this.limits, items, closed := limits, [], false;
    }

    ghost function Active(): set<Execution>
      reads this`items, items`finishedAt
    {
      Unfinished(items)
    }

    ghost predicate Bounded()
      reads this`items, items`finishedAt
    {
      && limits.Formed() && Distinct(items)
      && |items| <= limits.maximumExecutions
      && |Active()| <= limits.maximumActive
    }

    /** The bounds on the viewer and on each execution in it. */
    ghost predicate Valid()
      reads this, items
    {
      Bounded() && AllFramesValid(items, limits) && AllEventsValid(items, limits) && AllEndsValid(items)
    }

    method Find(id: Id) returns (found: Option<Execution>)
      ensures found.Some? ==> found.value in items && found.value.id == id
      ensures found.None? ==> forall k :: 0 <= k < |items| ==> items[k].id != id
    {
      for k := 0 to |items|
        invariant forall j :: 0 <= j < k ==> items[j].id != id
      {
        if items[k].id == id { return Some(items[k]); }
      }
      found := None;
    }

    method CountActive() returns (n: nat)
      requires Distinct(items)
      ensures n == |Active()|
    {
      n := 0;
      for k := 0 to |items|
        invariant n == |Unfinished(items[..k])|
      {
        assert items[..k + 1] == items[..k] + [items[k]];
        OneMore(items[..k], items[k]);
        assert items[k] !in items[..k];
        if items[k].finishedAt.None? {
          n := n + 1;
        }
      }
      assert items[..|items|] == items;
    }

    /** Where executions outnumber the active ones, the search for a finished one succeeds. */
    method OldestFinished() returns (k: nat)
      requires Distinct(items) && |Active()| < |items|
      ensures k < |items| && items[k].finishedAt.Some? && k == FirstFinished(items)
    {
      k := 0;
      SomeFinished(items);
      while items[k].finishedAt.None?
        invariant k < |items| && (forall j :: 0 <= j < k ==> items[j].finishedAt.None?)
        invariant exists j :: k <= j < |items| && items[j].finishedAt.Some?
        decreases |items| - k
      {
        k := k + 1;
      }
      FirstFinishedIs(items, k);
    }

    method Remove(k: nat)
      requires Valid() && k < |items| && items[k].finishedAt.Some?
      modifies this`items
      ensures Valid() && items == old(items)[..k] + old(items)[k + 1..] && Active() == old(Active())
      ensures forall e <- items :: e in old(items)
    {
      Without(items, k);
      items := items[..k] + items[k + 1..];
    }

    /** Finished executions expire, each once its retention is over; the others keep their order. */
    method Expire(now: int)
      requires Valid()
      modifies this`items
      ensures Valid() && Active() == old(Active()) && items == Retained(old(items), now, limits.retentionSeconds)
      ensures forall e <- items :: e in old(items)
    {
      var k := 0;
      assert items[..0] + Retained(items[0..], now, limits.retentionSeconds)
             == Retained(items, now, limits.retentionSeconds);
      while k < |items|
        invariant Valid() && Active() == old(Active()) && forall e <- items :: e in old(items)
        invariant Sifted(old(items), items, k, now, limits.retentionSeconds)
        decreases |items| - k
      {
        if Over(items[k], now, limits.retentionSeconds) {
          SiftOut(old(items), items, k, now, limits.retentionSeconds);
          Remove(k);
        } else {
          SiftOn(old(items), items, k, now, limits.retentionSeconds);
          k := k + 1;
        }
      }
      SiftEnds(old(items), items, now, limits.retentionSeconds);
    }

    method DropOldest()
      requires Valid() && |Active()| < |items| && limits.maximumExecutions <= |items|
      modifies this`items
      ensures Valid() && Active() == old(Active()) && |items| == |old(items)| - 1 && forall e <- items ::
                e in old(items)
      ensures Roomy(old(items), limits.maximumExecutions) == Roomy(items, limits.maximumExecutions)
    {
      var oldest := OldestFinished();
      Remove(oldest);
    }

    /** Makes room by letting the oldest finished executions go; there always is one. */
    method MakeRoom()
      requires Valid() && |Active()| < limits.maximumActive
      modifies this`items
      ensures Valid() && Active() == old(Active()) && |items| < limits.maximumExecutions
      ensures items == Roomy(old(items), limits.maximumExecutions) && forall e <- items :: e in old(items)
    {
      while |items| >= limits.maximumExecutions
        invariant Valid() && Active() == old(Active()) && forall e <- items :: e in old(items)
        invariant Roomy(old(items), limits.maximumExecutions) == Roomy(items, limits.maximumExecutions)
        decreases |items|
      {
        DropOldest();
      }
    }

    method Append(execution: Execution)
      requires Valid() && |Active()| < limits.maximumActive && |items| < limits.maximumExecutions
      requires execution !in items && execution.Valid(limits) && execution.finishedAt.None?
      requires forall e <- items :: e.id != execution.id
      modifies this`items
      ensures Valid() && items == old(items) + [execution] && Active() == old(Active()) + {execution}
    {
      OneMore(items, execution);
      ValidGrows(items, execution, limits);
      DistinctGrows(items, execution);
      items := items + [execution];
    }

    /** Refused when closed or at capacity; otherwise the new execution joins, and only finished ones may have left. */
    method Start(id: Id, mode: Mode, token: string, now: int) returns (started: Starting)
      requires Valid() && forall e <- items :: e.id != id
      modifies this`items
      ensures Valid()
      ensures started == Refused(AtCapacity) <==> !closed && |old(Active())| >= limits.maximumActive
      ensures started == Refused(Unavailable) <==> closed
      ensures started.Refused? ==>
                Active() == old(Active()) && items == Retained(old(items), now, limits.retentionSeconds)
      ensures started.Started? ==>
                && fresh(started.execution) && started.execution.id == id && started.execution.mode == mode
                && started.execution.state == Running && Active() == old(Active()) + {started.execution}
                && items == Roomy(Retained(old(items), now, limits.retentionSeconds), limits.maximumExecutions)
                  + [started.execution]
    {
      Expire(now);
      if closed { return Refused(Unavailable); }
      var active := CountActive();
      if active >= limits.maximumActive { return Refused(AtCapacity); }
      var execution := Join(id, mode, token);
      started := Started(execution);
    }

    method Join(id: Id, mode: Mode, token: string) returns (execution: Execution)
      requires Valid() && |Active()| < limits.maximumActive && forall e <- items :: e.id != id
      modifies this`items
      ensures Valid() && fresh(execution) && execution.id == id && execution.mode == mode && execution.state == Running
      ensures Active() == old(Active()) + {execution}
      ensures items == Roomy(old(items), limits.maximumExecutions) + [execution]
    {
      MakeRoom();
      execution := new Execution(id, mode, token, limits);
      Append(execution);
    }

    /** The last frame held is this very picture from this very run. */
    predicate Repeats(e: Execution, feed: Feed, data: Bytes)
      reads e`frames
    {
      e.frames != [] && e.frames[|e.frames| - 1].data == data && e.frames[|e.frames| - 1].runId == feed.runId
    }

    predicate Picture(data: Bytes) {
      PNG <= data && |data| <= limits.maximumFrameBytes && |data| <= limits.maximumBytes
    }

    /** The execution a frame joins: none exactly if it is no picture, too large, late, or the last one again. */
    method Viewed(feed: Feed, data: Bytes) returns (item: Option<Execution>)
      requires Distinct(items)
      ensures item.Some? ==>
                && item.value in items && item.value.id == feed.executionId && item.value.finishedAt.None?
                && Picture(data) && !Repeats(item.value, feed, data)
      ensures item.None? ==>
                !Picture(data) || forall e <- items | e.id == feed.executionId ::
                  e.finishedAt.Some? || Repeats(e, feed, data)
    {
      if !Picture(data) { return None; }
      item := Find(feed.executionId);
      if item.None? { return; }
      if item.value.finishedAt.Some? || Repeats(item.value, feed, data) { return None; }
    }

    method PublishFrame(feed: Feed, data: Bytes) returns (item: Option<Execution>)
      requires Valid()
      modifies items`frames, items`sequence, items`evictedFrames, items`byteCount
      ensures Valid()
      ensures item.Some? ==> item.value in items && item.value.id == feed.executionId
      ensures item.Some? ==> Held(item.value.frames, item.value.sequence, feed, item.value.eventSequence, data)
      ensures item.None? ==>
                !Picture(data) || forall e <- items | e.id == feed.executionId ::
                  e.finishedAt.Some? || Repeats(e, feed, data)
      ensures forall e <- old(items) :: Some(e) == item || unchanged(e)
    {
      item := Viewed(feed, data);
      if item.Some? {
        FrameInto(item.value, feed, data);
      }
    }

    method FrameInto(e: Execution, feed: Feed, data: Bytes)
      requires Valid() && e in items && |data| <= limits.maximumBytes
      modifies e`frames, e`sequence, e`evictedFrames, e`byteCount
      ensures Valid()
      ensures Held(e.frames, e.sequence, feed, e.eventSequence, data)
      ensures e.frames == Newest(old(e.frames) + [Frame(e.sequence, feed.runId, feed.phase, e.eventSequence, data)],
                                 limits.FramesFor(e.mode), limits.maximumBytes)
    {
      AcceptInto(e, feed, data);
      assert AllEventsValid(items, limits);
      assert AllEndsValid(items);
    }

    method AcceptInto(e: Execution, feed: Feed, data: Bytes)
      requires limits.Formed() && AllFramesValid(items, limits) && e in items && |data| <= limits.maximumBytes
      modifies e`frames, e`sequence, e`evictedFrames, e`byteCount
      ensures AllFramesValid(items, limits)
      ensures Held(e.frames, e.sequence, feed, e.eventSequence, data)
      ensures e.frames == Newest(old(e.frames) + [Frame(e.sequence, feed.runId, feed.phase, e.eventSequence, data)],
                                 limits.FramesFor(e.mode), limits.maximumBytes)
    {
      e.Accept(limits, feed.runId, feed.phase, data);
      forall x <- items ensures x.FramesValid(limits) {
        assert x != e ==> unchanged(x);
      }
    }

    method PublishEvent(feed: Feed, details: string) returns (item: Option<Execution>)
      requires Valid()
      modifies items`events, items`eventSequence
      ensures Valid()
      ensures item.Some? ==> item.value in items && item.value.id == feed.executionId && item.value.finishedAt.None?
      ensures item.Some? ==> Noted(item.value.events, item.value.eventSequence, feed, details)
      ensures item.None? ==> forall e <- items | e.id == feed.executionId :: e.finishedAt.Some?
      ensures forall e <- old(items) :: Some(e) == item || unchanged(e)
    {
      item := Find(feed.executionId);
      if item.Some? && item.value.finishedAt.Some? { return None; }
      if item.Some? {
        EventInto(item.value, feed, details);
      }
    }

    method EventInto(e: Execution, feed: Feed, details: string)
      requires Valid() && e in items
      modifies e`events, e`eventSequence
      ensures Valid()
      ensures Noted(e.events, e.eventSequence, feed, details)
      ensures e.events == Last(old(e.events) + [Event(e.eventSequence, feed.runId, feed.phase, details)],
                               limits.maximumEvents)
    {
      e.Note(limits, feed.runId, feed.phase, details);
      forall x <- items ensures x.EventsValid(limits) {
        assert x != e ==> unchanged(x);
      }
      assert AllFramesValid(items, limits);
      assert AllEndsValid(items);
    }

    /** Ends or pauses an execution that is still going; a finished one stays as it ended. */
    method Finish(id: Id, outcome: Result, now: int) returns (concluded: Option<Execution>)
      requires Valid() && now > 0
      modifies items`state, items`finishedAt, items`result
      ensures Valid()
      ensures concluded.None? ==> Active() == old(Active()) && forall e <- old(items) :: unchanged(e)
      ensures concluded.None? ==> forall e <- items | e.id == id :: e.finishedAt.Some?
      ensures concluded.Some? ==>
                && concluded.value in old(Active()) && concluded.value.id == id
                && (forall e <- old(items) | e != concluded.value :: unchanged(e))
                && Active() == if outcome.status == "intervention_required" then old(Active())
                  else old(Active()) - {concluded.value}
    {
      var item := Find(id);
      if item.None? || item.value.finishedAt.Some? { return None; }
      ConcludeOn(item.value, outcome, now);
      concluded := item;
    }

    method ConcludeOn(e: Execution, outcome: Result, now: int)
      requires AllEndsValid(items) && e in items && e.finishedAt.None? && now > 0
      modifies e`state, e`finishedAt, e`result
      ensures AllEndsValid(items)
      ensures Active() == if outcome.status == "intervention_required" then old(Active()) else old(Active()) - {e}
    {
      e.Conclude(outcome, now);
      assert Active() == if outcome.status == "intervention_required" then old(Active()) else old(Active()) - {e};
    }

    method RunResult(feed: Feed, outcome: Result, now: int)
      requires Valid() && now > 0
      modifies items`state, items`finishedAt, items`result
      ensures Valid() && Active() <= old(Active())
      ensures feed.phase != "replay" && outcome.status !in {"intervention_required", "terminated"} ==>
                forall e <- old(items) :: unchanged(e)
    {
      if feed.phase == "replay" || outcome.status in {"intervention_required", "terminated"} {
        var _ := Finish(feed.executionId, outcome, now);
      }
    }

    method Resume(feed: Feed)
      requires Valid()
      modifies items`state, items`result
      ensures Valid() && Active() == old(Active())
      ensures forall e <- old(items) | e.id != feed.executionId || e.finishedAt.Some? :: unchanged(e)
      ensures forall e <- items | e.id == feed.executionId && e.finishedAt.None? :: e.state == Running && e.result.None?
    {
      var item := Find(feed.executionId);
      if item.Some? && item.value.finishedAt.None? {
        item.value.Continue();
      }
    }

    method Close()
      requires Valid()
      modifies this
      ensures Valid() && closed && items == []
    {
      closed := true;
      items := [];
      assert Active() == {};
    }
  }
}
