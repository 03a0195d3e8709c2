/** Connecting and disconnecting with progress events (session/session_service.cpp), for every
    way a backend can answer. A run that never ends is seen through its finite beginnings. */
module Lifecycle {
  import opened Bytes
  import opened Wire
  import opened Records

  // ---------- Events ----------

  const CONNECTION_PREFIX: bytes := "connection."
  const CONNECTION_ERROR: bytes := "connection.error"
  const CONNECTION_LOST: bytes := "connection.disconnected"
  const SERVER_ERROR: bytes := "server.error"

  predicate IsLifecycle(e: Event) {
    CONNECTION_PREFIX <= e.kind || e.kind == SERVER_ERROR
  }

  predicate IsTerminal(e: Event) {
    e.kind == CONNECTION_ERROR || e.kind == CONNECTION_LOST || e.kind == SERVER_ERROR
  }

  predicate HasTerminal(lifecycle: seq<Event>) {
    exists i :: 0 <= i < |lifecycle| && IsTerminal(lifecycle[i])
  }

  /** Which events are kept, and which of them end a connection attempt, by their kind. */
  lemma EventKinds(e: Event)
    ensures IsLifecycle(e) <==> (|e.kind| >= 11 && e.kind[..11] == "connection.") || e.kind == "server.error"
    ensures IsTerminal(e) <==> e.kind in ["connection.error", "connection.disconnected", "server.error"]
    ensures IsTerminal(e) ==> IsLifecycle(e)
  {
    assert |CONNECTION_PREFIX| == 11;
    assert CONNECTION_ERROR[..11] == CONNECTION_PREFIX && CONNECTION_LOST[..11] == CONNECTION_PREFIX;
  }

  function Kept(es: seq<Event>): seq<Event> {
    if es == [] then [] else (if IsLifecycle(es[0]) then [es[0]] else []) + Kept(es[1..])
  }

  lemma {:induction false} KeptAppend(es: seq<Event>, e: Event)
    ensures Kept(es + [e]) == Kept(es) + if IsLifecycle(e) then [e] else []
  {
    if es == [] {
      assert es + [e] == [e] && [e][1..] == [];
    } else {
      assert (es + [e])[1..] == es[1..] + [e];
      KeptAppend(es[1..], e);
    }
  }

  // ---------- What the outside answers ----------

  type EventAnswer = Result<Option<Event>>

  /** Successive answers to next_event and connection_state, and readings of the clock. */
  datatype Script = Script(events: seq<EventAnswer>, states: seq<Result<ConnectionState>>, clock: seq<int>)

  /** `popped` are the events taken so far, `lifecycle` those kept. */
  datatype Progress = Progress(script: Script, popped: seq<Event>, lifecycle: seq<Event>)

  datatype Verdict =
    | Reached(state: ConnectionState)
    | Lost(state: ConnectionState)
    | Late(state: ConnectionState, now: int)
    | Broke(error: Error)
    | Blocked

  datatype Goal = ToConnect | ToDisconnect

  function Next(p: Progress): Progress
    requires p.script.events != []
  {
    p.(script := p.script.(events := p.script.events[1..]))
  }

  function Take(p: Progress, e: Event): Progress {
    p.(popped := p.popped + [e], lifecycle := p.lifecycle + if IsLifecycle(e) then [e] else [])
  }

  datatype Collected = Drained | CollectFailed(error: Error) | CollectBlocked

  /** collect_connection_events: until the backend has no event ready. */
  function Collect(p: Progress): (r: (Progress, Collected))
    ensures r.0.script.states == p.script.states && r.0.script.clock == p.script.clock
    decreases |p.script.events|
  {
    if p.script.events == [] then (p, CollectBlocked)
    else
      match p.script.events[0]
      case Err(e) => (Next(p), CollectFailed(e))
      case Ok(None) => (Next(p), Drained)
      case Ok(Some(e)) => Collect(Take(Next(p), e))
  }

  predicate Done(goal: Goal, phase: Phase) {
    if goal.ToConnect? then phase.Connected? else phase.Disconnected?
  }

  /** One round of the polling loop, with a verdict when it is the last. */
  function Round(p: Progress, goal: Goal, deadline: int): (r: (Progress, Option<Verdict>))
    ensures r.1.None? ==> |r.0.script.states| < |p.script.states|
  {
    var (q, collected) := Collect(p);
    if collected.CollectBlocked? then (q, Some(Blocked))
    else if collected.CollectFailed? then (q, Some(Broke(collected.error)))
    else if q.script.states == [] then (q, Some(Blocked))
    else
      var rest := q.(script := q.script.(states := q.script.states[1..]));
      match q.script.states[0]
      case Err(e) => (rest, Some(Broke(e)))
      case Ok(state) =>
        if Done(goal, state.phase) then (rest, Some(Reached(state)))
        else if goal.ToConnect? && state.phase.Disconnected? && HasTerminal(rest.lifecycle) then
          (rest, Some(Lost(state)))
        else if rest.script.clock == [] then (rest, Some(Blocked))
        else
          var now := rest.script.clock[0];
          var later := rest.(script := rest.script.(clock := rest.script.clock[1..]));
          if now >= deadline then (later, Some(Late(state, now)))
          else if later.script.events == [] then (later, Some(Blocked))
          else
            match later.script.events[0]
            case Err(e) => (Next(later), Some(Broke(e)))
            case Ok(None) => (Next(later), None)
            case Ok(Some(e)) => (Take(Next(later), e), None)
  }

  /** The polling loop. */
  function Await(p: Progress, goal: Goal, deadline: int): (Progress, Verdict)
    decreases |p.script.states|
  {
    var (q, verdict) := Round(p, goal, deadline);
    if verdict.Some? then (q, verdict.value) else Await(q, goal, deadline)
  }

  datatype Finish = Finish(state: ConnectionState, lifecycle: seq<Event>, reached: bool, timedOut: bool)

  datatype Outcome = Finished(finish: Finish) | Failed(error: Error) | Waiting

  /** connect_and_wait and disconnect_and_wait; `answer` is what the call itself returns. The
      second component is the progress made since that call. */
  function Wait(script: Script, goal: Goal, answer: Result<()>, timeout: int): (Outcome, Progress) {
    var (cleared, first) := Collect(Progress(script, [], []));
    var begun := Progress(cleared.script, [], []);
    if first.CollectBlocked? then (Waiting, begun)
    else if first.CollectFailed? then (Failed(first.error), begun)
    else if answer.Err? then (Failed(answer.error), begun)
    else if begun.script.clock == [] then (Waiting, begun)
    else
      var deadline := begun.script.clock[0] + timeout;
      var (p, verdict) := Await(begun.(script := begun.script.(clock := begun.script.clock[1..])), goal, deadline);
      if verdict.Blocked? then (Waiting, p)
      else if verdict.Broke? then (Failed(verdict.error), p)
      else
        var (q, last) := Collect(p);
        if last.CollectBlocked? then (Waiting, q)
        else if last.CollectFailed? then (Failed(last.error), q)
        else (Finished(Finish(verdict.state, q.lifecycle, verdict.Reached?, verdict.Late?)), q)
  }

  // ---------- The lifecycle ----------

  /** The events in a stretch of answers. */
  function EventsIn(answers: seq<EventAnswer>): seq<Event> {
    if answers == [] then []
    else (if answers[0].Ok? && answers[0].value.Some? then [answers[0].value.value] else []) + EventsIn(answers[1..])
  }

  lemma {:induction false} EventsInAppend(a: seq<EventAnswer>, b: seq<EventAnswer>)
    ensures EventsIn(a + b) == EventsIn(a) + EventsIn(b)
  {
    if a == [] {
      assert a + b == b;
    } else {
      assert (a + b)[1..] == a[1..] + b;
      EventsInAppend(a[1..], b);
    }
  }

  /** q is p with some more answers taken, all their events popped, and the right ones kept. */
  predicate Follows(p: Progress, q: Progress) {
    && |q.script.events| <= |p.script.events|
    && |q.script.states| <= |p.script.states|
    && q.lifecycle == Kept(q.popped)
    && var taken := |p.script.events| - |q.script.events|;
       && q.script.events == p.script.events[taken..]
       && q.popped == p.popped + EventsIn(p.script.events[..taken])
  }

  lemma EventsInSnoc(answers: seq<EventAnswer>, n: nat)
    requires n < |answers|
    ensures var a := answers[n];
            EventsIn(answers[..n + 1]) ==
            EventsIn(answers[..n]) + if a.Ok? && a.value.Some? then [a.value.value] else []
  {
    var a := answers[n];
    assert answers[..n + 1] == answers[..n] + [a];
    EventsInAppend(answers[..n], [a]);
    assert [a][1..] == [];
  }

  lemma FollowsNext(p: Progress, q: Progress)
    requires Follows(p, q) && q.script.events != []
    ensures var a := q.script.events[0];
            Follows(p, if a.Ok? && a.value.Some? then Take(Next(q), a.value.value) else Next(q))
  {
    hide EventsIn, Kept, IsLifecycle;
    var a := q.script.events[0];
    EventsInSnoc(p.script.events, |p.script.events| - |q.script.events|);
    if a.Ok? && a.value.Some? {
      KeptAppend(q.popped, a.value.value);
    }
  }

  lemma {:induction false} CollectFollows(p: Progress, q: Progress)
    requires Follows(p, q)
    ensures Follows(p, Collect(q).0)
    ensures q.lifecycle <= Collect(q).0.lifecycle
    decreases |q.script.events|
  {
    hide Follows, IsLifecycle;
    if q.script.events != [] {
      FollowsNext(p, q);
      var a := q.script.events[0];
      if a.Ok? && a.value.Some? {
        CollectFollows(p, Take(Next(q), a.value.value));
      }
    }
  }

  /** Reading a state or the clock takes no event. */
  lemma FollowsQuietly(p: Progress, q: Progress, r: Progress)
    requires Follows(p, q)
    requires r.script.events == q.script.events && r.popped == q.popped && r.lifecycle == q.lifecycle
    requires |r.script.states| <= |q.script.states|
    ensures Follows(p, r)
  {
  }

  lemma RoundFollows(p: Progress, q: Progress, goal: Goal, deadline: int)
    requires Follows(p, q)
    ensures Follows(p, Round(q, goal, deadline).0)
  {
    hide Follows, Collect, Take, HasTerminal;
    CollectFollows(p, q);
    var (r, collected) := Collect(q);
    if collected.Drained? && r.script.states != [] {
      var rest := r.(script := r.script.(states := r.script.states[1..]));
      FollowsQuietly(p, r, rest);
      if rest.script.clock != [] {
        var later := rest.(script := rest.script.(clock := rest.script.clock[1..]));
        FollowsQuietly(p, rest, later);
        if later.script.events != [] {
          FollowsNext(p, later);
        }
      }
    }
  }

  lemma {:induction false} AwaitFollows(p: Progress, q: Progress, goal: Goal, deadline: int)
    requires Follows(p, q)
    ensures Follows(p, Await(q, goal, deadline).0)
    decreases |q.script.states|
  {
    hide Follows, Round;
    RoundFollows(p, q, goal, deadline);
    var (r, verdict) := Round(q, goal, deadline);
    if verdict.None? {
      AwaitFollows(p, r, goal, deadline);
    }
  }

  /** Connect lifecycle: for every backend behaviour, the lifecycle that is returned is the
      filtered sequence of exactly the events popped since the call, in order, each once;
      what was waiting before the call is in neither. The same holds of what was kept when the
      wait fails or has not ended. */
  lemma LifecycleIsFiltered(script: Script, goal: Goal, answer: Result<()>, timeout: int)
    ensures var (outcome, p) := Wait(script, goal, answer, timeout);
            var begun := Collect(Progress(script, [], [])).0.script.events;
            var taken := |begun| - |p.script.events|;
            && 0 <= taken <= |begun| && p.script.events == begun[taken..]
            && p.popped == EventsIn(begun[..taken])
            && p.lifecycle == Kept(p.popped)
            && (outcome.Finished? ==> outcome.finish.lifecycle == p.lifecycle)
  {
    hide Collect, Await, Wait, Kept, EventsIn;
    var begun := Progress(Collect(Progress(script, [], [])).0.script, [], []);
    WaitFollows(script, goal, answer, timeout, begun);
    var p := Wait(script, goal, answer, timeout).1;
    var taken := |begun.script.events| - |p.script.events|;
    assert [] + EventsIn(begun.script.events[..taken]) == EventsIn(begun.script.events[..taken]);
  }

  lemma WaitFollows(script: Script, goal: Goal, answer: Result<()>, timeout: int, begun: Progress)
    requires begun == Progress(Collect(Progress(script, [], [])).0.script, [], [])
    ensures var (outcome, p) := Wait(script, goal, answer, timeout);
            Follows(begun, p) && (outcome.Finished? ==> outcome.finish.lifecycle == p.lifecycle)
  {
    hide Collect, Await, Follows;
    FollowsItself(begun);
    if begun.script.clock != [] {
      var q := begun.(script := begun.script.(clock := begun.script.clock[1..]));
      FollowsQuietly(begun, begun, q);
      var deadline := begun.script.clock[0] + timeout;
      AwaitFollows(begun, q, goal, deadline);
      CollectFollows(begun, Await(q, goal, deadline).0);
    }
  }

  lemma FollowsItself(p: Progress)
    requires p.popped == [] && p.lifecycle == []
    ensures Follows(p, p)
  {
    assert p.script.events[..0] == [];
  }

  // ---------- The outcome ----------

  lemma {:induction false} AwaitVerdict(p: Progress, goal: Goal, deadline: int)
    ensures var (q, verdict) := Await(p, goal, deadline);
            match verdict
            case Reached(state) => Done(goal, state.phase)
            case Lost(state) => goal.ToConnect? && state.phase.Disconnected? && HasTerminal(q.lifecycle)
            case Late(state, now) => !Done(goal, state.phase) && now >= deadline
            case _ => true
    decreases |p.script.states|
  {
    hide Collect, HasTerminal, Take;
    var (q, verdict) := Round(p, goal, deadline);
    if verdict.None? {
      AwaitVerdict(q, goal, deadline);
    }
  }

  lemma TerminalStays(a: seq<Event>, b: seq<Event>)
    requires HasTerminal(a) && a <= b
    ensures HasTerminal(b)
  {
    var i :| 0 <= i < |a| && IsTerminal(a[i]);
    assert b[i] == a[i];
  }

  /** A finished connect is exactly one of: connected; timed out; or disconnected, with an
      event in the lifecycle that says why. */
  lemma ConnectEndsOneWay(script: Script, answer: Result<()>, timeout: int)
    requires Wait(script, ToConnect, answer, timeout).0.Finished?
    ensures var f := Wait(script, ToConnect, answer, timeout).0.finish;
            && !(f.reached && f.timedOut)
            && (f.reached <==> f.state.phase.Connected?)
            && (!f.reached && !f.timedOut ==> f.state.phase.Disconnected? && HasTerminal(f.lifecycle))
  {
    hide Collect, Await, HasTerminal;
    var begun := Progress(Collect(Progress(script, [], [])).0.script, [], []);
    var q := begun.(script := begun.script.(clock := begun.script.clock[1..]));
    var deadline := begun.script.clock[0] + timeout;
    AwaitVerdict(q, ToConnect, deadline);
    var (p, verdict) := Await(q, ToConnect, deadline);
    if verdict.Lost? {
      FollowsItself(begun);
      FollowsQuietly(begun, begun, q);
      AwaitFollows(begun, q, ToConnect, deadline);
      CollectFollows(begun, p);
      TerminalStays(p.lifecycle, Collect(p).0.lifecycle);
    }
  }

  /** A finished disconnect is either disconnected or timed out, never both. */
  lemma DisconnectEndsOneWay(script: Script, answer: Result<()>, timeout: int)
    requires Wait(script, ToDisconnect, answer, timeout).0.Finished?
    ensures var f := Wait(script, ToDisconnect, answer, timeout).0.finish;
            (f.reached <==> !f.timedOut) && (f.reached <==> f.state.phase.Disconnected?)
  {
    hide Collect, Await, HasTerminal;
    var begun := Progress(Collect(Progress(script, [], [])).0.script, [], []);
    var q := begun.(script := begun.script.(clock := begun.script.clock[1..]));
    var deadline := begun.script.clock[0] + timeout;
    AwaitVerdict(q, ToDisconnect, deadline);
    var (p, verdict) := Await(q, ToDisconnect, deadline);
    assert verdict.Reached? || verdict.Late?;
  }

  // ---------- Time ----------

  /** From `clock` down to `rest` every reading was before the deadline, but for the last one of
      a wait that is late. */
  predicate Timed(clock: seq<int>, rest: seq<int>, deadline: int, late: bool) {
    && |rest| <= |clock| && rest == clock[|clock| - |rest|..]
    && (late ==> |rest| < |clock| && clock[|clock| - |rest| - 1] >= deadline)
    && (forall i :: 0 <= i < |clock| - |rest| - (if late then 1 else 0) ==> clock[i] < deadline)
  }

  lemma {:induction false} AwaitClock(p: Progress, goal: Goal, deadline: int)
    ensures var (q, verdict) := Await(p, goal, deadline);
            Timed(p.script.clock, q.script.clock, deadline, verdict.Late?)
    decreases |p.script.states|
  {
    hide Round;
    RoundClock(p, goal, deadline);
    var (q, verdict) := Round(p, goal, deadline);
    if verdict.None? {
      AwaitClock(q, goal, deadline);
    }
  }

  lemma RoundClock(p: Progress, goal: Goal, deadline: int)
    ensures var (q, verdict) := Round(p, goal, deadline);
            || (q.script.clock == p.script.clock && verdict.Some? && !verdict.value.Late?)
            || (p.script.clock != [] && q.script.clock == p.script.clock[1..] &&
                if verdict.Some? && verdict.value.Late? then verdict.value.now == p.script.clock[0] >= deadline
                else p.script.clock[0] < deadline)
  {
    hide Collect, HasTerminal;
  }

  /** The time-out is kept: it is counted from the first reading of the clock after the call, a
      wait that times out has read the clock at or after the deadline, and no wait goes on past
      a reading at or after it. `used` is the number of readings taken. */
  lemma TimeoutIsKept(script: Script, goal: Goal, answer: Result<()>, timeout: int)
    ensures var (outcome, p) := Wait(script, goal, answer, timeout);
            var used := |script.clock| - |p.script.clock|;
            var late := outcome.Finished? && outcome.finish.timedOut;
            && 0 <= used && p.script.clock == script.clock[used..]
            && (outcome.Finished? ==> used >= 1)
            && (late ==> used >= 2 && script.clock[used - 1] >= script.clock[0] + timeout)
            && (outcome.Finished? ==>
                  forall i :: 1 <= i < (if late then used - 1 else used) ==>
                      script.clock[i] < script.clock[0] + timeout)
  {
    hide Collect, Await, Timed;
    var begun := Progress(Collect(Progress(script, [], [])).0.script, [], []);
    if begun.script.clock != [] {
      var q := begun.(script := begun.script.(clock := begun.script.clock[1..]));
      var deadline := begun.script.clock[0] + timeout;
      var (r, verdict) := Await(q, goal, deadline);
      AwaitClock(q, goal, deadline);
      FirstReading(script.clock, r.script.clock, deadline, verdict.Late?);
    }
  }

  lemma FirstReading(clock: seq<int>, rest: seq<int>, deadline: int, late: bool)
    requires clock != [] && Timed(clock[1..], rest, deadline, late)
    ensures var used := |clock| - |rest|;
            && used >= 1 && rest == clock[used..]
            && (late ==> used >= 2 && clock[used - 1] >= deadline)
            && (forall i :: 1 <= i < (if late then used - 1 else used) ==> clock[i] < deadline)
  {
    forall i | 1 <= i < |clock| - |rest| - (if late then 1 else 0) ensures clock[i] < deadline {
      assert clock[1..][i - 1] == clock[i];
    }
  }

  // ---------- Each round ----------

  /** When the loop goes on, and which of its ends it takes, from what the round finds. */
  lemma RoundMeans(p: Progress, goal: Goal, deadline: int)
    ensures var (q, collected) := Collect(p);
            var verdict := Round(p, goal, deadline).1;
            var asked := collected.Drained? && q.script.states != [] && q.script.states[0].Ok?;
            var there := asked && (if goal.ToConnect? then q.script.states[0].value.phase.Connected?
                                   else q.script.states[0].value.phase.Disconnected?);
            var lost := asked && goal.ToConnect? && q.script.states[0].value.phase.Disconnected? &&
                        HasTerminal(q.lifecycle);
            var timed := asked && !there && !lost && q.script.clock != [];
            && (verdict.Some? && verdict.value.Reached? <==> there)
            && (verdict.Some? && verdict.value.Lost? <==> lost)
            && (verdict.Some? && verdict.value.Late? <==> timed && q.script.clock[0] >= deadline)
            && (verdict.None? <==>
                  timed && q.script.clock[0] < deadline && q.script.events != [] && q.script.events[0].Ok?)
            && (there ==> verdict.value.state == q.script.states[0].value)
            && (lost ==> verdict.value.state == q.script.states[0].value)
            && (collected.CollectFailed? ==> verdict == Some(Broke(collected.error)))
            && (collected.Drained? && q.script.states != [] && q.script.states[0].Err? ==>
                  verdict == Some(Broke(q.script.states[0].error)))
            && (timed && q.script.clock[0] < deadline && q.script.events != [] && q.script.events[0].Err? ==>
                  verdict == Some(Broke(q.script.events[0].error)))
  {
    hide Collect, HasTerminal, Take;
  }

  lemma {:induction false} CollectEnds(p: Progress)
    ensures var (q, collected) := Collect(p);
            var used := |p.script.events| - |q.script.events|;
            && 0 <= used && q.script.events == p.script.events[used..]
            && (collected.Drained? ==> used >= 1 && p.script.events[used - 1] == Ok(None))
            && (collected.CollectFailed? ==> used >= 1 && p.script.events[used - 1] == Err(collected.error))
            && (collected.CollectBlocked? ==> used == |p.script.events|)
            && (forall i :: 0 <= i < used - 1 ==> p.script.events[i].Ok? && p.script.events[i].value.Some?)
    decreases |p.script.events|
  {
    if p.script.events != [] {
      var a := p.script.events[0];
      if a.Ok? && a.value.Some? {
        var next := Take(Next(p), a.value.value);
        CollectEnds(next);
        var used := |next.script.events| - |Collect(next).0.script.events|;
        assert p.script.events[1..][used..] == p.script.events[used + 1..];
      }
    }
  }

  /** A call that is refused ends the wait at once, with its error and no event. */
  lemma RefusedCallEnds(script: Script, goal: Goal, answer: Result<()>, timeout: int)
    ensures var (outcome, p) := Wait(script, goal, answer, timeout);
            var first := Collect(Progress(script, [], [])).1;
            && (first.CollectFailed? ==> outcome == Failed(first.error) && p.popped == [] && p.lifecycle == [])
            && (first.Drained? && answer.Err? ==>
                  outcome == Failed(answer.error) && p.popped == [] && p.lifecycle == [])
            && (outcome.Finished? ==> first.Drained? && answer.Ok?)
  {
    hide Collect, Await;
  }

  /** A wait that finishes has taken every event that was ready at its end: the last answer of the
      backend was "none". */
  lemma FinishTakesAll(script: Script, goal: Goal, answer: Result<()>, timeout: int)
    requires Wait(script, goal, answer, timeout).0.Finished?
    ensures LastWasNone(script.events, Wait(script, goal, answer, timeout).1.script.events)
  {
    hide Collect, Await, Suffix, LastWasNone;
    var start := Progress(script, [], []);
    CollectTakes(start);
    var begun := Progress(Collect(start).0.script, [], []);
    var q := begun.(script := begun.script.(clock := begun.script.clock[1..]));
    var deadline := begun.script.clock[0] + timeout;
    var r := Await(q, goal, deadline).0;
    AwaitTakes(q, goal, deadline);
    LastTaken(script.events, begun.script.events, r.script.events);
    CollectTakes(r);
    LastTaken(script.events, r.script.events, Collect(r).0.script.events);
  }

  predicate LastWasNone(all: seq<EventAnswer>, rest: seq<EventAnswer>) {
    |rest| < |all| && all[|all| - |rest| - 1] == Ok(None)
  }

  lemma CollectTakes(p: Progress)
    ensures Suffix(p.script.events, Collect(p).0.script.events)
    ensures Collect(p).1.Drained? ==> LastWasNone(p.script.events, Collect(p).0.script.events)
  {
    hide Collect;
    CollectEnds(p);
  }

  /** What is left is the end of what was there. */
  predicate Suffix(all: seq<EventAnswer>, rest: seq<EventAnswer>) {
    |rest| <= |all| && rest == all[|all| - |rest|..]
  }

  lemma AwaitTakes(q: Progress, goal: Goal, deadline: int)
    requires q.popped == [] && q.lifecycle == []
    ensures Suffix(q.script.events, Await(q, goal, deadline).0.script.events)
  {
    hide Await;
    FollowsItself(q);
    AwaitFollows(q, q, goal, deadline);
  }

  lemma LastTaken(all: seq<EventAnswer>, rest: seq<EventAnswer>, less: seq<EventAnswer>)
    requires Suffix(all, rest) && Suffix(rest, less)
    ensures Suffix(all, less)
    ensures LastWasNone(rest, less) ==> LastWasNone(all, less)
  {
  }

  // ---------- The service as written ----------

  class SessionService {
    var script: Script
    /** The calls of the progress callback. */
    var heard: seq<Event>
    ghost var popped: seq<Event>

    constructor (answers: Script)
      ensures script == answers && heard == [] && popped == []
    {
      script, heard, popped := answers, [], [];
    }

    /** collect_connection_events */
    method CollectEvents(lifecycle: seq<Event>, tell: bool) returns (kept: seq<Event>, collected: Collected)
      modifies this
      ensures var (p, c) := Collect(Progress(old(script), old(popped), lifecycle));
              script == p.script && popped == p.popped && kept == p.lifecycle && collected == c
      ensures lifecycle <= kept
      ensures heard == if tell then old(heard) + kept[|lifecycle|..] else old(heard)
    {
      hide Collect, IsLifecycle;
      kept := lifecycle;
      while true
        invariant Collect(Progress(script, popped, kept)) == Collect(Progress(old(script), old(popped), lifecycle))
        invariant lifecycle <= kept
        invariant heard == if tell then old(heard) + kept[|lifecycle|..] else old(heard)
        decreases |script.events|
      {
        ghost var before := kept;
        CollectStep(Progress(script, popped, kept));
        if script.events == [] {
          return kept, CollectBlocked;
        }
        var next := script.events[0];
        script := script.(events := script.events[1..]);
        if next.Err? {
          return kept, CollectFailed(next.error);
        }
        if next.value.None? {
          return kept, Drained;
        }
        kept := Keep(kept, next.value.value, tell);
        SliceGrows(lifecycle, before, if IsLifecycle(next.value.value) then [next.value.value] else []);
      }
    }

    static lemma CollectStep(p: Progress)
      ensures var events := p.script.events;
              Collect(p) ==
              if events == [] then (p, CollectBlocked)
              else if events[0].Err? then (Next(p), CollectFailed(events[0].error))
              else if events[0].value.None? then (Next(p), Drained)
              else Collect(Take(Next(p), events[0].value.value))
    {
    }

    static lemma SliceGrows(a: seq<Event>, b: seq<Event>, more: seq<Event>)
      requires a <= b
      ensures (b + more)[|a|..] == b[|a|..] + more
    {
    }

    method Keep(lifecycle: seq<Event>, e: Event, tell: bool) returns (kept: seq<Event>)
      modifies this`heard, this`popped
      ensures popped == old(popped) + [e]
      ensures kept == lifecycle + if IsLifecycle(e) then [e] else []
      ensures heard == old(heard) + if tell && IsLifecycle(e) then [e] else []
    {
      popped := popped + [e];
      kept := lifecycle;
      if IsLifecycle(e) {
        kept := kept + [e];
        if tell {
          heard := heard + [e];
        }
      }
    }

    /** One round of the loop in connect_and_wait, or in disconnect_and_wait. */
    method PollOnce(lifecycle: seq<Event>, goal: Goal, deadline: int)
      returns (kept: seq<Event>, verdict: Option<Verdict>)
      modifies this
      ensures var (p, v) := Round(Progress(old(script), old(popped), lifecycle), goal, deadline);
              script == p.script && popped == p.popped && kept == p.lifecycle && verdict == v
      ensures lifecycle <= kept
      ensures heard == old(heard) + kept[|lifecycle|..]
    {
      hide Collect, HasTerminal, IsLifecycle, Done;
      var collected;
      kept, collected := CollectEvents(lifecycle, true);
      if collected.CollectBlocked? {
        return kept, Some(Blocked);
      }
      if collected.CollectFailed? {
        return kept, Some(Broke(collected.error));
      }
      if script.states == [] {
        return kept, Some(Blocked);
      }
      var answer := script.states[0];
      script := script.(states := script.states[1..]);
      if answer.Err? {
        return kept, Some(Broke(answer.error));
      }
      var state := answer.value;
      if Done(goal, state.phase) {
        return kept, Some(Reached(state));
      }
      if goal.ToConnect? && state.phase.Disconnected? {
        var failed := FindTerminal(kept);
        if failed {
          return kept, Some(Lost(state));
        }
      }
      if script.clock == [] {
        return kept, Some(Blocked);
      }
      var now := script.clock[0];
      script := script.(clock := script.clock[1..]);
      if now >= deadline {
        return kept, Some(Late(state, now));
      }
      if script.events == [] {
        return kept, Some(Blocked);
      }
      var next := script.events[0];
      script := script.(events := script.events[1..]);
      if next.Err? {
        return kept, Some(Broke(next.error));
      }
      if next.value.Some? {
        SliceGrows(lifecycle, kept, if IsLifecycle(next.value.value) then [next.value.value] else []);
        kept := Keep(kept, next.value.value, true);
      }
      return kept, None;
    }

    /** The whole loop. */
    method AwaitPhase(goal: Goal, deadline: int) returns (lifecycle: seq<Event>, verdict: Verdict)
      modifies this
      ensures var (p, v) := Await(Progress(old(script), old(popped), []), goal, deadline);
              script == p.script && popped == p.popped && lifecycle == p.lifecycle && verdict == v
      ensures heard == old(heard) + lifecycle
    {
      hide Round;
      lifecycle := [];
      while true
        invariant Await(Progress(script, popped, lifecycle), goal, deadline) ==
                  Await(Progress(old(script), old(popped), []), goal, deadline)
        invariant heard == old(heard) + lifecycle
        decreases |script.states|
      {
        ghost var before := lifecycle;
        var over;
        lifecycle, over := PollOnce(lifecycle, goal, deadline);
        assert before + lifecycle[|before|..] == lifecycle;
        if over.Some? {
          return lifecycle, over.value;
        }
      }
    }

    /** has_terminal_connection_failure */
    static method FindTerminal(lifecycle: seq<Event>) returns (found: bool)
      ensures found <==> HasTerminal(lifecycle)
    {
      for i := 0 to |lifecycle|
        invariant forall j :: 0 <= j < i ==> !IsTerminal(lifecycle[j])
      {
        if lifecycle[i].kind == CONNECTION_ERROR || lifecycle[i].kind == CONNECTION_LOST ||
           lifecycle[i].kind == SERVER_ERROR {
          return true;
        }
      }
      return false;
    }

    /** connect_and_wait and disconnect_and_wait: events that were waiting are thrown away first;
        afterwards the callback hears each lifecycle event once, as it is kept. */
    method CallAndWait(goal: Goal, answer: Result<()>, timeout: int) returns (outcome: Outcome)
      modifies this
      ensures outcome == Wait(old(script), goal, answer, timeout).0
      ensures var p := Wait(old(script), goal, answer, timeout).1;
              script == p.script && heard == old(heard) + p.lifecycle
    {
      hide Collect, Await;
      popped := [];
      var lifecycle, collected := CollectEvents([], false);
      popped := [];
      if collected.CollectBlocked? {
        return Waiting;
      }
      if collected.CollectFailed? {
        return Failed(collected.error);
      }
      if answer.Err? {
        return Failed(answer.error);
      }
      if script.clock == [] {
        return Waiting;
      }
      var deadline := script.clock[0] + timeout;
      script := script.(clock := script.clock[1..]);
      var verdict;
      lifecycle, verdict := AwaitPhase(goal, deadline);
      if verdict.Blocked? {
        return Waiting;
      }
      if verdict.Broke? {
        return Failed(verdict.error);
      }
      ghost var before := lifecycle;
      lifecycle, collected := CollectEvents(lifecycle, true);
      assert before + lifecycle[|before|..] == lifecycle;
      if collected.CollectBlocked? {
        return Waiting;
      }
      if collected.CollectFailed? {
        return Failed(collected.error);
      }
      return Finished(Finish(verdict.state, lifecycle, verdict.Reached?, verdict.Late?));
    }
  }
}
