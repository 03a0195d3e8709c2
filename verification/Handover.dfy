/** The media bridge and the plugin together: the plugin's activations are the ones that the
    bridge's reader asks for, and every deactivator runs whenever it likes. */
module Handover {
  import opened Bytes
  import opened MediaFrames
  import opened MediaWorld
  import T = Takeover

  // ---------- The joint machine ----------

  /** How far the reader is with activate_media_playback. */
  datatype Stage = Idle | Asked | Reaped | Taken(ticket: nat) | Answered(ok: bool)

  /** `schedule` are the steps of the bridge so far, `blocks` the locked blocks of the plugin;
      `offered` says that the host has handed over its functions, which it never takes back. */
  datatype Joint = Joint(schedule: seq<Step>, blocks: seq<T.Block>, stage: Stage, offered: bool)

  const START: Joint := Joint([], [], Idle, false)

  datatype Move =
    | Bridge(step: Step)
    | HostOffers
    | Reaps
    | Refuses                    // no functions, no connection, or no registration
    | FindsActive
    | Snapshots
    | Commits
    | GivesUp
    | Deactivates(self: bool)    // reader, writer, capture loop, connection callback, shutdown or owner
    | Retires

  ghost function HandOf(j: Joint): T.Hand {
    T.RunBlocks(j.blocks)
  }

  function Does(j: Joint, b: T.Block): Joint {
    j.(blocks := j.blocks + [b])
  }

  /** A step of the bridge; the two that follow an activation wait for its answer. */
  ghost function BridgeMoves(j: Joint, step: Step): Joint {
    var k := j.(schedule := j.schedule + [step]);
    if step.Activated? then if j.stage == Answered(true) then k.(stage := Idle) else j
    else if step.ActivationFailed? then if j.stage == Answered(false) then k.(stage := Idle) else j
    else if j.stage.Idle? && Run(k.schedule).cur.reader.Activating? then k.(stage := Asked)
    else k
  }

  ghost function After(j: Joint, m: Move): Joint {
    match m
    case Bridge(step) => BridgeMoves(j, step)
    case HostOffers => j.(offered := true)
    case Reaps => if j.stage.Asked? then Does(j, T.Reap).(stage := Reaped) else j
    case Refuses => if j.stage.Reaped? then j.(stage := Answered(false)) else j
    case FindsActive =>
      if j.stage.Reaped? && j.offered && HandOf(j).active then j.(stage := Answered(true)) else j
    case Snapshots =>
      if j.stage.Reaped? && j.offered && !HandOf(j).active then Does(j, T.Begin).(stage := Taken(HandOf(j).next))
      else j
    case Commits => if j.stage.Taken? then Does(j, T.Commit(j.stage.ticket)).(stage := Answered(true)) else j
    case GivesUp => if j.stage.Taken? then Does(j, T.GiveUp(j.stage.ticket)).(stage := Answered(false)) else j
    case Deactivates(self) => Does(j, T.Release(self, j.offered))
    case Retires => Does(j, T.Retire)
  }

  /** Every interleaving of the bridge's threads with the plugin's is a sequence of moves. */
  ghost function RunJoint(moves: seq<Move>): Joint {
    if moves == [] then START else After(RunJoint(moves[..|moves| - 1]), moves[|moves| - 1])
  }

  // ---------- One reader at a time ----------

  /** The accept loop joins the last reader before it starts another, so an activation under way
      ends only with its own answer. */
  lemma ActivatingEndsWithAnswer(w: World, step: Step)
    requires w.cur.reader.Activating? && !step.Activated? && !step.ActivationFailed?
    ensures Next(w, step).cur.reader.Activating?
  {
    if IsClientStep(step) {
      ClientStepIsMove(w, step);
    } else {
      hide ReadCommand;
    }
  }

  lemma AnswerEndsActivating(w: World, step: Step)
    requires step.Activated? || step.ActivationFailed?
    ensures !Next(w, step).cur.reader.Activating?
  {
  }

  lemma RunOneMore(schedule: seq<Step>, step: Step)
    ensures Run(schedule + [step]) == Next(Run(schedule), step)
  {
    hide Next;
    assert (schedule + [step])[..|schedule|] == schedule;
  }

  lemma BlocksOneMore(blocks: seq<T.Block>, b: T.Block)
    ensures T.RunBlocks(blocks + [b]) == T.AfterBlock(T.RunBlocks(blocks), b)
    ensures T.OneAtATime(blocks + [b]) <==> T.OneAtATime(blocks) && (b.Begin? ==> T.RunBlocks(blocks).pending == {})
  {
    assert (blocks + [b])[..|blocks|] == blocks;
  }

  // ---------- The invariant ----------

  /** The plugin is inside an activation exactly while the bridge's reader waits for one, and
      nothing has gone wrong with a snapshot so far. */
  ghost predicate Tied(j: Joint) {
    && (j.stage.Idle? <==> !Run(j.schedule).cur.reader.Activating?)
    && Sane(HandOf(j), j.stage, j.offered)
    && T.OneAtATime(j.blocks)
  }

  predicate Sane(h: T.Hand, stage: Stage, offered: bool) {
    && h.pending == (if stage.Taken? then {stage.ticket} else {})
    && (stage.Taken? ==> !h.active && offered)
    && (h.active ==> offered)
    && (h.loop.Running? ==> h.active)
    && h.lost == {} && h.dropped == {} && !h.stalled
    && T.Accounted(h)
  }

  lemma BridgeKeepsTied(j: Joint, step: Step)
    requires Tied(j)
    ensures Tied(BridgeMoves(j, step))
  {
    hide Next, Run, Sane;
    var w := Run(j.schedule);
    RunOneMore(j.schedule, step);
    if step.Activated? || step.ActivationFailed? {
      AnswerEndsActivating(w, step);
      if j.stage.Answered? { StageDoesNotMatter(HandOf(j), j.stage, Idle, j.offered); }
    } else if w.cur.reader.Activating? {
      ActivatingEndsWithAnswer(w, step);
    } else {
      StageDoesNotMatter(HandOf(j), j.stage, Asked, j.offered);
    }
  }

  lemma StageDoesNotMatter(h: T.Hand, stage: Stage, other: Stage, offered: bool)
    requires Sane(h, stage, offered) && !stage.Taken? && !other.Taken?
    ensures Sane(h, other, offered) && Sane(h, other, true)
  {
  }

  lemma BlockKeepsSane(h: T.Hand, b: T.Block, stage: Stage, offered: bool)
    requires Sane(h, stage, offered)
    requires match b
             case Begin => !stage.Taken? && !h.active && offered
             case Commit(t) => stage == Taken(t)
             case GiveUp(t) => stage == Taken(t)
             case Release(_, o) => o == offered
             case _ => true
    ensures var next := match b
                        case Begin => Taken(h.next)
                        case Commit(_) => Answered(true)
                        case GiveUp(_) => Answered(false)
                        case _ => stage;
            Sane(T.AfterBlock(h, b), next, offered)
  {
    hide T.Accounted;
    T.AccountedBlock(h, b);
    T.SessionIsActive(h);
  }

  lemma MoveKeepsTied(j: Joint, m: Move)
    requires Tied(j)
    ensures Tied(After(j, m))
  {
    hide Run, T.RunBlocks, T.OneAtATime, T.AfterBlock, T.Accounted;
    var h := HandOf(j);
    match m
    case Bridge(step) => BridgeKeepsTied(j, step);
    case HostOffers =>
    case Reaps =>
      BlocksOneMore(j.blocks, T.Reap);
      BlockKeepsSane(h, T.Reap, j.stage, j.offered);
    case Refuses =>
    case FindsActive =>
    case Snapshots =>
      BlocksOneMore(j.blocks, T.Begin);
      if j.stage.Reaped? && j.offered && !h.active { BlockKeepsSane(h, T.Begin, j.stage, j.offered); }
    case Commits =>
      if j.stage.Taken? {
        BlocksOneMore(j.blocks, T.Commit(j.stage.ticket));
        BlockKeepsSane(h, T.Commit(j.stage.ticket), j.stage, j.offered);
      }
    case GivesUp =>
      if j.stage.Taken? {
        BlocksOneMore(j.blocks, T.GiveUp(j.stage.ticket));
        BlockKeepsSane(h, T.GiveUp(j.stage.ticket), j.stage, j.offered);
      }
    case Deactivates(self) =>
      BlocksOneMore(j.blocks, T.Release(self, j.offered));
      BlockKeepsSane(h, T.Release(self, j.offered), j.stage, j.offered);
    case Retires =>
      BlocksOneMore(j.blocks, T.Retire);
      BlockKeepsSane(h, T.Retire, j.stage, j.offered);
  }

  lemma {:induction false} AlwaysTied(moves: seq<Move>)
    ensures Tied(RunJoint(moves))
  {
    hide Tied, After;
    if moves != [] {
      AlwaysTied(moves[..|moves| - 1]);
      MoveKeepsTied(RunJoint(moves[..|moves| - 1]), moves[|moves| - 1]);
    } else {
      StartIsTied();
    }
  }

  lemma StartIsTied()
    ensures Tied(START)
  {
  }

  // ---------- The theorems ----------

  /** In every run of the program the activations come one after another; no snapshot is ever
      overwritten or cleared unrestored, and no activator joins a loop that still plays. */
  lemma NothingIsLost(moves: seq<Move>)
    ensures var j := RunJoint(moves);
            && T.OneAtATime(j.blocks)
            && !T.Ever(T.Overwrites, j.blocks) && !T.Ever(T.Drops, j.blocks) && !T.Ever(T.Stalls, j.blocks)
  {
    hide RunJoint, T.RunBlocks, T.OneAtATime, T.Ever, T.Accounted;
    AlwaysTied(moves);
    T.FaultsExactlyWhen(RunJoint(moves).blocks);
  }

  /** So every snapshot is handed to exactly one restore: at every moment each one taken is
      handed out, in the session, or held by the one activation under way, and once playback is
      over all were handed out, each once. */
  lemma EverySnapshotComesBack(moves: seq<Move>)
    ensures var j := RunJoint(moves);
            var h := HandOf(j);
            && (forall t :: 0 <= t < h.next ==> t in h.handed || h.session == Some(t) || j.stage == Taken(t))
            && (forall i, k :: 0 <= i < k < |h.handed| ==> h.handed[i] != h.handed[k])
            && (!h.active && !j.stage.Taken? ==>
                  (forall t :: 0 <= t < h.next ==> t in h.handed) && |h.handed| == h.next)
  {
    hide RunJoint, T.RunBlocks, T.OneAtATime, T.Ever;
    AlwaysTied(moves);
    NothingIsLost(moves);
    var j := RunJoint(moves);
    if !HandOf(j).active && !j.stage.Taken? {
      T.ExactlyOneRestore(j.blocks);
    }
  }

  /** Nothing is left out by tying the two together: every run of the bridge is the bridge's part
      of some run of both. */
  lemma {:induction false} EveryBridgeRunHappens(schedule: seq<Step>) returns (moves: seq<Move>)
    ensures Run(RunJoint(moves).schedule) == Run(schedule)
    ensures RunJoint(moves).offered && (RunJoint(moves).stage.Idle? || RunJoint(moves).stage.Asked?)
  {
    hide Run, After, Next, T.RunBlocks;
    if schedule == [] {
      moves := [HostOffers];
      MoveOn([], HostOffers);
      OfferAtStart();
    } else {
      var n := |schedule| - 1;
      var before := EveryBridgeRunHappens(schedule[..n]);
      var step := schedule[n];
      assert schedule == schedule[..n] + [step];
      RunOneMore(schedule[..n], step);
      moves := FollowStep(before, step);
    }
  }

  lemma MoveOn(moves: seq<Move>, m: Move)
    ensures RunJoint(moves + [m]) == After(RunJoint(moves), m)
  {
    hide After;
    assert (moves + [m])[..|moves|] == moves;
  }

  lemma OfferAtStart()
    ensures After(START, HostOffers) == START.(offered := true) && RunJoint([]) == START
    ensures [] + [HostOffers] == [HostOffers]
  {
  }

  /** One more step of the bridge; an answer to an activation is prepared by the plugin. */
  lemma FollowStep(before: seq<Move>, step: Step) returns (moves: seq<Move>)
    requires RunJoint(before).offered && (RunJoint(before).stage.Idle? || RunJoint(before).stage.Asked?)
    ensures Run(RunJoint(moves).schedule) == Next(Run(RunJoint(before).schedule), step)
    ensures RunJoint(moves).offered && (RunJoint(moves).stage.Idle? || RunJoint(moves).stage.Asked?)
  {
    hide Run, Next, T.RunBlocks, RunJoint;
    AlwaysTied(before);
    var j := RunJoint(before);
    var w := Run(j.schedule);
    RunOneMore(j.schedule, step);
    if !step.Activated? && !step.ActivationFailed? {
      moves := before + [Bridge(step)];
      MoveOn(before, Bridge(step));
    } else if !w.cur.reader.Activating? {
      moves := before;
      NoAnswerAwaited(w, step);
    } else {
      var asked := Answer(before, step.Activated?);
      moves := asked + [Bridge(step)];
      MoveOn(asked, Bridge(step));
    }
  }

  lemma NoAnswerAwaited(w: World, step: Step)
    requires (step.Activated? || step.ActivationFailed?) && !w.cur.reader.Activating?
    ensures Next(w, step) == w
  {
  }

  lemma Answer(before: seq<Move>, ok: bool) returns (moves: seq<Move>)
    requires RunJoint(before).stage.Asked? && RunJoint(before).offered
    ensures RunJoint(moves).stage == Answered(ok) && RunJoint(moves).offered
    ensures RunJoint(moves).schedule == RunJoint(before).schedule
  {
    hide Run, T.RunBlocks, RunJoint, BridgeMoves;
    var reaped := before + [Reaps];
    MoveOn(before, Reaps);
    if !ok {
      moves := reaped + [Refuses];
      MoveOn(reaped, Refuses);
    } else if HandOf(RunJoint(reaped)).active {
      moves := reaped + [FindsActive];
      MoveOn(reaped, FindsActive);
    } else {
      var taken := reaped + [Snapshots];
      MoveOn(reaped, Snapshots);
      moves := taken + [Commits];
      MoveOn(taken, Commits);
    }
  }
}
