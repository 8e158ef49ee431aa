/** Retry accounting: where a copy's attempt number comes from. */
module Retries {
  import opened Documents
  import opened Broker
  import opened Protocol
  import opened Invariant
  import opened Preservation
  import opened Safety

  /** The handler puts its copy in the retry queue. */
  predicate IsRetry(cfg: Config, l: Local, a: Action, stage: Stage) {
    && a == Call(stage, Ok) && l.At(stage).run.Busy? && l.At(stage).run.pc.Requeue?
    && l.At(stage).run.copy.attempt < cfg.maxRetries
  }

  /** `a` publishes the first copy of message `id` to `stage`. */
  predicate IsFirst(a: Action, stage: Stage, id: MsgId) {
    (stage == Ocr && a == Announce(id)) || (a.Send? && After(a.stage) == Some(stage) && a.next == id)
  }

  // ------------------------------------------------------------------------ one step

  lemma LaneCallCopies(cfg: Config, lane: Lane, stage: Stage, choice: Choice, next: Run, c: Copy)
    requires Possible(lane.run, stage, choice) && (next.Busy? ==> next.copy == lane.run.copy)
    requires InLane(LaneCall(cfg, lane, choice, next), c)
    ensures || InLane(lane, c)
            || (choice == Ok && lane.run.pc.Requeue? && lane.run.copy.attempt < cfg.maxRetries
                && c == Copy(lane.run.copy.id, lane.run.copy.attempt + 1))
  {
  }

  lemma LaneOtherCopies(cfg: Config, lane: Lane, a: Action, c: Copy)
    requires a.Deliver? || a.Crash? || a.Drop? || a.Expire? || a.Duplicate?
    requires a.Crash? || a.Drop? ==> lane.run.Busy?
    requires a.Deliver? || a.Duplicate? ==> a.copy in lane.main
    requires a.Expire? ==> a.copy in lane.retry
    requires InLane(LaneOther(cfg, lane, a), c)
    ensures InLane(lane, c)
  {
  }

  lemma CallCopies(cfg: Config, l: Local, s: Stage, choice: Choice, stage: Stage, c: Copy)
    requires Enabled(l, Call(s, choice)) && InLane(Protocol.Step(cfg, l, Call(s, choice)).At(stage), c)
    ensures || InLane(l.At(stage), c)
            || (IsRetry(cfg, l, Call(s, choice), stage)
                && c == Copy(l.At(stage).run.copy.id, l.At(stage).run.copy.attempt + 1))
  {
    hide Protocol.Step, CallDb, CallRun, LaneCall, InLane, Possible;
    CallIsPossible(l, s, choice);
    CallShape(cfg, l, s, choice);
    if s == stage {
      CallKeepsCopy(cfg, l.db.processed, s, l.At(s).run, choice, l.db);
      LaneCallCopies(cfg, l.At(s), s, choice, CallRun(cfg, l.db.processed, s, l.At(s).run, choice, l.db), c);
    }
  }

  lemma OtherCopies(cfg: Config, l: Local, a: Action, stage: Stage, c: Copy)
    requires Enabled(l, a) && !a.Call? && InLane(Protocol.Step(cfg, l, a).At(stage), c)
    ensures InLane(l.At(stage), c) || (IsFirst(a, stage, c.id) && c.attempt == 1)
  {
    if a.Send? {
      SendCopies(cfg, l, a, stage, c);
    } else if a.Upload? || a.Announce? || a.Abandon? {
      ApiCopies(cfg, l, a, stage, c);
    } else {
      MoveCopies(cfg, l, a, stage, c);
    }
  }

  lemma SendCopies(cfg: Config, l: Local, a: Action, stage: Stage, c: Copy)
    requires Enabled(l, a) && a.Send? && InLane(Protocol.Step(cfg, l, a).At(stage), c)
    ensures InLane(l.At(stage), c) || (IsFirst(a, stage, c.id) && c.attempt == 1)
  {
    hide Protocol.Step, Fresh, OnRaise;
    SendShape(cfg, l, a);
  }

  lemma ApiCopies(cfg: Config, l: Local, a: Action, stage: Stage, c: Copy)
    requires Enabled(l, a) && (a.Upload? || a.Announce? || a.Abandon?) && InLane(Protocol.Step(cfg, l, a).At(stage), c)
    ensures InLane(l.At(stage), c) || (IsFirst(a, stage, c.id) && c.attempt == 1)
  {
    hide Fresh;
  }

  lemma MoveCopies(cfg: Config, l: Local, a: Action, stage: Stage, c: Copy)
    requires Enabled(l, a) && InLane(Protocol.Step(cfg, l, a).At(stage), c)
    requires a.Deliver? || a.Crash? || a.Drop? || a.Expire? || a.Duplicate?
    ensures InLane(l.At(stage), c)
  {
    hide Protocol.Step, LaneOther, InLane;
    OtherShape(cfg, l, a);
    if a.stage == stage {
      LaneOtherCopies(cfg, l.At(stage), a, c);
    }
  }

  lemma RetryHolds(cfg: Config, l: Local, a: Action, stage: Stage)
    requires IsRetry(cfg, l, a, stage)
    ensures l.At(stage).run.Busy? && InLane(l.At(stage), l.At(stage).run.copy)
  {
  }

  /** Where a copy comes from: it was in the stage already with the same attempt, or
      it is a message's first copy with attempt 1, or the retry branch has just
      raised its attempt by one. Nacks, expiries, crashes, lost connections and
      duplicate deliveries leave attempts alone. */
  lemma CopyOrigin(cfg: Config, l: Local, a: Action, stage: Stage, c: Copy)
    requires Enabled(l, a) && InLane(Protocol.Step(cfg, l, a).At(stage), c)
    ensures || InLane(l.At(stage), c)
            || (IsFirst(a, stage, c.id) && c.attempt == 1)
            || (IsRetry(cfg, l, a, stage) && c == Copy(l.At(stage).run.copy.id, l.At(stage).run.copy.attempt + 1))
  {
    hide Enabled, Protocol.Step, InLane, IsRetry, IsFirst;
    if a.Call? {
      CallCopies(cfg, l, a.stage, a.choice, stage, c);
    } else {
      OtherCopies(cfg, l, a, stage, c);
    }
  }

  /** Where a dead letter comes from: it was one already, or the retry branch has
      just given up on its last attempt. */
  lemma DeadOrigin(cfg: Config, l: Local, a: Action, stage: Stage, c: Copy)
    requires Enabled(l, a) && c in Protocol.Step(cfg, l, a).At(stage).dead
    ensures c in l.At(stage).dead || (InLane(l.At(stage), c) && c.attempt >= cfg.maxRetries)
  {
    if a.Call? {
      DeadCall(cfg, l, a.stage, a.choice, stage, c);
    } else if a.Send? {
      DeadSend(cfg, l, a, stage, c);
    } else if a.Deliver? || a.Crash? || a.Drop? || a.Expire? || a.Duplicate? {
      DeadMove(cfg, l, a, stage, c);
    }
  }

  lemma DeadCall(cfg: Config, l: Local, s: Stage, choice: Choice, stage: Stage, c: Copy)
    requires Enabled(l, Call(s, choice)) && c in Protocol.Step(cfg, l, Call(s, choice)).At(stage).dead
    ensures c in l.At(stage).dead || (InLane(l.At(stage), c) && c.attempt >= cfg.maxRetries)
  {
    hide Protocol.Step, CallDb, CallRun, Possible;
    CallIsPossible(l, s, choice);
    CallShape(cfg, l, s, choice);
  }

  lemma DeadSend(cfg: Config, l: Local, a: Action, stage: Stage, c: Copy)
    requires Enabled(l, a) && a.Send? && c in Protocol.Step(cfg, l, a).At(stage).dead
    ensures c in l.At(stage).dead
  {
    hide Protocol.Step, Fresh, OnRaise;
    SendShape(cfg, l, a);
  }

  lemma DeadMove(cfg: Config, l: Local, a: Action, stage: Stage, c: Copy)
    requires Enabled(l, a) && c in Protocol.Step(cfg, l, a).At(stage).dead
    requires a.Deliver? || a.Crash? || a.Drop? || a.Expire? || a.Duplicate?
    ensures c in l.At(stage).dead
  {
    hide Protocol.Step;
    OtherShape(cfg, l, a);
  }

  // ----------------------------------------------------------------------- whole runs

  /** In every run, whatever goes wrong, every copy's attempt is between 1 and the
      attempts the setting allows, and a copy reaches the DLQ only with its last one. */
  lemma {:induction false} AttemptsInRange(cfg: Config, env: Env, acts: seq<Action>, l: Local, stage: Stage, c: Copy)
    requires Play(cfg, env, INIT, acts) == Some(l)
    ensures InLane(l.At(stage), c) ==> 1 <= c.attempt <= Attempts(cfg)
    ensures c in l.At(stage).dead ==> c.attempt == Attempts(cfg)
    decreases |acts|
  {
    hide Enabled, Allows, Protocol.Step, InLane, IsFirst;
    if acts == [] {
      NothingInLane(stage, c);
    } else {
      var before := acts[..|acts| - 1];
      var k, a := LastStep(cfg, env, INIT, acts, l);
      AttemptsInRange(cfg, env, before, k, stage, c);
      if InLane(l.At(stage), c) {
        CopyOrigin(cfg, k, a, stage, c);
        if IsRetry(cfg, k, a, stage) {
          RetryHolds(cfg, k, a, stage);
          AttemptsInRange(cfg, env, before, k, stage, k.At(stage).run.copy);
        }
      }
      if c in l.At(stage).dead {
        DeadOrigin(cfg, k, a, stage, c);
      }
    }
  }

  lemma NothingInLane(stage: Stage, c: Copy)
    ensures !InLane(INIT.At(stage), c) && c !in INIT.At(stage).dead
  {
  }

  // ------------------------------------------------------------------------ lineages

  /** `c` is the copy that this publish puts in the stage's queue. */
  ghost predicate Starts(cfg: Config, l: Local, a: Action, stage: Stage, c: Copy)
    requires Enabled(l, a)
  {
    IsFirst(a, stage, c.id) && Protocol.Step(cfg, l, a).At(stage).main == l.At(stage).main + multiset{c}
  }

  /** `c` is the copy that the handler of `parent` puts in the retry queue. */
  ghost predicate Follows(cfg: Config, l: Local, a: Action, stage: Stage, parent: Copy, c: Copy)
    requires Enabled(l, a)
  {
    && a == Call(stage, Ok) && l.At(stage).run.Busy? && l.At(stage).run.pc.Requeue?
    && l.At(stage).run.copy == parent && c.id == parent.id
    && Protocol.Step(cfg, l, a).At(stage).retry == l.At(stage).retry + multiset{c}
  }

  /** The run leads from the first copy of a message to `c` through `retries` puts
      in the retry queue: going back, `c` was there, or was put there by the handler
      of its parent, or is the copy that the message was published with. */
  ghost predicate Lineage(cfg: Config, env: Env, acts: seq<Action>, stage: Stage, c: Copy, retries: nat)
    decreases |acts|
  {
    acts != [] &&
    var before, a := acts[..|acts| - 1], acts[|acts| - 1];
    match Play(cfg, env, INIT, before)
    case None => false
    case Some(l) =>
      Can(env, l, a) && Descends(cfg, env, before, l, a, stage, c, retries)
  }

  ghost predicate Descends(cfg: Config, env: Env, before: seq<Action>, l: Local, a: Action,
                           stage: Stage, c: Copy, retries: nat)
    requires Enabled(l, a)
    decreases |before| + 1, 0
  {
    || (retries == 0 && Starts(cfg, l, a, stage, c))
    || (InLane(l.At(stage), c) && Lineage(cfg, env, before, stage, c, retries))
    || (retries > 0 && exists parent: Copy ::
          Follows(cfg, l, a, stage, parent, c) && Lineage(cfg, env, before, stage, parent, retries - 1))
  }

  lemma StartsWithOne(cfg: Config, l: Local, a: Action, stage: Stage, c: Copy)
    requires Enabled(l, a) && IsFirst(a, stage, c.id)
    ensures Starts(cfg, l, a, stage, c) <==> c.attempt == 1
  {
    hide Fresh, OnRaise;
    var lane, first := l.At(stage), Copy(c.id, 1);
    FirstGrows(cfg, l, a, stage, c.id);
    if Starts(cfg, l, a, stage, c) {
      assert (lane.main + multiset{c})[c] == lane.main[c] + 1;
    }
  }

  lemma FirstGrows(cfg: Config, l: Local, a: Action, stage: Stage, id: MsgId)
    requires Enabled(l, a) && IsFirst(a, stage, id)
    ensures Protocol.Step(cfg, l, a).At(stage).main == l.At(stage).main + multiset{Copy(id, 1)}
  {
    hide Fresh;
    if a.Send? {
      SendGrows(cfg, l, a, stage, id);
    }
  }

  lemma SendGrows(cfg: Config, l: Local, a: Action, stage: Stage, id: MsgId)
    requires a.Send? && Enabled(l, a) && IsFirst(a, stage, id)
    ensures Protocol.Step(cfg, l, a).At(stage).main == l.At(stage).main + multiset{Copy(id, 1)}
  {
    hide Protocol.Step, Fresh, OnRaise;
    SendShape(cfg, l, a);
  }

  lemma FollowsByOne(cfg: Config, l: Local, a: Action, stage: Stage, parent: Copy, c: Copy)
    requires Enabled(l, a) && a == Call(stage, Ok) && l.At(stage).run.Busy? && l.At(stage).run.pc.Requeue?
    requires l.At(stage).run.copy == parent
    ensures Follows(cfg, l, a, stage, parent, c)
            <==> parent.attempt < cfg.maxRetries && c == Copy(parent.id, parent.attempt + 1)
  {
    hide Protocol.Step, CallDb, CallRun;
    CallShape(cfg, l, stage, Ok);
    var m, again := l.At(stage).retry, Copy(parent.id, parent.attempt + 1);
    if Follows(cfg, l, a, stage, parent, c) {
      assert (m + multiset{c})[c] == m[c] + 1;
    }
  }

  /** No lineage of a copy has any other number of retries than its attempt says. */
  lemma {:induction false} LineageIsAttempt(cfg: Config, env: Env, acts: seq<Action>, stage: Stage, c: Copy,
      retries: nat)
    requires Lineage(cfg, env, acts, stage, c, retries)
    ensures c.attempt == retries + 1
    decreases |acts|
  {
    hide Enabled, Allows, Protocol.Step, InLane, Starts, Follows;
    var before, a := acts[..|acts| - 1], acts[|acts| - 1];
    var l := Play(cfg, env, INIT, before).value;
    assert Descends(cfg, env, before, l, a, stage, c, retries);
    if InLane(l.At(stage), c) && Lineage(cfg, env, before, stage, c, retries) {
      LineageIsAttempt(cfg, env, before, stage, c, retries);
    } else if retries == 0 && Starts(cfg, l, a, stage, c) {
      StartIsFirst(cfg, l, a, stage, c);
    } else {
      var parent: Copy :| Follows(cfg, l, a, stage, parent, c) && Lineage(cfg, env, before, stage, parent, retries - 1);
      LineageIsAttempt(cfg, env, before, stage, parent, retries - 1);
      FollowRaises(cfg, l, a, stage, parent, c);
    }
  }

  lemma StartIsFirst(cfg: Config, l: Local, a: Action, stage: Stage, c: Copy)
    requires Enabled(l, a) && Starts(cfg, l, a, stage, c)
    ensures c.attempt == 1
  {
    hide Enabled, Protocol.Step, IsFirst;
    StartsWithOne(cfg, l, a, stage, c);
  }

  lemma FollowRaises(cfg: Config, l: Local, a: Action, stage: Stage, parent: Copy, c: Copy)
    requires Enabled(l, a) && Follows(cfg, l, a, stage, parent, c)
    ensures c.attempt == parent.attempt + 1
  {
    hide Enabled, Protocol.Step;
    FollowsByOne(cfg, l, a, stage, parent, c);
  }

  /** In every run, with any crashes, nacks, redeliveries and duplicates, a copy's
      attempt is one more than the transient retries on its own lineage: it has a
      lineage with exactly that many, and none with another number. */
  lemma {:induction false} AttemptsAreRetries(cfg: Config, env: Env, acts: seq<Action>, l: Local, stage: Stage, c: Copy)
    requires Play(cfg, env, INIT, acts) == Some(l) && InLane(l.At(stage), c)
    ensures c.attempt >= 1
    ensures forall retries: nat :: Lineage(cfg, env, acts, stage, c, retries) <==> c.attempt == 1 + retries
    decreases |acts|
  {
    hide Enabled, Allows, Protocol.Step, InLane, IsFirst, IsRetry, Starts, Follows;
    if acts == [] {
      NothingInLane(stage, c);
    } else {
      var before := acts[..|acts| - 1];
      var k, a := LastStep(cfg, env, INIT, acts, l);
      CopyOrigin(cfg, k, a, stage, c);
      if InLane(k.At(stage), c) {
        AttemptsAreRetries(cfg, env, before, k, stage, c);
      } else if IsFirst(a, stage, c.id) && c.attempt == 1 {
        StartsWithOne(cfg, k, a, stage, c);
      } else {
        RetryHolds(cfg, k, a, stage);
        RetryFollows(cfg, k, a, stage);
        AttemptsAreRetries(cfg, env, before, k, stage, k.At(stage).run.copy);
        assert Lineage(cfg, env, before, stage, k.At(stage).run.copy, k.At(stage).run.copy.attempt - 1);
      }
      assert Descends(cfg, env, before, k, a, stage, c, c.attempt - 1);
      forall retries: nat | Lineage(cfg, env, acts, stage, c, retries) ensures c.attempt == 1 + retries {
        LineageIsAttempt(cfg, env, acts, stage, c, retries);
      }
    }
  }

  lemma RetryFollows(cfg: Config, l: Local, a: Action, stage: Stage)
    requires Enabled(l, a) && IsRetry(cfg, l, a, stage)
    ensures var parent := l.At(stage).run.copy;
            Follows(cfg, l, a, stage, parent, Copy(parent.id, parent.attempt + 1))
  {
    hide Protocol.Step, Enabled, Follows;
    FollowsByOne(cfg, l, a, stage, l.At(stage).run.copy,
        Copy(l.At(stage).run.copy.id, l.At(stage).run.copy.attempt + 1));
  }
}
