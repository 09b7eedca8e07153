/** A dead pool is rebuilt: when an outage is on record, since when, and that an old
    enough one makes the next iteration recycle. */
module Repair {
  import opened Seqs
  import opened Machine
  import opened Flow
  import opened Wakeups
  import opened RecycleSafety

  // ------------------------------------------------------------------
  // What is on record
  // ------------------------------------------------------------------

  /** An observation of replicas with no live runner behind them. */
  predicate Sick(r: Record) {
    r.Looked? && r.live == 0 && r.applied > 0
  }

  /** The last successful observation was sick. */
  predicate LastLookSick(log: seq<Record>) {
    if log == [] then false
    else if log[|log| - 1].Looked? then Sick(log[|log| - 1])
    else LastLookSick(log[..|log| - 1])
  }

  /** The wait for runners began at i: with the first observation of an unbroken
      sick stretch, or with a recycle during it. */
  predicate WaitBegan(log: seq<Record>, i: nat)
    requires i < |log|
  {
    if LastLookSick(log[..i]) then log[i].Recycled? else Sick(log[i])
  }

  /** It began at i, at time t, and nothing since has ended or restarted it. */
  ghost predicate WaitingSince(log: seq<Record>, i: nat, t: int)
  {
    && i < |log| && WaitBegan(log, i)
    && (log[i].Looked? || log[i].Recycled?) && log[i].time == t
    && forall k :: i < k < |log| ==> !log[k].Recycled? && (log[k].Looked? ==> Sick(log[k]))
  }

  ghost predicate RecordInv(s: State) {
    && (s.missing.Some? <==> LastLookSick(s.log))
    && (s.missing.Some? ==> exists i: nat :: WaitingSince(s.log, i, s.missing.value))
    && (Recycling(s.pc) ==> s.missing.Some?)
  }

  lemma LookAppend(log: seq<Record>, r: Record)
    ensures LastLookSick(log + [r]) == if r.Looked? then Sick(r) else LastLookSick(log)
  {
    assert (log + [r])[..|log + [r]| - 1] == log;
  }

  lemma WaitContinues(log: seq<Record>, r: Record, i: nat, t: int)
    requires WaitingSince(log, i, t) && !r.Recycled? && (r.Looked? ==> Sick(r))
    ensures WaitingSince(log + [r], i, t)
  {
    assert (log + [r])[..i] == log[..i];
  }

  lemma WaitBegins(log: seq<Record>, r: Record)
    requires if LastLookSick(log) then r.Recycled? else Sick(r)
    ensures WaitingSince(log + [r], |log|, r.time)
  {
    assert (log + [r])[..|log|] == log;
  }

  /** How one more entry and the record of the outage must go together. */
  lemma RecordAppend(s: State, t: State, r: Record)
    requires RecordInv(s) && t.log == s.log + [r]
    requires Recycling(t.pc) ==> t.missing.Some?
    requires match r
      case Looked(time, _, _, _) =>
        t.missing == if !Sick(r) then None else if s.missing.None? then Some(time) else s.missing
      case Recycled(time) => s.missing.Some? && t.missing == Some(time)
      case _ => t.missing == s.missing
    ensures RecordInv(t)
  {
    LookAppend(s.log, r);
    if t.missing.Some? {
      if r.Recycled? || s.missing.None? {
        WaitBegins(s.log, r);
      } else {
        var i: nat :| WaitingSince(s.log, i, s.missing.value);
        WaitContinues(s.log, r, i, s.missing.value);
      }
    }
  }

  lemma LookedRecord(c: Config, s: State, o: Observation)
    requires c.opts.Valid() && s.pc.Observing? && CanObserve(c, s, o) && RecordInv(s)
    ensures RecordInv(Absorb(c, s, o))
  {
    var t := Absorb(c, s, o);
    assert t.log == s.log + [t.log[|s.log|]];
    RecordAppend(s, t, t.log[|s.log|]);
  }

  lemma CheckedRecord(c: Config, s: State, now1: int, now2: int)
    requires Enabled(c, s, Check(now1, now2)) && RecordInv(s)
    ensures RecordInv(Next(c, s, Check(now1, now2)))
  {
    var t := Next(c, s, Check(now1, now2));
    if t.log != s.log {
      RecordAppend(s, t, RecycleStarted(now2));
    }
  }

  lemma StepRecord(c: Config, s: State, e: Event)
    requires Enabled(c, s, e) && RecordInv(s)
    ensures RecordInv(Next(c, s, e))
  {
    var t := Next(c, s, e);
    if e.Observe? && e.seen.Some? {
      LookedRecord(c, s, e.seen.value);
    } else if e.Check? {
      CheckedRecord(c, s, e.now1, e.now2);
    } else if e.Commit? && s.pc.Restored? {
      RecordAppend(s, t, Recycled(e.now));
    } else {
      OthersLeaveOutage(c, s, e);
      if t.log != s.log {
        StepKeepsLog(c, s, e);
        assert t.log == s.log + [t.log[|s.log|]];
        RecordAppend(s, t, t.log[|s.log|]);
      }
    }
  }

  lemma {:induction false} RunRecord(c: Config, s: State, es: seq<Event>, t: State)
    requires Exec(c, s, es) == Some(t) && RecordInv(s)
    ensures RecordInv(t)
  {
    if es != [] {
      var m, e := ExecLast(c, s, es, t);
      RunRecord(c, s, es[..|es| - 1], m);
      StepRecord(c, m, e);
    }
  }

  /** In every reachable state an outage is on record exactly when the last
      successful observation was sick, and its time is exactly that of the first
      observation of the stretch, or of the last recycle if one came later. */
  lemma OutageRecordedExactly(c: Config, t: State)
    requires Reachable(c, t)
    ensures t.missing.Some? <==> LastLookSick(t.log)
    ensures t.missing.Some? ==> exists i: nat :: WaitingSince(t.log, i, t.missing.value)
  {
    var s :| Init(c, s) && Leads(c, s, t);
    var es :| Exec(c, s, es) == Some(t);
    RunRecord(c, s, es, t);
  }

  /** A history has at most one such time. */
  lemma WaitIsUnique(log: seq<Record>, i: nat, t: int, j: nat, u: int)
    requires WaitingSince(log, i, t) && WaitingSince(log, j, u)
    ensures i == j && t == u
  {
    if i < j {
      SickThroughout(log, i, j);
    } else if j < i {
      SickThroughout(log, j, i);
    }
  }

  lemma {:induction false} SickThroughout(log: seq<Record>, i: nat, j: nat)
    requires i < j <= |log| && (Sick(log[i]) || LastLookSick(log[..i]))
    requires forall k :: i < k < j ==> log[k].Looked? ==> Sick(log[k])
    requires log[i].Looked? ==> Sick(log[i])
    ensures LastLookSick(log[..j])
  {
    assert log[..j][..j - 1] == log[..j - 1];
    if i < j - 1 {
      SickThroughout(log, i, j - 1);
    }
  }

  /** The live runners found by the last successful observation; -1 before any. */
  function LastLive(log: seq<Record>): int {
    if log == [] then -1
    else if log[|log| - 1].Looked? then log[|log| - 1].live
    else LastLive(log[..|log| - 1])
  }

  lemma StepLive(c: Config, s: State, e: Event)
    requires Enabled(c, s, e) && s.live == LastLive(s.log)
    ensures Next(c, s, e).live == LastLive(Next(c, s, e).log)
  {
    var t := Next(c, s, e);
    if t.log != s.log {
      StepKeepsLog(c, s, e);
      assert t.log == s.log + [t.log[|s.log|]];
      assert t.log[..|t.log| - 1] == s.log;
      LookIsLive(c, s, e);
    }
  }

  lemma LookIsLive(c: Config, s: State, e: Event)
    requires Enabled(c, s, e) && Next(c, s, e).log != s.log
    ensures var r := Next(c, s, e).log[|s.log|];
      if r.Looked? then Next(c, s, e).live == r.live else Next(c, s, e).live == s.live
  {
  }

  lemma {:induction false} RunLive(c: Config, s: State, es: seq<Event>, t: State)
    requires Exec(c, s, es) == Some(t) && s.live == LastLive(s.log)
    ensures t.live == LastLive(t.log)
  {
    if es != [] {
      var m, e := ExecLast(c, s, es, t);
      RunLive(c, s, es[..|es| - 1], m);
      StepLive(c, m, e);
    }
  }

  /** liveRunners is what the last successful observation found. */
  lemma LiveIsLastSeen(c: Config, t: State)
    requires Reachable(c, t)
    ensures t.live == LastLive(t.log)
  {
    var s :| Init(c, s) && Leads(c, s, t);
    var es :| Exec(c, s, es) == Some(t);
    RunLive(c, s, es, t);
  }

  // ------------------------------------------------------------------
  // An old outage is acted on
  // ------------------------------------------------------------------

  /** No observation in this run finds a live runner. */
  predicate NobodyLives(es: seq<Event>) {
    forall i :: 0 <= i < |es| ==> FindsNobody(es[i])
  }

  predicate FindsNobody(e: Event) {
    e.Observe? && e.seen.Some? ==> e.seen.value.live == 0
  }

  /** At the latest decision the pool had, on paper, exactly the replicas wanted. */
  predicate Settled(s: State)
    requires ChosenInv(s) && s.chosen >= 0
  {
    var choice := s.log[s.chosen];
    choice.d.hold.Free? && choice.d.desired == choice.applied > 0
  }

  /** What a recycle has got done since the latest decision. */
  ghost predicate HasStarted(s: State) {
    exists k: nat :: s.chosen < k < |s.log| && s.log[k].RecycleStarted?
  }

  predicate TearsDown(r: Record) {
    r.Called? && r.purpose == ToTearDown && r.arg == 0
  }

  ghost predicate HasTornDown(s: State) {
    exists k: nat :: s.chosen < k < |s.log| && TearsDown(s.log[k])
  }

  predicate Restores(r: Record, n: int) {
    r.Called? && r.purpose == ToRestore && r.arg == n
  }

  ghost predicate HasRestored(s: State, n: int) {
    exists k: nat :: s.chosen < k < |s.log| && Restores(s.log[k], n)
  }

  lemma ProgressKept(c: Config, s: State, e: Event, n: int)
    requires Enabled(c, s, e) && Next(c, s, e).chosen == s.chosen
    ensures HasStarted(s) ==> HasStarted(Next(c, s, e))
    ensures HasTornDown(s) ==> HasTornDown(Next(c, s, e))
    ensures HasRestored(s, n) ==> HasRestored(Next(c, s, e), n)
    ensures ChosenInv(s) && CallsSucceeded(Next(c, s, e)) ==> CallsSucceeded(s)
  {
    var t := Next(c, s, e);
    StepKeepsLog(c, s, e);
    assert forall k: nat :: k < |s.log| ==> t.log[k] == s.log[k];
    if ChosenInv(s) && CallsSucceeded(t) {
      FailedCallRemains(c, s, e);
    }
  }

  /** An outage that is old enough is on record. */
  predicate Overdue(c: Config, s: State) {
    && c.observed && c.opts.runnerGrace > 0
    && s.live == 0 && s.missing.Some?
    && s.clock - s.missing.value >= c.opts.runnerGrace
    && s.clock - c.startedAt >= c.opts.startupGrace
  }

  ghost predicate RepairInv(c: Config, s: State)
    requires ChosenInv(s)
  {
    match s.pc
    case Recounting | Observing => Overdue(c, s)
    case ReadingCutoff | Sweeping(_) | Deciding => s.applied > 0 ==> Overdue(c, s)
    case Rereading(_) | Checking(_) => s.applied > 0 ==> Overdue(c, s)
    case Scaling(_) | Scaled(_) => !Settled(s)
    case TearingDown(_) => HasStarted(s)
    case Restoring(_) => HasStarted(s) && HasTornDown(s)
    case RestoreFailed(_) => HasStarted(s) && HasTornDown(s) && !CallsSucceeded(s)
    case Restored(d) => HasStarted(s) && HasTornDown(s) && HasRestored(s, d.desired)
    case Waiting => Settled(s) ==> Rebuilt(s)
    case Stopped => true
  }

  /** The pool was torn down and, if no call failed, brought back. */
  ghost predicate Rebuilt(s: State)
    requires ChosenInv(s) && s.chosen >= 0
  {
    var n := s.log[s.chosen].d.desired;
    && HasStarted(s) && HasTornDown(s)
    && (CallsSucceeded(s) ==> HasRestored(s, n) && s.applied == n)
  }

  /** Handlers, and the pool changing by itself, leave all this alone. */
  lemma AsideRepair(c: Config, s: State, e: Event)
    requires Enabled(c, s, e) && FlowInv(c, s) && RepairInv(c, s)
    requires !ByReconciler(e)
    ensures ChosenInv(Next(c, s, e)) && RepairInv(c, Next(c, s, e))
  {
    StepLatest(c, s, e);
    OthersLeaveReconciler(c, s, e);
    if s.chosen >= 0 {
      ProgressKept(c, s, e, s.log[s.chosen].d.desired);
      if s.pc.Restored? {
        ProgressKept(c, s, e, s.pc.d.desired);
      }
    }
    RepairKept(c, s, Next(c, s, e));
  }

  lemma RepairKept(c: Config, s: State, t: State)
    requires ChosenInv(s) && ChosenInv(t) && RepairInv(c, s)
    requires t.pc == s.pc && t.applied == s.applied && t.live == s.live && t.missing == s.missing
    requires t.chosen == s.chosen && s.clock <= t.clock
    requires s.chosen >= 0 ==> t.log[s.chosen] == s.log[s.chosen]
    requires s.chosen >= 0 ==> (HasRestored(s, s.log[s.chosen].d.desired) ==> HasRestored(t, s.log[s.chosen].d.desired))
    requires s.pc.Restored? ==> (HasRestored(s, s.pc.d.desired) ==> HasRestored(t, s.pc.d.desired))
    requires s.chosen >= 0 ==> (HasStarted(s) ==> HasStarted(t)) && (HasTornDown(s) ==> HasTornDown(t))
    requires PastDecision(s.pc) && CallsSucceeded(t) ==> CallsSucceeded(s)
    ensures RepairInv(c, t)
  {
  }

  lemma KeepsChoice(c: Config, s: State, e: Event)
    requires Enabled(c, s, e) && ChosenInv(s) && s.chosen >= 0 && Next(c, s, e).chosen == s.chosen
    ensures s.chosen < |Next(c, s, e).log| && Next(c, s, e).log[s.chosen] == s.log[s.chosen]
  {
    StepKeepsLog(c, s, e);
  }

  /** Up to and including the decision. */
  lemma PrepareRepair(c: Config, s: State, e: Event)
    requires Enabled(c, s, e) && ChosenInv(s) && BookInv(c, s) && RepairInv(c, s) && FindsNobody(e)
    requires e.Recount? || e.Observe? || e.ReadCutoff? || e.Sweep? || e.Choose?
    ensures ChosenInv(Next(c, s, e)) && RepairInv(c, Next(c, s, e))
  {
    StepBook(c, s, e);
    StepLatest(c, s, e);
  }

  /** Choosing between a scaling call, a recycle and nothing. */
  lemma TurnRepair(c: Config, s: State, e: Event)
    requires Enabled(c, s, e) && FlowInv(c, s) && RepairInv(c, s)
    requires e.Reread? || e.Check?
    ensures ChosenInv(Next(c, s, e)) && RepairInv(c, Next(c, s, e))
  {
    var t := Next(c, s, e);
    StepLatest(c, s, e);
    KeepsChoice(c, s, e);
    if t.pc.TearingDown? {
      assert t.log[|s.log|].RecycleStarted?;
    }
  }

  lemma CallRepair(c: Config, s: State, e: Event)
    requires Enabled(c, s, e) && FlowInv(c, s) && RepairInv(c, s) && e.Call?
    ensures ChosenInv(Next(c, s, e)) && RepairInv(c, Next(c, s, e))
  {
    var t := Next(c, s, e);
    var n := s.log[s.chosen].d.desired;
    StepLatest(c, s, e);
    KeepsChoice(c, s, e);
    ProgressKept(c, s, e, n);
    var r := t.log[|s.log|];
    assert r.Called? && (e.ok || !CallsSucceeded(t));
    match s.pc
    case TearingDown(_) => assert TearsDown(r);
    case Restoring(_) => assert Restores(r, n);
    case Scaling(_) =>
  }

  lemma CommitRepair(c: Config, s: State, e: Event)
    requires Enabled(c, s, e) && FlowInv(c, s) && RepairInv(c, s) && e.Commit?
    ensures ChosenInv(Next(c, s, e)) && RepairInv(c, Next(c, s, e))
  {
    StepLatest(c, s, e);
    KeepsChoice(c, s, e);
    ProgressKept(c, s, e, s.log[s.chosen].d.desired);
  }

  lemma StepRepair(c: Config, s: State, e: Event)
    requires Enabled(c, s, e) && FlowInv(c, s) && RepairInv(c, s)
    requires !e.Wake? && !e.Tick? && !e.Cancel? && FindsNobody(e)
    ensures ChosenInv(Next(c, s, e)) && RepairInv(c, Next(c, s, e))
  {
    if !ByReconciler(e) {
      AsideRepair(c, s, e);
    } else if e.Call? {
      CallRepair(c, s, e);
    } else if e.Commit? {
      CommitRepair(c, s, e);
    } else if e.Reread? || e.Check? {
      TurnRepair(c, s, e);
    } else {
      PrepareRepair(c, s, e);
    }
  }

  lemma {:induction false} RunRepair(c: Config, s: State, es: seq<Event>, t: State)
    requires Exec(c, s, es) == Some(t) && FlowInv(c, s) && RepairInv(c, s)
    requires OneIteration(es) && NobodyLives(es)
    ensures FlowInv(c, t) && RepairInv(c, t)
  {
    if es != [] {
      var m, e := ExecLast(c, s, es, t);
      RunRepair(c, s, es[..|es| - 1], m);
      assert e == es[|es| - 1] && FindsNobody(e);
      StepFlow(c, m, e);
      StepRepair(c, m, e);
    }
  }

  /** An iteration makes its own decision. */
  lemma {:induction false} DecidesAnew(c: Config, s: State, es: seq<Event>, t: State)
    requires Exec(c, s, es) == Some(t) && OneIteration(es) && !PastDecision(s.pc)
    ensures PastDecision(t.pc) ==> |s.log| <= t.chosen
  {
    if es != [] {
      var m, e := ExecLast(c, s, es, t);
      DecidesAnew(c, s, es[..|es| - 1], m);
      RunKeepsLog(c, s, es[..|es| - 1], m);
      assert e == es[|es| - 1];
    }
  }

  /** An overdue outage does not outlive the next iteration: whatever handlers do
      meanwhile and whatever calls fail, if nobody is found alive and the pool has
      the replicas it wants, the iteration starts a recycle and calls for zero;
      and when its calls succeed it calls for the old count again and ends there. */
  lemma OverdueOutageIsRecycled(c: Config, s: State, es: seq<Event>, t: State)
    requires Reachable(c, s) && s.pc.Recounting? && c.observed && c.opts.runnerGrace > 0
    requires s.missing.Some? && s.clock - s.missing.value >= c.opts.runnerGrace
    requires s.clock - c.startedAt >= c.opts.startupGrace
    requires Exec(c, s, es) == Some(t) && OneIteration(es) && NobodyLives(es) && t.pc.Waiting?
    ensures |s.log| <= t.chosen < |t.log| && t.log[t.chosen].Chose?
    ensures var choice := t.log[t.chosen];
      choice.d.hold.Free? && choice.d.desired == choice.applied > 0 ==>
        && HasStarted(t) && HasTornDown(t)
        && (CallsSucceeded(t) ==> HasRestored(t, choice.d.desired) && t.applied == choice.d.desired)
  {
    ReachableFlow(c, s);
    MissingMeansNoLiveRunner(c, s);
    RunRepair(c, s, es, t);
    DecidesAnew(c, s, es, t);
  }
}
