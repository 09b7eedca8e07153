/** No event is lost: whenever the reconciler sleeps with nothing pending, its
    last decision saw exactly the jobs tracked now. */
module Wakeups {
  import opened Seqs
  import opened Scaler
  import opened Machine
  import opened Flow
  import opened ScaleSafety

  /** A change since the last decision has a wakeup on its way. */
  ghost predicate WakeInv(s: State)
    requires ChosenInv(s)
  {
    PastDecision(s.pc) ==>
      || (s.book.queued == s.log[s.chosen].queued && s.book.inProgress == s.log[s.chosen].inProgress)
      || s.trigger
      || s.pokes > 0
  }

  /** Every call since the last decision succeeded. */
  ghost predicate CallsSucceeded(s: State) {
    forall k :: 0 <= k && s.chosen < k < |s.log| && s.log[k].Called? ==> s.log[k].ok
  }

  /** An iteration whose calls succeeded ends with the count it decided on. */
  ghost predicate SettledInv(s: State)
    requires ChosenInv(s)
  {
    && ((s.pc.Waiting? || s.pc.Stopped?) && CallsSucceeded(s) ==> s.applied == s.log[s.chosen].d.desired)
    && (s.pc.RestoreFailed? ==> !CallsSucceeded(s))
  }

  lemma WakeKept(s: State, t: State)
    requires ChosenInv(s) && WakeInv(s) && ChosenInv(t) && PastDecision(s.pc)
    requires t.chosen == s.chosen && t.log[t.chosen] == s.log[s.chosen]
    requires t.book == s.book || t.pokes > 0
    requires s.trigger || s.pokes > 0 ==> t.trigger || t.pokes > 0
    ensures WakeInv(t)
  {
  }

  /** Past a decision only handlers change the tracked jobs, and they poke; and
      until the reconciler wakes, no wakeup is used up. */
  lemma NewsPokes(c: Config, s: State, e: Event)
    requires Enabled(c, s, e) && PastDecision(s.pc)
    ensures var t := Next(c, s, e);
      && (t.book == s.book || t.pokes > 0)
      && (PastDecision(t.pc) && (s.trigger || s.pokes > 0) ==> t.trigger || t.pokes > 0)
  {
  }

  lemma StepWake(c: Config, s: State, e: Event)
    requires Enabled(c, s, e) && FlowInv(c, s) && WakeInv(s)
    ensures ChosenInv(Next(c, s, e)) && WakeInv(Next(c, s, e))
  {
    var t := Next(c, s, e);
    StepLatest(c, s, e);
    if !e.Choose? {
      OnlyChooseChooses(c, s, e);
      if PastDecision(t.pc) {
        NewsPokes(c, s, e);
        WakeKept(s, t);
      }
    }
  }

  lemma FailedCallRemains(c: Config, s: State, e: Event)
    requires Enabled(c, s, e) && ChosenInv(s) && Next(c, s, e).chosen == s.chosen && CallsSucceeded(Next(c, s, e))
    ensures CallsSucceeded(s)
    ensures e.Call? ==> e.ok
  {
    var t := Next(c, s, e);
    StepKeepsLog(c, s, e);
    forall k | 0 <= k && s.chosen < k < |s.log| && s.log[k].Called? ensures s.log[k].ok {
      assert t.log[k] == s.log[k];
    }
    if e.Call? {
      assert t.log[|s.log|].ok == e.ok;
    }
  }

  lemma SettledKept(s: State, t: State)
    requires ChosenInv(s) && SettledInv(s) && ChosenInv(t)
    requires t.pc == s.pc && t.applied == s.applied && t.chosen == s.chosen
    requires s.chosen >= 0 ==> t.log[t.chosen] == s.log[s.chosen]
    requires CallsSucceeded(t) ==> CallsSucceeded(s)
    ensures SettledInv(t)
  {
  }

  lemma ActSettled(c: Config, s: State, e: Event)
    requires Enabled(c, s, e) && FlowInv(c, s) && SettledInv(s)
    requires e.Reread? || e.Check? || e.Call? || e.Commit?
    ensures ChosenInv(Next(c, s, e)) && SettledInv(Next(c, s, e))
  {
    StepLatest(c, s, e);
    OnlyChooseChooses(c, s, e);
    if CallsSucceeded(Next(c, s, e)) {
      FailedCallRemains(c, s, e);
    }
    if e.Reread? {
      SafeAt(c, s.log, s.chosen);
    }
  }

  lemma StepSettled(c: Config, s: State, e: Event)
    requires Enabled(c, s, e) && FlowInv(c, s) && SettledInv(s)
    ensures ChosenInv(Next(c, s, e)) && SettledInv(Next(c, s, e))
  {
    var t := Next(c, s, e);
    if e.Reread? || e.Check? || e.Call? || e.Commit? {
      ActSettled(c, s, e);
    } else {
      StepLatest(c, s, e);
      if !ByReconciler(e) {
        OthersLeaveReconciler(c, s, e);
        if CallsSucceeded(t) {
          FailedCallRemains(c, s, e);
        }
        SettledKept(s, t);
      } else if e.Cancel? {
        assert t == s.(pc := Stopped);
      }
    }
  }

  lemma {:induction false} RunWake(c: Config, s: State, es: seq<Event>, t: State)
    requires Exec(c, s, es) == Some(t) && FlowInv(c, s) && WakeInv(s) && SettledInv(s)
    ensures FlowInv(c, t) && WakeInv(t) && SettledInv(t)
  {
    if es != [] {
      var m, e := ExecLast(c, s, es, t);
      RunWake(c, s, es[..|es| - 1], m);
      StepFlow(c, m, e);
      StepWake(c, m, e);
      StepSettled(c, m, e);
    }
  }

  /** Under every interleaving: if the reconciler waits, the trigger is empty and
      no handler is between its unlock and its poke, then the latest decision saw
      the current job sets; and if the calls since then succeeded, the applied
      count covers them. */
  lemma NoLostWakeup(c: Config, t: State)
    requires Reachable(c, t) && t.pc.Waiting? && !t.trigger && t.pokes == 0
    ensures var i := t.chosen;
      && 0 <= i < |t.log| && t.log[i].Chose?
      && (forall k :: i < k < |t.log| ==> !t.log[k].Chose?)
      && t.log[i].queued == t.book.queued && t.log[i].inProgress == t.book.inProgress
    ensures CallsSucceeded(t) ==> t.applied >= Want(c.opts, t.book.queued, t.book.inProgress)
    ensures CallsSucceeded(t) && t.log[t.chosen].d.hold.Free?
            ==> t.applied == Want(c.opts, t.book.queued, t.book.inProgress)
    ensures CallsSucceeded(t) ==> CoversJobs(c, t, t.applied)
  {
    var s :| Init(c, s) && Leads(c, s, t);
    var es :| Exec(c, s, es) == Some(t);
    InitFlow(c, s);
    RunWake(c, s, es, t);
    SafeAt(c, t.log, t.chosen);
    WantInNumbers(c.opts, t.book.queued, t.book.inProgress);
  }

  /** In plain numbers: n replicas are enough for every tracked job, or as many as
      are allowed, and at least the minimum. */
  predicate CoversJobs(c: Config, s: State, n: int) {
    && (n >= |s.book.queued| + |s.book.inProgress| || n >= c.opts.maxRunners)
    && n >= c.opts.minReplicas
  }

  /** With an honest backend the pool itself, not only the cached count, covers
      the tracked jobs at such a moment. */
  lemma QuiescentPoolCoversDemand(c: Config, s: State, es: seq<Event>, t: State)
    requires Init(c, s) && Known(s) && Exec(c, s, es) == Some(t) && Honest(t.log)
    requires t.pc.Waiting? && !t.trigger && t.pokes == 0 && CallsSucceeded(t)
    ensures t.truth >= Want(c.opts, t.book.queued, t.book.inProgress) >= c.opts.minReplicas
    ensures CoversJobs(c, t, t.truth)
  {
    assert Reachable(c, t);
    NoLostWakeup(c, t);
    CachedCountAgrees(c, s, es, t);
  }

  // ------------------------------------------------------------------
  // Iterations end
  // ------------------------------------------------------------------

  /** A bound on the steps left in this iteration. */
  function StepsLeft(pc: Pc): nat {
    match pc
    case Recounting => 10
    case Observing => 9
    case ReadingCutoff => 8
    case Sweeping(_) => 7
    case Deciding => 6
    case Rereading(_) => 5
    case Checking(_) => 4
    case TearingDown(_) => 3
    case Restoring(_) => 2
    case Scaling(_) => 2
    case Scaled(_) | RestoreFailed(_) | Restored(_) => 1
    case Waiting | Stopped => 0
  }

  /** The number of reconciler steps in a run. */
  function ReconcilerSteps(es: seq<Event>): nat {
    if es == [] then 0
    else ReconcilerSteps(es[..|es| - 1]) + if ByReconciler(es[|es| - 1]) then 1 else 0
  }

  /** No wakeup, tick or cancellation among these events. */
  predicate OneIteration(es: seq<Event>) {
    forall i :: 0 <= i < |es| ==> !es[i].Wake? && !es[i].Tick? && !es[i].Cancel?
  }

  lemma StepCostsOne(c: Config, s: State, e: Event)
    requires Enabled(c, s, e) && !e.Wake? && !e.Tick? && !e.Cancel?
    ensures StepsLeft(Next(c, s, e).pc) + (if ByReconciler(e) then 1 else 0) <= StepsLeft(s.pc)
  {
  }

  /** However handlers interleave, an iteration takes at most ten steps. */
  lemma {:induction false} IterationEnds(c: Config, s: State, es: seq<Event>, t: State)
    requires Exec(c, s, es) == Some(t) && OneIteration(es)
    ensures ReconcilerSteps(es) + StepsLeft(t.pc) <= StepsLeft(s.pc) <= 10
  {
    if es != [] {
      var m, e := ExecLast(c, s, es, t);
      IterationEnds(c, s, es[..|es| - 1], m);
      assert e == es[|es| - 1];
      StepCostsOne(c, m, e);
    }
  }

  /** The reconciler is never stuck: until it stops it can take its next step,
      and a waiting reconciler with a pending trigger can wake. */
  lemma NeverStuck(c: Config, s: State) returns (e: Event)
    requires c.opts.Valid() && !s.pc.Stopped?
    ensures ByReconciler(e) && Enabled(c, s, e) && (e.Call? ==> e.ok)
    ensures e.Wake? || e.Tick? <==> s.pc.Waiting?
    ensures !e.Cancel?
    ensures s.pc.Waiting? ==> Next(c, s, e).pc.Recounting? && !Next(c, s, e).trigger && Next(c, s, e).pokes == s.pokes
    ensures s.pc.Waiting? && s.trigger ==> e == Wake
    ensures !s.pc.Waiting? ==> Next(c, s, e).trigger == s.trigger && Next(c, s, e).pokes == s.pokes
  {
    match s.pc
    case Recounting => e := Recount(None);
    case Observing => e := Observe(None);
    case ReadingCutoff => e := ReadCutoff(s.clock);
    case Sweeping(_) => e := Sweep;
    case Deciding => e := Choose(s.clock);
    case Rereading(_) => e := Reread;
    case Checking(_) => e := Check(s.clock, s.clock);
    case TearingDown(d) => e := Call(true, 0);
    case Restoring(d) => e := Call(true, d.desired);
    case Scaling(d) => e := Call(true, d.desired);
    case Scaled(_) => e := Commit(s.clock);
    case RestoreFailed(_) => e := Commit(s.clock);
    case Restored(_) => e := Commit(s.clock);
    case Waiting => e := if s.trigger then Wake else Tick;
  }

  /** Left alone, with every backend call succeeding, the reconciler finishes its
      iteration. */
  lemma FinishIteration(c: Config, s: State) returns (es: seq<Event>, t: State)
    requires c.opts.Valid() && !s.pc.Stopped?
    ensures Exec(c, s, es) == Some(t) && t.pc.Waiting?
    ensures OneIteration(es) && CallsOk(es)
    ensures forall i :: 0 <= i < |es| ==> ByReconciler(es[i])
    ensures t.trigger == s.trigger && t.pokes == s.pokes
    decreases StepsLeft(s.pc)
  {
    if s.pc.Waiting? {
      es, t := [], s;
    } else {
      var e := NeverStuck(c, s);
      StepCostsOne(c, s, e);
      var fs;
      fs, t := FinishIteration(c, Next(c, s, e));
      ExecCons(c, s, e, fs);
      es := [e] + fs;
    }
  }

  predicate CallsOk(es: seq<Event>) {
    forall i :: 0 <= i < |es| && es[i].Call? ==> es[i].ok
  }

  // ------------------------------------------------------------------
  // Events are soon seen
  // ------------------------------------------------------------------

  /** A bound on the reconciler's steps up to and including its next decision. */
  function UntilChoice(pc: Pc): nat {
    match pc
    case Rereading(_) => 11
    case Checking(_) => 10
    case TearingDown(_) => 9
    case Restoring(_) | Scaling(_) => 8
    case Scaled(_) | RestoreFailed(_) | Restored(_) => 7
    case Waiting => 6
    case Recounting => 5
    case Observing => 4
    case ReadingCutoff => 3
    case Sweeping(_) => 2
    case Deciding => 1
    case Stopped => 0
  }

  lemma StepTowardsChoice(c: Config, s: State, e: Event)
    requires Enabled(c, s, e) && !e.Choose? && !e.Cancel? && !s.pc.Stopped?
    ensures UntilChoice(Next(c, s, e).pc) + (if ByReconciler(e) then 1 else 0) <= UntilChoice(s.pc)
    ensures !Next(c, s, e).pc.Stopped?
  {
    if !ByReconciler(e) {
      OthersLeaveReconciler(c, s, e);
    }
  }

  lemma {:induction false} RunTowardsChoice(c: Config, s: State, es: seq<Event>, t: State)
    requires Exec(c, s, es) == Some(t) && !s.pc.Stopped?
    requires forall i :: 0 <= i < |es| ==> !es[i].Choose? && !es[i].Cancel?
    ensures ReconcilerSteps(es) + UntilChoice(t.pc) <= UntilChoice(s.pc) && !t.pc.Stopped?
  {
    if es != [] {
      var m, e := ExecLast(c, s, es, t);
      RunTowardsChoice(c, s, es[..|es| - 1], m);
      assert e == es[|es| - 1];
      StepTowardsChoice(c, m, e);
    }
  }

  /** The first decision in a run that is long enough to hold one. */
  lemma FirstChoice(c: Config, s: State, es: seq<Event>, t: State) returns (n: nat)
    requires Exec(c, s, es) == Some(t) && !s.pc.Stopped? && ReconcilerSteps(es) >= 11
    requires forall i :: 0 <= i < |es| ==> !es[i].Cancel?
    ensures n < |es| && es[n].Choose? && forall i :: 0 <= i < n ==> !es[i].Choose?
  {
    if forall i :: 0 <= i < |es| ==> !es[i].Choose? {
      RunTowardsChoice(c, s, es, t);
    }
    n := EarliestChoice(es);
  }

  lemma {:induction false} EarliestChoice(es: seq<Event>) returns (n: nat)
    requires exists i :: 0 <= i < |es| && es[i].Choose?
    ensures n < |es| && es[n].Choose? && forall i :: 0 <= i < n ==> !es[i].Choose?
  {
    n :| n < |es| && es[n].Choose?;
    if exists i :: 0 <= i < n && es[i].Choose? {
      n := EarliestChoice(es[..n]);
    }
  }

  /** Whatever handlers do and whatever fails, within eleven of its own steps an
      uncancelled reconciler makes a decision that sees everything that has happened
      by now: the maps it decides on are those of a moment m at or after s. */
  lemma EventsAreSoonSeen(c: Config, s: State, es: seq<Event>, t: State) returns (n: nat, m: State)
    requires Exec(c, s, es) == Some(t) && !s.pc.Stopped? && ReconcilerSteps(es) >= 11
    requires forall i :: 0 <= i < |es| ==> !es[i].Cancel?
    ensures n < |es| && es[n].Choose? && ReconcilerSteps(es[..n]) <= 10
    ensures Exec(c, s, es[..n]) == Some(m) && |s.log| <= |m.log| < |t.log|
    ensures t.log[|m.log|].Chose?
    ensures t.log[|m.log|].queued == m.book.queued && t.log[|m.log|].inProgress == m.book.inProgress
  {
    n := FirstChoice(c, s, es, t);
    m := ExecThrough(c, s, es, n, t);
    SoonEnough(c, s, es[..n], m);
    ChoiceIsNoted(c, m, es[n], t.log);
  }

  lemma SoonEnough(c: Config, s: State, es: seq<Event>, m: State)
    requires Exec(c, s, es) == Some(m) && m.pc.Deciding? && !s.pc.Stopped?
    requires forall i :: 0 <= i < |es| ==> !es[i].Choose? && !es[i].Cancel?
    ensures ReconcilerSteps(es) <= 10 && |s.log| <= |m.log|
  {
    RunTowardsChoice(c, s, es, m);
    RunKeepsLog(c, s, es, m);
  }

  lemma ChoiceIsNoted(c: Config, s: State, e: Event, log: seq<Record>)
    requires Enabled(c, s, e) && e.Choose? && Next(c, s, e).log <= log
    ensures s.pc.Deciding? && |s.log| < |log| && log[|s.log|].Chose?
    ensures log[|s.log|].queued == s.book.queued && log[|s.log|].inProgress == s.book.inProgress
  {
    assert Next(c, s, e).log[|s.log|].Chose?;
  }

  // ------------------------------------------------------------------
  // Failures are made good
  // ------------------------------------------------------------------

  /** Past its decision, an iteration has had no failed call. */
  ghost predicate CleanInv(s: State) {
    PastDecision(s.pc) ==> CallsSucceeded(s)
  }

  lemma StepClean(c: Config, s: State, e: Event)
    requires Enabled(c, s, e) && ChosenInv(s) && CleanInv(s) && (e.Call? ==> e.ok)
    ensures CleanInv(Next(c, s, e))
  {
  }

  lemma {:induction false} RunClean(c: Config, s: State, es: seq<Event>, t: State)
    requires Exec(c, s, es) == Some(t) && FlowInv(c, s) && CleanInv(s) && CallsOk(es)
    ensures FlowInv(c, t) && CleanInv(t)
  {
    if es != [] {
      var m, e := ExecLast(c, s, es, t);
      RunClean(c, s, es[..|es| - 1], m);
      StepFlow(c, m, e);
      StepClean(c, m, e);
    }
  }

  /** Lets every handler that is between its unlock and its poke finish. */
  lemma FlushPokes(c: Config, s: State) returns (es: seq<Event>, t: State)
    requires c.opts.Valid()
    ensures Exec(c, s, es) == Some(t) && t.pokes == 0 && t.pc == s.pc
    ensures forall i :: 0 <= i < |es| ==> es[i] == Poke
    decreases s.pokes
  {
    if s.pokes == 0 {
      es, t := [], s;
    } else {
      var fs;
      fs, t := FlushPokes(c, Next(c, s, Poke));
      ExecCons(c, s, Poke, fs);
      es := [Poke] + fs;
    }
  }

  lemma ReachableOnward(c: Config, s: State, es: seq<Event>, t: State)
    requires Reachable(c, s) && Exec(c, s, es) == Some(t)
    ensures Reachable(c, t)
  {
    var r :| Init(c, r) && Leads(c, r, s);
    var fs :| Exec(c, r, fs) == Some(s);
    ExecConcat(c, r, fs, s, es);
    assert Leads(c, r, t);
  }

  /** Whatever failed before: an iteration that has yet to decide, and whose calls
      then succeed, ends with an applied count that covers the tracked jobs,
      unless handlers leave more to do. This holds for every such iteration, and
      for every run of several whose calls succeed. */
  lemma SucceedingIterationsCover(c: Config, s: State, es: seq<Event>, t: State)
    requires Reachable(c, s) && !PastDecision(s.pc)
    requires Exec(c, s, es) == Some(t) && CallsOk(es)
    requires t.pc.Waiting? && !t.trigger && t.pokes == 0
    ensures t.applied >= Want(c.opts, t.book.queued, t.book.inProgress) && CoversJobs(c, t, t.applied)
    ensures 0 <= t.chosen < |t.log| && t.log[t.chosen].Chose?
    ensures t.log[t.chosen].d.hold.Free? ==> t.applied == Want(c.opts, t.book.queued, t.book.inProgress)
  {
    ReachableFlow(c, s);
    RunClean(c, s, es, t);
    ReachableOnward(c, s, es, t);
    NoLostWakeup(c, t);
  }

  /** And there is such a run, from any reachable state: the rest of this iteration,
      the pending pokes, and one more iteration, all with succeeding calls and no
      news. */
  lemma FailuresAreMadeGood(c: Config, s: State)
    returns (rest: seq<Event>, pokes: seq<Event>, wake: Event, more: seq<Event>, t: State)
    requires Reachable(c, s) && !s.pc.Stopped?
    ensures OneIteration(rest) && OneIteration(more) && CallsOk(rest) && CallsOk(more)
    ensures forall i :: 0 <= i < |rest| ==> ByReconciler(rest[i])
    ensures forall i :: 0 <= i < |pokes| ==> pokes[i] == Poke
    ensures wake.Wake? || wake.Tick?
    ensures forall i :: 0 <= i < |more| ==> ByReconciler(more[i])
    ensures Exec(c, s, rest + pokes + [wake] + more) == Some(t) && t.pc.Waiting? && !t.trigger && t.pokes == 0
    ensures t.applied >= Want(c.opts, t.book.queued, t.book.inProgress) && CoversJobs(c, t, t.applied)
  {
    var m, w;
    rest, m := FinishIteration(c, s);
    pokes, w := FlushPokes(c, m);
    ExecConcat(c, s, rest, m, pokes);
    wake := NeverStuck(c, w);
    ExecSnoc(c, s, rest + pokes, w, wake);
    var r := Next(c, w, wake);
    more, t := FinishIteration(c, r);
    ExecConcat(c, s, rest + pokes + [wake], r, more);
    ReachableOnward(c, s, rest + pokes + [wake], r);
    SucceedingIterationsCover(c, r, more, t);
  }
}
