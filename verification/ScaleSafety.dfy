/** Shrinks are gated, and the cached replica count is the real one. */
module ScaleSafety {
  import opened Seqs
  import opened Machine
  import opened Flow

  /** The call at j goes back to the latest decision, at which no job ran, no job
      activity had been recorded within IdleCooldown, and StartupGrace was over. The
      cached count did not move in between, and every job running at the call was
      recorded after the decision. */
  ghost predicate Gated(c: Config, log: seq<Record>, j: nat)
    requires j < |log| && log[j].Called?
  {
    var i := log[j].decidedAt;
    && 0 <= i < j && log[i].Chose?
    && (forall k :: i < k < j ==> !log[k].Chose?)
    && log[i].applied == log[j].applied
    && log[i].inProgress == map[]
    && (forall k :: 0 <= k < i && log[k].Heard? ==> log[i].time - log[k].time >= c.opts.idleCooldown)
    && (forall k :: 0 <= k < i && log[k].Looked? && log[k].found.Some? ==>
          log[i].time - log[k].found.value >= c.opts.idleCooldown)
    && log[i].time - c.startedAt >= c.opts.startupGrace
    && (forall id :: id in log[j].inProgress ==> log[j].inProgress[id] >= log[i].time)
  }

  /** Every scaling call that lowers a known count has passed every gate. */
  lemma ShrinkIsGated(c: Config, t: State, j: nat)
    requires Reachable(c, t) && j < |t.log| && t.log[j].Called?
    requires t.log[j].purpose == ToScale && 0 <= t.log[j].arg < t.log[j].applied
    ensures Gated(c, t.log, j)
  {
    ReachableFlow(c, t);
    SafeAt(c, t.log, j);
    var i := t.log[j].decidedAt;
    assert t.log[..j][i] == t.log[i];
    SafeAt(c, t.log, i);
    forall k | i < k < j ensures !t.log[k].Chose? {
      assert t.log[..j][k] == t.log[k];
    }
    forall k | 0 <= k < i
      ensures t.log[k].Heard? ==> t.log[i].time - t.log[k].time >= c.opts.idleCooldown
      ensures t.log[k].Looked? && t.log[k].found.Some? ==>
                t.log[i].time - t.log[k].found.value >= c.opts.idleCooldown
    {
      assert t.log[..i][k] == t.log[k];
    }
  }

  /** Every argument lies in [MinReplicas, MaxRunners], save the zero a recycle
      passes through. */
  lemma ArgumentsInRange(c: Config, t: State, j: nat)
    requires Reachable(c, t) && j < |t.log| && t.log[j].Called?
    ensures if t.log[j].purpose == ToTearDown then t.log[j].arg == 0
            else c.opts.minReplicas <= t.log[j].arg <= c.opts.maxRunners
  {
    ReachableFlow(c, t);
    SafeAt(c, t.log, j);
    var i := t.log[j].decidedAt;
    assert t.log[..j][i] == t.log[i];
    SafeAt(c, t.log, i);
  }

  // ------------------------------------------------------------------
  // The cached count
  // ------------------------------------------------------------------

  predicate Known(s: State) {
    s.applied == -1 || s.applied == s.truth
  }

  /** What the true count is while a call's outcome has not been recorded yet. */
  predicate AgreesAt(s: State) {
    match s.pc
    case Scaled(d) => s.truth == d.desired
    case Restoring(_) => s.truth == 0
    case RestoreFailed(_) => s.truth == 0
    case Restored(d) => s.truth == d.desired
    case _ => Known(s)
  }

  /** From position n on, calls change the count the way the reconciler believes. */
  ghost predicate Conserves(log: seq<Record>, n: nat) {
    forall j :: n <= j < |log| && log[j].Called? ==>
      if log[j].purpose == ToRestore then log[j].before == 0
      else log[j].applied == -1 || log[j].before == log[j].applied
  }

  ghost predicate CountInv(s: State, n: nat) {
    && n <= |s.log|
    && (FairFrom(s.log, n, false) ==> AgreesAt(s) && Conserves(s.log, n) && s.applied >= -1)
  }

  lemma FairBefore(c: Config, s: State, e: Event, n: nat)
    requires Enabled(c, s, e) && FairFrom(Next(c, s, e).log, n, false)
    ensures FairFrom(s.log, n, false)
  {
    StepKeepsLog(c, s, e);
    forall i | n <= i < |s.log| ensures s.log[i] == Next(c, s, e).log[i] {
    }
  }

  lemma CallAgrees(c: Config, s: State, e: Event, n: nat)
    requires n <= |s.log| && Enabled(c, s, e) && FlowInv(c, s) && e.Call?
    requires FairFrom(Next(c, s, e).log, n, false) && AgreesAt(s) && Conserves(s.log, n) && s.applied >= -1
    ensures AgreesAt(Next(c, s, e)) && Conserves(Next(c, s, e).log, n)
  {
    var t := Next(c, s, e);
    assert t.log == s.log + [t.log[|s.log|]];
    assert t.log[|s.log|].Called?;
  }

  lemma CommitAgrees(c: Config, s: State, e: Event, n: nat)
    requires n <= |s.log| && Enabled(c, s, e) && FlowInv(c, s) && e.Commit?
    requires AgreesAt(s) && Conserves(s.log, n) && s.applied >= -1
    ensures AgreesAt(Next(c, s, e)) && Conserves(Next(c, s, e).log, n) && Next(c, s, e).applied >= -1
  {
    SafeAt(c, s.log, s.chosen);
  }

  /** Conservation concerns calls only. */
  lemma ConservesAppend(log: seq<Record>, r: Record, n: nat)
    requires Conserves(log, n) && !r.Called?
    ensures Conserves(log + [r], n)
  {
  }

  lemma OthersConserve(c: Config, s: State, e: Event, n: nat)
    requires n <= |s.log| && Enabled(c, s, e) && Conserves(s.log, n) && !e.Call?
    ensures Conserves(Next(c, s, e).log, n)
  {
    var t := Next(c, s, e);
    if t.log != s.log {
      StepKeepsLog(c, s, e);
      var r := t.log[|s.log|];
      assert t.log == s.log + [r];
      if e.Choose? {
        assert r.Chose?;
      } else {
        OtherNotesAreFree(c, s, e);
      }
      ConservesAppend(s.log, r, n);
    }
  }

  lemma DriftIsDishonest(c: Config, s: State, e: Event, n: nat)
    requires Enabled(c, s, e) && e.Drift? && n <= |s.log|
    ensures !FairFrom(Next(c, s, e).log, n, false)
  {
    assert Next(c, s, e).log[|s.log|].Drifted?;
  }

  /** Steps other than calls and commits leave the count known or unknown as it was. */
  lemma OthersAgree(c: Config, s: State, e: Event, n: nat)
    requires n <= |s.log| && Enabled(c, s, e) && !e.Call? && !e.Commit? && !e.Drift?
    requires FairFrom(Next(c, s, e).log, n, false) && AgreesAt(s) && s.applied >= -1
    ensures AgreesAt(Next(c, s, e)) && Next(c, s, e).applied >= -1
  {
    if e.Recount? && e.count.Some? {
      assert Next(c, s, e).log[|s.log|].Counted?;
    }
  }

  lemma StepCount(c: Config, s: State, e: Event, n: nat)
    requires Enabled(c, s, e) && FlowInv(c, s) && CountInv(s, n)
    ensures CountInv(Next(c, s, e), n)
  {
    if e.Drift? {
      DriftIsDishonest(c, s, e, n);
    } else if FairFrom(Next(c, s, e).log, n, false) {
      FairBefore(c, s, e, n);
      if e.Call? {
        CallAgrees(c, s, e, n);
      } else if e.Commit? {
        CommitAgrees(c, s, e, n);
      } else {
        OthersAgree(c, s, e, n);
      }
      if !e.Call? {
        OthersConserve(c, s, e, n);
      }
    }
  }

  lemma {:induction false} RunCount(c: Config, s: State, es: seq<Event>, t: State, n: nat)
    requires Exec(c, s, es) == Some(t) && FlowInv(c, s) && CountInv(s, n)
    ensures FlowInv(c, t) && CountInv(t, n)
  {
    if es != [] {
      var m, e := ExecLast(c, s, es, t);
      RunCount(c, s, es[..|es| - 1], m, n);
      StepFlow(c, m, e);
      StepCount(c, m, e, n);
    }
  }

  /** The reconciler is between a backend call and recording its outcome, or
      inside a recycle. */
  predicate InCall(pc: Pc) {
    pc.Scaled? || pc.Restoring? || pc.RestoreFailed? || pc.Restored?
  }

  /** Over an honest backend, from a baseline that is unknown or correct, the
      cached count is unknown or correct whenever no call's outcome is pending;
      inside a recycle the true count is zero until the restore succeeds, so both
      ways a recycle can fail leave the two in agreement. */
  lemma CachedCountAgrees(c: Config, s: State, es: seq<Event>, t: State)
    requires Init(c, s) && Known(s) && Exec(c, s, es) == Some(t) && Honest(t.log)
    ensures !InCall(t.pc) ==> t.applied == -1 || t.applied == t.truth
    ensures t.pc.Scaled? || t.pc.Restored? ==> t.truth == t.pc.d.desired
    ensures t.pc.Restoring? || t.pc.RestoreFailed? ==> t.truth == 0
  {
    InitFlow(c, s);
    RunCount(c, s, es, t, 0);
  }

  /** A truthful recount makes the cached count right again, whatever happened. */
  lemma RecountCorrects(c: Config, s: State, n: int)
    requires Enabled(c, s, Recount(Some(n))) && n == s.truth
    ensures Next(c, s, Recount(Some(n))).applied == Next(c, s, Recount(Some(n))).truth == n >= 0
  {
  }

  /** And from any moment at which it is right, it stays right for as long as the
      backend is honest. */
  lemma CountStaysRight(c: Config, s: State, es: seq<Event>, t: State)
    requires Reachable(c, s) && !InCall(s.pc) && Known(s) && s.applied >= -1
    requires Exec(c, s, es) == Some(t) && FairFrom(t.log, |s.log|, false)
    ensures !InCall(t.pc) ==> Known(t)
    ensures t.pc.Scaled? || t.pc.Restored? ==> t.truth == t.pc.d.desired
    ensures t.pc.Restoring? || t.pc.RestoreFailed? ==> t.truth == 0
  {
    ReachableFlow(c, s);
    RunCount(c, s, es, t, |s.log|);
  }

  /** Once the count is known, the true count goes down only by a shrink that
      passed every gate or by the zero step of a recycle. */
  lemma DecreasesAreGated(c: Config, s: State, es: seq<Event>, t: State, j: nat)
    requires Init(c, s) && Known(s) && Exec(c, s, es) == Some(t) && Honest(t.log)
    requires j < |t.log| && t.log[j].Called? && t.log[j].after < t.log[j].before && t.log[j].applied != -1
    ensures t.log[j].before == t.log[j].applied
    ensures t.log[j].purpose == ToTearDown ||
            (t.log[j].purpose == ToScale && 0 <= t.log[j].arg < t.log[j].applied)
  {
    InitFlow(c, s);
    RunCount(c, s, es, t, 0);
    assert Reachable(c, t);
    ArgumentsInRange(c, t, j);
  }

  // ------------------------------------------------------------------
  // An unknown count
  // ------------------------------------------------------------------

  /** Over an honest backend, a scaling call that lowers the true count has passed
      every gate unless the cached count was unknown. */
  lemma LoweringIsGatedUnlessUnknown(c: Config, s: State, es: seq<Event>, t: State, j: nat)
    requires Init(c, s) && Known(s) && Exec(c, s, es) == Some(t) && Honest(t.log)
    requires j < |t.log| && t.log[j].Called? && t.log[j].purpose == ToScale && t.log[j].after < t.log[j].before
    ensures t.log[j].applied == -1 || Gated(c, t.log, j)
  {
    assert Reachable(c, t);
    if t.log[j].applied != -1 {
      DecreasesAreGated(c, s, es, t, j);
      ShrinkIsGated(c, t, j);
    }
  }
}
