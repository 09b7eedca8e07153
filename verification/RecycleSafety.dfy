/** When a pool is torn down, and how often. */
module RecycleSafety {
  import opened Seqs
  import opened Scaler
  import opened Machine
  import opened Flow

  /** Some observation no later than t found replicas but no live runner, and so
      did every successful observation after it. */
  ghost predicate OutageSince(log: seq<Record>, t: int) {
    exists i :: 0 <= i < |log| && OutageFrom(log, i) && log[i].time <= t
  }

  ghost predicate OutageFrom(log: seq<Record>, i: int)
    requires 0 <= i < |log|
  {
    && log[i].Looked?
    && forall k :: i <= k < |log| && log[k].Looked? ==> log[k].live == 0 && log[k].applied > 0
  }

  lemma OutageAppend(log: seq<Record>, r: Record, t: int)
    requires OutageSince(log, t)
    requires r.Looked? ==> r.live == 0 && r.applied > 0
    ensures OutageSince(log + [r], t)
  {
    var i :| 0 <= i < |log| && OutageFrom(log, i) && log[i].time <= t;
    assert OutageFrom(log + [r], i);
  }

  /** No recycle completed later than t. */
  ghost predicate RecycledBy(log: seq<Record>, t: int) {
    forall k :: 0 <= k < |log| && log[k].Recycled? ==> log[k].time <= t
  }

  /** No call made while no outage was on record is later than t. */
  ghost predicate ScaledBy(log: seq<Record>, t: int) {
    forall k :: 0 <= k < |log| && log[k].Called? && log[k].missing.None? ==> log[k].time <= t
  }

  ghost predicate JustifiedStart(c: Config, before: seq<Record>, r: Record)
    requires r.RecycleStarted?
  {
    && c.observed && c.opts.runnerGrace > 0
    && OutageSince(before, r.time - c.opts.runnerGrace)
    && r.time - c.startedAt >= c.opts.startupGrace
    && RecycledBy(before, r.time - c.opts.runnerGrace)
    && ScaledBy(before, r.time - c.opts.runnerGrace)
  }

  ghost predicate JustifiedLog(c: Config, log: seq<Record>) {
    log == [] ||
    (var n := |log| - 1;
     JustifiedLog(c, log[..n]) && (log[n].RecycleStarted? ==> JustifiedStart(c, log[..n], log[n])))
  }

  lemma JustifiedAppend(c: Config, log: seq<Record>, r: Record)
    requires JustifiedLog(c, log) && (r.RecycleStarted? ==> JustifiedStart(c, log, r))
    ensures JustifiedLog(c, log + [r])
  {
    assert (log + [r])[..|log + [r]| - 1] == log;
  }

  lemma {:induction false} JustifiedAt(c: Config, log: seq<Record>, j: nat)
    requires JustifiedLog(c, log) && j < |log| && log[j].RecycleStarted?
    ensures JustifiedStart(c, log[..j], log[j])
  {
    if j < |log| - 1 {
      JustifiedAt(c, log[..|log| - 1], j);
      assert log[..|log| - 1][..j] == log[..j];
    }
  }

  predicate Recycling(pc: Pc) {
    pc.TearingDown? || pc.Restoring? || pc.RestoreFailed? || pc.Restored?
  }

  ghost predicate OutageInv(c: Config, s: State) {
    && RecycledBy(s.log, s.clock) && ScaledBy(s.log, s.clock)
    && (Recycling(s.pc) ==> s.missing.Some?)
    && (s.missing.Some? ==>
          && c.observed
          && s.live == 0
          && s.missing.value <= s.clock
          && OutageSince(s.log, s.missing.value)
          && RecycledBy(s.log, s.missing.value)
          && ScaledBy(s.log, s.missing.value))
    && JustifiedLog(c, s.log)
  }

  lemma OutageWeaken(log: seq<Record>, t: int, u: int)
    requires OutageSince(log, t) && t <= u
    ensures OutageSince(log, u)
  {
    var i :| 0 <= i < |log| && OutageFrom(log, i) && log[i].time <= t;
    assert log[i].time <= u;
  }

  /** A look starts, prolongs or ends an outage. */
  lemma LookedOutage(c: Config, s: State, t: State, r: Record)
    requires OutageInv(c, s) && t.log == s.log + [r] && r.Looked? && c.observed
    requires t.live == r.live && t.clock == r.time >= s.clock && !Recycling(t.pc)
    requires t.missing == MissingSince(s.missing, r.applied, r.live, r.time)
    ensures OutageInv(c, t)
  {
    JustifiedAppend(c, s.log, r);
    if t.missing.Some? {
      if s.missing.Some? {
        OutageAppend(s.log, r, s.missing.value);
      } else {
        assert OutageFrom(t.log, |s.log|);
      }
    }
  }

  lemma StepLooked(c: Config, s: State, o: Observation)
    requires c.opts.Valid() && s.pc.Observing? && CanObserve(c, s, o) && BookInv(c, s) && OutageInv(c, s)
    ensures OutageInv(c, Absorb(c, s, o))
  {
    ObservedBook(c, s, o);
    LookedOutage(c, s, Absorb(c, s, o), Absorb(c, s, o).log[|s.log|]);
  }

  /** A recycle that is due starts justified. */
  lemma StartedOutage(c: Config, s: State, t: State, r: Record)
    requires OutageInv(c, s) && t.log == s.log + [r] && r.RecycleStarted? && JustifiedStart(c, s.log, r)
    requires t.missing == s.missing && t.missing.Some? && t.live == s.live && s.clock <= t.clock
    ensures OutageInv(c, t)
  {
    JustifiedAppend(c, s.log, r);
    OutageAppend(s.log, r, s.missing.value);
  }

  lemma StepStarted(c: Config, s: State, now1: int, now2: int)
    requires Enabled(c, s, Check(now1, now2)) && OutageInv(c, s)
    ensures OutageInv(c, Next(c, s, Check(now1, now2)))
  {
    if RecycleDue(c.opts, c.observed, s.applied, s.live, s.missing, c.startedAt, now1, now2) {
      DueIsJustified(c, s, now1, now2);
      StartedOutage(c, s, Next(c, s, Check(now1, now2)), RecycleStarted(now2));
    }
  }

  lemma DueIsJustified(c: Config, s: State, now1: int, now2: int)
    requires OutageInv(c, s) && now1 <= now2
    requires RecycleDue(c.opts, c.observed, s.applied, s.live, s.missing, c.startedAt, now1, now2)
    ensures JustifiedStart(c, s.log, RecycleStarted(now2))
  {
    OutageWeaken(s.log, s.missing.value, now2 - c.opts.runnerGrace);
  }

  lemma StepRestored(c: Config, s: State, now: int)
    requires Enabled(c, s, Commit(now)) && OutageInv(c, s) && s.pc.Restored?
    ensures OutageInv(c, Next(c, s, Commit(now)))
  {
    JustifiedAppend(c, s.log, Recycled(now));
    OutageAppend(s.log, Recycled(now), s.missing.value);
    OutageWeaken(s.log + [Recycled(now)], s.missing.value, now);
  }

  /** Any other step leaves the outage alone and adds an entry that is neither an
      observation nor a recycle, if it adds one. */
  lemma StepAside(c: Config, s: State, t: State, r: Record)
    requires OutageInv(c, s)
    requires t.log == s.log + [r] && !r.Looked? && !r.RecycleStarted? && !r.Recycled?
    requires t.missing == s.missing && t.live == s.live && s.clock <= t.clock
    requires Recycling(t.pc) ==> Recycling(s.pc)
    requires r.Called? ==> r.time == s.clock && r.missing == s.missing
    ensures OutageInv(c, t)
  {
    JustifiedAppend(c, s.log, r);
    if s.missing.Some? {
      OutageAppend(s.log, r, s.missing.value);
    }
  }

  /** Observations, and what a recycle notes. */
  predicate ConcernsOutage(s: State, e: Event) {
    (e.Observe? && e.seen.Some?) || e.Check? || (e.Commit? && s.pc.Restored?)
  }

  lemma OthersLeaveOutage(c: Config, s: State, e: Event)
    requires Enabled(c, s, e) && !ConcernsOutage(s, e)
    ensures var t := Next(c, s, e);
      && t.missing == s.missing && t.live == s.live
      && (Recycling(t.pc) ==> Recycling(s.pc))
      && forall k :: |s.log| <= k < |t.log| ==>
           && !t.log[k].Looked? && !t.log[k].RecycleStarted? && !t.log[k].Recycled?
           && (t.log[k].Called? ==> t.log[k].time == s.clock && t.log[k].missing == s.missing)
  {
  }

  lemma StepOutage(c: Config, s: State, e: Event)
    requires Enabled(c, s, e) && BookInv(c, s) && OutageInv(c, s)
    ensures OutageInv(c, Next(c, s, e))
  {
    if e.Observe? && e.seen.Some? {
      StepLooked(c, s, e.seen.value);
    } else if e.Check? {
      StepStarted(c, s, e.now1, e.now2);
    } else if e.Commit? && s.pc.Restored? {
      StepRestored(c, s, e.now);
    } else {
      StepOther(c, s, e);
    }
  }

  lemma StepOther(c: Config, s: State, e: Event)
    requires Enabled(c, s, e) && BookInv(c, s) && OutageInv(c, s) && !ConcernsOutage(s, e)
    ensures OutageInv(c, Next(c, s, e))
  {
    var t := Next(c, s, e);
    StepBook(c, s, e);
    OthersLeaveOutage(c, s, e);
    if t.log != s.log {
      StepKeepsLog(c, s, e);
      assert t.log == s.log + [t.log[|s.log|]];
      StepAside(c, s, t, t.log[|s.log|]);
    }
  }

  lemma {:induction false} RunOutage(c: Config, s: State, es: seq<Event>, t: State)
    requires Exec(c, s, es) == Some(t) && BookInv(c, s) && OutageInv(c, s)
    ensures OutageInv(c, t)
  {
    if es != [] {
      var m, e := ExecLast(c, s, es, t);
      RunOutage(c, s, es[..|es| - 1], m);
      RunBook(c, s, es[..|es| - 1], m);
      StepOutage(c, m, e);
    }
  }

  lemma ReachableOutage(c: Config, t: State)
    requires Reachable(c, t)
    ensures OutageInv(c, t)
  {
    var s :| Init(c, s) && Leads(c, s, t);
    var es :| Exec(c, s, es) == Some(t);
    InitBook(c, s);
    RunOutage(c, s, es, t);
  }

  /** While an outage is on record, the last observation found no live runner, and
      every successful observation since it began found replicas without one. */
  lemma MissingMeansNoLiveRunner(c: Config, t: State)
    requires Reachable(c, t) && t.missing.Some?
    ensures t.live == 0 && t.missing.value <= t.clock
    ensures OutageSince(t.log, t.missing.value)
  {
    ReachableOutage(c, t);
  }

  /** A recycle starts only after RunnerGrace of unbroken evidence and after
      StartupGrace, and at least RunnerGrace after any completed recycle, whether
      or not observations succeeded in between. */
  lemma RecyclesAreJustifiedAndSpaced(c: Config, t: State, j: nat)
    requires Reachable(c, t) && j < |t.log| && t.log[j].RecycleStarted?
    ensures exists i :: 0 <= i < j && t.log[i].Looked?
              && t.log[j].time - t.log[i].time >= c.opts.runnerGrace
              && (forall k :: i <= k < j && t.log[k].Looked? ==> t.log[k].live == 0 && t.log[k].applied > 0)
    ensures t.log[j].time - c.startedAt >= c.opts.startupGrace
    ensures forall k :: 0 <= k < j && t.log[k].Recycled? ==> t.log[j].time - t.log[k].time >= c.opts.runnerGrace
  {
    ReachableOutage(c, t);
    JustifiedAt(c, t.log, j);
    var b := t.log[..j];
    var i :| 0 <= i < |b| && OutageFrom(b, i) && b[i].time <= t.log[j].time - c.opts.runnerGrace;
    assert b[i] == t.log[i];
    forall k | i <= k < j && t.log[k].Looked? ensures t.log[k].live == 0 && t.log[k].applied > 0 {
      assert b[k] == t.log[k];
    }
    forall k | 0 <= k < j && t.log[k].Recycled?
      ensures t.log[j].time - t.log[k].time >= c.opts.runnerGrace
    {
      assert b[k] == t.log[k];
    }
  }

  // ------------------------------------------------------------------
  // Time to boot
  // ------------------------------------------------------------------

  /** Replicas asked for while no outage was on record get RunnerGrace to boot
      before any recycle. */
  lemma FreshReplicasGetGrace(c: Config, t: State, k: nat, j: nat)
    requires Reachable(c, t) && k < j < |t.log|
    requires t.log[k].Called? && t.log[k].missing.None? && t.log[j].RecycleStarted?
    ensures t.log[j].time - t.log[k].time >= c.opts.runnerGrace
  {
    ReachableOutage(c, t);
    JustifiedAt(c, t.log, j);
    assert t.log[..j][k] == t.log[k];
  }
}
