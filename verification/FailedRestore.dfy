/** What a scaling call can count on, and what it can count on after a recycle whose
    restore failed. */
module FailedRestore {
  import opened Seqs
  import opened Bounded
  import opened Scaler
  import opened Machine
  import opened Flow
  import opened Wakeups
  import opened RecycleSafety
  import opened Repair
  import opened BootGrace
  import opened Drive

  // ------------------------------------------------------------------
  // After any scaling call
  // ------------------------------------------------------------------

  /** For every succeeding scaling call of every run: the replicas it asked for get
      RunnerGrace exactly when no outage from before the call is on record, or
      enough of StartupGrace is left. */
  lemma GraceAfterCall(c: Config, s: State, e: Event)
    requires Reachable(c, s) && s.pc.Scaling? && Enabled(c, s, e) && e.Call? && e.ok
    ensures GraceHonoured(c, Next(c, s, e)) <==> NoOldOutage(c, s)
    ensures FairGrace(c, Next(c, s, e), false) <==> NoOldOutage(c, s)
  {
    var w := Next(c, s, e);
    var f := Commit(w.clock);
    var t := Next(c, w, f);
    ReachableFlow(c, s);
    StepFlow(c, s, e);
    CommitInRange(c, s, e);
    ExecOne(c, s, e);
    ReachableOnward(c, s, [e], w);
    ExecOne(c, w, f);
    ReachableOnward(c, w, [f], t);
    GraceExactlyWhenOutageIsRecent(c, t);
    if NoOldOutage(c, s) {
      GraceIsKept(c, w);
    } else {
      BrokenBefore(c, w, f);
    }
  }

  /** What breaks the grace after a step that takes no time and notes nothing breaks
      it before. */
  lemma BrokenBefore(c: Config, s: State, e: Event)
    requires Enabled(c, s, e) && Next(c, s, e).log == s.log && Next(c, s, e).clock == s.clock
    requires !FairGrace(c, Next(c, s, e), false)
    ensures !FairGrace(c, s, false) && !GraceHonoured(c, s)
  {
    var t := Next(c, s, e);
    var es, j: nat :| TooSoon(c, t, es, j) && FairFrom(Exec(c, t, es).value.log, |t.log|, false);
    ExecCons(c, s, e, es);
    assert TooSoon(c, s, [e] + es, j);
  }

  lemma CommitInRange(c: Config, s: State, e: Event)
    requires Reachable(c, s) && s.pc.Scaling? && Enabled(c, s, e) && e.Call? && e.ok
    ensures var w := Next(c, s, e);
      && Enabled(c, w, Commit(w.clock))
      && var t := Next(c, w, Commit(w.clock));
      && t.pc.Waiting? && t.applied <= c.opts.maxRunners && t.log == w.log
      && t.clock == w.clock == s.clock && t.missing == w.missing == s.missing
  {
    ReachableFlow(c, s);
    SafeAt(c, s.log, s.chosen);
    HeldExactly(c.opts, s.book, s.applied, c.startedAt, s.clock);
  }

  // ------------------------------------------------------------------
  // After a failed restore
  // ------------------------------------------------------------------

  /** A recycle in progress is for an outage from at least RunnerGrace ago. */
  predicate RecyclingInv(c: Config, s: State) {
    Recycling(s.pc) ==>
      && c.opts.runnerGrace > 0 && s.missing.Some?
      && s.clock - s.missing.value >= c.opts.runnerGrace
      && s.clock - c.startedAt >= c.opts.startupGrace
  }

  lemma StepRecycling(c: Config, s: State, e: Event)
    requires Enabled(c, s, e) && BookInv(c, s) && RecyclingInv(c, s)
    ensures RecyclingInv(c, Next(c, s, e))
  {
    StepBook(c, s, e);
    if !ConcernsOutage(s, e) {
      OthersLeaveOutage(c, s, e);
    }
  }

  lemma {:induction false} RunRecycling(c: Config, s: State, es: seq<Event>, t: State)
    requires Exec(c, s, es) == Some(t) && BookInv(c, s) && RecyclingInv(c, s)
    ensures RecyclingInv(c, t)
  {
    if es != [] {
      var m, e := ExecLast(c, s, es, t);
      RunRecycling(c, s, es[..|es| - 1], m);
      RunBook(c, s, es[..|es| - 1], m);
      StepRecycling(c, m, e);
    }
  }

  lemma ReachableRecycling(c: Config, s: State)
    requires Reachable(c, s)
    ensures RecyclingInv(c, s)
  {
    var r :| Init(c, r) && Leads(c, r, s);
    var es :| Exec(c, r, es) == Some(s);
    InitBook(c, r);
    RunRecycling(c, r, es, s);
  }

  /** An observation has succeeded since position n. */
  predicate LookedSince(log: seq<Record>, n: nat) {
    exists k :: n <= k < |log| && log[k].Looked?
  }

  /** No call has succeeded since. */
  predicate NoneRaised(log: seq<Record>, n: nat) {
    forall k :: n <= k < |log| && log[k].Called? ==> !log[k].ok
  }

  /** Until a call succeeds the pool stays at zero, and an observation clears the
      outage: with no replicas on record there is nothing to miss. */
  predicate AtZero(s: State, n: nat, missing: Option<int>) {
    && n <= |s.log|
    && (s.pc.RestoreFailed? || s.applied == 0)
    && !(s.pc.TearingDown? || s.pc.Restoring? || s.pc.Restored? || s.pc.Scaled?)
    && (s.pc.RestoreFailed? ==> !LookedSince(s.log, n))
    && s.missing == if LookedSince(s.log, n) then None else missing
  }

  lemma LookedSinceAppend(log: seq<Record>, r: Record, n: nat)
    requires n <= |log|
    ensures LookedSince(log + [r], n) <==> LookedSince(log, n) || r.Looked?
  {
    var more := log + [r];
    if r.Looked? {
      assert more[|log|].Looked?;
    }
    if k :| n <= k < |log| && log[k].Looked? {
      assert more[k].Looked?;
    }
    if k :| n <= k < |more| && more[k].Looked? {
      assert k < |log| ==> log[k].Looked?;
    }
  }

  lemma ObservedAtZero(c: Config, s: State, o: Observation, n: nat, missing: Option<int>)
    requires c.opts.Valid() && s.pc.Observing? && CanObserve(c, s, o) && AtZero(s, n, missing)
    ensures AtZero(Absorb(c, s, o), n, missing)
  {
    LookedSinceAppend(s.log, Absorb(c, s, o).log[|s.log|], n);
  }

  /** What the other steps do about this. */
  lemma OthersStayAtZero(c: Config, s: State, e: Event, n: nat, missing: Option<int>)
    requires Enabled(c, s, e) && AtZero(s, n, missing) && !c.counting
    requires !(e.Observe? && e.seen.Some?) && (e.Call? ==> !e.ok)
    ensures var t := Next(c, s, e);
      && (t.pc.RestoreFailed? || t.applied == 0)
      && !(t.pc.TearingDown? || t.pc.Restoring? || t.pc.Restored? || t.pc.Scaled?)
      && (t.pc.RestoreFailed? ==> s.pc.RestoreFailed?)
      && t.missing == s.missing
      && forall k :: |s.log| <= k < |t.log| ==> !t.log[k].Looked?
  {
  }

  lemma StepAtZero(c: Config, s: State, e: Event, n: nat, missing: Option<int>)
    requires Enabled(c, s, e) && AtZero(s, n, missing) && !c.counting && (e.Call? ==> !e.ok)
    ensures AtZero(Next(c, s, e), n, missing)
  {
    var t := Next(c, s, e);
    if e.Observe? && e.seen.Some? {
      ObservedAtZero(c, s, e.seen.value, n, missing);
    } else {
      OthersStayAtZero(c, s, e, n, missing);
      if t.log != s.log {
        StepKeepsLog(c, s, e);
        assert t.log == s.log + [t.log[|s.log|]];
        LookedSinceAppend(s.log, t.log[|s.log|], n);
      }
    }
  }

  lemma CallIsNoted(c: Config, s: State, e: Event)
    requires Enabled(c, s, e) && e.Call?
    ensures |Next(c, s, e).log| == |s.log| + 1
    ensures Next(c, s, e).log[|s.log|].Called? && Next(c, s, e).log[|s.log|].ok == e.ok
  {
  }

  lemma {:induction false} RunAtZero(c: Config, s: State, es: seq<Event>, t: State, n: nat, missing: Option<int>)
    requires Exec(c, s, es) == Some(t) && AtZero(s, n, missing) && !c.counting
    requires n <= |s.log| && NoneRaised(t.log, n)
    ensures AtZero(t, n, missing)
  {
    if es != [] {
      var m, e := ExecLast(c, s, es, t);
      StepKeepsLog(c, m, e);
      RunKeepsLog(c, s, es[..|es| - 1], m);
      assert forall k :: n <= k < |m.log| ==> t.log[k] == m.log[k];
      RunAtZero(c, s, es[..|es| - 1], m, n, missing);
      if e.Call? {
        CallIsNoted(c, m, e);
      }
      StepAtZero(c, m, e, n, missing);
    }
  }

  /** After every failed restore, the first scaling call to succeed: with no recount,
      the replicas it brings up get RunnerGrace exactly when an observation has
      succeeded in between, whatever that observation found. With a recount an
      observation restores the grace only if it finds a live runner or no replicas,
      or the wait on record began just now. */
  lemma GraceAfterFailedRestore(c: Config, s: State, es: seq<Event>, m: State, e: Event)
    requires Reachable(c, s) && s.pc.RestoreFailed? && Exec(c, s, es) == Some(m) && NoneRaised(m.log, |s.log|)
    requires m.pc.Scaling? && Enabled(c, m, e) && e.Call? && e.ok
    ensures !c.counting ==> (GraceHonoured(c, Next(c, m, e)) <==> LookedSince(m.log, |s.log|))
    ensures !c.counting ==> (FairGrace(c, Next(c, m, e), false) <==> LookedSince(m.log, |s.log|))
    ensures GraceHonoured(c, Next(c, m, e)) <==>
      !LastLookSick(m.log) || exists i: nat :: WaitingSince(m.log, i, m.clock)
  {
    ReachableRecycling(c, s);
    ReachableOutage(c, s);
    ReachableFlow(c, s);
    RunBook(c, s, es, m);
    ReachableOnward(c, s, es, m);
    ReachableFlow(c, m);
    ReachableOutage(c, m);
    OutageRecordedExactly(c, m);
    GraceAfterCall(c, m, e);
    if !c.counting {
      RunAtZero(c, s, es, m, |s.log|, s.missing);
    }
    if m.missing.Some? {
      var i: nat :| WaitingSince(m.log, i, m.missing.value);
      forall k: nat, t | WaitingSince(m.log, k, t) ensures t == m.missing.value {
        WaitIsUnique(m.log, i, m.missing.value, k, t);
      }
    } else {
      assert !LastLookSick(m.log);
    }
  }

  /** So a failed restore alone does not keep the next replicas safe: from the moment
      it is recorded, and until an observation succeeds, some continuation recycles
      too soon, on a fair platform too. */
  lemma FailedRestoreLeavesOutage(c: Config, s: State, now: int)
    requires Reachable(c, s) && s.pc.RestoreFailed? && Enabled(c, s, Commit(now))
    ensures !GraceHonoured(c, Next(c, s, Commit(now)))
    ensures !FairGrace(c, Next(c, s, Commit(now)), false)
  {
    ReachableRecycling(c, s);
    var t := Next(c, s, Commit(now));
    ExecOne(c, s, Commit(now));
    ReachableOnward(c, s, [Commit(now)], t);
    assert t.pc.Waiting? && t.applied == 0 && t.clock == s.clock && t.missing == s.missing;
    GraceExactlyWhenOutageIsRecent(c, t);
  }

  // ------------------------------------------------------------------
  // It happens
  // ------------------------------------------------------------------

  const ALWAYS_ONE := Config(Options(1, 1, 0, 0, 0, 10, 1), true, false, 0)

  /** No live runner, and nothing about jobs. */
  function NoRunners(now: int): Observation {
    Observation(false, [], [], 0, now, now, [], [])
  }

  /** One replica without a live runner is seen at time 0, and the iteration ends. */
  lemma FirstLook(s: State) returns (es: seq<Event>, t: State)
    requires Init(ALWAYS_ONE, s) && s.applied == 1 && s.book == Book(map[], map[], Empty(), 0)
    ensures Exec(ALWAYS_ONE, s, es) == Some(t) && t.pc == Waiting && StillOut(s, t, 0, 1)
  {
    es, t := Do(ALWAYS_ONE, s, [], s, Recount(None));
    es, t := Do(ALWAYS_ONE, s, es, t, Observe(Some(NoRunners(0))));
    es, t := DecideAt(ALWAYS_ONE, s, es, t, 0);
    es, t := Do(ALWAYS_ONE, s, es, t, Check(0, 0));
  }

  /** A tick at time 10, and the same is seen again. */
  lemma SecondLook(s: State) returns (es: seq<Event>, t: State)
    requires Init(ALWAYS_ONE, s) && s.applied == 1 && s.book == Book(map[], map[], Empty(), 0)
    ensures Exec(ALWAYS_ONE, s, es) == Some(t) && t.pc == ReadingCutoff && StillOut(s, t, 10, 1)
  {
    es, t := FirstLook(s);
    es, t := Do(ALWAYS_ONE, s, es, t, Event.Tick);
    es, t := Do(ALWAYS_ONE, s, es, t, Recount(None));
    es, t := Do(ALWAYS_ONE, s, es, t, Observe(Some(NoRunners(10))));
  }

  /** So a recycle starts. */
  lemma FirstRecycle(s: State) returns (es: seq<Event>, t: State)
    requires Init(ALWAYS_ONE, s) && s.applied == 1 && s.book == Book(map[], map[], Empty(), 0)
    ensures Exec(ALWAYS_ONE, s, es) == Some(t) && t.pc == TearingDown(Decision(1, 0, 0, Free))
    ensures StillOut(s, t, 10, 1)
  {
    es, t := SecondLook(s);
    es, t := DecideAt(ALWAYS_ONE, s, es, t, 10);
    es, t := Do(ALWAYS_ONE, s, es, t, Check(10, 10));
  }

  /** The outage of time 0 is still on record. */
  predicate StillOut(s: State, t: State, now: int, applied: int) {
    t.clock == now && t.applied == applied && t.live == 0 && t.missing == Some(0) && t.book == s.book
  }

  lemma RestoreFails(s: State) returns (es: seq<Event>, t: State)
    requires Init(ALWAYS_ONE, s) && s.applied == 1 && s.book == Book(map[], map[], Empty(), 0)
    ensures Exec(ALWAYS_ONE, s, es) == Some(t) && t.pc == Waiting && StillOut(s, t, 10, 0)
  {
    es, t := FirstRecycle(s);
    es, t := Do(ALWAYS_ONE, s, es, t, Call(true, 0));
    es, t := Do(ALWAYS_ONE, s, es, t, Call(false, 0));
    es, t := Do(ALWAYS_ONE, s, es, t, Commit(10));
  }

  lemma RaiseAgain(s: State) returns (es: seq<Event>, t: State, k: nat)
    requires Init(ALWAYS_ONE, s) && s.applied == 1 && s.book == Book(map[], map[], Empty(), 0)
    ensures Exec(ALWAYS_ONE, s, es) == Some(t) && t.pc == Waiting && StillOut(s, t, 10, 1)
    ensures k < |t.log| && t.log[k].Called? && t.log[k].purpose == ToScale && t.log[k].ok
    ensures t.log[k].applied == 0 && t.log[k].arg == 1 && t.log[k].time == 10
  {
    es, t := RestoreFails(s);
    es, t := Do(ALWAYS_ONE, s, es, t, Event.Tick);
    es, t := DecideBlind(ALWAYS_ONE, s, es, t);
    k := |t.log|;
    es, t := Do(ALWAYS_ONE, s, es, t, Call(true, 1));
    es, t := Do(ALWAYS_ONE, s, es, t, Commit(10));
  }

  /** The restore fails, the next iteration brings one replica up, and the one
      after that starts tearing it down at the same instant, though RunnerGrace is
      10: the observations of both failed, and the outage that the first recycle was
      for is still on record. */
  lemma FailedRestoreSkipsGrace(s: State) returns (t: State, k: nat, j: nat)
    requires Init(ALWAYS_ONE, s) && s.applied == 1 && s.book == Book(map[], map[], Empty(), 0)
    ensures Reachable(ALWAYS_ONE, t) && k < j < |t.log|
    ensures t.log[k].Called? && t.log[k].purpose == ToScale && t.log[k].ok
    ensures t.log[k].applied == 0 && t.log[k].arg == 1
    ensures t.log[j].RecycleStarted?
    ensures t.log[j].time - t.log[k].time < ALWAYS_ONE.opts.runnerGrace
  {
    var es;
    es, t, k := RaiseAgain(s);
    es, t := Do(ALWAYS_ONE, s, es, t, Event.Tick);
    es, t := DecideBlind(ALWAYS_ONE, s, es, t);
    j := |t.log|;
    es, t := Do(ALWAYS_ONE, s, es, t, Check(10, 10));
    assert Leads(ALWAYS_ONE, s, t);
  }
}
