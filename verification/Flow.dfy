/** How decisions flow into backend calls, over whole runs. */
module Flow {
  import opened Seqs
  import opened Scaler
  import opened Adoption
  import opened Machine

  // ------------------------------------------------------------------
  // Tracked jobs
  // ------------------------------------------------------------------

  /** The tracked jobs are sound and the clock has not gone back. */
  ghost predicate BookInv(c: Config, s: State) {
    Sound(s.book, c.opts.trackedJobs, s.clock)
  }

  lemma InitBook(c: Config, s: State)
    requires Init(c, s)
    ensures BookInv(c, s) && Disjoint(s.book)
  {
  }

  lemma HandlerBook(c: Config, s: State, e: Event)
    requires Enabled(c, s, e) && BookInv(c, s) && (e.Queued? || e.Begun? || e.Finished?)
    ensures BookInv(c, Next(c, s, e))
    ensures s.clock <= Next(c, s, e).clock
    ensures s.book.lastBusy <= Next(c, s, e).book.lastBusy
  {
    var size := c.opts.trackedJobs;
    match e
    case Queued(id, stamp, busy) => QueueKeepsSound(s.book, size, s.clock, id, stamp, busy);
    case Begun(id, stamp, busy) => BeginKeepsSound(s.book, size, s.clock, id, stamp, busy);
    case Finished(id, busy) => FinishKeepsSound(s.book, size, s.clock, id, busy);
  }

  lemma ObservedBook(c: Config, s: State, o: Observation)
    requires c.opts.Valid() && BookInv(c, s) && CanObserve(c, s, o)
    ensures BookInv(c, Absorb(c, s, o))
    ensures s.clock <= Absorb(c, s, o).clock
    ensures s.book.lastBusy <= Absorb(c, s, o).book.lastBusy
  {
    if o.jobsObserved {
      AdoptKeepsSound(s.book, c.opts.trackedJobs, s.clock, o.queued, o.running,
                      o.cutoffNow - c.opts.idleCooldown, o.dropQ, o.dropR);
    }
  }

  lemma StepBook(c: Config, s: State, e: Event)
    requires Enabled(c, s, e) && BookInv(c, s)
    ensures BookInv(c, Next(c, s, e))
    ensures s.clock <= Next(c, s, e).clock
    ensures s.book.lastBusy <= Next(c, s, e).book.lastBusy
  {
    if !TouchesBook(e) {
      OthersLeaveBook(c, s, e);
    } else if e.Observe? {
      ObservedBook(c, s, e.seen.value);
    } else if e.Sweep? {
      ExpireKeepsSound(s.book, c.opts.trackedJobs, s.clock, s.pc.cutoff);
    } else {
      HandlerBook(c, s, e);
    }
  }

  lemma {:induction false} RunBook(c: Config, s: State, es: seq<Event>, t: State)
    requires Exec(c, s, es) == Some(t) && BookInv(c, s)
    ensures BookInv(c, t) && s.clock <= t.clock
  {
    if es != [] {
      var m, e := ExecLast(c, s, es, t);
      RunBook(c, s, es[..|es| - 1], m);
      StepBook(c, m, e);
    }
  }

  // ------------------------------------------------------------------
  // Decisions
  // ------------------------------------------------------------------

  /** No job activity in this history is later than limit. */
  ghost predicate QuietSince(log: seq<Record>, limit: int) {
    forall k :: 0 <= k < |log| ==>
      && (log[k].Heard? ==> log[k].time <= limit)
      && (log[k].Looked? && log[k].found.Some? ==> log[k].found.value <= limit)
  }

  /** A decision never asks for less than the jobs it saw; free to move, it asks
      for exactly that; and it shrinks a known count only through every gate. */
  ghost predicate SafeChoice(c: Config, before: seq<Record>, r: Record)
    requires r.Chose?
  {
    var want := Want(c.opts, r.queued, r.inProgress);
    && r.d.desired >= want
    && (if r.d.hold.Free? then r.d.desired == want else r.d.desired == r.applied)
    && (0 <= r.d.desired < r.applied ==>
          && r.inProgress == map[]
          && QuietSince(before, r.time - c.opts.idleCooldown)
          && r.time - c.startedAt >= c.opts.startupGrace)
  }

  /** A backend call carries out the latest decision, which was free to move. The
      cached count is still the one that decision saw, and every job running now
      either ran then or was recorded later. */
  ghost predicate CarriesOut(before: seq<Record>, r: Record)
    requires r.Called?
  {
    && 0 <= r.decidedAt < |before|
    && before[r.decidedAt].Chose?
    && (forall k :: r.decidedAt < k < |before| ==> !before[k].Chose?)
    && var choice := before[r.decidedAt];
    && choice.d.hold.Free?
    && choice.applied == r.applied
    && (match r.purpose
        case ToScale => r.arg == choice.d.desired != r.applied
        case ToTearDown => r.arg == 0 && choice.d.desired == r.applied > 0
        case ToRestore => r.arg == choice.d.desired == r.applied > 0)
    && forall id :: id in r.inProgress ==> id in choice.inProgress || r.inProgress[id] >= choice.time
  }

  ghost predicate SafeRecord(c: Config, before: seq<Record>, r: Record) {
    && (r.Chose? ==> SafeChoice(c, before, r))
    && (r.Called? ==> CarriesOut(before, r))
  }

  ghost predicate SafeLog(c: Config, log: seq<Record>) {
    log == [] || (SafeLog(c, log[..|log| - 1]) && SafeRecord(c, log[..|log| - 1], log[|log| - 1]))
  }

  lemma SafeAppend(c: Config, log: seq<Record>, r: Record)
    requires SafeLog(c, log) && SafeRecord(c, log, r)
    ensures SafeLog(c, log + [r])
  {
    assert (log + [r])[..|log + [r]| - 1] == log;
  }

  lemma {:induction false} SafeAt(c: Config, log: seq<Record>, j: nat)
    requires SafeLog(c, log) && j < |log|
    ensures SafeRecord(c, log[..j], log[j])
  {
    if j < |log| - 1 {
      SafeAt(c, log[..|log| - 1], j);
      assert log[..|log| - 1][..j] == log[..j];
    }
  }

  /** The reconciler is past the decision of this iteration. */
  predicate PastDecision(pc: Pc) {
    match pc
    case Recounting | Observing | ReadingCutoff | Sweeping(_) | Deciding => false
    case _ => true
  }

  /** `chosen` is the position of the last decision in the history. */
  ghost predicate ChosenInv(s: State) {
    && -1 <= s.chosen < |s.log|
    && (s.chosen >= 0 ==> s.log[s.chosen].Chose?)
    && (forall k :: s.chosen < k < |s.log| ==> 0 <= k && !s.log[k].Chose?)
    && (PastDecision(s.pc) ==> s.chosen >= 0 && s.log[s.chosen].time <= s.clock)
  }

  /** What the reconciler's locals still mean. */
  ghost predicate PcInv(s: State)
    requires ChosenInv(s)
  {
    match s.pc
    case Rereading(d) =>
      d == s.log[s.chosen].d && s.applied == s.log[s.chosen].applied
    case Checking(d) =>
      d == s.log[s.chosen].d && s.applied == s.log[s.chosen].applied == d.desired && d.hold.Free?
    case Scaling(d) =>
      d == s.log[s.chosen].d && s.applied == s.log[s.chosen].applied != d.desired && d.hold.Free?
    case Scaled(d) =>
      d == s.log[s.chosen].d && d.hold.Free?
    case TearingDown(d) =>
      d == s.log[s.chosen].d && s.applied == s.log[s.chosen].applied == d.desired > 0 && d.hold.Free?
    case Restoring(d) =>
      d == s.log[s.chosen].d && s.applied == s.log[s.chosen].applied == d.desired > 0 && d.hold.Free?
    case RestoreFailed(d) =>
      d == s.log[s.chosen].d && d.hold.Free?
    case Restored(d) =>
      d == s.log[s.chosen].d && d.hold.Free?
    case _ => true
  }

  /** Jobs running now ran at the last decision or were recorded after it. */
  ghost predicate RunnersInv(s: State)
    requires ChosenInv(s)
  {
    PastDecision(s.pc) ==>
      forall id :: id in s.book.inProgress ==>
        id in s.log[s.chosen].inProgress || s.book.inProgress[id] >= s.log[s.chosen].time
  }

  ghost predicate FlowInv(c: Config, s: State) {
    && BookInv(c, s)
    && ChosenInv(s) && PcInv(s) && RunnersInv(s)
    && QuietSince(s.log, s.book.lastBusy)
    && SafeLog(c, s.log)
  }

  lemma InitFlow(c: Config, s: State)
    requires Init(c, s)
    ensures FlowInv(c, s)
  {
    InitBook(c, s);
  }

  /** The latest decision stays the latest until there is another. */
  lemma ChosenKept(s: State, t: State)
    requires ChosenInv(s) && t.chosen == s.chosen && s.clock <= t.clock
    requires s.log <= t.log && forall k :: |s.log| <= k < |t.log| ==> !t.log[k].Chose?
    requires PastDecision(t.pc) ==> PastDecision(s.pc)
    ensures ChosenInv(t)
    ensures s.chosen >= 0 ==> t.log[t.chosen] == s.log[s.chosen]
  {
  }

  /** Only a decision adds one to the history, and only then is it passed. */
  lemma OnlyChooseChooses(c: Config, s: State, e: Event)
    requires Enabled(c, s, e) && !e.Choose?
    ensures Next(c, s, e).chosen == s.chosen
    ensures forall k :: |s.log| <= k < |Next(c, s, e).log| ==> !Next(c, s, e).log[k].Chose?
    ensures PastDecision(Next(c, s, e).pc) ==> PastDecision(s.pc)
  {
  }

  lemma StepLatest(c: Config, s: State, e: Event)
    requires Enabled(c, s, e) && BookInv(c, s) && ChosenInv(s)
    ensures ChosenInv(Next(c, s, e))
    ensures !e.Choose? && s.chosen >= 0 ==> Next(c, s, e).log[s.chosen] == s.log[s.chosen]
  {
    if !e.Choose? {
      StepBook(c, s, e);
      StepKeepsLog(c, s, e);
      OnlyChooseChooses(c, s, e);
      ChosenKept(s, Next(c, s, e));
    }
  }

  /** The locals keep their meaning when nothing they speak of moves. */
  lemma LocalsKept(s: State, t: State)
    requires ChosenInv(s) && PcInv(s) && ChosenInv(t)
    requires t.pc == s.pc && t.applied == s.applied && t.chosen == s.chosen
    requires s.chosen >= 0 ==> t.log[s.chosen] == s.log[s.chosen]
    ensures PcInv(t)
  {
  }

  lemma ActLocals(c: Config, s: State, e: Event)
    requires Enabled(c, s, e) && ChosenInv(s) && PcInv(s) && ChosenInv(Next(c, s, e))
    requires e.Reread? || e.Check? || e.Call? || e.Commit?
    ensures PcInv(Next(c, s, e))
  {
  }

  lemma StepLocals(c: Config, s: State, e: Event)
    requires Enabled(c, s, e) && BookInv(c, s) && ChosenInv(s) && PcInv(s) && ChosenInv(Next(c, s, e))
    ensures PcInv(Next(c, s, e))
  {
    if !ByReconciler(e) {
      OthersLeaveReconciler(c, s, e);
      StepLatest(c, s, e);
      LocalsKept(s, Next(c, s, e));
    } else if e.Reread? || e.Check? || e.Call? || e.Commit? {
      ActLocals(c, s, e);
    }
  }

  lemma StepRunners(c: Config, s: State, e: Event)
    requires Enabled(c, s, e) && ChosenInv(s) && RunnersInv(s) && ChosenInv(Next(c, s, e))
    ensures RunnersInv(Next(c, s, e))
  {
  }

  lemma StepChosen(c: Config, s: State, e: Event)
    requires Enabled(c, s, e) && BookInv(c, s) && ChosenInv(s) && PcInv(s) && RunnersInv(s)
    ensures ChosenInv(Next(c, s, e)) && PcInv(Next(c, s, e)) && RunnersInv(Next(c, s, e))
  {
    StepLatest(c, s, e);
    StepLocals(c, s, e);
    StepRunners(c, s, e);
  }

  lemma QuietGrows(log: seq<Record>, r: Record, limit: int, later: int)
    requires QuietSince(log, limit) && limit <= later
    requires (r.Heard? ==> r.time <= later) && (r.Looked? && r.found.Some? ==> r.found.value <= later)
    ensures QuietSince(log, later) && QuietSince(log + [r], later)
  {
  }

  /** Job activity is noted with the time it leaves in lastBusy. */
  lemma ActivityIsTimed(c: Config, s: State, e: Event)
    requires Enabled(c, s, e) && Next(c, s, e).log != s.log
    ensures var t := Next(c, s, e);
      && |t.log| == |s.log| + 1
      && (t.log[|s.log|].Heard? ==> t.log[|s.log|].time == t.book.lastBusy)
      && (t.log[|s.log|].Looked? && t.log[|s.log|].found.Some? ==> t.log[|s.log|].found.value == t.book.lastBusy)
  {
  }

  lemma StepQuiet(c: Config, s: State, e: Event)
    requires Enabled(c, s, e) && BookInv(c, s) && QuietSince(s.log, s.book.lastBusy)
    ensures QuietSince(Next(c, s, e).log, Next(c, s, e).book.lastBusy)
  {
    var t := Next(c, s, e);
    StepBook(c, s, e);
    if t.log != s.log {
      StepKeepsLog(c, s, e);
      ActivityIsTimed(c, s, e);
      assert t.log == s.log + [t.log[|s.log|]];
      QuietGrows(s.log, t.log[|s.log|], s.book.lastBusy, t.book.lastBusy);
    }
  }

  lemma ChoiceIsSafe(c: Config, s: State, now: int)
    requires Enabled(c, s, Choose(now)) && QuietSince(s.log, s.book.lastBusy)
    ensures var d := Decide(c.opts, s.book, s.applied, c.startedAt, now);
      SafeChoice(c, s.log, Chose(now, s.book.queued, s.book.inProgress, s.applied, d))
  {
    DecisionIsSafe(c.opts, s.book, s.applied, c.startedAt, now);
  }

  lemma CallCarriesOut(c: Config, s: State, e: Event)
    requires Enabled(c, s, e) && e.Call?
    requires ChosenInv(s) && PcInv(s) && RunnersInv(s)
    ensures var t := Next(c, s, e);
      && t.log == s.log + [t.log[|s.log|]] && t.log[|s.log|].Called?
      && CarriesOut(s.log, t.log[|s.log|])
  {
  }

  /** Only a decision and a call add entries that must be safe. */
  lemma OtherNotesAreFree(c: Config, s: State, e: Event)
    requires Enabled(c, s, e) && !e.Choose? && !e.Call?
    ensures forall k :: |s.log| <= k < |Next(c, s, e).log| ==>
              !Next(c, s, e).log[k].Chose? && !Next(c, s, e).log[k].Called?
  {
  }

  lemma StepSafe(c: Config, s: State, e: Event)
    requires Enabled(c, s, e) && FlowInv(c, s)
    ensures SafeLog(c, Next(c, s, e).log)
  {
    var t := Next(c, s, e);
    if t.log != s.log {
      StepKeepsLog(c, s, e);
      var r := t.log[|s.log|];
      assert t.log == s.log + [r];
      if e.Choose? {
        ChoiceIsSafe(c, s, e.now);
      } else if e.Call? {
        CallCarriesOut(c, s, e);
      } else {
        OtherNotesAreFree(c, s, e);
      }
      assert SafeRecord(c, s.log, r);
      SafeAppend(c, s.log, r);
    }
  }

  lemma StepFlow(c: Config, s: State, e: Event)
    requires Enabled(c, s, e) && FlowInv(c, s)
    ensures FlowInv(c, Next(c, s, e))
  {
    StepBook(c, s, e);
    StepChosen(c, s, e);
    StepQuiet(c, s, e);
    StepSafe(c, s, e);
  }

  lemma {:induction false} RunFlow(c: Config, s: State, es: seq<Event>, t: State)
    requires Exec(c, s, es) == Some(t) && FlowInv(c, s)
    ensures FlowInv(c, t)
  {
    if es != [] {
      var m, e := ExecLast(c, s, es, t);
      RunFlow(c, s, es[..|es| - 1], m);
      StepFlow(c, m, e);
    }
  }

  lemma ReachableFlow(c: Config, t: State)
    requires Reachable(c, t)
    ensures FlowInv(c, t)
  {
    var s :| Init(c, s) && Leads(c, s, t);
    var es :| Exec(c, s, es) == Some(t);
    InitFlow(c, s);
    RunFlow(c, s, es, t);
  }
}
