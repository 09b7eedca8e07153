/** Lost completions cannot pin the pool: a quiet, webhook-only autoscaler forgets
    its jobs and settles at MinReplicas. */
module Idle {
  import opened Seqs
  import opened Scaler
  import opened Machine
  import opened Flow
  import opened Wakeups

  /** Every step is the reconciler's own, and every backend call succeeds. */
  predicate Undisturbed(es: seq<Event>) {
    forall i :: 0 <= i < |es| ==> UndisturbedStep(es[i])
  }

  predicate UndisturbedStep(e: Event) {
    match e
    case Queued(_, _, _) | Begun(_, _, _) | Finished(_, _) | Poke | Drift(_) => false
    case Wake | Tick | Cancel => false
    case Call(ok, _) => ok
    case _ => true
  }

  /** Nothing has happened for long enough to expire every job and pass every gate. */
  predicate LongQuiet(c: Config, s: State) {
    && !c.observed && c.opts.jobTTL > 0
    && s.clock - s.book.lastBusy > c.opts.jobTTL
    && s.clock - s.book.lastBusy >= c.opts.idleCooldown
    && s.clock - c.startedAt >= c.opts.startupGrace
  }

  predicate NoJobs(s: State) {
    s.book.queued == map[] && s.book.inProgress == map[]
  }

  ghost predicate QuietInv(c: Config, s: State) {
    && BookInv(c, s) && LongQuiet(c, s)
    && match s.pc
       case Recounting | Observing | ReadingCutoff => true
       case Sweeping(cutoff) => cutoff > s.book.lastBusy
       case Deciding => NoJobs(s)
       case Rereading(d) => NoJobs(s) && d.hold.Free? && d.desired == c.opts.minReplicas
       case Checking(d) => NoJobs(s) && d.desired == c.opts.minReplicas == s.applied
       case Scaling(d) => NoJobs(s) && d.desired == c.opts.minReplicas
       case Scaled(d) => NoJobs(s) && d.desired == c.opts.minReplicas
       case Waiting => NoJobs(s) && s.applied == c.opts.minReplicas
       case _ => false
  }

  lemma EverythingExpires(b: Book, latest: int, cutoff: int)
    requires latest < cutoff
    requires forall id :: id in b.queued ==> b.queued[id] <= latest
    requires forall id :: id in b.inProgress ==> b.inProgress[id] <= latest
    ensures Expire(b, cutoff).queued == map[] && Expire(b, cutoff).inProgress == map[]
  {
    forall id ensures id !in Fresher(b.queued, cutoff) {
    }
    forall id ensures id !in Fresher(b.inProgress, cutoff) {
    }
  }

  lemma StepQuietly(c: Config, s: State, e: Event)
    requires Enabled(c, s, e) && UndisturbedStep(e) && QuietInv(c, s)
    ensures QuietInv(c, Next(c, s, e))
  {
    StepBook(c, s, e);
    if e.Sweep? {
      EverythingExpires(s.book, s.book.lastBusy, s.pc.cutoff);
    }
  }

  lemma {:induction false} RunQuietly(c: Config, s: State, es: seq<Event>, t: State)
    requires Exec(c, s, es) == Some(t) && Undisturbed(es) && QuietInv(c, s)
    ensures QuietInv(c, t)
  {
    if es != [] {
      var m, e := ExecLast(c, s, es, t);
      RunQuietly(c, s, es[..|es| - 1], m);
      assert UndisturbedStep(es[|es| - 1]);
      StepQuietly(c, m, e);
    }
  }

  /** One undisturbed iteration with a succeeding backend, once quiet for longer
      than JobTTL and past the other delays, empties both maps and leaves the pool
      at MinReplicas. */
  lemma LostCompletionsDoNotPin(c: Config, s: State, es: seq<Event>, t: State)
    requires Reachable(c, s) && s.pc.Recounting? && LongQuiet(c, s)
    requires Exec(c, s, es) == Some(t) && Undisturbed(es) && t.pc.Waiting?
    ensures t.book.queued == map[] && t.book.inProgress == map[]
    ensures t.applied == c.opts.minReplicas
  {
    ReachableFlow(c, s);
    RunQuietly(c, s, es, t);
  }

  /** Such an iteration exists, so the pool does come down. */
  lemma QuietPoolComesDown(c: Config, s: State) returns (es: seq<Event>, t: State)
    requires Reachable(c, s) && s.pc.Recounting? && LongQuiet(c, s)
    ensures Exec(c, s, es) == Some(t) && Undisturbed(es) && t.pc.Waiting?
    ensures NoJobs(t) && t.applied == c.opts.minReplicas
  {
    es, t := FinishIteration(c, s);
    forall i | 0 <= i < |es| ensures UndisturbedStep(es[i]) {
    }
    LostCompletionsDoNotPin(c, s, es, t);
  }

  // ------------------------------------------------------------------
  // And then it stays there
  // ------------------------------------------------------------------

  /** Only the reconciler moves; it may tick and even wake. */
  predicate OnlyReconciler(es: seq<Event>) {
    forall i :: 0 <= i < |es| ==>
      !(es[i].Queued? || es[i].Begun? || es[i].Finished? || es[i].Drift?)
  }

  ghost predicate RestInv(c: Config, s: State, calls: nat) {
    && c.opts.Valid() && !c.observed && !c.counting
    && NoJobs(s) && s.applied == c.opts.minReplicas
    && calls <= |s.log| && (forall k :: calls <= k < |s.log| ==> !s.log[k].Called?)
    && match s.pc
       case Rereading(d) => d.hold.Free? && d.desired == c.opts.minReplicas
       case Checking(_) => true
       case Scaling(_) | Scaled(_) | TearingDown(_) | Restoring(_) | RestoreFailed(_) | Restored(_) => false
       case _ => true
  }

  lemma StepAtRest(c: Config, s: State, e: Event, calls: nat)
    requires Enabled(c, s, e) && RestInv(c, s, calls)
    requires !(e.Queued? || e.Begun? || e.Finished? || e.Drift?)
    ensures RestInv(c, Next(c, s, e), calls)
  {
    if e.Sweep? {
      assert Fresher(s.book.queued, s.pc.cutoff) == map[];
      assert Fresher(s.book.inProgress, s.pc.cutoff) == map[];
    }
  }

  /** On a backend that cannot recount, a settled autoscaler makes no backend call
      for as long as no event arrives. */
  lemma {:induction false} SettledStaysSilent(c: Config, s: State, es: seq<Event>, t: State)
    requires c.opts.Valid() && !c.observed && !c.counting
    requires s.pc.Waiting? && NoJobs(s) && s.applied == c.opts.minReplicas
    requires Exec(c, s, es) == Some(t) && OnlyReconciler(es)
    ensures RestInv(c, t, |s.log|)
    ensures forall k :: |s.log| <= k < |t.log| ==> !t.log[k].Called?
  {
    if es != [] {
      var m, e := ExecLast(c, s, es, t);
      SettledStaysSilent(c, s, es[..|es| - 1], m);
      StepAtRest(c, m, e, |s.log|);
    }
  }
}
