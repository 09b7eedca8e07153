/** A job that was announced stays tracked until something takes it away. */
module Retention {
  import opened Seqs
  import opened Scaler
  import opened Adoption
  import opened Machine
  import opened Flow

  /** What takes away a job last recorded at time since: its completion, an
      observation that misses it with a later cutoff, an expiry with a later one. */
  predicate TakesAway(c: Config, e: Event, id: int, since: int) {
    match e
    case Finished(x, _) => x == id
    case Observe(Some(o)) =>
      && o.jobsObserved && id !in Ids(o.queued) + Ids(o.running)
      && o.cutoffNow - c.opts.idleCooldown > since
    case ReadCutoff(now) => c.opts.jobTTL > 0 && now - c.opts.jobTTL > since
    case _ => false
  }

  /** What makes a queued job leave the queue: that, or that it begins. */
  predicate TakesOffQueue(c: Config, e: Event, id: int, since: int) {
    || TakesAway(c, e, id, since)
    || (e.Begun? && e.id == id)
    || (e.Observe? && e.seen.Some? && e.seen.value.jobsObserved && id in Ids(e.seen.value.running))
  }

  /** No expiry in progress has a cutoff after since. */
  predicate SweepsBefore(s: State, since: int) {
    since <= s.clock && (s.pc.Sweeping? ==> s.pc.cutoff <= since)
  }

  predicate Holds(m: map<int, int>, id: int, since: int) {
    id in m && m[id] >= since
  }

  // ------------------------------------------------------------------
  // Steps
  // ------------------------------------------------------------------

  lemma StepSweepsBefore(c: Config, s: State, e: Event, id: int, since: int)
    requires Enabled(c, s, e) && BookInv(c, s) && SweepsBefore(s, since) && !TakesAway(c, e, id, since)
    ensures SweepsBefore(Next(c, s, e), since)
  {
    StepBook(c, s, e);
    if !ByReconciler(e) {
      OthersLeaveReconciler(c, s, e);
    }
  }

  lemma ObservationKeeps(c: Config, s: State, o: Observation, id: int, since: int)
    requires c.opts.Valid() && CanObserve(c, s, o) && !TakesAway(c, Observe(Some(o)), id, since)
    ensures Holds(s.book.inProgress, id, since) ==> Holds(Absorb(c, s, o).book.inProgress, id, since)
    ensures Holds(s.book.queued, id, since) && !TakesOffQueue(c, Observe(Some(o)), id, since)
            ==> Holds(Absorb(c, s, o).book.queued, id, since)
  {
    if o.jobsObserved {
      var r := Absorb(c, s, o).book;
      AdoptTracks(s.book, c.opts.trackedJobs, o.queued, o.running, o.cutoffNow - c.opts.idleCooldown, o.dropQ, o.dropR);
      assert id in r.queued <==> id in r.queued.Keys;
      assert id in r.inProgress <==> id in r.inProgress.Keys;
    }
  }

  lemma HandlerKeeps(c: Config, s: State, e: Event, id: int, since: int)
    requires Enabled(c, s, e) && since <= s.clock && (e.Queued? || e.Begun? || e.Finished?)
    requires !TakesAway(c, e, id, since)
    ensures Holds(s.book.inProgress, id, since) ==> Holds(Next(c, s, e).book.inProgress, id, since)
    ensures Holds(s.book.queued, id, since) && !TakesOffQueue(c, e, id, since)
            ==> Holds(Next(c, s, e).book.queued, id, since)
  {
  }

  lemma StepKeeps(c: Config, s: State, e: Event, id: int, since: int)
    requires Enabled(c, s, e) && SweepsBefore(s, since) && !TakesAway(c, e, id, since)
    ensures Holds(s.book.inProgress, id, since) ==> Holds(Next(c, s, e).book.inProgress, id, since)
    ensures Holds(s.book.queued, id, since) && !TakesOffQueue(c, e, id, since)
            ==> Holds(Next(c, s, e).book.queued, id, since)
  {
    if !TouchesBook(e) {
      OthersLeaveBook(c, s, e);
    } else if e.Observe? {
      ObservationKeeps(c, s, e.seen.value, id, since);
    } else if !e.Sweep? {
      HandlerKeeps(c, s, e, id, since);
    }
  }

  // ------------------------------------------------------------------
  // Runs
  // ------------------------------------------------------------------

  lemma {:induction false} RunKeepsRunning(c: Config, s: State, es: seq<Event>, t: State, id: int, since: int)
    requires Exec(c, s, es) == Some(t) && BookInv(c, s) && SweepsBefore(s, since)
    requires Holds(s.book.inProgress, id, since)
    requires forall i :: 0 <= i < |es| ==> !TakesAway(c, es[i], id, since)
    ensures Holds(t.book.inProgress, id, since) && SweepsBefore(t, since)
  {
    if es != [] {
      var m, e := ExecLast(c, s, es, t);
      RunKeepsRunning(c, s, es[..|es| - 1], m, id, since);
      RunBook(c, s, es[..|es| - 1], m);
      assert e == es[|es| - 1];
      StepKeeps(c, m, e, id, since);
      StepSweepsBefore(c, m, e, id, since);
    }
  }

  lemma {:induction false} RunKeepsQueued(c: Config, s: State, es: seq<Event>, t: State, id: int, since: int)
    requires Exec(c, s, es) == Some(t) && BookInv(c, s) && SweepsBefore(s, since)
    requires Holds(s.book.queued, id, since)
    requires forall i :: 0 <= i < |es| ==> !TakesOffQueue(c, es[i], id, since)
    ensures Holds(t.book.queued, id, since) && SweepsBefore(t, since)
  {
    if es != [] {
      var m, e := ExecLast(c, s, es, t);
      RunKeepsQueued(c, s, es[..|es| - 1], m, id, since);
      RunBook(c, s, es[..|es| - 1], m);
      assert e == es[|es| - 1];
      StepKeeps(c, m, e, id, since);
      StepSweepsBefore(c, m, e, id, since);
    }
  }

  /** An expiry in progress has a cutoff in the past. */
  predicate PastCutoff(s: State) {
    s.pc.Sweeping? ==> s.pc.cutoff <= s.clock
  }

  lemma StepPastCutoff(c: Config, s: State, e: Event)
    requires Enabled(c, s, e) && BookInv(c, s) && PastCutoff(s)
    ensures PastCutoff(Next(c, s, e))
  {
    StepBook(c, s, e);
    if !ByReconciler(e) {
      OthersLeaveReconciler(c, s, e);
    }
  }

  lemma {:induction false} RunPastCutoff(c: Config, s: State, es: seq<Event>, t: State)
    requires Exec(c, s, es) == Some(t) && BookInv(c, s) && PastCutoff(s)
    ensures BookInv(c, t) && PastCutoff(t)
  {
    if es != [] {
      var m, e := ExecLast(c, s, es, t);
      RunPastCutoff(c, s, es[..|es| - 1], m);
      StepBook(c, m, e);
      StepPastCutoff(c, m, e);
    }
  }

  lemma ReachablePastCutoff(c: Config, t: State)
    requires Reachable(c, t)
    ensures BookInv(c, t) && PastCutoff(t)
  {
    var s :| Init(c, s) && Leads(c, s, t);
    var es :| Exec(c, s, es) == Some(t);
    InitBook(c, s);
    RunPastCutoff(c, s, es, t);
  }

  /** A job whose `queued` event is accepted is recorded at the time of the event, and
      stays in the queue, recorded no earlier, until it begins, completes, is missed
      by an observation whose cutoff is after that time, or expires with a cutoff
      after that time. */
  lemma QueuedJobsAreKept(c: Config, s: State, id: int, stamp: int, busy: int, es: seq<Event>, t: State)
    requires Reachable(c, s) && Enabled(c, s, Queued(id, stamp, busy)) && id !in s.book.done.order
    requires Exec(c, Next(c, s, Queued(id, stamp, busy)), es) == Some(t)
    requires forall i :: 0 <= i < |es| ==> !TakesOffQueue(c, es[i], id, stamp)
    ensures Next(c, s, Queued(id, stamp, busy)).book.queued[id] == stamp >= s.clock
    ensures id in t.book.queued && t.book.queued[id] >= stamp
  {
    var e := Event.Queued(id, stamp, busy);
    ReachablePastCutoff(c, s);
    StepBook(c, s, e);
    OthersLeaveReconciler(c, s, e);
    RunKeepsQueued(c, Next(c, s, e), es, t, id, stamp);
  }

  /** The same for a job that begins, which stays in the running map. */
  lemma RunningJobsAreKept(c: Config, s: State, id: int, stamp: int, busy: int, es: seq<Event>, t: State)
    requires Reachable(c, s) && Enabled(c, s, Begun(id, stamp, busy)) && id !in s.book.done.order
    requires Exec(c, Next(c, s, Begun(id, stamp, busy)), es) == Some(t)
    requires forall i :: 0 <= i < |es| ==> !TakesAway(c, es[i], id, stamp)
    ensures id !in Next(c, s, Begun(id, stamp, busy)).book.queued
    ensures Next(c, s, Begun(id, stamp, busy)).book.inProgress[id] == stamp >= s.clock
    ensures id in t.book.inProgress && t.book.inProgress[id] >= stamp
  {
    var e := Begun(id, stamp, busy);
    ReachablePastCutoff(c, s);
    StepBook(c, s, e);
    OthersLeaveReconciler(c, s, e);
    RunKeepsRunning(c, Next(c, s, e), es, t, id, stamp);
  }

  /** Nothing in this run concerns the job, and no jobs are observed. */
  predicate NoNewsOf(es: seq<Event>, id: int) {
    forall i :: 0 <= i < |es| ==> Unconcerned(es[i], id)
  }

  predicate Unconcerned(e: Event, id: int) {
    && !(e.Begun? && e.id == id)
    && !(e.Finished? && e.id == id)
    && !(e.Observe? && e.seen.Some? && e.seen.value.jobsObserved)
  }

  lemma {:induction false} NoExpiryYet(c: Config, s: State, es: seq<Event>, t: State, id: int, since: int)
    requires Exec(c, s, es) == Some(t) && BookInv(c, s) && NoNewsOf(es, id)
    requires c.opts.jobTTL == 0 || t.clock - since <= c.opts.jobTTL
    ensures forall i :: 0 <= i < |es| ==> !TakesOffQueue(c, es[i], id, since)
  {
    if es != [] {
      var m, e := ExecLast(c, s, es, t);
      var p := es[..|es| - 1];
      RunBook(c, s, p, m);
      StepBook(c, m, e);
      NoExpiryYet(c, s, p, m, id, since);
      assert e == es[|es| - 1] && Unconcerned(e, id);
      CutoffIsPast(c, m, e);
      forall i | 0 <= i < |es| ensures !TakesOffQueue(c, es[i], id, since) {
        if i < |es| - 1 {
          assert es[i] == p[i];
        }
      }
    }
  }

  lemma CutoffIsPast(c: Config, s: State, e: Event)
    requires Enabled(c, s, e)
    ensures e.ReadCutoff? && c.opts.jobTTL > 0 ==> e.now == Next(c, s, e).clock
  {
  }

  /** So no expiry within JobTTL of the event loses a queued job. */
  lemma NotExpiredWithinTTL(c: Config, s: State, id: int, stamp: int, busy: int, es: seq<Event>, t: State)
    requires Reachable(c, s) && Enabled(c, s, Queued(id, stamp, busy)) && id !in s.book.done.order
    requires Exec(c, Next(c, s, Queued(id, stamp, busy)), es) == Some(t) && NoNewsOf(es, id)
    requires c.opts.jobTTL == 0 || t.clock - stamp <= c.opts.jobTTL
    ensures id in t.book.queued
  {
    var e := Event.Queued(id, stamp, busy);
    ReachablePastCutoff(c, s);
    StepBook(c, s, e);
    NoExpiryYet(c, Next(c, s, e), es, t, id, stamp);
    QueuedJobsAreKept(c, s, id, stamp, busy, es, t);
  }

  // ------------------------------------------------------------------
  // Lost webhooks
  // ------------------------------------------------------------------

  /** A job whose webhooks were lost is recorded by the first observation that reports
      it queued, no earlier than the observation began, and stays in the queue like
      one that was announced. */
  lemma LostJobsAreFound(c: Config, s: State, o: Observation, id: int, es: seq<Event>, t: State)
    requires Reachable(c, s) && Enabled(c, s, Observe(Some(o))) && o.jobsObserved
    requires id !in s.book.done.order && id !in s.book.queued && id !in s.book.inProgress
    requires id in Ids(o.queued) && id !in Ids(o.running)
    requires Exec(c, Next(c, s, Observe(Some(o))), es) == Some(t)
    requires forall i :: 0 <= i < |es| ==> !TakesOffQueue(c, es[i], id, s.clock)
    ensures id in t.book.queued && t.book.queued[id] >= s.clock
  {
    ReachablePastCutoff(c, s);
    StepBook(c, s, Observe(Some(o)));
    NewJobsAreRecordedNow(s.book, c.opts.trackedJobs, s.clock, o.queued, o.running,
                          o.cutoffNow - c.opts.idleCooldown, o.dropQ, o.dropR, id);
    RunKeepsQueued(c, Absorb(c, s, o), es, t, id, s.clock);
  }
}
