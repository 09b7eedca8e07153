/** Whether replicas get RunnerGrace to boot before they are recycled: exactly when
    they do. */
module BootGrace {
  import opened Seqs
  import opened Scaler
  import opened Adoption
  import opened Machine
  import opened Flow
  import opened RecycleSafety
  import opened Drive

  /** After s, this run recycles at position j sooner than RunnerGrace from now. */
  ghost predicate TooSoon(c: Config, s: State, es: seq<Event>, j: nat) {
    && Exec(c, s, es).Some?
    && var log := Exec(c, s, es).value.log;
      |s.log| <= j < |log| && log[j].RecycleStarted? && log[j].time - s.clock < c.opts.runnerGrace
  }

  /** Every recycle that starts after s starts at least RunnerGrace later. */
  ghost predicate GraceHonoured(c: Config, s: State) {
    forall es, j: nat :: !TooSoon(c, s, es, j)
  }

  /** So does every recycle of a run in which the platform is fair. */
  ghost predicate FairGrace(c: Config, s: State, drifts: bool) {
    forall es, j: nat :: TooSoon(c, s, es, j) ==> !FairFrom(Exec(c, s, es).value.log, |s.log|, drifts)
  }

  lemma BrokenBy(c: Config, s: State, es: seq<Event>, t: State, j: nat, drifts: bool)
    requires Exec(c, s, es) == Some(t) && Grows(s.log, t.log, drifts)
    requires |s.log| <= j < |t.log| && t.log[j].RecycleStarted? && t.log[j].time - s.clock < c.opts.runnerGrace
    ensures !GraceHonoured(c, s) && !FairGrace(c, s, drifts)
  {
    assert TooSoon(c, s, es, j);
  }

  // ------------------------------------------------------------------
  // When the grace is kept
  // ------------------------------------------------------------------

  /** A pool above MaxRunners that cannot be recounted, and has not been shrunk. */
  predicate Oversized(c: Config, s: State) {
    && !c.counting && s.applied > c.opts.maxRunners
    && match s.pc
       case Recounting | Observing | ReadingCutoff | Deciding | Waiting | Stopped => true
       case Sweeping(cutoff) => c.opts.jobTTL > 0 && cutoff + c.opts.jobTTL <= s.clock
       case Rereading(d) => !d.hold.Free?
       case _ => false
  }

  /** It may not shrink before limit: there was activity too recently. */
  predicate TooBusy(c: Config, s: State, limit: int) {
    Oversized(c, s) && s.book.lastBusy + c.opts.idleCooldown >= limit
  }

  /** A running job recorded at stamp can be neither dropped nor expired before limit. */
  predicate Lingers(c: Config, stamp: int, limit: int) {
    && stamp + c.opts.idleCooldown >= limit - 1
    && (c.opts.jobTTL == 0 || stamp + c.opts.jobTTL >= limit - 1)
  }

  /** Or only at the last instant, when a job will still be running; and any news
      of a job makes the pool too busy. */
  ghost predicate TooLate(c: Config, s: State, limit: int) {
    && Oversized(c, s)
    && s.book.lastBusy + c.opts.idleCooldown >= limit - 1
    && s.clock + c.opts.idleCooldown >= limit
    && exists id :: id in s.book.inProgress && Lingers(c, s.book.inProgress[id], limit)
  }

  /** No recycle can start before limit. */
  ghost predicate NotDue(c: Config, s: State, limit: int) {
    || c.opts.runnerGrace <= 0
    || c.startedAt + c.opts.startupGrace >= limit
    || s.clock >= limit
    || (s.clock + c.opts.runnerGrace >= limit
        && (s.missing.Some? ==> s.missing.value + c.opts.runnerGrace >= limit))
    || TooBusy(c, s, limit)
    || TooLate(c, s, limit)
  }

  lemma CheckNotDue(c: Config, s: State, now1: int, now2: int, limit: int)
    requires Enabled(c, s, Check(now1, now2)) && NotDue(c, s, limit)
    ensures NotDue(c, Next(c, s, Check(now1, now2)), limit)
    ensures RecycleDue(c.opts, c.observed, s.applied, s.live, s.missing, c.startedAt, now1, now2) ==> now2 >= limit
  {
  }

  /** A decision about a pool that is oversized holds it until limit. */
  lemma ChooseNotDue(c: Config, s: State, now: int, limit: int)
    requires Enabled(c, s, Choose(now)) && NotDue(c, s, limit)
    ensures NotDue(c, Next(c, s, Choose(now)), limit)
  {
    if Oversized(c, s) {
      HeldExactly(c.opts, s.book, s.applied, c.startedAt, now);
      if TooLate(c, s, limit) {
        var id :| id in s.book.inProgress && Lingers(c, s.book.inProgress[id], limit);
        assert s.book.inProgress != map[];
        assert id in Next(c, s, Choose(now)).book.inProgress;
      }
    }
  }

  /** Steps that leave the jobs alone leave an oversized pool as it is. */
  lemma OtherOversized(c: Config, s: State, e: Event)
    requires Enabled(c, s, e) && Oversized(c, s) && !e.Choose? && !(e.Observe? && e.seen.Some?)
    ensures Oversized(c, Next(c, s, e)) && s.clock <= Next(c, s, e).clock
  {
  }

  /** An observation cannot take a lingering job away before limit. */
  lemma ObservationTooLate(c: Config, s: State, o: Observation, limit: int)
    requires c.opts.Valid() && s.pc.Observing? && CanObserve(c, s, o) && BookInv(c, s) && TooLate(c, s, limit)
    ensures Absorb(c, s, o).clock >= limit || TooLate(c, Absorb(c, s, o), limit)
  {
    var t := Absorb(c, s, o);
    ObservedBook(c, s, o);
    var id :| id in s.book.inProgress && Lingers(c, s.book.inProgress[id], limit);
    if o.jobsObserved && t.clock < limit {
      AdoptTracks(s.book, c.opts.trackedJobs, o.queued, o.running, o.cutoffNow - c.opts.idleCooldown, o.dropQ, o.dropR);
      assert id in t.book.inProgress.Keys;
    }
    assert t.clock < limit ==> id in t.book.inProgress && t.book.inProgress[id] == s.book.inProgress[id];
  }

  lemma SweepTooLate(c: Config, s: State, limit: int)
    requires Enabled(c, s, Sweep) && TooLate(c, s, limit)
    ensures s.clock >= limit || TooLate(c, Next(c, s, Sweep), limit)
  {
    var id :| id in s.book.inProgress && Lingers(c, s.book.inProgress[id], limit);
    var t := Next(c, s, Sweep);
    assert s.clock < limit ==> id in t.book.inProgress && t.book.inProgress[id] == s.book.inProgress[id];
  }

  lemma HandlerTooLate(c: Config, s: State, e: Event, limit: int)
    requires Enabled(c, s, e) && TooLate(c, s, limit) && (e.Queued? || e.Begun? || e.Finished?)
    ensures Next(c, s, e) == s || TooBusy(c, Next(c, s, e), limit)
  {
  }

  lemma StepTooLate(c: Config, s: State, e: Event, limit: int)
    requires Enabled(c, s, e) && BookInv(c, s) && TooLate(c, s, limit) && !e.Choose?
    ensures NotDue(c, Next(c, s, e), limit)
  {
    if e.Observe? && e.seen.Some? {
      ObservationTooLate(c, s, e.seen.value, limit);
    } else if e.Sweep? {
      SweepTooLate(c, s, limit);
    } else if e.Queued? || e.Begun? || e.Finished? {
      HandlerTooLate(c, s, e, limit);
    } else {
      OthersLeaveBook(c, s, e);
      OtherOversized(c, s, e);
    }
  }

  lemma StepTooBusy(c: Config, s: State, e: Event, limit: int)
    requires Enabled(c, s, e) && BookInv(c, s) && TooBusy(c, s, limit) && !e.Choose?
    ensures TooBusy(c, Next(c, s, e), limit)
  {
    StepBook(c, s, e);
    if !(e.Observe? && e.seen.Some?) {
      OtherOversized(c, s, e);
    }
  }

  lemma OtherNotDue(c: Config, s: State, e: Event, limit: int)
    requires Enabled(c, s, e) && BookInv(c, s) && NotDue(c, s, limit) && !e.Check? && !e.Choose?
    ensures NotDue(c, Next(c, s, e), limit)
  {
    StepBook(c, s, e);
    if TooBusy(c, s, limit) {
      StepTooBusy(c, s, e, limit);
    } else if TooLate(c, s, limit) {
      StepTooLate(c, s, e, limit);
    } else if !ConcernsOutage(s, e) {
      OthersLeaveOutage(c, s, e);
    }
  }

  lemma OnlyCheckStarts(c: Config, s: State, e: Event)
    requires Enabled(c, s, e)
    ensures forall k :: |s.log| <= k < |Next(c, s, e).log| && Next(c, s, e).log[k].RecycleStarted? ==>
              && e.Check? && Next(c, s, e).log[k].time == e.now2
              && RecycleDue(c.opts, c.observed, s.applied, s.live, s.missing, c.startedAt, e.now1, e.now2)
  {
  }

  /** Every recycle since position n started at limit or later. */
  predicate StartsFrom(log: seq<Record>, n: nat, limit: int) {
    forall j :: n <= j < |log| && log[j].RecycleStarted? ==> log[j].time >= limit
  }

  lemma {:induction false} RunNotDue(c: Config, s: State, es: seq<Event>, t: State, limit: int)
    requires Exec(c, s, es) == Some(t) && BookInv(c, s) && NotDue(c, s, limit)
    ensures NotDue(c, t, limit) && StartsFrom(t.log, |s.log|, limit)
  {
    if es != [] {
      var m, e := ExecLast(c, s, es, t);
      RunNotDue(c, s, es[..|es| - 1], m, limit);
      RunBook(c, s, es[..|es| - 1], m);
      StepNotDue(c, m, e, limit);
      StepKeepsLog(c, m, e);
      OnlyCheckStarts(c, m, e);
      assert forall k :: 0 <= k < |m.log| ==> t.log[k] == m.log[k];
    }
  }

  lemma StepNotDue(c: Config, s: State, e: Event, limit: int)
    requires Enabled(c, s, e) && BookInv(c, s) && NotDue(c, s, limit)
    ensures NotDue(c, Next(c, s, e), limit)
    ensures e.Check? && RecycleDue(c.opts, c.observed, s.applied, s.live, s.missing, c.startedAt, e.now1, e.now2)
            ==> e.now2 >= limit
  {
    if e.Check? {
      CheckNotDue(c, s, e.now1, e.now2, limit);
    } else if e.Choose? {
      ChooseNotDue(c, s, e.now, limit);
    } else {
      OtherNotDue(c, s, e, limit);
    }
  }

  /** From any point of any iteration: with no outage on record that is older than
      this moment, with enough of StartupGrace left, or with a pool too large to be
      settled in time, whatever is brought up now gets RunnerGrace. */
  lemma GraceIsKept(c: Config, s: State)
    requires BookInv(c, s) && NotDue(c, s, s.clock + c.opts.runnerGrace)
    ensures GraceHonoured(c, s)
  {
    forall es, j: nat ensures !TooSoon(c, s, es, j) {
      if Exec(c, s, es).Some? {
        RunNotDue(c, s, es, Exec(c, s, es).value, s.clock + c.opts.runnerGrace);
      }
    }
  }

  // ------------------------------------------------------------------
  // When it is not
  // ------------------------------------------------------------------

  /** A recycle could start at time now, were the pool the size it should be. */
  predicate Ripe(c: Config, s: State, now: int) {
    && c.opts.Valid() && c.observed && c.opts.runnerGrace > 0
    && s.pc.Waiting? && s.live == 0 && s.missing.Some?
    && s.clock <= now
    && now - s.missing.value >= c.opts.runnerGrace
    && now - c.startedAt >= c.opts.startupGrace
  }

  /** With the demand equal to the count, the next iteration recycles. */
  lemma RecycleSettled(c: Config, s: State, es: seq<Event>, m: State, now: int) returns (fs: seq<Event>, t: State)
    requires Exec(c, s, es) == Some(m) && Ripe(c, m, now) && NothingDue(c, m)
    requires m.applied == Want(c.opts, m.book.queued, m.book.inProgress) > 0
    ensures Exec(c, s, fs) == Some(t) && Grows(m.log, t.log, false)
    ensures |t.log| == |m.log| + 2 && t.log[|m.log| + 1] == RecycleStarted(now)
  {
    fs, t := DecideBlind(c, s, es, m);
    fs, t := Do(c, s, fs, t, Check(now, now));
  }

  /** With the demand above the count, the next iteration brings replicas up. */
  lemma RaiseTo(c: Config, s: State, es: seq<Event>, m: State) returns (fs: seq<Event>, t: State)
    requires Exec(c, s, es) == Some(m) && m.pc.Waiting? && c.opts.Valid() && NothingDue(c, m)
    requires m.applied < Want(c.opts, m.book.queued, m.book.inProgress)
    ensures Exec(c, s, fs) == Some(t) && Grows(m.log, t.log, false)
    ensures t.pc.Waiting? && t.book == m.book && t.clock == m.clock
    ensures t.live == m.live && t.missing == m.missing
    ensures t.applied == Want(c.opts, m.book.queued, m.book.inProgress)
  {
    fs, t := DecideBlind(c, s, es, m);
    fs, t := Do(c, s, fs, t, Call(true, t.pc.d.desired));
    fs, t := Do(c, s, fs, t, Commit(m.clock));
  }

  /** Events at this very instant bring the demand to a count in range, and the pool
      to the demand; then a recycle starts as soon as the time is ripe. */
  lemma RecycleInRange(c: Config, s: State, es: seq<Event>, m: State, now: int)
    returns (fs: seq<Event>, t: State, j: nat)
    requires Exec(c, s, es) == Some(m) && Ripe(c, m, now) && m.applied <= c.opts.maxRunners
    ensures Exec(c, s, fs) == Some(t) && Grows(m.log, t.log, false)
    ensures |m.log| <= j < |t.log| && t.log[j] == RecycleStarted(now)
  {
    var level := Max(1, Max(m.applied, c.opts.minReplicas));
    var u, v;
    fs, u := SetDemand(c, s, es, m, level);
    v := u;
    if u.applied < level {
      fs, v := RaiseTo(c, s, fs, u);
      GrowsOn(m.log, u.log, v.log, false);
    }
    j := |v.log| + 1;
    fs, t := RecycleSettled(c, s, fs, v, now);
    GrowsOn(m.log, v.log, t.log, false);
  }

  /** The pool can come into range by itself, as Fly machines do when their runners
      exit, and a recount notices; no time passes. */
  lemma RecycleRecounted(c: Config, s: State, es: seq<Event>, m: State, now: int)
    returns (fs: seq<Event>, t: State, j: nat)
    requires Exec(c, s, es) == Some(m) && Ripe(c, m, now) && c.counting
    ensures Exec(c, s, fs) == Some(t) && Grows(m.log, t.log, true)
    ensures |m.log| <= j < |t.log| && t.log[j] == RecycleStarted(now)
  {
    var u, v;
    fs, u := SetDemand(c, s, es, m, c.opts.maxRunners);
    GrowsFairly(m.log, u.log, true);
    fs, v := DriftAndRecount(c, s, fs, u, c.opts.maxRunners);
    GrowsOn(m.log, u.log, v.log, true);
    var w;
    fs, w := DecideAt(c, s, fs, v, v.clock);
    j := |w.log|;
    fs, t := Do(c, s, fs, w, Check(now, now));
    assert Grows(v.log, t.log, true);
    GrowsOn(m.log, v.log, t.log, true);
  }

  lemma DriftAndRecount(c: Config, s: State, es: seq<Event>, m: State, n: nat) returns (fs: seq<Event>, t: State)
    requires Exec(c, s, es) == Some(m) && c.opts.Valid() && c.counting && m.pc.Waiting?
    ensures Exec(c, s, fs) == Some(t) && Grows(m.log, t.log, true)
    ensures t == m.(pc := ReadingCutoff, applied := n, truth := n, log := t.log)
  {
    fs, t := Do(c, s, es, m, Drift(n));
    fs, t := Do(c, s, fs, t, Event.Tick);
    fs, t := Do(c, s, fs, t, Recount(Some(n)));
    fs, t := Do(c, s, fs, t, Observe(None));
  }

  /** An observation at time now that reports no job at all. */
  function Nothing(now: int, dropQ: seq<int>, dropR: seq<int>): Observation {
    Observation(true, [], [], 0, now, now, dropQ, dropR)
  }

  /** It drops what is stale and leaves the time of the last activity alone. */
  lemma SeesNothing(c: Config, s: State, now: int) returns (o: Observation)
    requires c.opts.Valid() && c.observed && s.clock <= now
    ensures o.live == 0 && o.now == now && CanObserve(c, s, o)
    ensures var b := Absorb(c, s, o).book;
      && b.lastBusy == s.book.lastBusy
      && forall id :: id in b.inProgress ==>
           && id in s.book.inProgress && b.inProgress[id] == s.book.inProgress[id]
           && b.inProgress[id] + c.opts.idleCooldown >= now
  {
    var cutoff := now - c.opts.idleCooldown;
    assert Ids([]) == {};
    var dropQ := ListingOf(Stale(s.book.queued, {}, cutoff));
    var dropR := ListingOf(Stale(s.book.inProgress, {}, cutoff));
    o := Nothing(now, dropQ, dropR);
    assert AdoptOrders(s.book, o.queued, o.running, cutoff, dropQ, dropR);
  }

  /** By time now every running job is stale or due to expire. */
  predicate NoneLingers(c: Config, b: Book, now: int) {
    forall id :: id in b.inProgress ==>
      || b.inProgress[id] + c.opts.idleCooldown < now
      || (c.opts.jobTTL > 0 && b.inProgress[id] + c.opts.jobTTL < now)
  }

  /** Then an observation and a sweep at that time can empty the running map. */
  lemma DropAll(c: Config, s: State, es: seq<Event>, m: State, now: int) returns (fs: seq<Event>, t: State)
    requires Exec(c, s, es) == Some(m) && c.opts.Valid() && c.observed && m.pc.Waiting? && m.clock <= now
    requires m.applied > 0 && m.live == 0 && m.missing.Some? && NoneLingers(c, m.book, now)
    ensures Exec(c, s, fs) == Some(t) && Grows(m.log, t.log, false)
    ensures t.pc.Deciding? && t.clock == now && t.book.inProgress == map[] && t.book.lastBusy == m.book.lastBusy
    ensures t.applied == m.applied && t.live == 0 && t.missing == m.missing
  {
    fs, t := Do(c, s, es, m, Event.Tick);
    fs, t := Do(c, s, fs, t, Recount(None));
    var o := SeesNothing(c, t, now);
    fs, t := Do(c, s, fs, t, Observe(Some(o)));
    fs, t := ExpireRest(c, s, fs, t);
  }

  lemma ExpireRest(c: Config, s: State, es: seq<Event>, m: State) returns (fs: seq<Event>, t: State)
    requires Exec(c, s, es) == Some(m) && c.opts.Valid() && m.pc.ReadingCutoff?
    requires forall id :: id in m.book.inProgress ==>
               c.opts.jobTTL > 0 && m.book.inProgress[id] + c.opts.jobTTL < m.clock
    ensures Exec(c, s, fs) == Some(t) && t.book.inProgress == map[]
    ensures t == m.(pc := Deciding, book := m.book.(queued := t.book.queued, inProgress := map[]))
  {
    fs, t := Do(c, s, es, m, ReadCutoff(m.clock));
    if t.pc.Sweeping? {
      forall id ensures id !in Fresher(m.book.inProgress, t.pc.cutoff) {
      }
      fs, t := Do(c, s, fs, t, Sweep);
    } else {
      assert forall id :: id !in m.book.inProgress;
      assert m.book.inProgress == map[];
    }
  }

  /** An oversized pool with nothing running shrinks as soon as it may. */
  lemma ShrinkNow(c: Config, s: State, es: seq<Event>, m: State) returns (fs: seq<Event>, t: State)
    requires Exec(c, s, es) == Some(m) && c.opts.Valid() && m.pc.Deciding?
    requires m.applied > c.opts.maxRunners && m.book.inProgress == map[]
    requires m.clock - m.book.lastBusy >= c.opts.idleCooldown && m.clock - c.startedAt >= c.opts.startupGrace
    ensures Exec(c, s, fs) == Some(t) && Grows(m.log, t.log, false)
    ensures t.pc.Waiting? && t.applied <= c.opts.maxRunners
    ensures t.live == m.live && t.missing == m.missing && t.clock == m.clock
  {
    HeldExactly(c.opts, m.book, m.applied, c.startedAt, m.clock);
    fs, t := Do(c, s, es, m, Choose(m.clock));
    fs, t := Do(c, s, fs, t, Reread);
    fs, t := Do(c, s, fs, t, Call(true, t.pc.d.desired));
    fs, t := Do(c, s, fs, t, Commit(m.clock));
  }

  /** Running jobs can also complete, which is activity. */
  lemma RecycleOversized(c: Config, s: State, now: int) returns (es: seq<Event>, t: State, j: nat)
    requires Ripe(c, s, now) && s.applied > c.opts.maxRunners && s.book.lastBusy <= s.clock
    requires now - s.book.lastBusy >= c.opts.idleCooldown
    requires NoneLingers(c, s.book, now) || now - s.clock >= c.opts.idleCooldown
    ensures Exec(c, s, es) == Some(t) && Grows(s.log, t.log, false)
    ensures |s.log| <= j < |t.log| && t.log[j] == RecycleStarted(now)
  {
    var u, v, w;
    es, u := [], s;
    if !NoneLingers(c, s.book, now) {
      es, u := ClearJobs(c, s, [], s);
    }
    es, v := DropAll(c, s, es, u, now);
    GrowsOn(s.log, u.log, v.log, false);
    es, w := ShrinkNow(c, s, es, v);
    GrowsOn(s.log, v.log, w.log, false);
    es, t, j := RecycleInRange(c, s, es, w, now);
    GrowsOn(s.log, w.log, t.log, false);
  }

  // ------------------------------------------------------------------
  // Exactly
  // ------------------------------------------------------------------

  /** What protects whatever is brought up now, for a pool of any size. */
  predicate NoOldOutage(c: Config, s: State) {
    || c.opts.runnerGrace == 0
    || s.missing.None?
    || s.missing.value >= s.clock
    || c.startedAt + c.opts.startupGrace >= s.clock + c.opts.runnerGrace
  }

  /** Between iterations, whatever the demand is: whatever is brought up now gets
      RunnerGrace before any recycle, under every continuation, exactly when no
      outage from before this moment is on record or enough of StartupGrace is left.
      A fair platform does not change that; nor one that never changes by itself,
      if the count is in range. */
  lemma GraceExactlyWhenOutageIsRecent(c: Config, s: State)
    requires Reachable(c, s) && s.pc.Waiting? && (c.counting || s.applied <= c.opts.maxRunners)
    ensures GraceHonoured(c, s) <==> NoOldOutage(c, s)
    ensures FairGrace(c, s, true) <==> NoOldOutage(c, s)
    ensures s.applied <= c.opts.maxRunners ==> (FairGrace(c, s, false) <==> NoOldOutage(c, s))
  {
    ReachableFlow(c, s);
    ReachableOutage(c, s);
    if NoOldOutage(c, s) {
      GraceIsKept(c, s);
    } else {
      var now := s.clock + c.opts.runnerGrace - 1;
      var es, t, j;
      if s.applied <= c.opts.maxRunners {
        es, t, j := RecycleInRange(c, s, [], s, now);
        BrokenBy(c, s, es, t, j, false);
        GrowsFairly(s.log, t.log, true);
      } else {
        es, t, j := RecycleRecounted(c, s, [], s, now);
      }
      BrokenBy(c, s, es, t, j, true);
    }
  }

  /** The remaining case: a pool above MaxRunners that cannot be recounted must shrink
      first. So it is also safe while IdleCooldown lasts long enough, or lasts to the
      last instant when some running job can be neither dropped nor expired by then
      and could only complete, which would start IdleCooldown again. */
  lemma GraceOfOversizedPool(c: Config, s: State)
    requires Reachable(c, s) && s.pc.Waiting? && !c.counting && s.applied > c.opts.maxRunners
    ensures var limit := s.clock + c.opts.runnerGrace;
      var protected := NoOldOutage(c, s) || TooBusy(c, s, limit) || TooLate(c, s, limit);
      && (GraceHonoured(c, s) <==> protected)
      && (FairGrace(c, s, false) <==> protected)
  {
    ReachableFlow(c, s);
    ReachableOutage(c, s);
    var limit := s.clock + c.opts.runnerGrace;
    if NoOldOutage(c, s) || TooBusy(c, s, limit) || TooLate(c, s, limit) {
      GraceIsKept(c, s);
    } else {
      if c.opts.idleCooldown >= c.opts.runnerGrace {
        assert NoneLingers(c, s.book, limit - 1);
      }
      var es, t, j := RecycleOversized(c, s, limit - 1);
      BrokenBy(c, s, es, t, j, false);
    }
  }
}
