/** What the two job maps and the record of finished jobs say about each other. */
module JobSets {
  import opened Seqs
  import opened Bounded
  import opened Scaler
  import opened Adoption
  import opened Machine
  import opened Flow
  import opened Drive

  /** In every reachable state, late `queued` events included: no running job is
      remembered as finished, a job in both maps has the older running entry, and
      no job was recorded after the last job activity. */
  lemma RunningIsNeverDone(c: Config, t: State)
    requires Reachable(c, t)
    ensures t.book.inProgress.Keys !! Elems(t.book.done.order)
    ensures forall id :: id in t.book.inProgress && id in t.book.queued
              ==> t.book.inProgress[id] <= t.book.queued[id]
    ensures forall id :: id in t.book.queued ==> t.book.queued[id] <= t.book.lastBusy
    ensures forall id :: id in t.book.inProgress ==> t.book.inProgress[id] <= t.book.lastBusy
    ensures t.book.lastBusy <= t.clock
  {
    ReachableFlow(c, t);
  }

  // ------------------------------------------------------------------
  // The last activity
  // ------------------------------------------------------------------

  /** Sighting only finished or tracked jobs changes nothing. */
  lemma {:induction false} NothingNew(b: Book, seen: seq<Sighting>)
    ensures (forall id :: id in Ids(seen) ==> id in b.done.order || id in b.inProgress || id in b.queued)
            ==> SightAllQueued(b, seen) == b
    ensures (forall id :: id in Ids(seen) ==> id in b.done.order || id in b.inProgress)
            ==> SightAllRunning(b, seen) == b
  {
    if seen != [] {
      var n := |seen| - 1;
      assert seen == seen[..n] + [seen[n]];
      IdsAppend(seen[..n], seen[n]);
      assert Ids(seen) == Ids(seen[..n]) + {seen[n].id};
      NothingNew(b, seen[..n]);
    }
  }

  /** r records job activity at this time: an accepted event, or an observation
      that brought a new job. */
  predicate Activity(r: Record, time: int) {
    (r.Heard? && r.time == time) || (r.Looked? && r.found == Some(time))
  }

  ghost predicate BusyInv(s: State, start: int) {
    s.book.lastBusy == start || exists k :: 0 <= k < |s.log| && Activity(s.log[k], s.book.lastBusy)
  }

  lemma BusyAppend(s: State, t: State, start: int)
    requires BusyInv(s, start) && s.log <= t.log
    requires t.book.lastBusy == s.book.lastBusy
             || (|s.log| < |t.log| && Activity(t.log[|s.log|], t.book.lastBusy))
    ensures BusyInv(t, start)
  {
    if t.book.lastBusy == s.book.lastBusy {
      if k :| 0 <= k < |s.log| && Activity(s.log[k], s.book.lastBusy) {
        assert t.log[k] == s.log[k];
      }
    }
  }

  lemma ObservationBusy(c: Config, s: State, o: Observation)
    requires c.opts.Valid() && CanObserve(c, s, o)
    ensures var t := Absorb(c, s, o);
      t.book.lastBusy == s.book.lastBusy || Activity(t.log[|s.log|], t.book.lastBusy)
  {
    if o.jobsObserved && !FindsNew(s.book, o) {
      NothingNew(s.book, o.queued);
      NothingNew(s.book, o.running);
    }
  }

  lemma StepBusy(c: Config, s: State, e: Event, start: int)
    requires Enabled(c, s, e) && BusyInv(s, start)
    ensures BusyInv(Next(c, s, e), start)
  {
    StepKeepsLog(c, s, e);
    if e.Observe? && e.seen.Some? {
      ObservationBusy(c, s, e.seen.value);
    } else if !TouchesBook(e) {
      OthersLeaveBook(c, s, e);
    }
    BusyAppend(s, Next(c, s, e), start);
  }

  lemma {:induction false} RunBusy(c: Config, s: State, es: seq<Event>, t: State, start: int)
    requires Exec(c, s, es) == Some(t) && BusyInv(s, start)
    ensures BusyInv(t, start)
  {
    if es != [] {
      var m, e := ExecLast(c, s, es, t);
      RunBusy(c, s, es[..|es| - 1], m, start);
      StepBusy(c, m, e, start);
    }
  }

  /** lastBusy is exactly the time of the latest job activity, or the time the
      service started when there has been none later. */
  lemma LastBusyIsLatestActivity(c: Config, s: State, es: seq<Event>, t: State)
    requires Init(c, s) && Exec(c, s, es) == Some(t)
    ensures forall k, time :: 0 <= k < |t.log| && Activity(t.log[k], time) ==> time <= t.book.lastBusy
    ensures t.book.lastBusy == s.book.lastBusy || exists k :: 0 <= k < |t.log| && Activity(t.log[k], t.book.lastBusy)
    ensures s.book.lastBusy <= t.book.lastBusy
  {
    InitFlow(c, s);
    RunFlow(c, s, es, t);
    RunBusy(c, s, es, t, s.book.lastBusy);
    RunKeepsBusy(c, s, es, t);
  }

  lemma {:induction false} RunKeepsBusy(c: Config, s: State, es: seq<Event>, t: State)
    requires Exec(c, s, es) == Some(t) && BookInv(c, s)
    ensures s.book.lastBusy <= t.book.lastBusy
  {
    if es != [] {
      var m, e := ExecLast(c, s, es, t);
      RunKeepsBusy(c, s, es[..|es| - 1], m);
      RunBook(c, s, es[..|es| - 1], m);
      StepBook(c, m, e);
    }
  }

  // ------------------------------------------------------------------
  // Pairwise disjointness, exactly
  // ------------------------------------------------------------------

  /** A `queued` event is accepted for a job that is running. */
  predicate Late(s: State, e: Event) {
    e.Queued? && e.id !in s.book.done.order && e.id in s.book.inProgress
  }

  predicate Punctual(log: seq<Record>) {
    forall i :: 0 <= i < |log| ==> !(log[i].Heard? && log[i].what.JobQueued? && log[i].wasRunning)
  }

  lemma QueuedDisjoint(b: Book, id: int, stamp: int, busy: int)
    requires Disjoint(b)
    ensures Disjoint(Queue(b, id, stamp, busy)) <==> id in b.done.order || id !in b.inProgress
  {
    if id !in b.done.order && id in b.inProgress {
      assert id in Queue(b, id, stamp, busy).queued.Keys && id in b.inProgress.Keys;
    }
  }

  lemma OtherBooksDisjoint(c: Config, s: State, e: Event)
    requires Enabled(c, s, e) && BookInv(c, s) && Disjoint(s.book) && !e.Queued?
    ensures Disjoint(Next(c, s, e).book)
  {
    var size := c.opts.trackedJobs;
    if !TouchesBook(e) {
      OthersLeaveBook(c, s, e);
    } else if e.Begun? {
      BeginKeepsSound(s.book, size, s.clock, e.id, e.stamp, e.busy);
    } else if e.Finished? {
      FinishKeepsSound(s.book, size, s.clock, e.id, e.busy);
    } else if e.Sweep? {
      ExpireKeepsSound(s.book, size, s.clock, s.pc.cutoff);
    } else {
      var o := e.seen.value;
      ObservationDisjoint(c, s, o);
    }
  }

  lemma ObservationDisjoint(c: Config, s: State, o: Observation)
    requires c.opts.Valid() && BookInv(c, s) && Disjoint(s.book) && CanObserve(c, s, o)
    ensures Disjoint(Absorb(c, s, o).book)
  {
    if o.jobsObserved {
      AdoptKeepsSound(s.book, c.opts.trackedJobs, s.clock, o.queued, o.running,
                      o.cutoffNow - c.opts.idleCooldown, o.dropQ, o.dropR);
    }
  }

  lemma StepPunctual(c: Config, s: State, e: Event)
    requires Enabled(c, s, e) && Punctual(s.log)
    ensures Punctual(Next(c, s, e).log) <==> !Late(s, e)
  {
    var t := Next(c, s, e);
    StepKeepsLog(c, s, e);
    if t.log != s.log {
      assert t.log == s.log + [t.log[|s.log|]];
      assert Late(s, e) <==> t.log[|s.log|].Heard? && t.log[|s.log|].what.JobQueued? && t.log[|s.log|].wasRunning;
    }
  }

  /** From disjoint sets, a step keeps them disjoint exactly when it is not late. */
  lemma StepDisjoint(c: Config, s: State, e: Event)
    requires Enabled(c, s, e) && BookInv(c, s) && Disjoint(s.book)
    ensures Disjoint(Next(c, s, e).book) <==> !Late(s, e)
    ensures Punctual(s.log) ==> (Punctual(Next(c, s, e).log) <==> !Late(s, e))
  {
    if Punctual(s.log) {
      StepPunctual(c, s, e);
    }
    if e.Queued? {
      QueuedDisjoint(s.book, e.id, e.stamp, e.busy);
    } else {
      OtherBooksDisjoint(c, s, e);
    }
  }

  /** The sets are pairwise disjoint in every state the run passes through. */
  ghost predicate AlwaysDisjoint(c: Config, s: State, es: seq<Event>) {
    && (es != [] ==> AlwaysDisjoint(c, s, es[..|es| - 1]))
    && (Exec(c, s, es).Some? ==> Disjoint(Exec(c, s, es).value.book))
  }

  /** Over a whole run, `queued`, `inProgress` and `done` stay pairwise disjoint
      exactly when no `queued` event is accepted for a running job. */
  lemma {:induction false} DisjointExactlyWhenPunctual(c: Config, s: State, es: seq<Event>, t: State)
    requires Init(c, s) && Exec(c, s, es) == Some(t)
    ensures AlwaysDisjoint(c, s, es) <==> Punctual(t.log)
  {
    InitFlow(c, s);
    if es == [] {
      InitBook(c, s);
    } else {
      var m, e := ExecLast(c, s, es, t);
      var p := es[..|es| - 1];
      DisjointExactlyWhenPunctual(c, s, p, m);
      RunBook(c, s, p, m);
      StepKeepsLog(c, m, e);
      if AlwaysDisjoint(c, s, p) {
        StepDisjoint(c, m, e);
      } else {
        var i :| 0 <= i < |m.log| && m.log[i].Heard? && m.log[i].what.JobQueued? && m.log[i].wasRunning;
        assert t.log[i] == m.log[i];
      }
    }
  }

  lemma CardUnion(q: set<int>, p: set<int>)
    ensures |q| + |p| == |q + p| + |q * p|
  {
    assert q + p == q + (p - q);
    assert p == (p - q) + (p * q);
    assert q * p == p * q;
  }

  /** The demand |queued| + |inProgress| counts every tracked job once exactly when
      no job sits in both maps. */
  lemma DemandCountsJobsOnce(b: Book)
    ensures |b.queued| + |b.inProgress| == |b.queued.Keys + b.inProgress.Keys|
            <==> b.queued.Keys !! b.inProgress.Keys
  {
    var q, p := b.queued.Keys, b.inProgress.Keys;
    CardUnion(q, p);
    assert |b.queued| == |q| && |b.inProgress| == |p|;
    assert forall id :: id in q * p <==> id in q && id in p;
    assert |q * p| == 0 <==> q !! p;
  }

  /** A late `queued` event is enough: from any initial state, and for any job, one
      `in_progress` and then one `queued` put the job in both maps, and the one job
      asks for two replicas where two are allowed. */
  lemma LateQueuedCountsTwice(c: Config, s: State, id: int) returns (es: seq<Event>, t: State)
    requires Init(c, s)
    ensures es == [Begun(id, s.clock, s.clock), Queued(id, s.clock, s.clock)] && Exec(c, s, es) == Some(t)
    ensures t.book.queued.Keys == {id} && t.book.inProgress.Keys == {id}
    ensures Want(c.opts, t.book.queued, t.book.inProgress) == Clamp(2, c.opts.minReplicas, c.opts.maxRunners)
  {
    var e, f := Begun(id, s.clock, s.clock), Queued(id, s.clock, s.clock);
    ExecOne(c, s, e);
    ExecSnoc(c, s, [e], Next(c, s, e), f);
    es, t := [e] + [f], Next(c, Next(c, s, e), f);
    assert t.book.queued == map[id := s.clock] && t.book.inProgress == map[id := s.clock];
    assert t.book.queued.Keys == {id} && t.book.inProgress.Keys == {id};
    assert |t.book.queued| == |t.book.queued.Keys| == 1 && |t.book.inProgress| == |t.book.inProgress.Keys| == 1;
  }

  // ------------------------------------------------------------------
  // Forgotten though confirmed
  // ------------------------------------------------------------------

  /** An observation of live runners that finds exactly these jobs running. */
  function Sees(running: seq<Sighting>, now: int, dropR: seq<int>): Observation {
    Observation(true, [], running, 1, now, now, [], dropR)
  }

  /** One running job, recorded at time since. */
  predicate OnlyRuns(b: Book, id: int, since: int) {
    b.queued == map[] && b.inProgress == map[id := since] && id !in b.done.order
  }

  lemma ConfirmOne(c: Config, s: State, id: int, since: int, now: int)
    requires c.opts.Valid() && c.observed && OnlyRuns(s.book, id, since) && s.clock <= now
    ensures CanObserve(c, s, Sees([Sighting(id, now, now)], now, []))
    ensures Absorb(c, s, Sees([Sighting(id, now, now)], now, [])).book == s.book
  {
    var seen := [Sighting(id, now, now)];
    assert seen[0].id == id && Ids(seen) == {id};
    NothingNew(s.book, seen);
    assert Sight(s.book, [], seen) == s.book;
    assert Stale(s.book.inProgress, Ids([]) + Ids(seen), now - c.opts.idleCooldown) == {};
    assert Stale(s.book.queued, Ids([]) + Ids(seen), now - c.opts.idleCooldown) == {};
    assert Elems<int>([]) == {};
    assert s.book.queued - {} == s.book.queued && s.book.inProgress - {} == s.book.inProgress;
  }

  lemma MissOne(c: Config, s: State, id: int, since: int, now: int)
    requires c.opts.Valid() && c.observed && OnlyRuns(s.book, id, since) && s.clock <= now
    requires now - since > c.opts.idleCooldown
    ensures CanObserve(c, s, Sees([], now, [id]))
    ensures id !in Absorb(c, s, Sees([], now, [id])).book.inProgress
    ensures id in Absorb(c, s, Sees([], now, [id])).book.done.order
  {
    assert Ids([]) == {};
    assert Stale(s.book.inProgress, {}, now - c.opts.idleCooldown) == {id};
    assert Stale(s.book.queued, {}, now - c.opts.idleCooldown) == {};
    assert Elems<int>([]) == {} && Elems([id]) == {id};
    assert AddAll(c.opts.trackedJobs, s.book.done, []) == s.book.done;
    AddAllSnoc(c.opts.trackedJobs, s.book.done, [], id);
    assert [] + [id] == [id];
  }

  /** From every initial state, for any job: GitHub confirms that it is running, and
      the next observation, at the same instant, misses it and has it forgotten,
      because it was first recorded more than IdleCooldown before. */
  lemma ForgottenThoughConfirmed(c: Config, s: State, id: int)
    returns (p: State, confirmed: Observation, q: State, missed: Observation)
    requires Init(c, s) && c.observed && (c.opts.jobTTL == 0 || c.opts.jobTTL > c.opts.idleCooldown)
    ensures Leads(c, s, p) && Enabled(c, p, Observe(Some(confirmed)))
    ensures Leads(c, Next(c, p, Observe(Some(confirmed))), q) && Enabled(c, q, Observe(Some(missed)))
    ensures confirmed.now == missed.now
    ensures id in Ids(confirmed.running) && id in Next(c, p, Observe(Some(confirmed))).book.inProgress
    ensures id !in Next(c, q, Observe(Some(missed))).book.inProgress
    ensures id in Next(c, q, Observe(Some(missed))).book.done.order
  {
    var now := s.clock + c.opts.idleCooldown + 1;
    var es;
    es, p := Do(c, s, [], s, Begun(id, s.clock, s.clock));
    es, p := Do(c, s, es, p, Recount(None));
    assert OnlyRuns(p.book, id, s.clock);
    confirmed := Sees([Sighting(id, now, now)], now, []);
    assert confirmed.running[0].id == id;
    ConfirmOne(c, p, id, s.clock, now);
    missed := Sees([], now, [id]);
    q := Missing(c, Next(c, p, Observe(Some(confirmed))), id, s.clock);
    MissOne(c, q, id, s.clock, now);
  }

  /** The rest of the iteration, and the next one up to its observation. */
  lemma Missing(c: Config, m: State, id: int, since: int) returns (q: State)
    requires c.opts.Valid() && m.pc.ReadingCutoff? && OnlyRuns(m.book, id, since) && m.live == 1
    requires c.opts.jobTTL == 0 || m.clock - since <= c.opts.jobTTL
    ensures Leads(c, m, q) && q.pc.Observing? && q.book == m.book && q.clock == m.clock
  {
    var es;
    es, q := DecideAt(c, m, [], m, m.clock);
    es, q := EndIteration(c, m, es, q);
    es, q := Do(c, m, es, q, Event.Tick);
    es, q := Do(c, m, es, q, Recount(None));
  }

  // ------------------------------------------------------------------
  // No resurrection
  // ------------------------------------------------------------------

  predicate Tracked(b: Book, id: int) {
    id in b.queued || id in b.inProgress
  }

  /** id entered `done` at position p; until `size` fresh ids have followed it
      there, it is not tracked. */
  ghost predicate Buried(b: Book, size: nat, id: int, p: nat) {
    && p < |b.done.history| && b.done.history[p] == id
    && (Tracked(b, id) ==> |b.done.history| - p - 1 >= size)
  }

  lemma AdoptKeepsBuried(b: Book, size: nat, now: int, queued: seq<Sighting>, running: seq<Sighting>,
                         cutoff: int, dropQ: seq<int>, dropR: seq<int>, id: int, p: nat)
    requires Sound(b, size, now) && Buried(b, size, id, p)
    requires AdoptOrders(b, queued, running, cutoff, dropQ, dropR)
    ensures Buried(Adopt(b, size, queued, running, dropQ, dropR), size, id, p)
  {
    NotForgottenBefore(size, b.done, id, p);
    AdoptTracks(b, size, queued, running, cutoff, dropQ, dropR);
    SightingsLeaveStale(b, queued, running, cutoff);
    WindowIsTailOfHistory(size, b.done, dropQ);
    WindowIsTailOfHistory(size, AddAll(size, b.done, dropQ), dropR);
    var r := Adopt(b, size, queued, running, dropQ, dropR);
    assert id in r.queued <==> id in r.queued.Keys;
    assert id in r.inProgress <==> id in r.inProgress.Keys;
    assert id in b.done.order <==> id in Elems(b.done.order);
  }

  lemma ObservationKeepsBuried(c: Config, s: State, o: Observation, id: int, p: nat)
    requires c.opts.Valid() && BookInv(c, s) && CanObserve(c, s, o) && Buried(s.book, c.opts.trackedJobs, id, p)
    ensures Buried(Absorb(c, s, o).book, c.opts.trackedJobs, id, p)
  {
    if o.jobsObserved {
      AdoptKeepsBuried(s.book, c.opts.trackedJobs, s.clock, o.queued, o.running,
                       o.cutoffNow - c.opts.idleCooldown, o.dropQ, o.dropR, id, p);
    }
  }

  /** News about id is ignored while it is remembered; another completion that
      makes the set forget it is one more fresh id. */
  lemma HandlerKeepsBuried(c: Config, s: State, e: Event, id: int, p: nat)
    requires Enabled(c, s, e) && BookInv(c, s) && Buried(s.book, c.opts.trackedJobs, id, p)
    requires e.Queued? || e.Begun? || e.Finished?
    ensures Buried(Next(c, s, e).book, c.opts.trackedJobs, id, p)
  {
    var size := c.opts.trackedJobs;
    match e
    case Queued(other, stamp, busy) => NewsKeepsBuried(s.book, size, other, stamp, busy, id, p);
    case Begun(other, stamp, busy) => NewsKeepsBuried(s.book, size, other, stamp, busy, id, p);
    case Finished(other, busy) => FinishKeepsBuried(s.book, size, other, busy, id, p);
  }

  lemma NewsKeepsBuried(b: Book, size: nat, other: int, stamp: int, busy: int, id: int, p: nat)
    requires size >= 1 && Refines(size, b.done) && Buried(b, size, id, p)
    ensures Buried(Queue(b, other, stamp, busy), size, id, p)
    ensures Buried(Begin(b, other, stamp, busy), size, id, p)
  {
    if other == id {
      NotForgottenBefore(size, b.done, id, p);
    }
  }

  lemma FinishKeepsBuried(b: Book, size: nat, other: int, busy: int, id: int, p: nat)
    requires size >= 1 && Refines(size, b.done) && Buried(b, size, id, p)
    ensures Buried(Finish(b, size, other, busy), size, id, p)
  {
    AddKeyRefines(size, b.done, other);
  }

  lemma StepBuried(c: Config, s: State, e: Event, id: int, p: nat)
    requires Enabled(c, s, e) && BookInv(c, s) && Buried(s.book, c.opts.trackedJobs, id, p)
    ensures Buried(Next(c, s, e).book, c.opts.trackedJobs, id, p)
  {
    if !TouchesBook(e) {
      OthersLeaveBook(c, s, e);
    } else if e.Observe? {
      ObservationKeepsBuried(c, s, e.seen.value, id, p);
    } else if !e.Sweep? {
      HandlerKeepsBuried(c, s, e, id, p);
    }
  }

  lemma {:induction false} RunBuried(c: Config, s: State, es: seq<Event>, t: State, id: int, p: nat)
    requires Exec(c, s, es) == Some(t) && BookInv(c, s) && Buried(s.book, c.opts.trackedJobs, id, p)
    ensures Buried(t.book, c.opts.trackedJobs, id, p)
  {
    if es != [] {
      var m, e := ExecLast(c, s, es, t);
      RunBuried(c, s, es[..|es| - 1], m, id, p);
      RunBook(c, s, es[..|es| - 1], m);
      StepBuried(c, m, e, id, p);
    }
  }

  /** After a completion, no later events, observations, expiries or other
      completions make the job tracked again before `trackedJobs` fresh ids have
      entered `done` after it did. */
  lemma NoResurrection(c: Config, s: State, id: int, busy: int, es: seq<Event>, t: State) returns (p: nat)
    requires Reachable(c, s) && Enabled(c, s, Finished(id, busy))
    requires Exec(c, Next(c, s, Finished(id, busy)), es) == Some(t)
    ensures LastEntry(Next(c, s, Finished(id, busy)).book.done.history, id, p)
    ensures Next(c, s, Finished(id, busy)).book.done.history <= t.book.done.history
    ensures id in t.book.queued || id in t.book.inProgress
            ==> |t.book.done.history| - p - 1 >= c.opts.trackedJobs
  {
    ReachableFlow(c, s);
    var e := Finished(id, busy);
    var f := Next(c, s, e);
    StepBook(c, s, e);
    AddKeyRefines(c.opts.trackedJobs, s.book.done, id);
    p := RememberedEntry(c.opts.trackedJobs, f.book.done, id);
    RunBuried(c, f, es, t, id, p);
    RunKeepsHistory(c, f, es, t);
  }

  lemma ObservationKeepsHistory(c: Config, s: State, o: Observation)
    requires c.opts.Valid() && BookInv(c, s) && CanObserve(c, s, o)
    ensures s.book.done.history <= Absorb(c, s, o).book.done.history
  {
    if o.jobsObserved {
      var size := c.opts.trackedJobs;
      SightingsLeaveStale(s.book, o.queued, o.running, o.cutoffNow - c.opts.idleCooldown);
      WindowIsTailOfHistory(size, s.book.done, o.dropQ);
      WindowIsTailOfHistory(size, AddAll(size, s.book.done, o.dropQ), o.dropR);
    }
  }

  lemma StepKeepsHistory(c: Config, s: State, e: Event)
    requires Enabled(c, s, e) && BookInv(c, s)
    ensures s.book.done.history <= Next(c, s, e).book.done.history
  {
    if !TouchesBook(e) {
      OthersLeaveBook(c, s, e);
    } else if e.Observe? {
      ObservationKeepsHistory(c, s, e.seen.value);
    } else if e.Finished? {
      AddKeyRefines(c.opts.trackedJobs, s.book.done, e.id);
    }
  }

  lemma {:induction false} RunKeepsHistory(c: Config, s: State, es: seq<Event>, t: State)
    requires Exec(c, s, es) == Some(t) && BookInv(c, s)
    ensures s.book.done.history <= t.book.done.history
  {
    if es != [] {
      var m, e := ExecLast(c, s, es, t);
      RunKeepsHistory(c, s, es[..|es| - 1], m);
      RunBook(c, s, es[..|es| - 1], m);
      StepKeepsHistory(c, m, e);
    }
  }
}
