/** The autoscaler object: its fields, its methods and their loops. Every method is
    proved to take exactly the steps of the machine it stands for. */
module Autoscaling {
  import opened Seqs
  import opened Bounded
  import opened Scaler
  import opened Adoption
  import opened Machine
  import opened Wakeups

  /** A clock that never goes back. */
  class Clock {
    var now: int

    constructor ()
    {
    }

    method Now() returns (t: int)
      modifies this
      ensures old(now) <= t == now
    {
      var passed: int := *;
      if passed > 0 {
        now := now + passed;
      }
      return now;
    }
  }

  /** One backend call: the count asked for, and whether it succeeded. */
  datatype Attempt = Attempt(arg: int, ok: bool)

  /** Applies replica counts. What the pool holds afterwards is up to the platform. */
  class Backend {
    var calls: seq<Attempt>
    var counts: seq<Option<int>>

    constructor ()
      ensures calls == [] && counts == []
    {
      calls, counts := [], [];
    }

    method SetReplicas(n: int) returns (ok: bool, ghost after: int)
      modifies this`calls
      ensures calls == old(calls) + [Attempt(n, ok)]
    {
      ok := *;
      after := *;
      calls := calls + [Attempt(n, ok)];
    }

    /** The live count, from a backend that can report it. */
    method Replicas() returns (count: Option<int>)
      modifies this`counts
      ensures counts == old(counts) + [count]
      ensures count.Some? ==> count.value >= 0
    {
      var n: int := *;
      count := if n >= 0 then Some(n) else None;
      counts := counts + [count];
    }
  }

  /** What an observer returns: ids as GitHub lists them, repeats and all. */
  datatype Report = Report(jobsObserved: bool, queued: seq<int>, inProgress: seq<int>, liveRunners: nat)

  /** GitHub, asked for the outstanding jobs and the live runners. Each answer is a
      report or a failure. */
  class GitHub {
    var answers: seq<Option<Report>>

    constructor ()
      ensures answers == []
    {
      answers := [];
    }

    method Ask() returns (o: Option<Report>)
      modifies this
      ensures answers == old(answers) + [o]
    {
      var failed: bool := *;
      var jobs: bool, queued: seq<int>, running: seq<int>, live: nat := *, *, *, *;
      o := if failed then None else Some(Report(jobs, queued, running, live));
      answers := answers + [o];
    }
  }

  /** What the loop waits for. */
  datatype Signal = Token | Ticker | Cancelled

  /** The select at the end of the loop. It blocks until something is ready; when
      several things are, any of them may win. */
  class Signals {
    var won: seq<Signal>

    constructor ()
      ensures won == []
    {
      won := [];
    }

    method Select(token: bool) returns (s: Signal)
      modifies this
      ensures won == old(won) + [s]
      ensures s.Token? ==> token
    {
      s := *;
      if s.Token? && !token {
        s := Ticker;
      }
      won := won + [s];
    }
  }

  function EventOf(s: Signal): Event {
    match s
    case Token => Wake
    case Ticker => Event.Tick
    case Cancelled => Cancel
  }

  /** An observation step carries exactly what GitHub answered. */
  predicate Reported(answer: Option<Report>, seen: Option<Observation>) {
    match answer
    case None => seen.None?
    case Some(o) =>
      && seen.Some?
      && seen.value.jobsObserved == o.jobsObserved && seen.value.live == o.liveRunners
      && (o.jobsObserved ==> Ids(seen.value.queued) == Elems(o.queued) && Ids(seen.value.running) == Elems(o.inProgress))
  }

  /** An iteration starts with the count it read and the answer it got: one of each
      if there is something to ask, none if not. */
  predicate Consulted(c: Config, es: seq<Event>, counts: seq<Option<int>>, moreCounts: seq<Option<int>>,
                      answers: seq<Option<Report>>, moreAnswers: seq<Option<Report>>)
  {
    && |es| >= 2 && es[0].Recount? && es[1].Observe?
    && (if c.counting then moreCounts == counts + [es[0].count] else moreCounts == counts && es[0].count.None?)
    && (if c.observed then |moreAnswers| > 0 && moreAnswers == answers + [moreAnswers[|moreAnswers| - 1]]
                           && Reported(moreAnswers[|moreAnswers| - 1], es[1].seen)
        else moreAnswers == answers && es[1].seen.None?)
  }

  /** The calls a history records, in order. */
  function CallsOf(log: seq<Record>): seq<Attempt> {
    if log == [] then []
    else
      var r := log[|log| - 1];
      CallsOf(log[..|log| - 1]) + if r.Called? then [Attempt(r.arg, r.ok)] else []
  }

  lemma CallsOfSnoc(log: seq<Record>, r: Record)
    ensures CallsOf(log + [r]) == CallsOf(log) + if r.Called? then [Attempt(r.arg, r.ok)] else []
  {
    assert (log + [r])[..|log + [r]| - 1] == log;
  }

  /** A step logs at most one call. */
  lemma StepCalls(c: Config, s: State, e: Event)
    requires Enabled(c, s, e)
    ensures CallsOf(Next(c, s, e).log)
            == CallsOf(s.log) + if e.Call? then [Attempt(CallArg(s.pc), e.ok)] else []
  {
    var t := Next(c, s, e);
    if t.log != s.log {
      StepKeepsLog(c, s, e);
      assert t.log == s.log + [t.log[|s.log|]];
      CallsOfSnoc(s.log, t.log[|s.log|]);
    }
  }

  predicate FromHandler(e: Event) {
    e.Queued? || e.Begun? || e.Finished?
  }

  /** Handlers ignore news about jobs that are remembered as finished. */
  predicate Ignores(s: State, e: Event)
    requires FromHandler(e)
  {
    !e.Finished? && e.id in s.book.done.order
  }

  /** The clock readings a handler takes do not go back. */
  predicate TakenInOrder(s: State, e: Event)
    requires FromHandler(e)
  {
    match e
    case Queued(_, stamp, busy) => s.clock <= stamp <= busy
    case Begun(_, stamp, busy) => s.clock <= stamp <= busy
    case Finished(_, busy) => s.clock <= busy
  }

  /** What a whole handler does, undisturbed: its critical section and, unless it
      ignored the event, its poke. */
  function Served(c: Config, s: State, e: Event): State
    requires FromHandler(e) && c.opts.Valid()
  {
    if Ignores(s, e) then s
    else
      var book := match e
        case Queued(id, stamp, busy) => Queue(s.book, id, stamp, busy)
        case Begun(id, stamp, busy) => Begin(s.book, id, stamp, busy)
        case Finished(id, busy) => Finish(s.book, c.opts.trackedJobs, id, busy);
      var what := if e.Queued? then JobQueued else if e.Begun? then JobBegun else JobFinished;
      s.(book := book, clock := e.busy, trigger := true,
         log := s.log + [Heard(what, e.id, e.id in s.book.inProgress, e.busy)])
  }

  /** That is one step, or two, of the machine. */
  lemma ServedIsARun(c: Config, s: State, e: Event)
    requires FromHandler(e) && c.opts.Valid() && TakenInOrder(s, e)
    ensures Enabled(c, s, e)
    ensures Exec(c, s, if Ignores(s, e) then [e] else [e, Poke]) == Some(Served(c, s, e))
  {
    ExecOne(c, s, e);
    if !Ignores(s, e) {
      ExecSnoc(c, s, [e], Next(c, s, e), Poke);
      assert [e] + [Poke] == [e, Poke];
    }
  }

  lemma ServedCallsNothing(c: Config, s: State, e: Event)
    requires FromHandler(e) && c.opts.Valid()
    ensures CallsOf(Served(c, s, e).log) == CallsOf(s.log)
  {
    var t := Served(c, s, e);
    if t.log != s.log {
      CallsOfSnoc(s.log, t.log[|s.log|]);
    }
  }

  /** es takes the reconciler from s to t within one iteration. */
  ghost predicate Works(c: Config, s: State, es: seq<Event>, t: State) {
    && Exec(c, s, es) == Some(t)
    && OneIteration(es)
    && forall i :: 0 <= i < |es| ==> ByReconciler(es[i])
  }

  lemma WorksOne(c: Config, s: State, e: Event)
    requires Enabled(c, s, e) && ByReconciler(e) && !e.Wake? && !e.Tick? && !e.Cancel?
    ensures Works(c, s, [e], Next(c, s, e))
  {
    ExecOne(c, s, e);
  }

  lemma WorksThen(c: Config, s: State, es: seq<Event>, m: State, fs: seq<Event>, t: State)
    requires Works(c, s, es, m) && Works(c, m, fs, t)
    ensures Works(c, s, es + fs, t)
  {
    ExecConcat(c, s, es, m, fs);
  }

  lemma ObserveStep(c: Config, s: State, o: Observation)
    requires c.opts.Valid() && s.pc.Observing? && CanObserve(c, s, o)
    ensures Enabled(c, s, Observe(Some(o))) && Next(c, s, Observe(Some(o))) == Absorb(c, s, o)
    ensures CallsOf(Absorb(c, s, o).log) == CallsOf(s.log)
  {
    StepCalls(c, s, Observe(Some(o)));
  }

  /** The readings are Timely so far, and one more pair keeps them so. */
  lemma TimelySnoc(now: int, seen: seq<Sighting>, s: Sighting)
    requires Timely(now, seen) && ClockAfter(now, seen) <= s.stamp <= s.busy
    ensures Timely(now, seen + [s]) && ClockAfter(now, seen + [s]) == s.busy
  {
    var all := seen + [s];
    forall i | 0 <= i < |all| ensures ClockAfter(now, all[..i]) <= all[i].stamp <= all[i].busy {
      if i < |seen| {
        assert all[..i] == seen[..i];
      } else {
        assert all[..i] == seen;
      }
    }
  }

  /** Once one more entry has been visited. */
  lemma ListOne(ids: seq<int>, keys: set<int>, pending: set<int>, id: int)
    requires IsListing(ids, keys - pending) && id in pending
    ensures id !in keys ==> IsListing(ids, keys - (pending - {id}))
    ensures id in keys ==> IsListing(ids + [id], keys - (pending - {id}))
    ensures Elems(ids + [id]) == Elems(ids) + {id}
  {
    ElemsAppend(ids, id);
    if id in keys {
      assert keys - (pending - {id}) == keys - pending + {id};
      assert forall i :: 0 <= i < |ids| ==> ids[i] in Elems(ids);
    } else {
      assert keys - (pending - {id}) == keys - pending;
    }
  }

  lemma SightSnoc(b: Book, seen: seq<Sighting>, s: Sighting)
    ensures SightAllQueued(b, seen + [s]) == SightQueued(SightAllQueued(b, seen), s)
    ensures SightAllRunning(b, seen + [s]) == SightRunning(SightAllRunning(b, seen), s)
    ensures Ids(seen + [s]) == Ids(seen) + {s.id}
  {
    assert (seen + [s])[..|seen + [s]| - 1] == seen;
    IdsAppend(seen, s);
  }

  class Autoscaler {
    const cfg: Config
    const clock: Clock
    const backend: Backend
    const github: GitHub
    const signals: Signals
    const done: Set<int>

    var queued: map<int, int>
    var inProgress: map<int, int>
    var lastBusy: int
    var applied: int
    var liveRunners: int
    var missingSince: Option<int>
    var trigger: bool

    /** The machine state these fields stand for. */
    ghost var machine: State

    ghost predicate Valid()
      reads this, clock, done
    {
      && cfg.opts.Valid()
      && done.Valid() && done.size == cfg.opts.trackedJobs
      && machine.book == Book(queued, inProgress, done.View(), lastBusy)
      && machine.applied == applied
      && machine.live == liveRunners
      && machine.missing == missingSince
      && machine.trigger == trigger
      && machine.clock <= clock.now
    }

    /** The history records exactly the calls the backend has received. */
    ghost predicate Accounted()
      reads this, backend
    {
      CallsOf(machine.log) == backend.calls
    }

    // ----------------------------------------------------------------
    // Set-up
    // ----------------------------------------------------------------

    constructor (opts: Options, observed: bool, counting: bool, clock: Clock, backend: Backend, github: GitHub,
                 signals: Signals, ghost truth: int)
      requires opts.Valid() && backend.calls == []
      modifies clock
      ensures Valid() && Accounted() && fresh(done) && this.clock == clock && this.backend == backend
      ensures this.github == github && this.signals == signals
      ensures cfg.opts == opts && cfg.observed == observed && cfg.counting == counting
      ensures Init(cfg, machine) && machine.applied == -1 && machine.truth == truth
      ensures old(clock.now) <= cfg.startedAt == lastBusy == clock.now
    {
      var now := clock.Now();
      this.clock, this.backend, this.github, this.signals := clock, backend, github, signals;
      cfg := Config(opts, observed, counting, now);
      done := new Set(opts.trackedJobs);
      queued, inProgress := map[], map[];
      lastBusy := now;
      applied, liveRunners, missingSince := -1, -1, None;
      trigger := false;
      machine := State(Book(map[], map[], Empty(), now), -1, -1, None, Recounting, false, 0, now, truth, -1, []);
    }

    /** The service already has n replicas. Called before the loop starts. */
    method SetBaseline(n: nat)
      requires Valid() && Init(cfg, machine)
      modifies this, clock
      ensures Valid() && Init(cfg, machine)
      ensures machine.applied == n && machine.truth == old(machine.truth)
      ensures old(clock.now) <= lastBusy == clock.now
    {
      applied := n;
      lastBusy := clock.Now();
      machine := machine.(applied := n, book := machine.book.(lastBusy := lastBusy), clock := lastBusy);
    }

    // ----------------------------------------------------------------
    // Webhook handlers
    // ----------------------------------------------------------------

    /** Leaves a token in the trigger channel unless one is there already. */
    method SendTrigger()
      modifies this`trigger
      ensures trigger
    {
      if !trigger {
        trigger := true;
      }
    }

    method OnQueued(id: int) returns (ghost e: Event)
      requires Valid()
      modifies this, clock
      ensures Valid() && e.Queued? && e.id == id
      ensures TakenInOrder(old(machine), e) && machine == Served(cfg, old(machine), e)
      ensures id in done.order ==> machine == old(machine)
      ensures id !in done.order ==>
        && id in queued && old(clock.now) <= queued[id] <= lastBusy == clock.now && trigger
        && queued == old(queued)[id := queued[id]] && inProgress == old(inProgress)
    {
      var finished := done.Has(id);
      if finished {
        e := Queued(id, clock.now, clock.now);
        return;
      }
      var stamp := clock.Now();
      queued := queued[id := stamp];
      lastBusy := clock.Now();
      e := Queued(id, stamp, lastBusy);
      SendTrigger();
      machine := Served(cfg, machine, e);
    }

    method OnInProgress(id: int) returns (ghost e: Event)
      requires Valid()
      modifies this, clock
      ensures Valid() && e.Begun? && e.id == id
      ensures TakenInOrder(old(machine), e) && machine == Served(cfg, old(machine), e)
      ensures id in done.order ==> machine == old(machine)
      ensures id !in done.order ==>
        && id in inProgress && old(clock.now) <= inProgress[id] <= lastBusy == clock.now && trigger
        && inProgress == old(inProgress)[id := inProgress[id]] && queued == old(queued) - {id}
    {
      var finished := done.Has(id);
      if finished {
        e := Begun(id, clock.now, clock.now);
        return;
      }
      queued := queued - {id};
      var stamp := clock.Now();
      inProgress := inProgress[id := stamp];
      lastBusy := clock.Now();
      e := Begun(id, stamp, lastBusy);
      SendTrigger();
      machine := Served(cfg, machine, e);
    }

    method OnCompleted(id: int) returns (ghost e: Event)
      requires Valid()
      modifies this, clock, done
      ensures Valid() && e.Finished? && e.id == id
      ensures TakenInOrder(old(machine), e) && machine == Served(cfg, old(machine), e)
      ensures queued == old(queued) - {id} && inProgress == old(inProgress) - {id} && id in done.order
      ensures old(clock.now) <= lastBusy == clock.now && trigger
    {
      queued := queued - {id};
      inProgress := inProgress - {id};
      AddKeyRefines(done.size, done.View(), id);
      var _ := done.Add(id);
      lastBusy := clock.Now();
      e := Finished(id, lastBusy);
      SendTrigger();
      machine := Served(cfg, machine, e);
    }

    // ----------------------------------------------------------------
    // One iteration, section by section
    // ----------------------------------------------------------------

    /** Adopts the count read from a backend that can report it. */
    method ReadCount() returns (ghost count: Option<int>)
      modifies this`applied, backend`counts
      ensures if cfg.counting then backend.counts == old(backend.counts) + [count]
              else backend.counts == old(backend.counts) && count.None?
      ensures applied == if count.Some? then count.value else old(applied)
      ensures count.Some? ==> count.value >= 0
    {
      count := None;
      if cfg.counting {
        var n := backend.Replicas();
        if n.Some? {
          applied := n.value;
        }
        count := n;
      }
    }

    method Recount() returns (ghost e: Event)
      requires Valid() && Accounted() && machine.pc.Recounting?
      modifies this, backend`counts
      ensures Valid() && Accounted() && e.Recount? && Enabled(cfg, old(machine), e) && machine == Next(cfg, old(machine), e)
      ensures if cfg.counting then backend.counts == old(backend.counts) + [e.count]
              else backend.counts == old(backend.counts) && e.count.None?
      ensures applied == if e.count.Some? then e.count.value else old(applied)
    {
      ghost var was := machine;
      ghost var count := ReadCount();
      e := Event.Recount(count);
      StepCalls(cfg, was, e);
      machine := Next(cfg, was, e);
      assert machine == was.(pc := Observing, applied := applied, log := machine.log);
    }

    /** Adds an observed queued job that is neither finished nor tracked. */
    method TrackQueuedJob(id: int) returns (ghost s: Sighting)
      requires done.Valid()
      modifies this`queued, this`lastBusy, clock
      ensures s.id == id && old(clock.now) <= s.stamp <= s.busy <= clock.now
      ensures Book(queued, inProgress, done.View(), lastBusy)
              == SightQueued(old(Book(queued, inProgress, done.View(), lastBusy)), s)
    {
      s := Sighting(id, clock.now, clock.now);
      var finished := done.Has(id);
      if !finished && id !in inProgress && id !in queued {
        var stamp := clock.Now();
        queued := queued[id := stamp];
        lastBusy := clock.Now();
        s := Sighting(id, stamp, lastBusy);
      }
    }

    /** Moves an observed running job that is not finished to the running map. */
    method TrackRunningJob(id: int) returns (ghost s: Sighting)
      requires done.Valid()
      modifies this`queued, this`inProgress, this`lastBusy, clock
      ensures s.id == id && old(clock.now) <= s.stamp <= s.busy <= clock.now
      ensures Book(queued, inProgress, done.View(), lastBusy)
              == SightRunning(old(Book(queued, inProgress, done.View(), lastBusy)), s)
    {
      s := Sighting(id, clock.now, clock.now);
      var finished := done.Has(id);
      if !finished && id !in inProgress {
        queued := queued - {id};
        var stamp := clock.Now();
        inProgress := inProgress[id := stamp];
        lastBusy := clock.Now();
        s := Sighting(id, stamp, lastBusy);
      }
    }

    method TrackQueued(ids: seq<int>, ghost b: Book) returns (ghost seen: seq<Sighting>)
      requires done.Valid() && b == Book(queued, inProgress, done.View(), lastBusy)
      modifies this`queued, this`lastBusy, clock
      ensures Ids(seen) == Elems(ids)
      ensures Timely(old(clock.now), seen) && ClockAfter(old(clock.now), seen) <= clock.now
      ensures Book(queued, inProgress, done.View(), lastBusy) == SightAllQueued(b, seen)
    {
      seen := [];
      assert Elems(ids[..0]) == Ids(seen) == {};
      for i := 0 to |ids|
        invariant Ids(seen) == Elems(ids[..i])
        invariant Timely(old(clock.now), seen) && ClockAfter(old(clock.now), seen) <= clock.now
        invariant Book(queued, inProgress, done.View(), lastBusy) == SightAllQueued(b, seen)
        invariant done.Valid()
      {
        assert ids[..i + 1] == ids[..i] + [ids[i]];
        ElemsAppend(ids[..i], ids[i]);
        ghost var s := TrackQueuedJob(ids[i]);
        SightSnoc(b, seen, s);
        TimelySnoc(old(clock.now), seen, s);
        seen := seen + [s];
      }
      assert ids[..|ids|] == ids;
    }

    method TrackRunning(ids: seq<int>, ghost b: Book) returns (ghost seen: seq<Sighting>)
      requires done.Valid() && b == Book(queued, inProgress, done.View(), lastBusy)
      modifies this`queued, this`inProgress, this`lastBusy, clock
      ensures Ids(seen) == Elems(ids)
      ensures Timely(old(clock.now), seen) && ClockAfter(old(clock.now), seen) <= clock.now
      ensures Book(queued, inProgress, done.View(), lastBusy) == SightAllRunning(b, seen)
    {
      seen := [];
      assert Elems(ids[..0]) == Ids(seen) == {};
      for i := 0 to |ids|
        invariant Ids(seen) == Elems(ids[..i])
        invariant Timely(old(clock.now), seen) && ClockAfter(old(clock.now), seen) <= clock.now
        invariant Book(queued, inProgress, done.View(), lastBusy) == SightAllRunning(b, seen)
        invariant done.Valid()
      {
        assert ids[..i + 1] == ids[..i] + [ids[i]];
        ElemsAppend(ids[..i], ids[i]);
        ghost var s := TrackRunningJob(ids[i]);
        SightSnoc(b, seen, s);
        TimelySnoc(old(clock.now), seen, s);
        seen := seen + [s];
      }
      assert ids[..|ids|] == ids;
    }

    /** Visits the entries of m in whatever order the map yields them, and drops
        those that are unseen and older than cutoff. */
    method DropUnseen(m: map<int, int>, seen: set<int>, cutoff: int)
      returns (left: map<int, int>, ghost dropped: seq<int>)
      requires done.Valid()
      modifies done
      ensures done.Valid()
      ensures IsListing(dropped, Stale(m, seen, cutoff))
      ensures left == m - Elems(dropped)
      ensures done.View() == AddAll(done.size, old(done.View()), dropped)
    {
      left, dropped := m, [];
      var pending := m.Keys;
      while pending != {}
        invariant done.Valid() && pending <= m.Keys
        invariant IsListing(dropped, Stale(m, seen, cutoff) - pending)
        invariant left == m - Elems(dropped)
        invariant done.View() == AddAll(done.size, old(done.View()), dropped)
        decreases pending
      {
        ghost var one := SomeElement(pending);
        var id :| id in pending;
        ListOne(dropped, Stale(m, seen, cutoff), pending, id);
        pending := pending - {id};
        if id in seen || m[id] >= cutoff {
          continue;
        }
        left := left - {id};
        var _ := done.Add(id);
        AddAllSnoc(done.size, old(done.View()), dropped, id);
        dropped := dropped + [id];
      }
    }

    /** Both loops over the observed ids. */
    method SightJobs(o: Report) returns (ghost sq: seq<Sighting>, ghost sr: seq<Sighting>)
      requires Valid()
      modifies this`queued, this`inProgress, this`lastBusy, clock
      ensures Ids(sq) == Elems(o.queued) && Ids(sr) == Elems(o.inProgress)
      ensures Timely(machine.clock, sq) && Timely(ClockAfter(machine.clock, sq), sr)
      ensures ClockAfter(ClockAfter(machine.clock, sq), sr) <= clock.now
      ensures Book(queued, inProgress, done.View(), lastBusy) == Sight(old(machine.book), sq, sr)
    {
      ghost var t0 := clock.now;
      sq := TrackQueued(o.queued, machine.book);
      ghost var t1 := clock.now;
      sr := TrackRunning(o.inProgress, Book(queued, inProgress, done.View(), lastBusy));
      TimelyRebase(machine.clock, t0, sq);
      TimelyRebase(ClockAfter(machine.clock, sq), t1, sr);
    }

    /** Both loops over the maps. */
    method DropJobs(seen: set<int>, cutoff: int, ghost b: Book) returns (ghost dq: seq<int>, ghost dr: seq<int>)
      requires done.Valid() && b == Book(queued, inProgress, done.View(), lastBusy)
      modifies this`queued, this`inProgress, done
      ensures done.Valid() && DropOrders(b, seen, cutoff, dq, dr)
      ensures Book(queued, inProgress, done.View(), lastBusy) == DropStale(b, done.size, dq, dr)
    {
      var q, p;
      q, dq := DropUnseen(queued, seen, cutoff);
      queued := q;
      p, dr := DropUnseen(inProgress, seen, cutoff);
      inProgress := p;
    }

    /** The job half of an adoption. */
    method AdoptJobs(o: Report)
      returns (ghost sq: seq<Sighting>, ghost sr: seq<Sighting>, ghost dq: seq<int>, ghost dr: seq<int>, cutoffNow: int)
      requires Valid()
      modifies this`queued, this`inProgress, this`lastBusy, clock, done
      ensures done.Valid() && cutoffNow <= clock.now
      ensures Ids(sq) == Elems(o.queued) && Ids(sr) == Elems(o.inProgress)
      ensures Timely(machine.clock, sq) && Timely(ClockAfter(machine.clock, sq), sr)
      ensures ClockAfter(ClockAfter(machine.clock, sq), sr) <= cutoffNow
      ensures AdoptOrders(old(machine.book), sq, sr, cutoffNow - cfg.opts.idleCooldown, dq, dr)
      ensures Book(queued, inProgress, done.View(), lastBusy)
              == Adoption.Adopt(old(machine.book), done.size, sq, sr, dq, dr)
    {
      sq, sr := SightJobs(o);
      ghost var b := Book(queued, inProgress, done.View(), lastBusy);
      assert b == Sight(old(machine.book), sq, sr);
      cutoffNow := clock.Now();
      var seen := Elems(o.queued) + Elems(o.inProgress);
      dq, dr := DropJobs(seen, cutoffNow - cfg.opts.idleCooldown, b);
      assert DropOrders(b, Ids(sq) + Ids(sr), cutoffNow - cfg.opts.idleCooldown, dq, dr);
    }

    /** Records runner health: since when the pool has replicas but no live runner. */
    method AdoptHealth(live: nat)
      modifies this`liveRunners, this`missingSince, clock
      ensures old(clock.now) <= clock.now && liveRunners == live
      ensures missingSince == MissingSince(old(missingSince), applied, live, clock.now)
    {
      liveRunners := live;
      if applied > 0 && live == 0 {
        if missingSince.None? {
          var now := clock.Now();
          missingSince := Some(now);
        }
      } else {
        missingSince := None;
      }
    }

    /** Both halves, and the observation they amount to. */
    method FoldIn(o: Report) returns (ghost obs: Observation)
      requires Valid() && cfg.observed
      modifies this`queued, this`inProgress, this`lastBusy, this`liveRunners, this`missingSince, clock, done
      ensures done.Valid() && machine.clock <= obs.now == clock.now
      ensures CanObserve(cfg, machine, obs) && obs.jobsObserved == o.jobsObserved && obs.live == o.liveRunners
      ensures o.jobsObserved ==> Ids(obs.queued) == Elems(o.queued) && Ids(obs.running) == Elems(o.inProgress)
      ensures Book(queued, inProgress, done.View(), lastBusy) == Informed(cfg, machine.book, obs)
      ensures liveRunners == obs.live
      ensures missingSince == MissingSince(machine.missing, applied, liveRunners, clock.now)
    {
      ghost var sq: seq<Sighting>, sr: seq<Sighting>, dq: seq<int>, dr: seq<int> := [], [], [], [];
      var cutoffNow := clock.now;
      if o.jobsObserved {
        sq, sr, dq, dr, cutoffNow := AdoptJobs(o);
        TimelyGrows(machine.clock, sq);
        TimelyGrows(ClockAfter(machine.clock, sq), sr);
      }
      AdoptHealth(o.liveRunners);
      obs := Observation(o.jobsObserved, sq, sr, o.liveRunners, cutoffNow, clock.now, dq, dr);
    }

    method Adopt(o: Report) returns (ghost e: Event)
      requires Valid() && Accounted() && machine.pc.Observing? && cfg.observed
      modifies this, clock, done
      ensures Valid() && Accounted() && Enabled(cfg, old(machine), e) && machine == Next(cfg, old(machine), e)
      ensures e.Observe? && e.seen.Some?
      ensures e.seen.value.jobsObserved == o.jobsObserved && e.seen.value.live == o.liveRunners
      ensures o.jobsObserved ==>
        Ids(e.seen.value.queued) == Elems(o.queued) && Ids(e.seen.value.running) == Elems(o.inProgress)
    {
      ghost var obs := FoldIn(o);
      e := Event.Observe(Some(obs));
      ObserveStep(cfg, machine, obs);
      machine := Absorb(cfg, machine, obs);
    }

    method Observe() returns (ghost e: Event)
      requires Valid() && Accounted() && machine.pc.Observing?
      modifies this, clock, done, github
      ensures Valid() && Accounted() && e.Observe? && Enabled(cfg, old(machine), e) && machine == Next(cfg, old(machine), e)
      ensures !cfg.observed ==> github.answers == old(github.answers) && e.seen.None?
      ensures cfg.observed ==>
        exists answer :: github.answers == old(github.answers) + [answer] && Reported(answer, e.seen)
    {
      if cfg.observed {
        var o := github.Ask();
        if o.Some? {
          e := Adopt(o.value);
          return;
        }
      }
      e := Event.Observe(None);
      machine := Next(cfg, machine, e);
    }

    /** Drops the entries of m that are older than cutoff. */
    method ExpireOld(m: map<int, int>, cutoff: int) returns (left: map<int, int>)
      ensures left == Fresher(m, cutoff)
    {
      left := m;
      var pending := m.Keys;
      while pending != {}
        invariant pending <= m.Keys
        invariant left == map id | id in m && (id in pending || m[id] >= cutoff) :: m[id]
        decreases pending
      {
        ghost var one := SomeElement(pending);
        var id :| id in pending;
        if m[id] < cutoff {
          left := left - {id};
        }
        pending := pending - {id};
      }
    }

    method Gc() returns (ghost es: seq<Event>)
      requires Valid() && Accounted() && machine.pc.ReadingCutoff?
      modifies this, clock
      ensures Valid() && Accounted() && machine.pc.Deciding? && Works(cfg, old(machine), es, machine)
    {
      ghost var s0 := machine;
      if cfg.opts.jobTTL <= 0 {
        es := [ReadCutoff(clock.now)];
        WorksOne(cfg, s0, es[0]);
        machine := Next(cfg, s0, es[0]);
        return;
      }
      var now := clock.Now();
      ghost var e := ReadCutoff(now);
      WorksOne(cfg, s0, e);
      ghost var s1 := Next(cfg, s0, e);
      assert s1 == s0.(clock := now, pc := Sweeping(now - cfg.opts.jobTTL));
      machine := s1;
      SweepJobs(now - cfg.opts.jobTTL);
      WorksOne(cfg, s1, Sweep);
      es := [e] + [Sweep];
      WorksThen(cfg, s0, [e], s1, [Sweep], machine);
    }

    method SweepJobs(cutoff: int)
      requires Valid() && Accounted() && machine.pc == Sweeping(cutoff)
      modifies this`queued, this`inProgress, this`machine
      ensures Valid() && Accounted() && Enabled(cfg, old(machine), Sweep) && machine == Next(cfg, old(machine), Sweep)
    {
      queued := ExpireOld(queued, cutoff);
      inProgress := ExpireOld(inProgress, cutoff);
      machine := Next(cfg, machine, Sweep);
    }

    /** Weighs the tracked jobs against the applied count. */
    method Evaluate() returns (d: Decision)
      modifies clock
      ensures old(clock.now) <= clock.now
      ensures d == Scaler.Decide(cfg.opts, Book(queued, inProgress, done.View(), lastBusy), applied, cfg.startedAt, clock.now)
    {
      var q, ip := |queued|, |inProgress|;
      var want := Clamp(q + ip, cfg.opts.minReplicas, cfg.opts.maxRunners);
      d := Decision(want, q, ip, Free);
      if applied >= 0 && want < applied {
        var now := clock.Now();
        if ip > 0 {
          d := d.(desired := applied, hold := JobsRunning);
        } else if now - lastBusy < cfg.opts.idleCooldown {
          d := d.(desired := applied, hold := CoolingDown);
        } else if now - cfg.startedAt < cfg.opts.startupGrace {
          d := d.(desired := applied, hold := StartingUp);
        }
      }
    }

    method Decide() returns (d: Decision, ghost e: Event)
      requires Valid() && Accounted() && machine.pc.Deciding?
      modifies this`machine, clock
      ensures Valid() && Accounted() && e.Choose? && Enabled(cfg, old(machine), e) && machine == Next(cfg, old(machine), e)
      ensures machine.pc == Rereading(d)
    {
      d := Evaluate();
      e := Choose(clock.now);
      StepCalls(cfg, machine, e);
      machine := Next(cfg, machine, e);
    }

    /** The gates of a recycle, with the clock readings they take. */
    method PassesGates() returns (due: bool, ghost now1: int, ghost now2: int)
      modifies clock
      ensures old(clock.now) <= now1 <= now2 == clock.now
      ensures due == RecycleDue(cfg.opts, cfg.observed, applied, liveRunners, missingSince, cfg.startedAt, now1, now2)
    {
      now1, now2 := clock.now, clock.now;
      if !cfg.observed || cfg.opts.runnerGrace <= 0 {
        return false, now1, now2;
      }
      if applied <= 0 || liveRunners != 0 || missingSince.None? {
        return false, now1, now2;
      }
      var first := clock.Now();
      if first - cfg.startedAt < cfg.opts.startupGrace {
        return false, first, first;
      }
      var second := clock.Now();
      return second - missingSince.value >= cfg.opts.runnerGrace, first, second;
    }

    method RecycleIsDue() returns (due: bool, ghost e: Event)
      requires Valid() && Accounted() && machine.pc.Checking?
      modifies this, clock
      ensures Valid() && Accounted() && e.Check? && Enabled(cfg, old(machine), e) && machine == Next(cfg, old(machine), e)
      ensures due <==> machine.pc.TearingDown?
    {
      ghost var now1, now2;
      due, now1, now2 := PassesGates();
      e := Check(now1, now2);
      StepCalls(cfg, machine, e);
      machine := Next(cfg, machine, e);
    }

    /** Calls the backend the way the machine's position says. */
    method Apply(n: int) returns (ok: bool, ghost e: Event)
      requires Valid() && Accounted() && Purposed(machine.pc).Some? && n == CallArg(machine.pc)
      modifies this, backend`calls
      ensures Valid() && Accounted() && e.Call? && e.ok == ok && Enabled(cfg, old(machine), e) && machine == Next(cfg, old(machine), e)
      ensures backend.calls == old(backend.calls) + [Attempt(n, ok)]
    {
      ghost var after;
      ok, after := backend.SetReplicas(n);
      e := Call(ok, after);
      StepCalls(cfg, machine, e);
      machine := Next(cfg, machine, e);
    }

    /** Records the outcome of a call; `now` is read only after a restore. */
    method Record(now: int) returns (ghost e: Event)
      requires cfg.opts.Valid() && machine.clock <= now <= clock.now
      requires machine.pc.Scaled? || machine.pc.RestoreFailed? || machine.pc.Restored?
      requires CallsOf(machine.log) == backend.calls
      modifies this`machine
      ensures e == Commit(now) && Enabled(cfg, old(machine), e) && machine == Next(cfg, old(machine), e)
      ensures CallsOf(machine.log) == backend.calls
    {
      e := Commit(now);
      StepCalls(cfg, machine, e);
      machine := Next(cfg, machine, e);
    }

    method RestoreOutcome(n: int, ok: bool) returns (ghost e: Event)
      requires Valid() && Accounted() && (if ok then machine.pc.Restored? else machine.pc.RestoreFailed?)
      requires machine.pc.d.desired == n
      modifies this, clock
      ensures Valid() && Accounted() && e.Commit? && Enabled(cfg, old(machine), e) && machine == Next(cfg, old(machine), e)
      ensures machine.pc.Waiting? && applied == if ok then n else 0
    {
      ghost var was := machine;
      if !ok {
        applied := 0;
        e := Record(clock.now);
        assert machine == was.(applied := 0, pc := Waiting);
      } else {
        applied := n;
        var now := clock.Now();
        missingSince := Some(now);
        e := Record(now);
        assert machine == was.(applied := n, missing := Some(now), clock := now, pc := Waiting, log := was.log + [Recycled(now)]);
      }
    }

    /** The second half of a recycle. */
    method Restore(n: int) returns (ok: bool, ghost es: seq<Event>)
      requires Valid() && Accounted() && machine.pc.Restoring? && machine.pc.d.desired == n
      modifies this, clock, backend`calls
      ensures Valid() && Accounted() && machine.pc.Waiting? && Works(cfg, old(machine), es, machine)
      ensures backend.calls == old(backend.calls) + [Attempt(n, ok)]
      ensures applied == if ok then n else 0
    {
      ghost var s0 := machine;
      ghost var e, f;
      ok, e := Apply(n);
      WorksOne(cfg, s0, e);
      ghost var s1 := machine;
      f := RestoreOutcome(n, ok);
      WorksOne(cfg, s1, f);
      es := [e] + [f];
      WorksThen(cfg, s0, [e], s1, [f], machine);
    }

    /** Through zero and back to n. */
    method Recycle(n: int) returns (ok: bool, ghost es: seq<Event>)
      requires Valid() && Accounted() && machine.pc.TearingDown? && machine.pc.d.desired == n
      modifies this, clock, backend`calls
      ensures Valid() && Accounted() && machine.pc.Waiting? && Works(cfg, old(machine), es, machine)
      ensures |backend.calls| > |old(backend.calls)| && backend.calls[|old(backend.calls)|].arg == 0
      ensures ok ==> backend.calls == old(backend.calls) + [Attempt(0, true)] + [Attempt(n, true)]
    {
      ghost var s0 := machine;
      ghost var e, fs;
      ok, e := Apply(0);
      WorksOne(cfg, s0, e);
      es := [e];
      if ok {
        ghost var s1 := machine;
        ok, fs := Restore(n);
        WorksThen(cfg, s0, [e], s1, fs, machine);
        es := [e] + fs;
      }
    }

    /** Reads the live count and asks GitHub. */
    method Consult() returns (ghost es: seq<Event>)
      requires Valid() && Accounted() && machine.pc.Recounting?
      modifies this, clock, done, github, backend`counts
      ensures Valid() && Accounted() && machine.pc.ReadingCutoff? && Works(cfg, old(machine), es, machine)
      ensures Consulted(cfg, es, old(backend.counts), backend.counts, old(github.answers), github.answers)
    {
      ghost var s0 := machine;
      ghost var e := Recount();
      ghost var s1 := machine;
      WorksOne(cfg, s0, e);
      ghost var f := Observe();
      WorksOne(cfg, s1, f);
      WorksThen(cfg, s0, [e], s1, [f], machine);
      es := [e] + [f];
    }

    /** Recount, observe, expire, decide; everything before acting. */
    method Prepare() returns (d: Decision, ghost es: seq<Event>)
      requires Valid() && Accounted() && machine.pc.Recounting?
      modifies this, clock, done, github, backend`counts
      ensures Valid() && Accounted() && machine.pc == Rereading(d) && Works(cfg, old(machine), es, machine)
      ensures Consulted(cfg, es, old(backend.counts), backend.counts, old(github.answers), github.answers)
    {
      ghost var s0 := machine;
      es := Consult();
      ghost var s1 := machine;
      ghost var fs := Gc();
      ghost var s2 := machine;
      WorksThen(cfg, s0, es, s1, fs, s2);
      es := es + fs;
      ghost var g;
      d, g := Decide();
      WorksOne(cfg, s2, g);
      WorksThen(cfg, s0, es, s2, [g], machine);
      es := es + [g];
    }

    /** Applies a decision that differs from the current count. */
    method Scale(n: int) returns (ok: bool, ghost es: seq<Event>)
      requires Valid() && Accounted() && machine.pc.Scaling? && machine.pc.d.desired == n
      modifies this, backend`calls
      ensures Valid() && Accounted() && machine.pc.Waiting? && Works(cfg, old(machine), es, machine)
      ensures backend.calls == old(backend.calls) + [Attempt(n, ok)]
      ensures applied == if ok then n else old(applied)
    {
      ghost var s0 := machine;
      ghost var e, f;
      ok, e := Apply(n);
      WorksOne(cfg, s0, e);
      es := [e];
      if ok {
        ghost var s1 := machine;
        f := ScaleOutcome(n);
        WorksOne(cfg, s1, f);
        es := [e] + [f];
        WorksThen(cfg, s0, [e], s1, [f], machine);
      }
    }

    /** The call succeeded: its count is the applied one now. */
    method ScaleOutcome(n: int) returns (ghost e: Event)
      requires Valid() && Accounted() && machine.pc.Scaled? && machine.pc.d.desired == n
      modifies this
      ensures Valid() && Accounted() && e.Commit? && Enabled(cfg, old(machine), e) && machine == Next(cfg, old(machine), e)
      ensures machine.pc.Waiting? && applied == n
    {
      ghost var was := machine;
      applied := n;
      e := Record(clock.now);
      assert machine == was.(applied := n, pc := Waiting);
    }

    /** The pool has the right count: rebuild it if nothing runs behind it. */
    method MaybeRecycle(n: int) returns (ghost es: seq<Event>)
      requires Valid() && Accounted() && machine.pc.Checking? && machine.pc.d.desired == n
      modifies this, clock, backend`calls
      ensures Valid() && Accounted() && machine.pc.Waiting? && Works(cfg, old(machine), es, machine)
    {
      ghost var s0 := machine;
      ghost var e;
      var due;
      due, e := RecycleIsDue();
      WorksOne(cfg, s0, e);
      es := [e];
      if due {
        ghost var s1 := machine;
        var _, fs := Recycle(n);
        WorksThen(cfg, s0, [e], s1, fs, machine);
        es := [e] + fs;
      }
    }

    /** Acts on a decision. */
    method Act(d: Decision) returns (ghost es: seq<Event>)
      requires Valid() && Accounted() && machine.pc == Rereading(d)
      modifies this, clock, backend`calls
      ensures Valid() && Accounted() && machine.pc.Waiting? && Works(cfg, old(machine), es, machine)
    {
      ghost var s0 := machine;
      WorksOne(cfg, s0, Reread);
      ghost var s1 := Next(cfg, s0, Reread);
      machine := s1;
      es := [Reread];
      if d.hold.Free? {
        ghost var fs;
        if d.desired == applied {
          fs := MaybeRecycle(d.desired);
        } else {
          var _, gs := Scale(d.desired);
          fs := gs;
        }
        WorksThen(cfg, s0, [Reread], s1, fs, machine);
        es := [Reread] + fs;
      }
    }

    /** One whole iteration, undisturbed: it is a run of the machine. */
    method Reconcile() returns (ghost es: seq<Event>)
      requires Valid() && Accounted() && machine.pc.Recounting?
      modifies this, clock, done, github, backend
      ensures Valid() && Accounted() && machine.pc.Waiting? && Works(cfg, old(machine), es, machine)
      ensures Consulted(cfg, es, old(backend.counts), backend.counts, old(github.answers), github.answers)
    {
      ghost var s0 := machine;
      var d, fs := Prepare();
      ghost var s1 := machine;
      ghost var gs := Act(d);
      WorksThen(cfg, s0, fs, s1, gs, machine);
      es := fs + gs;
    }

    /** Waits for the trigger, the ticker or cancellation, and takes what won. */
    method Await() returns (stopped: bool, ghost e: Event)
      requires Valid() && Accounted() && machine.pc.Waiting?
      modifies this, signals
      ensures Valid() && Accounted() && Enabled(cfg, old(machine), e) && machine == Next(cfg, old(machine), e)
      ensures exists s :: signals.won == old(signals.won) + [s] && e == EventOf(s)
      ensures stopped <==> e.Cancel?
      ensures if stopped then machine.pc.Stopped? else machine.pc.Recounting?
    {
      var s := signals.Select(trigger);
      match s {
        case Token => trigger := false;
        case Ticker =>
        case Cancelled =>
      }
      stopped := s.Cancelled?;
      e := EventOf(s);
      machine := Next(cfg, machine, e);
    }

    /** The loop, for any number of rounds: one iteration and one wait each, until it
        is cancelled. */
    method Run(rounds: nat) returns (ghost es: seq<Event>)
      requires Valid() && Accounted() && machine.pc.Recounting?
      modifies this, clock, done, github, backend, signals
      ensures Valid() && Accounted() && Exec(cfg, old(machine), es) == Some(machine)
      ensures Waits(es) == |signals.won| - |old(signals.won)| == Decisions(es)
      ensures cfg.observed ==> |github.answers| == |old(github.answers)| + Decisions(es)
      ensures if machine.pc.Recounting? then Decisions(es) == rounds
              else machine.pc.Stopped? && 0 < Decisions(es) <= rounds && es[|es| - 1].Cancel?
    {
      es := [];
      for i := 0 to rounds
        invariant Valid() && Accounted() && machine.pc.Recounting?
        invariant Exec(cfg, old(machine), es) == Some(machine)
        invariant Waits(es) == |signals.won| - |old(signals.won)| == Decisions(es) == i
        invariant cfg.observed ==> |github.answers| == |old(github.answers)| + i
      {
        ghost var e;
        var stopped;
        stopped, es, e := Round(old(machine), es);
        if stopped {
          return;
        }
      }
    }

    /** One iteration and the wait after it. */
    method Round(ghost start: State, ghost before: seq<Event>) returns (stopped: bool, ghost es: seq<Event>, ghost e: Event)
      requires Valid() && Accounted() && machine.pc.Recounting? && Exec(cfg, start, before) == Some(machine)
      modifies this, clock, done, github, backend, signals
      ensures Valid() && Accounted() && Exec(cfg, start, es) == Some(machine)
      ensures es != [] && es[|es| - 1] == e && (stopped <==> e.Cancel?)
      ensures if stopped then machine.pc.Stopped? else machine.pc.Recounting?
      ensures Decisions(es) == Decisions(before) + 1 && Waits(es) == Waits(before) + 1
      ensures |signals.won| == |old(signals.won)| + 1
      ensures cfg.observed ==> |github.answers| == |old(github.answers)| + 1
    {
      ghost var s := machine;
      ghost var fs := Reconcile();
      ghost var m := machine;
      stopped, e := Await();
      es := before + fs + [e];
      ExecConcat(cfg, start, before, s, fs);
      ExecSnoc(cfg, start, before + fs, m, e);
      CountRound(cfg, s, before, fs, m, e);
    }
  }

  // ------------------------------------------------------------------
  // Counting rounds
  // ------------------------------------------------------------------

  /** The decisions in a run. */
  function Decisions(es: seq<Event>): nat {
    if es == [] then 0 else Decisions(es[..|es| - 1]) + if es[|es| - 1].Choose? then 1 else 0
  }

  /** The waits that ended in a run. */
  function Waits(es: seq<Event>): nat {
    if es == [] then 0
    else
      var e := es[|es| - 1];
      Waits(es[..|es| - 1]) + if e.Wake? || e.Tick? || e.Cancel? then 1 else 0
  }

  lemma {:induction false} CountsConcat(es: seq<Event>, fs: seq<Event>)
    ensures Decisions(es + fs) == Decisions(es) + Decisions(fs)
    ensures Waits(es + fs) == Waits(es) + Waits(fs)
  {
    if fs == [] {
      assert es + fs == es;
    } else {
      var n := |fs| - 1;
      CountsConcat(es, fs[..n]);
      assert (es + fs)[..|es + fs| - 1] == es + fs[..n];
    }
  }

  function ChoicesLeft(pc: Pc): nat {
    if pc.Recounting? || pc.Observing? || pc.ReadingCutoff? || pc.Sweeping? || pc.Deciding? then 1 else 0
  }

  lemma StepChoices(c: Config, s: State, e: Event)
    requires Enabled(c, s, e) && !e.Wake? && !e.Tick? && !e.Cancel?
    ensures ChoicesLeft(Next(c, s, e).pc) + (if e.Choose? then 1 else 0) == ChoicesLeft(s.pc)
  {
    if !ByReconciler(e) {
      OthersLeaveReconciler(c, s, e);
    }
  }

  lemma {:induction false} IterationChoices(c: Config, s: State, es: seq<Event>, t: State)
    requires Exec(c, s, es) == Some(t) && OneIteration(es)
    ensures Decisions(es) + ChoicesLeft(t.pc) == ChoicesLeft(s.pc) && Waits(es) == 0
  {
    if es != [] {
      var m, e := ExecLast(c, s, es, t);
      IterationChoices(c, s, es[..|es| - 1], m);
      assert e == es[|es| - 1];
      StepChoices(c, m, e);
    }
  }

  lemma CountRound(c: Config, s: State, before: seq<Event>, fs: seq<Event>, m: State, e: Event)
    requires s.pc.Recounting? && m.pc.Waiting? && Works(c, s, fs, m) && (e.Wake? || e.Tick? || e.Cancel?)
    ensures Decisions(before + fs + [e]) == Decisions(before) + 1
    ensures Waits(before + fs + [e]) == Waits(before) + 1
  {
    IterationChoices(c, s, fs, m);
    CountsConcat(before, fs);
    assert (before + fs + [e])[..|before + fs|] == before + fs;
  }

  /** Readings that are timely from a later time are timely from an earlier one. */
  lemma TimelyRebase(earlier: int, later: int, seen: seq<Sighting>)
    requires earlier <= later && Timely(later, seen)
    ensures Timely(earlier, seen) && ClockAfter(earlier, seen) <= ClockAfter(later, seen)
    ensures earlier <= ClockAfter(earlier, seen)
  {
    forall i | 0 <= i < |seen| ensures ClockAfter(earlier, seen[..i]) <= seen[i].stamp <= seen[i].busy {
      assert ClockAfter(earlier, seen[..i]) <= ClockAfter(later, seen[..i]);
    }
    TimelyGrows(earlier, seen);
  }
}
