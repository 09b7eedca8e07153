/** The running service, one atomic step at a time.

    A step is one critical section, one backend call or one channel operation.
    Webhook handlers may take a step between any two steps of the reconciler. The
    clock, the backend and GitHub supply whatever the event says they supply. */
module Machine {
  import opened Seqs
  import opened Bounded
  import opened Scaler
  import opened Adoption

  datatype Config = Config(opts: Options, observed: bool, counting: bool, startedAt: int)

  /** Where the reconciler stands, with the locals it still needs. */
  datatype Pc =
    | Recounting
    | Observing
    | ReadingCutoff
    | Sweeping(cutoff: int)
    | Deciding
    | Rereading(d: Decision)
    | Checking(d: Decision)
    | Scaling(d: Decision)
    | Scaled(d: Decision)
    | TearingDown(d: Decision)
    | Restoring(d: Decision)
    | RestoreFailed(d: Decision)
    | Restored(d: Decision)
    | Waiting
    | Stopped

  /** What GitHub reported, the clock readings taken while folding it in, and the
      orders in which the maps gave up their stale entries. */
  datatype Observation = Observation(
    jobsObserved: bool,
    queued: seq<Sighting>,
    running: seq<Sighting>,
    live: nat,
    cutoffNow: int,
    now: int,
    dropQ: seq<int>,
    dropR: seq<int>)

  datatype Event =
    // webhook handlers
    | Queued(id: int, stamp: int, busy: int)
    | Begun(id: int, stamp: int, busy: int)
    | Finished(id: int, busy: int)
    | Poke
    // the reconciler
    | Recount(count: Option<int>)
    | Observe(seen: Option<Observation>)
    | ReadCutoff(now: int)
    | Sweep
    | Choose(now: int)
    | Reread
    | Check(now1: int, now2: int)
    | Call(ok: bool, after: int)
    | Commit(now: int)
    | Wake
    | Tick
    | Cancel
    // the pool changing by itself
    | Drift(to: int)

  /** Steps of the reconciler, as opposed to handlers and the pool. */
  predicate ByReconciler(e: Event) {
    !(e.Queued? || e.Begun? || e.Finished? || e.Poke? || e.Drift?)
  }

  datatype JobEvent = JobQueued | JobBegun | JobFinished

  datatype Purpose = ToScale | ToTearDown | ToRestore

  /** History. `decidedAt` is the position of the decision a call carries out. */
  datatype Record =
    | Heard(what: JobEvent, id: int, wasRunning: bool, time: int)
    | Looked(time: int, live: int, applied: int, found: Option<int>)
    | Counted(count: int, truth: int)
    | Chose(time: int, queued: map<int, int>, inProgress: map<int, int>, applied: int, d: Decision)
    | Called(purpose: Purpose, arg: int, ok: bool, applied: int, missing: Option<int>, before: int, after: int,
             inProgress: map<int, int>, decidedAt: int, time: int)
    | RecycleStarted(time: int)
    | Recycled(time: int)
    | Drifted(before: int, after: int)

  datatype State = State(
    book: Book,
    applied: int,
    live: int,
    missing: Option<int>,
    pc: Pc,
    trigger: bool,
    pokes: nat,
    clock: int,
    truth: int,
    chosen: int,
    log: seq<Record>)

  /** After New and, perhaps, SetBaseline. */
  ghost predicate Init(c: Config, s: State) {
    && c.opts.Valid()
    && s.book.queued == map[] && s.book.inProgress == map[] && s.book.done == Empty()
    && c.startedAt <= s.book.lastBusy == s.clock
    && s.applied >= -1 && s.live == -1 && s.missing == None
    && s.pc == Recounting && !s.trigger && s.pokes == 0
    && s.chosen == -1 && s.log == []
  }

  // ------------------------------------------------------------------
  // Steps
  // ------------------------------------------------------------------

  function Note(s: State, r: Record): State {
    s.(log := s.log + [r])
  }

  function Accept(s: State, book: Book, what: JobEvent, id: int, busy: int): State {
    Note(s, Heard(what, id, id in s.book.inProgress, busy)).(book := book, clock := busy, pokes := s.pokes + 1)
  }

  ghost predicate CanObserve(c: Config, s: State, o: Observation) {
    && c.observed
    && if o.jobsObserved then
         && Timely(s.clock, o.queued)
         && Timely(ClockAfter(s.clock, o.queued), o.running)
         && ClockAfter(ClockAfter(s.clock, o.queued), o.running) <= o.cutoffNow <= o.now
         && AdoptOrders(s.book, o.queued, o.running, o.cutoffNow - c.opts.idleCooldown, o.dropQ, o.dropR)
       else s.clock <= o.now
  }

  ghost predicate FindsNew(b: Book, o: Observation) {
    o.jobsObserved && SomethingNew(b, Ids(o.queued), Ids(o.running))
  }

  /** The tracked jobs once an observation is folded in. */
  function Informed(c: Config, b: Book, o: Observation): Book
    requires c.opts.Valid()
  {
    if o.jobsObserved then Adopt(b, c.opts.trackedJobs, o.queued, o.running, o.dropQ, o.dropR) else b
  }

  ghost function Absorb(c: Config, s: State, o: Observation): State
    requires c.opts.Valid()
  {
    var book := Informed(c, s.book, o);
    var found := if FindsNew(s.book, o) then Some(book.lastBusy) else None;
    Note(s, Looked(o.now, o.live, s.applied, found)).(
      book := book,
      live := o.live,
      missing := MissingSince(s.missing, s.applied, o.live, o.now),
      clock := o.now,
      pc := ReadingCutoff)
  }

  function Purposed(pc: Pc): Option<Purpose> {
    match pc
    case Scaling(_) => Some(ToScale)
    case TearingDown(_) => Some(ToTearDown)
    case Restoring(_) => Some(ToRestore)
    case _ => None
  }

  /** The argument and continuation of the backend call made at pc. */
  function CallArg(pc: Pc): int
    requires Purposed(pc).Some?
  {
    if pc.TearingDown? then 0 else pc.d.desired
  }

  function AfterCall(pc: Pc, ok: bool): Pc
    requires Purposed(pc).Some?
  {
    match pc
    case Scaling(d) => if ok then Scaled(d) else Waiting
    case TearingDown(d) => if ok then Restoring(d) else Waiting
    case Restoring(d) => if ok then Restored(d) else RestoreFailed(d)
  }

  ghost predicate Enabled(c: Config, s: State, e: Event) {
    && c.opts.Valid()
    && match e
       case Queued(_, stamp, busy) => s.clock <= stamp <= busy
       case Begun(_, stamp, busy) => s.clock <= stamp <= busy
       case Finished(_, busy) => s.clock <= busy
       case Poke => s.pokes > 0
       case Recount(count) => s.pc.Recounting? && (count.Some? ==> c.counting && count.value >= 0)
       case Observe(seen) => s.pc.Observing? && (seen.Some? ==> CanObserve(c, s, seen.value))
       case ReadCutoff(now) => s.pc.ReadingCutoff? && s.clock <= now
       case Sweep => s.pc.Sweeping?
       case Choose(now) => s.pc.Deciding? && s.clock <= now
       case Reread => s.pc.Rereading?
       case Check(now1, now2) => s.pc.Checking? && s.clock <= now1 <= now2
       case Call(_, after) => Purposed(s.pc).Some?
       case Commit(now) => (s.pc.Scaled? || s.pc.RestoreFailed? || s.pc.Restored?) && s.clock <= now
       case Wake => s.pc.Waiting? && s.trigger
       case Tick => s.pc.Waiting?
       case Cancel => s.pc.Waiting?
       case Drift(_) => true
  }

  ghost function Next(c: Config, s: State, e: Event): State
    requires Enabled(c, s, e)
  {
    match e
    case Queued(id, stamp, busy) =>
      if id in s.book.done.order then s
      else Accept(s, Queue(s.book, id, stamp, busy), JobQueued, id, busy)
    case Begun(id, stamp, busy) =>
      if id in s.book.done.order then s
      else Accept(s, Begin(s.book, id, stamp, busy), JobBegun, id, busy)
    case Finished(id, busy) =>
      Accept(s, Finish(s.book, c.opts.trackedJobs, id, busy), JobFinished, id, busy)
    case Poke => s.(trigger := true, pokes := s.pokes - 1)
    case Recount(count) =>
      (if count.Some? then Note(s, Counted(count.value, s.truth)).(applied := count.value) else s).(pc := Observing)
    case Observe(seen) =>
      if seen.Some? then Absorb(c, s, seen.value) else s.(pc := ReadingCutoff)
    case ReadCutoff(now) =>
      if c.opts.jobTTL <= 0 then s.(pc := Deciding)
      else s.(clock := now, pc := Sweeping(now - c.opts.jobTTL))
    case Sweep => s.(book := Expire(s.book, s.pc.cutoff), pc := Deciding)
    case Choose(now) =>
      var d := Decide(c.opts, s.book, s.applied, c.startedAt, now);
      Note(s, Chose(now, s.book.queued, s.book.inProgress, s.applied, d)).(
        clock := now, chosen := |s.log|, pc := Rereading(d))
    case Reread =>
      var d := s.pc.d;
      s.(pc := if !d.hold.Free? then Waiting else if d.desired == s.applied then Checking(d) else Scaling(d))
    case Check(now1, now2) =>
      if RecycleDue(c.opts, c.observed, s.applied, s.live, s.missing, c.startedAt, now1, now2)
      then Note(s, RecycleStarted(now2)).(clock := now2, pc := TearingDown(s.pc.d))
      else s.(clock := now2, pc := Waiting)
    case Call(ok, after) =>
      Note(s, Called(Purposed(s.pc).value, CallArg(s.pc), ok, s.applied, s.missing, s.truth, after,
                     s.book.inProgress, s.chosen, s.clock)).(
        truth := after, pc := AfterCall(s.pc, ok))
    case Commit(now) =>
      match s.pc {
        case Scaled(d) => s.(applied := d.desired, pc := Waiting)
        case RestoreFailed(d) => s.(applied := 0, pc := Waiting)
        case Restored(d) =>
          Note(s, Recycled(now)).(applied := d.desired, missing := Some(now), clock := now, pc := Waiting)
      }
    case Wake => s.(trigger := false, pc := Recounting)
    case Tick => s.(pc := Recounting)
    case Cancel => s.(pc := Stopped)
    case Drift(to) => Note(s, Drifted(s.truth, to)).(truth := to)
  }

  // ------------------------------------------------------------------
  // The platform
  // ------------------------------------------------------------------

  /** A call changes the pool only when it succeeds, and then to what was asked; a
      recount tells the truth; and the pool changes by itself only if it may. */
  predicate Fair(r: Record, drifts: bool) {
    && (r.Called? ==> r.after == if r.ok then r.arg else r.before)
    && (r.Counted? ==> r.count == r.truth)
    && (r.Drifted? ==> drifts)
  }

  /** The history from position n on is fair. */
  predicate FairFrom(log: seq<Record>, n: nat, drifts: bool) {
    forall i :: n <= i < |log| ==> Fair(log[i], drifts)
  }

  /** All of it is, and the pool never changes by itself. */
  predicate Honest(log: seq<Record>) {
    FairFrom(log, 0, false)
  }

  // ------------------------------------------------------------------
  // Runs
  // ------------------------------------------------------------------

  /** The state a sequence of events leads to, if each was possible in turn. */
  ghost function Exec(c: Config, s: State, es: seq<Event>): Option<State> {
    if es == [] then Some(s)
    else
      match Exec(c, s, es[..|es| - 1])
      case None => None
      case Some(m) => if Enabled(c, m, es[|es| - 1]) then Some(Next(c, m, es[|es| - 1])) else None
  }

  /** t is reachable from s. */
  ghost predicate Leads(c: Config, s: State, t: State) {
    exists es :: Exec(c, s, es) == Some(t)
  }

  ghost predicate Reachable(c: Config, t: State) {
    exists s :: Init(c, s) && Leads(c, s, t)
  }

  lemma ExecSnoc(c: Config, s: State, es: seq<Event>, m: State, e: Event)
    requires Exec(c, s, es) == Some(m) && Enabled(c, m, e)
    ensures Exec(c, s, es + [e]) == Some(Next(c, m, e))
  {
    assert (es + [e])[..|es + [e]| - 1] == es;
  }

  lemma ExecOne(c: Config, s: State, e: Event)
    requires Enabled(c, s, e)
    ensures Exec(c, s, [e]) == Some(Next(c, s, e))
  {
    ExecSnoc(c, s, [], s, e);
    assert [] + [e] == [e];
  }

  lemma ExecCons(c: Config, s: State, e: Event, es: seq<Event>)
    requires Enabled(c, s, e)
    ensures Exec(c, s, [e] + es) == Exec(c, Next(c, s, e), es)
  {
    ExecOne(c, s, e);
    ExecConcat(c, s, [e], Next(c, s, e), es);
  }

  /** A run decomposes into a run and a last step. */
  lemma ExecLast(c: Config, s: State, es: seq<Event>, t: State) returns (m: State, e: Event)
    requires es != [] && Exec(c, s, es) == Some(t)
    ensures e == es[|es| - 1] && Exec(c, s, es[..|es| - 1]) == Some(m)
    ensures Enabled(c, m, e) && t == Next(c, m, e)
  {
    m := Exec(c, s, es[..|es| - 1]).value;
    e := es[|es| - 1];
  }

  lemma {:induction false} ExecConcat(c: Config, s: State, es: seq<Event>, m: State, fs: seq<Event>)
    requires Exec(c, s, es) == Some(m)
    ensures Exec(c, s, es + fs) == Exec(c, m, fs)
  {
    if fs == [] {
      assert es + fs == es;
    } else {
      var n := |fs| - 1;
      ExecConcat(c, s, es, m, fs[..n]);
      assert (es + fs)[..|es + fs| - 1] == es + fs[..n];
    }
  }

  /** A step adds at most one entry to the history and never rewrites it. */
  lemma StepKeepsLog(c: Config, s: State, e: Event)
    requires Enabled(c, s, e)
    ensures s.log <= Next(c, s, e).log && |Next(c, s, e).log| <= |s.log| + 1
  {
  }

  /** Steps that may change the tracked jobs. */
  predicate TouchesBook(e: Event) {
    e.Queued? || e.Begun? || e.Finished? || e.Sweep? || (e.Observe? && e.seen.Some?)
  }

  lemma OthersLeaveBook(c: Config, s: State, e: Event)
    requires Enabled(c, s, e) && !TouchesBook(e)
    ensures Next(c, s, e).book == s.book && s.clock <= Next(c, s, e).clock
  {
  }

  /** Handlers, and the pool changing by itself, leave the reconciler where it is. */
  lemma OthersLeaveReconciler(c: Config, s: State, e: Event)
    requires Enabled(c, s, e) && !ByReconciler(e)
    ensures var t := Next(c, s, e);
      && t.pc == s.pc && t.chosen == s.chosen
      && t.applied == s.applied && t.live == s.live && t.missing == s.missing
      && s.clock <= t.clock
      && (t.log != s.log ==> t.log[|s.log|].Heard? || t.log[|s.log|].Drifted?)
  {
  }

  /** A run passes through any of its steps. */
  lemma {:induction false} ExecThrough(c: Config, s: State, es: seq<Event>, n: nat, t: State) returns (m: State)
    requires Exec(c, s, es) == Some(t) && n < |es|
    ensures Exec(c, s, es[..n]) == Some(m) && Enabled(c, m, es[n])
    ensures Next(c, m, es[n]).log <= t.log
  {
    var u, e := ExecLast(c, s, es, t);
    if n == |es| - 1 {
      m := u;
    } else {
      m := ExecThrough(c, s, es[..|es| - 1], n, u);
      StepKeepsLog(c, u, e);
      assert es[..|es| - 1][..n] == es[..n];
    }
  }

  lemma {:induction false} RunKeepsLog(c: Config, s: State, es: seq<Event>, t: State)
    requires Exec(c, s, es) == Some(t)
    ensures s.log <= t.log
  {
    if es != [] {
      var m, e := ExecLast(c, s, es, t);
      RunKeepsLog(c, s, es[..|es| - 1], m);
      StepKeepsLog(c, m, e);
    }
  }
}
