/** The autoscaler's critical sections, as functions on the values they update.

    Clock readings are arguments. A section that reads the clock twice takes two
    readings, the first no later than the second. */
module Scaler {
  import opened Seqs
  import opened Bounded

  /** Durations and counts that configure scaling. `trackedJobs` is the capacity
      of the record of finished jobs. */
  datatype Options = Options(
    minReplicas: int,
    maxRunners: int,
    idleCooldown: int,
    startupGrace: int,
    jobTTL: int,
    runnerGrace: int,
    trackedJobs: nat)
  {
    /** What configuration loading guarantees. */
    predicate Valid() {
      && 0 <= minReplicas <= maxRunners
      && 1 <= maxRunners
      && 0 <= idleCooldown && 0 <= startupGrace && 0 <= jobTTL && 0 <= runnerGrace
      && 1 <= trackedJobs
    }
  }

  /** Tracked jobs, each with the time it was recorded, the finished jobs that
      are still remembered, and the time of the last job activity. */
  datatype Book = Book(
    queued: map<int, int>,
    inProgress: map<int, int>,
    done: Ledger<int>,
    lastBusy: int)

  // ------------------------------------------------------------------
  // Webhook events
  // ------------------------------------------------------------------

  function Queue(b: Book, id: int, stamp: int, busy: int): Book {
    if id in b.done.order then b
    else b.(queued := b.queued[id := stamp], lastBusy := busy)
  }

  function Begin(b: Book, id: int, stamp: int, busy: int): Book {
    if id in b.done.order then b
    else b.(queued := b.queued - {id}, inProgress := b.inProgress[id := stamp], lastBusy := busy)
  }

  function Finish(b: Book, size: nat, id: int, busy: int): Book
    requires size >= 1
  {
    Book(b.queued - {id}, b.inProgress - {id}, AddKey(size, b.done, id), busy)
  }

  // ------------------------------------------------------------------
  // Adopting an observation
  // ------------------------------------------------------------------

  /** One observed job with the two clock readings taken should it be new. */
  datatype Sighting = Sighting(id: int, stamp: int, busy: int)

  function Ids(seen: seq<Sighting>): set<int> {
    set i | 0 <= i < |seen| :: seen[i].id
  }

  function SightQueued(b: Book, s: Sighting): Book {
    if s.id in b.done.order || s.id in b.inProgress || s.id in b.queued then b
    else b.(queued := b.queued[s.id := s.stamp], lastBusy := s.busy)
  }

  function SightRunning(b: Book, s: Sighting): Book {
    if s.id in b.done.order || s.id in b.inProgress then b
    else b.(queued := b.queued - {s.id}, inProgress := b.inProgress[s.id := s.stamp], lastBusy := s.busy)
  }

  function SightAllQueued(b: Book, seen: seq<Sighting>): Book {
    if seen == [] then b
    else SightQueued(SightAllQueued(b, seen[..|seen| - 1]), seen[|seen| - 1])
  }

  function SightAllRunning(b: Book, seen: seq<Sighting>): Book {
    if seen == [] then b
    else SightRunning(SightAllRunning(b, seen[..|seen| - 1]), seen[|seen| - 1])
  }

  /** The entries of m that GitHub did not report and that are older than cutoff. */
  function Stale(m: map<int, int>, seen: set<int>, cutoff: int): set<int> {
    set id | id in m && id !in seen && m[id] < cutoff
  }

  /** Drops ids from the queued map, in the order the map is visited. */
  function DropQueued(b: Book, size: nat, ids: seq<int>): Book
    requires size >= 1
  {
    b.(queued := b.queued - Elems(ids), done := AddAll(size, b.done, ids))
  }

  function DropRunning(b: Book, size: nat, ids: seq<int>): Book
    requires size >= 1
  {
    b.(inProgress := b.inProgress - Elems(ids), done := AddAll(size, b.done, ids))
  }

  function Sight(b: Book, queued: seq<Sighting>, running: seq<Sighting>): Book {
    SightAllRunning(SightAllQueued(b, queued), running)
  }

  /** dropQ and dropR are the orders in which the two maps yield their stale
      entries. */
  ghost predicate DropOrders(b: Book, seen: set<int>, cutoff: int, dropQ: seq<int>, dropR: seq<int>) {
    && IsListing(dropQ, Stale(b.queued, seen, cutoff))
    && IsListing(dropR, Stale(b.inProgress, seen, cutoff))
  }

  function DropStale(b: Book, size: nat, dropQ: seq<int>, dropR: seq<int>): Book
    requires size >= 1
  {
    DropRunning(DropQueued(b, size, dropQ), size, dropR)
  }

  // ------------------------------------------------------------------
  // Runner health
  // ------------------------------------------------------------------

  function MissingSince(missing: Option<int>, applied: int, live: int, now: int): Option<int> {
    if applied > 0 && live == 0 then
      if missing.None? then Some(now) else missing
    else None
  }

  /** Whether the pool must be rebuilt. The clock is read once for each gate. */
  predicate RecycleDue(o: Options, observed: bool, applied: int, live: int, missing: Option<int>,
                       startedAt: int, now1: int, now2: int)
  {
    && observed && o.runnerGrace > 0
    && applied > 0 && live == 0 && missing.Some?
    && now1 - startedAt >= o.startupGrace
    && now2 - missing.value >= o.runnerGrace
  }

  // ------------------------------------------------------------------
  // Expiry and the decision
  // ------------------------------------------------------------------

  function Fresher(m: map<int, int>, cutoff: int): map<int, int> {
    map id | id in m && m[id] >= cutoff :: m[id]
  }

  function Expire(b: Book, cutoff: int): Book {
    b.(queued := Fresher(b.queued, cutoff), inProgress := Fresher(b.inProgress, cutoff))
  }

  function Min(a: int, b: int): int {
    if a < b then a else b
  }

  function Max(a: int, b: int): int {
    if a > b then a else b
  }

  function Clamp(v: int, lo: int, hi: int): (r: int)
    ensures lo <= v <= hi ==> r == v
    ensures v < lo <= hi ==> r == lo
    ensures lo <= hi < v ==> r == hi
    ensures lo > hi ==> r == hi
  {
    Min(Max(v, lo), hi)
  }

  /** The replica count the tracked jobs ask for. */
  function Want(o: Options, queued: map<int, int>, inProgress: map<int, int>): int {
    Clamp(|queued| + |inProgress|, o.minReplicas, o.maxRunners)
  }

  /** In plain numbers: the count of tracked jobs, cut off at both ends. */
  lemma WantInNumbers(o: Options, queued: map<int, int>, inProgress: map<int, int>)
    requires o.Valid()
    ensures var jobs, want := |queued| + |inProgress|, Want(o, queued, inProgress);
      && (jobs <= o.minReplicas ==> want == o.minReplicas)
      && (o.minReplicas <= jobs <= o.maxRunners ==> want == jobs)
      && (jobs >= o.maxRunners ==> want == o.maxRunners)
  {
  }

  /** More tracked jobs never ask for fewer replicas. */
  lemma MoreJobsMoreDemand(o: Options, queued: map<int, int>, inProgress: map<int, int>,
                           queued2: map<int, int>, inProgress2: map<int, int>)
    requires o.Valid()
    requires queued.Keys <= queued2.Keys && inProgress.Keys <= inProgress2.Keys
    ensures Want(o, queued, inProgress) <= Want(o, queued2, inProgress2)
  {
    SubsetCard(queued.Keys, queued2.Keys);
    SubsetCard(inProgress.Keys, inProgress2.Keys);
    assert |queued| == |queued.Keys| && |queued2| == |queued2.Keys|;
    assert |inProgress| == |inProgress.Keys| && |inProgress2| == |inProgress2.Keys|;
  }

  datatype Hold = Free | JobsRunning | CoolingDown | StartingUp

  datatype Decision = Decision(desired: int, queued: int, inProgress: int, hold: Hold)

  /** Why a shrink must wait, if it must. */
  function ShrinkHold(o: Options, b: Book, startedAt: int, now: int): Hold {
    if |b.inProgress| > 0 then JobsRunning
    else if now - b.lastBusy < o.idleCooldown then CoolingDown
    else if now - startedAt < o.startupGrace then StartingUp
    else Free
  }

  function Decide(o: Options, b: Book, applied: int, startedAt: int, now: int): Decision {
    var want := Want(o, b.queued, b.inProgress);
    var hold := if applied >= 0 && want < applied then ShrinkHold(o, b, startedAt, now) else Free;
    Decision(if hold.Free? then want else applied, |b.queued|, |b.inProgress|, hold)
  }

  /** A decision is held back exactly when it would shrink a known count and a gate
      is closed. An unknown count (-1) is never held: no gate is consulted. */
  lemma HeldExactly(o: Options, b: Book, applied: int, startedAt: int, now: int)
    ensures !Decide(o, b, applied, startedAt, now).hold.Free? <==>
      && applied >= 0
      && Want(o, b.queued, b.inProgress) < applied
      && (b.inProgress != map[] || now - b.lastBusy < o.idleCooldown || now - startedAt < o.startupGrace)
  {
    assert |b.inProgress| == 0 <==> b.inProgress == map[];
  }

  /** What a decision means to the caller: it never asks for less than the jobs
      want, it stays in range unless it holds an existing count, and it shrinks a
      known count only when nothing runs and both quiet periods are over. */
  lemma DecisionIsSafe(o: Options, b: Book, applied: int, startedAt: int, now: int)
    requires o.Valid()
    ensures var d := Decide(o, b, applied, startedAt, now);
            && d.desired >= Want(o, b.queued, b.inProgress)
            && (d.hold.Free? ==> o.minReplicas <= d.desired <= o.maxRunners)
            && (!d.hold.Free? ==> d.desired == applied)
            && (0 <= d.desired < applied <==>
                && Want(o, b.queued, b.inProgress) < applied
                && b.inProgress == map[]
                && now - b.lastBusy >= o.idleCooldown
                && now - startedAt >= o.startupGrace)
  {
    assert |b.inProgress| == 0 <==> b.inProgress == map[];
  }

  /** A decision reports the jobs it saw, and the first closed gate as its reason. */
  lemma DecisionExplains(o: Options, b: Book, applied: int, startedAt: int, now: int)
    ensures var d := Decide(o, b, applied, startedAt, now);
      && d.queued == |b.queued| && d.inProgress == |b.inProgress|
      && (d.hold.JobsRunning? ==> b.inProgress != map[])
      && (d.hold.CoolingDown? ==> b.inProgress == map[] && now - b.lastBusy < o.idleCooldown)
      && (d.hold.StartingUp? ==>
            b.inProgress == map[] && now - b.lastBusy >= o.idleCooldown && now - startedAt < o.startupGrace)
  {
    assert |b.inProgress| == 0 <==> b.inProgress == map[];
  }
}
