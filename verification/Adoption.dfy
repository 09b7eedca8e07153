/** Folding an observation of GitHub into the tracked jobs: the loops over the
    observed ids and over the two maps, against a description on sets. */
module Adoption {
  import opened Seqs
  import opened Bounded
  import opened Scaler

  // ------------------------------------------------------------------
  // What every critical section keeps
  // ------------------------------------------------------------------

  /** The facts about tracked jobs that hold in every reachable state. A job can
      sit in both maps when its `queued` event came late; then the running entry
      is the older one. */
  ghost predicate Sound(b: Book, size: nat, now: int) {
    && size >= 1
    && Refines(size, b.done)
    && b.inProgress.Keys !! Elems(b.done.order)
    && (forall id :: id in b.inProgress && id in b.queued ==> b.inProgress[id] <= b.queued[id])
    && (forall id :: id in b.queued ==> b.queued[id] <= b.lastBusy)
    && (forall id :: id in b.inProgress ==> b.inProgress[id] <= b.lastBusy)
    && b.lastBusy <= now
  }

  ghost predicate Disjoint(b: Book) {
    && b.queued.Keys !! b.inProgress.Keys
    && b.queued.Keys !! Elems(b.done.order)
    && b.inProgress.Keys !! Elems(b.done.order)
  }

  lemma QueueKeepsSound(b: Book, size: nat, now: int, id: int, stamp: int, busy: int)
    requires Sound(b, size, now) && now <= stamp <= busy
    ensures Sound(Queue(b, id, stamp, busy), size, busy)
  {
  }

  lemma BeginKeepsSound(b: Book, size: nat, now: int, id: int, stamp: int, busy: int)
    requires Sound(b, size, now) && now <= stamp <= busy
    ensures Sound(Begin(b, id, stamp, busy), size, busy)
  {
  }

  lemma FinishKeepsSound(b: Book, size: nat, now: int, id: int, busy: int)
    requires Sound(b, size, now) && now <= busy
    ensures Sound(Finish(b, size, id, busy), size, busy)
  {
    AddKeyRefines(size, b.done, id);
    assert Elems(AddKey(size, b.done, id).order) <= Elems(b.done.order) + {id};
  }

  lemma ExpireKeepsSound(b: Book, size: nat, now: int, cutoff: int)
    requires Sound(b, size, now)
    ensures Sound(Expire(b, cutoff), size, now)
    ensures Disjoint(b) ==> Disjoint(Expire(b, cutoff))
  {
  }

  // ------------------------------------------------------------------
  // The loops over observed ids
  // ------------------------------------------------------------------

  /** The clock after reading it for every sighting, starting from now. */
  function ClockAfter(now: int, seen: seq<Sighting>): int {
    if seen == [] then now else seen[|seen| - 1].busy
  }

  /** The readings never go back. */
  ghost predicate Timely(now: int, seen: seq<Sighting>) {
    forall i :: 0 <= i < |seen| ==> ClockAfter(now, seen[..i]) <= seen[i].stamp <= seen[i].busy
  }

  lemma TimelyPrefix(now: int, seen: seq<Sighting>)
    requires Timely(now, seen) && seen != []
    ensures Timely(now, seen[..|seen| - 1])
    ensures ClockAfter(now, seen[..|seen| - 1]) <= seen[|seen| - 1].stamp <= seen[|seen| - 1].busy
  {
    var p := seen[..|seen| - 1];
    forall i | 0 <= i < |p| ensures ClockAfter(now, p[..i]) <= p[i].stamp <= p[i].busy {
      assert p[..i] == seen[..i];
    }
  }

  lemma {:induction false} TimelyGrows(now: int, seen: seq<Sighting>)
    requires Timely(now, seen)
    ensures now <= ClockAfter(now, seen)
  {
    if seen != [] {
      TimelyPrefix(now, seen);
      TimelyGrows(now, seen[..|seen| - 1]);
    }
  }

  lemma IdsAppend(seen: seq<Sighting>, s: Sighting)
    ensures Ids(seen + [s]) == Ids(seen) + {s.id}
  {
    var all := seen + [s];
    assert all[|seen|] == s;
    forall id | id in Ids(seen) ensures id in Ids(all) {
      var i :| 0 <= i < |seen| && seen[i].id == id;
      assert all[i].id == id;
    }
  }

  /** Observed queued jobs that are neither finished nor running become tracked;
      nothing else changes, and a tracked job keeps its time. */
  lemma {:induction false} QueuedSightings(b: Book, seen: seq<Sighting>)
    ensures var r := SightAllQueued(b, seen);
      && r.inProgress == b.inProgress && r.done == b.done
      && r.queued.Keys == b.queued.Keys + (Ids(seen) - Elems(b.done.order) - b.inProgress.Keys)
      && (forall id :: id in b.queued ==> r.queued[id] == b.queued[id])
  {
    if seen != [] {
      var n := |seen| - 1;
      QueuedSightings(b, seen[..n]);
      IdsAppend(seen[..n], seen[n]);
      assert seen == seen[..n] + [seen[n]];
    } else {
      assert Ids(seen) == {};
    }
  }

  /** What sighting running jobs ids makes of b. */
  ghost predicate Ran(b: Book, ids: set<int>, r: Book) {
    && r.done == b.done
    && r.inProgress.Keys == b.inProgress.Keys + (ids - Elems(b.done.order))
    && r.queued == b.queued - (ids - Elems(b.done.order) - b.inProgress.Keys)
    && (forall id :: id in b.inProgress ==> r.inProgress[id] == b.inProgress[id])
  }

  lemma RanOne(b: Book, ids: set<int>, r: Book, s: Sighting)
    requires Ran(b, ids, r)
    ensures Ran(b, ids + {s.id}, SightRunning(r, s))
  {
    assert s.id in b.done.order <==> s.id in Elems(b.done.order);
    assert s.id in r.inProgress <==> s.id in r.inProgress.Keys;
  }

  /** Observed running jobs that are not finished become tracked as running and
      stop being queued; a job that was running keeps its time. */
  lemma {:induction false} RunningSightings(b: Book, seen: seq<Sighting>)
    ensures Ran(b, Ids(seen), SightAllRunning(b, seen))
  {
    if seen != [] {
      var n := |seen| - 1;
      RunningSightings(b, seen[..n]);
      IdsAppend(seen[..n], seen[n]);
      assert seen == seen[..n] + [seen[n]];
      RanOne(b, Ids(seen[..n]), SightAllRunning(b, seen[..n]), seen[n]);
    } else {
      assert Ids(seen) == {};
      assert b.queued == b.queued - ({} - Elems(b.done.order) - b.inProgress.Keys);
    }
  }

  lemma {:induction false} QueuedSightingsKeepSound(b: Book, size: nat, now: int, seen: seq<Sighting>)
    requires Sound(b, size, now) && Timely(now, seen)
    ensures Sound(SightAllQueued(b, seen), size, ClockAfter(now, seen))
    ensures Disjoint(b) ==> Disjoint(SightAllQueued(b, seen))
    ensures now <= ClockAfter(now, seen)
    ensures b.lastBusy <= SightAllQueued(b, seen).lastBusy
  {
    if seen != [] {
      TimelyPrefix(now, seen);
      QueuedSightingsKeepSound(b, size, now, seen[..|seen| - 1]);
    }
  }

  lemma {:induction false} RunningSightingsKeepSound(b: Book, size: nat, now: int, seen: seq<Sighting>)
    requires Sound(b, size, now) && Timely(now, seen)
    ensures Sound(SightAllRunning(b, seen), size, ClockAfter(now, seen))
    ensures Disjoint(b) ==> Disjoint(SightAllRunning(b, seen))
    ensures now <= ClockAfter(now, seen)
    ensures b.lastBusy <= SightAllRunning(b, seen).lastBusy
  {
    if seen != [] {
      TimelyPrefix(now, seen);
      RunningSightingsKeepSound(b, size, now, seen[..|seen| - 1]);
    }
  }

  // ------------------------------------------------------------------
  // The loops that drop what GitHub no longer reports
  // ------------------------------------------------------------------

  /** A job in both maps leaves both: its running entry is the older one. */
  lemma DropKeepsSound(b: Book, size: nat, now: int, seen: set<int>, cutoff: int, dropQ: seq<int>, dropR: seq<int>)
    requires Sound(b, size, now) && DropOrders(b, seen, cutoff, dropQ, dropR)
    ensures Sound(DropStale(b, size, dropQ, dropR), size, now)
    ensures Disjoint(b) ==> Disjoint(DropStale(b, size, dropQ, dropR))
  {
    var d1 := AddAll(size, b.done, dropQ);
    WindowIsTailOfHistory(size, b.done, dropQ);
    WindowIsTailOfHistory(size, d1, dropR);
    AddAllRemembersOnly(size, b.done, dropQ);
    AddAllRemembersOnly(size, d1, dropR);
    var r := DropStale(b, size, dropQ, dropR);
    forall id | id in r.inProgress ensures id !in Elems(r.done.order) {
      assert id !in Stale(b.inProgress, seen, cutoff);
      assert id !in Stale(b.queued, seen, cutoff);
    }
  }

  /** `done` gains exactly the dropped jobs when it has room for them. */
  lemma DropRecordsDone(b: Book, size: nat, now: int, dropQ: seq<int>, dropR: seq<int>)
    requires Sound(b, size, now)
    requires |Elems(b.done.order) + Elems(dropQ) + Elems(dropR)| <= size
    ensures Elems(DropStale(b, size, dropQ, dropR).done.order)
            == Elems(b.done.order) + Elems(dropQ) + Elems(dropR)
  {
    SubsetCard(Elems(b.done.order) + Elems(dropQ), Elems(b.done.order) + Elems(dropQ) + Elems(dropR));
    AddAllUnion(size, b.done, dropQ);
    AddAllUnion(size, AddAll(size, b.done, dropQ), dropR);
  }

  // ------------------------------------------------------------------
  // The whole section
  // ------------------------------------------------------------------

  function Adopt(b: Book, size: nat, queued: seq<Sighting>, running: seq<Sighting>, dropQ: seq<int>, dropR: seq<int>): Book
    requires size >= 1
  {
    DropStale(Sight(b, queued, running), size, dropQ, dropR)
  }

  /** dropQ and dropR list the entries that are unseen and older than cutoff once
      the observed jobs are in. */
  ghost predicate AdoptOrders(b: Book, queued: seq<Sighting>, running: seq<Sighting>, cutoff: int,
                              dropQ: seq<int>, dropR: seq<int>)
  {
    DropOrders(Sight(b, queued, running), Ids(queued) + Ids(running), cutoff, dropQ, dropR)
  }

  lemma AdoptKeepsSound(b: Book, size: nat, now: int, queued: seq<Sighting>, running: seq<Sighting>,
                        cutoff: int, dropQ: seq<int>, dropR: seq<int>)
    requires Sound(b, size, now)
    requires Timely(now, queued) && Timely(ClockAfter(now, queued), running)
    requires AdoptOrders(b, queued, running, cutoff, dropQ, dropR)
    ensures Sound(Adopt(b, size, queued, running, dropQ, dropR), size, ClockAfter(ClockAfter(now, queued), running))
    ensures Disjoint(b) ==> Disjoint(Adopt(b, size, queued, running, dropQ, dropR))
    ensures now <= ClockAfter(ClockAfter(now, queued), running)
    ensures b.lastBusy <= Adopt(b, size, queued, running, dropQ, dropR).lastBusy
  {
    QueuedSightingsKeepSound(b, size, now, queued);
    RunningSightingsKeepSound(SightAllQueued(b, queued), size, ClockAfter(now, queued), running);
    DropKeepsSound(Sight(b, queued, running), size, ClockAfter(ClockAfter(now, queued), running),
                   Ids(queued) + Ids(running), cutoff, dropQ, dropR);
  }

  /** Sighting jobs does not change which ones are stale. */
  lemma SightingsLeaveStale(b: Book, queued: seq<Sighting>, running: seq<Sighting>, cutoff: int)
    ensures var seen := Ids(queued) + Ids(running);
      && Stale(Sight(b, queued, running).queued, seen, cutoff) == Stale(b.queued, seen, cutoff)
      && Stale(Sight(b, queued, running).inProgress, seen, cutoff) == Stale(b.inProgress, seen, cutoff)
      && Sight(b, queued, running).done == b.done
  {
    var b1, b2 := SightAllQueued(b, queued), Sight(b, queued, running);
    QueuedSightings(b, queued);
    RunningSightings(b1, running);
    var seen := Ids(queued) + Ids(running);
    forall id ensures id in Stale(b2.queued, seen, cutoff) <==> id in Stale(b.queued, seen, cutoff) {
      assert id in b2.queued.Keys && id !in seen ==> id in b.queued.Keys;
      assert id in b.queued.Keys && id !in seen ==> id in b2.queued.Keys;
    }
    forall id ensures id in Stale(b2.inProgress, seen, cutoff) <==> id in Stale(b.inProgress, seen, cutoff) {
      assert id in b2.inProgress.Keys && id !in seen ==> id in b.inProgress.Keys;
    }
  }

  /** New entries carry readings taken during the observation. */
  lemma {:induction false} NewQueuedStamps(b: Book, now: int, seen: seq<Sighting>)
    requires Timely(now, seen)
    ensures var r := SightAllQueued(b, seen);
      forall id :: id in r.queued && id !in b.queued ==> r.queued[id] >= now
  {
    if seen != [] {
      TimelyPrefix(now, seen);
      TimelyGrows(now, seen[..|seen| - 1]);
      NewQueuedStamps(b, now, seen[..|seen| - 1]);
    }
  }

  lemma {:induction false} NewRunningStamps(b: Book, now: int, seen: seq<Sighting>)
    requires Timely(now, seen)
    ensures var r := SightAllRunning(b, seen);
      forall id :: id in r.inProgress && id !in b.inProgress ==> r.inProgress[id] >= now
  {
    if seen != [] {
      TimelyPrefix(now, seen);
      TimelyGrows(now, seen[..|seen| - 1]);
      NewRunningStamps(b, now, seen[..|seen| - 1]);
    }
  }

  /** A job that GitHub reports, and that is neither finished nor tracked, is recorded
      at a time no earlier than the observation began: as running if it is reported
      running, as queued if not. */
  lemma NewJobsAreRecordedNow(b: Book, size: nat, now: int, queued: seq<Sighting>, running: seq<Sighting>,
                              cutoff: int, dropQ: seq<int>, dropR: seq<int>, id: int)
    requires size >= 1 && AdoptOrders(b, queued, running, cutoff, dropQ, dropR)
    requires Timely(now, queued) && Timely(ClockAfter(now, queued), running)
    requires id !in b.done.order && id !in b.queued && id !in b.inProgress
    ensures var r := Adopt(b, size, queued, running, dropQ, dropR);
      && (id in Ids(running) ==> id in r.inProgress && r.inProgress[id] >= now && id !in r.queued)
      && (id in Ids(queued) && id !in Ids(running) ==> id in r.queued && r.queued[id] >= now && id !in r.inProgress)
  {
    var b1, r := SightAllQueued(b, queued), Adopt(b, size, queued, running, dropQ, dropR);
    TimelyGrows(now, queued);
    NewQueuedStamps(b, now, queued);
    NewRunningStamps(b1, ClockAfter(now, queued), running);
    QueuedSightings(b, queued);
    RunningSightings(b1, running);
    ObservedJobsAreTracked(b, size, queued, running, cutoff, dropQ, dropR, id);
    AdoptTracks(b, size, queued, running, cutoff, dropQ, dropR);
    assert id in r.queued <==> id in r.queued.Keys;
    assert id in r.inProgress <==> id in r.inProgress.Keys;
  }

  /** The jobs the queued map holds once GitHub has reported Q and R: those it
      held and the new ones, less those found running and those disowned. */
  function TrackedQueued(b: Book, Q: set<int>, R: set<int>, cutoff: int): set<int> {
    var known := Elems(b.done.order) + b.inProgress.Keys;
    b.queued.Keys + (Q - known) - (R - known) - Stale(b.queued, Q + R, cutoff)
  }

  /** The same for the running map. */
  function TrackedRunning(b: Book, Q: set<int>, R: set<int>, cutoff: int): set<int> {
    b.inProgress.Keys + (R - Elems(b.done.order)) - Stale(b.inProgress, Q + R, cutoff)
  }

  /** The set-level account of adoption, for any clock readings: which jobs each
      map holds afterwards, and that no job tracked before is given a new time. */
  lemma AdoptTracks(b: Book, size: nat, queued: seq<Sighting>, running: seq<Sighting>,
                    cutoff: int, dropQ: seq<int>, dropR: seq<int>)
    requires size >= 1
    requires AdoptOrders(b, queued, running, cutoff, dropQ, dropR)
    ensures var r := Adopt(b, size, queued, running, dropQ, dropR);
      && r.queued.Keys == TrackedQueued(b, Ids(queued), Ids(running), cutoff)
      && r.inProgress.Keys == TrackedRunning(b, Ids(queued), Ids(running), cutoff)
      && (forall id :: id in r.queued && id in b.queued ==> r.queued[id] == b.queued[id])
      && (forall id :: id in r.inProgress && id in b.inProgress ==> r.inProgress[id] == b.inProgress[id])
  {
    AdoptKeepsTimes(b, size, queued, running, dropQ, dropR);
    QueuedSightings(b, queued);
    RunningSightings(SightAllQueued(b, queued), running);
    SightingsLeaveStale(b, queued, running, cutoff);
    var s, r := Sight(b, queued, running), Adopt(b, size, queued, running, dropQ, dropR);
    var Q, R := Ids(queued), Ids(running);
    assert r.queued.Keys == s.queued.Keys - Elems(dropQ);
    assert r.inProgress.Keys == s.inProgress.Keys - Elems(dropR);
    assert Elems(dropQ) == Stale(b.queued, Q + R, cutoff) && Elems(dropR) == Stale(b.inProgress, Q + R, cutoff);
  }

  lemma AdoptKeepsTimes(b: Book, size: nat, queued: seq<Sighting>, running: seq<Sighting>,
                        dropQ: seq<int>, dropR: seq<int>)
    requires size >= 1
    ensures var r := Adopt(b, size, queued, running, dropQ, dropR);
      && (forall id :: id in r.queued && id in b.queued ==> r.queued[id] == b.queued[id])
      && (forall id :: id in r.inProgress && id in b.inProgress ==> r.inProgress[id] == b.inProgress[id])
  {
    QueuedSightings(b, queued);
    RunningSightings(SightAllQueued(b, queued), running);
  }

  /** Every observed job that is not finished is tracked afterwards, and one
      observed running is tracked as running; a tracked job that goes away was
      unseen and recorded before cutoff. */
  lemma ObservedJobsAreTracked(b: Book, size: nat, queued: seq<Sighting>, running: seq<Sighting>,
                               cutoff: int, dropQ: seq<int>, dropR: seq<int>, id: int)
    requires size >= 1
    requires AdoptOrders(b, queued, running, cutoff, dropQ, dropR)
    ensures var r := Adopt(b, size, queued, running, dropQ, dropR);
      && (id in Ids(running) && id !in b.done.order ==> id in r.inProgress)
      && (id in Ids(running) && id !in b.done.order && id !in b.inProgress ==> id !in r.queued)
      && (id in Ids(queued) && id !in b.done.order ==> id in r.queued || id in r.inProgress)
      && (id in b.inProgress ==>
            (id !in r.inProgress <==> id !in Ids(queued) + Ids(running) && b.inProgress[id] < cutoff))
      && (id in b.queued && id !in b.inProgress && id !in Ids(running) ==>
            (id !in r.queued <==> id !in Ids(queued) && b.queued[id] < cutoff))
  {
    AdoptTracks(b, size, queued, running, cutoff, dropQ, dropR);
    var r := Adopt(b, size, queued, running, dropQ, dropR);
    assert id in r.queued <==> id in r.queued.Keys;
    assert id in r.inProgress <==> id in r.inProgress.Keys;
    assert id in b.done.order <==> id in Elems(b.done.order);
  }

  /** Confirmation does not renew a job: one that was tracked already, and that
      GitHub has just reported again, survives the expiry that follows exactly when
      its first recording is recent enough. */
  lemma ConfirmedJobsStillExpire(b: Book, size: nat, queued: seq<Sighting>, running: seq<Sighting>,
                                 cutoff: int, dropQ: seq<int>, dropR: seq<int>, ttlCutoff: int, id: int)
    requires size >= 1
    requires AdoptOrders(b, queued, running, cutoff, dropQ, dropR)
    requires id in Ids(queued) + Ids(running)
    ensures var r := Adopt(b, size, queued, running, dropQ, dropR);
      && (id in b.inProgress ==>
            && id in r.inProgress
            && (id in Expire(r, ttlCutoff).inProgress <==> b.inProgress[id] >= ttlCutoff))
      && (StaysQueued(b, running, id) ==>
            && id in r.queued
            && (id in Expire(r, ttlCutoff).queued <==> b.queued[id] >= ttlCutoff))
  {
    AdoptTracks(b, size, queued, running, cutoff, dropQ, dropR);
    var r := Adopt(b, size, queued, running, dropQ, dropR);
    assert id in r.inProgress <==> id in r.inProgress.Keys;
    assert id in r.queued <==> id in r.queued.Keys;
  }

  /** id is waiting and this observation does not find it running. */
  predicate StaysQueued(b: Book, running: seq<Sighting>, id: int) {
    id in b.queued && id !in b.inProgress && id !in Ids(running)
  }

  /** Nor does it protect a job from the next observation: a job confirmed by one
      and missed by the next is dropped exactly when its first recording, not its
      confirmation, is before the second cutoff. */
  lemma ConfirmedThenMissed(b: Book, size: nat,
                            queued1: seq<Sighting>, running1: seq<Sighting>, cutoff1: int, dropQ1: seq<int>, dropR1: seq<int>,
                            queued2: seq<Sighting>, running2: seq<Sighting>, cutoff2: int, dropQ2: seq<int>, dropR2: seq<int>,
                            id: int)
    requires size >= 1
    requires AdoptOrders(b, queued1, running1, cutoff1, dropQ1, dropR1)
    requires AdoptOrders(Adopt(b, size, queued1, running1, dropQ1, dropR1), queued2, running2, cutoff2, dropQ2, dropR2)
    requires id in Ids(queued1) + Ids(running1) && id !in Ids(queued2) + Ids(running2)
    ensures var m := Adopt(b, size, queued1, running1, dropQ1, dropR1);
      var r := Adopt(m, size, queued2, running2, dropQ2, dropR2);
      && (id in b.inProgress ==> (id !in r.inProgress <==> b.inProgress[id] < cutoff2))
      && (StaysQueued(b, running1, id) ==> (id !in r.queued <==> b.queued[id] < cutoff2))
  {
    AdoptTracks(b, size, queued1, running1, cutoff1, dropQ1, dropR1);
    ObservedJobsAreTracked(b, size, queued1, running1, cutoff1, dropQ1, dropR1, id);
    var m := Adopt(b, size, queued1, running1, dropQ1, dropR1);
    assert id in m.inProgress <==> id in m.inProgress.Keys;
    assert id in m.queued <==> id in m.queued.Keys;
    ObservedJobsAreTracked(m, size, queued2, running2, cutoff2, dropQ2, dropR2, id);
  }

  // ------------------------------------------------------------------
  // At a fixed clock the order of everything is immaterial
  // ------------------------------------------------------------------

  function At(ids: seq<int>, t: int): (r: seq<Sighting>)
    ensures Ids(r) == Elems(ids)
  {
    var r := seq(|ids|, i requires 0 <= i < |ids| => Sighting(ids[i], t, t));
    assert forall i :: 0 <= i < |ids| ==> r[i].id == ids[i];
    r
  }

  /** Some observed job is neither finished nor tracked in the map it belongs to. */
  predicate SomethingNew(b: Book, queued: set<int>, running: set<int>) {
    || (exists id :: id in queued && id !in b.done.order && id !in b.inProgress && id !in b.queued)
    || (exists id :: id in running && id !in b.done.order && id !in b.inProgress)
  }

  lemma {:induction false} QueuedAtFixedClock(b: Book, seen: seq<Sighting>, t: int)
    requires forall s :: s in seen ==> s.stamp == t && s.busy == t
    ensures var r := SightAllQueued(b, seen);
      && (forall id :: id in r.queued && id !in b.queued ==> r.queued[id] == t)
      && r.lastBusy == if r.queued.Keys == b.queued.Keys then b.lastBusy else t
  {
    if seen != [] {
      var n := |seen| - 1;
      QueuedAtFixedClock(b, seen[..n], t);
      QueuedSightings(b, seen[..n]);
      assert seen[n] in seen;
      var p := SightAllQueued(b, seen[..n]);
      var r := SightAllQueued(b, seen);
      if seen[n].id in r.queued && seen[n].id !in p.queued {
        assert seen[n].id !in b.queued.Keys && seen[n].id in r.queued.Keys;
      }
    }
  }

  lemma {:induction false} RunningAtFixedClock(b: Book, seen: seq<Sighting>, t: int)
    requires forall s :: s in seen ==> s.stamp == t && s.busy == t
    ensures var r := SightAllRunning(b, seen);
      && (forall id :: id in r.inProgress && id !in b.inProgress ==> r.inProgress[id] == t)
      && r.lastBusy == if r.inProgress.Keys == b.inProgress.Keys then b.lastBusy else t
  {
    if seen != [] {
      var n := |seen| - 1;
      RunningAtFixedClock(b, seen[..n], t);
      RunningSightings(b, seen[..n]);
      assert seen[n] in seen;
      var p := SightAllRunning(b, seen[..n]);
      var r := SightAllRunning(b, seen);
      if seen[n].id in r.inProgress && seen[n].id !in p.inProgress {
        assert seen[n].id !in b.inProgress.Keys && seen[n].id in r.inProgress.Keys;
      }
    }
  }

  /** What an adoption at time t leaves behind, in terms of sets only. */
  function Stamped(m: map<int, int>, ids: set<int>, t: int): map<int, int> {
    map id | id in ids :: if id in m then m[id] else t
  }

  function AdoptedAt(b: Book, Q: set<int>, R: set<int>, t: int, cutoff: int): (map<int, int>, map<int, int>, int) {
    (Stamped(b.queued, TrackedQueued(b, Q, R, cutoff), t),
     Stamped(b.inProgress, TrackedRunning(b, Q, R, cutoff), t),
     if SomethingNew(b, Q, R) then t else b.lastBusy)
  }

  lemma LastBusyAtFixedClock(b: Book, queued: seq<int>, running: seq<int>, t: int)
    ensures Sight(b, At(queued, t), At(running, t)).lastBusy
            == if SomethingNew(b, Elems(queued), Elems(running)) then t else b.lastBusy
  {
    var q, p := At(queued, t), At(running, t);
    var b1 := SightAllQueued(b, q);
    QueuedSightings(b, q);
    QueuedAtFixedClock(b, q, t);
    RunningSightings(b1, p);
    RunningAtFixedClock(b1, p, t);
    var b2 := Sight(b, q, p);
    if b1.queued.Keys != b.queued.Keys {
      assert exists id :: id in b1.queued.Keys && id !in b.queued.Keys;
    }
    if b2.inProgress.Keys != b.inProgress.Keys {
      assert exists id :: id in b2.inProgress.Keys && id !in b.inProgress.Keys;
    }
  }

  lemma StampsAtFixedClock(b: Book, queued: seq<int>, running: seq<int>, t: int)
    ensures var r := Sight(b, At(queued, t), At(running, t));
      && (forall id :: id in r.queued && id !in b.queued ==> r.queued[id] == t)
      && (forall id :: id in r.inProgress && id !in b.inProgress ==> r.inProgress[id] == t)
  {
    var q, p := At(queued, t), At(running, t);
    QueuedSightings(b, q);
    QueuedAtFixedClock(b, q, t);
    RunningSightings(SightAllQueued(b, q), p);
    RunningAtFixedClock(SightAllQueued(b, q), p, t);
  }

  /** Exact contents of the two maps and of lastBusy after an adoption at time t.
      The right-hand side mentions no order and no repeats: two observations of
      the same jobs, visited with any map order, leave the same state. */
  lemma AdoptIgnoresOrder(b: Book, size: nat, queued: seq<int>, running: seq<int>, t: int,
                          cutoff: int, dropQ: seq<int>, dropR: seq<int>)
    requires size >= 1
    requires AdoptOrders(b, At(queued, t), At(running, t), cutoff, dropQ, dropR)
    ensures var r := Adopt(b, size, At(queued, t), At(running, t), dropQ, dropR);
      (r.queued, r.inProgress, r.lastBusy) == AdoptedAt(b, Elems(queued), Elems(running), t, cutoff)
  {
    AdoptTracks(b, size, At(queued, t), At(running, t), cutoff, dropQ, dropR);
    StampsAtFixedClock(b, queued, running, t);
    LastBusyAtFixedClock(b, queued, running, t);
    var r := Adopt(b, size, At(queued, t), At(running, t), dropQ, dropR);
    var s := AdoptedAt(b, Elems(queued), Elems(running), t, cutoff);
    assert r.queued.Keys == s.0.Keys;
    assert r.inProgress.Keys == s.1.Keys;
    var sighted := Sight(b, At(queued, t), At(running, t));
    forall id | id in r.queued ensures r.queued[id] == s.0[id] {
      assert id in sighted.queued && r.queued[id] == sighted.queued[id];
    }
    forall id | id in r.inProgress ensures r.inProgress[id] == s.1[id] {
      assert id in sighted.inProgress && r.inProgress[id] == sighted.inProgress[id];
    }
    assert r.queued == s.0;
    assert r.inProgress == s.1;
  }

  /** `done` becomes `done` and the disowned jobs, when they fit. */
  lemma AdoptRecordsDisowned(b: Book, size: nat, now: int, queued: seq<Sighting>, running: seq<Sighting>,
                             cutoff: int, dropQ: seq<int>, dropR: seq<int>)
    requires Sound(b, size, now)
    requires Timely(now, queued) && Timely(ClockAfter(now, queued), running)
    requires AdoptOrders(b, queued, running, cutoff, dropQ, dropR)
    requires var seen := Ids(queued) + Ids(running);
      |Elems(b.done.order) + Stale(b.queued, seen, cutoff) + Stale(b.inProgress, seen, cutoff)| <= size
    ensures var seen := Ids(queued) + Ids(running);
      Elems(Adopt(b, size, queued, running, dropQ, dropR).done.order)
      == Elems(b.done.order) + Stale(b.queued, seen, cutoff) + Stale(b.inProgress, seen, cutoff)
  {
    QueuedSightingsKeepSound(b, size, now, queued);
    RunningSightingsKeepSound(SightAllQueued(b, queued), size, ClockAfter(now, queued), running);
    SightingsLeaveStale(b, queued, running, cutoff);
    DropRecordsDone(Sight(b, queued, running), size, ClockAfter(ClockAfter(now, queued), running), dropQ, dropR);
  }
}
