/** Building particular runs of the machine. */
module Drive {
  import opened Seqs
  import opened Scaler
  import opened Machine

  /** One more step at the end of a run. */
  lemma Do(c: Config, s: State, es: seq<Event>, m: State, e: Event) returns (fs: seq<Event>, t: State)
    requires Exec(c, s, es) == Some(m) && Enabled(c, m, e)
    ensures Exec(c, s, fs) == Some(t) && t == Next(c, m, e)
  {
    ExecSnoc(c, s, es, m, e);
    fs, t := es + [e], Next(c, m, e);
  }

  /** The history has grown by fair entries only. */
  predicate Grows(log: seq<Record>, more: seq<Record>, drifts: bool) {
    log <= more && FairFrom(more, |log|, drifts)
  }

  lemma GrowsOn(a: seq<Record>, b: seq<Record>, c: seq<Record>, drifts: bool)
    requires Grows(a, b, drifts) && Grows(b, c, drifts)
    ensures Grows(a, c, drifts)
  {
    forall i | |a| <= i < |c| ensures Fair(c[i], drifts) {
      if i < |b| {
        assert c[i] == b[i];
      }
    }
  }

  /** Without drifts is fairer than with them. */
  lemma GrowsFairly(a: seq<Record>, b: seq<Record>, drifts: bool)
    requires Grows(a, b, false)
    ensures Grows(a, b, drifts)
  {
  }

  // ------------------------------------------------------------------
  // Iterations
  // ------------------------------------------------------------------

  /** No tracked job is old enough to expire now. */
  predicate NothingDue(c: Config, s: State) {
    c.opts.jobTTL > 0 ==>
      && (forall id :: id in s.book.queued ==> s.book.queued[id] >= s.clock - c.opts.jobTTL)
      && (forall id :: id in s.book.inProgress ==> s.book.inProgress[id] >= s.clock - c.opts.jobTTL)
  }

  lemma NothingExpires(b: Book, cutoff: int)
    requires forall id :: id in b.queued ==> b.queued[id] >= cutoff
    requires forall id :: id in b.inProgress ==> b.inProgress[id] >= cutoff
    ensures Expire(b, cutoff) == b
  {
    forall id ensures id in Fresher(b.queued, cutoff) <==> id in b.queued {
    }
    forall id ensures id in Fresher(b.inProgress, cutoff) <==> id in b.inProgress {
    }
    assert Fresher(b.queued, cutoff) == b.queued;
    assert Fresher(b.inProgress, cutoff) == b.inProgress;
  }

  /** The state once a decision made at time now is about to be acted on. */
  function Decided(c: Config, s: State, now: int): State {
    var d := Decide(c.opts, s.book, s.applied, c.startedAt, now);
    s.(clock := now, chosen := |s.log|,
       log := s.log + [Chose(now, s.book.queued, s.book.inProgress, s.applied, d)],
       pc := if !d.hold.Free? then Waiting else if d.desired == s.applied then Checking(d) else Scaling(d))
  }

  /** From the cutoff to acting on a decision made at time now, with no job expiring. */
  lemma DecideAt(c: Config, s: State, es: seq<Event>, m: State, now: int) returns (fs: seq<Event>, t: State)
    requires Exec(c, s, es) == Some(m) && m.pc.ReadingCutoff? && c.opts.Valid() && NothingDue(c, m) && m.clock <= now
    ensures Exec(c, s, fs) == Some(t) && t == Decided(c, m, now)
  {
    fs, t := Do(c, s, es, m, ReadCutoff(m.clock));
    if t.pc.Sweeping? {
      NothingExpires(t.book, t.pc.cutoff);
      fs, t := Do(c, s, fs, t, Sweep);
    }
    fs, t := Do(c, s, fs, t, Choose(now));
    fs, t := Do(c, s, fs, t, Reread);
  }

  /** A tick and the steps up to acting on a decision, with GitHub and the backend
      giving no answer and no time passing. */
  lemma DecideBlind(c: Config, s: State, es: seq<Event>, m: State) returns (fs: seq<Event>, t: State)
    requires Exec(c, s, es) == Some(m) && (m.pc.Waiting? || m.pc.Recounting?) && c.opts.Valid() && NothingDue(c, m)
    ensures Exec(c, s, fs) == Some(t) && t == Decided(c, m, m.clock)
  {
    fs, t := es, m;
    if m.pc.Waiting? {
      fs, t := Do(c, s, fs, t, Event.Tick);
    }
    fs, t := Do(c, s, fs, t, Recount(None));
    fs, t := Do(c, s, fs, t, Observe(None));
    fs, t := DecideAt(c, s, fs, t, m.clock);
  }

  /** A decision that needs no recycle can end in waiting with the jobs untouched. */
  lemma EndIteration(c: Config, s: State, es: seq<Event>, m: State) returns (fs: seq<Event>, t: State)
    requires Exec(c, s, es) == Some(m) && c.opts.Valid() && m.live != 0
    requires m.pc.Waiting? || m.pc.Checking? || m.pc.Scaling?
    ensures Exec(c, s, fs) == Some(t) && t.pc.Waiting?
    ensures t.book == m.book && t.clock == m.clock && m.log <= t.log
  {
    fs, t := es, m;
    if m.pc.Checking? {
      fs, t := Do(c, s, es, m, Check(m.clock, m.clock));
    } else if m.pc.Scaling? {
      fs, t := Do(c, s, es, m, Call(false, m.truth));
    }
  }

  // ------------------------------------------------------------------
  // Demand
  // ------------------------------------------------------------------

  /** t differs from s by what handlers do at one instant. */
  predicate Beside(s: State, t: State) {
    && t.pc == s.pc && t.applied == s.applied && t.live == s.live && t.missing == s.missing && t.clock == s.clock
    && Grows(s.log, t.log, false)
  }

  lemma BesideOn(a: State, b: State, c: State)
    requires Beside(a, b) && Beside(b, c)
    ensures Beside(a, c)
  {
    GrowsOn(a.log, b.log, c.log, false);
  }

  lemma FreshId(ids: set<int>) returns (id: int)
    ensures forall other :: other in ids ==> other < id
    decreases ids
  {
    if ids == {} {
      id := 0;
    } else {
      var one := SomeElement(ids);
      var above := FreshId(ids - {one});
      id := if one < above then above else one + 1;
      forall other | other in ids ensures other < id {
        assert other == one || other in ids - {one};
      }
    }
  }

  lemma FewerEntries(m: map<int, int>, id: int)
    ensures |m - {id}| <= |m|
    ensures id in m ==> |m - {id}| < |m|
  {
    var k := m.Keys;
    assert (m - {id}).Keys == k - {id};
    assert |m - {id}| == |k - {id}| && |m| == |k|;
    if id in m {
      assert k == (k - {id}) + {id};
    } else {
      assert k == k - {id};
    }
  }

  /** A job completes at this instant. */
  lemma FinishNow(c: Config, s: State, es: seq<Event>, m: State, id: int) returns (fs: seq<Event>, t: State)
    requires Exec(c, s, es) == Some(m) && c.opts.Valid()
    ensures Exec(c, s, fs) == Some(t) && Beside(m, t)
    ensures t.book.queued == m.book.queued - {id} && t.book.inProgress == m.book.inProgress - {id}
    ensures t.book.lastBusy == m.clock
  {
    fs, t := Do(c, s, es, m, Finished(id, m.clock));
  }

  /** Every tracked job can complete at once. */
  lemma ClearJobs(c: Config, s: State, es: seq<Event>, m: State) returns (fs: seq<Event>, t: State)
    requires Exec(c, s, es) == Some(m) && c.opts.Valid()
    ensures Exec(c, s, fs) == Some(t) && Beside(m, t)
    ensures t.book.queued == map[] && t.book.inProgress == map[]
    ensures t.book.lastBusy == m.book.lastBusy || t.book.lastBusy == m.clock
    decreases |m.book.queued| + |m.book.inProgress|
  {
    var q, p := m.book.queued, m.book.inProgress;
    var keys := q.Keys + p.Keys;
    if keys == {} {
      assert q.Keys == {} && p.Keys == {};
      assert q == map[] && p == map[];
      fs, t := es, m;
    } else {
      var id := SomeElement(keys);
      FewerEntries(q, id);
      FewerEntries(p, id);
      var n;
      fs, n := FinishNow(c, s, es, m, id);
      fs, t := ClearJobs(c, s, fs, n);
      BesideOn(m, n, t);
    }
  }

  /** The tracked jobs all queued at this instant. */
  predicate JustQueued(s: State) {
    s.book.inProgress == map[] && forall id :: id in s.book.queued ==> s.book.queued[id] == s.clock
  }

  /** And any number of jobs can be queued at once. */
  lemma QueueJobs(c: Config, s: State, es: seq<Event>, m: State, k: nat) returns (fs: seq<Event>, t: State)
    requires Exec(c, s, es) == Some(m) && c.opts.Valid() && JustQueued(m) && |m.book.queued| <= k
    ensures Exec(c, s, fs) == Some(t) && Beside(m, t)
    ensures JustQueued(t) && |t.book.queued| == k
    decreases k - |m.book.queued|
  {
    if |m.book.queued| == k {
      fs, t := es, m;
    } else {
      var id := FreshId(m.book.queued.Keys + Elems(m.book.done.order));
      assert id !in m.book.queued.Keys && id !in Elems(m.book.done.order);
      fs, t := Do(c, s, es, m, Event.Queued(id, m.clock, m.clock));
      OneMore(m.book.queued, id, m.clock);
      var n := t;
      fs, t := QueueJobs(c, s, fs, n, k);
      BesideOn(m, n, t);
    }
  }

  lemma OneMore(m: map<int, int>, id: int, stamp: int)
    requires id !in m
    ensures |m[id := stamp]| == |m| + 1
  {
    assert m[id := stamp].Keys == m.Keys + {id};
    assert |m[id := stamp]| == |m[id := stamp].Keys| && |m| == |m.Keys|;
  }

  /** So the demand can become any count in range, with nothing due to expire. */
  lemma SetDemand(c: Config, s: State, es: seq<Event>, m: State, k: nat) returns (fs: seq<Event>, t: State)
    requires Exec(c, s, es) == Some(m) && c.opts.Valid() && c.opts.minReplicas <= k <= c.opts.maxRunners
    ensures Exec(c, s, fs) == Some(t) && Beside(m, t)
    ensures Want(c.opts, t.book.queued, t.book.inProgress) == k && NothingDue(c, t) && JustQueued(t)
  {
    fs, t := ClearJobs(c, s, es, m);
    var n := t;
    fs, t := QueueJobs(c, s, fs, n, k);
    BesideOn(m, n, t);
  }

  /** Any set can be visited in some order. */
  lemma ListingOf(keys: set<int>) returns (ids: seq<int>)
    ensures IsListing(ids, keys)
    decreases keys
  {
    if keys == {} {
      ids := [];
      assert Elems(ids) == {};
    } else {
      var one := SomeElement(keys);
      var rest := ListingOf(keys - {one});
      ids := rest + [one];
      ElemsAppend(rest, one);
      assert forall i :: 0 <= i < |rest| ==> rest[i] in Elems(rest);
      assert keys - {one} + {one} == keys;
    }
  }
}
