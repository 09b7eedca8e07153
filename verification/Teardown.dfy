/** Which jobs a recycle can take down with it. */
module Teardown {
  import opened Seqs
  import opened Bounded
  import opened Scaler
  import opened Machine
  import opened Flow
  import opened Repair
  import opened Drive
  import opened FailedRestore

  // ------------------------------------------------------------------
  // Old jobs and new ones
  // ------------------------------------------------------------------

  /** The time of the last successful observation. */
  function LastLook(log: seq<Record>): Option<int> {
    if log == [] then None
    else if log[|log| - 1].Looked? then Some(log[|log| - 1].time)
    else LastLook(log[..|log| - 1])
  }

  /** The jobs that have begun, and not finished, since the last successful
      observation. */
  function BegunSinceLook(log: seq<Record>): set<int> {
    if log == [] then {}
    else
      var before := BegunSinceLook(log[..|log| - 1]);
      match log[|log| - 1]
      case Looked(_, _, _, _) => {}
      case Heard(what, id, _, _) =>
        if what.JobBegun? then before + {id} else if what.JobFinished? then before - {id} else before
      case _ => before
  }

  lemma LooksAppend(log: seq<Record>, r: Record)
    ensures LastLook(log + [r]) == if r.Looked? then Some(r.time) else LastLook(log)
    ensures BegunSinceLook(log + [r]) ==
      if r.Looked? then {}
      else if r.Heard? && r.what.JobBegun? then BegunSinceLook(log) + {r.id}
      else if r.Heard? && r.what.JobFinished? then BegunSinceLook(log) - {r.id}
      else BegunSinceLook(log)
  {
    assert (log + [r])[..|log + [r]| - 1] == log;
  }

  /** The job was known, and recorded no later, at the last successful observation. */
  predicate KnownAtLook(log: seq<Record>, stamp: int) {
    LastLook(log).Some? && stamp <= LastLook(log).value
  }

  /** Every running job was known at the last observation or has begun since; and
      every job that has begun since runs, unless it may have expired. */
  ghost predicate BegunInv(c: Config, b: Book, log: seq<Record>) {
    && (forall id :: id in b.inProgress ==> KnownAtLook(log, b.inProgress[id]) || id in BegunSinceLook(log))
    && (c.opts.jobTTL == 0 ==> forall id :: id in BegunSinceLook(log) ==> id in b.inProgress)
  }

  lemma HeardBegun(c: Config, s: State, e: Event)
    requires Enabled(c, s, e) && BegunInv(c, s.book, s.log)
    requires e.Queued? || e.Begun? || e.Finished?
    ensures BegunInv(c, Next(c, s, e).book, Next(c, s, e).log)
  {
    var t := Next(c, s, e);
    if t.log != s.log {
      LooksAppend(s.log, t.log[|s.log|]);
    }
  }

  lemma LookedBegun(c: Config, s: State, o: Observation)
    requires c.opts.Valid() && CanObserve(c, s, o) && BookInv(c, s)
    ensures BegunInv(c, Absorb(c, s, o).book, Absorb(c, s, o).log)
  {
    ObservedBook(c, s, o);
    LooksAppend(s.log, Absorb(c, s, o).log[|s.log|]);
  }

  lemma SweptBegun(c: Config, s: State)
    requires Enabled(c, s, Sweep) && c.opts.jobTTL > 0 && BegunInv(c, s.book, s.log)
    ensures BegunInv(c, Next(c, s, Sweep).book, Next(c, s, Sweep).log)
  {
  }

  /** Any other step leaves the maps alone and notes nothing of this. */
  lemma OtherBegun(c: Config, s: State, e: Event)
    requires Enabled(c, s, e) && BegunInv(c, s.book, s.log) && !TouchesBook(e)
    ensures BegunInv(c, Next(c, s, e).book, Next(c, s, e).log)
  {
    var t := Next(c, s, e);
    OthersLeaveBook(c, s, e);
    if t.log != s.log {
      StepKeepsLog(c, s, e);
      OthersHearNothing(c, s, e);
      assert t.log == s.log + [t.log[|s.log|]];
      LooksAppend(s.log, t.log[|s.log|]);
    }
  }

  lemma OthersHearNothing(c: Config, s: State, e: Event)
    requires Enabled(c, s, e) && !TouchesBook(e)
    ensures forall k :: |s.log| <= k < |Next(c, s, e).log| ==>
              !Next(c, s, e).log[k].Heard? && !Next(c, s, e).log[k].Looked?
  {
  }

  /** Without a JobTTL nothing is swept. */
  predicate SweepsOnlyWithTTL(c: Config, s: State) {
    s.pc.Sweeping? ==> c.opts.jobTTL > 0
  }

  lemma StepSweeps(c: Config, s: State, e: Event)
    requires Enabled(c, s, e) && SweepsOnlyWithTTL(c, s)
    ensures SweepsOnlyWithTTL(c, Next(c, s, e))
  {
  }

  lemma StepBegun(c: Config, s: State, e: Event)
    requires Enabled(c, s, e) && BookInv(c, s) && SweepsOnlyWithTTL(c, s) && BegunInv(c, s.book, s.log)
    ensures BegunInv(c, Next(c, s, e).book, Next(c, s, e).log)
  {
    if !TouchesBook(e) {
      OtherBegun(c, s, e);
    } else if e.Observe? {
      LookedBegun(c, s, e.seen.value);
    } else if e.Sweep? {
      SweptBegun(c, s);
    } else {
      HeardBegun(c, s, e);
    }
  }

  /** What holds of every call: its record shows the jobs running then. */
  ghost predicate TeardownFinds(c: Config, before: seq<Record>, r: Record)
    requires r.Called?
  {
    && (forall id :: id in r.inProgress ==> KnownAtLook(before, r.inProgress[id]) || id in BegunSinceLook(before))
    && (c.opts.jobTTL == 0 ==> forall id :: id in BegunSinceLook(before) ==> id in r.inProgress)
    && (r.purpose == ToTearDown ==> LastLookSick(before))
  }

  ghost predicate FindsLog(c: Config, log: seq<Record>) {
    log == [] ||
    (var n := |log| - 1;
     FindsLog(c, log[..n]) && (log[n].Called? ==> TeardownFinds(c, log[..n], log[n])))
  }

  lemma FindsAppend(c: Config, log: seq<Record>, r: Record)
    requires FindsLog(c, log) && (r.Called? ==> TeardownFinds(c, log, r))
    ensures FindsLog(c, log + [r])
  {
    assert (log + [r])[..|log + [r]| - 1] == log;
  }

  lemma {:induction false} FindsAt(c: Config, log: seq<Record>, j: nat)
    requires FindsLog(c, log) && j < |log| && log[j].Called?
    ensures TeardownFinds(c, log[..j], log[j])
  {
    if j < |log| - 1 {
      FindsAt(c, log[..|log| - 1], j);
      assert log[..|log| - 1][..j] == log[..j];
    }
  }

  /** A call notes the jobs running at that moment. */
  lemma CallNotesJobs(c: Config, s: State, e: Event)
    requires Enabled(c, s, e) && Next(c, s, e).log != s.log
    ensures var r := Next(c, s, e).log[|s.log|];
      r.Called? ==> r.inProgress == s.book.inProgress && (r.purpose == ToTearDown ==> s.pc.TearingDown?)
  {
  }

  lemma StepFinds(c: Config, s: State, e: Event)
    requires Enabled(c, s, e) && BegunInv(c, s.book, s.log) && RecordInv(s) && FindsLog(c, s.log)
    ensures FindsLog(c, Next(c, s, e).log)
  {
    var t := Next(c, s, e);
    if t.log != s.log {
      StepKeepsLog(c, s, e);
      CallNotesJobs(c, s, e);
      assert t.log == s.log + [t.log[|s.log|]];
      FindsAppend(c, s.log, t.log[|s.log|]);
    }
  }

  ghost predicate TeardownInv(c: Config, s: State) {
    && BookInv(c, s) && SweepsOnlyWithTTL(c, s) && RecordInv(s)
    && BegunInv(c, s.book, s.log) && FindsLog(c, s.log)
  }

  lemma {:induction false} RunTeardown(c: Config, s: State, es: seq<Event>, t: State)
    requires Exec(c, s, es) == Some(t) && TeardownInv(c, s)
    ensures TeardownInv(c, t)
  {
    if es != [] {
      var m, e := ExecLast(c, s, es, t);
      RunTeardown(c, s, es[..|es| - 1], m);
      StepBook(c, m, e);
      StepSweeps(c, m, e);
      StepRecord(c, m, e);
      StepBegun(c, m, e);
      StepFinds(c, m, e);
    }
  }

  /** At every teardown call the last successful observation found no live runner,
      and every job on record as running either was on record then, when nothing
      could be executing it, or has begun since. Without expiry the jobs begun and
      not finished since then are all among them: the teardown finds a job that may
      really be running exactly when one has begun since the last observation. */
  lemma TeardownFindsNewJobs(c: Config, t: State, j: nat)
    requires Reachable(c, t) && j < |t.log| && t.log[j].Called? && t.log[j].purpose == ToTearDown
    ensures LastLookSick(t.log[..j])
    ensures forall id :: id in t.log[j].inProgress ==>
              KnownAtLook(t.log[..j], t.log[j].inProgress[id]) || id in BegunSinceLook(t.log[..j])
    ensures c.opts.jobTTL == 0 ==>
              forall id :: id in BegunSinceLook(t.log[..j]) ==> id in t.log[j].inProgress
  {
    var s :| Init(c, s) && Leads(c, s, t);
    var es :| Exec(c, s, es) == Some(t);
    InitBook(c, s);
    RunTeardown(c, s, es, t);
    FindsAt(c, t.log, j);
  }

  // ------------------------------------------------------------------
  // A recycle does not look at jobs
  // ------------------------------------------------------------------

  /** In every reachable state with a teardown pending, any job that is not
      remembered as finished can begin, and the teardown goes ahead. */
  lemma TeardownCanHitAnyJob(c: Config, s: State, id: int) returns (es: seq<Event>, t: State)
    requires Reachable(c, s) && s.pc.TearingDown? && id !in s.book.done.order
    ensures Exec(c, s, es) == Some(t) && |t.log| > |s.log| + 1
    ensures t.log[|s.log| + 1].Called? && t.log[|s.log| + 1].purpose == ToTearDown && t.log[|s.log| + 1].ok
    ensures id in t.log[|s.log| + 1].inProgress
  {
    es, t := Do(c, s, [], s, Begun(id, s.clock, s.clock));
    es, t := Do(c, s, es, t, Call(true, 0));
  }

  /** Nor does it take a race: one replica is seen without a live runner at time 0 and
      again at time 10, a job begins right after, the decision sees the job running,
      finds the count right, and the pool is torn down under it. */
  lemma RecycleIgnoresRunningJob(s: State) returns (t: State, i: nat, j: nat)
    requires Init(ALWAYS_ONE, s) && s.applied == 1 && s.book == Book(map[], map[], Empty(), 0)
    ensures Reachable(ALWAYS_ONE, t) && i < j < |t.log|
    ensures t.log[i].Chose? && t.log[i].inProgress == map[7 := 10] && t.log[i].time == 10
    ensures t.log[j].Called? && t.log[j].purpose == ToTearDown && t.log[j].ok && t.log[j].decidedAt == i
    ensures t.log[j].inProgress == map[7 := 10]
  {
    var es;
    es, t := JobBegins(s);
    i := |t.log|;
    es, t := DecideAt(ALWAYS_ONE, s, es, t, 10);
    es, t := Do(ALWAYS_ONE, s, es, t, Check(10, 10));
    j := |t.log|;
    es, t := Do(ALWAYS_ONE, s, es, t, Call(true, 0));
    assert Leads(ALWAYS_ONE, s, t);
  }

  lemma JobBegins(s: State) returns (es: seq<Event>, t: State)
    requires Init(ALWAYS_ONE, s) && s.applied == 1 && s.book == Book(map[], map[], Empty(), 0)
    ensures Exec(ALWAYS_ONE, s, es) == Some(t) && t.pc.ReadingCutoff? && t.clock == 10 && t.applied == 1
    ensures t.live == 0 && t.missing == Some(0)
    ensures t.book.queued == map[] && t.book.inProgress == map[7 := 10]
  {
    es, t := SecondLook(s);
    es, t := Do(ALWAYS_ONE, s, es, t, Begun(7, 10, 10));
  }
}
