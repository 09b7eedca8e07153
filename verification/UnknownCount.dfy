/** What an unknown count at the start can cost: exactly when every scaling call that
    lowers the pool passes the gates. */
module UnknownCount {
  import opened Seqs
  import opened Scaler
  import opened Machine
  import opened Flow
  import opened ScaleSafety
  import opened Drive

  /** A scaling call that lowers the true count. */
  predicate Lowers(r: Record) {
    r.Called? && r.purpose == ToScale && r.after < r.before
  }

  /** In every honest run from s, every such call has passed every gate. */
  ghost predicate AllGated(c: Config, s: State) {
    forall es, j: nat ::
      && Exec(c, s, es).Some? && Honest(Exec(c, s, es).value.log)
      && j < |Exec(c, s, es).value.log| && Lowers(Exec(c, s, es).value.log[j])
      ==> Gated(c, Exec(c, s, es).value.log, j)
  }

  /** The start cannot go wrong: the count is known, or there is nothing to lower, or
      there is one replica too many at most and no gate but running jobs applies. */
  predicate HarmlessStart(c: Config, s: State) {
    || s.applied != -1
    || s.truth <= c.opts.minReplicas
    || (&& s.clock - c.startedAt >= c.opts.startupGrace && c.opts.idleCooldown == 0
        && c.opts.minReplicas == 0 && s.truth == 1)
  }

  // ------------------------------------------------------------------
  // While the count is unknown
  // ------------------------------------------------------------------

  /** A count once known stays known; while it is not, the pool is as it was. */
  predicate UnknownInv(s: State, applied: int, truth: int) {
    && (applied >= 0 ==> s.applied >= 0)
    && (s.applied == -1 && !s.pc.Scaled? ==> s.truth == truth)
    && forall k :: 0 <= k < |s.log| && s.log[k].Called? ==>
         && (applied >= 0 ==> s.log[k].applied >= 0)
         && (s.log[k].applied == -1 ==> s.log[k].before == truth)
  }

  /** What a step other than a call or a commit does to this. */
  lemma OthersKnow(c: Config, s: State, e: Event)
    requires Enabled(c, s, e) && !e.Call? && !e.Commit? && !e.Drift?
    ensures var t := Next(c, s, e);
      && (t.applied == s.applied || t.applied >= 0) && t.truth == s.truth
      && (s.pc.Scaled? ==> t.pc.Scaled?)
      && forall k :: |s.log| <= k < |t.log| ==> !t.log[k].Called?
  {
  }

  lemma CallKnows(c: Config, s: State, e: Event)
    requires Enabled(c, s, e) && e.Call? && ChosenInv(s) && PcInv(s) && Honest(Next(c, s, e).log)
    ensures var t := Next(c, s, e);
      && t.applied == s.applied && t.log == s.log + [t.log[|s.log|]]
      && t.log[|s.log|].Called? && t.log[|s.log|].applied == s.applied && t.log[|s.log|].before == s.truth
      && !s.pc.Scaled? && (s.applied == -1 ==> t.pc.Scaled? || t.truth == s.truth)
  {
    assert Next(c, s, e).log[|s.log|].Called?;
  }

  lemma StepUnknown(c: Config, s: State, e: Event, applied: int, truth: int)
    requires Enabled(c, s, e) && FlowInv(c, s) && UnknownInv(s, applied, truth) && Honest(Next(c, s, e).log)
    ensures UnknownInv(Next(c, s, e), applied, truth)
  {
    if e.Drift? {
      DriftIsDishonest(c, s, e, 0);
    } else if e.Call? {
      CallKnows(c, s, e);
    } else if e.Commit? {
      SafeAt(c, s.log, s.chosen);
      CommitNotesNoCall(c, s, e);
    } else {
      OthersKnow(c, s, e);
      StepKeepsLog(c, s, e);
    }
  }

  lemma CommitNotesNoCall(c: Config, s: State, e: Event)
    requires Enabled(c, s, e) && e.Commit?
    ensures s.log <= Next(c, s, e).log
    ensures forall k :: |s.log| <= k < |Next(c, s, e).log| ==> !Next(c, s, e).log[k].Called?
  {
  }

  /** Decisions are made no earlier than start, and no earlier than any activity
      before them. */
  predicate Timed(log: seq<Record>, start: int) {
    forall i :: 0 <= i < |log| && log[i].Chose? ==> log[i].time >= start && After(log, i)
  }

  predicate After(log: seq<Record>, i: nat)
    requires i < |log| && log[i].Chose?
  {
    forall k :: 0 <= k < i ==>
      && (log[k].Heard? ==> log[k].time <= log[i].time)
      && (log[k].Looked? && log[k].found.Some? ==> log[k].found.value <= log[i].time)
  }

  lemma TimedAppend(log: seq<Record>, r: Record, start: int, busy: int)
    requires Timed(log, start) && QuietSince(log, busy)
    requires r.Chose? ==> r.time >= start && r.time >= busy
    ensures Timed(log + [r], start)
  {
    var more := log + [r];
    forall i | 0 <= i < |more| && more[i].Chose? ensures more[i].time >= start && After(more, i) {
      if i < |log| {
        assert After(log, i);
      }
    }
  }

  lemma ChoiceTime(c: Config, s: State, e: Event)
    requires Enabled(c, s, e) && Next(c, s, e).log != s.log
    ensures Next(c, s, e).log[|s.log|].Chose? ==> Next(c, s, e).log[|s.log|].time >= s.clock
  {
  }

  lemma StepTimed(c: Config, s: State, e: Event, start: int)
    requires Enabled(c, s, e) && FlowInv(c, s) && Timed(s.log, start) && start <= s.clock
    ensures Timed(Next(c, s, e).log, start) && start <= Next(c, s, e).clock
  {
    var t := Next(c, s, e);
    StepBook(c, s, e);
    if t.log != s.log {
      StepKeepsLog(c, s, e);
      ChoiceTime(c, s, e);
      assert t.log == s.log + [t.log[|s.log|]];
      TimedAppend(s.log, t.log[|s.log|], start, s.book.lastBusy);
    }
  }

  lemma {:induction false} RunUnknown(c: Config, s: State, es: seq<Event>, t: State, applied: int, truth: int, start: int)
    requires Exec(c, s, es) == Some(t) && Honest(t.log) && FlowInv(c, s)
    requires UnknownInv(s, applied, truth) && Timed(s.log, start) && start <= s.clock
    ensures FlowInv(c, t) && UnknownInv(t, applied, truth) && Timed(t.log, start) && start <= t.clock
  {
    if es != [] {
      var m, e := ExecLast(c, s, es, t);
      FairBefore(c, m, e, 0);
      RunUnknown(c, s, es[..|es| - 1], m, applied, truth, start);
      StepFlow(c, m, e);
      StepUnknown(c, m, e, applied, truth);
      StepTimed(c, m, e, start);
    }
  }

  // ------------------------------------------------------------------
  // When nothing goes wrong
  // ------------------------------------------------------------------

  /** A call that takes an unneeded last replica away passes what gates there are. */
  lemma LastReplicaIsGated(c: Config, log: seq<Record>, j: nat, start: int)
    requires c.opts.Valid() && SafeLog(c, log) && Timed(log, start) && Honest(log)
    requires j < |log| && Lowers(log[j]) && log[j].before == 1
    requires start - c.startedAt >= c.opts.startupGrace && c.opts.idleCooldown == 0 && c.opts.minReplicas == 0
    ensures Gated(c, log, j)
  {
    SafeAt(c, log, j);
    var i := log[j].decidedAt;
    assert log[..j][i] == log[i];
    SafeAt(c, log, i);
    assert Fair(log[j], false);
    assert |log[i].queued| + |log[i].inProgress| <= 0;
    assert log[i].inProgress == map[];
    assert After(log, i);
    forall k | i < k < j ensures !log[k].Chose? {
      assert log[..j][k] == log[k];
    }
  }

  /** Every lowering call of an honest run from a harmless start is gated. */
  lemma HarmlessStartIsGated(c: Config, s: State, es: seq<Event>, t: State, j: nat)
    requires Init(c, s) && Known(s) && HarmlessStart(c, s)
    requires Exec(c, s, es) == Some(t) && Honest(t.log) && j < |t.log| && Lowers(t.log[j])
    ensures Gated(c, t.log, j)
  {
    LoweringIsGatedUnlessUnknown(c, s, es, t, j);
    InitFlow(c, s);
    RunUnknown(c, s, es, t, s.applied, s.truth, s.clock);
    if t.log[j].applied == -1 {
      assert t.log[j].before == s.truth;
      assert Fair(t.log[j], false);
      assert Reachable(c, t);
      ArgumentsInRange(c, t, j);
      LastReplicaIsGated(c, t.log, j, s.clock);
    }
  }

  // ------------------------------------------------------------------
  // When it does
  // ------------------------------------------------------------------

  /** The entry at n is a decision made at time now with these jobs running, and the
      next one the succeeding, honest call that carries it out. */
  predicate DecidesAndCalls(log: seq<Record>, n: nat, now: int, running: map<int, int>, before: int, after: int) {
    && |log| == n + 2
    && log[n].Chose? && log[n].time == now && log[n].inProgress == running
    && log[n + 1].Called? && log[n + 1].purpose == ToScale && log[n + 1].ok && log[n + 1].decidedAt == n
    && log[n + 1].time == now && log[n + 1].before == before && log[n + 1].after == after
  }

  /** A first iteration without answers and with one succeeding, honest call. */
  lemma FirstCall(c: Config, s: State, es: seq<Event>, m: State, n: nat, want: int) returns (fs: seq<Event>, t: State)
    requires Exec(c, s, es) == Some(m) && c.opts.Valid() && m.pc.Recounting? && m.applied == -1
    requires NothingDue(c, m) && Honest(m.log) && n == |m.log| && want == Want(c.opts, m.book.queued, m.book.inProgress)
    ensures Exec(c, s, fs) == Some(t) && Honest(t.log) && m.log <= t.log
    ensures DecidesAndCalls(t.log, n, m.clock, m.book.inProgress, m.truth, want)
  {
    HeldExactly(c.opts, m.book, -1, c.startedAt, m.clock);
    fs, t := DecideBlind(c, s, es, m);
    fs, t := Do(c, s, fs, t, Call(true, t.pc.d.desired));
  }

  /** A closed gate at the decision a call carries out. */
  lemma NotGated(c: Config, log: seq<Record>, j: nat, i: nat)
    requires j < |log| && log[j].Called? && log[j].decidedAt == i < j && log[i].Chose?
    requires || log[i].inProgress != map[]
             || log[i].time - c.startedAt < c.opts.startupGrace
             || (i > 0 && log[0].Heard? && log[i].time - log[0].time < c.opts.idleCooldown)
    ensures !Gated(c, log, j)
  {
  }

  lemma WantOfFew(o: Options, b: Book, id: int, stamp: int)
    requires o.Valid() && b.queued == map[]
    ensures b.inProgress == map[] ==> Want(o, b.queued, b.inProgress) == o.minReplicas
    ensures b.inProgress == map[id := stamp] ==> Want(o, b.queued, b.inProgress) == Max(1, o.minReplicas)
  {
    assert |map[id := stamp]| == |map[id := stamp].Keys| == |{id}|;
  }

  /** The very first iteration, straight away. */
  lemma CallAtOnce(c: Config, s: State) returns (es: seq<Event>, t: State)
    requires Init(c, s) && s.applied == -1
    ensures Exec(c, s, es) == Some(t) && Honest(t.log)
    ensures DecidesAndCalls(t.log, 0, s.clock, map[], s.truth, c.opts.minReplicas)
  {
    WantOfFew(c.opts, s.book, 0, 0);
    es, t := FirstCall(c, s, [], s, 0, c.opts.minReplicas);
  }

  /** From every initial state with an unknown count and more than MinReplicas
      replicas, the first iteration can lower them to MinReplicas at once, by a call
      that is not gated while StartupGrace lasts. */
  lemma UnknownCountShrinksUngated(c: Config, s: State) returns (es: seq<Event>, t: State, j: nat)
    requires Init(c, s) && s.applied == -1 && s.truth > c.opts.minReplicas
    ensures Exec(c, s, es) == Some(t) && Honest(t.log) && j < |t.log| && Lowers(t.log[j]) && t.log[j].ok
    ensures t.log[j].before == s.truth && t.log[j].after == c.opts.minReplicas && t.log[j].time == s.clock
    ensures s.clock - c.startedAt < c.opts.startupGrace ==> !Gated(c, t.log, j)
  {
    es, t := CallAtOnce(c, s);
    j := 1;
    if s.clock - c.startedAt < c.opts.startupGrace {
      NotGated(c, t.log, 1, 0);
    }
  }

  lemma CompletionFirst(c: Config, s: State) returns (es: seq<Event>, m: State)
    requires Init(c, s)
    ensures Exec(c, s, es) == Some(m) && m.pc.Recounting? && m.clock == s.clock
    ensures m.applied == s.applied && m.truth == s.truth
    ensures m.book.queued == map[] && m.book.inProgress == map[]
    ensures |m.log| == 1 && m.log[0].Heard? && m.log[0].time == s.clock
  {
    es, m := Do(c, s, [], s, Finished(0, s.clock));
  }

  /** With IdleCooldown: a completion comes first, and the pool is lowered at the same
      instant. */
  lemma ShrinksAfterNews(c: Config, s: State) returns (es: seq<Event>, t: State, j: nat)
    requires Init(c, s) && s.applied == -1 && s.truth > c.opts.minReplicas && c.opts.idleCooldown > 0
    ensures Exec(c, s, es) == Some(t) && Honest(t.log) && j < |t.log| && Lowers(t.log[j])
    ensures !Gated(c, t.log, j)
  {
    var m;
    es, m := CompletionFirst(c, s);
    WantOfFew(c.opts, m.book, 0, 0);
    es, t := FirstCall(c, s, es, m, 1, c.opts.minReplicas);
    j := 2;
    assert t.log[0] == m.log[0];
    NotGated(c, t.log, 2, 1);
  }

  lemma JobFirst(c: Config, s: State) returns (es: seq<Event>, m: State)
    requires Init(c, s)
    ensures Exec(c, s, es) == Some(m) && m.pc.Recounting? && m.clock == s.clock
    ensures m.applied == s.applied && m.truth == s.truth
    ensures m.book.queued == map[] && m.book.inProgress == map[0 := s.clock]
    ensures |m.log| == 1 && m.log[0].Heard?
  {
    es, m := Do(c, s, [], s, Begun(0, s.clock, s.clock));
  }

  /** With more than one replica too many: a job begins first, and the pool is lowered
      while it runs. */
  lemma ShrinksUnderJob(c: Config, s: State) returns (es: seq<Event>, t: State, j: nat)
    requires Init(c, s) && s.applied == -1 && s.truth > Max(1, c.opts.minReplicas)
    ensures Exec(c, s, es) == Some(t) && Honest(t.log) && j < |t.log| && Lowers(t.log[j])
    ensures !Gated(c, t.log, j)
  {
    var m;
    es, m := JobFirst(c, s);
    WantOfFew(c.opts, m.book, 0, s.clock);
    es, t := FirstCall(c, s, es, m, 1, Max(1, c.opts.minReplicas));
    j := 2;
    assert 0 in t.log[1].inProgress;
    NotGated(c, t.log, 2, 1);
  }

  /** From any start with an unknown or correct count, over an honest backend: every
      scaling call that ever lowers the pool has passed every gate exactly when the
      start is harmless. */
  lemma GatedExactlyWhenStartIsHarmless(c: Config, s: State)
    requires Init(c, s) && Known(s)
    ensures AllGated(c, s) <==> HarmlessStart(c, s)
  {
    if HarmlessStart(c, s) {
      forall es, j: nat | Exec(c, s, es).Some? && Honest(Exec(c, s, es).value.log)
                          && j < |Exec(c, s, es).value.log| && Lowers(Exec(c, s, es).value.log[j])
        ensures Gated(c, Exec(c, s, es).value.log, j)
      {
        HarmlessStartIsGated(c, s, es, Exec(c, s, es).value, j);
      }
    } else {
      var es, t, j;
      if s.clock - c.startedAt < c.opts.startupGrace {
        es, t, j := UnknownCountShrinksUngated(c, s);
      } else if c.opts.idleCooldown > 0 {
        es, t, j := ShrinksAfterNews(c, s);
      } else {
        es, t, j := ShrinksUnderJob(c, s);
      }
      assert Lowers(Exec(c, s, es).value.log[j]);
    }
  }

  const LATE_START := Config(Options(0, 5, 10, 20, 0, 0, 1), false, false, 0)

  /** Three replicas fall to none inside a StartupGrace of 20. */
  lemma ThreeFallToNone(s: State) returns (es: seq<Event>, t: State, j: nat)
    requires Init(LATE_START, s) && s.applied == -1 && s.truth == 3 && s.clock == 0
    ensures Exec(LATE_START, s, es) == Some(t) && Honest(t.log) && j < |t.log| && t.log[j].Called?
    ensures t.log[j].before == 3 && t.log[j].after == 0 && t.log[j].time - LATE_START.startedAt < 20
  {
    es, t, j := UnknownCountShrinksUngated(LATE_START, s);
  }
}
