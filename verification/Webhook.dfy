/** Serving webhook deliveries: drop repeats, filter by label, hand on to the
    tracker. */
module Webhook {
  import opened Seqs
  import opened Bounded
  import opened Scaler

  datatype EventKind = WorkflowJob | Ping | OtherKind

  /** The parsed part of a delivery. `action` is GitHub's word for what happened. */
  datatype Job = Job(action: string, id: int, labels: seq<string>)

  /** A request, with what reading, checking and parsing it came to. `stamp` and
      `busy` are what the clock will say should the tracker record it. */
  datatype Request = Request(readable: bool, signed: bool, kind: EventKind, delivery: string,
                             job: Option<Job>, stamp: int, busy: int)

  datatype Action = Queued | InProgress | Completed

  datatype Call = Call(action: Action, id: int, stamp: int, busy: int)

  type Normalise = string -> string

  // ------------------------------------------------------------------
  // Labels
  // ------------------------------------------------------------------

  predicate Matches(norm: Normalise, labels: seq<string>, required: seq<string>) {
    required != [] && forall want :: want in required ==> exists l :: l in labels && norm(l) == want
  }

  method MatchesLabels(norm: Normalise, labels: seq<string>, required: seq<string>) returns (ok: bool)
    ensures ok <==> required != [] && forall want :: want in required ==> exists l :: l in labels && norm(l) == want
  {
    if |required| == 0 {
      return false;
    }
    var have: set<string> := {};
    for i := 0 to |labels|
      invariant forall x :: x in have <==> exists l :: l in labels[..i] && norm(l) == x
    {
      assert labels[..i + 1] == labels[..i] + [labels[i]];
      have := have + {norm(labels[i])};
    }
    assert labels[..|labels|] == labels;
    for i := 0 to |required|
      invariant forall want :: want in required[..i] ==> want in have
    {
      assert required[..i + 1] == required[..i] + [required[i]];
      if required[i] !in have {
        assert required[i] in required;
        return false;
      }
    }
    assert required[..|required|] == required;
    return true;
  }

  // ------------------------------------------------------------------
  // What a request comes to
  // ------------------------------------------------------------------

  /** The request reaches the de-duplication step. */
  predicate Relevant(r: Request) {
    r.readable && r.signed && r.kind.WorkflowJob?
  }

  predicate Repeats(l: Ledger<string>, r: Request) {
    r.delivery != "" && r.delivery in l.order
  }

  function Remember(size: nat, l: Ledger<string>, r: Request): Ledger<string>
    requires size >= 1
  {
    if Relevant(r) && r.delivery != "" then AddKey(size, l, r.delivery) else l
  }

  /** The tracker call GitHub's word for what happened to a job stands for. */
  function CallsOn(job: Job, stamp: int, busy: int): seq<Call> {
    match job.action
    case "queued" => [Call(Queued, job.id, stamp, busy)]
    case "in_progress" => [Call(InProgress, job.id, stamp, busy)]
    case "completed" => [Call(Completed, job.id, stamp, busy)]
    case _ => []
  }

  /** The tracker call a request leads to once it is past de-duplication. */
  function Dispatch(norm: Normalise, required: seq<string>, r: Request): seq<Call> {
    if r.job.None? || !Matches(norm, r.job.value.labels, required) then []
    else CallsOn(r.job.value, r.stamp, r.busy)
  }

  /** The tracker calls a request leads to when the set remembers l. */
  function Answer(norm: Normalise, required: seq<string>, l: Ledger<string>, r: Request): seq<Call> {
    if Relevant(r) && !Repeats(l, r) then Dispatch(norm, required, r) else []
  }

  /** GitHub has sent a job event that is to be acted on: genuine, new and labelled
      as ours. */
  predicate ActedOn(norm: Normalise, required: seq<string>, remembered: seq<string>, r: Request) {
    && r.readable && r.signed && r.kind.WorkflowJob?
    && (r.delivery == "" || r.delivery !in remembered)
    && r.job.Some? && required != []
    && forall want :: want in required ==> exists l :: l in r.job.value.labels && norm(l) == want
  }

  /** What an event that is acted on adds to the tracker's calls. */
  predicate SaysInWords(r: Request, calls: seq<Call>, more: seq<Call>)
    requires r.job.Some?
  {
    var job := r.job.value;
    && (job.action == "queued" ==> more == calls + [Call(Queued, job.id, r.stamp, r.busy)])
    && (job.action == "in_progress" ==> more == calls + [Call(InProgress, job.id, r.stamp, r.busy)])
    && (job.action == "completed" ==> more == calls + [Call(Completed, job.id, r.stamp, r.busy)])
    && (job.action != "queued" && job.action != "in_progress" && job.action != "completed" ==> more == calls)
  }

  function StatusFor(remembered: seq<string>, r: Request): int {
    if !r.readable then 413
    else if !r.signed then 401
    else if r.kind.WorkflowJob? && (r.delivery == "" || r.delivery !in remembered) && r.job.None? then 400
    else 200
  }

  lemma AnswerInWords(size: nat, norm: Normalise, required: seq<string>, l: Ledger<string>, r: Request, calls: seq<Call>)
    requires size >= 1
    ensures if ActedOn(norm, required, l.order, r)
            then SaysInWords(r, calls, calls + Answer(norm, required, l, r))
            else calls + Answer(norm, required, l, r) == calls
    ensures r.readable && r.signed && r.kind.WorkflowJob? && r.delivery != ""
            ==> r.delivery in Remember(size, l, r).order
    ensures !(r.readable && r.signed && r.kind.WorkflowJob? && r.delivery != "") ==> Remember(size, l, r) == l
  {
  }

  /** Records the calls it receives. */
  class Tracker {
    var calls: seq<Call>

    constructor ()
      ensures calls == []
    {
      calls := [];
    }

    method Receive(c: Call)
      modifies this
      ensures calls == old(calls) + [c]
    {
      calls := calls + [c];
    }
  }

  class Handler {
    const norm: Normalise
    const labels: seq<string>
    const tracker: Tracker
    const deliveries: Set<string>

    constructor (norm: Normalise, labels: seq<string>, tracker: Tracker, trackedDeliveries: nat)
      requires trackedDeliveries >= 1
      ensures deliveries.Valid() && fresh(deliveries) && deliveries.View() == Empty()
      ensures deliveries.size == trackedDeliveries
      ensures this.norm == norm && this.labels == labels && this.tracker == tracker
    {
      this.norm, this.labels, this.tracker := norm, labels, tracker;
      deliveries := new Set(trackedDeliveries);
    }

    /** Hands a job on to the tracker. */
    method Forward(job: Job, stamp: int, busy: int)
      modifies tracker
      ensures tracker.calls == old(tracker.calls) + CallsOn(job, stamp, busy)
      ensures job.action == "queued" ==> tracker.calls == old(tracker.calls) + [Call(Queued, job.id, stamp, busy)]
      ensures job.action == "in_progress" ==> tracker.calls == old(tracker.calls) + [Call(InProgress, job.id, stamp, busy)]
      ensures job.action == "completed" ==> tracker.calls == old(tracker.calls) + [Call(Completed, job.id, stamp, busy)]
      ensures job.action != "queued" && job.action != "in_progress" && job.action != "completed"
              ==> tracker.calls == old(tracker.calls)
    {
      if job.action == "queued" {
        tracker.Receive(Call(Queued, job.id, stamp, busy));
      } else if job.action == "in_progress" {
        tracker.Receive(Call(InProgress, job.id, stamp, busy));
      } else if job.action == "completed" {
        tracker.Receive(Call(Completed, job.id, stamp, busy));
      }
    }

    /** Drops repeats, filters by label and forwards the rest. */
    method Process(r: Request) returns (status: int)
      requires deliveries.Valid()
      modifies deliveries, tracker
      ensures deliveries.Valid()
      ensures status == StatusFor(old(deliveries.order), r)
      ensures deliveries.View() == Remember(deliveries.size, old(deliveries.View()), r)
      ensures tracker.calls == old(tracker.calls) + Answer(norm, labels, old(deliveries.View()), r)
    {
      if !r.readable {
        return 413;
      }
      if !r.signed {
        return 401;
      }
      if !r.kind.WorkflowJob? {
        return 200;
      }
      if r.delivery != "" {
        var seen := deliveries.Add(r.delivery);
        if seen {
          return 200;
        }
      }
      if r.job.None? {
        return 400;
      }
      var job := r.job.value;
      var wanted := MatchesLabels(norm, job.labels, labels);
      if !wanted {
        return 200;
      }
      Forward(job, r.stamp, r.busy);
      return 200;
    }

    /** Status, memory and tracker calls, case by case. */
    method HandleWebhook(r: Request) returns (status: int)
      requires deliveries.Valid()
      modifies deliveries, tracker
      ensures deliveries.Valid()
      ensures status == (if !r.readable then 413 else if !r.signed then 401
                         else if r.kind.WorkflowJob? && r.job.None?
                                 && (r.delivery == "" || r.delivery !in old(deliveries.order)) then 400
                         else 200)
      ensures r.readable && r.signed && r.kind.WorkflowJob? && r.delivery != "" ==> r.delivery in deliveries.order
      ensures !(r.readable && r.signed && r.kind.WorkflowJob? && r.delivery != "")
              ==> deliveries.View() == old(deliveries.View())
      ensures ActedOn(norm, labels, old(deliveries.order), r) ==>
                SaysInWords(r, old(tracker.calls), tracker.calls)
      ensures !ActedOn(norm, labels, old(deliveries.order), r) ==> tracker.calls == old(tracker.calls)
    {
      AnswerInWords(deliveries.size, norm, labels, deliveries.View(), r, tracker.calls);
      status := Process(r);
    }

    /** The i-th of a sequence of requests. */
    method ServeNext(ghost reqs: seq<Request>, ghost i: nat, r: Request, ghost before: seq<Call>)
      requires i < |reqs| && r == reqs[i]
      requires deliveries.Valid() && deliveries.View() == LedgerAfter(deliveries.size, reqs[..i])
      requires tracker.calls == before + CallsFor(deliveries.size, norm, labels, reqs[..i])
      modifies deliveries, tracker
      ensures deliveries.Valid() && deliveries.View() == LedgerAfter(deliveries.size, reqs[..i + 1])
      ensures tracker.calls == before + CallsFor(deliveries.size, norm, labels, reqs[..i + 1])
    {
      ghost var calls := tracker.calls;
      var _ := Process(r);
      ServedMore(deliveries.size, norm, labels, reqs, i, before, calls, tracker.calls);
    }

    /** A sequence of requests, one after the other. */
    method Serve(reqs: seq<Request>)
      requires deliveries.Valid() && deliveries.View() == Empty()
      modifies deliveries, tracker
      ensures deliveries.Valid() && deliveries.View() == LedgerAfter(deliveries.size, reqs)
      ensures tracker.calls == old(tracker.calls) + CallsFor(deliveries.size, norm, labels, reqs)
    {
      for i := 0 to |reqs|
        invariant deliveries.Valid() && deliveries.View() == LedgerAfter(deliveries.size, reqs[..i])
        invariant tracker.calls == old(tracker.calls) + CallsFor(deliveries.size, norm, labels, reqs[..i])
      {
        ServeNext(reqs, i, reqs[i], old(tracker.calls));
      }
      assert reqs[..|reqs|] == reqs;
    }
  }

  // ------------------------------------------------------------------
  // Redelivery
  // ------------------------------------------------------------------

  function LedgerAfter(size: nat, reqs: seq<Request>): Ledger<string>
    requires size >= 1
  {
    if reqs == [] then Empty()
    else Remember(size, LedgerAfter(size, reqs[..|reqs| - 1]), reqs[|reqs| - 1])
  }

  /** The requests that get past de-duplication. */
  function Kept(size: nat, reqs: seq<Request>): seq<Request>
    requires size >= 1
  {
    if reqs == [] then []
    else
      var n := |reqs| - 1;
      Kept(size, reqs[..n]) +
      if Relevant(reqs[n]) && !Repeats(LedgerAfter(size, reqs[..n]), reqs[n]) then [reqs[n]] else []
  }

  lemma KeptSnoc(size: nat, reqs: seq<Request>, i: nat)
    requires size >= 1 && i < |reqs|
    ensures var l := LedgerAfter(size, reqs[..i]);
      && LedgerAfter(size, reqs[..i + 1]) == Remember(size, l, reqs[i])
      && Kept(size, reqs[..i + 1])
         == if Relevant(reqs[i]) && !Repeats(l, reqs[i]) then Kept(size, reqs[..i]) + [reqs[i]] else Kept(size, reqs[..i])
  {
    assert reqs[..i + 1][..i] == reqs[..i];
  }

  /** A relevant request with this delivery id came before. */
  predicate Delivered(reqs: seq<Request>, delivery: string) {
    exists i :: 0 <= i < |reqs| && Relevant(reqs[i]) && reqs[i].delivery == delivery
  }

  /** The requests that are the first to carry their delivery id, or carry none. */
  function Firsts(reqs: seq<Request>): seq<Request> {
    if reqs == [] then []
    else
      var n := |reqs| - 1;
      Firsts(reqs[..n]) +
      if Relevant(reqs[n]) && (reqs[n].delivery == "" || !Delivered(reqs[..n], reqs[n].delivery)) then [reqs[n]] else []
  }

  /** The delivery ids of a sequence of requests, in order of first appearance. */
  function Deliveries(reqs: seq<Request>): seq<string> {
    if reqs == [] then []
    else
      var n := |reqs| - 1;
      Deliveries(reqs[..n]) +
      if Relevant(reqs[n]) && reqs[n].delivery != "" && !Delivered(reqs[..n], reqs[n].delivery)
      then [reqs[n].delivery] else []
  }

  /** Fewer than `size` other ids have first appeared since this one did. */
  ghost predicate FewSince(size: nat, reqs: seq<Request>, delivery: string) {
    exists p: nat :: p < |Deliveries(reqs)| && Deliveries(reqs)[p] == delivery && |Deliveries(reqs)| - p - 1 < size
  }

  /** Every repeated delivery repeats soon: before `size` other ids have first
      appeared. The requests alone decide this. */
  ghost predicate RepeatsInTime(size: nat, reqs: seq<Request>) {
    reqs == [] ||
    (var n := |reqs| - 1;
     && RepeatsInTime(size, reqs[..n])
     && (Relevant(reqs[n]) && reqs[n].delivery != "" && Delivered(reqs[..n], reqs[n].delivery)
         ==> FewSince(size, reqs[..n], reqs[n].delivery)))
  }

  lemma DeliveredSnoc(reqs: seq<Request>, n: nat, delivery: string)
    requires |reqs| == n + 1
    ensures Delivered(reqs, delivery) <==>
      Delivered(reqs[..n], delivery) || (Relevant(reqs[n]) && reqs[n].delivery == delivery)
  {
    if i :| 0 <= i < n && Relevant(reqs[..n][i]) && reqs[..n][i].delivery == delivery {
      assert Relevant(reqs[i]) && reqs[i].delivery == delivery;
    }
    if i :| 0 <= i < |reqs| && Relevant(reqs[i]) && reqs[i].delivery == delivery {
      assert i < n ==> Relevant(reqs[..n][i]) && reqs[..n][i].delivery == delivery;
    }
  }

  /** Each delivered id has one first appearance. */
  lemma {:induction false} DeliveriesFacts(reqs: seq<Request>, delivery: string)
    ensures NoDup(Deliveries(reqs))
    ensures delivery in Deliveries(reqs) <==> delivery != "" && Delivered(reqs, delivery)
  {
    if reqs != [] {
      var n := |reqs| - 1;
      var d := reqs[n].delivery;
      DeliveriesFacts(reqs[..n], delivery);
      DeliveriesFacts(reqs[..n], d);
      DeliveredSnoc(reqs, n, delivery);
    }
  }

  /** Only delivered ids are remembered. */
  lemma {:induction false} RememberedWereDelivered(size: nat, reqs: seq<Request>, delivery: string)
    requires size >= 1 && delivery in LedgerAfter(size, reqs).order
    ensures Delivered(reqs, delivery)
  {
    var n := |reqs| - 1;
    var p := LedgerAfter(size, reqs[..n]);
    DeliveredSnoc(reqs, n, delivery);
    assert delivery in Elems(LedgerAfter(size, reqs).order);
    AddKeyRemembersOnly(size, p, reqs[n].delivery);
    if delivery in p.order {
      RememberedWereDelivered(size, reqs[..n], delivery);
    }
  }

  /** The first request with its delivery id always passes, and so does every
      request without one, whatever came before. */
  lemma FirstOccurrencesPass(size: nat, reqs: seq<Request>, i: nat)
    requires size >= 1 && i < |reqs| && Relevant(reqs[i])
    requires reqs[i].delivery == "" || !Delivered(reqs[..i], reqs[i].delivery)
    ensures !Repeats(LedgerAfter(size, reqs[..i]), reqs[i])
    ensures Kept(size, reqs[..i + 1]) == Kept(size, reqs[..i]) + [reqs[i]]
  {
    KeptSnoc(size, reqs, i);
    if reqs[i].delivery in LedgerAfter(size, reqs[..i]).order {
      RememberedWereDelivered(size, reqs[..i], reqs[i].delivery);
    }
  }

  /** While repeats are in time nothing enters the history twice. */
  lemma {:induction false} HistoryIsDeliveries(size: nat, reqs: seq<Request>)
    requires size >= 1 && RepeatsInTime(size, reqs)
    ensures LedgerAfter(size, reqs).history == Deliveries(reqs)
  {
    if reqs != [] {
      var n := |reqs| - 1;
      HistoryIsDeliveries(size, reqs[..n]);
      if Relevant(reqs[n]) && reqs[n].delivery != "" {
        if Delivered(reqs[..n], reqs[n].delivery) {
          InTimeMeansRemembered(size, reqs[..n], reqs[n].delivery);
        } else if reqs[n].delivery in LedgerAfter(size, reqs[..n]).order {
          RememberedWereDelivered(size, reqs[..n], reqs[n].delivery);
        }
      }
    }
  }

  /** And then the set remembers exactly the ids that appeared recently enough. */
  lemma InTimeMeansRemembered(size: nat, reqs: seq<Request>, delivery: string)
    requires size >= 1 && LedgerAfter(size, reqs).history == Deliveries(reqs)
    ensures delivery in LedgerAfter(size, reqs).order <==> FewSince(size, reqs, delivery)
  {
    var l := LedgerAfter(size, reqs);
    LedgerRefines(size, reqs);
    if delivery in l.order {
      var p := RememberedEntry(size, l, delivery);
    }
    if p: nat :| p < |Deliveries(reqs)| && Deliveries(reqs)[p] == delivery && |Deliveries(reqs)| - p - 1 < size {
      NotForgottenBefore(size, l, delivery, p);
    }
  }

  /** As many requests pass as there are first occurrences only when nothing else
      does, and that is when repeats are in time. */
  lemma {:induction false} KeptCount(size: nat, reqs: seq<Request>)
    requires size >= 1
    ensures |Kept(size, reqs)| >= |Firsts(reqs)|
    ensures |Kept(size, reqs)| == |Firsts(reqs)| <==> RepeatsInTime(size, reqs)
    ensures RepeatsInTime(size, reqs) ==> Kept(size, reqs) == Firsts(reqs)
  {
    if reqs != [] {
      var n := |reqs| - 1;
      KeptCount(size, reqs[..n]);
      if reqs[n].delivery in LedgerAfter(size, reqs[..n]).order {
        RememberedWereDelivered(size, reqs[..n], reqs[n].delivery);
      }
      if RepeatsInTime(size, reqs[..n]) {
        HistoryIsDeliveries(size, reqs[..n]);
        InTimeMeansRemembered(size, reqs[..n], reqs[n].delivery);
      }
    }
  }

  function DispatchAll(norm: Normalise, required: seq<string>, reqs: seq<Request>): seq<Call> {
    if reqs == [] then []
    else DispatchAll(norm, required, reqs[..|reqs| - 1]) + Dispatch(norm, required, reqs[|reqs| - 1])
  }

  lemma DispatchAllSnoc(norm: Normalise, required: seq<string>, reqs: seq<Request>, r: Request)
    ensures DispatchAll(norm, required, reqs + [r]) == DispatchAll(norm, required, reqs) + Dispatch(norm, required, r)
  {
    assert (reqs + [r])[..|reqs|] == reqs;
  }

  /** The calls a sequence of requests leads to. */
  function CallsFor(size: nat, norm: Normalise, required: seq<string>, reqs: seq<Request>): seq<Call>
    requires size >= 1
  {
    DispatchAll(norm, required, Kept(size, reqs))
  }

  lemma CallsSnoc(size: nat, norm: Normalise, required: seq<string>, reqs: seq<Request>, i: nat)
    requires size >= 1 && i < |reqs|
    ensures var l := LedgerAfter(size, reqs[..i]);
      && LedgerAfter(size, reqs[..i + 1]) == Remember(size, l, reqs[i])
      && CallsFor(size, norm, required, reqs[..i + 1])
         == CallsFor(size, norm, required, reqs[..i]) + Answer(norm, required, l, reqs[i])
  {
    KeptSnoc(size, reqs, i);
    DispatchAllSnoc(norm, required, Kept(size, reqs[..i]), reqs[i]);
  }

  lemma ServedMore(size: nat, norm: Normalise, required: seq<string>, reqs: seq<Request>, i: nat,
                   before: seq<Call>, calls: seq<Call>, more: seq<Call>)
    requires size >= 1 && i < |reqs|
    requires calls == before + CallsFor(size, norm, required, reqs[..i])
    requires more == calls + Answer(norm, required, LedgerAfter(size, reqs[..i]), reqs[i])
    ensures LedgerAfter(size, reqs[..i + 1]) == Remember(size, LedgerAfter(size, reqs[..i]), reqs[i])
    ensures more == before + CallsFor(size, norm, required, reqs[..i + 1])
  {
    CallsSnoc(size, norm, required, reqs, i);
    ConcatAssociates(before, CallsFor(size, norm, required, reqs[..i]),
                     Answer(norm, required, LedgerAfter(size, reqs[..i]), reqs[i]));
  }

  lemma ConcatAssociates(a: seq<Call>, b: seq<Call>, c: seq<Call>)
    ensures a + b + c == a + (b + c)
  {
  }

  /** The tracked jobs after a sequence of tracker calls. */
  function BookAfter(size: nat, b: Book, calls: seq<Call>): Book
    requires size >= 1
  {
    if calls == [] then b
    else
      var p := BookAfter(size, b, calls[..|calls| - 1]);
      var c := calls[|calls| - 1];
      match c.action
      case Queued => Queue(p, c.id, c.stamp, c.busy)
      case InProgress => Begin(p, c.id, c.stamp, c.busy)
      case Completed => Finish(p, size, c.id, c.busy)
  }

  lemma BookAfterSnoc(size: nat, b: Book, calls: seq<Call>, c: Call)
    requires size >= 1
    ensures BookAfter(size, b, calls + [c]) == BookAfter(size, BookAfter(size, b, calls), [c])
  {
    assert (calls + [c])[..|calls|] == calls;
    assert [c][..0] == [];
  }

  /** What such an event does to the tracked jobs, by GitHub's word for it; a job that
      is remembered as finished is left alone by all but another completion. */
  ghost predicate TakesEffect(trackedJobs: nat, b: Book, r: Request, after: Book)
    requires r.job.Some?
  {
    var id := r.job.value.id;
    match r.job.value.action
    case "queued" =>
      if id in b.done.order then after == b
      else
        && id in after.queued && after.queued[id] == r.stamp && after.queued - {id} == b.queued - {id}
        && after.inProgress == b.inProgress && after.done == b.done && after.lastBusy == r.busy
    case "in_progress" =>
      if id in b.done.order then after == b
      else
        && id !in after.queued && after.queued == b.queued - {id}
        && id in after.inProgress && after.inProgress[id] == r.stamp
        && after.inProgress - {id} == b.inProgress - {id}
        && after.done == b.done && after.lastBusy == r.busy
    case "completed" =>
      && id !in after.queued && id !in after.inProgress && id in after.done.order
      && after.queued == b.queued - {id} && after.inProgress == b.inProgress - {id}
      && after.lastBusy == r.busy
    case _ => after == b
  }

  /** After any requests, one more does to the tracked jobs exactly what its action
      says if it is acted on, and nothing if not. */
  lemma RequestTakesEffect(size: nat, norm: Normalise, required: seq<string>, reqs: seq<Request>, r: Request,
                           trackedJobs: nat, b: Book)
    requires size >= 1 && trackedJobs >= 1
    ensures var before := BookAfter(trackedJobs, b, CallsFor(size, norm, required, reqs));
      var after := BookAfter(trackedJobs, b, CallsFor(size, norm, required, reqs + [r]));
      if ActedOn(norm, required, LedgerAfter(size, reqs).order, r) then TakesEffect(trackedJobs, before, r, after)
      else after == before
  {
    var l, calls := LedgerAfter(size, reqs), CallsFor(size, norm, required, reqs);
    CallsForSnoc(size, norm, required, reqs, r);
    AnswerTakesEffect(trackedJobs, BookAfter(trackedJobs, b, calls), norm, required, l, r);
    BookAfterMore(trackedJobs, b, calls, Answer(norm, required, l, r));
  }

  lemma CallsForSnoc(size: nat, norm: Normalise, required: seq<string>, reqs: seq<Request>, r: Request)
    requires size >= 1
    ensures CallsFor(size, norm, required, reqs + [r])
            == CallsFor(size, norm, required, reqs) + Answer(norm, required, LedgerAfter(size, reqs), r)
  {
    var all := reqs + [r];
    assert all[..|reqs|] == reqs && all[..|reqs| + 1] == all;
    CallsSnoc(size, norm, required, all, |reqs|);
  }

  lemma BookAfterMore(size: nat, b: Book, calls: seq<Call>, more: seq<Call>)
    requires size >= 1 && |more| <= 1
    ensures BookAfter(size, b, calls + more) == BookAfter(size, BookAfter(size, b, calls), more)
  {
    if more == [] {
      assert calls + more == calls;
    } else {
      assert more == [more[0]];
      BookAfterSnoc(size, b, calls, more[0]);
    }
  }

  lemma AnswerTakesEffect(size: nat, b: Book, norm: Normalise, required: seq<string>, l: Ledger<string>, r: Request)
    requires size >= 1
    ensures |Answer(norm, required, l, r)| <= 1
    ensures var after := BookAfter(size, b, Answer(norm, required, l, r));
      if ActedOn(norm, required, l.order, r) then TakesEffect(size, b, r, after) else after == b
  {
    var a := Answer(norm, required, l, r);
    if ActedOn(norm, required, l.order, r) && a != [] {
      assert a == [a[0]];
      CallTakesEffect(size, b, norm, required, r, a[0]);
    }
  }

  lemma CallTakesEffect(size: nat, b: Book, norm: Normalise, required: seq<string>, r: Request, c: Call)
    requires size >= 1 && Dispatch(norm, required, r) == [c]
    ensures r.job.Some? && TakesEffect(size, b, r, BookAfter(size, b, [c]))
  {
    assert [c][..0] == [];
  }

  /** Redelivery is transparent exactly when repeats come in time: then, and only
      then, the requests that pass are the first occurrences; and then the tracker
      gets the calls of the first occurrences alone, and ends with the same jobs
      recorded at the same times. */
  lemma RedeliveryIsTransparent(size: nat, norm: Normalise, required: seq<string>, reqs: seq<Request>,
                                trackedJobs: nat, b: Book)
    requires size >= 1 && trackedJobs >= 1
    ensures Kept(size, reqs) == Firsts(reqs) <==> RepeatsInTime(size, reqs)
    ensures RepeatsInTime(size, reqs) ==>
      && CallsFor(size, norm, required, reqs) == DispatchAll(norm, required, Firsts(reqs))
      && BookAfter(trackedJobs, b, CallsFor(size, norm, required, reqs))
         == BookAfter(trackedJobs, b, DispatchAll(norm, required, Firsts(reqs)))
  {
    KeptCount(size, reqs);
  }

  /** Whether a delivery is still remembered depends, on time or late, only on how
      many have entered the history since. */
  lemma RememberedMeansFewBetween(size: nat, reqs: seq<Request>, delivery: string, p: nat)
    requires size >= 1 && LastEntry(LedgerAfter(size, reqs).history, delivery, p)
    ensures delivery in LedgerAfter(size, reqs).order
            <==> |LedgerAfter(size, reqs).history| - p - 1 < size
  {
    LedgerRefines(size, reqs);
    SurvivesExactly(size, LedgerAfter(size, reqs), delivery, p);
  }

  lemma {:induction false} LedgerRefines(size: nat, reqs: seq<Request>)
    requires size >= 1
    ensures Refines(size, LedgerAfter(size, reqs))
  {
    if reqs != [] {
      var n := |reqs| - 1;
      LedgerRefines(size, reqs[..n]);
      AddKeyRefines(size, LedgerAfter(size, reqs[..n]), reqs[n].delivery);
    }
  }
}
