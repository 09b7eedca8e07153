/** Collecting the unfinished workflow runs page by page, without repeats. */
module Runs {
  import opened Seqs

  datatype Status = QueuedRuns | RunningRuns

  /** A server answers a status and a page number, from 1, or fails. */
  type Server = (Status, nat) -> Option<seq<int>>

  // ------------------------------------------------------------------
  // First occurrences
  // ------------------------------------------------------------------

  function Dedup(s: seq<int>): seq<int> {
    if s == [] then []
    else
      var n := |s| - 1;
      Dedup(s[..n]) + if s[n] in s[..n] then [] else [s[n]]
  }

  lemma DedupSnoc(s: seq<int>, x: int)
    ensures Dedup(s + [x]) == Dedup(s) + if x in s then [] else [x]
  {
    assert (s + [x])[..|s|] == s;
  }

  /** Each id once, and no id lost. */
  lemma {:induction false} DedupKeepsEachOnce(s: seq<int>)
    ensures NoDup(Dedup(s)) && Elems(Dedup(s)) == Elems(s)
  {
    if s == [] {
      assert Elems(s) == {};
    } else {
      var n := |s| - 1;
      var d := Dedup(s[..n]);
      DedupKeepsEachOnce(s[..n]);
      assert s == s[..n] + [s[n]];
      ElemsAppend(s[..n], s[n]);
      ElemsAppend(d, s[n]);
      assert forall i :: 0 <= i < |d| ==> d[i] in Elems(s[..n]);
    }
  }

  /** Ids keep the order in which they first appear: reading more only appends. */
  lemma {:induction false} DedupGrows(s: seq<int>, t: seq<int>)
    ensures Dedup(s) <= Dedup(s + t)
  {
    if t == [] {
      assert s + t == s;
    } else {
      var n := |t| - 1;
      DedupGrows(s, t[..n]);
      assert s + t == (s + t[..n]) + [t[n]];
      DedupSnoc(s + t[..n], t[n]);
    }
  }

  // ------------------------------------------------------------------
  // Pages
  // ------------------------------------------------------------------

  /** What reading from page on yields: it stops after a short page or the last
      page allowed, and fails when a page it needs fails. */
  function Pages(server: Server, status: Status, page: nat, perPage: nat, maxPages: nat): Option<seq<int>>
    decreases maxPages + 1 - page
  {
    if page > maxPages then Some([])
    else
      match server(status, page)
      case None => None
      case Some(ids) =>
        if |ids| < perPage then Some(ids)
        else
          match Pages(server, status, page + 1, perPage, maxPages)
          case None => None
          case Some(rest) => Some(ids + rest)
  }

  function Collected(server: Server, perPage: nat, maxPages: nat): Option<seq<int>> {
    match Pages(server, QueuedRuns, 1, perPage, maxPages)
    case None => None
    case Some(q) =>
      match Pages(server, RunningRuns, 1, perPage, maxPages)
      case None => None
      case Some(r) => Some(Dedup(q + r))
  }

  /** The ids found and seen once the entries of a page have been taken in turn. */
  function Added(ids: seq<int>, seen: set<int>, runs: seq<int>): (seq<int>, set<int>) {
    if runs == [] then (ids, seen)
    else
      var x := runs[|runs| - 1];
      var p := Added(ids, seen, runs[..|runs| - 1]);
      if x in p.1 then p else (p.0 + [x], p.1 + {x})
  }

  lemma AddedSnoc(ids: seq<int>, seen: set<int>, runs: seq<int>, i: nat)
    requires i < |runs|
    ensures var p := Added(ids, seen, runs[..i]);
      Added(ids, seen, runs[..i + 1]) == if runs[i] in p.1 then p else (p.0 + [runs[i]], p.1 + {runs[i]})
  {
    assert runs[..i + 1][..i] == runs[..i];
  }

  lemma ReadOne(read: seq<int>, x: int)
    ensures Dedup(read + [x]) == if x in Elems(read) then Dedup(read) else Dedup(read) + [x]
    ensures Elems(read + [x]) == if x in Elems(read) then Elems(read) else Elems(read) + {x}
  {
    DedupSnoc(read, x);
    ElemsAppend(read, x);
  }

  /** That is de-duplication of everything read so far. */
  lemma {:induction false} AddedIsDedup(read: seq<int>, runs: seq<int>)
    ensures Added(Dedup(read), Elems(read), runs) == (Dedup(read + runs), Elems(read + runs))
  {
    if runs == [] {
      assert read + runs == read;
    } else {
      var n := |runs| - 1;
      AddedIsDedup(read, runs[..n]);
      ReadOne(read + runs[..n], runs[n]);
      assert read + runs == read + runs[..n] + [runs[n]];
    }
  }

  /** Appends the ids of one page that have not been seen. */
  method AddNew(runs: seq<int>, ids: seq<int>, seen: set<int>) returns (ids': seq<int>, seen': set<int>)
    ensures (ids', seen') == Added(ids, seen, runs)
  {
    ids', seen' := ids, seen;
    for i := 0 to |runs|
      invariant (ids', seen') == Added(ids, seen, runs[..i])
    {
      AddedSnoc(ids, seen, runs, i);
      if runs[i] !in seen' {
        seen' := seen' + {runs[i]};
        ids' := ids' + [runs[i]];
      }
    }
    assert runs[..|runs|] == runs;
  }

  /** Adds the ids of one status to those found so far. */
  method CollectStatus(server: Server, status: Status, perPage: nat, maxPages: nat, found: seq<int>, ghost sofar: seq<int>)
    returns (ids: seq<int>, ok: bool)
    requires found == Dedup(sofar)
    ensures ok <==> Pages(server, status, 1, perPage, maxPages).Some?
    ensures ok ==> ids == Dedup(sofar + Pages(server, status, 1, perPage, maxPages).value)
  {
    ids, ok := found, true;
    ghost var read := sofar;
    var page := 1;
    DedupKeepsEachOnce(sofar);
    var seen := Elems(found);
    while page <= maxPages
      invariant 1 <= page <= maxPages + 1
      invariant ids == Dedup(read) && seen == Elems(read)
      invariant Pages(server, status, 1, perPage, maxPages).Some?
                <==> Pages(server, status, page, perPage, maxPages).Some?
      invariant Pages(server, status, page, perPage, maxPages).Some? ==>
        sofar + Pages(server, status, 1, perPage, maxPages).value == read + Pages(server, status, page, perPage, maxPages).value
    {
      var resp := server(status, page);
      if resp.None? {
        return ids, false;
      }
      var runs := resp.value;
      AddedIsDedup(read, runs);
      ids, seen := AddNew(runs, ids, seen);
      read := read + runs;
      if |runs| < perPage {
        return;
      }
      page := page + 1;
    }
    assert read + [] == read;
  }

  /** Pages 1 to p of this status are all there and full. */
  predicate FullUpTo(server: Server, status: Status, p: nat, perPage: nat) {
    forall q: nat :: 1 <= q <= p ==> server(status, q).Some? && |server(status, q).value| >= perPage
  }

  /** A page that is needed, because the ones before it were full, fails. */
  predicate FailsAt(server: Server, status: Status, p: nat, perPage: nat, maxPages: nat) {
    1 <= p <= maxPages && server(status, p).None? && FullUpTo(server, status, p - 1, perPage)
  }

  /** p is the last page read: a short one, or the last one allowed. */
  predicate EndsAt(server: Server, status: Status, p: nat, perPage: nat, maxPages: nat) {
    && p <= maxPages
    && (p == maxPages || (p >= 1 && server(status, p).Some? && |server(status, p).value| < perPage))
    && (p >= 1 ==> server(status, p).Some? && FullUpTo(server, status, p - 1, perPage))
  }

  /** The entries of pages from to p, in order. */
  function Read(server: Server, status: Status, from: nat, p: nat): seq<int>
    decreases p + 1 - from
  {
    if from > p then []
    else (if server(status, from).Some? then server(status, from).value else []) + Read(server, status, from + 1, p)
  }

  lemma FullMore(server: Server, status: Status, p: nat, perPage: nat)
    requires p >= 1 && FullUpTo(server, status, p - 1, perPage)
    requires server(status, p).Some? && |server(status, p).value| >= perPage
    ensures FullUpTo(server, status, p, perPage)
  {
  }

  /** Reading from page on, with full pages before it, either fails at a needed page
      or ends at a last one with everything in between. */
  lemma {:induction false} PagesEnd(server: Server, status: Status, page: nat, perPage: nat, maxPages: nat) returns (p: nat)
    requires 1 <= page <= maxPages + 1 && FullUpTo(server, status, page - 1, perPage)
    ensures page - 1 <= p
    ensures if Pages(server, status, page, perPage, maxPages).None? then FailsAt(server, status, p, perPage, maxPages)
            else EndsAt(server, status, p, perPage, maxPages)
                 && Pages(server, status, page, perPage, maxPages).value == Read(server, status, page, p)
    decreases maxPages + 1 - page
  {
    if page > maxPages {
      p := maxPages;
    } else if server(status, page).None? {
      p := page;
    } else if |server(status, page).value| < perPage {
      p := page;
      assert Read(server, status, page + 1, page) == [];
    } else {
      FullMore(server, status, page, perPage);
      p := PagesEnd(server, status, page + 1, perPage, maxPages);
    }
  }

  /** A status cannot both fail and end. */
  lemma FailOrEnd(server: Server, status: Status, p: nat, q: nat, perPage: nat, maxPages: nat)
    requires FailsAt(server, status, p, perPage, maxPages)
    ensures !EndsAt(server, status, q, perPage, maxPages)
  {
  }

  /** About the server alone: reading a status fails exactly when a needed page fails. */
  lemma PagesFailExactly(server: Server, status: Status, perPage: nat, maxPages: nat)
    ensures Pages(server, status, 1, perPage, maxPages).None?
            <==> exists p: nat :: FailsAt(server, status, p, perPage, maxPages)
  {
    var p := PagesEnd(server, status, 1, perPage, maxPages);
    if q: nat :| FailsAt(server, status, q, perPage, maxPages) {
      FailOrEnd(server, status, q, p, perPage, maxPages);
    }
  }

  /** And so does the whole collection, when one of the statuses does. When it does
      not, it is the de-duplicated queued pages followed by the running ones. */
  lemma CollectionFailsExactly(server: Server, perPage: nat, maxPages: nat)
    ensures Collected(server, perPage, maxPages).None?
            <==> exists status, p: nat :: FailsAt(server, status, p, perPage, maxPages)
    ensures Collected(server, perPage, maxPages).Some? ==>
      exists p: nat, q: nat ::
        && EndsAt(server, QueuedRuns, p, perPage, maxPages) && EndsAt(server, RunningRuns, q, perPage, maxPages)
        && Collected(server, perPage, maxPages).value
           == Dedup(Read(server, QueuedRuns, 1, p) + Read(server, RunningRuns, 1, q))
  {
    PagesFailExactly(server, QueuedRuns, perPage, maxPages);
    PagesFailExactly(server, RunningRuns, perPage, maxPages);
    var p := PagesEnd(server, QueuedRuns, 1, perPage, maxPages);
    var q := PagesEnd(server, RunningRuns, 1, perPage, maxPages);
    if status, i: nat :| FailsAt(server, status, i, perPage, maxPages) {
      match status
      case QueuedRuns =>
      case RunningRuns =>
    }
  }

  method ActiveRunIds(server: Server, perPage: nat, maxPages: nat) returns (r: Option<seq<int>>)
    ensures r == Collected(server, perPage, maxPages)
    ensures r.None? <==> exists status, p: nat :: FailsAt(server, status, p, perPage, maxPages)
  {
    CollectionFailsExactly(server, perPage, maxPages);
    assert Dedup([]) == [];
    var ids, ok := CollectStatus(server, QueuedRuns, perPage, maxPages, [], []);
    if !ok {
      return None;
    }
    ghost var q := Pages(server, QueuedRuns, 1, perPage, maxPages).value;
    assert [] + q == q;
    ids, ok := CollectStatus(server, RunningRuns, perPage, maxPages, ids, q);
    if !ok {
      return None;
    }
    return Some(ids);
  }

  // ------------------------------------------------------------------
  // Against a consistent server
  // ------------------------------------------------------------------

  function Upto(n: int, len: nat): nat
    requires n >= 0
  {
    if n < len then n else len
  }

  /** The p-th page of a list. */
  function PageOf(list: seq<int>, p: nat, perPage: nat): seq<int>
    requires p >= 1
  {
    list[Upto((p - 1) * perPage, |list|)..Upto(p * perPage, |list|)]
  }

  /** The server pages over two fixed lists. */
  ghost predicate Consistent(server: Server, queued: seq<int>, running: seq<int>, perPage: nat) {
    forall p: nat :: p >= 1 ==>
      && server(QueuedRuns, p) == Some(PageOf(queued, p, perPage))
      && server(RunningRuns, p) == Some(PageOf(running, p, perPage))
  }

  lemma {:induction false} PagesAreATake(server: Server, status: Status, list: seq<int>, page: nat, perPage: nat, maxPages: nat)
    requires perPage >= 1 && 1 <= page <= maxPages + 1
    requires forall p: nat :: p >= 1 ==> server(status, p) == Some(PageOf(list, p, perPage))
    requires (page - 1) * perPage <= maxPages * perPage
    ensures Pages(server, status, page, perPage, maxPages)
            == Some(list[Upto((page - 1) * perPage, |list|)..Upto(maxPages * perPage, |list|)])
    decreases maxPages + 1 - page
  {
    if page <= maxPages {
      var ids := PageOf(list, page, perPage);
      assert page * perPage == (page - 1) * perPage + perPage;
      Monotone(page, maxPages, perPage);
      var lo, mid, hi := Upto((page - 1) * perPage, |list|), Upto(page * perPage, |list|), Upto(maxPages * perPage, |list|);
      assert lo <= mid <= hi && ids == list[lo..mid];
      if |ids| < perPage {
        assert mid == hi == |list|;
      } else {
        assert list[lo..mid] + list[mid..hi] == list[lo..hi];
        PagesAreATake(server, status, list, page + 1, perPage, maxPages);
      }
    }
  }

  lemma Monotone(a: nat, b: nat, k: nat)
    requires a <= b
    ensures a * k <= b * k
  {
    assert b * k == a * k + (b - a) * k;
  }

  /** Against a server that pages consistently over two lists, the result is the
      first occurrences, in order and once each, of the first perPage * maxPages
      entries of each list. */
  lemma CollectionIsExact(server: Server, queued: seq<int>, running: seq<int>, perPage: nat, maxPages: nat)
    requires perPage >= 1 && Consistent(server, queued, running, perPage)
    ensures var limit := maxPages * perPage;
      && var read := queued[..Upto(limit, |queued|)] + running[..Upto(limit, |running|)];
      && Collected(server, perPage, maxPages) == Some(Dedup(read))
      && NoDup(Dedup(read))
      && Elems(Dedup(read)) == Elems(read)
      && Dedup(queued[..Upto(limit, |queued|)]) <= Dedup(read)
  {
    PagesAreATake(server, QueuedRuns, queued, 1, perPage, maxPages);
    PagesAreATake(server, RunningRuns, running, 1, perPage, maxPages);
    var q, r := queued[..Upto(maxPages * perPage, |queued|)], running[..Upto(maxPages * perPage, |running|)];
    DedupKeepsEachOnce(q + r);
    DedupGrows(q, r);
  }

  /** Nothing is missed when both lists fit into the pages read. */
  lemma CollectionIsComplete(server: Server, queued: seq<int>, running: seq<int>, perPage: nat, maxPages: nat)
    requires perPage >= 1 && Consistent(server, queued, running, perPage)
    requires |queued| <= maxPages * perPage && |running| <= maxPages * perPage
    ensures Collected(server, perPage, maxPages).Some?
    ensures Elems(Collected(server, perPage, maxPages).value) == Elems(queued) + Elems(running)
  {
    CollectionIsExact(server, queued, running, perPage, maxPages);
    assert queued[..|queued|] == queued && running[..|running|] == running;
    ElemsConcat(queued, running);
  }
}
