/** Backward scan of the two monitored addresses: one page fetch, the page loop
    over both addresses, and the fold that picks the newest signature. */
module BatchScanner {
  import opened Basics
  import opened Ledger

  /** Page size used by the scanner. The theorems hold for every positive limit. */
  const LIMIT: nat := 10

  datatype Status = Status(signature: Signature, slot: nat)

  datatype FetchingState =
    | Completed(newest: Option<Status>)
    | FetchAgain(newT2: Status, newest: Option<Status>)

  /** One spawned fetch of a transaction, numbered in the order of spawning. */
  datatype FetchCall = FetchCall(number: nat, signature: Signature)

  /** What the RPC answers for a list of positions. */
  function Statuses(l: Chain, ps: seq<nat>): (r: seq<Status>)
    requires Below(ps, |l|)
    ensures |r| == |ps| && forall i :: 0 <= i < |r| ==> r[i] == Status(l[ps[i]].signature, l[ps[i]].slot)
  {
    seq(|ps|, i requires 0 <= i < |ps| => Status(l[ps[i]].signature, l[ps[i]].slot))
  }

  function SignaturesOf(xs: seq<Status>): (r: seq<Signature>)
    ensures |r| == |xs| && forall i :: 0 <= i < |r| ==> r[i] == xs[i].signature
  {
    seq(|xs|, i requires 0 <= i < |xs| => xs[i].signature)
  }

  /** The complete answer, newest first, for one address between two bounds. */
  function History(l: Chain, a: Address, t1: Option<Signature>, t2: Option<Signature>): seq<Status> {
    Statuses(l, Newest(l, a, LowerEnd(l, t1), UpperEnd(l, t2)))
  }

  // ---------------------------------------------------------------- environment

  /** The ledgers seen by successive calls only grow. */
  ghost predicate Growing(views: nat -> Chain) {
    && (forall i :: ValidChain(views(i)))
    && (forall i, j :: i <= j ==> views(i) <= views(j))
  }

  /** From call `from` on, every view resolves the bound to the same place: it is
      absent, already on the ledger, or unknown to the chain for good. */
  ghost predicate StableBound(views: nat -> Chain, from: nat, s: Option<Signature>) {
    s.Some? ==> forall i :: from <= i ==> Position(views(i), s.value) == Position(views(from), s.value)
  }

  /** The calls in [from, to) all succeeded, or ended with the first one that failed. */
  ghost predicate Called(unreachable: nat -> bool, from: nat, to: nat, ok: bool) {
    && from <= to && (ok || (from < to && unreachable(to - 1)))
    && forall n: nat :: from <= n < (if ok then to else to - 1) ==> !unreachable(n)
  }

  lemma CalledNever(unreachable: nat -> bool, from: nat)
    ensures Called(unreachable, from, from, true)
  {
  }

  lemma CalledOnce(unreachable: nat -> bool, from: nat, to: nat)
    requires Called(unreachable, from, to, true)
    ensures Called(unreachable, from, to + 1, !unreachable(to))
  {
  }

  lemma CalledOn(unreachable: nat -> bool, from: nat, middle: nat, to: nat, ok: bool)
    requires Called(unreachable, from, middle, true) && Called(unreachable, middle, to, ok)
    ensures Called(unreachable, from, to, ok)
  {
  }

  class RpcClient {
    const views: nat -> Chain
    const unreachable: nat -> bool
    var calls: nat

    constructor (views: nat -> Chain, unreachable: nat -> bool)
      ensures this.views == views && this.unreachable == unreachable && calls == 0
    {
      this.views := views;
      this.unreachable := unreachable;
      calls := 0;
    }

    method GetSignaturesForAddress(a: Address, before: Option<Signature>, until: Option<Signature>, limit: nat)
      returns (r: Result<seq<Status>>)
      modifies this
      ensures calls == old(calls) + 1
      ensures r == if unreachable(old(calls)) then Err
                   else Ok(Take(History(views(old(calls)), a, until, before), limit))
    {
      var l := views(calls);
      r := if unreachable(calls) then Err else Ok(Take(History(l, a, until, before), limit));
      calls := calls + 1;
    }

    /** Time passes, for instance with calls that look up single transactions. */
    method Elapse(n: nat)
      modifies this
      ensures calls == old(calls) + n
    {
      calls := calls + n;
    }
  }

  // ---------------------------------------------------------------- hand-over to the fetcher

  /** The fetches for a list of signatures, the first of which gets number `from`. */
  function Numbered(from: nat, ss: seq<Signature>): (r: seq<FetchCall>)
    ensures |r| == |ss| && forall i :: 0 <= i < |r| ==> r[i] == FetchCall(from + i, ss[i])
  {
    seq(|ss|, i requires 0 <= i < |ss| => FetchCall(from + i, ss[i]))
  }

  /** The signatures whose fetch is answered with a successful transaction. */
  function Successes(calls: seq<FetchCall>, answered: nat -> bool, succeeded: Signature -> bool): seq<Signature> {
    if calls == [] then []
    else
      var n := |calls| - 1;
      Successes(calls[..n], answered, succeeded)
      + if answered(calls[n].number) && succeeded(calls[n].signature) then [calls[n].signature] else []
  }

  lemma {:induction false} SuccessesAppend(a: seq<FetchCall>, b: seq<FetchCall>, answered: nat -> bool,
                                           succeeded: Signature -> bool)
    ensures Successes(a + b, answered, succeeded) == Successes(a, answered, succeeded) + Successes(b, answered, succeeded)
    decreases |b|
  {
    if b == [] {
      assert a + b == a;
    } else {
      assert (a + b)[..|a + b| - 1] == a + b[..|b| - 1];
      SuccessesAppend(a, b[..|b| - 1], answered, succeeded);
    }
  }

  lemma SuccessesOne(call: FetchCall, answered: nat -> bool, succeeded: Signature -> bool)
    ensures Successes([call], answered, succeeded)
         == if answered(call.number) && succeeded(call.signature) then [call.signature] else []
  {
    assert [call][..0] == [];
  }

  /** Fetches may be drained in any order. */
  lemma SuccessesRemove(calls: seq<FetchCall>, i: nat, answered: nat -> bool, succeeded: Signature -> bool)
    requires i < |calls|
    ensures multiset(Successes(calls, answered, succeeded))
         == multiset(Successes(RemoveAt(calls, i), answered, succeeded))
            + multiset(if answered(calls[i].number) && succeeded(calls[i].signature) then [calls[i].signature] else [])
  {
    hide Successes;
    var before, after := calls[..i], calls[i + 1..];
    assert calls == before + ([calls[i]] + after);
    SuccessesOne(calls[i], answered, succeeded);
    SuccessesAppend(before, [calls[i]] + after, answered, succeeded);
    SuccessesAppend([calls[i]], after, answered, succeeded);
    SuccessesAppend(before, after, answered, succeeded);
  }

  lemma {:induction false} SuccessesIff(ss: seq<Signature>, answered: nat -> bool, succeeded: Signature -> bool,
                                        x: Signature)
    ensures x in Successes(Numbered(0, ss), answered, succeeded)
       <==> succeeded(x) && exists k :: 0 <= k < |ss| && ss[k] == x && answered(k)
  {
    if ss == [] {
    } else {
      var n := |ss| - 1;
      SuccessesIff(ss[..n], answered, succeeded, x);
      assert Numbered(0, ss)[..n] == Numbered(0, ss[..n]);
      if k :| 0 <= k < |ss[..n]| && ss[..n][k] == x && answered(k) {
        assert ss[k] == x;
      }
      if k :| 0 <= k < |ss| && ss[k] == x && answered(k) {
        assert k < n ==> ss[..n][k] == x;
      }
    }
  }

  lemma SpawnMore(handed: seq<Signature>, ss: seq<Signature>, answered: nat -> bool, succeeded: Signature -> bool)
    ensures multiset(Successes(Numbered(0, handed), answered, succeeded))
            + multiset(Successes(Numbered(|handed|, ss), answered, succeeded))
         == multiset(Successes(Numbered(0, handed + ss), answered, succeeded))
  {
    assert Numbered(0, handed + ss) == Numbered(0, handed) + Numbered(|handed|, ss);
    SuccessesAppend(Numbered(0, handed), Numbered(|handed|, ss), answered, succeeded);
  }

  lemma NoSuccesses(answered: nat -> bool, succeeded: Signature -> bool)
    ensures Successes([], answered, succeeded) == []
  {
  }

  /** The receiving side of a scan: `handed` lists the signatures given to the
      transaction fetcher, `sent` the transactions that reached the channel. */
  class Forwarding {
    /** Whether the fetch with a given number gets an answer. */
    const answered: nat -> bool
    /** Whether a transaction succeeded on chain. */
    const succeeded: Signature -> bool
    var handed: seq<Signature>
    var sent: seq<Signature>

    /** What was sent is exactly what was fetched and turned out successful. */
    ghost predicate Consistent()
      reads this
    {
      multiset(sent) == multiset(Successes(Numbered(0, handed), answered, succeeded))
    }

    constructor (answered: nat -> bool, succeeded: Signature -> bool)
      ensures this.answered == answered && this.succeeded == succeeded && handed == [] && sent == [] && Consistent()
    {
      this.answered, this.succeeded := answered, succeeded;
      handed, sent := [], [];
    }

    /** Spawns one fetch per signature and drains them in whatever order they
        finish. A failed fetch is only logged; a failed transaction is skipped. */
    method FetchAndSend(signatures: seq<Signature>)
      requires Consistent()
      modifies this
      ensures Consistent() && handed == old(handed) + signatures && old(sent) <= sent
    {
      hide Successes, Numbered;
      var running := Numbered(|handed|, signatures);
      SpawnMore(handed, signatures, answered, succeeded);
      ghost var all := multiset(Successes(Numbered(0, handed + signatures), answered, succeeded));
      while running != []
        invariant handed == old(handed) && old(sent) <= sent
        invariant multiset(sent) + multiset(Successes(running, answered, succeeded)) == all
        decreases |running|
      {
        var i: nat :| i < |running|;
        var call := running[i];
        SuccessesRemove(running, i, answered, succeeded);
        running := RemoveAt(running, i);
        if answered(call.number) && succeeded(call.signature) {
          sent := sent + [call.signature];
        }
      }
      NoSuccesses(answered, succeeded);
      handed := handed + signatures;
    }
  }

  // ---------------------------------------------------------------- specification of a scan

  /** Pages are fetched newest first, each page is handed over oldest first. */
  function PageOrder<T>(xs: seq<T>, limit: nat): (r: seq<T>)
    requires limit >= 1
  {
    if |xs| < limit then Reverse(xs) else Reverse(xs[..limit]) + PageOrder(xs[limit..], limit)
  }

  /** The newest element of every non-empty page. */
  function Heads<T>(xs: seq<T>, limit: nat): (r: seq<T>)
    requires limit >= 1
  {
    if xs == [] then [] else if |xs| < limit then [xs[0]] else [xs[0]] + Heads(xs[limit..], limit)
  }

  /** Number of calls needed for a history of `n` entries: the scan stops at the
      first page that is not full. */
  function Calls(n: nat, limit: nat): nat
    requires limit >= 1
  {
    if n < limit then 1 else 1 + Calls(n - limit, limit)
  }

  /** Running value of `chronologically_newest_sig` and `slot`. A slot is only
      ever recorded together with a signature. */
  datatype NewestSoFar = NewestSoFar(signature: Option<Signature>, slot: Option<nat>) {
    predicate Consistent() { slot.Some? ==> signature.Some? }
  }

  /** The three-way match on a page's newest status. The arm for a slot without a
      signature is dead code. A bound supplied by the caller is never replaced. */
  function Note(acc: NewestSoFar, h: Status): (r: NewestSoFar)
    requires acc.Consistent()
    ensures r.Consistent() && r.signature.Some?
  {
    match (acc.signature, acc.slot)
    case (None, None) => NewestSoFar(Some(h.signature), Some(h.slot))
    case (Some(_), None) => acc
    case (Some(_), Some(oldSlot)) => if oldSlot < h.slot then acc.(signature := Some(h.signature)) else acc
    case (None, Some(_)) => assert false; acc
  }

  function NoteAll(acc: NewestSoFar, hs: seq<Status>): (r: NewestSoFar)
    requires acc.Consistent()
    ensures r.Consistent()
    decreases |hs|
  {
    if hs == [] then acc else NoteAll(Note(acc, hs[0]), hs[1..])
  }

  /** Result of a scan whose gateway part first sees `g` and whose gas-service part first sees `s`. */
  function ScanNewest(g: Chain, s: Chain, t1: Option<Signature>, t2: Option<Signature>, limit: nat): Option<Signature>
    requires limit >= 1
  {
    NoteAll(NoteAll(NewestSoFar(t2, None), Heads(History(g, Gateway, t1, t2), limit)),
            Heads(History(s, GasService, t1, t2), limit)).signature
  }

  // ---------------------------------------------------------------- the scanner

  method Fetch(rpc: RpcClient, sink: Forwarding, t1: Option<Signature>, t2: Option<Signature>, a: Address, limit: nat)
    returns (r: Result<FetchingState>)
    requires limit >= 1 && sink.Consistent()
    modifies rpc, sink
    ensures sink.Consistent() && rpc.calls == old(rpc.calls) + 1
    ensures r.Ok? <==> !rpc.unreachable(old(rpc.calls))
    ensures r.Err? ==> sink.handed == old(sink.handed)
    ensures r.Ok? ==>
      var page := Take(History(rpc.views(old(rpc.calls)), a, t1, t2), limit);
      && sink.handed == old(sink.handed) + Reverse(SignaturesOf(page))
      && r.value == if page == [] then Completed(None)
                    else if |page| < limit then Completed(Some(page[0]))
                    else FetchAgain(page[|page| - 1], Some(page[0]))
  {
    var answer := rpc.GetSignaturesForAddress(a, t2, t1, limit);
    if answer.Err? {
      return Err;
    }
    var fetched := answer.value;
    if |fetched| == 0 {
      return Ok(Completed(None));
    }
    var oldest := fetched[|fetched| - 1];
    var newest := fetched[0];
    sink.FetchAndSend(Reverse(SignaturesOf(fetched)));
    if |fetched| < limit {
      r := Ok(Completed(Some(newest)));
    } else {
      r := Ok(FetchAgain(oldest, Some(newest)));
    }
  }

  /** Continuing from the oldest entry of a full page sees exactly the rest of the
      history, even though the ledger may have grown in between. */
  lemma ResumeAfterPage(view: Chain, view': Chain, a: Address, t1: Option<Signature>, t2: Option<Signature>, k: nat)
    requires ValidChain(view') && view <= view' && LowerEnd(view, t1) == LowerEnd(view', t1)
    requires 0 < k <= |History(view, a, t1, t2)|
    ensures History(view', a, t1, Some(History(view, a, t1, t2)[k - 1].signature)) == History(view, a, t1, t2)[k..]
  {
    var lo, hi := LowerEnd(view, t1), UpperEnd(view, t2);
    var p := Newest(view, a, lo, hi)[k - 1];
    ResumeBelow(view, a, lo, hi, k);
    NewestStable(view, view', a, lo, p);
    PositionOfEntry(view', p);
    assert view'[p] == view[p];
  }

  /** How far a scan of the history `all` has come: `done` was handed over in
      `calls` pages, `rest` is still to be fetched. */
  ghost predicate Progress(all: seq<Status>, rest: seq<Status>, limit: nat, done: seq<Signature>, calls: nat,
                           first: NewestSoFar, newest: NewestSoFar)
    requires limit >= 1
  {
    && first.Consistent() && newest.Consistent()
    && PageOrder(SignaturesOf(all), limit) == done + PageOrder(SignaturesOf(rest), limit)
    && Calls(|all|, limit) == calls + Calls(|rest|, limit)
    && NoteAll(first, Heads(all, limit)) == NoteAll(newest, Heads(rest, limit))
  }

  lemma FullPageProgress(all: seq<Status>, rest: seq<Status>, limit: nat, done: seq<Signature>, calls: nat,
                         first: NewestSoFar, newest: NewestSoFar)
    requires 1 <= limit <= |rest| && Progress(all, rest, limit, done, calls, first, newest)
    ensures Progress(all, rest[limit..], limit, done + Reverse(SignaturesOf(Take(rest, limit))), calls + 1,
                     first, Note(newest, rest[0]))
  {
    assert SignaturesOf(rest)[limit..] == SignaturesOf(rest[limit..]);
    assert SignaturesOf(rest)[..limit] == SignaturesOf(rest[..limit]);
    assert Heads(rest, limit) == [rest[0]] + Heads(rest[limit..], limit);
  }

  lemma LastPageProgress(all: seq<Status>, rest: seq<Status>, limit: nat, done: seq<Signature>, calls: nat,
                         first: NewestSoFar, newest: NewestSoFar)
    requires |rest| < limit && Progress(all, rest, limit, done, calls, first, newest)
    ensures PageOrder(SignaturesOf(all), limit) == done + Reverse(SignaturesOf(Take(rest, limit)))
    ensures Calls(|all|, limit) == calls + 1
    ensures NoteAll(first, Heads(all, limit)) == if rest == [] then newest else Note(newest, rest[0])
  {
    if rest != [] {
      assert Heads(rest, limit) == [rest[0]];
      assert NoteAll(newest, [rest[0]]) == NoteAll(Note(newest, rest[0]), []);
    }
  }

  lemma ProgressStarts(all: seq<Status>, limit: nat, first: NewestSoFar)
    requires limit >= 1 && first.Consistent()
    ensures Progress(all, all, limit, [], 0, first, first)
  {
  }

  lemma ProgressSoFar(all: seq<Status>, rest: seq<Status>, limit: nat, done: seq<Signature>, calls: nat,
                      first: NewestSoFar, newest: NewestSoFar)
    requires limit >= 1 && Progress(all, rest, limit, done, calls, first, newest)
    ensures newest.Consistent() && done <= PageOrder(SignaturesOf(all), limit)
  {
    hide PageOrder, Heads, NoteAll, Calls, SignaturesOf;
  }

  /** Between two calls the lower bound stays where it is. */
  lemma BoundStays(views: nat -> Chain, from: nat, i: nat, t1: Option<Signature>)
    requires Growing(views) && StableBound(views, from, t1) && from <= i
    ensures views(i) <= views(i + 1) && ValidChain(views(i + 1)) && LowerEnd(views(i), t1) == LowerEnd(views(i + 1), t1)
  {
  }

  lemma StillStable(views: nat -> Chain, from: nat, t1: Option<Signature>)
    requires StableBound(views, from, t1)
    ensures forall i :: from <= i ==> StableBound(views, i, t1)
  {
    hide Position;
  }

  /** The page loop over one address. */
  method ScanAddress(rpc: RpcClient, sink: Forwarding, t1: Option<Signature>, t2: Option<Signature>, a: Address,
                     limit: nat, acc: NewestSoFar)
    returns (r: Result<NewestSoFar>)
    requires limit >= 1 && Growing(rpc.views) && acc.Consistent() && sink.Consistent()
    requires StableBound(rpc.views, rpc.calls, t1)
    modifies rpc, sink
    ensures Called(rpc.unreachable, old(rpc.calls), rpc.calls, r.Ok?) && rpc.calls > old(rpc.calls)
    ensures old(sink.handed) <= sink.handed && sink.Consistent()
    ensures
      var all := History(rpc.views(old(rpc.calls)), a, t1, t2);
      if r.Ok? then
        && sink.handed == old(sink.handed) + PageOrder(SignaturesOf(all), limit)
        && rpc.calls == old(rpc.calls) + Calls(|all|, limit)
        && r.value.Consistent()
        && r.value == NoteAll(acc, Heads(all, limit))
      else sink.handed <= old(sink.handed) + PageOrder(SignaturesOf(all), limit)
  {
    hide PageOrder, Heads, NoteAll, Calls, History, Reverse, SignaturesOf, Forwarding.Consistent;
    hide Progress, Growing, StableBound, LowerEnd, ValidChain, Called;
    CalledNever(rpc.unreachable, rpc.calls);
    var newest := acc;
    var t2InLoop := t2;
    ghost var all := History(rpc.views(rpc.calls), a, t1, t2);
    ghost var rest, done := all, [];
    ProgressStarts(all, limit, acc);
    while true
      invariant rpc.calls >= old(rpc.calls) && Called(rpc.unreachable, old(rpc.calls), rpc.calls, true)
      invariant rest == History(rpc.views(rpc.calls), a, t1, t2InLoop)
      invariant sink.handed == old(sink.handed) + done && sink.Consistent()
      invariant Progress(all, rest, limit, done, rpc.calls - old(rpc.calls), acc, newest)
      decreases |rest|
    {
      ghost var view, before, calls := rpc.views(rpc.calls), t2InLoop, rpc.calls - old(rpc.calls);
      CalledOnce(rpc.unreachable, old(rpc.calls), rpc.calls);
      ProgressSoFar(all, rest, limit, done, calls, acc, newest);
      var result := Fetch(rpc, sink, t1, t2InLoop, a, limit);
      if result.Err? {
        PrefixKept(old(sink.handed), done, PageOrder(SignaturesOf(all), limit));
        return Err;
      }
      ghost var page := Reverse(SignaturesOf(Take(rest, limit)));
      Associate(old(sink.handed), done, page);
      match result.value {
        case Completed(head) =>
          LastPageProgress(all, rest, limit, done, calls, acc, newest);
          if head.Some? {
            newest := Note(newest, head.value);
          }
          return Ok(newest);
        case FetchAgain(newT2, head) =>
          t2InLoop := Some(newT2.signature);
          FullPageProgress(all, rest, limit, done, calls, acc, newest);
          BoundStays(rpc.views, old(rpc.calls), old(rpc.calls) + calls, t1);
          ResumeAfterPage(view, rpc.views(rpc.calls), a, t1, before, limit);
          newest := Note(newest, head.value);
          done := done + page;
          rest := rest[limit..];
      }
    }
  }

  /** The ledger the gas-service part of a scan first sees, when the scan starts with call `n`. */
  ghost function SecondView(views: nat -> Chain, n: nat, t1: Option<Signature>, t2: Option<Signature>, limit: nat): Chain
    requires limit >= 1
  {
    views(n + Calls(|History(views(n), Gateway, t1, t2)|, limit))
  }

  /** Everything a scan hands over, in order: the gateway part, then the gas-service part. */
  function ScanHanded(g: Chain, s: Chain, t1: Option<Signature>, t2: Option<Signature>, limit: nat): seq<Signature>
    requires limit >= 1
  {
    PageOrder(SignaturesOf(History(g, Gateway, t1, t2)), limit)
    + PageOrder(SignaturesOf(History(s, GasService, t1, t2)), limit)
  }

  /** Scans both addresses. On an RPC failure a prefix of the full hand-over has
      happened, and only of the gateway part while the second address was not asked. */
  method FetchBatchesInRange(rpc: RpcClient, sink: Forwarding, t1: Option<Signature>, t2: Option<Signature>, limit: nat)
    returns (r: Result<Option<Signature>>)
    requires limit >= 1 && Growing(rpc.views) && sink.Consistent()
    requires StableBound(rpc.views, rpc.calls, t1)
    modifies rpc, sink
    ensures Called(rpc.unreachable, old(rpc.calls), rpc.calls, r.Ok?) && rpc.calls > old(rpc.calls)
    ensures old(sink.handed) <= sink.handed && sink.Consistent()
    ensures
      var g := rpc.views(old(rpc.calls));
      var s := SecondView(rpc.views, old(rpc.calls), t1, t2, limit);
      var secondAsked := old(rpc.calls) + Calls(|History(g, Gateway, t1, t2)|, limit) <= rpc.calls;
      if r.Ok? then
        && secondAsked
        && sink.handed == old(sink.handed) + ScanHanded(g, s, t1, t2, limit)
        && r.value == ScanNewest(g, s, t1, t2, limit)
      else
        sink.handed <= old(sink.handed) + if secondAsked then ScanHanded(g, s, t1, t2, limit)
                                          else PageOrder(SignaturesOf(History(g, Gateway, t1, t2)), limit)
  {
    hide PageOrder, Heads, NoteAll, Calls, History, Reverse, SignaturesOf, Forwarding.Consistent;
    hide Growing, Called, StableBound;
    StillStable(rpc.views, rpc.calls, t1);
    var newest := NewestSoFar(t2, None);
    var gateway := ScanAddress(rpc, sink, t1, t2, Gateway, limit, newest);
    if gateway.Err? {
      return Err;
    }
    newest := gateway.value;
    ghost var middle := rpc.calls;
    var gasService := ScanAddress(rpc, sink, t1, t2, GasService, limit, newest);
    CalledOn(rpc.unreachable, old(rpc.calls), middle, rpc.calls, gasService.Ok?);
    if gasService.Err? {
      return Err;
    }
    newest := gasService.value;
    r := Ok(newest.signature);
  }
}
