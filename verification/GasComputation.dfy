/** Total gas of a transaction: its own fee, the shared verification cost of the
    sessions it consumes and the upload cost of the payload it executes. */
module GasComputation {
  import opened Basics
  import opened Ledger
  import opened BatchScanner

  const SESSION_KINDS: set<GatewayKind> := {InitializePayloadVerificationSession, VerifySignature}

  const PAYLOAD_KINDS: set<GatewayKind> :=
    {InitializeMessagePayload, WriteMessagePayload, CommitMessagePayload, CloseMessagePayload}

  // ---------------------------------------------------------------- specification

  predicate Counted(ix: Ix, kinds: set<GatewayKind>) {
    ix.GatewayIx? && ix.kind in kinds
  }

  function CountIn(ixs: seq<Ix>, kinds: set<GatewayKind>): nat {
    if ixs == [] then 0
    else CountIn(ixs[..|ixs| - 1], kinds) + if Counted(ixs[|ixs| - 1], kinds) then 1 else 0
  }

  /** What one fetched transaction adds: its fee once per counted instruction. */
  function FeeTimesCount(tx: Entry, kinds: set<GatewayKind>): nat {
    if tx.successful then tx.fee * CountIn(tx.ixs, kinds) else 0
  }

  function SumCounted(txs: seq<Entry>, kinds: set<GatewayKind>): nat {
    if txs == [] then 0
    else SumCounted(txs[..|txs| - 1], kinds) + FeeTimesCount(txs[|txs| - 1], kinds)
  }

  /** Every transaction of an address, newest first. */
  function AddressTxs(l: Chain, a: Address): seq<Entry> {
    var ps := Newest(l, a, 0, |l|);
    seq(|ps|, i requires 0 <= i < |ps| => l[ps[i]])
  }

  function CostOf(l: Chain, a: Address, kinds: set<GatewayKind>): u64 {
    Clamp(SumCounted(AddressTxs(l, a), kinds))
  }

  /** What an instruction of the inspected transaction adds to its total. */
  function Contribution(l: Chain, ix: Ix): (r: u64)
  {
    match ix
    case ApproveMessage(setSize, Some(session)) => DivOrZero(CostOf(l, session, SESSION_KINDS), setSize)
    case RotateSigners(Some(session)) => CostOf(l, session, SESSION_KINDS)
    case ExecutableIx(Some(payload)) => CostOf(l, payload, PAYLOAD_KINDS)
    case _ => 0
  }

  /** `seen[i]` is the ledger the i-th instruction's history was read from. */
  function SumContributions(seen: seq<Chain>, ixs: seq<Ix>): nat
    requires |seen| == |ixs|
  {
    if ixs == [] then 0
    else SumContributions(seen[..|ixs| - 1], ixs[..|ixs| - 1]) + Contribution(seen[|ixs| - 1], ixs[|ixs| - 1])
  }

  function TotalGas(seen: seq<Chain>, tx: Entry): u64
    requires |seen| == |tx.ixs|
  {
    Clamp(tx.fee + SumContributions(seen, tx.ixs))
  }

  // ---------------------------------------------------------------- order independence

  lemma {:induction false} SumCountedAppend(a: seq<Entry>, b: seq<Entry>, kinds: set<GatewayKind>)
    ensures SumCounted(a + b, kinds) == SumCounted(a, kinds) + SumCounted(b, kinds)
    decreases |b|
  {
    if b == [] {
      assert a + b == a;
    } else {
      assert (a + b)[..|a + b| - 1] == a + b[..|b| - 1];
      SumCountedAppend(a, b[..|b| - 1], kinds);
    }
  }

  /** The accumulated cost does not depend on the order in which fetches complete. */
  lemma {:induction false} SumCountedPermutation(a: seq<Entry>, b: seq<Entry>, kinds: set<GatewayKind>)
    requires multiset(a) == multiset(b)
    ensures SumCounted(a, kinds) == SumCounted(b, kinds)
    decreases |a|
  {
    if a == [] {
      assert b == [];
    } else {
      var x := a[|a| - 1];
      assert a == a[..|a| - 1] + [x];
      assert x in multiset(b);
      var i :| 0 <= i < |b| && b[i] == x;
      assert b == b[..i] + [x] + b[i + 1..];
      assert multiset(b[..i] + b[i + 1..]) == multiset(b) - multiset{x};
      assert multiset(a[..|a| - 1]) == multiset(a) - multiset{x};
      SumCountedPermutation(a[..|a| - 1], b[..i] + b[i + 1..], kinds);
      SumCountedAppend(b[..i], b[i + 1..], kinds);
      SumCountedAppend(b[..i] + [x], b[i + 1..], kinds);
      assert (b[..i] + [x])[..i] == b[..i];
    }
  }

  // ---------------------------------------------------------------- implementation

  lemma NothingLeft(taken: seq<Signature>, xs: seq<Status>)
    requires xs == []
    ensures taken + SignaturesOf(xs) == taken
  {
  }

  lemma TakePage(xs: seq<Status>, n: nat)
    requires n <= |xs|
    ensures SignaturesOf(xs) == SignaturesOf(xs[..n]) + SignaturesOf(xs[n..])
  {
  }

  /** Pages through an address's whole history until an empty page arrives. */
  method FetchSignatures(rpc: RpcClient, a: Address, limit: nat) returns (r: Result<seq<Signature>>)
    requires limit >= 1 && Growing(rpc.views)
    modifies rpc
    ensures Called(rpc.unreachable, old(rpc.calls), rpc.calls, r.Ok?)
    ensures r.Ok? ==> r.value == SignaturesOf(History(rpc.views(old(rpc.calls)), a, None, None))
  {
    hide SignaturesOf, History, Called;
    CalledNever(rpc.unreachable, rpc.calls);
    ghost var all := History(rpc.views(rpc.calls), a, None, None);
    ghost var rest := all;
    var signatures := [];
    var before: Option<Signature> := None;
    assert [] + SignaturesOf(all) == SignaturesOf(all);
    while true
      invariant rpc.calls >= old(rpc.calls) && Called(rpc.unreachable, old(rpc.calls), rpc.calls, true)
      invariant rest == History(rpc.views(rpc.calls), a, None, before)
      invariant signatures + SignaturesOf(rest) == SignaturesOf(all)
      decreases |rest|
    {
      ghost var view, bound := rpc.views(rpc.calls), before;
      CalledOnce(rpc.unreachable, old(rpc.calls), rpc.calls);
      var answer := rpc.GetSignaturesForAddress(a, before, None, limit);
      if answer.Err? {
        return Err;
      }
      var page := answer.value;
      if |page| == 0 {
        NothingLeft(signatures, rest);
        return Ok(signatures);
      }
      before := Some(page[|page| - 1].signature);
      ResumeAfterPage(view, rpc.views(rpc.calls), a, None, bound, |page|);
      TakePage(rest, |page|);
      assert page == rest[..|page|];
      Associate(signatures, SignaturesOf(page), SignaturesOf(rest[|page|..]));
      signatures := signatures + SignaturesOf(page);
      rest := rest[|page|..];
    }
  }

  lemma MulOneMore(fee: nat, n: nat)
    ensures fee * (n + 1) == fee * n + fee && fee * 0 == 0
  {
  }

  /** The loop shared by the verification and the upload cost. */
  method AccumulateCost(txs: seq<Entry>, kinds: set<GatewayKind>) returns (cost: u64)
    ensures cost == Clamp(SumCounted(txs, kinds))
  {
    cost := 0;
    for i := 0 to |txs|
      invariant cost == Clamp(SumCounted(txs[..i], kinds))
    {
      var tx := txs[i];
      ghost var before := SumCounted(txs[..i], kinds);
      assert txs[..i + 1][..i] == txs[..i];
      if tx.successful {
        for j := 0 to |tx.ixs|
          invariant cost == Clamp(before + tx.fee * CountIn(tx.ixs[..j], kinds))
        {
          assert tx.ixs[..j + 1][..j] == tx.ixs[..j];
          MulOneMore(tx.fee, CountIn(tx.ixs[..j], kinds));
          if Counted(tx.ixs[j], kinds) {
            cost := SaturatingAdd(cost, tx.fee);
          }
        }
        assert tx.ixs[..|tx.ixs|] == tx.ixs;
      }
    }
    assert txs[..|txs|] == txs;
  }

  /** The fetched transaction behind a signature. */
  function Lookup(l: Chain, s: Signature): Option<Entry> {
    match Position(l, s) case None => None case Some(i) => Some(l[i])
  }

  function Lookups(l: Chain, ss: seq<Signature>): (r: seq<Entry>)
    requires forall i :: 0 <= i < |ss| ==> Lookup(l, ss[i]).Some?
    ensures |r| == |ss| && forall i :: 0 <= i < |r| ==> r[i] == Lookup(l, ss[i]).value
  {
    seq(|ss|, i requires 0 <= i < |ss| => Lookup(l, ss[i]).value)
  }

  lemma TakeOne(l: Chain, ss: seq<Signature>, i: nat)
    requires i < |ss| && forall j :: 0 <= j < |ss| ==> Lookup(l, ss[j]).Some?
    ensures
      var rest := RemoveAt(ss, i);
      && (forall j :: 0 <= j < |rest| ==> Lookup(l, rest[j]).Some?)
      && multiset(Lookups(l, ss)) == multiset(Lookups(l, rest)) + multiset{Lookup(l, ss[i]).value}
      && (forall s :: s in ss <==> s in rest || s == ss[i])
  {
    var rest := RemoveAt(ss, i);
    var xs := Lookups(l, ss);
    assert ss == ss[..i] + [ss[i]] + ss[i + 1..];
    assert xs == xs[..i] + [xs[i]] + xs[i + 1..];
    assert Lookups(l, rest) == xs[..i] + xs[i + 1..];
  }

  /** Fetches all transactions concurrently and collects them in completion order;
      the first failed fetch fails the whole. */
  method FetchAll(l: Chain, signatures: seq<Signature>, unreachable: Signature -> bool) returns (r: Result<seq<Entry>>)
    requires forall i :: 0 <= i < |signatures| ==> Lookup(l, signatures[i]).Some?
    ensures r.Ok? ==> multiset(r.value) == multiset(Lookups(l, signatures))
    ensures r.Ok? <==> forall s :: s in signatures ==> !unreachable(s)
  {
    var pending := signatures;
    var txs: seq<Entry> := [];
    while pending != []
      invariant forall i :: 0 <= i < |pending| ==> Lookup(l, pending[i]).Some?
      invariant forall s :: s in pending ==> s in signatures
      invariant forall s :: s in signatures ==> s in pending || !unreachable(s)
      invariant multiset(txs) + multiset(Lookups(l, pending)) == multiset(Lookups(l, signatures))
      decreases |pending|
    {
      var i: nat :| i < |pending|;
      var s := pending[i];
      if unreachable(s) {
        return Err;
      }
      TakeOne(l, pending, i);
      txs := txs + [Lookup(l, s).value];
      pending := RemoveAt(pending, i);
    }
    r := Ok(txs);
  }

  /** The signatures of an address's history lead back to its transactions. */
  lemma LookupsOfHistory(l: Chain, a: Address)
    requires ValidChain(l)
    ensures
      var ss := SignaturesOf(History(l, a, None, None));
      && (forall i :: 0 <= i < |ss| ==> Lookup(l, ss[i]).Some?)
      && Lookups(l, ss) == AddressTxs(l, a)
  {
    var ps := Newest(l, a, 0, |l|);
    var ss := SignaturesOf(History(l, a, None, None));
    forall i | 0 <= i < |ss|
      ensures Lookup(l, ss[i]) == Some(l[ps[i]])
    {
      PositionOfEntry(l, ps[i]);
    }
  }

  /** The calls in [from, to) failed at the end, or some transaction cannot be fetched. */
  ghost predicate Disturbed(calls: nat -> bool, from: nat, to: nat, unreachable: Signature -> bool) {
    Called(calls, from, to, false) || exists s :: unreachable(s)
  }

  lemma DisturbedOn(calls: nat -> bool, from: nat, middle: nat, to: nat, unreachable: Signature -> bool)
    requires Called(calls, from, middle, true)
    ensures Called(calls, middle, to, true) ==> Called(calls, from, to, true)
    ensures Disturbed(calls, middle, to, unreachable) ==> Disturbed(calls, from, to, unreachable)
  {
  }

  /** The cost of an address's counted instructions: list the history, fetch it all,
      add up. Transactions are looked up on the ledger the first page was read from. */
  method CostOfAddress(rpc: RpcClient, unreachable: Signature -> bool, a: Address, kinds: set<GatewayKind>, limit: nat)
    returns (r: Result<u64>)
    requires limit >= 1 && Growing(rpc.views)
    modifies rpc
    ensures rpc.calls >= old(rpc.calls)
    ensures if r.Ok? then Called(rpc.unreachable, old(rpc.calls), rpc.calls, true)
            else Disturbed(rpc.unreachable, old(rpc.calls), rpc.calls, unreachable)
    ensures r.Ok? ==> r.value == CostOf(rpc.views(old(rpc.calls)), a, kinds)
  {
    ghost var view := rpc.views(rpc.calls);
    var l := rpc.views(rpc.calls);
    var signatures := FetchSignatures(rpc, a, limit);
    if signatures.Err? {
      return Err;
    }
    LookupsOfHistory(l, a);
    var txs := FetchAll(l, signatures.value, unreachable);
    if txs.Err? {
      return Err;
    }
    SumCountedPermutation(txs.value, AddressTxs(l, a), kinds);
    var cost := AccumulateCost(txs.value, kinds);
    r := Ok(cost);
  }

  /** What one instruction adds. Instructions whose account list is too short, and every
      other kind of instruction, are skipped. */
  method CostOfInstruction(rpc: RpcClient, unreachable: Signature -> bool, ix: Ix, limit: nat) returns (r: Result<u64>)
    requires limit >= 1 && Growing(rpc.views)
    modifies rpc
    ensures rpc.calls >= old(rpc.calls)
    ensures if r.Ok? then Called(rpc.unreachable, old(rpc.calls), rpc.calls, true)
            else Disturbed(rpc.unreachable, old(rpc.calls), rpc.calls, unreachable)
    ensures r.Ok? ==> r.value == Contribution(rpc.views(old(rpc.calls)), ix)
  {
    match ix {
      case ApproveMessage(setSize, Some(session)) =>
        r := CostOfAddress(rpc, unreachable, session, SESSION_KINDS, limit);
        if r.Ok? {
          // spread over the messages of the batch
          r := Ok(DivOrZero(r.value, setSize));
        }
      case RotateSigners(Some(session)) =>
        r := CostOfAddress(rpc, unreachable, session, SESSION_KINDS, limit);
      case ExecutableIx(Some(payload)) =>
        r := CostOfAddress(rpc, unreachable, payload, PAYLOAD_KINDS, limit);
      case _ => r := Ok(0);
    }
  }

  /** `c` is the ledger that some call between `from` and `to` saw. */
  ghost predicate SeenIn(views: nat -> Chain, c: Chain, from: nat, to: nat) {
    exists call: nat :: from <= call <= to && c == views(call)
  }

  ghost predicate SeenBetween(views: nat -> Chain, seen: seq<Chain>, from: nat, to: nat) {
    forall i :: 0 <= i < |seen| ==> SeenIn(views, seen[i], from, to)
  }

  lemma NothingSeen(views: nat -> Chain, n: nat)
    ensures SumContributions([], []) == 0 && SeenBetween(views, [], n, n)
  {
  }

  lemma SeenWider(views: nat -> Chain, seen: seq<Chain>, from: nat, to: nat, from': nat, to': nat)
    requires SeenBetween(views, seen, from, to) && from' <= from && to <= to'
    ensures SeenBetween(views, seen, from', to')
  {
    forall i | 0 <= i < |seen|
      ensures SeenIn(views, seen[i], from', to')
    {
      assert SeenIn(views, seen[i], from, to);
    }
  }

  lemma SeenLonger(views: nat -> Chain, seen: seq<Chain>, from: nat, middle: nat, to: nat)
    requires SeenBetween(views, seen, from, middle) && from <= middle <= to
    ensures SeenBetween(views, seen, from, to) && SeenBetween(views, seen + [views(middle)], from, to)
  {
    SeenWider(views, seen, from, middle, from, to);
    assert SeenIn(views, views(middle), from, to);
  }

  lemma OneMoreIx(seen: seq<Chain>, ixs: seq<Ix>, i: nat, view: Chain)
    requires |seen| == i < |ixs|
    ensures SumContributions(seen + [view], ixs[..i + 1]) == SumContributions(seen, ixs[..i]) + Contribution(view, ixs[i])
  {
    assert (seen + [view])[..i] == seen && ixs[..i + 1][..i] == ixs[..i];
  }

  method ComputeTotalGas(rpc: RpcClient, unreachable: Signature -> bool, tx: Entry, limit: nat)
    returns (r: Result<u64>, ghost seen: seq<Chain>)
    requires limit >= 1 && Growing(rpc.views)
    modifies rpc
    ensures rpc.calls >= old(rpc.calls)
    ensures if r.Ok? then Called(rpc.unreachable, old(rpc.calls), rpc.calls, true)
            else Disturbed(rpc.unreachable, old(rpc.calls), rpc.calls, unreachable)
    ensures r.Ok? ==> |seen| == |tx.ixs| && r.value == TotalGas(seen, tx)
    ensures SeenBetween(rpc.views, seen, old(rpc.calls), rpc.calls)
  {
    hide Contribution, SumContributions, Growing, Called, Disturbed, SeenBetween, SaturatingAdd, Clamp;
    CalledNever(rpc.unreachable, rpc.calls);
    NothingSeen(rpc.views, rpc.calls);
    ClampSmall(tx.fee);
    var total := tx.fee;
    seen := [];
    for i := 0 to |tx.ixs|
      invariant rpc.calls >= old(rpc.calls) && |seen| == i
      invariant Called(rpc.unreachable, old(rpc.calls), rpc.calls, true)
      invariant total == Clamp(tx.fee + SumContributions(seen, tx.ixs[..i]))
      invariant SeenBetween(rpc.views, seen, old(rpc.calls), rpc.calls)
    {
      ghost var view, middle := rpc.views(rpc.calls), rpc.calls;
      OneMoreIx(seen, tx.ixs, i, view);
      var cost := CostOfInstruction(rpc, unreachable, tx.ixs[i], limit);
      SeenLonger(rpc.views, seen, old(rpc.calls), middle, rpc.calls);
      DisturbedOn(rpc.unreachable, old(rpc.calls), middle, rpc.calls, unreachable);
      if cost.Err? {
        return Err, seen;
      }
      ClampAdds(tx.fee + SumContributions(seen, tx.ixs[..i]), cost.value);
      total := SaturatingAdd(total, cost.value);
      seen := seen + [view];
    }
    assert tx.ixs[..|tx.ixs|] == tx.ixs;
    r := Ok(total);
  }

  lemma SeenStill(views: nat -> Chain, seens: seq<seq<Chain>>, from: nat, middle: nat, to: nat)
    requires middle <= to && forall k :: 0 <= k < |seens| ==> SeenBetween(views, seens[k], from, middle)
    ensures forall k :: 0 <= k < |seens| ==> SeenBetween(views, seens[k], from, to)
  {
    hide SeenBetween;
    forall k | 0 <= k < |seens|
      ensures SeenBetween(views, seens[k], from, to)
    {
      SeenWider(views, seens[k], from, middle, from, to);
    }
  }
}
