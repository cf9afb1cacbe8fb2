/** What the gas accounting reports compared with what was spent. */
module GasProperties {
  import opened Basics
  import opened Ledger
  import opened BatchScanner
  import opened GasComputation
  import opened EventForwarder

  // ---------------------------------------------------------------- fee per instruction or per transaction

  /** What the counted transactions really cost: each fee once. */
  function SpentOnce(txs: seq<Entry>, kinds: set<GatewayKind>): nat {
    if txs == [] then 0
    else
      var tx := txs[|txs| - 1];
      SpentOnce(txs[..|txs| - 1], kinds) + if tx.successful && CountIn(tx.ixs, kinds) > 0 then tx.fee else 0
  }

  predicate AtMostOneCounted(tx: Entry, kinds: set<GatewayKind>) {
    tx.successful && tx.fee > 0 ==> CountIn(tx.ixs, kinds) <= 1
  }

  lemma FeeOnceOrMore(tx: Entry, kinds: set<GatewayKind>)
    ensures
      var once := if tx.successful && CountIn(tx.ixs, kinds) > 0 then tx.fee else 0;
      FeeTimesCount(tx, kinds) >= once && (FeeTimesCount(tx, kinds) == once <==> AtMostOneCounted(tx, kinds))
  {
    var n := CountIn(tx.ixs, kinds);
    if n >= 2 {
      MulMonotone(tx.fee, 2, tx.fee, n);
    }
  }

  /** The accumulated cost is at least what was spent, and equal to it if and only if no
      successful transaction with a fee carries two counted instructions. */
  lemma {:induction false} CostIsSpentIff(txs: seq<Entry>, kinds: set<GatewayKind>)
    ensures SumCounted(txs, kinds) >= SpentOnce(txs, kinds)
    ensures SumCounted(txs, kinds) == SpentOnce(txs, kinds)
       <==> forall i :: 0 <= i < |txs| ==> AtMostOneCounted(txs[i], kinds)
  {
    if txs == [] {
    } else {
      var n := |txs| - 1;
      var tx := txs[n];
      CostIsSpentIff(txs[..n], kinds);
      FeeOnceOrMore(tx, kinds);
      assert (forall i :: 0 <= i < |txs| ==> AtMostOneCounted(txs[i], kinds))
        <==> AtMostOneCounted(tx, kinds) && forall i :: 0 <= i < |txs[..n]| ==> AtMostOneCounted(txs[..n][i], kinds);
    }
  }

  // ---------------------------------------------------------------- execute transactions

  /** The position-wise sum behind `SpentOnce`, with one transaction's fee included unconditionally. */
  function SpentIncluding(l: Chain, ps: seq<nat>, kinds: set<GatewayKind>, i: nat): nat
    requires Below(ps, |l|)
  {
    if ps == [] then 0
    else
      var p := ps[|ps| - 1];
      SpentIncluding(l, ps[..|ps| - 1], kinds, i)
      + if p == i || (l[p].successful && CountIn(l[p].ixs, kinds) > 0) then l[p].fee else 0
  }

  function EntriesAt(l: Chain, ps: seq<nat>): seq<Entry>
    requires Below(ps, |l|)
  {
    seq(|ps|, k requires 0 <= k < |ps| => l[ps[k]])
  }

  /** Including a successful transaction adds its fee exactly if it was not counted anyway. */
  lemma {:induction false} IncludingAddsFee(l: Chain, ps: seq<nat>, kinds: set<GatewayKind>, i: nat)
    requires Below(ps, |l|) && i < |l| && l[i].successful
    requires forall j, k :: 0 <= j < k < |ps| ==> ps[k] != ps[j]
    ensures SpentIncluding(l, ps, kinds, i)
         == SpentOnce(EntriesAt(l, ps), kinds) + if i in ps && CountIn(l[i].ixs, kinds) == 0 then l[i].fee else 0
  {
    if ps == [] {
    } else {
      var n := |ps| - 1;
      IncludingAddsFee(l, ps[..n], kinds, i);
      assert EntriesAt(l, ps)[..n] == EntriesAt(l, ps[..n]);
      assert ps == ps[..n] + [ps[n]];
    }
  }

  /** Skipped by the accounting: instructions of other kinds, and those with too few accounts. */
  predicate Silent(ix: Ix) {
    match ix
    case ApproveMessage(_, session) => session.None?
    case RotateSigners(session) => session.None?
    case ExecutableIx(payload) => payload.None?
    case _ => true
  }

  /** `ix` is one of the instructions, and all the others are skipped. */
  predicate OnlyOne(ixs: seq<Ix>, ix: Ix, k: nat) {
    && k < |ixs| && ixs[k] == ix
    && forall j :: 0 <= j < |ixs| && j != k ==> Silent(ixs[j])
  }

  lemma {:induction false} SilentContributeNothing(seen: seq<Chain>, ixs: seq<Ix>)
    requires |seen| == |ixs| && forall j :: 0 <= j < |ixs| ==> Silent(ixs[j])
    ensures SumContributions(seen, ixs) == 0
  {
    if ixs == [] {
    } else {
      SilentContributeNothing(seen[..|ixs| - 1], ixs[..|ixs| - 1]);
    }
  }

  lemma {:induction false} OneContributes(seen: seq<Chain>, ixs: seq<Ix>, k: nat)
    requires |seen| == |ixs| && k < |ixs| && OnlyOne(ixs, ixs[k], k)
    ensures SumContributions(seen, ixs) == Contribution(seen[k], ixs[k])
  {
    hide Contribution;
    var n := |ixs| - 1;
    if k == n {
      SilentContributeNothing(seen[..n], ixs[..n]);
    } else {
      OneContributes(seen[..n], ixs[..n], k);
      SilentContributeNothing([seen[n]], [ixs[n]]);
    }
  }

  /** Fees counted on the payload account, and the executing transaction's own on top
      unless it is among them. */
  lemma PayloadSpending(l: Chain, i: nat, payload: Address)
    requires i < |l| && l[i].successful && payload in l[i].mentions
    requires forall p :: 0 <= p < |l| && payload in l[p].mentions ==> CountIn(l[p].ixs, PAYLOAD_KINDS) <= 1
    ensures SpentIncluding(l, Newest(l, payload, 0, |l|), PAYLOAD_KINDS, i)
         == SumCounted(AddressTxs(l, payload), PAYLOAD_KINDS)
            + if CountIn(l[i].ixs, PAYLOAD_KINDS) == 0 then l[i].fee else 0
  {
    var ps := Newest(l, payload, 0, |l|);
    var txs := AddressTxs(l, payload);
    assert EntriesAt(l, ps) == txs;
    forall j | 0 <= j < |txs|
      ensures AtMostOneCounted(txs[j], PAYLOAD_KINDS)
    {
      NewestComplete(l, payload, 0, |l|, ps[j]);
    }
    CostIsSpentIff(txs, PAYLOAD_KINDS);
    forall a, b | 0 <= a < b < |ps|
      ensures ps[b] != ps[a]
    {
      NewestDescends(l, payload, 0, |l|, a, b);
    }
    NewestComplete(l, payload, 0, |l|, i);
    IncludingAddsFee(l, ps, PAYLOAD_KINDS, i);
  }

  /** For a landed execute transaction the reported total is what was spent on the
      payload account if and only if the transaction is free or carries no payload
      instruction itself. The relayer bundles the close instruction into it, and then
      its fee is reported twice. */
  lemma ExecuteTotalExactIff(l: Chain, i: nat, payload: Address, k: nat)
    requires ValidChain(l) && i < |l| && l[i].successful && payload in l[i].mentions
    requires OnlyOne(l[i].ixs, ExecutableIx(Some(payload)), k)
    requires forall p :: 0 <= p < |l| && payload in l[p].mentions ==> CountIn(l[p].ixs, PAYLOAD_KINDS) <= 1
    requires l[i].fee + SumCounted(AddressTxs(l, payload), PAYLOAD_KINDS) <= U64_MAX
    ensures
      var ps := Newest(l, payload, 0, |l|);
      var reported := TotalGas(seq(|l[i].ixs|, _ => l), l[i]);
      var spent := SpentIncluding(l, ps, PAYLOAD_KINDS, i);
      && reported == spent + l[i].fee * CountIn(l[i].ixs, PAYLOAD_KINDS)
      && (reported == spent <==> l[i].fee == 0 || CountIn(l[i].ixs, PAYLOAD_KINDS) == 0)
  {
    hide ValidChain, Newest;
    var n := CountIn(l[i].ixs, PAYLOAD_KINDS);
    var sum := SumCounted(AddressTxs(l, payload), PAYLOAD_KINDS);
    OneContributes(seq(|l[i].ixs|, _ => l), l[i].ixs, k);
    assert TotalGas(seq(|l[i].ixs|, _ => l), l[i]) == l[i].fee + sum;
    PayloadSpending(l, i, payload);
    assert n == 0 || n == 1;
    MulOneMore(l[i].fee, 0);
  }

  /** One transaction that executes a message and closes its payload account. */
  function ExecuteAndClose(): Chain {
    [Entry(0, 0, {Pda(0)}, true, 5000, [ExecutableIx(Some(Pda(0))), GatewayIx(CloseMessagePayload)])]
  }

  /** Its fee of 5000 is reported as 10000. */
  lemma ExecuteFeeCountedTwice()
    ensures
      var l := ExecuteAndClose();
      && TotalGas(seq(|l[0].ixs|, _ => l), l[0]) == 10000
      && SpentIncluding(l, Newest(l, Pda(0), 0, |l|), PAYLOAD_KINDS, 0) == 5000
  {
    hide TotalGas;
    var l := ExecuteAndClose();
    var ixs := l[0].ixs;
    assert ixs[..1][..0] == [] && ixs[..2] == ixs;
    assert CountIn(ixs[..1], PAYLOAD_KINDS) == CountIn([], PAYLOAD_KINDS) == 0;
    assert Counted(ixs[1], PAYLOAD_KINDS) && ixs[..|ixs| - 1] == ixs[..1];
    assert CountIn(ixs, PAYLOAD_KINDS) == 1;
    assert Newest(l, Pda(0), 0, 1) == [0];
    assert AddressTxs(l, Pda(0)) == [l[0]] && [l[0]][..0] == [];
    assert SumCounted([l[0]], PAYLOAD_KINDS) == 5000;
    ExecuteTotalExactIff(l, 0, Pda(0), 0);
    assert [0][..0] == [];
  }

  // ---------------------------------------------------------------- growth

  lemma NewestEntry(l: Chain, ps: seq<nat>, p: nat)
    requires Below(ps, |l|) && p < |l|
    ensures Below([p] + ps, |l|) && EntriesAt(l, [p] + ps) == [l[p]] + EntriesAt(l, ps)
  {
  }

  /** The cost of an address only grows with the ledger. */
  lemma {:induction false} SumGrows(l: Chain, l': Chain, a: Address, kinds: set<GatewayKind>, hi: nat)
    requires l <= l' && |l| <= hi <= |l'|
    ensures SumCounted(AddressTxs(l, a), kinds) <= SumCounted(EntriesAt(l', Newest(l', a, 0, hi)), kinds)
    decreases hi
  {
    hide SumCounted;
    if hi == |l| {
      NewestStable(l, l', a, 0, hi);
      assert EntriesAt(l', Newest(l', a, 0, hi)) == AddressTxs(l, a);
    } else {
      SumGrows(l, l', a, kinds, hi - 1);
      var ps := Newest(l', a, 0, hi - 1);
      if a in l'[hi - 1].mentions {
        NewestEntry(l', ps, hi - 1);
        SumCountedAppend([l'[hi - 1]], EntriesAt(l', ps), kinds);
      }
    }
  }

  lemma AllEntries(l: Chain, a: Address)
    ensures EntriesAt(l, Newest(l, a, 0, |l|)) == AddressTxs(l, a)
  {
  }

  lemma CostGrows(l: Chain, l': Chain, a: Address, kinds: set<GatewayKind>)
    requires l <= l'
    ensures CostOf(l, a, kinds) <= CostOf(l', a, kinds)
  {
    SumGrows(l, l', a, kinds, |l'|);
    AllEntries(l', a);
  }

  // ---------------------------------------------------------------- rotations

  /** The total of a transaction that rotates the signers: its fee and the whole cost of
      the verification session, as the ledger was when that was read. */
  lemma RotationTotal(seen: seq<Chain>, tx: Entry, session: Address, k: nat)
    requires |seen| == |tx.ixs| && OnlyOne(tx.ixs, RotateSigners(Some(session)), k)
    ensures TotalGas(seen, tx) == Clamp(tx.fee + SumCounted(AddressTxs(seen[k], session), SESSION_KINDS))
  {
    hide SumCounted, AddressTxs;
    OneContributes(seen, tx.ixs, k);
  }

  /** Unless it saturates, that is what was spent if and only if no paid transaction of
      the session carries two counted instructions. On a ledger that has grown since, it
      is at most what was spent by then. */
  lemma RotationTotalExactIff(seen: seq<Chain>, tx: Entry, session: Address, k: nat, final: Chain)
    requires |seen| == |tx.ixs| && OnlyOne(tx.ixs, RotateSigners(Some(session)), k) && seen[k] <= final
    ensures
      var txs := AddressTxs(seen[k], session);
      tx.fee + SumCounted(txs, SESSION_KINDS) <= U64_MAX ==>
        (TotalGas(seen, tx) == tx.fee + SpentOnce(txs, SESSION_KINDS)
         <==> forall i :: 0 <= i < |txs| ==> AtMostOneCounted(txs[i], SESSION_KINDS))
    ensures
      var txs := AddressTxs(final, session);
      && TotalGas(seen, tx) <= Clamp(tx.fee + SumCounted(txs, SESSION_KINDS))
      && ((forall i :: 0 <= i < |txs| ==> AtMostOneCounted(txs[i], SESSION_KINDS)) ==>
            TotalGas(seen, tx) <= tx.fee + SpentOnce(txs, SESSION_KINDS))
  {
    hide TotalGas, SumCounted, AddressTxs, AtMostOneCounted;
    RotationTotal(seen, tx, session, k);
    CostIsSpentIff(AddressTxs(seen[k], session), SESSION_KINDS);
    CostIsSpentIff(AddressTxs(final, session), SESSION_KINDS);
    SumGrows(seen[k], final, session, SESSION_KINDS, |final|);
    AllEntries(final, session);
  }

  /** What the gas computation answers for a rotation. */
  method RotationGas(rpc: RpcClient, unreachable: Signature -> bool, tx: Entry, limit: nat, session: Address, k: nat)
    returns (r: Result<u64>)
    requires limit >= 1 && Growing(rpc.views) && OnlyOne(tx.ixs, RotateSigners(Some(session)), k)
    modifies rpc
    ensures r.Err? ==> Disturbed(rpc.unreachable, old(rpc.calls), rpc.calls, unreachable)
    ensures r.Ok? && (forall i, j :: rpc.views(i) == rpc.views(j)) ==>
      r.value == Clamp(tx.fee + SumCounted(AddressTxs(rpc.views(0), session), SESSION_KINDS))
    ensures r.Ok? ==>
      var spent := AddressTxs(rpc.views(rpc.calls), session);
      && r.value <= Clamp(tx.fee + SumCounted(spent, SESSION_KINDS))
      && ((forall i :: 0 <= i < |spent| ==> AtMostOneCounted(spent[i], SESSION_KINDS)) ==>
            r.value <= tx.fee + SpentOnce(spent, SESSION_KINDS))
  {
    hide TotalGas, SumCounted, AddressTxs, AtMostOneCounted, Disturbed, Called;
    ghost var seen;
    r, seen := ComputeTotalGas(rpc, unreachable, tx, limit);
    if r.Ok? {
      assert SeenIn(rpc.views, seen[k], old(rpc.calls), rpc.calls);
      RotationTotal(seen, tx, session, k);
      RotationTotalExactIff(seen, tx, session, k, rpc.views(rpc.calls));
    }
  }

  // ---------------------------------------------------------------- whole sessions and uploads

  function SumMessageFees(messages: seq<Entry>): nat {
    if messages == [] then 0 else SumMessageFees(messages[1..]) + messages[0].fee
  }

  /** A successful transaction with one gateway instruction. */
  predicate Carries(tx: Entry, kind: GatewayKind) {
    tx.successful && tx.ixs == [GatewayIx(kind)]
  }

  /** What a session consists of: initialisations and verifications. */
  predicate SessionTxs(txs: seq<Entry>) {
    forall i :: 0 <= i < |txs| ==>
      Carries(txs[i], InitializePayloadVerificationSession) || Carries(txs[i], VerifySignature)
  }

  /** What an upload consists of: initialisations, writes, commits and closures. */
  predicate UploadTxs(txs: seq<Entry>) {
    forall i :: 0 <= i < |txs| ==>
      || Carries(txs[i], InitializeMessagePayload) || Carries(txs[i], WriteMessagePayload)
      || Carries(txs[i], CommitMessagePayload) || Carries(txs[i], CloseMessagePayload)
  }

  lemma {:induction false} OneEach(txs: seq<Entry>, kinds: set<GatewayKind>)
    requires forall i :: 0 <= i < |txs| ==> txs[i].successful && CountIn(txs[i].ixs, kinds) == 1
    ensures SumCounted(txs, kinds) == SumMessageFees(txs)
    decreases |txs|
  {
    if txs == [] {
    } else {
      OneEach(txs[1..], kinds);
      assert txs == [txs[0]] + txs[1..] && [txs[0]][..0] == [];
      SumCountedAppend([txs[0]], txs[1..], kinds);
      MulOneMore(txs[0].fee, 0);
    }
  }

  /** No successful transaction has an instruction of these kinds. */
  predicate Without(txs: seq<Entry>, kinds: set<GatewayKind>) {
    forall i, j :: 0 <= i < |txs| && 0 <= j < |txs[i].ixs| && txs[i].successful && txs[i].ixs[j].GatewayIx? ==>
      txs[i].ixs[j].kind !in kinds
  }

  lemma {:induction false} CountNone(ixs: seq<Ix>, kinds: set<GatewayKind>)
    requires forall j :: 0 <= j < |ixs| && ixs[j].GatewayIx? ==> ixs[j].kind !in kinds
    ensures CountIn(ixs, kinds) == 0
  {
    if ixs == [] {
    } else {
      CountNone(ixs[..|ixs| - 1], kinds);
    }
  }

  lemma {:induction false} NoneCounted(txs: seq<Entry>, kinds: set<GatewayKind>)
    requires Without(txs, kinds)
    ensures SumCounted(txs, kinds) == 0
  {
    if txs == [] {
    } else {
      var n := |txs| - 1;
      NoneCounted(txs[..n], kinds);
      if txs[n].successful {
        CountNone(txs[n].ixs, kinds);
      }
    }
  }

  lemma CountOne(kind: GatewayKind, kinds: set<GatewayKind>)
    ensures CountIn([GatewayIx(kind)], kinds) == if kind in kinds then 1 else 0
  {
    assert [GatewayIx(kind)][..0] == [];
  }

  lemma CostOfParts(l: Chain, a: Address, txs: seq<Entry>, others: seq<Entry>, kinds: set<GatewayKind>)
    requires multiset(AddressTxs(l, a)) == multiset(txs + others) && Without(others, kinds)
    requires forall i :: 0 <= i < |txs| ==> txs[i].successful && CountIn(txs[i].ixs, kinds) == 1
    ensures CostOf(l, a, kinds) == Clamp(SumMessageFees(txs))
  {
    SumCountedPermutation(AddressTxs(l, a), txs + others, kinds);
    SumCountedAppend(txs, others, kinds);
    OneEach(txs, kinds);
    NoneCounted(others, kinds);
  }

  /** A verification session costs the fees of its transactions, however many and in
      whatever order, and whatever else touches its account. */
  lemma WholeSessionCost(l: Chain, session: Address, txs: seq<Entry>, others: seq<Entry>)
    requires multiset(AddressTxs(l, session)) == multiset(txs + others) && SessionTxs(txs)
    requires Without(others, {InitializePayloadVerificationSession, VerifySignature})
    ensures CostOf(l, session, SESSION_KINDS) == Clamp(SumMessageFees(txs))
  {
    CountOne(InitializePayloadVerificationSession, SESSION_KINDS);
    CountOne(VerifySignature, SESSION_KINDS);
    CostOfParts(l, session, txs, others, SESSION_KINDS);
  }

  /** And so does the upload of a payload. */
  lemma WholeUploadCost(l: Chain, payload: Address, txs: seq<Entry>, others: seq<Entry>)
    requires multiset(AddressTxs(l, payload)) == multiset(txs + others) && UploadTxs(txs)
    requires Without(others, {InitializeMessagePayload, WriteMessagePayload, CommitMessagePayload, CloseMessagePayload})
    ensures CostOf(l, payload, PAYLOAD_KINDS) == Clamp(SumMessageFees(txs))
  {
    CountOne(InitializeMessagePayload, PAYLOAD_KINDS);
    CountOne(WriteMessagePayload, PAYLOAD_KINDS);
    CountOne(CommitMessagePayload, PAYLOAD_KINDS);
    CountOne(CloseMessagePayload, PAYLOAD_KINDS);
    CostOfParts(l, payload, txs, others, PAYLOAD_KINDS);
  }

  // ---------------------------------------------------------------- one batch of messages

  /** One approval transaction of the batch as the forwarder handles it. */
  datatype Handled = Handled(tx: Entry, seen: seq<Chain>, events: seq<CoreEvent>)

  type Approval = a: Handled | |a.seen| == |a.tx.ixs| witness Handled(Entry(0, 0, {}, true, 0, []), [], [])

  /** The transaction's instructions either approve one of the batch's `m` messages under
      `session`, or contribute nothing. */
  predicate ApprovesOnly(ixs: seq<Ix>, session: Address, m: nat) {
    forall i :: 0 <= i < |ixs| ==>
      ixs[i] == ApproveMessage(m, Some(session)) || Silent(ixs[i])
  }

  function Approvals(ixs: seq<Ix>): nat {
    if ixs == [] then 0 else Approvals(ixs[..|ixs| - 1]) + if Silent(ixs[|ixs| - 1]) then 0 else 1
  }

  ghost predicate WellSeen(a: Approval, final: Chain, session: Address, m: nat) {
    && ApprovesOnly(a.tx.ixs, session, m)
    && forall i :: 0 <= i < |a.seen| ==> a.seen[i] <= final
  }

  function Reported(a: Approval): nat {
    TotalReported(MapCoreEvents(a.events, TotalGas(a.seen, a.tx)))
  }

  lemma DivMonotone(a: nat, b: nat, m: nat)
    requires a <= b
    ensures DivOrZero(a, m) <= DivOrZero(b, m)
  {
    if m != 0 && DivOrZero(a, m) > DivOrZero(b, m) {
      MulMonotone(DivOrZero(b, m) + 1, m, DivOrZero(a, m), m);
    }
  }

  lemma {:induction false} SharesAddUp(seen: seq<Chain>, ixs: seq<Ix>, final: Chain, session: Address, m: nat)
    requires |seen| == |ixs| && ApprovesOnly(ixs, session, m)
    requires forall i :: 0 <= i < |seen| ==> seen[i] <= final
    ensures SumContributions(seen, ixs) <= DivOrZero(CostOf(final, session, SESSION_KINDS), m) * Approvals(ixs)
    ensures (forall i :: 0 <= i < |seen| ==> seen[i] == final) ==>
      SumContributions(seen, ixs) == DivOrZero(CostOf(final, session, SESSION_KINDS), m) * Approvals(ixs)
  {
    if ixs == [] {
    } else {
      var n := |ixs| - 1;
      var share := DivOrZero(CostOf(final, session, SESSION_KINDS), m);
      SharesAddUp(seen[..n], ixs[..n], final, session, m);
      MulOneMore(share, Approvals(ixs[..n]));
      if !Silent(ixs[n]) {
        CostGrows(seen[n], final, session, SESSION_KINDS);
        DivMonotone(CostOf(seen[n], session, SESSION_KINDS), CostOf(final, session, SESSION_KINDS), m);
      }
    }
  }

  function SumReported(batch: seq<Approval>): nat {
    if batch == [] then 0 else SumReported(batch[1..]) + Reported(batch[0])
  }

  function SumFees(batch: seq<Approval>): nat {
    if batch == [] then 0 else SumFees(batch[1..]) + batch[0].tx.fee
  }

  function SumApprovals(batch: seq<Approval>): nat {
    if batch == [] then 0 else SumApprovals(batch[1..]) + Approvals(batch[0].tx.ixs)
  }

  function SumEvents(batch: seq<Approval>): nat {
    if batch == [] then 0 else SumEvents(batch[1..]) + |batch[0].events|
  }

  lemma MulDistributes(a: nat, b: nat, c: nat)
    ensures a * (b + c) == a * b + a * c
  {
  }

  lemma {:induction false} ReportsBounded(batch: seq<Approval>, final: Chain, session: Address, m: nat)
    requires forall k :: 0 <= k < |batch| ==> WellSeen(batch[k], final, session, m)
    ensures SumReported(batch) <=
      SumFees(batch) + DivOrZero(CostOf(final, session, SESSION_KINDS), m) * SumApprovals(batch)
  {
    if batch == [] {
    } else {
      var a := batch[0];
      var share := DivOrZero(CostOf(final, session, SESSION_KINDS), m);
      ReportsBounded(batch[1..], final, session, m);
      SharesAddUp(a.seen, a.tx.ixs, final, session, m);
      MappingConservesCost(a.events, TotalGas(a.seen, a.tx));
      MulDistributes(share, SumApprovals(batch[1..]), Approvals(a.tx.ixs));
    }
  }

  /** A batch never reports more than its approval transactions and its verification
      session really cost, however the approvals are spread over transactions, however
      many events each yields, and although the ledger grows between the reads. */
  lemma {:induction false} BatchNeverOverReports(batch: seq<Approval>, final: Chain, session: Address, m: nat)
    requires forall k :: 0 <= k < |batch| ==> WellSeen(batch[k], final, session, m)
    requires SumApprovals(batch) <= m
    requires forall i :: 0 <= i < |AddressTxs(final, session)| ==>
      AtMostOneCounted(AddressTxs(final, session)[i], SESSION_KINDS)
    ensures SumReported(batch) <= SumFees(batch) + SpentOnce(AddressTxs(final, session), SESSION_KINDS)
  {
    var v := CostOf(final, session, SESSION_KINDS);
    ReportsBounded(batch, final, session, m);
    CostIsSpentIff(AddressTxs(final, session), SESSION_KINDS);
    MulMonotone(DivOrZero(v, m), SumApprovals(batch), DivOrZero(v, m), m);
    if m != 0 {
      DivFloor(v, m);
    }
  }

  /** Every event of the transaction converts and carries a cost, nothing saturates, and
      all reads saw the final ledger. */
  ghost predicate FullyReported(a: Approval, final: Chain, session: Address, m: nat) {
    && WellSeen(a, final, session, m) && a.events != [] && CostCarriers(a.events) == |a.events|
    && (forall i :: 0 <= i < |a.seen| ==> a.seen[i] == final)
    && a.tx.fee + SumContributions(a.seen, a.tx.ixs) <= U64_MAX
  }

  lemma {:induction false} ReportsFromBelow(batch: seq<Approval>, final: Chain, session: Address, m: nat)
    requires forall k :: 0 <= k < |batch| ==> FullyReported(batch[k], final, session, m)
    ensures SumFees(batch) + DivOrZero(CostOf(final, session, SESSION_KINDS), m) * SumApprovals(batch)
         <= SumReported(batch) + SumEvents(batch)
    ensures batch != [] ==>
      SumFees(batch) + DivOrZero(CostOf(final, session, SESSION_KINDS), m) * SumApprovals(batch)
      < SumReported(batch) + SumEvents(batch)
  {
    if batch == [] {
    } else {
      var a := batch[0];
      var share := DivOrZero(CostOf(final, session, SESSION_KINDS), m);
      ReportsFromBelow(batch[1..], final, session, m);
      SharesAddUp(a.seen, a.tx.ixs, final, session, m);
      MappingConservesCost(a.events, TotalGas(a.seen, a.tx));
      MulDistributes(share, SumApprovals(batch[1..]), Approvals(a.tx.ixs));
    }
  }

  /** The rounding loss of a whole batch: less than one lamport per message plus less than
      one per event, against the session's cost, and against what was really spent unless
      that does not even fit the counters. */
  lemma {:induction false} BatchShortfall(batch: seq<Approval>, final: Chain, session: Address, m: nat)
    requires m > 0 && batch != [] && SumApprovals(batch) == m
    requires forall k :: 0 <= k < |batch| ==> FullyReported(batch[k], final, session, m)
    ensures SumFees(batch) + CostOf(final, session, SESSION_KINDS) < SumReported(batch) + m + SumEvents(batch)
    ensures SpentOnce(AddressTxs(final, session), SESSION_KINDS) <= U64_MAX ==>
      SumFees(batch) + SpentOnce(AddressTxs(final, session), SESSION_KINDS) < SumReported(batch) + m + SumEvents(batch)
  {
    ReportsFromBelow(batch, final, session, m);
    CostIsSpentIff(AddressTxs(final, session), SESSION_KINDS);
    DivFloor(CostOf(final, session, SESSION_KINDS), m);
  }

  /** The forwarder's handling of a batch, from its received transactions, the ledgers it
      read and the events it parsed. */
  function Batch(messages: seq<Entry>, seen: seq<seq<Chain>>, events: seq<seq<CoreEvent>>): seq<Approval>
    requires |messages| == |seen| == |events|
    requires forall i :: 0 <= i < |messages| ==> |seen[i]| == |messages[i].ixs|
  {
    if messages == [] then []
    else [Handled(messages[0], seen[0], events[0])] + Batch(messages[1..], seen[1..], events[1..])
  }

  lemma {:induction false} BatchLength(messages: seq<Entry>, seen: seq<seq<Chain>>, events: seq<seq<CoreEvent>>)
    requires |messages| == |seen| == |events|
    requires forall i :: 0 <= i < |messages| ==> |seen[i]| == |messages[i].ixs|
    ensures |Batch(messages, seen, events)| == |messages|
  {
    if messages == [] {
    } else {
      BatchLength(messages[1..], seen[1..], events[1..]);
    }
  }

  lemma {:induction false} BatchAt(messages: seq<Entry>, seen: seq<seq<Chain>>, events: seq<seq<CoreEvent>>, k: nat)
    requires |messages| == |seen| == |events| && k < |messages|
    requires forall i :: 0 <= i < |messages| ==> |seen[i]| == |messages[i].ixs|
    ensures |Batch(messages, seen, events)| == |messages|
    ensures Batch(messages, seen, events)[k] == Handled(messages[k], seen[k], events[k])
  {
    BatchLength(messages, seen, events);
    if k == 0 {
    } else {
      BatchAt(messages[1..], seen[1..], events[1..], k - 1);
    }
  }

  function SumCommands(commands: seq<seq<AmpEvent>>): nat {
    if commands == [] then 0 else SumCommands(commands[1..]) + TotalReported(commands[0])
  }

  lemma {:induction false} CommandsReport(batch: seq<Approval>, commands: seq<seq<AmpEvent>>)
    requires |batch| == |commands|
    requires forall k :: 0 <= k < |batch| ==>
      commands[k] == MapCoreEvents(batch[k].events, TotalGas(batch[k].seen, batch[k].tx))
    ensures SumCommands(commands) == SumReported(batch)
  {
    if batch == [] {
    } else {
      CommandsReport(batch[1..], commands[1..]);
    }
  }

  /** Everything read up to call `n` is part of the ledger that call sees. */
  lemma SeenIsPast(views: nat -> Chain, seen: seq<Chain>, from: nat, n: nat)
    requires Growing(views) && SeenBetween(views, seen, from, n)
    ensures forall i :: 0 <= i < |seen| ==> seen[i] <= views(n)
  {
    forall i | 0 <= i < |seen|
      ensures seen[i] <= views(n)
    {
      assert SeenIn(views, seen[i], from, n);
    }
  }

  function SumMessageApprovals(messages: seq<Entry>): nat {
    if messages == [] then 0 else SumMessageApprovals(messages[1..]) + Approvals(messages[0].ixs)
  }

  lemma {:induction false} ApprovalsOfPrefix(messages: seq<Entry>, n: nat)
    requires n <= |messages|
    ensures SumMessageApprovals(messages[..n]) <= SumMessageApprovals(messages)
  {
    if n == 0 {
    } else {
      assert messages[..n][1..] == messages[1..][..n - 1];
      ApprovalsOfPrefix(messages[1..], n - 1);
    }
  }

  lemma {:induction false} BatchTotals(messages: seq<Entry>, seen: seq<seq<Chain>>, events: seq<seq<CoreEvent>>)
    requires |messages| == |seen| == |events|
    requires forall i :: 0 <= i < |messages| ==> |seen[i]| == |messages[i].ixs|
    ensures SumFees(Batch(messages, seen, events)) == SumMessageFees(messages)
    ensures SumApprovals(Batch(messages, seen, events)) == SumMessageApprovals(messages)
  {
    if messages == [] {
    } else {
      BatchTotals(messages[1..], seen[1..], events[1..]);
      assert Batch(messages, seen, events)[1..] == Batch(messages[1..], seen[1..], events[1..]);
    }
  }

  lemma {:induction false} BatchIsWellSeen(views: nat -> Chain, from: nat, n: nat, messages: seq<Entry>,
                                           seen: seq<seq<Chain>>, events: seq<seq<CoreEvent>>, session: Address, m: nat)
    requires Growing(views) && |messages| == |seen| == |events|
    requires forall i :: 0 <= i < |messages| ==>
      |seen[i]| == |messages[i].ixs| && SeenBetween(views, seen[i], from, n) && ApprovesOnly(messages[i].ixs, session, m)
    ensures |Batch(messages, seen, events)| == |messages|
    ensures forall k :: 0 <= k < |messages| ==> WellSeen(Batch(messages, seen, events)[k], views(n), session, m)
  {
    hide Growing, SeenBetween, ApprovesOnly;
    BatchLength(messages, seen, events);
    forall k | 0 <= k < |messages|
      ensures WellSeen(Batch(messages, seen, events)[k], views(n), session, m)
    {
      BatchAt(messages, seen, events, k);
      SeenIsPast(views, seen[k], from, n);
    }
  }

  lemma {:induction false} CommandsOfBatch(messages: seq<Entry>, seen: seq<seq<Chain>>, events: seq<seq<CoreEvent>>,
                        commands: seq<seq<AmpEvent>>)
    requires |messages| == |seen| == |events| == |commands|
    requires forall i :: 0 <= i < |messages| ==>
      |seen[i]| == |messages[i].ixs| && commands[i] == MapCoreEvents(events[i], TotalGas(seen[i], messages[i]))
    ensures SumCommands(commands) == SumReported(Batch(messages, seen, events))
  {
    hide MapCoreEvents, TotalGas, TotalReported;
    BatchLength(messages, seen, events);
    forall k | 0 <= k < |messages|
      ensures Batch(messages, seen, events)[k] == Handled(messages[k], seen[k], events[k])
    {
      BatchAt(messages, seen, events, k);
    }
    CommandsReport(Batch(messages, seen, events), commands);
  }

  /** The forwarder over the approval transactions of a batch: what it publishes never
      exceeds their fees plus what the verification session has cost by then. */
  method ForwardBatch(rpc: RpcClient, unreachable: Signature -> bool, parse: Entry -> Result<seq<CoreEvent>>,
                      messages: seq<Entry>, limit: nat, session: Address, m: nat)
    returns (ok: bool, commands: seq<seq<AmpEvent>>)
    requires limit >= 1 && Growing(rpc.views)
    requires forall i :: 0 <= i < |messages| ==> ApprovesOnly(messages[i].ixs, session, m)
    requires SumMessageApprovals(messages) <= m
    modifies rpc
    ensures |commands| <= |messages| && (ok ==> |commands| == |messages|)
    ensures
      var spent := AddressTxs(rpc.views(rpc.calls), session);
      (forall i :: 0 <= i < |spent| ==> AtMostOneCounted(spent[i], SESSION_KINDS)) ==>
        SumCommands(commands) <= SumMessageFees(messages[..|commands|]) + SpentOnce(spent, SESSION_KINDS)
  {
    ghost var seen;
    ghost var from := rpc.calls;
    ok, commands, seen := ForwardEvents(rpc, unreachable, parse, messages, limit);
    ghost var n := |commands|;
    ghost var handled := messages[..n];
    ghost var events: seq<seq<CoreEvent>> := seq(n, i requires 0 <= i < n => parse(messages[i]).GetOr([]));
    ghost var batch := Batch(handled, seen, events);
    ghost var final := rpc.views(rpc.calls);
    BatchIsWellSeen(rpc.views, from, rpc.calls, handled, seen, events, session, m);
    BatchTotals(handled, seen, events);
    ApprovalsOfPrefix(messages, n);
    CommandsOfBatch(handled, seen, events, commands);
    if forall i :: 0 <= i < |AddressTxs(final, session)| ==> AtMostOneCounted(AddressTxs(final, session)[i], SESSION_KINDS) {
      BatchNeverOverReports(batch, final, session, m);
    }
  }

  // ---------------------------------------------------------------- the two pagers

  lemma ReverseTwice<T>(xs: seq<T>)
    ensures Reverse(Reverse(xs)) == xs
  {
  }

  /** A full page and the rest are ordered separately. */
  lemma PageOrderUnfold<T>(page: seq<T>, rest: seq<T>, limit: nat)
    requires |page| == limit >= 1
    ensures PageOrder(page + rest, limit) == Reverse(page) + PageOrder(rest, limit)
  {
    assert (page + rest)[..limit] == page && (page + rest)[limit..] == rest;
  }

  lemma {:induction false} PageOrderTwice<T>(xs: seq<T>, limit: nat)
    requires limit >= 1
    ensures PageOrder(PageOrder(xs, limit), limit) == xs
    decreases |xs|
  {
    if |xs| < limit {
      ReverseTwice(xs);
    } else {
      hide PageOrder, Reverse;
      var page, rest := xs[..limit], xs[limit..];
      assert page + rest == xs;
      PageOrderUnfold(page, rest, limit);
      PageOrderTwice(rest, limit);
      PageOrderUnfold(Reverse(page), PageOrder(rest, limit), limit);
      ReverseTwice(page);
    }
  }

  lemma SameView(views: nat -> Chain, i: nat, j: nat)
    requires forall i, j :: views(i) == views(j)
    ensures views(i) == views(j)
  {
  }

  /** On a ledger that stands still the two pagers agree: un-reversing page by page what
      the scanner hands over with one page size gives the list that the gas computation
      fetches with another. Each of them fails only with its last call. */
  method PagersAgree(rpc: RpcClient, sink: Forwarding, a: Address, scanLimit: nat, gasLimit: nat)
    returns (scanned: Result<NewestSoFar>, listed: Result<seq<Signature>>)
    requires scanLimit >= 1 && gasLimit >= 1 && Growing(rpc.views)
    requires forall i, j :: rpc.views(i) == rpc.views(j)
    requires sink.Consistent() && sink.handed == []
    modifies rpc, sink
    ensures scanned.Ok? && listed.Ok? ==> PageOrder(sink.handed, scanLimit) == listed.value
    ensures (forall n :: !rpc.unreachable(n)) ==> scanned.Ok? && listed.Ok?
  {
    hide PageOrder, Heads, NoteAll, Calls, History, SignaturesOf;
    ghost var all := SignaturesOf(History(rpc.views(rpc.calls), a, None, None));
    ghost var first := rpc.calls;
    scanned := ScanAddress(rpc, sink, None, None, a, scanLimit, NewestSoFar(None, None));
    SameView(rpc.views, first, rpc.calls);
    listed := FetchSignatures(rpc, a, gasLimit);
    PageOrderTwice(all, scanLimit);
    assert [] + PageOrder(all, scanLimit) == PageOrder(all, scanLimit);
  }
}
