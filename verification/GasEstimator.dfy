/** Estimating what the execution of a message will cost: the simulated stages, the
    recomputation of their cost from current prices, and the cache that keeps a
    breakdown while a message lacks gas. */
module GasEstimator {
  import opened Basics
  import opened PayloadUpload

  type Pubkey = nat

  datatype StageMetadata = StageMetadata(computeUnits: u64, accounts: seq<Pubkey>)

  datatype Breakdown = Breakdown(
    initialization: StageMetadata,
    upload: seq<StageMetadata>,
    commitment: StageMetadata,
    execution: StageMetadata,
    closure: StageMetadata)

  const BASE_FEE: u64 := 5000
  const MAX_ACCOUNTS: nat := 128
  const N_SLOTS_TO_CHECK: nat := 10

  // ---------------------------------------------------------------- price of a compute unit

  function Recent(fees: seq<u64>): seq<u64> {
    if |fees| <= N_SLOTS_TO_CHECK then fees else fees[|fees| - N_SLOTS_TO_CHECK..]
  }

  function Sum(fees: seq<u64>): nat {
    if fees == [] then 0 else fees[0] + Sum(fees[1..])
  }

  /** The fold over the newest slots, newest first, with both counters saturating. */
  function FoldFees(fees: seq<u64>, sum: u64, count: u64): (u64, u64)
    decreases |fees|
  {
    if fees == [] then (sum, count)
    else FoldFees(fees[..|fees| - 1], SaturatingAdd(sum, fees[|fees| - 1]), SaturatingAdd(count, 1))
  }

  /** Average of the most recent fees; `None` fees stand for an RPC failure. */
  function ComputeUnitPrice(accounts: seq<Pubkey>, fees: Option<seq<u64>>): Result<u64> {
    if |accounts| > MAX_ACCOUNTS then Err
    else if fees.None? then Err
    else
      var (sum, count) := FoldFees(Recent(fees.value), 0, 0);
      if count > 0 then Ok(DivOrZero(sum, count)) else Ok(0)
  }

  lemma {:induction false} SumSnoc(fees: seq<u64>, x: u64)
    ensures Sum(fees + [x]) == Sum(fees) + x
  {
    if fees == [] {
      assert [] + [x] == [x];
    } else {
      assert (fees + [x])[1..] == fees[1..] + [x];
      SumSnoc(fees[1..], x);
    }
  }

  lemma {:induction false} FoldClosedForm(fees: seq<u64>, sum: u64, count: u64)
    requires count + |fees| <= U64_MAX
    ensures FoldFees(fees, sum, count) == (Clamp(sum + Sum(fees)), count + |fees|)
    decreases |fees|
  {
    if fees == [] {
    } else {
      var n := |fees| - 1;
      FoldClosedForm(fees[..n], SaturatingAdd(sum, fees[n]), SaturatingAdd(count, 1));
      SumSnoc(fees[..n], fees[n]);
      assert fees == fees[..n] + [fees[n]];
    }
  }

  lemma {:induction false} SumBounds(fees: seq<u64>, lo: nat, hi: nat)
    requires forall i :: 0 <= i < |fees| ==> lo <= fees[i] <= hi
    ensures lo * |fees| <= Sum(fees) <= hi * |fees|
  {
    if fees == [] {
    } else {
      SumBounds(fees[1..], lo, hi);
      assert lo * |fees| == lo * (|fees| - 1) + lo && hi * |fees| == hi * (|fees| - 1) + hi;
    }
  }

  lemma AverageBounds(sum: nat, n: nat, lo: nat, hi: nat)
    requires n > 0 && lo * n <= sum <= hi * n
    ensures lo <= DivOrZero(sum, n) <= hi
  {
    hide DivOrZero;
    var price := DivOrZero(sum, n);
    if price < lo {
      MulMonotone(price + 1, n, lo, n);
    }
    if price > hi {
      MulMonotone(hi + 1, n, price, n);
    }
  }

  /** The price is the rounded-down average of the last ten fees, or of all when there
      are fewer, whatever came before them; only a sum that does not fit falls short. */
  lemma PriceIsTheAverage(accounts: seq<Pubkey>, older: seq<u64>, fees: seq<u64>)
    requires |accounts| <= 128 && fees != [] && (|fees| == 10 || (|fees| < 10 && older == []))
    ensures ComputeUnitPrice(accounts, Some(older + fees)).Ok?
    ensures
      var price := ComputeUnitPrice(accounts, Some(older + fees)).value;
      && price * |fees| <= Clamp(Sum(fees)) < price * |fees| + |fees|
      && (Sum(fees) <= U64_MAX ==> price * |fees| <= Sum(fees) < price * |fees| + |fees|)
  {
    hide Sum, FoldFees;
    assert Recent(older + fees) == fees;
    FoldClosedForm(fees, 0, 0);
  }

  /** When a price can be given at all; without any fees it is zero. */
  lemma PricedIff(accounts: seq<Pubkey>, fees: Option<seq<u64>>)
    ensures ComputeUnitPrice(accounts, fees).Ok? <==> |accounts| <= 128 && fees.Some?
    ensures |accounts| <= 128 ==> ComputeUnitPrice(accounts, Some([])) == Ok(0)
  {
    assert Recent([]) == [];
  }

  /** The price lies between the smallest and the largest of the last ten fees, even
      when the sum saturates, as long as ten times the smallest fits a u64. */
  lemma PriceIsAnAverage(accounts: seq<Pubkey>, fees: seq<u64>, lo: nat, hi: nat)
    requires |accounts| <= MAX_ACCOUNTS && fees != [] && lo * N_SLOTS_TO_CHECK <= U64_MAX
    requires forall i :: 0 <= i < |fees| && i >= |fees| - 10 ==> lo <= fees[i] <= hi
    ensures ComputeUnitPrice(accounts, Some(fees)).Ok? && lo <= ComputeUnitPrice(accounts, Some(fees)).value <= hi
  {
    hide Sum, FoldFees;
    var recent := Recent(fees);
    FoldClosedForm(recent, 0, 0);
    SumBounds(recent, lo, hi);
    MulMonotone(lo, |recent|, lo, N_SLOTS_TO_CHECK);
    AverageBounds(Clamp(Sum(recent)), |recent|, lo, hi);
  }

  // ---------------------------------------------------------------- cost of a breakdown

  function Stages(b: Breakdown): seq<StageMetadata> {
    [b.initialization] + b.upload + [b.commitment, b.execution, b.closure]
  }

  /** Price lookups needed by the stages that name accounts. */
  predicate AllPriced(stages: seq<StageMetadata>, price: seq<Pubkey> -> Result<u64>) {
    forall i :: 0 <= i < |stages| && stages[i].accounts != [] ==> price(stages[i].accounts).Ok?
  }

  /** The exact fee of a stage; a stage without accounts was never executed and is free. */
  function StageFee(s: StageMetadata, price: seq<Pubkey> -> Result<u64>): nat {
    if s.accounts == [] then 0
    else match price(s.accounts) case Ok(p) => BASE_FEE + s.computeUnits * p case Err => 0
  }

  function SumStages(stages: seq<StageMetadata>, price: seq<Pubkey> -> Result<u64>): nat {
    if stages == [] then 0
    else SumStages(stages[..|stages| - 1], price) + StageFee(stages[|stages| - 1], price)
  }

  lemma NextStage(stages: seq<StageMetadata>, i: nat, price: seq<Pubkey> -> Result<u64>)
    requires i < |stages|
    ensures SumStages(stages[..i + 1], price) == SumStages(stages[..i], price) + StageFee(stages[i], price)
    ensures AllPriced(stages[..i + 1], price)
       <==> AllPriced(stages[..i], price) && (stages[i].accounts != [] ==> price(stages[i].accounts).Ok?)
    ensures AllPriced(stages, price) ==> AllPriced(stages[..i + 1], price)
  {
    assert stages[..i + 1][..i] == stages[..i];
    assert forall k :: 0 <= k < i ==> stages[..i + 1][k] == stages[..i][k];
    assert stages[..i + 1][i] == stages[i];
  }

  /** Adds stage `i` to the total of the stages before it. */
  method AddStage(total: u64, s: StageMetadata, price: seq<Pubkey> -> Result<u64>,
                  ghost stages: seq<StageMetadata>, ghost i: nat)
    returns (r: Result<u64>)
    requires i < |stages| && stages[i] == s
    requires AllPriced(stages[..i], price) && total == Clamp(SumStages(stages[..i], price))
    ensures if r.Ok? then AllPriced(stages[..i + 1], price) && r.value == Clamp(SumStages(stages[..i + 1], price))
            else !AllPriced(stages, price)
  {
    hide AllPriced, SumStages;
    NextStage(stages, i, price);
    if s.accounts == [] {
      return Ok(total);
    }
    var unitPrice := price(s.accounts);
    if unitPrice.Err? {
      return Err;
    }
    var priorityFee := SaturatingMul(s.computeUnits, unitPrice.value);
    var stageFee := SaturatingAdd(BASE_FEE, priorityFee);
    r := Ok(SaturatingAdd(total, stageFee));
  }

  lemma StageOrder(b: Breakdown, price: seq<Pubkey> -> Result<u64>)
    ensures |Stages(b)| == |b.upload| + 4 && Stages(b)[0] == b.initialization
    ensures forall k :: 0 <= k < |b.upload| ==> Stages(b)[k + 1] == b.upload[k]
    ensures Stages(b)[|b.upload| + 1] == b.commitment && Stages(b)[|b.upload| + 2] == b.execution
    ensures Stages(b)[|b.upload| + 3] == b.closure
    ensures Stages(b)[..0] == [] && Stages(b)[..|b.upload| + 4] == Stages(b)
    ensures AllPriced([], price) && SumStages([], price) == 0
  {
  }

  /** The cost of a breakdown at given prices is the clamped exact sum over its stages;
      it fails exactly if some stage with accounts cannot be priced. */
  method CalculateCost(b: Breakdown, price: seq<Pubkey> -> Result<u64>) returns (r: Result<u64>)
    ensures r.Ok? <==> AllPriced(Stages(b), price)
    ensures r.Ok? ==> r.value == Clamp(SumStages(Stages(b), price))
  {
    hide AllPriced, SumStages, Stages;
    ghost var stages, n := Stages(b), |b.upload| + 1;
    StageOrder(b, price);
    r := AddStage(0, b.initialization, price, stages, 0);
    if r.Err? {
      return;
    }
    for i := 0 to |b.upload|
      invariant r.Ok? && AllPriced(stages[..i + 1], price) && r.value == Clamp(SumStages(stages[..i + 1], price))
    {
      r := AddStage(r.value, b.upload[i], price, stages, i + 1);
      if r.Err? {
        return;
      }
    }
    r := AddStage(r.value, b.commitment, price, stages, n);
    if r.Err? {
      return;
    }
    r := AddStage(r.value, b.execution, price, stages, n + 1);
    if r.Err? {
      return;
    }
    r := AddStage(r.value, b.closure, price, stages, n + 2);
  }

  /** One estimate is at least another stage by stage: same accounts, no fewer units, no lower prices. */
  ghost predicate NoCheaper(a: seq<StageMetadata>, priceA: seq<Pubkey> -> Result<u64>,
                            b: seq<StageMetadata>, priceB: seq<Pubkey> -> Result<u64>) {
    && |a| == |b| && AllPriced(a, priceA) && AllPriced(b, priceB)
    && forall i :: 0 <= i < |a| ==>
         && a[i].accounts == b[i].accounts && a[i].computeUnits <= b[i].computeUnits
         && (a[i].accounts != [] ==> priceA(a[i].accounts).value <= priceB(a[i].accounts).value)
  }

  /** The estimated cost is monotone in every stage's units and price. */
  lemma {:induction false} CostMonotone(a: seq<StageMetadata>, priceA: seq<Pubkey> -> Result<u64>,
                                        b: seq<StageMetadata>, priceB: seq<Pubkey> -> Result<u64>)
    requires NoCheaper(a, priceA, b, priceB)
    ensures SumStages(a, priceA) <= SumStages(b, priceB)
    ensures Clamp(SumStages(a, priceA)) <= Clamp(SumStages(b, priceB))
  {
    if a == [] {
    } else {
      var n := |a| - 1;
      assert forall i :: 0 <= i < n ==> a[..n][i] == a[i] && b[..n][i] == b[i];
      CostMonotone(a[..n], priceA, b[..n], priceB);
      if a[n].accounts != [] {
        MulMonotone(a[n].computeUnits, priceA(a[n].accounts).value, b[n].computeUnits, priceB(b[n].accounts).value);
      }
    }
  }

  /** Stages that were executed. */
  function ExecutedStages(stages: seq<StageMetadata>): nat {
    if stages == [] then 0
    else ExecutedStages(stages[..|stages| - 1]) + if stages[|stages| - 1].accounts != [] then 1 else 0
  }

  /** Compute units of the executed stages. */
  function Units(stages: seq<StageMetadata>): nat {
    if stages == [] then 0
    else
      var s := stages[|stages| - 1];
      Units(stages[..|stages| - 1]) + if s.accounts != [] then s.computeUnits else 0
  }

  lemma Distribute(a: nat, b: nat, c: nat)
    ensures (a + b) * c == a * c + b * c
  {
  }

  /** At one price for all: 5000 lamports for every executed stage, and the price for
      every unit they used. */
  lemma {:induction false} CostAtOnePrice(stages: seq<StageMetadata>, price: u64)
    ensures SumStages(stages, _ => Ok(price)) == 5000 * ExecutedStages(stages) + Units(stages) * price
  {
    if stages == [] {
    } else {
      var n := |stages| - 1;
      CostAtOnePrice(stages[..n], price);
      Distribute(Units(stages[..n]), if stages[n].accounts != [] then stages[n].computeUnits else 0, price);
    }
  }

  lemma {:induction false} SamePrices(stages: seq<StageMetadata>, price: seq<Pubkey> -> Result<u64>,
                                      other: seq<Pubkey> -> Result<u64>)
    requires forall k :: 0 <= k < |stages| ==> other(stages[k].accounts) == price(stages[k].accounts)
    ensures SumStages(stages, other) == SumStages(stages, price)
  {
    if stages == [] {
    } else {
      SamePrices(stages[..|stages| - 1], price, other);
    }
  }

  /** One more lamport on the price of one stage's accounts adds that stage's units. */
  lemma {:induction false} DearerStage(stages: seq<StageMetadata>, i: nat, price: seq<Pubkey> -> Result<u64>,
                                       dearer: seq<Pubkey> -> Result<u64>)
    requires i < |stages| && stages[i].accounts != [] && price(stages[i].accounts).Ok? && dearer(stages[i].accounts).Ok?
    requires dearer(stages[i].accounts).value == price(stages[i].accounts).value + 1
    requires forall k :: 0 <= k < |stages| && k != i ==> dearer(stages[k].accounts) == price(stages[k].accounts)
    ensures SumStages(stages, dearer) == SumStages(stages, price) + stages[i].computeUnits
  {
    var n := |stages| - 1;
    if i == n {
      SamePrices(stages[..n], price, dearer);
      Distribute(price(stages[n].accounts).value, 1, stages[n].computeUnits);
    } else {
      DearerStage(stages[..n], i, price, dearer);
    }
  }

  // ---------------------------------------------------------------- simulating an execution

  /** What the estimator broadcasts on the forked chain, in order. */
  datatype SimulatedIx =
    | SimInitialize(length: nat)
    | SimWrite(chunk: ChunkWithOffset)
    | SimCommit
    | SimExecute
    | SimClose

  function Writes(cs: seq<ChunkWithOffset>): seq<SimulatedIx> {
    seq(|cs|, i requires 0 <= i < |cs| => SimWrite(cs[i]))
  }

  /** The simulated stages of a payload: its upload, written with exactly the chunks
      that `upload` sends, then execution and closing. */
  function Simulation(payload: seq<byte>, chunkSize: nat): seq<SimulatedIx>
    requires chunkSize > 0
  {
    [SimInitialize(|payload|)] + Writes(ChunksWithOffset(payload, chunkSize)) + [SimCommit, SimExecute, SimClose]
  }

  /** A forked chain that answers each broadcast with a fee and its metadata, or fails. */
  class Simnet {
    const answers: nat -> Result<(u64, StageMetadata)>
    var log: seq<SimulatedIx>

    constructor (answers: nat -> Result<(u64, StageMetadata)>)
      ensures this.answers == answers && log == []
    {
      this.answers := answers;
      log := [];
    }

    method ExecuteAndGetCost(ix: SimulatedIx) returns (r: Result<(u64, StageMetadata)>)
      modifies this
      ensures r == answers(|old(log)|) && log == old(log) + [ix]
    {
      r := answers(|log|);
      log := log + [ix];
    }
  }

  function SumAnswers(answers: nat -> Result<(u64, StageMetadata)>, n: nat): nat {
    if n == 0 then 0
    else SumAnswers(answers, n - 1) + match answers(n - 1) case Ok(a) => a.0 case Err => 0
  }

  /** The last of `n` broadcasts failed. */
  predicate LastFailed(answers: nat -> Result<(u64, StageMetadata)>, n: nat) {
    n > 0 && answers(n - 1).Err?
  }

  /** Broadcasts step `k` of a plan and adds its fee. */
  method Broadcast(simnet: Simnet, ix: SimulatedIx, total: u64, ghost plan: seq<SimulatedIx>, ghost k: nat)
    returns (r: Result<(u64, StageMetadata)>)
    requires k < |plan| && plan[k] == ix && simnet.log == plan[..k]
    requires total == Clamp(SumAnswers(simnet.answers, k))
    modifies simnet
    ensures simnet.log == plan[..k + 1] && (r.Ok? <==> simnet.answers(k).Ok?)
    ensures r.Ok? ==>
      r.value == (Clamp(SumAnswers(simnet.answers, k + 1)), simnet.answers(k).value.1)
  {
    r := simnet.ExecuteAndGetCost(ix);
    if r.Ok? {
      r := Ok((SaturatingAdd(total, r.value.0), r.value.1));
    }
  }

  ghost predicate RecordedAt(s: StageMetadata, answers: nat -> Result<(u64, StageMetadata)>, k: nat) {
    answers(k).Ok? && s == answers(k).value.1
  }

  lemma SimulationSteps(payload: seq<byte>, chunkSize: nat)
    requires chunkSize > 0
    ensures
      var plan := Simulation(payload, chunkSize);
      var pieces := SliceChunks(payload, chunkSize);
      && |plan| == |pieces| + 4 && |ChunksWithOffset(payload, chunkSize)| == |pieces|
      && plan[0] == SimInitialize(|payload|)
      && (forall i: nat :: i < |pieces| ==>
            plan[i + 1] == SimWrite(ChunkWithOffset(pieces[i], SaturatingMul(i, chunkSize))))
      && plan[|pieces| + 1] == SimCommit && plan[|pieces| + 2] == SimExecute && plan[|pieces| + 3] == SimClose
  {
  }

  /** Simulates the writes, one stage per chunk. */
  method EstimateUpload(simnet: Simnet, payload: seq<byte>, chunkSize: nat, initial: u64, ghost plan: seq<SimulatedIx>)
    returns (r: Result<(u64, seq<StageMetadata>)>)
    requires chunkSize > 0 && plan == Simulation(payload, chunkSize) && simnet.log == plan[..1]
    requires initial == Clamp(SumAnswers(simnet.answers, 1))
    modifies simnet
    ensures simnet.log <= plan
    ensures r.Err? ==> LastFailed(simnet.answers, |simnet.log|)
    ensures r.Ok? ==>
      var n := |ChunksWithOffset(payload, chunkSize)|;
      && simnet.log == plan[..n + 1] && r.value.0 == Clamp(SumAnswers(simnet.answers, n + 1))
      && |r.value.1| == n && forall k: nat :: k < n ==> RecordedAt(r.value.1[k], simnet.answers, k + 1)
  {
    hide Simulation, SaturatingMul;
    var pieces := SliceChunks(payload, chunkSize);
    SimulationSteps(payload, chunkSize);
    var total, upload := initial, [];
    for index := 0 to |pieces|
      invariant simnet.log == plan[..index + 1] && |upload| == index
      invariant total == Clamp(SumAnswers(simnet.answers, index + 1))
      invariant forall k: nat :: k < index ==> RecordedAt(upload[k], simnet.answers, k + 1)
    {
      var offset := SaturatingMul(index, chunkSize);
      var write := Broadcast(simnet, SimWrite(ChunkWithOffset(pieces[index], offset)), total, plan, index + 1);
      if write.Err? {
        return Err;
      }
      upload := upload + [write.value.1];
      total := write.value.0;
    }
    r := Ok((total, upload));
  }

  /** Every stage of the breakdown is the metadata of the broadcast with its number. */
  ghost predicate RecordedStages(b: Breakdown, answers: nat -> Result<(u64, StageMetadata)>) {
    && RecordedAt(b.initialization, answers, 0)
    && (forall k: nat :: k < |b.upload| ==> RecordedAt(b.upload[k], answers, k + 1))
    && RecordedAt(b.commitment, answers, |b.upload| + 1)
    && RecordedAt(b.execution, answers, |b.upload| + 2)
    && RecordedAt(b.closure, answers, |b.upload| + 3)
  }

  lemma NothingCharged(answers: nat -> Result<(u64, StageMetadata)>)
    ensures SumAnswers(answers, 0) == 0
  {
  }

  /** Estimates an execution by broadcasting every stage. On success the broadcasts are
      the simulation of this payload, each stage's metadata is recorded in its place, one
      upload stage per chunk, and the fee is the clamped sum of the charged fees. It stops only at a failed broadcast. */
  method EstimateTotalExecuteCost(simnet: Simnet, payload: seq<byte>, chunkSize: nat)
    returns (r: Result<(u64, Breakdown)>)
    requires chunkSize > 0 && simnet.log == []
    modifies simnet
    ensures simnet.log <= Simulation(payload, chunkSize)
    ensures r.Err? ==> LastFailed(simnet.answers, |simnet.log|)
    ensures r.Ok? ==>
      && simnet.log == Simulation(payload, chunkSize)
      && r.value.0 == Clamp(SumAnswers(simnet.answers, |simnet.log|))
      && |r.value.1.upload| == |ChunksWithOffset(payload, chunkSize)|
      && RecordedStages(r.value.1, simnet.answers)
  {
    hide Simulation, ChunksWithOffset, SliceChunks, SumAnswers;
    ghost var plan := Simulation(payload, chunkSize);
    ghost var n := |ChunksWithOffset(payload, chunkSize)|;
    SimulationSteps(payload, chunkSize);
    NothingCharged(simnet.answers);
    assert simnet.log == plan[..0] && plan[..n + 4] == plan;
    var init := Broadcast(simnet, SimInitialize(|payload|), 0, plan, 0);
    if init.Err? {
      return Err;
    }
    var upload := EstimateUpload(simnet, payload, chunkSize, init.value.0, plan);
    if upload.Err? {
      return Err;
    }
    var commit := Broadcast(simnet, SimCommit, upload.value.0, plan, n + 1);
    if commit.Err? {
      return Err;
    }
    var execute := Broadcast(simnet, SimExecute, commit.value.0, plan, n + 2);
    if execute.Err? {
      return Err;
    }
    var close := Broadcast(simnet, SimClose, execute.value.0, plan, n + 3);
    if close.Err? {
      return Err;
    }
    r := Ok((close.value.0, Breakdown(init.value.1, upload.value.1, commit.value.1, execute.value.1, close.value.1)));
  }

  /** The writes of the simulation are the upload's writes: executed in any order with
      any repetitions they rebuild the payload. */
  lemma SimulationUploadsThePayload(payload: seq<byte>, chunkSize: nat, buffer: seq<byte>, order: seq<nat>)
    requires chunkSize > 0 && |payload| <= U64_MAX && |buffer| == |payload|
    requires forall j :: 0 <= j < |order| ==> order[j] < |ChunksWithOffset(payload, chunkSize)|
    requires forall i: nat :: i < |ChunksWithOffset(payload, chunkSize)| ==> i in order
    ensures forall i :: 1 <= i <= |ChunksWithOffset(payload, chunkSize)| ==>
      Simulation(payload, chunkSize)[i] == SimWrite(ChunksWithOffset(payload, chunkSize)[i - 1])
    ensures ApplyWrites(payload, chunkSize, buffer, order) == payload
  {
    Reassembly(payload, chunkSize, buffer, order);
  }
}
