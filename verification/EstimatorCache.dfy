/** The gas check in front of an execution and the breakdown cache behind it. A check
    takes its message's entry out of the cache, waits for prices or for a full
    estimation, and puts an entry back only when gas is short. Checks of different
    messages overlap freely; checks of one message follow each other. */
module EstimatorCache {
  import opened Basics
  import opened GasEstimator

  type MessageId = nat

  type Cache = map<MessageId, Breakdown>

  /** One call, with what its environment will answer: prices and the result of a full
      estimation, should one be made. */
  datatype Call = Call(
    message: MessageId,
    price: seq<Pubkey> -> Result<u64>,
    estimation: Result<(u64, Breakdown)>,
    availableGas: int)

  datatype Outcome = EnoughGas | InsufficientGas(cost: u64, available: int) | Failed

  // ---------------------------------------------------------------- specification

  /** A call that has taken out its entry, if there was one, and waits for its answer. */
  datatype Check = Check(call: Call, found: Option<Breakdown>) {
    /** Whether the call runs a full estimation. */
    predicate Estimates() { found.None? }
  }

  function CheckOf(cache: Cache, c: Call): Check {
    Check(c, if c.message in cache then Some(cache[c.message]) else None)
  }

  /** Cost and breakdown a check ends up with. */
  function CostFor(k: Check): Result<(u64, Breakdown)> {
    match k.found
    case Some(b) =>
      if AllPriced(Stages(b), k.call.price) then Ok((Clamp(SumStages(Stages(b), k.call.price)), b)) else Err
    case None => k.call.estimation
  }

  function OutcomeOf(k: Check): Outcome {
    match CostFor(k)
    case Err => Failed
    case Ok((cost, _)) =>
      if cost > k.call.availableGas then InsufficientGas(cost, k.call.availableGas) else EnoughGas
  }

  /** When a call ends how, from its prices, its estimation and the gas on offer. */
  lemma OutcomeIs(k: Check)
    ensures OutcomeOf(k).EnoughGas? <==>
      match k.found
      case Some(b) => AllPriced(Stages(b), k.call.price) && Clamp(SumStages(Stages(b), k.call.price)) <= k.call.availableGas
      case None => k.call.estimation.Ok? && k.call.estimation.value.0 <= k.call.availableGas
    ensures OutcomeOf(k).Failed? <==>
      match k.found
      case Some(b) => !AllPriced(Stages(b), k.call.price)
      case None => k.call.estimation.Err?
    ensures OutcomeOf(k).InsufficientGas? ==>
      && OutcomeOf(k).cost > OutcomeOf(k).available == k.call.availableGas
      && OutcomeOf(k).cost == match k.found
                              case Some(b) => Clamp(SumStages(Stages(b), k.call.price))
                              case None => k.call.estimation.value.0
  {
    hide AllPriced, Stages, SumStages;
  }

  /** More gas on offer never turns a pass into a refusal, and a shortage ends exactly
      when the cost it named is on offer. */
  lemma MoreGasNeverRefuses(k: Check, more: int)
    ensures
      var richer := k.(call := k.call.(availableGas := more));
      && (OutcomeOf(k).EnoughGas? && more >= k.call.availableGas ==> OutcomeOf(richer).EnoughGas?)
      && (OutcomeOf(k).InsufficientGas? ==> (OutcomeOf(richer).EnoughGas? <==> more >= OutcomeOf(k).cost))
  {
    OutcomeIs(k);
    OutcomeIs(k.(call := k.call.(availableGas := more)));
  }

  /** A call begins by taking its entry out, and ends once its answer is there. */
  datatype Event = Begin(call: Call) | Finish(message: MessageId) {
    function Message(): MessageId {
      match this case Begin(c) => c.message case Finish(m) => m
    }
  }

  datatype Book = Book(cache: Cache, pending: map<MessageId, Check>)

  predicate Allowed(b: Book, e: Event) {
    match e
    case Begin(c) => c.message !in b.pending
    case Finish(m) => m in b.pending
  }

  function After(b: Book, e: Event): Book
    requires Allowed(b, e)
  {
    match e
    case Begin(c) => Book(b.cache - {c.message}, b.pending[c.message := CheckOf(b.cache, c)])
    case Finish(m) =>
      var k := b.pending[m];
      Book(if OutcomeOf(k).InsufficientGas? then b.cache[m := CostFor(k).value.1] else b.cache, b.pending - {m})
  }

  /** Calls may overlap in any way, but not for one message. */
  predicate Feasible(events: seq<Event>)
    decreases |events|, 0
  {
    events == [] ||
    (Feasible(events[..|events| - 1]) && Allowed(Replay(events[..|events| - 1]), events[|events| - 1]))
  }

  function Replay(events: seq<Event>): Book
    requires Feasible(events)
    decreases |events|, 1
  {
    if events == [] then Book(map[], map[]) else After(Replay(events[..|events| - 1]), events[|events| - 1])
  }

  // ---------------------------------------------------------------- implementation

  class RealGasEstimator {
    var cache: Cache
    /** The calls that are waiting. */
    var pending: map<MessageId, Check>
    ghost var estimations: seq<MessageId>

    constructor ()
      ensures cache == map[] && pending == map[] && estimations == []
    {
      cache, pending := map[], map[];
      estimations := [];
    }

    function Abs(): Book
      reads this
    {
      Book(cache, pending)
    }

    /** Up to the first wait: the entry is removed. */
    method BeginCheck(c: Call)
      requires Allowed(Abs(), Begin(c))
      modifies `cache, `pending
      ensures Abs() == After(old(Abs()), Begin(c))
    {
      var maybeCached := if c.message in cache then Some(cache[c.message]) else None;
      cache := cache - {c.message};
      pending := pending[c.message := Check(c, maybeCached)];
    }

    /** From the answer on: only a shortage puts the breakdown back. */
    method FinishCheck(m: MessageId) returns (r: Outcome)
      requires Allowed(Abs(), Finish(m))
      modifies this
      ensures r == OutcomeOf(old(pending)[m]) && Abs() == After(old(Abs()), Finish(m))
      ensures
        var (c, found) := (old(pending)[m].call, old(pending)[m].found);
        && (found.None? ==> (r.EnoughGas? <==> c.estimation.Ok? && c.estimation.value.0 <= c.availableGas))
        && (found.None? ==> (r.Failed? <==> c.estimation.Err?))
        && (found.Some? ==>
              var stages := Stages(found.value);
              && (r.EnoughGas? <==> AllPriced(stages, c.price) && Clamp(SumStages(stages, c.price)) <= c.availableGas)
              && (r.Failed? <==> !AllPriced(stages, c.price)))
        && (r.InsufficientGas? ==> r.cost > r.available == c.availableGas)
      ensures estimations == old(estimations) + if old(pending)[m].Estimates() then [m] else []
    {
      var Check(c, found) := pending[m];
      pending := pending - {m};
      var cost: u64;
      var breakdown: Breakdown;
      match found {
        case Some(b) =>
          var recomputed := CalculateCost(b, c.price);
          if recomputed.Err? {
            return Failed;
          }
          cost, breakdown := recomputed.value, b;
        case None =>
          estimations := estimations + [m];
          if c.estimation.Err? {
            return Failed;
          }
          cost, breakdown := c.estimation.value.0, c.estimation.value.1;
      }
      if cost > c.availableGas {
        cache := cache[m := breakdown];
        return InsufficientGas(cost, c.availableGas);
      }
      r := EnoughGas;
    }

    /** A whole call. Whatever calls for other messages begin and finish while it waits,
        its outcome is decided by the entry it took out. */
    method EnsureEnoughGas(c: Call, meanwhile: seq<Event>) returns (r: Outcome)
      requires c.message !in pending
      requires forall i :: 0 <= i < |meanwhile| ==> meanwhile[i].Message() != c.message
      modifies this
      ensures r == OutcomeOf(CheckOf(old(cache), c)) && c.message !in pending
      ensures c.message in cache <==> r.InsufficientGas?
      ensures c.message !in old(cache) ==>
        && (r.EnoughGas? <==> c.estimation.Ok? && c.estimation.value.0 <= c.availableGas)
        && (r.Failed? <==> c.estimation.Err?)
        && (r.InsufficientGas? ==> r.cost == c.estimation.value.0 && cache[c.message] == c.estimation.value.1)
      ensures c.message in old(cache) ==>
        var stages := Stages(old(cache)[c.message]);
        && (r.EnoughGas? <==> AllPriced(stages, c.price) && Clamp(SumStages(stages, c.price)) <= c.availableGas)
        && (r.Failed? <==> !AllPriced(stages, c.price))
        && (r.InsufficientGas? ==> r.cost == Clamp(SumStages(stages, c.price)) && cache[c.message] == old(cache)[c.message])
      ensures r.InsufficientGas? ==> r.cost > r.available == c.availableGas
      ensures r.InsufficientGas? ==> cache[c.message] == CostFor(CheckOf(old(cache), c)).value.1
      ensures meanwhile == [] ==>
        Abs() == After(After(old(Abs()), Begin(c)), Finish(c.message))
    {
      BeginCheck(c);
      ghost var begun := Abs();
      for i := 0 to |meanwhile|
        invariant c.message !in cache && c.message in pending && pending[c.message] == CheckOf(old(cache), c)
        invariant i == 0 ==> Abs() == begun
      {
        if Allowed(Abs(), meanwhile[i]) {
          match meanwhile[i] {
            case Begin(other) => BeginCheck(other);
            case Finish(m) => var _ := FinishCheck(m);
          }
        }
      }
      r := FinishCheck(c.message);
    }
  }

  // ---------------------------------------------------------------- properties of every interleaving

  /** The outcome of a message's last finished call, if there is one. */
  function LastOutcome(events: seq<Event>, m: MessageId): Option<Outcome>
    requires Feasible(events)
  {
    if events == [] then None
    else
      var n := |events| - 1;
      if events[n] == Finish(m) then Some(OutcomeOf(Replay(events[..n]).pending[m])) else LastOutcome(events[..n], m)
  }

  /** Whether the last finished call lacked gas. */
  predicate LacksGas(events: seq<Event>, m: MessageId)
    requires Feasible(events)
  {
    LastOutcome(events, m).Some? && LastOutcome(events, m).value.InsufficientGas?
  }

  /** The breakdown of the last full estimation finished for a message. */
  function LastEstimation(events: seq<Event>, m: MessageId): Option<Breakdown>
    requires Feasible(events)
  {
    if events == [] then None
    else
      var n := |events| - 1;
      if events[n] == Finish(m) && Replay(events[..n]).pending[m].Estimates()
         && Replay(events[..n]).pending[m].call.estimation.Ok?
      then Some(Replay(events[..n]).pending[m].call.estimation.value.1)
      else LastEstimation(events[..n], m)
  }

  /** Between calls the cache holds exactly the messages whose last call returned
      insufficient gas, each with the breakdown of its last full estimation; a waiting
      call holds that entry instead. */
  lemma {:induction false} CacheTracksInsufficient(events: seq<Event>, m: MessageId)
    requires Feasible(events)
    ensures
      var b := Replay(events);
      if m in b.pending then
        && m !in b.cache && b.pending[m].call.message == m
        && (b.pending[m].Estimates() <==> !LacksGas(events, m))
        && (!b.pending[m].Estimates() ==> LastEstimation(events, m) == b.pending[m].found)
      else
        && (m in b.cache <==> LacksGas(events, m))
        && (m in b.cache ==> LastEstimation(events, m) == Some(b.cache[m]))
  {
    hide AllPriced, Stages, SumStages;
    if events == [] {
    } else {
      CacheTracksInsufficient(events[..|events| - 1], m);
    }
  }

  /** A call runs a full estimation if and only if the previous call for its message, if
      any, did not end with insufficient gas. */
  lemma EstimatesIff(events: seq<Event>, c: Call)
    requires Feasible(events) && Allowed(Replay(events), Begin(c))
    ensures CheckOf(Replay(events).cache, c).Estimates() <==> !LacksGas(events, c.message)
  {
    CacheTracksInsufficient(events, c.message);
  }

  lemma {:induction false} FeasiblePrefix(events: seq<Event>, more: seq<Event>)
    requires Feasible(events + more)
    ensures Feasible(events)
    decreases |more|
  {
    if more == [] {
      assert events + more == events;
    } else {
      assert (events + more)[..|events + more| - 1] == events + more[..|more| - 1];
      FeasiblePrefix(events, more[..|more| - 1]);
    }
  }

  /** Calls for other messages do not matter, however they overlap. */
  lemma {:induction false} OthersDoNotInterfere(events: seq<Event>, more: seq<Event>, m: MessageId)
    requires Feasible(events + more)
    requires forall i :: 0 <= i < |more| ==> more[i].Message() != m
    ensures Feasible(events)
    ensures
      var b, t := Replay(events), Replay(events + more);
      && (m in t.cache <==> m in b.cache) && (m in b.cache ==> t.cache[m] == b.cache[m])
      && (m in t.pending <==> m in b.pending) && (m in b.pending ==> t.pending[m] == b.pending[m])
    decreases |more|
  {
    hide OutcomeOf, CostFor;
    FeasiblePrefix(events, more);
    if more == [] {
      assert events + more == events;
    } else {
      var n := |more| - 1;
      assert (events + more)[..|events + more| - 1] == events + more[..n];
      OthersDoNotInterfere(events, more[..n], m);
    }
  }

  /** After a call returned insufficient gas, the next call for that message reuses its
      breakdown, whatever calls for other messages run before, between or across. */
  lemma NoReestimationWhileInsufficient(events: seq<Event>, more: seq<Event>, next: Call)
    requires Feasible(events + more) && events != [] && events[|events| - 1] == Finish(next.message)
    requires forall i :: 0 <= i < |more| ==> more[i].Message() != next.message
    ensures
      var n := |events| - 1;
      && Feasible(events) && next.message in Replay(events[..n]).pending
      && var k := Replay(events[..n]).pending[next.message];
         && Allowed(Replay(events + more), Begin(next))
         && (OutcomeOf(k).InsufficientGas? ==>
               CheckOf(Replay(events + more).cache, next).found == Some(CostFor(k).value.1))
  {
    hide AllPriced, Stages, SumStages;
    OthersDoNotInterfere(events, more, next.message);
  }
}
