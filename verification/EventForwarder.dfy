/** Mapping the parsed events of a transaction to published events, and splitting
    the transaction's total gas over them. */
module EventForwarder {
  import opened Basics
  import opened Ledger
  import opened BatchScanner
  import opened GasComputation

  /** Parsed events, reduced to what decides whether they convert and carry a cost. */
  datatype CoreKind =
    | Call(payloadDecodes: bool, messageConverts: bool)
    | GasCredit
    | GasRefunded
    | MessageApproved(messageConverts: bool)
    | MessageExecuted
    | SignersRotated(hashPresent: bool, hashDecodes: bool, epochPresent: bool)
    | ItsInterchainTransfer(tokenIdPresent: bool)
    | ItsTokenMetadataRegistered
    | ItsLinkTokenStarted
    | ItsInterchainTokenDeploymentStarted
    | CannotExecuteMessageV2

  datatype CoreEvent = CoreEvent(id: nat, kind: CoreKind)

  /** A published event; `cost` is present on the kinds that report one. */
  datatype AmpEvent = AmpEvent(id: nat, kind: CoreKind, cost: Option<nat>)

  function ConvertCoreEvent(e: CoreEvent, adjustedCost: nat): Option<AmpEvent> {
    match e.kind
    case Call(payloadDecodes, messageConverts) =>
      if !payloadDecodes then None else if !messageConverts then None else Some(AmpEvent(e.id, e.kind, None))
    case GasRefunded => Some(AmpEvent(e.id, e.kind, Some(adjustedCost)))
    case MessageApproved(messageConverts) =>
      if messageConverts then Some(AmpEvent(e.id, e.kind, Some(adjustedCost))) else None
    case MessageExecuted => Some(AmpEvent(e.id, e.kind, Some(adjustedCost)))
    case SignersRotated(hashPresent, hashDecodes, epochPresent) =>
      if !hashPresent || !hashDecodes then None
      else if !epochPresent then None
      else Some(AmpEvent(e.id, e.kind, None))
    case ItsInterchainTransfer(tokenIdPresent) => if tokenIdPresent then Some(AmpEvent(e.id, e.kind, None)) else None
    case CannotExecuteMessageV2 => None
    case _ => Some(AmpEvent(e.id, e.kind, None))
  }

  function FilterMap(events: seq<CoreEvent>, price: nat): seq<AmpEvent> {
    if events == [] then []
    else
      match ConvertCoreEvent(events[0], price)
      case None => FilterMap(events[1..], price)
      case Some(a) => [a] + FilterMap(events[1..], price)
  }

  function MapCoreEvents(events: seq<CoreEvent>, totalCost: nat): seq<AmpEvent> {
    FilterMap(events, DivOrZero(totalCost, |events|))
  }

  // ---------------------------------------------------------------- properties of the mapping

  /** Convertible, whatever the price. */
  predicate Converts(e: CoreEvent) {
    match e.kind
    case Call(decodes, message) => decodes && message
    case MessageApproved(message) => message
    case SignersRotated(present, decodes, epoch) => present && decodes && epoch
    case ItsInterchainTransfer(tokenId) => tokenId
    case CannotExecuteMessageV2 => false
    case _ => true
  }

  /** The three kinds that report a cost. */
  predicate ReportsCost(k: CoreKind) {
    k.GasRefunded? || k.MessageApproved? || k.MessageExecuted?
  }

  function Convertible(events: seq<CoreEvent>): seq<CoreEvent> {
    if events == [] then []
    else (if Converts(events[0]) then [events[0]] else []) + Convertible(events[1..])
  }

  function CostCarriers(events: seq<CoreEvent>): (n: nat)
    ensures n <= |events|
  {
    if events == [] then 0
    else CostCarriers(events[1..]) + if Converts(events[0]) && ReportsCost(events[0].kind) then 1 else 0
  }

  function TotalReported(out: seq<AmpEvent>): nat {
    if out == [] then 0 else out[0].cost.GetOr(0) + TotalReported(out[1..])
  }

  /** `Converts` and `ReportsCost` describe the conversion. */
  lemma ConvertsIff(e: CoreEvent, price: nat)
    ensures ConvertCoreEvent(e, price)
         == if Converts(e) then Some(AmpEvent(e.id, e.kind, if ReportsCost(e.kind) then Some(price) else None)) else None
  {
  }

  /** Exactly the convertible events survive, in input order, and exactly the three
      cost-reporting kinds carry the price. */
  lemma {:induction false} MappingKeepsConvertible(events: seq<CoreEvent>, price: nat)
    ensures |FilterMap(events, price)| == |Convertible(events)|
    ensures forall i :: 0 <= i < |Convertible(events)| ==>
      FilterMap(events, price)[i]
      == AmpEvent(Convertible(events)[i].id, Convertible(events)[i].kind,
                  if ReportsCost(Convertible(events)[i].kind) then Some(price) else None)
  {
    if events == [] {
    } else {
      hide ConvertCoreEvent, Converts, ReportsCost;
      MappingKeepsConvertible(events[1..], price);
      ConvertsIff(events[0], price);
    }
  }

  lemma ReportedSplits(a: AmpEvent, rest: seq<AmpEvent>)
    ensures TotalReported([a] + rest) == a.cost.GetOr(0) + TotalReported(rest)
  {
    assert ([a] + rest)[1..] == rest;
  }

  lemma {:induction false} ReportedIsCarriersTimesPrice(events: seq<CoreEvent>, price: nat)
    ensures TotalReported(FilterMap(events, price)) == price * CostCarriers(events)
  {
    if events == [] {
    } else {
      hide ConvertCoreEvent, Converts, ReportsCost;
      ReportedIsCarriersTimesPrice(events[1..], price);
      ConvertsIff(events[0], price);
      MulOneMore(price, CostCarriers(events[1..]));
      match ConvertCoreEvent(events[0], price) {
        case None =>
        case Some(a) => ReportedSplits(a, FilterMap(events[1..], price));
      }
    }
  }

  /** The cost fields never add up to more than the total, and miss less than one
      lamport per event when every event converts and carries a cost. */
  lemma MappingConservesCost(events: seq<CoreEvent>, totalCost: nat)
    ensures TotalReported(MapCoreEvents(events, totalCost)) <= totalCost
    ensures events != [] && CostCarriers(events) == |events| ==>
      totalCost - TotalReported(MapCoreEvents(events, totalCost)) < |events|
  {
    var n, price := |events|, DivOrZero(totalCost, |events|);
    ReportedIsCarriersTimesPrice(events, price);
    MulMonotone(price, CostCarriers(events), price, n);
    assert n * price == price * n;
  }

  /** Every cost is the rounded-down share of one event among all the events of the
      transaction, whether the others carry a cost, or convert at all, or not. */
  lemma EachCostIsAnEqualShare(events: seq<CoreEvent>, totalCost: nat, i: nat)
    requires i < |MapCoreEvents(events, totalCost)| && MapCoreEvents(events, totalCost)[i].cost.Some?
    ensures
      var cost := MapCoreEvents(events, totalCost)[i].cost.value;
      cost * |events| <= totalCost < cost * |events| + |events|
  {
    MappingKeepsConvertible(events, DivOrZero(totalCost, |events|));
  }

  // ---------------------------------------------------------------- the forwarding loop

  /** For every received transaction: total gas, parsed events, one publish command. */
  method ForwardEvents(rpc: RpcClient, unreachable: Signature -> bool, parse: Entry -> Result<seq<CoreEvent>>,
                       messages: seq<Entry>, limit: nat)
    returns (ok: bool, commands: seq<seq<AmpEvent>>, ghost seen: seq<seq<Chain>>)
    requires limit >= 1 && Growing(rpc.views)
    modifies rpc
    ensures |commands| == |seen| <= |messages| && (ok <==> |commands| == |messages|)
    ensures !ok ==>
      Disturbed(rpc.unreachable, old(rpc.calls), rpc.calls, unreachable) || parse(messages[|commands|]).Err?
    ensures forall i :: 0 <= i < |commands| ==>
      && |seen[i]| == |messages[i].ixs|
      && SeenBetween(rpc.views, seen[i], old(rpc.calls), rpc.calls)
      && parse(messages[i]).Ok?
      && commands[i] == MapCoreEvents(parse(messages[i]).value, TotalGas(seen[i], messages[i]))
  {
    hide Called, Disturbed, Growing, MapCoreEvents, TotalGas, SeenBetween;
    CalledNever(rpc.unreachable, rpc.calls);
    ok, commands, seen := false, [], [];
    for i := 0 to |messages|
      invariant |commands| == |seen| == i && rpc.calls >= old(rpc.calls) && !ok
      invariant Called(rpc.unreachable, old(rpc.calls), rpc.calls, true)
      invariant forall k :: 0 <= k < i ==>
        && |seen[k]| == |messages[k].ixs|
        && SeenBetween(rpc.views, seen[k], old(rpc.calls), rpc.calls)
        && parse(messages[k]).Ok?
        && commands[k] == MapCoreEvents(parse(messages[k]).value, TotalGas(seen[k], messages[k]))
    {
      ghost var middle := rpc.calls;
      var total, views := ComputeTotalGas(rpc, unreachable, messages[i], limit);
      SeenStill(rpc.views, seen, old(rpc.calls), middle, rpc.calls);
      SeenWider(rpc.views, views, middle, rpc.calls, old(rpc.calls), rpc.calls);
      DisturbedOn(rpc.unreachable, old(rpc.calls), middle, rpc.calls, unreachable);
      if total.Err? {
        return;
      }
      var events := parse(messages[i]);
      if events.Err? {
        return;
      }
      commands := commands + [MapCoreEvents(events.value, total.value)];
      seen := seen + [views];
    }
    ok := true;
  }
}
