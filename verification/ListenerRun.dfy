/** The Solana listener as a transition system over its whole life: start-up
    scan, subscription, catch-up scan, unordered fetches, cursor writes,
    disconnects and crashes, on a ledger that grows all the while.
    Transactions are named by their ledger position; a cursor of -1 means that
    nothing is stored. */
module ListenerRun {
  import opened Basics
  import opened Ledger
  import opened BatchScanner
  import opened ScanProperties

  datatype Phase = Down | Idle | CatchingUp | Live

  /** `first` is the first successful item of the current subscription, `queue`
      what the two subscriptions delivered after it and nobody pulled yet, and
      `inFlight` the pulled items whose fetch has not completed. */
  datatype State = State(
    ledger: Chain,
    start: int,
    cursor: int,
    sent: seq<nat>,
    phase: Phase,
    first: nat,
    queue: seq<nat>,
    inFlight: multiset<nat>)

  datatype Step =
    | Append(entry: Entry)                                   // the ledger grows
    | StartUp(forced: Option<int>, seen: nat, batch: seq<nat>) // scan; the gateway part saw the first `seen` entries
    | StartUpFails(forced: Option<int>, batch: seq<nat>)     // the process died during that scan
    | Connect(first: nat, queue: seq<nat>)                   // subscribed, first successful item received
    | CatchUp(batch: seq<nat>)                               // scan up to the first item, then send that item
    | CatchUpFails(batch: seq<nat>)                          // the process died during that scan
    | Pull(index: nat)                                       // take a delivered item, start its fetch
    | Finish(p: nat)                                         // a fetch is done: send, then move the cursor
    | SendThenCrash(p: nat)                                  // sent, but the process died before the cursor write
    | Disconnect                                             // stream ended or a fetch failed: reconnect
    | Crash                                                  // the process ended and is started again

  predicate Monitored(e: Entry) {
    Gateway in e.mentions || GasService in e.mentions
  }

  /** The transactions the listener exists to forward. */
  predicate Target(l: Chain, p: nat) {
    p < |l| && l[p].successful && Monitored(l[p])
  }

  function Deliveries(e: Entry, p: nat): seq<nat> {
    (if e.successful && Gateway in e.mentions then [p] else [])
    + (if e.successful && GasService in e.mentions then [p] else [])
  }

  function StoredSignature(l: Chain, cursor: int): Option<Signature>
    requires -1 <= cursor < |l|
  {
    if cursor == -1 then None else Some(l[cursor].signature)
  }

  /** Handed to the fetcher by a scan above `cursor` whose gateway part ends at
      `gatewayEnd` and whose gas-service part ends at `gasEnd`. */
  predicate Handed(l: Chain, cursor: int, gatewayEnd: nat, gasEnd: nat, p: nat)
    requires -1 <= cursor && gatewayEnd <= |l| && gasEnd <= |l|
  {
    p in Newest(l, Gateway, cursor + 1, gatewayEnd) || p in Newest(l, GasService, cursor + 1, gasEnd)
  }

  lemma HandedIff(l: Chain, cursor: int, gatewayEnd: nat, gasEnd: nat, p: nat)
    requires -1 <= cursor && gatewayEnd <= |l| && gasEnd <= |l|
    ensures Handed(l, cursor, gatewayEnd, gasEnd, p)
       <==> p > cursor && ((p < gatewayEnd && Gateway in l[p].mentions) || (p < gasEnd && GasService in l[p].mentions))
  {
    NewestComplete(l, Gateway, cursor + 1, gatewayEnd, p);
    NewestComplete(l, GasService, cursor + 1, gasEnd, p);
  }

  /** Where the cursor is after a start-up scan whose gateway part saw the first `seen`
      entries: at the gateway's newest entry, or at the head of the last gas-service
      page that is newer in slot. */
  function CursorAfterScan(l: Chain, cursor: int, seen: nat): int
    requires -1 <= cursor && seen <= |l|
  {
    var gw, gas := Newest(l, Gateway, cursor + 1, seen), Newest(l, GasService, cursor + 1, |l|);
    if gw == [] then if gas == [] then cursor else gas[0]
    else
      var n := Ahead(Statuses(l, gas), l[gw[0]].slot);
      if n == 0 then gw[0] else gas[LastHead(n, LIMIT)]
  }

  predicate Subscribed(s: State) {
    s.phase == CatchingUp || s.phase == Live
  }

  predicate WellFormed(s: State) {
    && -1 <= s.start < |s.ledger| && -1 <= s.cursor < |s.ledger|
    && (Subscribed(s) ==> Target(s.ledger, s.first))
    && (forall q :: q in s.queue ==> Target(s.ledger, q))
    && (forall q :: q in s.inFlight ==> Target(s.ledger, q))
    && (s.phase != Live ==> s.inFlight == multiset{})
    && (!Subscribed(s) ==> s.queue == [])
  }

  /** The cursor a start-up scan works from: an operator may force it elsewhere, and
      then the forced value is stored first. */
  function ScanFrom(s: State, forced: Option<int>): int {
    match forced case None => s.cursor case Some(f) => f
  }

  ghost predicate Enabled(s: State, step: Step) {
    && WellFormed(s) && ValidChain(s.ledger)
    && match step
       case Append(e) => ValidChain(s.ledger + [e])
       case StartUp(forced, seen, batch) =>
         && s.phase == Down && -1 <= ScanFrom(s, forced) < seen <= |s.ledger|
         && forall p :: p in batch ==>
              Target(s.ledger, p) && Handed(s.ledger, ScanFrom(s, forced), seen, |s.ledger|, p)
       case StartUpFails(forced, batch) =>
         && s.phase == Down && -1 <= ScanFrom(s, forced) < |s.ledger|
         && forall p :: p in batch ==> Target(s.ledger, p)
       case Connect(first, queue) =>
         && s.phase == Idle && Target(s.ledger, first)
         && forall q :: q in queue ==> Target(s.ledger, q)
       case CatchUp(batch) =>
         && s.phase == CatchingUp
         && forall p :: p in batch ==> Target(s.ledger, p) && Handed(s.ledger, s.cursor, s.first, s.first, p)
       case CatchUpFails(batch) =>
         && s.phase == CatchingUp
         && forall p :: p in batch ==> Target(s.ledger, p)
       case Pull(i) => s.phase == Live && i < |s.queue|
       case Finish(p) => s.phase == Live && p in s.inFlight
       case SendThenCrash(p) => s.phase == Live && p in s.inFlight
       case Disconnect => s.phase == Live
       case Crash => s.phase != Down
  }

  function Abandon(s: State, phase: Phase): State {
    s.(phase := phase, queue := [], inFlight := multiset{})
  }

  function Next(s: State, step: Step): State
    requires Enabled(s, step)
  {
    match step
    case Append(e) =>
      s.(ledger := s.ledger + [e],
         queue := s.queue + if Subscribed(s) then Deliveries(e, |s.ledger|) else [])
    case StartUp(forced, seen, batch) =>
      s.(phase := Idle, sent := s.sent + batch, cursor := CursorAfterScan(s.ledger, ScanFrom(s, forced), seen))
    case StartUpFails(forced, batch) =>
      s.(sent := s.sent + batch, cursor := ScanFrom(s, forced))
    case Connect(first, queue) =>
      s.(phase := CatchingUp, first := first, queue := queue)
    case CatchUp(batch) =>
      s.(phase := Live, sent := s.sent + batch + [s.first])
    case CatchUpFails(batch) =>
      Abandon(s.(sent := s.sent + batch), Down)
    case Pull(i) =>
      s.(queue := RemoveAt(s.queue, i), inFlight := s.inFlight + multiset{s.queue[i]})
    case Finish(p) =>
      s.(inFlight := s.inFlight - multiset{p}, sent := s.sent + [p], cursor := p)
    case SendThenCrash(p) =>
      Abandon(s.(sent := s.sent + [p]), Down)
    case Disconnect => Abandon(s, Idle)
    case Crash => Abandon(s, Down)
  }

  /** A run, as the list of its steps from an initial state. */
  ghost predicate Possible(s0: State, steps: seq<Step>)
    decreases |steps|, 0
  {
    steps == [] ||
    (Possible(s0, steps[..|steps| - 1]) && Enabled(Exec(s0, steps[..|steps| - 1]), steps[|steps| - 1]))
  }

  ghost function Exec(s0: State, steps: seq<Step>): State
    requires Possible(s0, steps)
    decreases |steps|, 1
  {
    if steps == [] then s0 else Next(Exec(s0, steps[..|steps| - 1]), steps[|steps| - 1])
  }

  predicate Initial(s: State) {
    s.phase == Down && s.cursor == s.start && WellFormed(s)
  }

  // ---------------------------------------------------------------- what can get lost

  predicate Waiting(s: State, p: nat) {
    p in s.queue || p in s.inFlight
  }

  predicate Skipped(s: State, forced: Option<int>, p: nat) {
    s.cursor < p <= ScanFrom(s, forced) && p !in s.sent
  }

  /** Left behind by a start-up scan: an operator forced the cursor past it, or it is a
      gateway-only transaction that landed after the gateway's part was read and before
      the position the scan stores. */
  predicate Overlooked(s: State, forced: Option<int>, seen: nat, p: nat)
    requires -1 <= ScanFrom(s, forced) < seen <= |s.ledger| && p < |s.ledger|
  {
    || Skipped(s, forced, p)
    || (seen <= p <= CursorAfterScan(s.ledger, ScanFrom(s, forced), seen) && GasService !in s.ledger[p].mentions)
  }

  /** The ways a step gives up an unsent transaction: an operator forced the cursor past
      it; its fetch failed during a scan (only logged) and it is not newer than the cursor
      or not queued afterwards; it reached the gateway's history after the start-up scan
      had read it, but below the cursor that scan stores; it landed after the first item,
      before the other subscription was in place; or it was waiting and not newer than the
      stored cursor when the subscription went away. */
  predicate Loses(s: State, step: Step, p: nat) {
    && Target(s.ledger, p) && p !in s.sent
    && match step
       case StartUp(forced, seen, batch) =>
         && -1 <= ScanFrom(s, forced) < seen <= |s.ledger| && p !in batch
         && p <= CursorAfterScan(s.ledger, ScanFrom(s, forced), seen)
         && (Handed(s.ledger, ScanFrom(s, forced), seen, |s.ledger|, p) || Overlooked(s, forced, seen, p))
       case StartUpFails(forced, batch) => Skipped(s, forced, p) && p !in batch
       case Connect(first, queue) => p > first && p > s.cursor && p !in queue
       case CatchUp(batch) =>
         && s.phase == CatchingUp && -1 <= s.cursor && s.first < |s.ledger|
         && Handed(s.ledger, s.cursor, s.first, s.first, p) && p !in batch && p !in s.queue
       case SendThenCrash(q) => Waiting(s, p) && p <= s.cursor && p != q
       case Disconnect => Waiting(s, p) && p <= s.cursor
       case Crash => s.phase == Live && Waiting(s, p) && p <= s.cursor
       case _ => false
  }

  /** Some step of the run lost the transaction. */
  ghost predicate WasLost(s0: State, steps: seq<Step>, p: nat)
    requires Possible(s0, steps)
    decreases |steps|
  {
    steps != [] &&
    (|| WasLost(s0, steps[..|steps| - 1], p)
     || Loses(Exec(s0, steps[..|steps| - 1]), steps[|steps| - 1], p))
  }

  /** Sent, waiting, or certain to be covered by the next scan. */
  predicate Accounted(s: State, p: nat) {
    p in s.sent ||
    match s.phase
    case Down => p > s.cursor
    case Idle => p > s.cursor
    case CatchingUp => p > s.cursor && (p <= s.first || p in s.queue)
    case Live => Waiting(s, p)
  }

  // ---------------------------------------------------------------- the scans behind the steps

  /** The scanner hands over signature `x` for address `a` from the range [lo, hi). */
  predicate Listed(l: Chain, a: Address, lo: nat, hi: nat, x: Signature)
    requires hi <= |l|
  {
    x in PageOrder(SignaturesOf(Statuses(l, Newest(l, a, lo, hi))), LIMIT)
  }

  lemma ScanLists(g: Chain, s: Chain, t1: Option<Signature>, t2: Option<Signature>, x: Signature)
    ensures x in ScanHanded(g, s, t1, t2, LIMIT)
       <==> Listed(g, Gateway, LowerEnd(g, t1), UpperEnd(g, t2), x)
            || Listed(s, GasService, LowerEnd(s, t1), UpperEnd(s, t2), x)
  {
    hide PageOrder, SignaturesOf, Statuses;
  }

  /** A signature is listed exactly if its position is in the history. */
  lemma ListedIff(l: Chain, a: Address, lo: nat, hi: nat, p: nat)
    requires ValidChain(l) && hi <= |l| && p < |l|
    ensures Listed(l, a, lo, hi, l[p].signature) <==> p in Newest(l, a, lo, hi)
  {
    var xs := SignaturesOf(Statuses(l, Newest(l, a, lo, hi)));
    PageOrderMultiset(xs, LIMIT);
    HistorySignaturesAgree(l, a, lo, hi);
    HistoryCount(l, a, lo, hi, p);
    NewestComplete(l, a, lo, hi, p);
    assert l[p].signature in PageOrder(xs, LIMIT) <==> l[p].signature in multiset(PageOrder(xs, LIMIT));
  }

  /** An entry that came later is not listed from an earlier ledger. */
  lemma NotYetListed(l: Chain, seen: nat, a: Address, lo: nat, p: nat)
    requires ValidChain(l) && seen <= p < |l|
    ensures !Listed(l[..seen], a, lo, seen, l[p].signature)
  {
    var xs := SignaturesOf(Statuses(l[..seen], Newest(l[..seen], a, lo, seen)));
    PageOrderMultiset(xs, LIMIT);
    forall i | 0 <= i < seen
      ensures l[..seen][i].signature != l[p].signature
    {
      assert l[i].signature != l[p].signature;
    }
    if l[p].signature in multiset(PageOrder(xs, LIMIT)) {
      HistoryKnown(l[..seen], a, lo, seen, l[p].signature);
    }
  }

  /** On a prefix that holds the stored entry, the stored signature bounds the scan just above it. */
  lemma StoredBound(l: Chain, seen: nat, cursor: int)
    requires ValidChain(l) && -1 <= cursor < seen <= |l|
    ensures ValidChain(l[..seen])
    ensures LowerEnd(l[..seen], StoredSignature(l, cursor)) == LowerEnd(l, StoredSignature(l, cursor)) == cursor + 1
  {
    if cursor >= 0 {
      PositionOfEntry(l, cursor);
      PositionOfEntry(l[..seen], cursor);
      assert l[..seen][cursor] == l[cursor];
    }
  }

  /** `Handed` in a catch-up step is what the scanner hands over between the stored
      signature and the first item. */
  lemma CatchUpIsAScan(l: Chain, cursor: int, first: nat, p: nat)
    requires ValidChain(l) && -1 <= cursor < |l| && first < |l| && p < |l|
    ensures Handed(l, cursor, first, first, p)
       <==> l[p].signature in ScanHanded(l, l, StoredSignature(l, cursor), Some(l[first].signature), LIMIT)
  {
    hide Listed, ScanHanded, Newest, LowerEnd, StoredSignature;
    StoredBound(l, |l|, cursor);
    assert l[..|l|] == l;
    PositionOfEntry(l, first);
    hide ValidChain, Position;
    ScanLists(l, l, StoredSignature(l, cursor), Some(l[first].signature), l[p].signature);
    ListedIff(l, Gateway, cursor + 1, first, p);
    ListedIff(l, GasService, cursor + 1, first, p);
  }

  /** `Handed` in a start-up step is what an open-ended scan hands over when the
      gateway part saw the first `seen` entries and the gas-service part all of them. */
  lemma StartUpIsAScan(l: Chain, cursor: int, seen: nat, p: nat)
    requires ValidChain(l) && -1 <= cursor < seen <= |l| && p < |l|
    ensures Handed(l, cursor, seen, |l|, p)
       <==> l[p].signature in ScanHanded(l[..seen], l, StoredSignature(l, cursor), None, LIMIT)
  {
    hide Listed, ScanHanded, Newest, ValidChain, LowerEnd, StoredSignature;
    StoredBound(l, seen, cursor);
    ScanLists(l[..seen], l, StoredSignature(l, cursor), None, l[p].signature);
    NewestStable(l[..seen], l, Gateway, cursor + 1, seen);
    ListedIff(l, GasService, cursor + 1, |l|, p);
    if p < seen {
      assert l[..seen][p] == l[p];
      ListedIff(l[..seen], Gateway, cursor + 1, seen, p);
    } else {
      NotYetListed(l, seen, Gateway, cursor + 1, p);
    }
  }

  lemma ScannedAbove(l: Chain, cursor: int, gas: seq<nat>)
    requires -1 <= cursor && gas == Newest(l, GasService, cursor + 1, |l|)
    ensures forall k :: 0 <= k < |gas| ==> gas[k] > cursor
  {
    hide Newest;
    forall k | 0 <= k < |gas|
      ensures gas[k] > cursor
    {
      NewestComplete(l, GasService, cursor + 1, |l|, gas[k]);
    }
  }

  lemma CursorRange(l: Chain, cursor: int, seen: nat)
    requires -1 <= cursor < seen <= |l|
    ensures cursor <= CursorAfterScan(l, cursor, seen) < |l|
  {
    hide Newest, LastHead, Ahead;
    var gw, gas := Newest(l, Gateway, cursor + 1, seen), Newest(l, GasService, cursor + 1, |l|);
    forall k | 0 <= k < |gas|
      ensures gas[k] > cursor
    {
      NewestComplete(l, GasService, cursor + 1, |l|, gas[k]);
    }
    if gw != [] {
      NewestComplete(l, Gateway, cursor + 1, seen, gw[0]);
    }
  }

  /** What a start-up scan reports is the entry the cursor moves to, if it moves. */
  lemma CursorIsReported(l: Chain, cursor: int, seen: nat)
    requires ValidChain(l) && -1 <= cursor < seen <= |l|
    ensures
      var stored := CursorAfterScan(l, cursor, seen);
      && cursor <= stored < |l|
      && ScanNewest(l[..seen], l, StoredSignature(l, cursor), None, LIMIT)
         == if stored == cursor then None else Some(l[stored].signature)
  {
    hide NoteAll, Heads, Ahead, LastHead, Newest, LowerEnd, StoredSignature, ValidChain;
    CursorRange(l, cursor, seen);
    StoredBound(l, seen, cursor);
    NewestStable(l[..seen], l, Gateway, cursor + 1, seen);
    var gw, gas := Newest(l, Gateway, cursor + 1, seen), Newest(l, GasService, cursor + 1, |l|);
    HistoryDescends(l[..seen], Gateway, cursor + 1, seen);
    HistoryDescends(l, GasService, cursor + 1, |l|);
    var gs, ss := Statuses(l[..seen], gw), Statuses(l, gas);
    FirstAddressFold(gs, LIMIT);
    if gw == [] {
      FirstAddressFold(ss, LIMIT);
      ScannedAbove(l, cursor, gas);
    } else {
      SecondAddressFold(NewestSoFar(Some(gs[0].signature), Some(gs[0].slot)), ss, LIMIT);
      ScannedAbove(l, cursor, gas);
      NewestComplete(l, Gateway, cursor + 1, seen, gw[0]);
    }
  }

  // ---------------------------------------------------------------- safety of every run

  lemma CursorAfterScanStays(s: State, forced: Option<int>, seen: nat)
    requires -1 <= ScanFrom(s, forced) < seen <= |s.ledger|
    ensures ScanFrom(s, forced) <= CursorAfterScan(s.ledger, ScanFrom(s, forced), seen) < |s.ledger|
  {
    CursorRange(s.ledger, ScanFrom(s, forced), seen);
  }

  lemma AppendWellFormed(s: State, e: Entry)
    requires Enabled(s, Append(e))
    ensures WellFormed(Next(s, Append(e)))
  {
    hide ValidChain;
    assert forall q :: q in Deliveries(e, |s.ledger|) ==> q == |s.ledger| && Target(s.ledger + [e], q);
    assert forall q: nat :: Target(s.ledger, q) ==> Target(s.ledger + [e], q);
    hide Target, Deliveries;
  }

  lemma PullWellFormed(s: State, i: nat)
    requires Enabled(s, Pull(i))
    ensures WellFormed(Next(s, Pull(i)))
  {
    hide ValidChain, Target;
    assert s.queue == s.queue[..i] + [s.queue[i]] + s.queue[i + 1..];
  }

  lemma FinishWellFormed(s: State, p: nat)
    requires Enabled(s, Finish(p))
    ensures WellFormed(Next(s, Finish(p)))
  {
    hide ValidChain;
    assert Target(s.ledger, p);
  }

  lemma StartUpWellFormed(s: State, forced: Option<int>, seen: nat, batch: seq<nat>)
    requires Enabled(s, StartUp(forced, seen, batch))
    ensures WellFormed(Next(s, StartUp(forced, seen, batch)))
  {
    hide CursorAfterScan, Handed, ValidChain, Target;
    CursorAfterScanStays(s, forced, seen);
  }

  lemma SessionWellFormed(s: State, step: Step)
    requires Enabled(s, step) && !step.Append? && !step.StartUp? && !step.Pull? && !step.Finish?
    ensures WellFormed(Next(s, step))
  {
    hide ValidChain, Target, Handed, CursorAfterScan, Deliveries;
  }

  /** The starting point never moves, and nothing sent or on the ledger is taken back. */
  lemma StepGrows(s: State, step: Step)
    requires Enabled(s, step)
    ensures ValidChain(Next(s, step).ledger) && Next(s, step).start == s.start
    ensures s.ledger <= Next(s, step).ledger && s.sent <= Next(s, step).sent
  {
    hide WellFormed, ValidChain, Target, Handed, CursorAfterScan, Deliveries;
  }

  lemma StepWellFormed(s: State, step: Step)
    requires Enabled(s, step)
    ensures WellFormed(Next(s, step)) && ValidChain(Next(s, step).ledger)
    ensures Next(s, step).start == s.start && s.ledger <= Next(s, step).ledger
    ensures s.sent <= Next(s, step).sent
  {
    hide Enabled, Next, WellFormed, ValidChain;
    StepGrows(s, step);
    match step
    case Append(e) => AppendWellFormed(s, e);
    case StartUp(forced, seen, batch) => StartUpWellFormed(s, forced, seen, batch);
    case Pull(i) => PullWellFormed(s, i);
    case Finish(p) => FinishWellFormed(s, p);
    case _ => SessionWellFormed(s, step);
  }

  lemma StartUpAccounts(s: State, forced: Option<int>, seen: nat, batch: seq<nat>, p: nat)
    requires Enabled(s, StartUp(forced, seen, batch)) && Target(s.ledger, p) && Accounted(s, p)
    ensures Accounted(Next(s, StartUp(forced, seen, batch)), p) <==> !Loses(s, StartUp(forced, seen, batch), p)
  {
    hide CursorAfterScan, Handed, ValidChain;
    HandedIff(s.ledger, ScanFrom(s, forced), seen, |s.ledger|, p);
    CursorAfterScanStays(s, forced, seen);
  }

  lemma CatchUpAccounts(s: State, batch: seq<nat>, p: nat)
    requires Enabled(s, CatchUp(batch)) && Target(s.ledger, p) && Accounted(s, p)
    ensures Accounted(Next(s, CatchUp(batch)), p) <==> !Loses(s, CatchUp(batch), p)
  {
    hide Handed, ValidChain;
    HandedIff(s.ledger, s.cursor, s.first, s.first, p);
  }

  lemma PullAccounts(s: State, i: nat, p: nat)
    requires Enabled(s, Pull(i)) && Target(s.ledger, p) && Accounted(s, p)
    ensures Accounted(Next(s, Pull(i)), p)
  {
    hide ValidChain;
    assert s.queue == s.queue[..i] + [s.queue[i]] + s.queue[i + 1..];
  }

  lemma OthersAccount(s: State, step: Step, p: nat)
    requires Enabled(s, step) && Target(s.ledger, p) && Accounted(s, p)
    requires !step.Append? && !step.StartUp? && !step.CatchUp? && !step.Pull?
    ensures Accounted(Next(s, step), p) <==> !Loses(s, step, p)
  {
    hide ValidChain, Target, Deliveries, CursorAfterScan, Handed, Overlooked;
  }

  lemma SameLedger(s: State, step: Step)
    requires Enabled(s, step) && !step.Append?
    ensures Next(s, step).ledger == s.ledger
  {
    hide WellFormed, ValidChain, Target, Handed, CursorAfterScan, Deliveries;
  }

  /** The listed losses are exact: a step stops accounting for a transaction if and only
      if it loses it. */
  lemma StepAccountsIff(s: State, step: Step, p: nat)
    requires Enabled(s, step) && !step.Append? && Target(s.ledger, p) && Accounted(s, p)
    ensures Accounted(Next(s, step), p) <==> !Loses(s, step, p)
  {
    hide Enabled, Next, Accounted, Target;
    match step
    case StartUp(forced, seen, batch) => StartUpAccounts(s, forced, seen, batch, p);
    case CatchUp(batch) => CatchUpAccounts(s, batch, p);
    case Pull(i) => PullAccounts(s, i, p);
    case _ => OthersAccount(s, step, p);
  }

  /** Growth of the ledger loses nothing, and accounts for the new entry at once. */
  lemma AppendAccounts(s: State, e: Entry, p: nat)
    requires Enabled(s, Append(e)) && p > s.start
    requires Target(s.ledger, p) ==> Accounted(s, p)
    ensures Target(Next(s, Append(e)).ledger, p) ==> Accounted(Next(s, Append(e)), p)
    ensures !Loses(s, Append(e), p) && (Target(s.ledger, p) ==> Target(Next(s, Append(e)).ledger, p))
  {
    hide ValidChain;
    if p == |s.ledger| {
      assert Target(s.ledger + [e], p) ==> p in Deliveries(e, p);
    }
  }

  /** A transaction that counts and is on the ledger is accounted for. */
  predicate Kept(s: State, p: nat) {
    Target(s.ledger, p) ==> Accounted(s, p)
  }

  lemma LosesTargets(s: State, step: Step, p: nat)
    ensures Loses(s, step, p) ==> Target(s.ledger, p)
  {
    hide Target, Handed, Overlooked, CursorAfterScan;
  }

  lemma StepKeepsIff(s: State, step: Step, p: nat)
    requires Enabled(s, step) && p > s.start && Kept(s, p)
    ensures Kept(Next(s, step), p) <==> !Loses(s, step, p)
  {
    hide Enabled, Next, Accounted, Target;
    if step.Append? {
      AppendAccounts(s, step.entry, p);
    } else {
      SameLedger(s, step);
      if Target(s.ledger, p) {
        StepAccountsIff(s, step, p);
      } else {
        LosesTargets(s, step, p);
      }
    }
  }

  /** At the beginning of the run and after each of its steps. */
  ghost predicate KeptThroughout(s0: State, steps: seq<Step>, p: nat)
    requires Possible(s0, steps)
    decreases |steps|
  {
    Kept(Exec(s0, steps), p) && (steps == [] || KeptThroughout(s0, steps[..|steps| - 1], p))
  }

  lemma KeptInitially(s0: State, p: nat)
    requires Initial(s0) && p > s0.start
    ensures Kept(s0, p)
  {
  }

  lemma KeptNow(s0: State, steps: seq<Step>, p: nat)
    requires Possible(s0, steps) && KeptThroughout(s0, steps, p)
    ensures Kept(Exec(s0, steps), p)
  {
  }

  /** The exact condition over every run with growth, reconnects, crashes and
      out-of-order completion: a transaction is accounted for all along if and only if
      no step loses it. */
  lemma {:induction false} KeptIffNotLost(s0: State, steps: seq<Step>, p: nat)
    requires Initial(s0) && Possible(s0, steps) && p > s0.start
    ensures Exec(s0, steps).start == s0.start && WellFormed(Exec(s0, steps))
    ensures KeptThroughout(s0, steps, p) <==> !WasLost(s0, steps, p)
  {
    hide Enabled, Next, Kept, Loses, Accounted, Target;
    if steps == [] {
      KeptInitially(s0, p);
    } else {
      var before, step := steps[..|steps| - 1], steps[|steps| - 1];
      KeptIffNotLost(s0, before, p);
      StepWellFormed(Exec(s0, before), step);
      if KeptThroughout(s0, before, p) {
        KeptNow(s0, before, p);
        StepKeepsIff(Exec(s0, before), step, p);
      }
    }
  }

  /** The relayer's promise: while the listener is live, every successful monitored
      transaction after the starting cursor is sent, queued or in flight, unless some
      earlier step lost it. */
  lemma NoSilentGap(s0: State, steps: seq<Step>, p: nat)
    requires Initial(s0) && Possible(s0, steps) && p > s0.start
    requires Exec(s0, steps).phase == Live && Target(Exec(s0, steps).ledger, p)
    ensures p in Exec(s0, steps).sent || Waiting(Exec(s0, steps), p) || WasLost(s0, steps, p)
  {
    KeptIffNotLost(s0, steps, p);
    if !WasLost(s0, steps, p) {
      KeptNow(s0, steps, p);
    }
  }

  // ---------------------------------------------------------------- runs in ledger order are gap-free

  ghost predicate FetchedAll(s: State, cursor: int, gatewayEnd: nat, gasEnd: nat, batch: seq<nat>)
    requires -1 <= cursor && gatewayEnd <= |s.ledger| && gasEnd <= |s.ledger|
  {
    forall p: nat :: Target(s.ledger, p) && Handed(s.ledger, cursor, gatewayEnd, gasEnd, p) ==> p in batch
  }

  /** A scan in this step fetched every successful transaction it listed. */
  ghost predicate Complete(s: State, step: Step)
    requires Enabled(s, step)
  {
    match step
    case StartUp(forced, seen, batch) => FetchedAll(s, ScanFrom(s, forced), seen, |s.ledger|, batch)
    case CatchUp(batch) => FetchedAll(s, s.cursor, s.first, s.first, batch)
    case _ => true
  }

  ghost predicate AllComplete(s0: State, steps: seq<Step>)
    requires Possible(s0, steps)
    decreases |steps|
  {
    steps == [] ||
    (AllComplete(s0, steps[..|steps| - 1]) && Complete(Exec(s0, steps[..|steps| - 1]), steps[|steps| - 1]))
  }

  /** What can still be lost when every fetch of a scan succeeds. */
  lemma CompleteStepLoses(s: State, step: Step, p: nat)
    requires Enabled(s, step) && Complete(s, step) && Loses(s, step, p)
    ensures match step
            case StartUp(forced, seen, _) => p < |s.ledger| && Overlooked(s, forced, seen, p)
            case StartUpFails(forced, _) => Skipped(s, forced, p)
            case Connect(first, queue) => p > first && p !in queue
            case _ => Waiting(s, p) && p <= s.cursor && p !in s.sent
  {
    hide CursorAfterScan, Handed, ValidChain;
  }

  /** Items are pulled and completed oldest first, both subscriptions miss nothing after
      the first item, the ledger stands still during the start-up scan, and nobody forces
      the cursor forward. */
  ghost predicate InLedgerOrder(s: State, step: Step) {
    match step
    case StartUp(forced, seen, batch) => seen == |s.ledger| && ScanFrom(s, forced) <= s.cursor
    case StartUpFails(forced, batch) => ScanFrom(s, forced) <= s.cursor
    case Connect(first, queue) => forall p: nat :: Target(s.ledger, p) && first < p ==> p in queue
    case Pull(i) => i < |s.queue| && forall q :: q in s.queue ==> s.queue[i] <= q
    case Finish(p) => forall q :: q in s.inFlight ==> p <= q
    case SendThenCrash(p) => forall q :: q in s.inFlight ==> p <= q
    case _ => true
  }

  ghost predicate AllInLedgerOrder(s0: State, steps: seq<Step>)
    requires Possible(s0, steps)
    decreases |steps|
  {
    steps == [] ||
    (AllInLedgerOrder(s0, steps[..|steps| - 1]) && InLedgerOrder(Exec(s0, steps[..|steps| - 1]), steps[|steps| - 1]))
  }

  /** In ledger order, and with scans that fetch everything they list. */
  ghost predicate Orderly(s: State, step: Step)
    requires Enabled(s, step)
  {
    Complete(s, step) && InLedgerOrder(s, step)
  }

  ghost predicate AllOrderly(s0: State, steps: seq<Step>)
    requires Possible(s0, steps)
    decreases |steps|
  {
    steps == [] ||
    (AllOrderly(s0, steps[..|steps| - 1]) && Orderly(Exec(s0, steps[..|steps| - 1]), steps[|steps| - 1]))
  }

  /** Fetches in flight are no newer than the queue, and nothing that waits unsent
      has been overtaken by the cursor. */
  ghost predicate InOrder(s: State) {
    && (forall a, b :: a in s.inFlight && b in s.queue ==> a <= b)
    && (forall q: nat :: Waiting(s, q) ==> q > s.cursor || q in s.sent || q <= s.start)
  }

  ghost predicate AllAccounted(s: State) {
    forall p: nat :: p > s.start ==> Kept(s, p)
  }

  lemma OrderlyStepLosesNothing(s: State, step: Step, p: nat)
    requires Enabled(s, step) && Orderly(s, step) && InOrder(s) && p > s.start
    ensures !Loses(s, step, p)
  {
    if step.StartUp? {
      CursorAfterScanStays(s, step.forced, step.seen);
    }
  }

  lemma PullKeepsOrder(s: State, i: nat)
    requires Enabled(s, Pull(i)) && Orderly(s, Pull(i)) && InOrder(s)
    ensures InOrder(Next(s, Pull(i)))
  {
    hide ValidChain;
    assert s.queue == s.queue[..i] + [s.queue[i]] + s.queue[i + 1..];
    forall a, b | a in Next(s, Pull(i)).inFlight && b in Next(s, Pull(i)).queue
      ensures a <= b
    {
      assert b in s.queue;
    }
  }

  lemma FinishKeepsOrder(s: State, p: nat)
    requires Enabled(s, Finish(p)) && Orderly(s, Finish(p)) && InOrder(s)
    ensures InOrder(Next(s, Finish(p)))
  {
    hide ValidChain, Target;
    forall q: nat | Waiting(Next(s, Finish(p)), q)
      ensures q > p || q in s.sent + [p]
    {
      assert p <= q;
    }
  }

  lemma ConnectKeepsOrder(s: State, first: nat, queue: seq<nat>)
    requires Enabled(s, Connect(first, queue)) && AllAccounted(s)
    ensures InOrder(Next(s, Connect(first, queue)))
  {
    hide ValidChain;
    forall q: nat | q in queue && q > s.start
      ensures q > s.cursor || q in s.sent
    {
      assert Target(s.ledger, q) && Kept(s, q);
    }
  }

  lemma AppendKeepsOrder(s: State, e: Entry)
    requires Enabled(s, Append(e)) && InOrder(s)
    ensures InOrder(Next(s, Append(e)))
  {
    hide ValidChain;
    assert forall q :: q in Deliveries(e, |s.ledger|) ==> q == |s.ledger|;
  }

  lemma OthersKeepOrder(s: State, step: Step)
    requires Enabled(s, step) && Orderly(s, step) && InOrder(s)
    requires !step.Append? && !step.Connect? && !step.Pull? && !step.Finish?
    ensures InOrder(Next(s, step))
  {
    hide ValidChain, CursorAfterScan, Handed, FetchedAll, Target, Deliveries;
  }

  lemma OrderlyStepKeepsOrder(s: State, step: Step)
    requires Enabled(s, step) && Orderly(s, step) && InOrder(s) && AllAccounted(s)
    ensures InOrder(Next(s, step))
  {
    hide Enabled, Next, Orderly, InOrder, AllAccounted;
    match step
    case Append(e) => AppendKeepsOrder(s, e);
    case Pull(i) => PullKeepsOrder(s, i);
    case Finish(p) => FinishKeepsOrder(s, p);
    case Connect(first, queue) => ConnectKeepsOrder(s, first, queue);
    case _ => OthersKeepOrder(s, step);
  }

  lemma NothingWaits(s: State)
    requires Initial(s)
    ensures InOrder(s)
  {
    hide Target;
  }

  lemma {:induction false} OrderlyRunInvariant(s0: State, steps: seq<Step>)
    requires Initial(s0) && Possible(s0, steps) && AllOrderly(s0, steps)
    ensures InOrder(Exec(s0, steps)) && AllAccounted(Exec(s0, steps))
    ensures forall p: nat :: p > s0.start ==> !WasLost(s0, steps, p)
  {
    hide Enabled, Next, Orderly, Kept, Loses, Accounted, Target, Waiting;
    KeptIffNotLost(s0, steps, if s0.start < 0 then 0 else s0.start + 1);
    if steps == [] {
      forall p: nat | p > s0.start
        ensures Kept(s0, p)
      {
        KeptInitially(s0, p);
      }
      NothingWaits(s0);
    } else {
      var before, step := steps[..|steps| - 1], steps[|steps| - 1];
      var s := Exec(s0, before);
      OrderlyRunInvariant(s0, before);
      OrderlyStepKeepsOrder(s, step);
      StepGrows(s, step);
      forall p: nat | p > s0.start
        ensures !WasLost(s0, steps, p) && Kept(Exec(s0, steps), p)
      {
        OrderlyStepLosesNothing(s, step, p);
        StepKeepsIff(s, step, p);
      }
    }
  }

  /** Gap-freedom without exceptions for runs in ledger order. */
  lemma OrderlyRunsAreGapFree(s0: State, steps: seq<Step>, p: nat)
    requires Initial(s0) && Possible(s0, steps) && AllOrderly(s0, steps) && p > s0.start
    requires Exec(s0, steps).phase == Live && Target(Exec(s0, steps).ledger, p)
    ensures p in Exec(s0, steps).sent || Waiting(Exec(s0, steps), p)
  {
    OrderlyRunInvariant(s0, steps);
    NoSilentGap(s0, steps, p);
  }

  // ---------------------------------------------------------------- exactly when a gap opens

  /** A reconnect opens no gap if and only if nothing waiting unsent was overtaken
      by the cursor, which completion order alone decides. */
  lemma DisconnectSafeIff(s: State)
    requires Enabled(s, Disconnect) && AllAccounted(s)
    ensures AllAccounted(Next(s, Disconnect))
       <==> forall q: nat :: Waiting(s, q) && q > s.start && q <= s.cursor ==> q in s.sent
  {
    forall q: nat | q > s.start
      ensures Kept(Next(s, Disconnect), q) <==> (Waiting(s, q) && q <= s.cursor ==> q in s.sent)
    {
      StepKeepsIff(s, Disconnect, q);
    }
  }

  /** Setting up the subscriptions opens no gap if and only if they deliver every
      unsent transaction after the first item. */
  lemma ConnectSafeIff(s: State, first: nat, queue: seq<nat>)
    requires Enabled(s, Connect(first, queue)) && AllAccounted(s)
    ensures AllAccounted(Next(s, Connect(first, queue)))
       <==> forall p: nat :: Target(s.ledger, p) && p > s.start && p > first && p !in s.sent ==> p in queue
  {
    var step := Connect(first, queue);
    forall p: nat | p > s.start
      ensures Kept(Next(s, step), p) <==> (Target(s.ledger, p) && p > first && p !in s.sent ==> p in queue)
    {
      StepKeepsIff(s, step, p);
      assert Target(s.ledger, p) && p !in s.sent ==> Kept(s, p) && p > s.cursor;
    }
  }

  /** A start-up scan, whatever its fetches did, opens no gap if and only if every unsent
      transaction between the old cursor and the position it stores was fetched. */
  lemma StartUpSafeIff(s: State, forced: Option<int>, seen: nat, batch: seq<nat>)
    requires Enabled(s, StartUp(forced, seen, batch)) && AllAccounted(s)
    ensures AllAccounted(Next(s, StartUp(forced, seen, batch)))
       <==> forall p: nat ::
              (Target(s.ledger, p) && p > s.start && p !in s.sent
               && s.cursor < p <= CursorAfterScan(s.ledger, ScanFrom(s, forced), seen)
               ==> p in batch)
  {
    hide CursorAfterScan, Handed, ValidChain;
    var step := StartUp(forced, seen, batch);
    var stored := CursorAfterScan(s.ledger, ScanFrom(s, forced), seen);
    forall p: nat | p > s.start
      ensures Kept(Next(s, step), p)
         <==> (Target(s.ledger, p) && p !in s.sent && s.cursor < p <= stored ==> p in batch)
    {
      assert Kept(s, p);
    }
  }

  /** Overlooked transactions are never fetched by the scan, and lost unless sent before. */
  lemma OverlookedIff(s: State, forced: Option<int>, seen: nat, batch: seq<nat>, p: nat)
    requires Enabled(s, StartUp(forced, seen, batch)) && Complete(s, StartUp(forced, seen, batch)) && Kept(s, p)
    ensures Loses(s, StartUp(forced, seen, batch), p)
       <==> Target(s.ledger, p) && p !in s.sent && Overlooked(s, forced, seen, p)
  {
    hide CursorAfterScan, Handed, ValidChain;
    HandedIff(s.ledger, ScanFrom(s, forced), seen, |s.ledger|, p);
    CursorAfterScanStays(s, forced, seen);
  }

  /** When all its fetches succeed, a start-up scan opens no gap if and only if it
      overlooks nothing unsent. */
  lemma CompleteStartUpSafeIff(s: State, forced: Option<int>, seen: nat, batch: seq<nat>)
    requires Enabled(s, StartUp(forced, seen, batch)) && AllAccounted(s)
    requires Complete(s, StartUp(forced, seen, batch))
    ensures AllAccounted(Next(s, StartUp(forced, seen, batch)))
       <==> forall p: nat ::
              Target(s.ledger, p) && p > s.start && Overlooked(s, forced, seen, p) ==> p in s.sent
  {
    var step := StartUp(forced, seen, batch);
    forall p: nat | p > s.start
      ensures Kept(Next(s, step), p) <==> (Target(s.ledger, p) && Overlooked(s, forced, seen, p) ==> p in s.sent)
    {
      StepKeepsIff(s, step, p);
      OverlookedIff(s, forced, seen, batch, p);
    }
    hide Overlooked, Kept;
  }

  // ---------------------------------------------------------------- a run that loses a transaction

  function GatewayEntry(n: nat): Entry {
    Entry(n, n, {Gateway}, true, 5000, [])
  }

  function Fresh(): State {
    State([], -1, -1, [], Down, 0, [], multiset{})
  }

  /** Two fetches overlap, the newer one completes first, then the connection drops
      and is set up again. */
  function OvertakingSteps(): seq<Step> {
    [ StartUp(None, 0, []), Append(GatewayEntry(0)), Append(GatewayEntry(1)), Append(GatewayEntry(2)),
      Connect(0, [1, 2]), CatchUp([]), Pull(0), Pull(0), Finish(2), Disconnect, Connect(2, []), CatchUp([]) ]
  }

  function Ledgers(n: nat): Chain {
    seq(n, (i: nat) => GatewayEntry(i))
  }

  /** The states this run goes through. */
  function Stage(k: nat): State {
    if k == 0 then Fresh()
    else if k <= 4 then Fresh().(phase := Idle, ledger := Ledgers(k - 1))
    else if k == 5 then State(Ledgers(3), -1, -1, [], CatchingUp, 0, [1, 2], multiset{})
    else if k == 6 then State(Ledgers(3), -1, -1, [0], Live, 0, [1, 2], multiset{})
    else if k == 7 then State(Ledgers(3), -1, -1, [0], Live, 0, [2], multiset{1})
    else if k == 8 then State(Ledgers(3), -1, -1, [0], Live, 0, [], multiset{1, 2})
    else if k == 9 then State(Ledgers(3), -1, 2, [0, 2], Live, 0, [], multiset{1})
    else if k == 10 then State(Ledgers(3), -1, 2, [0, 2], Idle, 0, [], multiset{})
    else if k == 11 then State(Ledgers(3), -1, 2, [0, 2], CatchingUp, 2, [], multiset{})
    else State(Ledgers(3), -1, 2, [0, 2, 2], Live, 2, [], multiset{})
  }

  ghost predicate StageStep(k: nat)
    requires k < 12
  {
    Enabled(Stage(k), OvertakingSteps()[k]) && Next(Stage(k), OvertakingSteps()[k]) == Stage(k + 1)
  }

  lemma LedgersValid(n: nat)
    ensures ValidChain(Ledgers(n)) && |Ledgers(n)| == n && Ledgers(n) + [GatewayEntry(n)] == Ledgers(n + 1)
    ensures forall p: nat :: Target(Ledgers(n), p) <==> p < n
  {
  }

  lemma StageOfEmptyScan()
    ensures StageStep(0)
  {
    assert CursorAfterScan([], -1, 0) == -1;
    hide CursorAfterScan;
  }

  lemma StagesOfGrowth(k: nat)
    requires 1 <= k <= 3
    ensures StageStep(k)
  {
    hide ValidChain, Target, Ledgers, CursorAfterScan, Handed;
    LedgersValid(k - 1);
    LedgersValid(k);
  }

  lemma StagesOfFirstSession()
    ensures StageStep(4) && StageStep(5)
  {
    hide ValidChain, Target, Ledgers, CursorAfterScan, Handed;
    LedgersValid(3);
  }

  lemma StagesOfPulls(k: nat)
    requires 6 <= k <= 7
    ensures StageStep(k)
  {
    hide ValidChain, Target, Ledgers, CursorAfterScan, Handed, Deliveries;
    LedgersValid(3);
    assert [1, 2][..0] + [1, 2][1..] == [2] && [2][..0] + [2][1..] == [];
  }

  lemma StagesOfOvertaking(k: nat)
    requires 8 <= k <= 9
    ensures StageStep(k)
  {
    hide ValidChain, Target, Ledgers, CursorAfterScan, Handed, Deliveries;
    LedgersValid(3);
  }

  lemma StagesOfSecondSession(k: nat)
    requires 10 <= k <= 11
    ensures StageStep(k)
  {
    hide ValidChain, Target, Ledgers, CursorAfterScan, Handed, Deliveries;
    LedgersValid(3);
  }

  lemma Extend(s0: State, steps: seq<Step>, step: Step)
    requires Possible(s0, steps) && Enabled(Exec(s0, steps), step)
    ensures Possible(s0, steps + [step])
    ensures Exec(s0, steps + [step]) == Next(Exec(s0, steps), step)
  {
    assert (steps + [step])[..|steps|] == steps;
  }

  lemma {:induction false} StagesFollow(k: nat)
    requires k <= 12 && forall j: nat :: j < k ==> StageStep(j)
    ensures Possible(Fresh(), OvertakingSteps()[..k]) && Exec(Fresh(), OvertakingSteps()[..k]) == Stage(k)
  {
    hide Enabled, Next;
    if k == 0 {
    } else {
      StagesFollow(k - 1);
      var steps := OvertakingSteps();
      assert StageStep(k - 1);
      Extend(Fresh(), steps[..k - 1], steps[k - 1]);
      assert steps[..k] == steps[..k - 1] + [steps[k - 1]];
    }
  }

  /** Gap-freedom fails in general: completion order alone makes transaction 1
      disappear, although it is on the ledger, successful, monitored, delivered and
      older than everything the listener has sent last. */
  lemma OvertakingLosesATransaction()
    ensures Initial(Fresh()) && Possible(Fresh(), OvertakingSteps())
    ensures
      var s := Exec(Fresh(), OvertakingSteps());
      s.phase == Live && Target(s.ledger, 1) && s.sent == [0, 2, 2] && !Waiting(s, 1)
  {
    hide Possible, Exec, Enabled, Next, StageStep;
    StageOfEmptyScan();
    forall k: nat | k < 12
      ensures StageStep(k)
    {
      if 1 <= k <= 3 { StagesOfGrowth(k); }
      if 4 <= k <= 5 { StagesOfFirstSession(); }
      if 6 <= k <= 7 { StagesOfPulls(k); }
      if 8 <= k <= 9 { StagesOfOvertaking(k); }
      if 10 <= k <= 11 { StagesOfSecondSession(k); }
    }
    StagesFollow(12);
    assert OvertakingSteps()[..12] == OvertakingSteps();
  }

  // ---------------------------------------------------------------- runs that overlook a transaction

  function GasServiceEntry(n: nat): Entry {
    Entry(n, n, {GasService}, true, 5000, [])
  }

  /** One gateway transaction, then one of the gas service. */
  function MixedLedger(): Chain {
    [GatewayEntry(0), GasServiceEntry(1)]
  }

  lemma MixedLedgerValid()
    ensures ValidChain(MixedLedger()) && ValidChain([GatewayEntry(0)]) && ValidChain([])
    ensures forall p: nat :: Target(MixedLedger(), p) <==> p < 2
    ensures Target([GatewayEntry(0)], 0)
    ensures [] + [GatewayEntry(0)] == [GatewayEntry(0)] && [GatewayEntry(0)] + [GasServiceEntry(1)] == MixedLedger()
  {
  }

  /** The ledger grows by both transactions while nobody listens. */
  lemma GrowMixed(s: State)
    requires s == Fresh() || s == Fresh().(phase := Idle)
    ensures Enabled(s, Append(GatewayEntry(0)))
    ensures
      var t := s.(ledger := [GatewayEntry(0)]);
      && Next(s, Append(GatewayEntry(0))) == t && Enabled(t, Append(GasServiceEntry(1)))
      && Next(t, Append(GasServiceEntry(1))) == s.(ledger := MixedLedger())
  {
    hide ValidChain, Target, Handed, CursorAfterScan, Deliveries;
    MixedLedgerValid();
    assert s.queue + [] == s.queue;
  }

  /** The scan read the gateway's history before the first of two transactions and the
      gas service's after the second. */
  function OverlookingScan(): seq<Step> {
    [Append(GatewayEntry(0)), Append(GasServiceEntry(1)), StartUp(None, 0, [1])]
  }

  lemma OverlookingStep()
    ensures
      var s, step := Fresh().(ledger := MixedLedger()), StartUp(None, 0, [1]);
      && Enabled(s, step) && Complete(s, step) && Loses(s, step, 0)
      && Next(s, step) == s.(phase := Idle, sent := [1], cursor := 1)
  {
    hide ValidChain, Target;
    MixedLedgerValid();
    var l := MixedLedger();
    assert Newest(l, Gateway, 0, 0) == [] && Newest(l, GasService, 0, 2) == [1] + Newest(l, GasService, 0, 1);
    assert Newest(l, GasService, 0, 1) == Newest(l, GasService, 0, 0) == [];
    assert CursorAfterScan(l, -1, 0) == 1;
    forall p
      ensures Handed(l, -1, 0, 2, p) <==> p == 1
    {
      HandedIff(l, -1, 0, 2, p);
    }
  }

  lemma StartRun(s0: State)
    ensures Possible(s0, []) && Exec(s0, []) == s0 && AllComplete(s0, [])
  {
  }

  /** Extending a run whose scans were complete by one more step. */
  lemma ExtendComplete(s0: State, steps: seq<Step>, step: Step)
    requires Possible(s0, steps) && AllComplete(s0, steps)
    requires Enabled(Exec(s0, steps), step)
    requires step.StartUp? || step.CatchUp? ==> Complete(Exec(s0, steps), step)
    ensures Possible(s0, steps + [step]) && AllComplete(s0, steps + [step])
    ensures Exec(s0, steps + [step]) == Next(Exec(s0, steps), step)
    ensures forall p :: Loses(Exec(s0, steps), step, p) ==> WasLost(s0, steps + [step], p)
  {
    hide Enabled, Next, Loses;
    assert (steps + [step])[..|steps|] == steps;
  }

  /** It fetches all it lists, and yet the first transaction is lost: never sent, and
      below the stored cursor. */
  lemma StartUpCanOverlook()
    ensures Initial(Fresh()) && Possible(Fresh(), OverlookingScan())
    ensures AllComplete(Fresh(), OverlookingScan()) && WasLost(Fresh(), OverlookingScan(), 0)
    ensures
      var s := Exec(Fresh(), OverlookingScan());
      Target(s.ledger, 0) && s.sent == [1] && s.cursor == 1 && !Accounted(s, 0)
  {
    hide Possible, Exec, Enabled, Next, Loses, Complete, AllComplete, WasLost;
    var steps := OverlookingScan();
    GrowMixed(Fresh());
    StartRun(Fresh());
    ExtendComplete(Fresh(), [], steps[0]);
    ExtendComplete(Fresh(), [] + [steps[0]], steps[1]);
    OverlookingStep();
    ExtendComplete(Fresh(), [] + [steps[0]] + [steps[1]], steps[2]);
    assert [] + [steps[0]] + [steps[1]] + [steps[2]] == steps;
    MixedLedgerValid();
  }

  /** The first item arrives over one subscription, and a transaction for the other
      lands before that one is in place. */
  function LateSubscription(): seq<Step> {
    [StartUp(None, 0, []), Append(GatewayEntry(0)), Append(GasServiceEntry(1)), Connect(0, [])]
  }

  lemma EmptyScanComplete()
    ensures Enabled(Fresh(), StartUp(None, 0, [])) ==> Complete(Fresh(), StartUp(None, 0, []))
    ensures Stage(1) == Fresh().(phase := Idle)
  {
    assert Ledgers(0) == [];
  }

  lemma MissingStep()
    ensures
      var s, step := Fresh().(phase := Idle, ledger := MixedLedger()), Connect(0, []);
      && Enabled(s, step) && Loses(s, step, 1)
      && Next(s, step) == s.(phase := CatchingUp, first := 0, queue := [])
  {
    hide ValidChain, Handed, CursorAfterScan;
    MixedLedgerValid();
  }

  lemma ConnectCanMiss()
    ensures Initial(Fresh()) && Possible(Fresh(), LateSubscription())
    ensures AllComplete(Fresh(), LateSubscription()) && WasLost(Fresh(), LateSubscription(), 1)
    ensures
      var s := Exec(Fresh(), LateSubscription());
      Target(s.ledger, 1) && 1 !in s.sent && !Accounted(s, 1)
  {
    hide Possible, Exec, Enabled, Next, Loses, Complete, AllComplete, WasLost;
    var steps := LateSubscription();
    StartRun(Fresh());
    StageOfEmptyScan();
    EmptyScanComplete();
    ExtendComplete(Fresh(), [], steps[0]);
    GrowMixed(Fresh().(phase := Idle));
    ExtendComplete(Fresh(), [] + [steps[0]], steps[1]);
    ExtendComplete(Fresh(), [] + [steps[0]] + [steps[1]], steps[2]);
    MissingStep();
    ExtendComplete(Fresh(), [] + [steps[0]] + [steps[1]] + [steps[2]], steps[3]);
    assert [] + [steps[0]] + [steps[1]] + [steps[2]] + [steps[3]] == steps;
    MixedLedgerValid();
  }
}
