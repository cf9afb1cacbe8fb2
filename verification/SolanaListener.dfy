/** The listener process as the code runs it: an optionally forced cursor, the
    start-up scan, then one session after another of subscribing, catching up and
    forwarding, until an error ends the process and it is started again. Every such
    execution is a run of the transition system. */
module SolanaListener {
  import opened Basics
  import opened Ledger
  import opened BatchScanner
  import opened ScanProperties
  import opened ListenerRun
  import opened RealtimeSession
  import opened SessionTurns

  /** `succeeded` tells the truth about every transaction that gets on the ledger. */
  ghost predicate Truthful(succeeded: Signature -> bool, views: nat -> Chain) {
    forall n, i :: 0 <= i < |views(n)| ==> (succeeded(views(n)[i].signature) <==> views(n)[i].successful)
  }

  // ---------------------------------------------------------------- runs under construction

  /** `steps` lead from `s0` to `s`; when `r`, no scan among them missed a transaction. */
  ghost predicate Reached(r: bool, s0: State, steps: seq<Step>, s: State) {
    && Possible(s0, steps) && Exec(s0, steps) == s && WellFormed(s) && ValidChain(s.ledger)
    && (r ==> AllComplete(s0, steps))
  }

  lemma Advance(r: bool, s0: State, steps: seq<Step>, s: State, step: Step)
    requires Reached(r, s0, steps, s) && Enabled(s, step) && (r ==> Complete(s, step))
    ensures Reached(r, s0, steps + [step], Next(s, step))
  {
    hide Enabled, Next, WellFormed, Complete;
    Extend(s0, steps, step);
    StepWellFormed(s, step);
    assert (steps + [step])[..|steps|] == steps;
  }

  lemma LastStep(s: State, steps: seq<Step>)
    requires Possible(s, steps)
    ensures steps == [] ==> Exec(s, steps) == s
    ensures steps != [] ==>
      var n := |steps| - 1;
      && Possible(s, steps[..n]) && Enabled(Exec(s, steps[..n]), steps[n])
      && Exec(s, steps) == Next(Exec(s, steps[..n]), steps[n])
  {
    hide Enabled, Next;
  }

  /** A run that goes on with the steps of another. */
  lemma {:induction false} Continue(r: bool, s0: State, before: seq<Step>, s: State, more: seq<Step>)
    requires Reached(r, s0, before, s) && Possible(s, more) && NoScans(more)
    ensures Reached(r, s0, before + more, Exec(s, more))
    decreases |more|
  {
    hide Enabled, Next, WellFormed, ValidChain, Possible, Exec;
    LastStep(s, more);
    if more == [] {
      assert before + more == before;
    } else {
      var n := |more| - 1;
      Continue(r, s0, before, s, more[..n]);
      Advance(r, s0, before + more[..n], Exec(s, more[..n]), more[n]);
      assert before + more == before + more[..n] + [more[n]];
    }
  }

  function Grown(s: State, l: Chain): State
    requires s.ledger <= l
  {
    s.(ledger := l, queue := s.queue + if Subscribed(s) then Arrived(l, |s.ledger|) else [])
  }

  lemma GrownBy(s: State, l: Chain)
    requires s.ledger < l && WellFormed(Grown(s, l[..|l| - 1])) && ValidChain(l)
    ensures
      var n := |l| - 1;
      Enabled(Grown(s, l[..n]), Append(l[n])) && Next(Grown(s, l[..n]), Append(l[n])) == Grown(s, l)
  {
    hide Enabled, Next, WellFormed, ValidChain, Deliveries;
    var n := |l| - 1;
    assert l == l[..n] + [l[n]];
    PrefixValid(l[..n], l);
    AppendStep(Grown(s, l[..n]), l[n]);
    var arrived, now := Arrived(l[..n], |s.ledger|), Deliveries(l[n], n);
    assert s.queue + (arrived + now) == s.queue + arrived + now;
    assert s.queue + [] == s.queue && s.queue + [] + [] == s.queue;
  }

  /** Ledger growth is a run. */
  lemma {:induction false} Grow(r: bool, s0: State, steps: seq<Step>, s: State, l: Chain) returns (more: seq<Step>)
    requires Reached(r, s0, steps, s) && s.ledger <= l && ValidChain(l)
    ensures Reached(r, s0, more, Grown(s, l)) && Acts(more) == Acts(steps)
    decreases |l|
  {
    hide Possible, Exec, Enabled, Next, WellFormed, ValidChain, Deliveries, Acts;
    if |l| == |s.ledger| {
      assert l == s.ledger && s.queue + Arrived(l, |l|) == s.queue && s.queue + [] == s.queue;
      assert Grown(s, l) == s;
      more := steps;
    } else {
      var n := |l| - 1;
      PrefixValid(l[..n], l);
      more := Grow(r, s0, steps, s, l[..n]);
      GrownBy(s, l);
      Advance(r, s0, more, Grown(s, l[..n]), Append(l[n]));
      ActsOn(more, Append(l[n]));
      more := more + [Append(l[n])];
    }
  }

  lemma GrowIdle(r: bool, s0: State, steps: seq<Step>, s: State, l: Chain) returns (more: seq<Step>)
    requires Reached(r, s0, steps, s) && !Subscribed(s) && s.ledger <= l && ValidChain(l)
    ensures Reached(r, s0, more, s.(ledger := l)) && Acts(more) == Acts(steps)
  {
    hide Reached, ValidChain, Arrived, Acts;
    assert s.queue + [] == s.queue;
    more := Grow(r, s0, steps, s, l);
  }

  // ---------------------------------------------------------------- what a scan sends

  function Positions(l: Chain, ss: seq<Signature>): (r: seq<nat>)
    ensures |r| == |ss| && forall i :: 0 <= i < |r| ==> r[i] == Position(l, ss[i]).GetOr(0)
  {
    seq(|ss|, i requires 0 <= i < |ss| => Position(l, ss[i]).GetOr(0))
  }

  lemma ListedKnown(l: Chain, a: Address, lo: nat, hi: nat, x: Signature)
    requires hi <= |l| && Listed(l, a, lo, hi, x)
    ensures exists p: nat :: p < hi && a in l[p].mentions && l[p].signature == x
  {
    var ps := Newest(l, a, lo, hi);
    var xs := SignaturesOf(Statuses(l, ps));
    PageOrderMultiset(xs, LIMIT);
    assert x in multiset(PageOrder(xs, LIMIT));
    var k :| 0 <= k < |xs| && xs[k] == x;
    NewestComplete(l, a, lo, hi, ps[k]);
    assert l[ps[k]].signature == x;
  }

  /** Whatever a scan hands over is a monitored transaction of the ledger it saw. */
  lemma HandedIsMonitored(g: Chain, s: Chain, l: Chain, t1: Option<Signature>, t2: Option<Signature>, x: Signature)
    requires g <= s <= l && ValidChain(l) && x in ScanHanded(g, s, t1, t2, LIMIT)
    ensures Position(l, x).Some? && Position(l, x).value < |s|
    ensures l[Position(l, x).value].signature == x && Monitored(l[Position(l, x).value])
  {
    hide Listed, ScanHanded;
    ScanLists(g, s, t1, t2, x);
    var p: nat;
    if Listed(g, Gateway, LowerEnd(g, t1), UpperEnd(g, t2), x) {
      ListedKnown(g, Gateway, LowerEnd(g, t1), UpperEnd(g, t2), x);
      p :| p < |g| && Gateway in g[p].mentions && g[p].signature == x;
      assert l[p] == g[p];
    } else {
      ListedKnown(s, GasService, LowerEnd(s, t1), UpperEnd(s, t2), x);
      p :| p < |s| && GasService in s[p].mentions && s[p].signature == x;
      assert l[p] == s[p];
    }
    PositionOfEntry(l, p);
  }

  /** `sent` came out of a scan that handed over `ScanHanded(g, s, ..)`. */
  ghost predicate SentBy(sent: seq<Signature>, g: Chain, s: Chain, t1: Option<Signature>, t2: Option<Signature>,
                         succeeded: Signature -> bool) {
    forall x :: x in sent ==> x in ScanHanded(g, s, t1, t2, LIMIT) && succeeded(x)
  }

  lemma SentAreTargets(views: nat -> Chain, n: nat, sent: seq<Signature>, g: Chain, s: Chain, t1: Option<Signature>,
                       t2: Option<Signature>, succeeded: Signature -> bool)
    requires Growing(views) && Truthful(succeeded, views) && g <= s <= views(n)
    requires SentBy(sent, g, s, t1, t2, succeeded)
    ensures forall p :: p in Positions(views(n), sent) ==>
      && p < |s| && Target(views(n), p) && views(n)[p].signature in ScanHanded(g, s, t1, t2, LIMIT)
  {
    hide ScanHanded, Position;
    forall k | 0 <= k < |sent|
      ensures
        var p := Positions(views(n), sent)[k];
        p < |s| && Target(views(n), p) && views(n)[p].signature == sent[k]
    {
      assert sent[k] in sent;
      HandedIsMonitored(g, s, views(n), t1, t2, sent[k]);
    }
  }

  /** With reliable fetches a scan sends every successful transaction it hands over. */
  ghost predicate SentAll(sent: seq<Signature>, g: Chain, s: Chain, t1: Option<Signature>, t2: Option<Signature>,
                          succeeded: Signature -> bool) {
    forall x :: x in ScanHanded(g, s, t1, t2, LIMIT) && succeeded(x) ==> x in sent
  }

  lemma SentAreAllTargets(views: nat -> Chain, n: nat, sent: seq<Signature>, g: Chain, s: Chain, t1: Option<Signature>,
                          t2: Option<Signature>, succeeded: Signature -> bool, p: nat)
    requires Growing(views) && Truthful(succeeded, views) && SentAll(sent, g, s, t1, t2, succeeded)
    requires Target(views(n), p) && views(n)[p].signature in ScanHanded(g, s, t1, t2, LIMIT)
    ensures p in Positions(views(n), sent)
  {
    hide ScanHanded, Position;
    PositionOfEntry(views(n), p);
    var k :| 0 <= k < |sent| && sent[k] == views(n)[p].signature;
    assert Positions(views(n), sent)[k] == p;
  }

  lemma HistoryStable(g: Chain, l: Chain, a: Address, t1: Option<Signature>, t2: Option<Signature>)
    requires g <= l && LowerEnd(g, t1) == LowerEnd(l, t1) && UpperEnd(g, t2) == UpperEnd(l, t2)
    ensures History(g, a, t1, t2) == History(l, a, t1, t2)
  {
    NewestStable(g, l, a, LowerEnd(l, t1), UpperEnd(l, t2));
  }

  /** A catch-up scan hands over the same, whenever its two parts were read. */
  lemma CatchUpStable(g: Chain, s: Chain, l: Chain, cursor: int, first: nat)
    requires g <= s <= l && ValidChain(l) && -1 <= cursor < |g| && first < |g|
    ensures
      var t1, t2 := StoredSignature(g, cursor), Some(g[first].signature);
      && t1 == StoredSignature(l, cursor) && l[first] == g[first]
      && ScanHanded(g, s, t1, t2, LIMIT) == ScanHanded(l, l, t1, t2, LIMIT)
  {
    var t1, t2 := StoredSignature(g, cursor), Some(g[first].signature);
    assert g == l[..|g|] && s == l[..|s|];
    assert t1 == StoredSignature(l, cursor);
    StoredBound(l, |g|, cursor);
    StoredBound(l, |s|, cursor);
    PositionOfEntry(g, first);
    PositionOfEntry(s, first);
    PositionOfEntry(l, first);
    hide LowerEnd, PageOrder, History, ValidChain, Position, StoredSignature;
    HistoryStable(g, l, Gateway, t1, t2);
    HistoryStable(s, l, GasService, t1, t2);
  }

  lemma TargetsAre(l: Chain, ps: seq<nat>)
    ensures Targets(l, ps) <==> forall q :: q in ps ==> Target(l, q)
  {
  }

  /** The lower bound that a stored signature gives, as a cursor. A signature the chain
      does not know bounds nothing, like none at all. */
  function CursorOf(l: Chain, stored: Option<Signature>): int {
    LowerEnd(l, stored) - 1
  }

  lemma CursorOfRange(l: Chain, stored: Option<Signature>)
    ensures -1 <= CursorOf(l, stored) < |l|
  {
  }

  /** A stored signature bounds a scan exactly like the transaction it stands for. */
  lemma AsStored(g: Chain, s: Chain, t1: Option<Signature>, t2: Option<Signature>)
    requires g <= s && ValidChain(s) && LowerEnd(g, t1) == LowerEnd(s, t1)
    ensures
      var stored := StoredSignature(g, CursorOf(g, t1));
      && ScanHanded(g, s, t1, t2, LIMIT) == ScanHanded(g, s, stored, t2, LIMIT)
      && ScanNewest(g, s, t1, t2, LIMIT) == ScanNewest(g, s, stored, t2, LIMIT)
  {
    var cursor := CursorOf(g, t1);
    assert g == s[..|g|];
    if cursor >= 0 {
      PositionOfEntry(s, cursor);
      PrefixValid(g, s);
      PositionOfEntry(g, cursor);
      assert s[cursor] == g[cursor];
    }
  }

  /** From call `n` on the cursor of a settled signature stays where it is. */
  lemma CursorSettled(views: nat -> Chain, n: nat, m: nat, stored: Option<Signature>)
    requires Growing(views) && StableBound(views, n, stored) && n <= m
    ensures CursorOf(views(m), stored) == CursorOf(views(n), stored) && StableBound(views, m, stored)
  {
  }

  /** The same on any ledger in between. */
  lemma CursorBetween(g: Chain, l: Chain, s: Chain, stored: Option<Signature>)
    requires g <= s <= l && ValidChain(l) && CursorOf(l, stored) == CursorOf(g, stored)
    ensures CursorOf(s, stored) == CursorOf(g, stored)
  {
    if stored.Some? {
      match Position(g, stored.value) {
        case Some(i) =>
          PrefixValid(s, l);
          PositionStable(g, s, stored.value);
        case None =>
          if Position(s, stored.value).Some? {
            PositionStable(s, l, stored.value);
          }
      }
    }
  }

  /** The signature of a transaction on the ledger is settled. */
  lemma EntrySettled(views: nat -> Chain, n: nat, l: Chain, i: nat)
    requires Growing(views) && l <= views(n) && i < |l|
    ensures StableBound(views, n, Some(l[i].signature)) && CursorOf(views(n), Some(l[i].signature)) == i
    ensures CursorOf(l, Some(l[i].signature)) == i
  {
    PrefixValid(l, views(n));
    PositionOfEntry(l, i);
    forall m | n <= m
      ensures Position(views(m), l[i].signature) == Some(i)
    {
      ViewsGrow(views, n, m);
      assert views(m)[i] == l[i];
      PositionOfEntry(views(m), i);
    }
  }

  // ---------------------------------------------------------------- scans as steps

  /** A start-up scan between calls `n` and `m` that died. */
  lemma StartUpFailsRun(r: bool, s0: State, before: seq<Step>, s: State, views: nat -> Chain, n: nat, m: nat,
                        forced: Option<int>, succeeded: Signature -> bool, sent: seq<Signature>, second: Chain)
    returns (steps: seq<Step>)
    requires Growing(views) && Truthful(succeeded, views) && n <= m
    requires Reached(r, s0, before, s) && s.phase == Down && s.ledger == views(n) && -1 <= ScanFrom(s, forced) < |views(n)|
    requires views(n) <= second <= views(m)
    requires SentBy(sent, views(n), second, StoredSignature(views(n), ScanFrom(s, forced)), None, succeeded)
    ensures Reached(r, s0, steps,
              s.(ledger := views(m), cursor := ScanFrom(s, forced), sent := s.sent + Positions(views(m), sent)))
    ensures Acts(steps) == Acts(before) + [StartUpFails(forced, Positions(views(m), sent))]
  {
    hide Positions, Possible, Exec, SentBy, Truthful, Acts;
    var batch := Positions(views(m), sent);
    SentAreTargets(views, m, sent, views(n), second, StoredSignature(views(n), ScanFrom(s, forced)), None, succeeded);
    steps := Grow(r, s0, before, s, views(m));
    Advance(r, s0, steps, Grown(s, views(m)), StartUpFails(forced, batch));
    ActsOn(steps, StartUpFails(forced, batch));
    steps := steps + [StartUpFails(forced, batch)];
  }

  /** A start-up scan whose gateway part first saw `views(n)` and whose gas-service part
      first saw `second`. */
  lemma StartUpRun(r: bool, s0: State, before: seq<Step>, s: State, views: nat -> Chain, n: nat, m: nat, forced: Option<int>,
                   succeeded: Signature -> bool, sent: seq<Signature>, second: Chain)
    returns (steps: seq<Step>)
    requires Growing(views) && Truthful(succeeded, views) && n <= m
    requires Reached(r, s0, before, s) && s.phase == Down && s.ledger == views(n) && -1 <= ScanFrom(s, forced) < |views(n)|
    requires views(n) <= second <= views(m) && ValidChain(second)
    requires SentBy(sent, views(n), second, StoredSignature(views(n), ScanFrom(s, forced)), None, succeeded)
    requires r ==> SentAll(sent, views(n), second, StoredSignature(views(n), ScanFrom(s, forced)), None, succeeded)
    ensures Reached(r, s0, steps,
              s.(phase := Idle, ledger := views(m), sent := s.sent + Positions(views(m), sent),
                 cursor := CursorAfterScan(second, ScanFrom(s, forced), |views(n)|)))
    ensures Acts(steps) == Acts(before) + [StartUp(forced, |views(n)|, Positions(views(m), sent))]
  {
    hide Positions, Possible, Exec, SentBy, Truthful, Acts;
    var g, c := views(n), ScanFrom(s, forced);
    var t1 := StoredSignature(g, c);
    var batch := Positions(views(m), sent);
    var step := StartUp(forced, |g|, batch);
    SentAreTargets(views, m, sent, g, second, t1, None, succeeded);
    steps := Grow(r, s0, before, s, second);
    var t := Grown(s, second);
    assert second[..|g|] == g && StoredSignature(second, c) == t1;
    forall p | p in batch
      ensures Target(second, p) && Handed(second, c, |g|, |second|, p)
    {
      assert second[p] == views(m)[p];
      StartUpIsAScan(second, c, |g|, p);
    }
    if r {
      forall p: nat | Target(second, p) && Handed(second, c, |g|, |second|, p)
        ensures p in batch
      {
        assert second[p] == views(m)[p];
        StartUpIsAScan(second, c, |g|, p);
        SentAreAllTargets(views, m, sent, g, second, t1, None, succeeded, p);
      }
    }
    assert Enabled(t, step);
    Advance(r, s0, steps, t, step);
    ActsOn(steps, step);
    steps := Grow(r, s0, steps + [step], Next(t, step), views(m));
  }

  function FirstSignature(s: State): Option<Signature>
    requires s.first < |s.ledger|
  {
    Some(s.ledger[s.first].signature)
  }

  lemma CatchUpFailsRun(r: bool, s0: State, before: seq<Step>, s: State, views: nat -> Chain, n: nat, m: nat,
                        succeeded: Signature -> bool, sent: seq<Signature>, second: Chain)
    returns (steps: seq<Step>)
    requires Growing(views) && Truthful(succeeded, views) && n <= m
    requires Reached(r, s0, before, s) && s.phase == CatchingUp && s.ledger == views(n)
    requires views(n) <= second <= views(m)
    requires SentBy(sent, views(n), second, StoredSignature(views(n), s.cursor), FirstSignature(s), succeeded)
    ensures Reached(r, s0, steps, Abandon(Grown(s, views(m)).(sent := s.sent + Positions(views(m), sent)), Down))
    ensures Acts(steps) == Acts(before) + [CatchUpFails(Positions(views(m), sent))]
  {
    hide Positions, Possible, Exec, SentBy, Truthful, Acts;
    var batch := Positions(views(m), sent);
    SentAreTargets(views, m, sent, views(n), second, StoredSignature(views(n), s.cursor), FirstSignature(s), succeeded);
    steps := Grow(r, s0, before, s, views(m));
    Advance(r, s0, steps, Grown(s, views(m)), CatchUpFails(batch));
    ActsOn(steps, CatchUpFails(batch));
    steps := steps + [CatchUpFails(batch)];
  }

  lemma CatchUpRun(r: bool, s0: State, before: seq<Step>, s: State, views: nat -> Chain, n: nat, m: nat,
                   succeeded: Signature -> bool, sent: seq<Signature>, second: Chain)
    returns (steps: seq<Step>)
    requires Growing(views) && Truthful(succeeded, views) && n <= m
    requires Reached(r, s0, before, s) && s.phase == CatchingUp && s.ledger == views(n)
    requires views(n) <= second <= views(m)
    requires SentBy(sent, views(n), second, StoredSignature(views(n), s.cursor), FirstSignature(s), succeeded)
    requires r ==> SentAll(sent, views(n), second, StoredSignature(views(n), s.cursor), FirstSignature(s), succeeded)
    ensures Reached(r, s0, steps, Grown(s, views(m)).(phase := Live, sent := s.sent + Positions(views(m), sent) + [s.first]))
    ensures Acts(steps) == Acts(before) + [CatchUp(Positions(views(m), sent))]
  {
    hide Positions, Possible, Exec, SentBy, Truthful, ScanHanded, StoredSignature, Arrived, Acts;
    var l := views(m);
    var batch := Positions(l, sent);
    var step := CatchUp(batch);
    SentAreTargets(views, m, sent, views(n), second, StoredSignature(views(n), s.cursor), FirstSignature(s), succeeded);
    steps := Grow(r, s0, before, s, l);
    var t := Grown(s, l);
    CatchUpStable(views(n), second, l, s.cursor, s.first);
    forall p | p in batch
      ensures Target(l, p) && Handed(l, s.cursor, s.first, s.first, p)
    {
      CatchUpIsAScan(l, s.cursor, s.first, p);
    }
    if r {
      forall p: nat | Target(l, p) && Handed(l, s.cursor, s.first, s.first, p)
        ensures p in batch
      {
        CatchUpIsAScan(l, s.cursor, s.first, p);
        SentAreAllTargets(views, m, sent, views(n), second, StoredSignature(views(n), s.cursor), FirstSignature(s),
                          succeeded, p);
      }
    }
    assert Enabled(t, step);
    Advance(r, s0, steps, t, step);
    ActsOn(steps, step);
    steps := steps + [step];
  }

  /** How far the gas-service part of a scan from call `n` that ended before call `m` can have looked. */
  ghost function Reading(views: nat -> Chain, n: nat, m: nat, t1: Option<Signature>, t2: Option<Signature>): Chain {
    if n + Calls(|History(views(n), Gateway, t1, t2)|, LIMIT) <= m then SecondView(views, n, t1, t2, LIMIT) else views(n)
  }

  lemma SentOfHanded(sink: Forwarding, all: seq<Signature>)
    requires sink.Consistent() && sink.handed <= [] + all
    ensures forall x :: x in sink.sent ==> x in all && sink.succeeded(x)
    ensures sink.handed == [] + all && (forall k :: sink.answered(k)) ==>
      forall x :: x in all && sink.succeeded(x) ==> x in sink.sent
  {
    assert [] + all == all;
    hide Successes, Numbered;
    forall x
      ensures x in sink.sent ==> x in sink.handed && sink.succeeded(x)
      ensures (forall k :: sink.answered(k)) && x in sink.handed && sink.succeeded(x) ==> x in sink.sent
    {
      SuccessesIff(sink.handed, sink.answered, sink.succeeded, x);
      assert x in sink.sent <==> x in multiset(sink.sent);
      assert x in sink.sent <==> x in Successes(Numbered(0, sink.handed), sink.answered, sink.succeeded);
    }
  }

  lemma SentByScan(sink: Forwarding, views: nat -> Chain, n: nat, m: nat, t1: Option<Signature>, t2: Option<Signature>)
    requires Growing(views) && n <= m && sink.Consistent()
    requires
      var asked := n + Calls(|History(views(n), Gateway, t1, t2)|, LIMIT) <= m;
      sink.handed <= [] + if asked then ScanHanded(views(n), SecondView(views, n, t1, t2, LIMIT), t1, t2, LIMIT)
                          else PageOrder(SignaturesOf(History(views(n), Gateway, t1, t2)), LIMIT)
    ensures
      var second := Reading(views, n, m, t1, t2);
      && SentBy(sink.sent, views(n), second, t1, t2, sink.succeeded)
      && views(n) <= second <= views(m) && ValidChain(second)
      && (n + Calls(|History(views(n), Gateway, t1, t2)|, LIMIT) <= m ==> second == SecondView(views, n, t1, t2, LIMIT))
      && (StableBound(views, n, t1) ==> LowerEnd(second, t1) == LowerEnd(views(n), t1))
      && (sink.handed == [] + ScanHanded(views(n), second, t1, t2, LIMIT) && (forall k :: sink.answered(k)) ==>
            SentAll(sink.sent, views(n), second, t1, t2, sink.succeeded))
  {
    hide PageOrder, SignaturesOf, History, ValidChain, Calls;
    var second := Reading(views, n, m, t1, t2);
    var all := ScanHanded(views(n), second, t1, t2, LIMIT);
    if n + Calls(|History(views(n), Gateway, t1, t2)|, LIMIT) <= m {
      SentOfHanded(sink, all);
    } else {
      SentOfHanded(sink, PageOrder(SignaturesOf(History(views(n), Gateway, t1, t2)), LIMIT));
    }
    if sink.handed == [] + all {
      SentOfHanded(sink, all);
    }
  }

  lemma AsStoredBy(sent: seq<Signature>, g: Chain, s: Chain, t1: Option<Signature>, t2: Option<Signature>,
                   succeeded: Signature -> bool)
    requires g <= s && ValidChain(s) && LowerEnd(g, t1) == LowerEnd(s, t1)
    ensures -1 <= CursorOf(g, t1) < |g|
    ensures SentBy(sent, g, s, t1, t2, succeeded) <==> SentBy(sent, g, s, StoredSignature(g, CursorOf(g, t1)), t2, succeeded)
    ensures SentAll(sent, g, s, t1, t2, succeeded)
       <==> SentAll(sent, g, s, StoredSignature(g, CursorOf(g, t1)), t2, succeeded)
  {
    hide ScanHanded, ScanNewest, LowerEnd, ValidChain, StoredSignature;
    CursorOfRange(g, t1);
    AsStored(g, s, t1, t2);
  }

  lemma SameStored(g: Chain, s: Chain, cursor: int)
    requires g <= s && -1 <= cursor < |g|
    ensures StoredSignature(g, cursor) == StoredSignature(s, cursor)
  {
  }

  /** The signature a start-up scan reports is settled, at the position the cursor moves to. */
  lemma ReportSettled(views: nat -> Chain, m: nat, g: Chain, s: Chain, stored: Option<Signature>)
    requires Growing(views) && g <= s <= views(m) && ValidChain(s) && LowerEnd(g, stored) == LowerEnd(s, stored)
    ensures -1 <= CursorOf(g, stored) < |g|
    ensures
      var newest := ScanNewest(g, s, stored, None, LIMIT);
      var after := CursorAfterScan(s, CursorOf(g, stored), |g|);
      if newest.None? then after == CursorOf(g, stored)
      else StableBound(views, m, newest) && CursorOf(views(m), newest) == after
  {
    hide ScanNewest, CursorAfterScan, StoredSignature, CursorOf, ValidChain, StableBound, LowerEnd;
    var cursor := CursorOf(g, stored);
    CursorOfRange(g, stored);
    AsStored(g, s, stored, None);
    assert s[..|g|] == g;
    SameStored(g, s, cursor);
    CursorIsReported(s, cursor, |g|);
    var after := CursorAfterScan(s, cursor, |g|);
    if after != cursor {
      EntrySettled(views, m, s, after);
    }
  }

  /** The chain never knows the signature. */
  ghost predicate NeverSeen(views: nat -> Chain, s: Option<Signature>) {
    s.Some? ==> forall n :: Position(views(n), s.value).None?
  }

  lemma UnknownSettled(views: nat -> Chain, n: nat, s: Option<Signature>)
    requires NeverSeen(views, s)
    ensures StableBound(views, n, s)
  {
  }

  // ---------------------------------------------------------------- the process

  lemma KillSteps(r: bool, s0: State, before: seq<Step>, s: State, p: nat)
    requires Reached(r, s0, before, s) && s.phase == Live
    ensures Reached(r, s0, before + [Crash], Abandon(s, Down))
    ensures p in s.inFlight ==> Reached(r, s0, before + [SendThenCrash(p)], Abandon(s.(sent := s.sent + [p]), Down))
  {
    hide Possible, Exec, ValidChain, WellFormed;
    Advance(r, s0, before, s, Crash);
    if p in s.inFlight {
      Advance(r, s0, before, s, SendThenCrash(p));
    }
  }

  lemma RestartSteps(r: bool, s0: State, before: seq<Step>, s: State)
    requires Reached(r, s0, before, s) && s.phase != Down
    ensures Reached(r, s0, before + [Crash], Abandon(s, Down))
  {
    hide Possible, Exec, ValidChain, WellFormed;
    Advance(r, s0, before, s, Crash);
  }

  lemma ReachedCursor(r: bool, s0: State, steps: seq<Step>)
    ensures forall s :: Reached(r, s0, steps, s) ==>
      && -1 <= s.cursor < |s.ledger| && ValidChain(s.ledger) && (Subscribed(s) ==> s.first < |s.ledger|)
  {
    hide Possible, Exec, AllComplete, ValidChain;
  }

  lemma OpenSession(r: bool, s0: State, before: seq<Step>, s: State)
    requires Reached(r, s0, before, s)
    ensures WellFormed(s) && ValidChain(s.ledger) && Targets(s.ledger, s.queue)
  {
    hide Possible, Exec, ValidChain, AllComplete;
    TargetsAre(s.ledger, s.queue);
  }

  lemma DownIsAbandoned(r: bool, s0: State, before: seq<Step>, s: State)
    requires Reached(r, s0, before, s) && s.phase == Down
    ensures Abandon(s, Down) == s
  {
    hide Possible, Exec, ValidChain;
  }

  lemma ReachedInitially(r: bool, views: nat -> Chain, n: nat, s0: State)
    requires Growing(views) && Initial(s0) && s0.ledger == views(n)
    ensures Reached(r, s0, [], s0)
  {
    ViewsGrow(views, n, n);
  }

  /** An orderly run is one in ledger order whose scans are complete. */
  lemma {:induction false} OrderlyWhenComplete(s0: State, steps: seq<Step>)
    requires Possible(s0, steps) && AllComplete(s0, steps) && AllInLedgerOrder(s0, steps)
    ensures AllOrderly(s0, steps)
  {
    hide Enabled, Next, Complete, InLedgerOrder;
    if steps == [] {
    } else {
      OrderlyWhenComplete(s0, steps[..|steps| - 1]);
    }
  }

  lemma NothingSilentlyLost(r: bool, s0: State, steps: seq<Step>, s: State)
    requires Initial(s0) && Reached(r, s0, steps, s)
    ensures Possible(s0, steps) && Exec(s0, steps) == s && s.start == s0.start && (r ==> AllComplete(s0, steps))
    ensures forall p: nat :: p > s0.start ==> (KeptThroughout(s0, steps, p) <==> !WasLost(s0, steps, p))
    ensures r && AllInLedgerOrder(s0, steps) ==> forall p: nat :: Target(s.ledger, p) && p > s0.start ==> Accounted(s, p)
  {
    hide WellFormed, ValidChain, Target, Accounted, WasLost, Possible, Exec, AllComplete, AllInLedgerOrder, KeptThroughout;
    forall p: nat | p > s0.start
      ensures KeptThroughout(s0, steps, p) <==> !WasLost(s0, steps, p)
    {
      KeptIffNotLost(s0, steps, p);
    }
    KeptIffNotLost(s0, steps, if s0.start < 0 then 0 else s0.start + 1);
    if r && AllInLedgerOrder(s0, steps) {
      OrderlyWhenComplete(s0, steps);
      OrderlyRunInvariant(s0, steps);
      forall p: nat | Target(s.ledger, p) && p > s0.start
        ensures Accounted(s, p)
      {
        assert Kept(s, p);
      }
    }
  }

  /** How a session that is still open ends: not at all, with the process killed between two
      polls, or killed after sending the fetched transaction with this index. */
  datatype Fate = Survives | Killed | KilledSending(index: nat)

  /** What the environment does in one session: `wait` calls pass until the subscriptions are
      refused or the item at position `first` comes, if it does, and `delivered` right after
      it; then the catch-up scan's fetches are answered or not, the consumer is gone when the
      first item is sent or not, and the session has its turns. */
  datatype Script = Script(
    wait: nat,
    refused: bool,
    first: nat,
    delivered: seq<nat>,
    answered: nat -> bool,
    closed: bool,
    turns: seq<Turn>,
    fate: Fate)

  /** What an operator sets the stored signature to before the process starts. */
  datatype Forced = NotForced | OnLedger(position: nat) | Unknown(signature: Signature)

  /** What the environment does in one life of the process. */
  datatype Life = Life(forced: Forced, answered: nat -> bool, sessions: seq<Script>)

  datatype End = Continues | Reconnects | Dies

  /** The transactions among `ps`: only these can be delivered. */
  function OnlyTargets(l: Chain, ps: seq<nat>): (r: seq<nat>)
    ensures Targets(l, r) && (Targets(l, ps) ==> r == ps)
  {
    if ps == [] then []
    else
      var n := |ps| - 1;
      OnlyTargets(l, ps[..n]) + if Target(l, ps[n]) then [ps[n]] else []
  }

  // ---------------------------------------------------------------- the course of a session and of a life

  /** How a session went: it subscribed or not with call `at`, the scan up to its first item
      sent `batch`, and from call `begin` on it had its turns. */
  datatype Course =
    | Unsubscribed(at: nat)
    | Missed(at: nat, queue: seq<nat>, batch: seq<nat>)
    | Listened(at: nat, queue: seq<nat>, batch: seq<nat>, begin: nat, glimpses: seq<Moment>, open: bool)

  /** The course is one that the script leads to. */
  ghost predicate Fits(views: nat -> Chain, unreachable: nat -> bool, script: Script, course: Course) {
    match course
    case Unsubscribed(at) => script.refused || !Target(views(at), script.first)
    case Missed(at, queue, batch) =>
      && !script.refused && Target(views(at), script.first) && queue == OnlyTargets(views(at), script.delivered)
      && (script.closed || exists n :: n >= at && unreachable(n))
    case Listened(at, queue, batch, begin, glimpses, open) =>
      && !script.refused && Target(views(at), script.first) && queue == OnlyTargets(views(at), script.delivered)
      && !script.closed && at <= begin && views(at) <= views(begin)
      && FollowsTurns(glimpses, views, begin, script.turns, open)
      && glimpses[0].state.queue == queue + Arrived(views(begin), |views(at)|) && glimpses[0].running == []
  }

  function EndOf(script: Script, course: Course): End {
    match course
    case Unsubscribed(_) => if script.refused then Dies else End.Reconnects
    case Missed(_, _, _) => Dies
    case Listened(_, _, _, _, _, open) =>
      if !open then End.Reconnects else if script.fate.Survives? then Continues else Dies
  }

  /** What a killed process does last. */
  function LastAct(fate: Fate, running: seq<nat>): seq<Step> {
    match fate
    case Survives => []
    case Killed => [Crash]
    case KilledSending(i) => [if i < |running| then SendThenCrash(running[i]) else Crash]
  }

  /** Everything a session does. */
  ghost function ActsOf(script: Script, course: Course): seq<Step> {
    match course
    case Unsubscribed(_) => if script.refused then [Crash] else []
    case Missed(_, queue, batch) => [Connect(script.first, queue)] + [CatchUpFails(batch)]
    case Listened(_, queue, batch, _, glimpses, open) =>
      [Connect(script.first, queue)] + [CatchUp(batch)]
      + (if 1 <= |glimpses| <= |script.turns| + 1 then
           TurnActs(glimpses, script.turns, |glimpses| - 1)
           + if open then LastAct(script.fate, glimpses[|glimpses| - 1].running) else []
         else [])
  }

  ghost function AllActs(scripts: seq<Script>, courses: seq<Course>): seq<Step>
    requires |courses| <= |scripts|
  {
    if courses == [] then []
    else
      var n := |courses| - 1;
      AllActs(scripts, courses[..n]) + ActsOf(scripts[n], courses[n])
  }

  /** The reconnect loop went through all sessions up to the first that does not reconnect. */
  ghost predicate Ran(views: nat -> Chain, unreachable: nat -> bool, scripts: seq<Script>, courses: seq<Course>) {
    && |courses| <= |scripts|
    && (forall k :: 0 <= k < |courses| ==> Fits(views, unreachable, scripts[k], courses[k]))
    && (forall k :: 0 <= k < |courses| - 1 ==> EndOf(scripts[k], courses[k]).Reconnects?)
    && (|courses| < |scripts| ==> courses != [] && !EndOf(scripts[|courses| - 1], courses[|courses| - 1]).Reconnects?)
  }

  /** How a life went: the start-up scan saw the first `seen` entries for the gateway and
      sent `batch`, and when it succeeded the sessions had their courses. */
  datatype LifeCourse = LifeCourse(forced: Option<int>, seen: nat, batch: seq<nat>, scanned: bool, courses: seq<Course>)

  /** Where an operator puts the cursor. */
  function ForcedTo(l: Chain, forced: Forced): Option<int> {
    match forced
    case NotForced => None
    case OnLedger(i) => if i < |l| then Some(i as int) else None
    case Unknown(_) => Some(-1)
  }

  ghost predicate LifeFits(views: nat -> Chain, unreachable: nat -> bool, life: Life, course: LifeCourse) {
    && (exists at :: course.seen == |views(at)| && course.forced == ForcedTo(views(at), life.forced))
    && if course.scanned then Ran(views, unreachable, life.sessions, course.courses)
       else course.courses == [] && exists n :: unreachable(n)
  }

  /** Whether the process is alive at the end of a life's scripts. */
  predicate EndsAlive(life: Life, course: LifeCourse)
    requires |course.courses| <= |life.sessions|
  {
    && course.scanned
    && (course.courses == [] || !EndOf(life.sessions[|course.courses| - 1], course.courses[|course.courses| - 1]).Dies?)
  }

  ghost function ActsOfLife(life: Life, course: LifeCourse): seq<Step>
    requires |course.courses| <= |life.sessions|
  {
    [if course.scanned then StartUp(course.forced, course.seen, course.batch) else StartUpFails(course.forced, course.batch)]
    + AllActs(life.sessions, course.courses)
  }

  ghost predicate AllFit(views: nat -> Chain, unreachable: nat -> bool, lives: seq<Life>, courses: seq<LifeCourse>) {
    |courses| == |lives| && forall k :: 0 <= k < |lives| ==>
      |courses[k].courses| <= |lives[k].sessions| && LifeFits(views, unreachable, lives[k], courses[k])
  }

  /** What all lives did; a process that is still alive is ended before the next life. */
  ghost function ActsOfLives(lives: seq<Life>, courses: seq<LifeCourse>): seq<Step>
    requires |courses| == |lives|
    requires forall k :: 0 <= k < |lives| ==> |courses[k].courses| <= |lives[k].sessions|
  {
    if lives == [] then []
    else
      var n := |lives| - 1;
      ActsOfLives(lives[..n], courses[..n])
      + (if n > 0 && EndsAlive(lives[n - 1], courses[n - 1]) then [Crash] else [])
      + ActsOfLife(lives[n], courses[n])
  }

  lemma NoLives(lives: seq<Life>)
    ensures Acts([]) == ActsOfLives(lives[..0], []) == []
  {
  }

  lemma NoCourses(scripts: seq<Script>)
    ensures AllActs(scripts, []) == []
  {
  }

  lemma LivesOn(lives: seq<Life>, courses: seq<LifeCourse>, i: nat, course: LifeCourse)
    requires |courses| == i < |lives| && |course.courses| <= |lives[i].sessions|
    requires forall k :: 0 <= k < i ==> |courses[k].courses| <= |lives[k].sessions|
    ensures ActsOfLives(lives[..i + 1], courses + [course])
         == ActsOfLives(lives[..i], courses)
            + (if i > 0 && EndsAlive(lives[i - 1], courses[i - 1]) then [Crash] else [])
            + ActsOfLife(lives[i], course)
  {
    hide ActsOfLife, EndsAlive;
    assert lives[..i + 1][..i] == lives[..i] && (courses + [course])[..i] == courses;
  }

  function SignatureForced(l: Chain, forced: Forced): Option<Signature> {
    match forced
    case NotForced => None
    case OnLedger(i) => if i < |l| then Some(l[i].signature) else None
    case Unknown(signature) => Some(signature)
  }

  /** A forced signature is settled, and bounds the scan where the operator put it. */
  lemma ForcedSettled(views: nat -> Chain, n: nat, forced: Forced) returns (s: Option<Signature>)
    requires Growing(views) && (forced.Unknown? ==> NeverSeen(views, Some(forced.signature)))
    ensures s == SignatureForced(views(n), forced) && StableBound(views, n, s)
    ensures (if s.Some? then Some(CursorOf(views(n), s)) else None) == ForcedTo(views(n), forced)
  {
    s := SignatureForced(views(n), forced);
    if s.Some? && forced.OnLedger? {
      EntrySettled(views, n, views(n), forced.position);
    }
  }

  class Listener {
    const rpc: RpcClient
    const start: int
    /** Whether a transaction succeeded on chain. */
    const succeeded: Signature -> bool
    /** The stored signature. */
    var stored: Option<Signature>
    /** Everything sent to the channel. */
    var sent: seq<nat>
    var first: nat

    /** Whether all fetches of a scan are answered. */
    ghost const reliable: bool

    constructor (rpc: RpcClient, succeeded: Signature -> bool, stored: Option<Signature>, ghost reliable: bool)
      ensures this.rpc == rpc && this.succeeded == succeeded && this.reliable == reliable
      ensures this.stored == stored && start == CursorOf(rpc.views(rpc.calls), stored) && sent == [] && first == 0
    {
      this.rpc, this.succeeded, this.stored, sent, first := rpc, succeeded, stored, [], 0;
      this.start := CursorOf(rpc.views(rpc.calls), stored);
      this.reliable := reliable;
    }

    ghost predicate Environment() {
      Growing(rpc.views) && Truthful(succeeded, rpc.views)
    }

    ghost predicate Admissible(answered: nat -> bool) {
      reliable ==> forall k :: answered(k)
    }

    /** The stored signature is on the ledger, absent, or unknown to the chain for good. */
    ghost predicate Settled()
      reads this, rpc
    {
      StableBound(rpc.views, rpc.calls, stored)
    }

    ghost function At(l: Chain, phase: Phase): State
      reads this
    {
      ListenerRun.State(l, start, CursorOf(l, stored), sent, phase, first, [], multiset{})
    }

    /** The start-up scan. An error ends the process. */
    method StartUp(forced: Option<Signature>, answered: nat -> bool, ghost s0: State, ghost before: seq<Step>)
      returns (ok: bool, ghost steps: seq<Step>, ghost batch: seq<nat>)
      requires Environment() && Admissible(answered) && Settled()
      requires forced.Some? ==> StableBound(rpc.views, rpc.calls, forced)
      requires Reached(reliable, s0, before, At(rpc.views(rpc.calls), Down))
      modifies rpc, `stored, `sent
      ensures Called(rpc.unreachable, old(rpc.calls), rpc.calls, ok) && Settled()
      ensures Reached(reliable, s0, steps, At(rpc.views(rpc.calls), if ok then Idle else Down))
      ensures
        var g := rpc.views(old(rpc.calls));
        var from := if forced.Some? then Some(CursorOf(g, forced)) else None;
        Acts(steps) == Acts(before) + [if ok then ListenerRun.StartUp(from, |g|, batch) else StartUpFails(from, batch)]
    {
      hide ScanHanded, ScanNewest, Calls, History, PageOrder, SignaturesOf, ValidChain, Position, StoredSignature;
      hide Reached, Growing, StableBound, Truthful, SentBy, SentAll, Reading, SecondView, CursorAfterScan, CursorOf;
      hide Forwarding.Consistent, Positions, Arrived;
      ghost var n, s := rpc.calls, At(rpc.views(rpc.calls), Down);
      ghost var g := rpc.views(n);
      match forced {
        case Some(_) => stored := forced;
        case None =>
      }
      ghost var from := if forced.Some? then Some(CursorOf(g, stored)) else None;
      var sink := new Forwarding(answered, succeeded);
      var newest := FetchBatchesInRange(rpc, sink, stored, None, LIMIT);
      SentByScan(sink, rpc.views, n, rpc.calls, stored, None);
      ghost var second := Reading(rpc.views, n, rpc.calls, stored, None);
      CursorSettled(rpc.views, n, rpc.calls, stored);
      CursorOfRange(g, stored);
      AsStoredBy(sink.sent, g, second, stored, None, succeeded);
      var l := rpc.views(rpc.calls);
      batch := Positions(l, sink.sent);
      sent := sent + Positions(l, sink.sent);
      if newest.Err? {
        steps := StartUpFailsRun(reliable, s0, before, s, rpc.views, n, rpc.calls, from, succeeded, sink.sent, second);
        return false, steps, batch;
      }
      ReportSettled(rpc.views, rpc.calls, g, second, stored);
      steps := StartUpRun(reliable, s0, before, s, rpc.views, n, rpc.calls, from, succeeded, sink.sent, second);
      if newest.value.Some? {
        stored := newest.value;
      }
      ok := true;
    }

    /** Waits for both subscriptions and their first successful item. */
    method Subscribe(script: Script, ghost s0: State, ghost before: seq<Step>)
      returns (end: End, delivered: seq<nat>, ghost steps: seq<Step>)
      requires Environment() && Settled()
      requires Reached(reliable, s0, before, At(rpc.views(rpc.calls), Idle))
      modifies rpc, `first
      ensures Settled() && rpc.calls == old(rpc.calls) + script.wait
      ensures end == if script.refused then Dies else if Target(rpc.views(rpc.calls), script.first) then Continues
                     else End.Reconnects
      ensures match end
              case Continues =>
                && first == script.first && delivered == OnlyTargets(rpc.views(rpc.calls), script.delivered)
                && Reached(reliable, s0, steps, At(rpc.views(rpc.calls), CatchingUp).(queue := delivered))
                && Acts(steps) == Acts(before) + [Connect(script.first, delivered)]
              case Reconnects => Reached(reliable, s0, steps, At(rpc.views(rpc.calls), Idle)) && Acts(steps) == Acts(before)
              case Dies =>
                Reached(reliable, s0, steps, At(rpc.views(rpc.calls), Down)) && Acts(steps) == Acts(before) + [Crash]
    {
      hide Possible, Exec, ValidChain, CursorOf, StableBound, Growing, Truthful, Acts, OnlyTargets;
      ghost var n, s := rpc.calls, At(rpc.views(rpc.calls), Idle);
      rpc.Elapse(script.wait);
      var l := rpc.views(rpc.calls);
      ViewsGrow(rpc.views, n, rpc.calls);
      CursorSettled(rpc.views, n, rpc.calls, stored);
      steps := GrowIdle(reliable, s0, before, s, l);
      s := At(l, Idle);
      if script.refused {
        Advance(reliable, s0, steps, s, Crash);
        ActsOn(steps, Crash);
        return Dies, [], steps + [Crash];
      }
      if !Target(l, script.first) {
        return End.Reconnects, [], steps;
      }
      delivered := OnlyTargets(l, script.delivered);
      first := script.first;
      TargetsAre(l, delivered);
      Advance(reliable, s0, steps, s, Connect(first, delivered));
      ActsOn(steps, Connect(first, delivered));
      end, steps := Continues, steps + [Connect(first, delivered)];
    }

    /** The scan from the stored signature up to the first item, then that item itself;
        the stored signature stays where it is. An error ends the process. */
    method CatchUpOnMissed(answered: nat -> bool, closed: bool, delivered: seq<nat>, ghost s0: State, ghost before: seq<Step>)
      returns (ok: bool, waiting: seq<nat>, ghost steps: seq<Step>, ghost batch: seq<nat>)
      requires Environment() && Admissible(answered) && Settled()
      requires Reached(reliable, s0, before, At(rpc.views(rpc.calls), CatchingUp).(queue := delivered))
      modifies rpc, `sent
      ensures Settled()
      ensures rpc.calls > old(rpc.calls) && (ok ==> !closed) && (!ok && !closed ==> rpc.unreachable(rpc.calls - 1))
      ensures
        if ok then
          && rpc.views(old(rpc.calls)) <= rpc.views(rpc.calls)
          && waiting == delivered + Arrived(rpc.views(rpc.calls), |rpc.views(old(rpc.calls))|)
          && Reached(reliable, s0, steps, At(rpc.views(rpc.calls), Live).(queue := waiting))
          && Acts(steps) == Acts(before) + [CatchUp(batch)]
        else
          && Reached(reliable, s0, steps, At(rpc.views(rpc.calls), Down))
          && Acts(steps) == Acts(before) + [CatchUpFails(batch)]
    {
      ReachedCursor(reliable, s0, before);
      hide ScanHanded, ScanNewest, Calls, History, PageOrder, SignaturesOf, ValidChain, Position, StoredSignature;
      hide Reached, Growing, StableBound, Truthful, SentBy, SentAll, Reading, SecondView, CursorAfterScan, CursorOf;
      hide Forwarding.Consistent, Positions, Arrived;
      ghost var n, s := rpc.calls, At(rpc.views(rpc.calls), CatchingUp).(queue := delivered);
      var g := rpc.views(rpc.calls);
      var sink := new Forwarding(answered, succeeded);
      var t2 := Some(g[first].signature);
      var result := FetchBatchesInRange(rpc, sink, stored, t2, LIMIT);
      SentByScan(sink, rpc.views, n, rpc.calls, stored, t2);
      ghost var second := Reading(rpc.views, n, rpc.calls, stored, t2);
      CursorSettled(rpc.views, n, rpc.calls, stored);
      CursorOfRange(g, stored);
      AsStoredBy(sink.sent, g, second, stored, t2, succeeded);
      var l := rpc.views(rpc.calls);
      sent := sent + Positions(l, sink.sent);
      waiting := delivered + Arrived(l, |g|);
      batch := Positions(l, sink.sent);
      if result.Err? || closed {
        steps := CatchUpFailsRun(reliable, s0, before, s, rpc.views, n, rpc.calls, succeeded, sink.sent, second);
        return false, [], steps, batch;
      }
      steps := CatchUpRun(reliable, s0, before, s, rpc.views, n, rpc.calls, succeeded, sink.sent, second);
      sent := sent + [first];
      ok := true;
    }

    /** One live subscription over any turns of its environment, every one of which is followed. */
    method HoldSession(turns: seq<Turn>, delivered: seq<nat>, ghost s0: State, ghost before: seq<Step>)
      returns (session: Session, outcome: Outcome, ghost steps: seq<Step>, ghost s: State, ghost glimpses: seq<Moment>)
      requires Environment() && Settled()
      requires Reached(reliable, s0, before, At(rpc.views(rpc.calls), Live).(queue := delivered))
      modifies rpc, `stored, `sent
      ensures Settled() && CursorOf(rpc.views(rpc.calls), stored) == CursorOf(s.ledger, stored)
      ensures Reached(reliable, s0, steps, s)
      ensures s == if outcome.StillOpen? then session.Abs() else Abandon(session.Abs(), Idle)
      ensures Abandon(s, Down) == At(s.ledger, Down) && s.ledger <= rpc.views(rpc.calls) && ValidChain(rpc.views(rpc.calls))
      ensures rpc.calls == old(rpc.calls) + Elapsed(turns) && (outcome.StillOpen? ==> s.ledger == rpc.views(rpc.calls))
      ensures FollowsTurns(glimpses, rpc.views, old(rpc.calls), turns, outcome.StillOpen?) && 1 <= |glimpses| <= |turns| + 1
      ensures glimpses[0] == Moment(old(At(rpc.views(rpc.calls), Live)).(queue := delivered), [])
      ensures glimpses[|glimpses| - 1] == Moment(session.Abs(), session.fetchFutures)
      ensures Heard(glimpses, turns, delivered, session.Abs(), outcome.StillOpen?)
      ensures Acts(steps) == Acts(before) + TurnActs(glimpses, turns, |glimpses| - 1)
    {
      hide Possible, Exec, ValidChain, Targets, EventsOf, Followed, NoScans, Growing, WellFormed, AllComplete;
      hide Arrived, Elapsed, Truthful, StableBound, CursorOf;
      hide Arrivals, Reached, Enabled, Next, Matches, StepOf, Session.Valid, Growth, FollowsTurns, Heard, Acts, TurnActs;
      ghost var n, g := rpc.calls, rpc.views(rpc.calls);
      ghost var open := At(g, Live).(queue := delivered);
      OpenSession(reliable, s0, before, open);
      EventsArrive(rpc.views, rpc.calls, turns);
      ViewsGrow(rpc.views, rpc.calls, rpc.calls + Elapsed(turns));
      var events := EventsOf(rpc.views, rpc.calls, turns);
      var cursor := CursorOf(rpc.views(rpc.calls), stored);
      session := new Session(start, first, rpc.views(rpc.calls), cursor, sent, delivered);
      ghost var more, moments;
      outcome, more, moments := session.ForwardResults(events);
      glimpses := Overheard(moments, more, rpc.views, n, turns, delivered, outcome.StillOpen?);
      ActsJoin(before, more);
      rpc.Elapse(Elapsed(turns));
      Continue(reliable, s0, before, open, more);
      steps, s := before + more, Exec(open, more);
      ReachedCursor(reliable, s0, steps);
      CursorSettled(rpc.views, n, rpc.calls, stored);
      CursorBetween(g, rpc.views(rpc.calls), s.ledger, stored);
      sent := session.sent;
      if session.cursor != cursor {
        EntrySettled(rpc.views, rpc.calls, s.ledger, session.cursor);
        stored := Some(session.ledger[session.cursor].signature);
      }
    }

    /** The process is killed during a session, possibly after sending a transaction but
        before storing its signature. */
    method Kill(session: Session, fate: Fate, ghost s0: State, ghost before: seq<Step>, ghost s: State)
      returns (ghost steps: seq<Step>, ghost t: State)
      requires !fate.Survives?
      requires Reached(reliable, s0, before, s) && s == session.Abs() && Abandon(s, Down) == At(s.ledger, Down)
      modifies `sent
      ensures Reached(reliable, s0, steps, t) && t == At(s.ledger, Down)
      ensures Acts(steps) == Acts(before) + LastAct(fate, session.fetchFutures)
    {
      hide Reached, Enabled, Next, WellFormed, CursorOf, Acts;
      if fate.KilledSending? && fate.index < |session.fetchFutures| {
        var p := session.fetchFutures[fate.index];
        sent := sent + [p];
        KillSteps(reliable, s0, before, s, p);
        ActsOn(before, SendThenCrash(p));
        steps, t := before + [SendThenCrash(p)], Abandon(s.(sent := s.sent + [p]), Down);
      } else {
        KillSteps(reliable, s0, before, s, 0);
        ActsOn(before, Crash);
        steps, t := before + [Crash], Abandon(s, Down);
      }
    }

    /** Forwards results until the session ends. A process that is killed may have sent
        one more transaction without storing its signature. */
    method Forward(turns: seq<Turn>, fate: Fate, delivered: seq<nat>, ghost s0: State, ghost before: seq<Step>)
      returns (end: End, ghost steps: seq<Step>, ghost s: State, ghost glimpses: seq<Moment>)
      requires Environment() && Settled()
      requires Reached(reliable, s0, before, At(rpc.views(rpc.calls), Live).(queue := delivered))
      modifies rpc, `stored, `sent
      ensures Settled()
      ensures Reached(reliable, s0, steps, s) && Abandon(s, Down) == At(rpc.views(rpc.calls), Down)
      ensures s.phase == match end case Continues => Live case Reconnects => Idle case Dies => Down
      ensures end.Reconnects? ==> s == At(rpc.views(rpc.calls), Idle)
      ensures !end.Reconnects? ==> (end.Continues? <==> fate.Survives?)
      ensures FollowsTurns(glimpses, rpc.views, old(rpc.calls), turns, !end.Reconnects?) && 1 <= |glimpses| <= |turns| + 1
      ensures glimpses[0].state.queue == delivered && glimpses[0].running == []
      ensures Acts(steps) == Acts(before) + (TurnActs(glimpses, turns, |glimpses| - 1)
                + if end.Reconnects? then [] else LastAct(fate, glimpses[|glimpses| - 1].running))
    {
      hide Reached, ValidChain, Growing, Truthful, StableBound, CursorOf, FollowsTurns, Heard, Acts, TurnActs;
      var session, outcome;
      session, outcome, steps, s, glimpses := HoldSession(turns, delivered, s0, before);
      ghost var acts := TurnActs(glimpses, turns, |glimpses| - 1);
      assert acts + [] == acts;
      if outcome.Reconnects? {
        steps := GrowIdle(reliable, s0, steps, s, rpc.views(rpc.calls));
        return End.Reconnects, steps, s.(ledger := rpc.views(rpc.calls)), glimpses;
      }
      if fate.Survives? {
        return Continues, steps, s, glimpses;
      }
      steps, s := Kill(session, fate, s0, steps, s);
      Associate(Acts(before), acts, LastAct(fate, session.fetchFutures));
      end := Dies;
    }

    /** One session, from the subscription on. */
    method RunSession(script: Script, ghost s0: State, ghost before: seq<Step>)
      returns (end: End, ghost steps: seq<Step>, ghost s: State, ghost course: Course)
      requires Environment() && Settled() && Admissible(script.answered)
      requires Reached(reliable, s0, before, At(rpc.views(rpc.calls), Idle))
      modifies rpc, `stored, `sent, `first
      ensures Settled()
      ensures Reached(reliable, s0, steps, s) && Abandon(s, Down) == At(rpc.views(rpc.calls), Down)
      ensures s.phase == match end case Continues => Live case Reconnects => Idle case Dies => Down
      ensures end.Reconnects? ==> s == At(rpc.views(rpc.calls), Idle)
      ensures Fits(rpc.views, rpc.unreachable, script, course) && end == EndOf(script, course)
      ensures Acts(steps) == Acts(before) + ActsOf(script, course)
    {
      hide Reached, Admissible, Environment, StableBound, CursorOf, Acts, TurnActs, FollowsTurns, LastAct;
      var delivered, waiting, ok;
      ghost var batch, glimpses;
      end, delivered, steps := Subscribe(script, s0, before);
      ghost var at, acts := rpc.calls, Acts(before);
      assert acts + [] == acts;
      if !end.Continues? {
        return end, steps, At(rpc.views(rpc.calls), if end.Dies? then Down else Idle), Unsubscribed(at);
      }
      ok, waiting, steps, batch := CatchUpOnMissed(script.answered, script.closed, delivered, s0, steps);
      if !ok {
        Associate(acts, [Connect(script.first, delivered)], [CatchUpFails(batch)]);
        return Dies, steps, At(rpc.views(rpc.calls), Down), Missed(at, delivered, batch);
      }
      ghost var begin := rpc.calls;
      end, steps, s, glimpses := Forward(script.turns, script.fate, waiting, s0, steps);
      course := Listened(at, delivered, batch, begin, glimpses, !end.Reconnects?);
      Associate(acts, [Connect(script.first, delivered)], [CatchUp(batch)]);
      Associate(acts, [Connect(script.first, delivered)] + [CatchUp(batch)],
                TurnActs(glimpses, script.turns, |glimpses| - 1)
                + if end.Reconnects? then [] else LastAct(script.fate, glimpses[|glimpses| - 1].running));
    }

    /** The reconnect loop, for as many sessions as there are scripts. */
    method ProcessRealtimeLogs(sessions: seq<Script>, ghost s0: State, ghost before: seq<Step>)
      returns (alive: bool, ghost steps: seq<Step>, ghost s: State, ghost courses: seq<Course>)
      requires Environment() && Settled() && forall i :: 0 <= i < |sessions| ==> Admissible(sessions[i].answered)
      requires Reached(reliable, s0, before, At(rpc.views(rpc.calls), Idle))
      modifies rpc, `stored, `sent, `first
      ensures Settled()
      ensures Reached(reliable, s0, steps, s) && Abandon(s, Down) == At(rpc.views(rpc.calls), Down)
      ensures alive <==> s.phase != Down
      ensures Ran(rpc.views, rpc.unreachable, sessions, courses) && Acts(steps) == Acts(before) + AllActs(sessions, courses)
      ensures alive <==> courses == [] || !EndOf(sessions[|courses| - 1], courses[|courses| - 1]).Dies?
    {
      hide Reached, Admissible, Environment, StableBound, CursorOf, Acts, ActsOf, Fits, EndOf;
      steps, s, courses := before, At(rpc.views(rpc.calls), Idle), [];
      assert Acts(before) + [] == Acts(before);
      var i := 0;
      var end := End.Reconnects;
      while i < |sessions| && end.Reconnects?
        invariant i <= |sessions| && |courses| == i && Settled() && Reached(reliable, s0, steps, s)
        invariant Abandon(s, Down) == At(rpc.views(rpc.calls), Down)
        invariant s.phase == match end case Continues => Live case Reconnects => Idle case Dies => Down
        invariant end.Reconnects? ==> s == At(rpc.views(rpc.calls), Idle)
        invariant end == if i == 0 then End.Reconnects else EndOf(sessions[i - 1], courses[i - 1])
        invariant forall k :: 0 <= k < i ==> Fits(rpc.views, rpc.unreachable, sessions[k], courses[k])
        invariant forall k :: 0 <= k < i - 1 ==> EndOf(sessions[k], courses[k]).Reconnects?
        invariant Acts(steps) == Acts(before) + AllActs(sessions, courses)
      {
        ghost var course;
        ghost var acts := AllActs(sessions, courses);
        end, steps, s, course := RunSession(sessions[i], s0, steps);
        Associate(Acts(before), acts, ActsOf(sessions[i], course));
        assert (courses + [course])[..i] == courses;
        courses := courses + [course];
        i := i + 1;
      }
      alive := !end.Dies?;
    }

    /** One life of the process. An operator may have forced the stored signature to one on
        the ledger, or to one the chain never knows. */
    method ProcessInternal(life: Life, ghost s0: State, ghost before: seq<Step>)
      returns (alive: bool, ghost steps: seq<Step>, ghost s: State, ghost course: LifeCourse)
      requires Environment() && Settled() && Admissible(life.answered)
      requires life.forced.Unknown? ==> NeverSeen(rpc.views, Some(life.forced.signature))
      requires forall i :: 0 <= i < |life.sessions| ==> Admissible(life.sessions[i].answered)
      requires Reached(reliable, s0, before, At(rpc.views(rpc.calls), Down))
      modifies rpc, `stored, `sent, `first
      ensures Settled()
      ensures Reached(reliable, s0, steps, s) && Abandon(s, Down) == At(rpc.views(rpc.calls), Down)
      ensures LifeFits(rpc.views, rpc.unreachable, life, course) && |course.courses| <= |life.sessions|
      ensures alive <==> s.phase != Down
      ensures alive <==> EndsAlive(life, course)
      ensures Acts(steps) == Acts(before) + ActsOfLife(life, course)
    {
      hide Reached, Admissible, StableBound, CursorOf, Growing, Truthful, NeverSeen, Acts, Fits, AllActs, EndOf, ForcedTo;
      ghost var at := rpc.calls;
      ghost var settled := ForcedSettled(rpc.views, rpc.calls, life.forced);
      var forced := SignatureForced(rpc.views(rpc.calls), life.forced);
      ghost var batch, courses, from;
      alive, steps, batch := StartUp(forced, life.answered, s0, before);
      from := ForcedTo(rpc.views(at), life.forced);
      course := LifeCourse(from, |rpc.views(at)|, batch, alive, []);
      s := At(rpc.views(rpc.calls), Down);
      ghost var scan := [if alive then ListenerRun.StartUp(from, |rpc.views(at)|, batch) else StartUpFails(from, batch)];
      NoCourses(life.sessions);
      if alive {
        alive, steps, s, courses := ProcessRealtimeLogs(life.sessions, s0, steps);
        course := course.(courses := courses);
        Associate(Acts(before), scan, AllActs(life.sessions, courses));
      } else {
        assert scan + [] == scan;
      }
    }

    /** Any number of lives. Whatever the network, the chain and the operator do, what the
        code does is a run of the transition system, in which every life scans once and has
        its sessions, and every session its turns. So a monitored transaction after the
        starting point is kept accounted for exactly if none of the listed losses hit it.
        When fetches are reliable and everything happened in ledger order, none does. */
    method RunLives(lives: seq<Life>) returns (ghost steps: seq<Step>, ghost s: State, ghost courses: seq<LifeCourse>)
      requires Environment() && Settled() && Initial(At(rpc.views(rpc.calls), Down))
      requires forall i :: 0 <= i < |lives| ==>
        && Admissible(lives[i].answered)
        && (lives[i].forced.Unknown? ==> NeverSeen(rpc.views, Some(lives[i].forced.signature)))
      requires forall i, j :: 0 <= i < |lives| && 0 <= j < |lives[i].sessions| ==> Admissible(lives[i].sessions[j].answered)
      modifies rpc, `stored, `sent, `first
      ensures Possible(old(At(rpc.views(rpc.calls), Down)), steps)
      ensures Exec(old(At(rpc.views(rpc.calls), Down)), steps) == s
      ensures s.cursor == CursorOf(rpc.views(rpc.calls), stored) && s.sent == sent && s.ledger == rpc.views(rpc.calls)
      ensures AllFit(rpc.views, rpc.unreachable, lives, courses) && Acts(steps) == ActsOfLives(lives, courses)
      ensures forall p: nat :: p > start ==>
        (KeptThroughout(old(At(rpc.views(rpc.calls), Down)), steps, p)
         <==> !WasLost(old(At(rpc.views(rpc.calls), Down)), steps, p))
      ensures reliable ==> AllComplete(old(At(rpc.views(rpc.calls), Down)), steps)
      ensures reliable && AllInLedgerOrder(old(At(rpc.views(rpc.calls), Down)), steps) ==>
        forall p: nat :: Target(s.ledger, p) && p > start ==> Accounted(s, p)
    {
      hide AllComplete, Admissible, StableBound, CursorOf, Growing, Truthful, NeverSeen, Possible, Exec;
      hide Acts, ActsOfLives, ActsOfLife, EndsAlive, LifeFits;
      ghost var s0 := At(rpc.views(rpc.calls), Down);
      steps, s, courses := [], s0, [];
      ReachedInitially(reliable, rpc.views, rpc.calls, s0);
      NoLives(lives);
      var alive := false;
      for i := 0 to |lives|
        invariant Settled() && Reached(reliable, s0, steps, s) && Abandon(s, Down) == At(rpc.views(rpc.calls), Down)
        invariant alive <==> s.phase != Down
        invariant AllFit(rpc.views, rpc.unreachable, lives[..i], courses)
        invariant alive <==> i > 0 && EndsAlive(lives[i - 1], courses[i - 1])
        invariant Acts(steps) == ActsOfLives(lives[..i], courses)
      {
        ghost var acts := Acts(steps);
        ghost var course;
        assert acts + [] == acts;
        if alive {
          RestartSteps(reliable, s0, steps, s);
          ActsOn(steps, Crash);
          steps := steps + [Crash];
        } else {
          DownIsAbandoned(reliable, s0, steps, s);
        }
        alive, steps, s, course := ProcessInternal(lives[i], s0, steps);
        LivesOn(lives, courses, i, course);
        courses := courses + [course];
      }
      assert lives[..|lives|] == lives;
      NothingSilentlyLost(reliable, s0, steps, s);
    }
  }
}
