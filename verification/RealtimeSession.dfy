/** One live subscription as the code runs it: a hand-written poll function that
    multiplexes running fetches with the WebSocket stream, and the loop that
    forwards its results and moves the stored cursor. It refines the live phase of
    the transition system. */
module RealtimeSession {
  import opened Basics
  import opened Ledger
  import opened ListenerRun

  /** Which running fetch, if any, is ready, and whether its RPC succeeded. */
  datatype FetchAnswer = FetchReady(index: nat, reachable: bool) | FetchPending

  /** What the WebSocket stream answers: one of the delivered items, an item whose
      signature does not parse, nothing yet, or its end. */
  datatype WsAnswer = WsItem(index: nat) | WsUnparsable | WsPending | WsEnd

  datatype Event = Grows(entry: Entry) | Polled(fetch: FetchAnswer, ws: WsAnswer)

  datatype FetchResult = Found(p: nat) | NotSuccessful | Failed

  datatype PollResult = Ready(result: FetchResult) | Waits | Ended

  datatype Outcome = StillOpen | Reconnects

  function Arrivals(events: seq<Event>): Chain {
    if events == [] then []
    else (if events[0].Grows? then [events[0].entry] else []) + Arrivals(events[1..])
  }

  lemma NextArrival(l: Chain, events: seq<Event>)
    requires events != []
    ensures events[0].Grows? ==> l + Arrivals(events) == l + [events[0].entry] + Arrivals(events[1..])
    ensures events[0].Polled? ==> Arrivals(events) == Arrivals(events[1..])
  {
  }

  lemma PrefixValid(l: Chain, l': Chain)
    requires l <= l' && ValidChain(l')
    ensures ValidChain(l)
  {
    assert forall i :: 0 <= i < |l| ==> l[i] == l'[i];
  }

  predicate Targets(l: Chain, ps: seq<nat>) {
    forall k :: 0 <= k < |ps| ==> Target(l, ps[k])
  }

  lemma TargetsRemove(l: Chain, ps: seq<nat>, i: nat)
    requires Targets(l, ps) && i < |ps|
    ensures Targets(l, RemoveAt(ps, i)) && Target(l, ps[i])
  {
  }

  lemma TargetsAppend(l: Chain, ps: seq<nat>, p: nat)
    requires Targets(l, ps) && Target(l, p)
    ensures Targets(l, ps + [p])
  {
  }

  predicate NoScans(steps: seq<Step>) {
    forall k :: 0 <= k < |steps| ==> !steps[k].StartUp? && !steps[k].CatchUp?
  }

  function StepList(step: Option<Step>): seq<Step> {
    if step.Some? then [step.value] else []
  }

  /** The abstract step an event amounts to, if it changes anything, when the fetches
      `running` are in flight. */
  ghost function StepOf(s: State, running: seq<nat>, event: Event): (r: Option<Step>)
    ensures NoScans(StepList(r))
  {
    match event
    case Grows(e) => Some(Append(e))
    case Polled(fetch, ws) =>
      if fetch.FetchReady? && fetch.index < |running| then
        Some(if fetch.reachable then Finish(running[fetch.index]) else Disconnect)
      else if ws.WsItem? && ws.index < |s.queue| then Some(Pull(ws.index))
      else if ws.WsEnd? then Some(Disconnect)
      else None
  }

  /** What one poll returns and leaves behind: a finished fetch always goes first, only
      when none is ready is the stream asked, and an item taken from it becomes a new
      fetch rather than a result. */
  ghost function PollEffect(s: State, running: seq<nat>, fetch: FetchAnswer, ws: WsAnswer): (PollResult, State) {
    if fetch.FetchReady? && fetch.index < |running| then
      var p := running[fetch.index];
      (Ready(if fetch.reachable then Found(p) else Failed), s.(inFlight := s.inFlight - multiset{p}))
    else if ws.WsItem? && ws.index < |s.queue| then
      (Waits, s.(queue := RemoveAt(s.queue, ws.index), inFlight := s.inFlight + multiset{s.queue[ws.index]}))
    else (if ws.WsEnd? then Ended else Waits, s)
  }

  /** `t` is what the session looks like after `step` from `s`; a session that is no
      longer open is the abandoned state up to its leftovers. */
  ghost predicate Matches(s: State, step: Option<Step>, t: State, open: bool) {
    match step
    case None => open && t == s
    case Some(st) =>
      && Enabled(s, st)
      && if st.Disconnect? then !open && Abandon(t, Idle) == Next(s, st) else open && t == Next(s, st)
  }

  lemma FinishStep(s: State, p: nat)
    requires WellFormed(s) && ValidChain(s.ledger) && s.phase == Live && p in s.inFlight
    ensures Enabled(s, Finish(p))
    ensures Next(s, Finish(p)) == s.(inFlight := s.inFlight - multiset{p}, sent := s.sent + [p], cursor := p)
  {
    hide ValidChain, WellFormed;
  }

  lemma PullStep(s: State, i: nat)
    requires WellFormed(s) && ValidChain(s.ledger) && s.phase == Live && i < |s.queue|
    ensures Enabled(s, Pull(i))
    ensures Next(s, Pull(i)) == s.(queue := RemoveAt(s.queue, i), inFlight := s.inFlight + multiset{s.queue[i]})
  {
    hide ValidChain, WellFormed;
  }

  lemma DisconnectStep(s: State)
    requires WellFormed(s) && ValidChain(s.ledger) && s.phase == Live
    ensures Enabled(s, Disconnect) && Next(s, Disconnect) == Abandon(s, Idle)
  {
    hide ValidChain, WellFormed;
  }

  /** A poll, followed by the reaction to its result, is one abstract step. */
  lemma PollMatches(s: State, running: seq<nat>, fetch: FetchAnswer, ws: WsAnswer)
    requires WellFormed(s) && ValidChain(s.ledger) && s.phase == Live && s.inFlight == multiset(running)
    ensures
      var (r, t) := PollEffect(s, running, fetch, ws);
      var step := StepOf(s, running, Polled(fetch, ws));
      match r
      case Ready(Found(p)) => Matches(s, step, t.(sent := t.sent + [p], cursor := p), true)
      case Ready(_) => r.result.Failed? && Matches(s, step, t, false)
      case Waits => Matches(s, step, t, true)
      case Ended => Matches(s, step, t, false)
  {
    hide ValidChain, WellFormed, Enabled, Next;
    DisconnectStep(s);
    if fetch.FetchReady? && fetch.index < |running| {
      FinishStep(s, running[fetch.index]);
    } else if ws.WsItem? && ws.index < |s.queue| {
      PullStep(s, ws.index);
    }
  }

  /** What an event does to a live session with the fetches `running`. A finished fetch is
      sent and becomes the cursor; only when none is ready a delivered item is taken, whose
      fetch is then in flight; a failed fetch and the end of the stream end the session. */
  ghost predicate Does(s: State, running: seq<nat>, event: Event, t: State, open: bool) {
    match event
    case Grows(e) => open && t == s.(ledger := s.ledger + [e], queue := s.queue + Deliveries(e, |s.ledger|))
    case Polled(fetch, ws) =>
      if fetch.FetchReady? && fetch.index < |running| then
        var p := running[fetch.index];
        if fetch.reachable then open && t == s.(inFlight := s.inFlight - multiset{p}, sent := s.sent + [p], cursor := p)
        else !open && t.sent == s.sent && t.cursor == s.cursor && t.ledger == s.ledger
      else if ws.WsItem? && ws.index < |s.queue| then
        && open
        && t == s.(queue := s.queue[..ws.index] + s.queue[ws.index + 1..],
                   inFlight := s.inFlight + multiset{s.queue[ws.index]})
      else if ws.WsEnd? then !open && t.sent == s.sent && t.cursor == s.cursor && t.ledger == s.ledger
      else open && t == s
  }

  /** The abstract step of an event does exactly that. */
  lemma StepDoes(s: State, running: seq<nat>, event: Event, t: State, open: bool)
    requires Matches(s, StepOf(s, running, event), t, open) && s.phase == Live
    ensures Does(s, running, event, t, open)
  {
    hide WellFormed, ValidChain, Deliveries;
  }

  /** A session seen from outside between two events. */
  datatype Moment = Moment(state: State, running: seq<nat>)

  ghost predicate Coherent(m: Moment) {
    m.state.inFlight == multiset(m.running) && m.state.phase == Live
  }

  /** Every event but for the ones never reached had exactly its abstract step. */
  ghost predicate Followed(moments: seq<Moment>, events: seq<Event>, open: bool) {
    && 1 <= |moments| <= |events| + 1
    && (forall k :: 0 <= k < |moments| ==> Coherent(moments[k]))
    && forall k :: 0 <= k < |moments| - 1 ==>
         Matches(moments[k].state, StepOf(moments[k].state, moments[k].running, events[k]), moments[k + 1].state,
                 open || k < |moments| - 2)
  }

  lemma FollowedOn(moments: seq<Moment>, events: seq<Event>, m: Moment, open: bool)
    requires Followed(moments, events, true) && |moments| <= |events| && Coherent(m)
    requires
      var k := |moments| - 1;
      Matches(moments[k].state, StepOf(moments[k].state, moments[k].running, events[k]), m.state, open)
    ensures Followed(moments + [m], events, open)
  {
    hide Matches, StepOf;
  }

  /** The abstract steps of the first `n` events. */
  ghost function StepsAlong(moments: seq<Moment>, events: seq<Event>, n: nat): seq<Step>
    requires n < |moments| && n <= |events|
  {
    if n == 0 then []
    else StepsAlong(moments, events, n - 1) + StepList(StepOf(moments[n - 1].state, moments[n - 1].running, events[n - 1]))
  }

  lemma {:induction false} StepsAlongOn(moments: seq<Moment>, events: seq<Event>, m: Moment, n: nat)
    requires n < |moments| && n <= |events|
    ensures StepsAlong(moments + [m], events, n) == StepsAlong(moments, events, n)
  {
    if n == 0 {
    } else {
      StepsAlongOn(moments, events, m, n - 1);
    }
  }

  lemma NothingYet(s: State, running: seq<nat>, events: seq<Event>)
    requires Coherent(Moment(s, running))
    ensures Possible(s, []) && Exec(s, []) == s && NoScans([]) && Followed([Moment(s, running)], events, true)
  {
  }

  lemma NoArrivals(l: Chain)
    ensures l + Arrivals([]) == l
  {
  }

  lemma GrowthIsAppend(s: State, running: seq<nat>, e: Entry)
    ensures StepOf(s, running, Grows(e)) == Some(Append(e))
  {
  }

  lemma AdvanceRun(s0: State, steps: seq<Step>, s: State, step: Option<Step>, t: State, open: bool)
    requires Possible(s0, steps) && Exec(s0, steps) == s && Matches(s, step, t, open)
    requires WellFormed(s) && ValidChain(s.ledger) && NoScans(steps) && NoScans(StepList(step))
    ensures Possible(s0, steps + StepList(step)) && NoScans(steps + StepList(step))
    ensures open ==> Exec(s0, steps + StepList(step)) == t && WellFormed(t) && ValidChain(t.ledger)
    ensures !open ==> Exec(s0, steps + StepList(step)) == Abandon(t, Idle)
  {
    hide Enabled, Next, WellFormed, ValidChain;
    if step.Some? {
      Extend(s0, steps, step.value);
      StepWellFormed(s, step.value);
    } else {
      assert steps + StepList(step) == steps;
    }
  }

  /** A successful transaction is delivered by every subscription that it concerns. */
  lemma DeliveriesAre(e: Entry, p: nat)
    ensures Deliveries(e, p) == if !e.successful || !Monitored(e) then []
                                else if Gateway in e.mentions && GasService in e.mentions then [p, p]
                                else [p]
  {
    if e.successful && Gateway in e.mentions && GasService in e.mentions {
      assert Deliveries(e, p) == [p, p];
    } else if e.successful && Monitored(e) {
      assert Deliveries(e, p) == [p];
    } else {
      assert Deliveries(e, p) == [];
    }
  }

  lemma AppendStep(s: State, e: Entry)
    requires WellFormed(s) && ValidChain(s.ledger) && ValidChain(s.ledger + [e])
    ensures Enabled(s, Append(e))
    ensures Next(s, Append(e)) == s.(ledger := s.ledger + [e],
              queue := s.queue + if Subscribed(s) then Deliveries(e, |s.ledger|) else [])
  {
    hide ValidChain, WellFormed;
  }

  class Session {
    const start: int
    const first: nat
    var ledger: Chain
    var cursor: int
    var sent: seq<nat>
    var delivered: seq<nat>
    var fetchFutures: seq<nat>
    ghost var pulled: multiset<nat>
    ghost var emitted: multiset<nat>

    ghost function Abs(): State
      reads this
    {
      ListenerRun.State(ledger, start, cursor, sent, Live, first, delivered, multiset(fetchFutures))
    }

    /** Everything pulled so far was either emitted or is still being fetched, and
        only successful monitored transactions were ever delivered. */
    ghost predicate Valid()
      reads this
    {
      && pulled == emitted + multiset(fetchFutures)
      && Targets(ledger, delivered) && Targets(ledger, fetchFutures)
    }

    constructor (start: int, first: nat, ledger: Chain, cursor: int, sent: seq<nat>, delivered: seq<nat>)
      requires Targets(ledger, delivered)
      ensures Valid() && pulled == emitted == multiset{} && fetchFutures == []
      ensures Abs() == ListenerRun.State(ledger, start, cursor, sent, Live, first, delivered, multiset{})
    {
      this.start, this.first, this.ledger, this.cursor, this.sent := start, first, ledger, cursor, sent;
      this.delivered := delivered;
      fetchFutures := [];
      pulled, emitted := multiset{}, multiset{};
    }

    /** `FuturesUnordered` yields a finished fetch. */
    method TakeFinished(i: nat) returns (p: nat)
      requires Valid() && i < |fetchFutures|
      modifies `fetchFutures, `emitted
      ensures Valid() && p == old(fetchFutures)[i] && Target(ledger, p) && p in old(Abs()).inFlight
      ensures Abs() == old(Abs()).(inFlight := old(Abs()).inFlight - multiset{p})
      ensures emitted == old(emitted) + multiset{p}
    {
      hide Target, Targets, RemoveAt;
      p := fetchFutures[i];
      TargetsRemove(ledger, fetchFutures, i);
      RemoveAtMultiset(fetchFutures, i);
      fetchFutures := RemoveAt(fetchFutures, i);
      emitted := emitted + multiset{p};
    }

    /** A delivered item is taken from the stream and its fetch is pushed. */
    method StartFetch(i: nat)
      requires Valid() && i < |delivered|
      modifies `delivered, `fetchFutures, `pulled
      ensures Valid()
      ensures Abs() == old(Abs()).(queue := RemoveAt(old(delivered), i),
                                   inFlight := old(Abs()).inFlight + multiset{old(delivered)[i]})
      ensures pulled == old(pulled) + multiset{old(delivered)[i]}
    {
      hide Target, Targets, RemoveAt;
      var p := delivered[i];
      TargetsRemove(ledger, delivered, i);
      TargetsAppend(ledger, fetchFutures, p);
      delivered := RemoveAt(delivered, i);
      fetchFutures := fetchFutures + [p];
      pulled := pulled + multiset{p};
    }

    /** The poll function, which multiplexes finished fetches and the stream. */
    method PollMerged(fetch: FetchAnswer, ws: WsAnswer) returns (r: PollResult)
      requires Valid()
      modifies `delivered, `fetchFutures, `pulled, `emitted
      ensures Valid() && (r, Abs()) == PollEffect(old(Abs()), old(fetchFutures), fetch, ws)
      ensures r.Ready? ==> emitted == old(emitted) + multiset{old(fetchFutures)[fetch.index]} && pulled == old(pulled)
      ensures !r.Ready? ==> emitted == old(emitted)
      ensures (fetch.FetchPending? || fetch.index >= |old(fetchFutures)|) && ws.WsItem? && ws.index < |old(delivered)| ==>
        && r == Waits && pulled == old(pulled) + multiset{old(delivered)[ws.index]}
        && delivered == RemoveAt(old(delivered), ws.index)
        && multiset(fetchFutures) == multiset(old(fetchFutures)) + multiset{old(delivered)[ws.index]}
      ensures r.Ready? ==> r.result == if fetch.reachable then Found(old(fetchFutures)[fetch.index]) else Failed
    {
      hide Targets, RemoveAt;
      if fetch.FetchReady? && fetch.index < |fetchFutures| {
        var p := TakeFinished(fetch.index);
        return Ready(if !fetch.reachable then Failed else if ledger[p].successful then Found(p) else NotSuccessful);
      }
      match ws {
        case WsItem(i) =>
          if i < |delivered| {
            StartFetch(i);
          }
          r := Waits;
        case WsUnparsable => r := Waits;
        case WsPending => r := Waits;
        case WsEnd => r := Ended;
      }
    }

    /** New ledger entries reach the subscriptions that mention them. */
    method Grow(e: Entry)
      requires Valid() && WellFormed(Abs()) && ValidChain(ledger) && ValidChain(ledger + [e])
      modifies `ledger, `delivered
      ensures Valid() && ledger == old(ledger) + [e]
      ensures Matches(old(Abs()), Some(Append(e)), Abs(), true)
    {
      hide ValidChain, WellFormed, Enabled, Next;
      AppendStep(Abs(), e);
      var p := |ledger|;
      ledger := ledger + [e];
      DeliveriesAre(e, p);
      assert forall q: nat :: Target(old(ledger), q) ==> Target(ledger, q);
      assert Targets(ledger, Deliveries(e, p));
      hide Target, Deliveries;
      delivered := delivered + Deliveries(e, p);
    }

    /** One turn of the forwarding loop: poll, and on a result send it and then store
        it as the cursor. Leaving the loop drops whatever is in flight or delivered. */
    method HandlePoll(fetch: FetchAnswer, ws: WsAnswer) returns (open: bool)
      requires Valid() && WellFormed(Abs()) && ValidChain(ledger)
      modifies `delivered, `fetchFutures, `pulled, `emitted, `sent, `cursor
      ensures Valid() && Matches(old(Abs()), StepOf(old(Abs()), old(fetchFutures), Polled(fetch, ws)), Abs(), open)
      ensures cursor == old(cursor) || 0 <= cursor
    {
      hide ValidChain, Target, Targets, WellFormed, PollEffect, StepOf, Matches;
      ghost var s := Abs();
      PollMatches(s, fetchFutures, fetch, ws);
      var r := PollMerged(fetch, ws);
      match r {
        case Ready(Found(p)) =>
          sent := sent + [p];
          cursor := p;
          open := true;
        case Ready(NotSuccessful) => open := true;
        case Ready(Failed) => open := false;
        case Waits => open := true;
        case Ended => open := false;
      }
    }

    /** The forwarding loop over any sequence of arrivals and polls is a run of the
        transition system that handles every event; it either is still live or has gone
        through a disconnect at its last event. */
    method ForwardResults(events: seq<Event>) returns (outcome: Outcome, ghost steps: seq<Step>, ghost moments: seq<Moment>)
      requires Valid() && WellFormed(Abs()) && ValidChain(ledger + Arrivals(events))
      modifies this
      ensures Valid() && old(ledger) <= ledger <= old(ledger) + Arrivals(events)
      ensures cursor == old(cursor) || 0 <= cursor
      ensures Possible(old(Abs()), steps) && NoScans(steps)
      ensures Exec(old(Abs()), steps) == if outcome.StillOpen? then Abs() else Abandon(Abs(), Idle)
      ensures Followed(moments, events, outcome.StillOpen?) && steps == StepsAlong(moments, events, |moments| - 1)
      ensures moments[0] == old(Moment(Abs(), fetchFutures)) && moments[|moments| - 1] == Moment(Abs(), fetchFutures)
      ensures if outcome.StillOpen? then |moments| == |events| + 1 && ledger == old(ledger) + Arrivals(events)
              else |moments| >= 2
    {
      hide ValidChain, WellFormed, Enabled, Next, Possible, Exec, Matches, Abandon, Arrivals, NoScans, StepOf, StepList;
      hide Targets, Followed;
      ghost var s0, all := Abs(), ledger + Arrivals(events);
      steps, moments := [], [Moment(Abs(), fetchFutures)];
      NothingYet(s0, fetchFutures, events);
      PrefixValid(ledger, all);
      var i := 0;
      assert events[0..] == events;
      while i < |events|
        invariant i <= |events| && Valid() && WellFormed(Abs()) && ValidChain(ledger)
        invariant cursor == old(cursor) || 0 <= cursor
        invariant ledger + Arrivals(events[i..]) == all && old(ledger) <= ledger
        invariant Possible(s0, steps) && Exec(s0, steps) == Abs() && NoScans(steps)
        invariant |moments| == i + 1 && Followed(moments, events, true) && steps == StepsAlong(moments, events, i)
        invariant moments[0] == Moment(s0, old(fetchFutures)) && moments[i] == Moment(Abs(), fetchFutures)
      {
        ghost var s, step := Abs(), StepOf(Abs(), fetchFutures, events[i]);
        NextArrival(ledger, events[i..]);
        assert events[i..][1..] == events[i + 1..];
        var open := true;
        match events[i] {
          case Grows(e) =>
            PrefixValid(ledger + [e], all);
            GrowthIsAppend(s, fetchFutures, e);
            Grow(e);
          case Polled(fetch, ws) =>
            open := HandlePoll(fetch, ws);
        }
        AdvanceRun(s0, steps, s, step, Abs(), open);
        FollowedOn(moments, events, Moment(Abs(), fetchFutures), open);
        StepsAlongOn(moments, events, Moment(Abs(), fetchFutures), i);
        steps, moments := steps + StepList(step), moments + [Moment(Abs(), fetchFutures)];
        i := i + 1;
        if !open {
          return Reconnects, steps, moments;
        }
      }
      assert events[i..] == [];
      NoArrivals(ledger);
      outcome := StillOpen;
    }
  }
}
