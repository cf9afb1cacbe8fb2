/** A live session turn by turn: time passes and the ledger grows, or the merged stream
    is polled. Every poll is handled as its answers call for, growth is delivered, and
    what is pulled and fetched is sent. */
module SessionTurns {
  import opened Basics
  import opened Ledger
  import opened BatchScanner
  import opened ListenerRun
  import opened RealtimeSession

  /** What a run did, without the growth of the ledger in between. */
  function Acts(steps: seq<Step>): seq<Step> {
    if steps == [] then []
    else Acts(steps[..|steps| - 1]) + if steps[|steps| - 1].Append? then [] else [steps[|steps| - 1]]
  }

  lemma ActsOn(steps: seq<Step>, step: Step)
    ensures Acts(steps + [step]) == Acts(steps) + if step.Append? then [] else [step]
  {
    assert (steps + [step])[..|steps|] == steps;
  }

  lemma {:induction false} ActsJoin(a: seq<Step>, b: seq<Step>)
    ensures Acts(a + b) == Acts(a) + Acts(b)
    decreases |b|
  {
    if b == [] {
      assert a + b == a;
    } else {
      var n := |b| - 1;
      assert a + b == a + b[..n] + [b[n]] && b == b[..n] + [b[n]];
      ActsJoin(a, b[..n]);
      ActsOn(a + b[..n], b[n]);
    }
  }

  /** What the subscriptions deliver for the entries of `l` from `from` on. */
  function Arrived(l: Chain, from: nat): seq<nat>
    requires from <= |l|
  {
    if |l| == from then [] else Arrived(l[..|l| - 1], from) + Deliveries(l[|l| - 1], |l| - 1)
  }

  lemma ViewsGrow(views: nat -> Chain, i: nat, j: nat)
    requires Growing(views) && i <= j
    ensures views(i) <= views(j) && ValidChain(views(j))
  {
  }

  // ---------------------------------------------------------------- time passing during a session

  /** Between two polls the ledger may grow. */
  datatype Turn = Elapse | Poll(fetch: FetchAnswer, ws: WsAnswer)

  function Elapsed(turns: seq<Turn>): nat {
    if turns == [] then 0 else (if turns[0].Elapse? then 1 else 0) + Elapsed(turns[1..])
  }

  function Growth(entries: Chain): seq<Event> {
    if entries == [] then [] else [Grows(entries[0])] + Growth(entries[1..])
  }

  /** The turns of a session that starts at call `c`, with the growth spelled out. */
  function EventsOf(views: nat -> Chain, c: nat, turns: seq<Turn>): seq<Event>
    requires Growing(views)
    decreases |turns|
  {
    if turns == [] then []
    else
      match turns[0]
      case Elapse => Growth(views(c + 1)[|views(c)|..]) + EventsOf(views, c + 1, turns[1..])
      case Poll(fetch, ws) => [Polled(fetch, ws)] + EventsOf(views, c, turns[1..])
  }

  /** The polls of a session, as its environment answers them. */
  function Polls(turns: seq<Turn>): seq<(FetchAnswer, WsAnswer)> {
    if turns == [] then []
    else (if turns[0].Poll? then [(turns[0].fetch, turns[0].ws)] else []) + Polls(turns[1..])
  }

  /** The polls among the events of a session. */
  function PollsAmong(events: seq<Event>): seq<(FetchAnswer, WsAnswer)> {
    if events == [] then []
    else (if events[0].Polled? then [(events[0].fetch, events[0].ws)] else []) + PollsAmong(events[1..])
  }

  lemma {:induction false} GrowthHasNoPolls(entries: Chain, events: seq<Event>)
    ensures PollsAmong(Growth(entries) + events) == PollsAmong(events)
    decreases |entries|
  {
    if entries == [] {
      assert Growth(entries) + events == events;
    } else {
      GrowthHasNoPolls(entries[1..], events);
      assert Growth(entries) + events == [Grows(entries[0])] + (Growth(entries[1..]) + events);
    }
  }

  /** Every poll of a session is one of its events, in the same order and with the same answers. */
  lemma {:induction false} PollsKept(views: nat -> Chain, c: nat, turns: seq<Turn>)
    requires Growing(views)
    ensures PollsAmong(EventsOf(views, c, turns)) == Polls(turns)
    decreases |turns|
  {
    hide Growing, Growth;
    if turns == [] {
    } else {
      var rest := turns[1..];
      match turns[0] {
        case Elapse =>
          ViewsGrow(views, c, c + 1);
          PollsKept(views, c + 1, rest);
          GrowthHasNoPolls(views(c + 1)[|views(c)|..], EventsOf(views, c + 1, rest));
        case Poll(fetch, ws) =>
          PollsKept(views, c, rest);
          assert ([Polled(fetch, ws)] + EventsOf(views, c, rest))[1..] == EventsOf(views, c, rest);
      }
    }
  }

  lemma {:induction false} ElapsedSplit(a: seq<Turn>, b: seq<Turn>)
    ensures Elapsed(a + b) == Elapsed(a) + Elapsed(b)
    decreases |a|
  {
    if a == [] {
      assert a + b == b;
    } else {
      assert (a + b)[1..] == a[1..] + b;
      ElapsedSplit(a[1..], b);
    }
  }

  /** The events of a session come in the order of its turns. */
  lemma {:induction false} EventsSplit(views: nat -> Chain, c: nat, a: seq<Turn>, b: seq<Turn>)
    requires Growing(views)
    ensures EventsOf(views, c, a + b) == EventsOf(views, c, a) + EventsOf(views, c + Elapsed(a), b)
    decreases |a|
  {
    hide Growing, Growth;
    if a == [] {
      assert a + b == b;
    } else {
      assert (a + b)[1..] == a[1..] + b;
      EventsSplit(views, if a[0].Elapse? then c + 1 else c, a[1..], b);
    }
  }

  lemma {:induction false} GrowthArrives(entries: Chain, events: seq<Event>)
    ensures Arrivals(Growth(entries) + events) == entries + Arrivals(events)
    decreases |entries|
  {
    if entries == [] {
      assert Growth(entries) + events == events;
    } else {
      GrowthArrives(entries[1..], events);
      assert Growth(entries) + events == [Grows(entries[0])] + (Growth(entries[1..]) + events);
      assert entries == [entries[0]] + entries[1..];
    }
  }

  lemma Regroup<T>(a: seq<T>, b: seq<T>, rest: seq<T>)
    requires a <= b
    ensures a + (b[|a|..] + rest) == b + rest
  {
  }

  lemma {:induction false} EventsArrive(views: nat -> Chain, c: nat, turns: seq<Turn>)
    requires Growing(views)
    ensures views(c) + Arrivals(EventsOf(views, c, turns)) == views(c + Elapsed(turns))
    decreases |turns|
  {
    hide Growing, Growth, Arrivals;
    if turns == [] {
      NoArrivals(views(c));
    } else {
      var rest := turns[1..];
      match turns[0] {
        case Elapse =>
          ViewsGrow(views, c, c + 1);
          EventsArrive(views, c + 1, rest);
          GrowthArrives(views(c + 1)[|views(c)|..], EventsOf(views, c + 1, rest));
          Regroup(views(c), views(c + 1), Arrivals(EventsOf(views, c + 1, rest)));
        case Poll(fetch, ws) =>
          EventsArrive(views, c, rest);
          NextArrival(views(c), [Polled(fetch, ws)] + EventsOf(views, c, rest));
          assert ([Polled(fetch, ws)] + EventsOf(views, c, rest))[1..] == EventsOf(views, c, rest);
      }
    }
  }

  // ---------------------------------------------------------------- a session, turn by turn

  /** What one turn does to a session: time passing lets the ledger grow up to `view` and
      the subscriptions deliver what landed, a poll does what its answers call for. */
  ghost predicate Took(m: Moment, turn: Turn, t: Moment, view: Chain, open: bool) {
    match turn
    case Elapse =>
      && open && m.state.ledger <= view
      && t.state == m.state.(ledger := view, queue := m.state.queue + Arrived(view, |m.state.ledger|))
    case Poll(fetch, ws) => Does(m.state, m.running, Polled(fetch, ws), t.state, open)
  }

  /** Each glimpse but the last is followed by what its turn does; `open` tells whether the
      last turn kept the session open. */
  ghost predicate Takes(glimpses: seq<Moment>, views: nat -> Chain, c: nat, turns: seq<Turn>, open: bool) {
    && 1 <= |glimpses| <= |turns| + 1
    && forall k :: 0 <= k < |glimpses| - 1 ==>
         && glimpses[k].state.inFlight == multiset(glimpses[k].running)
         && Took(glimpses[k], turns[k], glimpses[k + 1], views(c + Elapsed(turns[..k + 1])), open || k < |glimpses| - 2)
  }

  /** `glimpses` shows a session before its first turn and after each one. Only a session
      that does not stay open skips turns, those after the one that ended it. */
  ghost predicate FollowsTurns(glimpses: seq<Moment>, views: nat -> Chain, c: nat, turns: seq<Turn>, open: bool) {
    Takes(glimpses, views, c, turns, open) && if open then |glimpses| == |turns| + 1 else |glimpses| >= 2
  }

  lemma TakesOn(glimpses: seq<Moment>, views: nat -> Chain, c: nat, turns: seq<Turn>, m: Moment, open: bool)
    requires Takes(glimpses, views, c, turns, true) && |glimpses| <= |turns|
    requires
      var k := |glimpses| - 1;
      && glimpses[k].state.inFlight == multiset(glimpses[k].running)
      && Took(glimpses[k], turns[k], m, views(c + Elapsed(turns[..k + 1])), open)
    ensures Takes(glimpses + [m], views, c, turns, open)
  {
    hide Took, Elapsed;
  }

  lemma MomentDoes(moments: seq<Moment>, events: seq<Event>, open: bool, k: nat)
    requires Followed(moments, events, open) && k < |moments| - 1
    ensures Does(moments[k].state, moments[k].running, events[k], moments[k + 1].state, open || k < |moments| - 2)
  {
    hide Matches, StepOf, Does;
    StepDoes(moments[k].state, moments[k].running, events[k], moments[k + 1].state, open || k < |moments| - 2);
  }

  lemma ArrivedOn(l: Chain, e: Entry, from: nat)
    requires from <= |l|
    ensures Arrived(l + [e], from) == Arrived(l, from) + Deliveries(e, |l|)
  {
    assert (l + [e])[..|l|] == l;
  }

  lemma FollowedLength(moments: seq<Moment>, events: seq<Event>, open: bool)
    requires Followed(moments, events, open)
    ensures 1 <= |moments| <= |events| + 1
    ensures forall k :: 0 <= k < |moments| ==> moments[k].state.inFlight == multiset(moments[k].running)
  {
  }

  /** How far a session has come after some growth. */
  function GrownSession(s: State, entries: Chain): State {
    s.(ledger := s.ledger + entries, queue := s.queue + Arrived(s.ledger + entries, |s.ledger|))
  }

  lemma NothingGrown(s: State)
    ensures GrownSession(s, []) == s
  {
    assert s.ledger + [] == s.ledger && s.queue + [] == s.queue;
  }

  lemma OneMoreGrown(s: State, running: seq<nat>, entries: Chain, e: Entry, t: State, open: bool)
    requires Does(GrownSession(s, entries), running, Grows(e), t, open)
    ensures open && t == GrownSession(s, entries + [e])
  {
    hide Deliveries, Arrived;
    var before := s.ledger + entries;
    assert s.ledger + (entries + [e]) == before + [e];
    ArrivedOn(before, e, |s.ledger|);
    Associate(s.queue, Arrived(before, |s.ledger|), Deliveries(e, |before|));
  }

  /** Growth never ends a session, and all of it is delivered. */
  lemma {:induction false} GrowthIsTaken(moments: seq<Moment>, events: seq<Event>, open: bool, i: nat, entries: Chain)
    requires Followed(moments, events, open) && (open ==> |moments| == |events| + 1)
    requires if open then i < |moments| else i < |moments| - 1
    requires i + |entries| <= |events| && forall j :: 0 <= j < |entries| ==> events[i + j] == Grows(entries[j])
    ensures if open then i + |entries| < |moments| else i + |entries| < |moments| - 1
    ensures moments[i + |entries|].state == GrownSession(moments[i].state, entries)
    decreases |entries|
  {
    hide Followed, Does, GrownSession;
    FollowedLength(moments, events, open);
    if entries == [] {
      NothingGrown(moments[i].state);
    } else {
      var n := |entries| - 1;
      GrowthIsTaken(moments, events, open, i, entries[..n]);
      MomentDoes(moments, events, open, i + n);
      assert events[i + n] == Grows(entries[n]) && entries == entries[..n] + [entries[n]];
      OneMoreGrown(moments[i].state, moments[i + n].running, entries[..n], entries[n], moments[i + n + 1].state,
                   open || i + n < |moments| - 2);
    }
  }

  lemma {:induction false} GrowthAt(entries: Chain)
    ensures |Growth(entries)| == |entries|
    ensures forall j :: 0 <= j < |entries| ==> Growth(entries)[j] == Grows(entries[j])
  {
    if entries == [] {
    } else {
      GrowthAt(entries[1..]);
    }
  }

  /** The events of one turn, among all those of the session. */
  lemma EventsOfTurn(views: nat -> Chain, c: nat, turns: seq<Turn>, t: nat)
    requires Growing(views) && t < |turns|
    ensures
      var all, i, at := EventsOf(views, c, turns), |EventsOf(views, c, turns[..t])|, c + Elapsed(turns[..t]);
      match turns[t]
      case Elapse =>
        var entries := views(at + 1)[|views(at)|..];
        && views(at + 1) == views(at) + entries && Elapsed(turns[..t + 1]) == Elapsed(turns[..t]) + 1
        && |EventsOf(views, c, turns[..t + 1])| == i + |entries| <= |all|
        && forall j :: 0 <= j < |entries| ==> all[i + j] == Grows(entries[j])
      case Poll(fetch, ws) =>
        && Elapsed(turns[..t + 1]) == Elapsed(turns[..t])
        && |EventsOf(views, c, turns[..t + 1])| == i + 1 <= |all| && all[i] == Polled(fetch, ws)
  {
    hide Growing, Growth;
    var before, at := turns[..t], c + Elapsed(turns[..t]);
    assert turns[..t + 1] == before + [turns[t]] && turns == turns[..t + 1] + turns[t + 1..];
    ElapsedSplit(before, [turns[t]]);
    EventsSplit(views, c, before, [turns[t]]);
    EventsSplit(views, c, turns[..t + 1], turns[t + 1..]);
    assert [turns[t]][1..] == [];
    ViewsGrow(views, at, at + 1);
    GrowthAt(views(at + 1)[|views(at)|..]);
  }

  lemma EventsOfElapse(views: nat -> Chain, c: nat, turns: seq<Turn>, t: nat) returns (entries: Chain)
    requires Growing(views) && t < |turns| && turns[t].Elapse?
    ensures
      var all, i, at := EventsOf(views, c, turns), |EventsOf(views, c, turns[..t])|, c + Elapsed(turns[..t]);
      && views(at + 1) == views(at) + entries && c + Elapsed(turns[..t + 1]) == at + 1
      && |EventsOf(views, c, turns[..t + 1])| == i + |entries| <= |all|
      && forall j :: 0 <= j < |entries| ==> all[i + j] == Grows(entries[j])
  {
    hide Growing, EventsOf, Elapsed;
    EventsOfTurn(views, c, turns, t);
    var at := c + Elapsed(turns[..t]);
    entries := views(at + 1)[|views(at)|..];
  }

  lemma EventsOfPoll(views: nat -> Chain, c: nat, turns: seq<Turn>, t: nat)
    requires Growing(views) && t < |turns| && turns[t].Poll?
    ensures
      var all, i := EventsOf(views, c, turns), |EventsOf(views, c, turns[..t])|;
      && Elapsed(turns[..t + 1]) == Elapsed(turns[..t])
      && |EventsOf(views, c, turns[..t + 1])| == i + 1 <= |all| && all[i] == Polled(turns[t].fetch, turns[t].ws)
  {
    hide Growing, EventsOf, Elapsed;
    EventsOfTurn(views, c, turns, t);
  }

  lemma GrownTook(m: Moment, t: Moment, entries: Chain, view: Chain)
    requires view == m.state.ledger + entries && t.state == GrownSession(m.state, entries)
    ensures Took(m, Elapse, t, view, true) && t.state.ledger == view
  {
    hide Arrived;
  }

  lemma ElapseTook(moments: seq<Moment>, events: seq<Event>, open: bool, i: nat, entries: Chain, view: Chain)
    requires Followed(moments, events, open) && (open ==> |moments| == |events| + 1)
    requires if open then i < |moments| else i < |moments| - 1
    requires i + |entries| <= |events| && forall j :: 0 <= j < |entries| ==> events[i + j] == Grows(entries[j])
    requires view == moments[i].state.ledger + entries
    ensures
      var j := i + |entries|;
      && (if open then j < |moments| else j < |moments| - 1)
      && Took(moments[i], Elapse, moments[j], view, true) && moments[j].state.ledger == view
  {
    hide Followed, Took, GrownSession;
    GrowthIsTaken(moments, events, open, i, entries);
    GrownTook(moments[i], moments[i + |entries|], entries, view);
  }

  lemma PollTook(moments: seq<Moment>, events: seq<Event>, open: bool, i: nat, fetch: FetchAnswer, ws: WsAnswer, view: Chain)
    requires Followed(moments, events, open) && i < |moments| - 1 && i < |events| && events[i] == Polled(fetch, ws)
    ensures Took(moments[i], Poll(fetch, ws), moments[i + 1], view, open || i + 1 < |moments| - 1)
    ensures moments[i + 1].state.ledger == moments[i].state.ledger
  {
    hide Followed;
    MomentDoes(moments, events, open, i);
  }

  /** The moment a turn leads to. */
  lemma TurnIsTaken(moments: seq<Moment>, views: nat -> Chain, c: nat, turns: seq<Turn>, open: bool, t: nat, i: nat)
    returns (j: nat)
    requires Growing(views) && Followed(moments, EventsOf(views, c, turns), open)
    requires open ==> |moments| == |EventsOf(views, c, turns)| + 1
    requires t < |turns| && i == |EventsOf(views, c, turns[..t])| && (if open then i < |moments| else i < |moments| - 1)
    requires moments[i].state.ledger == views(c + Elapsed(turns[..t]))
    ensures j == |EventsOf(views, c, turns[..t + 1])| < |moments|
    ensures moments[i].state.inFlight == multiset(moments[i].running)
    ensures moments[j].state.ledger == views(c + Elapsed(turns[..t + 1]))
    ensures Took(moments[i], turns[t], moments[j], views(c + Elapsed(turns[..t + 1])), open || j < |moments| - 1)
  {
    hide Growing, Followed, EventsOf, Elapsed, Took;
    FollowedLength(moments, EventsOf(views, c, turns), open);
    var at, turn := c + Elapsed(turns[..t]), turns[t];
    if turn.Elapse? {
      var entries := EventsOfElapse(views, c, turns, t);
      ElapseTook(moments, EventsOf(views, c, turns), open, i, entries, views(at + 1));
      j := i + |entries|;
    } else {
      EventsOfPoll(views, c, turns, t);
      PollTook(moments, EventsOf(views, c, turns), open, i, turn.fetch, turn.ws, views(at));
      j := i + 1;
    }
  }

  /** Every glimpse shows the moment after the events of its turns. */
  ghost predicate Sampled(glimpses: seq<Moment>, moments: seq<Moment>, views: nat -> Chain, c: nat, turns: seq<Turn>)
    requires Growing(views)
  {
    |glimpses| <= |turns| + 1 && forall k :: 0 <= k < |glimpses| ==>
      |EventsOf(views, c, turns[..k])| < |moments| && glimpses[k] == moments[|EventsOf(views, c, turns[..k])|]
  }

  lemma SampledOn(glimpses: seq<Moment>, moments: seq<Moment>, views: nat -> Chain, c: nat, turns: seq<Turn>, m: Moment)
    requires Growing(views) && Sampled(glimpses, moments, views, c, turns) && |glimpses| <= |turns|
    requires
      var i := |EventsOf(views, c, turns[..|glimpses|])|;
      i < |moments| && m == moments[i]
    ensures Sampled(glimpses + [m], moments, views, c, turns)
  {
    hide Growing, EventsOf;
  }

  lemma SessionStarts(views: nat -> Chain, c: nat, turns: seq<Turn>)
    requires Growing(views)
    ensures Elapsed(turns[..0]) == 0 && EventsOf(views, c, turns[..0]) == [] && turns[..|turns|] == turns
  {
  }

  lemma SampledStart(moments: seq<Moment>, views: nat -> Chain, c: nat, turns: seq<Turn>)
    requires Growing(views) && moments != []
    ensures Sampled([moments[0]], moments, views, c, turns)
    ensures forall open :: Takes([moments[0]], views, c, turns, open)
  {
  }

  /** What a session's events amount to, seen after each turn. */
  lemma Glimpse(moments: seq<Moment>, views: nat -> Chain, c: nat, turns: seq<Turn>, open: bool) returns (glimpses: seq<Moment>)
    requires Growing(views) && Followed(moments, EventsOf(views, c, turns), open)
    requires if open then |moments| == |EventsOf(views, c, turns)| + 1 else |moments| >= 2
    requires moments[0].state.ledger == views(c)
    ensures FollowsTurns(glimpses, views, c, turns, open)
    ensures glimpses[0] == moments[0] && glimpses[|glimpses| - 1] == moments[|moments| - 1]
    ensures Sampled(glimpses, moments, views, c, turns) && |EventsOf(views, c, turns[..|glimpses| - 1])| == |moments| - 1
  {
    hide Growing, Followed, Took, EventsOf, Elapsed, Sampled, Takes;
    glimpses := [moments[0]];
    var t, i := 0, 0;
    SessionStarts(views, c, turns);
    FollowedLength(moments, EventsOf(views, c, turns), open);
    SampledStart(moments, views, c, turns);
    while if open then t < |turns| else i < |moments| - 1
      invariant t <= |turns| && i == |EventsOf(views, c, turns[..t])| < |moments|
      invariant |glimpses| == t + 1 && glimpses[0] == moments[0] && glimpses[t] == moments[i]
      invariant moments[i].state.ledger == views(c + Elapsed(turns[..t]))
      invariant Takes(glimpses, views, c, turns, open || i < |moments| - 1)
      invariant !open && i == |moments| - 1 ==> t > 0
      invariant Sampled(glimpses, moments, views, c, turns)
      decreases |turns| - t
    {
      i := TurnIsTaken(moments, views, c, turns, open, t, i);
      TakesOn(glimpses, views, c, turns, moments[i], open || i < |moments| - 1);
      SampledOn(glimpses, moments, views, c, turns, moments[i]);
      glimpses := glimpses + [moments[i]];
      t := t + 1;
    }
  }

  lemma GrowthIsNoAct(moments: seq<Moment>, events: seq<Event>, n: nat)
    requires n < |moments| - 1 && n < |events| && events[n].Grows?
    ensures Acts(StepsAlong(moments, events, n + 1)) == Acts(StepsAlong(moments, events, n))
  {
    hide Acts;
    ActsOn(StepsAlong(moments, events, n), Append(events[n].entry));
  }

  lemma {:induction false} GrowthHasNoActs(moments: seq<Moment>, events: seq<Event>, i: nat, n: nat)
    requires i <= n < |moments| && n <= |events| && forall k :: i <= k < n ==> events[k].Grows?
    ensures Acts(StepsAlong(moments, events, n)) == Acts(StepsAlong(moments, events, i))
    decreases n
  {
    hide Acts, StepsAlong;
    if i == n {
    } else {
      GrowthHasNoActs(moments, events, i, n - 1);
      GrowthIsNoAct(moments, events, n - 1);
    }
  }

  /** The abstract step of a turn, if it has one beyond ledger growth. */
  ghost function TurnAct(m: Moment, turn: Turn): seq<Step> {
    match turn
    case Elapse => []
    case Poll(fetch, ws) => StepList(StepOf(m.state, m.running, Polled(fetch, ws)))
  }

  ghost function TurnActs(glimpses: seq<Moment>, turns: seq<Turn>, n: nat): seq<Step>
    requires n < |glimpses| && n <= |turns|
  {
    if n == 0 then [] else TurnActs(glimpses, turns, n - 1) + TurnAct(glimpses[n - 1], turns[n - 1])
  }

  lemma PollIsAct(moments: seq<Moment>, events: seq<Event>, n: nat, turn: Turn)
    requires n < |moments| - 1 && n < |events| && turn.Poll? && events[n] == Polled(turn.fetch, turn.ws)
    ensures Acts(StepsAlong(moments, events, n + 1)) == Acts(StepsAlong(moments, events, n)) + TurnAct(moments[n], turn)
  {
    hide Acts;
    var before, act := StepsAlong(moments, events, n), TurnAct(moments[n], turn);
    if act == [] {
      assert before + act == before;
    } else {
      assert act == [act[0]];
      ActsOn(before, act[0]);
    }
  }

  /** What a session did is what its turns did. */
  lemma {:induction false} ActsOfTurns(glimpses: seq<Moment>, moments: seq<Moment>, views: nat -> Chain, c: nat,
                                       turns: seq<Turn>, n: nat)
    requires Growing(views) && Sampled(glimpses, moments, views, c, turns) && n < |glimpses|
    requires |moments| <= |EventsOf(views, c, turns)| + 1
    ensures
      var i := |EventsOf(views, c, turns[..n])|;
      i < |moments| && Acts(StepsAlong(moments, EventsOf(views, c, turns), i)) == TurnActs(glimpses, turns, n)
  {
    hide Growing, EventsOf, Elapsed, Acts, StepsAlong, StepOf, TurnAct;
    if n == 0 {
      SessionStarts(views, c, turns);
      NoActs(moments, EventsOf(views, c, turns));
    } else {
      var t := n - 1;
      ActsOfTurns(glimpses, moments, views, c, turns, t);
      var i, j := |EventsOf(views, c, turns[..t])|, |EventsOf(views, c, turns[..n])|;
      if turns[t].Elapse? {
        var entries := EventsOfElapse(views, c, turns, t);
        IdleTurn(glimpses[t]);
        forall k | i <= k < j
          ensures EventsOf(views, c, turns)[k].Grows?
        {
          assert EventsOf(views, c, turns)[i + (k - i)] == Grows(entries[k - i]);
        }
        GrowthHasNoActs(moments, EventsOf(views, c, turns), i, j);
      } else {
        EventsOfPoll(views, c, turns, t);
        PollIsAct(moments, EventsOf(views, c, turns), i, turns[t]);
      }
    }
  }

  lemma IdleTurn(m: Moment)
    ensures TurnAct(m, Elapse) == []
  {
  }

  lemma NoActs(moments: seq<Moment>, events: seq<Event>)
    requires moments != []
    ensures Acts(StepsAlong(moments, events, 0)) == []
  {
  }

  /** No fetch is ready and the stream hands out the delivered item `p`. */
  predicate Pulls(m: Moment, turn: Turn, p: nat) {
    && turn.Poll? && (turn.fetch.FetchReady? ==> turn.fetch.index >= |m.running|)
    && turn.ws.WsItem? && turn.ws.index < |m.state.queue| && m.state.queue[turn.ws.index] == p
  }

  /** The fetch of `p` is ready, with an answer. */
  predicate Fetches(m: Moment, turn: Turn, p: nat) {
    && turn.Poll? && turn.fetch.FetchReady? && turn.fetch.reachable
    && turn.fetch.index < |m.running| && m.running[turn.fetch.index] == p
  }

  lemma FollowsLength(glimpses: seq<Moment>, views: nat -> Chain, c: nat, turns: seq<Turn>, open: bool)
    requires FollowsTurns(glimpses, views, c, turns, open)
    ensures if open then |glimpses| == |turns| + 1 else 2 <= |glimpses| <= |turns| + 1
  {
  }

  lemma TurnAt(glimpses: seq<Moment>, views: nat -> Chain, c: nat, turns: seq<Turn>, open: bool, k: nat)
    requires FollowsTurns(glimpses, views, c, turns, open) && k < |glimpses| - 1
    ensures |glimpses| <= |turns| + 1 && glimpses[k].state.inFlight == multiset(glimpses[k].running)
    ensures Took(glimpses[k], turns[k], glimpses[k + 1], views(c + Elapsed(turns[..k + 1])), open || k < |glimpses| - 2)
  {
    hide Took, Elapsed;
  }

  /** What one turn does to the transactions sent and in flight. */
  lemma TurnKeeps(m: Moment, turn: Turn, t: Moment, view: Chain, open: bool, p: nat)
    requires Took(m, turn, t, view, open) && m.state.inFlight == multiset(m.running)
    ensures p in m.state.sent ==> p in t.state.sent
    ensures Fetches(m, turn, p) ==> open && p in t.state.sent && t.state.cursor == p
    ensures open && Pulls(m, turn, p) ==> p in t.state.inFlight
    ensures open && p in m.state.inFlight && !Fetches(m, turn, p) ==> p in t.state.inFlight
  {
    hide Arrived, Deliveries;
  }

  lemma {:induction false} SentStays(glimpses: seq<Moment>, views: nat -> Chain, c: nat, turns: seq<Turn>, open: bool,
                                     t: nat, u: nat, p: nat)
    requires FollowsTurns(glimpses, views, c, turns, open) && t <= u < |glimpses| && p in glimpses[t].state.sent
    ensures p in glimpses[u].state.sent
    decreases u
  {
    hide FollowsTurns, Took, Elapsed;
    if t == u {
    } else {
      var k := u - 1;
      SentStays(glimpses, views, c, turns, open, t, k, p);
      TurnAt(glimpses, views, c, turns, open, k);
      TurnKeeps(glimpses[k], turns[k], glimpses[u], views(c + Elapsed(turns[..k + 1])), open || k < |glimpses| - 2, p);
    }
  }

  /** What is fetched is sent at once, its signature is the stored one then, and it stays sent. */
  lemma FetchedIsSent(glimpses: seq<Moment>, views: nat -> Chain, c: nat, turns: seq<Turn>, open: bool, t: nat, p: nat)
    requires FollowsTurns(glimpses, views, c, turns, open) && t < |glimpses| - 1 && Fetches(glimpses[t], turns[t], p)
    ensures glimpses[t + 1].state.cursor == p && p in glimpses[|glimpses| - 1].state.sent
  {
    hide FollowsTurns, Took, Elapsed, Fetches;
    TurnAt(glimpses, views, c, turns, open, t);
    TurnKeeps(glimpses[t], turns[t], glimpses[t + 1], views(c + Elapsed(turns[..t + 1])), open || t < |glimpses| - 2, p);
    SentStays(glimpses, views, c, turns, open, t + 1, |glimpses| - 1, p);
  }

  /** What is pulled is in flight until it is fetched, and by then sent. */
  lemma {:induction false} PulledIsKept(glimpses: seq<Moment>, views: nat -> Chain, c: nat, turns: seq<Turn>, t: nat, u: nat,
                                        p: nat)
    requires FollowsTurns(glimpses, views, c, turns, true) && t < u < |glimpses| && Pulls(glimpses[t], turns[t], p)
    ensures if exists k :: t < k < u && Fetches(glimpses[k], turns[k], p) then p in glimpses[u].state.sent
            else p in glimpses[u].state.inFlight
    decreases u
  {
    hide FollowsTurns, Took, Elapsed, Fetches, Pulls;
    FollowsLength(glimpses, views, c, turns, true);
    var k := u - 1;
    if k > t {
      PulledIsKept(glimpses, views, c, turns, t, k, p);
    }
    TurnAt(glimpses, views, c, turns, true, k);
    TurnKeeps(glimpses[k], turns[k], glimpses[u], views(c + Elapsed(turns[..k + 1])), true, p);
  }

  lemma {:induction false} ArrivedInParts(l: Chain, l': Chain, l'': Chain)
    requires l <= l' <= l''
    ensures Arrived(l'', |l|) == Arrived(l', |l|) + Arrived(l'', |l'|)
    decreases |l''|
  {
    hide Deliveries;
    if |l''| == |l'| {
      assert l'' == l';
    } else {
      var n := |l''| - 1;
      ArrivedInParts(l, l', l''[..n]);
      Associate(Arrived(l', |l|), Arrived(l''[..n], |l'|), Deliveries(l''[n], n));
    }
  }

  function Held(s: State): multiset<nat> {
    multiset(s.queue) + s.inFlight + multiset(s.sent)
  }

  lemma HeldAfterPull(s: State, i: nat, t: State)
    requires i < |s.queue|
    requires t == s.(queue := s.queue[..i] + s.queue[i + 1..], inFlight := s.inFlight + multiset{s.queue[i]})
    ensures Held(t) == Held(s)
  {
    RemoveAtMultiset(s.queue, i);
  }

  lemma HeldAfterFetch(s: State, p: nat, t: State)
    requires p in s.inFlight && t == s.(inFlight := s.inFlight - multiset{p}, sent := s.sent + [p], cursor := p)
    ensures Held(t) == Held(s)
  {
    assert s.inFlight == (s.inFlight - multiset{p}) + multiset{p};
  }

  lemma TurnConserves(m: Moment, turn: Turn, t: Moment, view: Chain)
    requires Took(m, turn, t, view, true) && m.state.inFlight == multiset(m.running)
    ensures m.state.ledger <= t.state.ledger
    ensures Held(t.state) == Held(m.state) + multiset(Arrived(t.state.ledger, |m.state.ledger|))
  {
    match turn {
      case Elapse =>
        hide Arrived;
        assert m.state.inFlight == t.state.inFlight;
      case Poll(fetch, ws) =>
        NothingArrived(m.state.ledger);
        hide Held, Arrived;
        if fetch.FetchReady? && fetch.index < |m.running| {
          HeldAfterFetch(m.state, m.running[fetch.index], t.state);
        } else if ws.WsItem? && ws.index < |m.state.queue| {
          HeldAfterPull(m.state, ws.index, t.state);
        }
    }
  }

  lemma NothingArrived(l: Chain)
    ensures Arrived(l, |l|) == [] && multiset(Arrived(l, |l|)) == multiset{}
  {
  }

  /** An open session loses and repeats nothing: what was delivered before and arrived
      since is still queued, in flight, or was sent. */
  lemma {:induction false} SessionConserves(glimpses: seq<Moment>, views: nat -> Chain, c: nat, turns: seq<Turn>, t: nat)
    requires FollowsTurns(glimpses, views, c, turns, true) && t < |glimpses|
    ensures
      var s, s' := glimpses[0].state, glimpses[t].state;
      s.ledger <= s'.ledger && Held(s') == Held(s) + multiset(Arrived(s'.ledger, |s.ledger|))
    decreases t
  {
    hide FollowsTurns, Held, Took, Elapsed, Arrived;
    var l := glimpses[0].state.ledger;
    if t == 0 {
      NothingArrived(l);
    } else {
      SessionConserves(glimpses, views, c, turns, t - 1);
      TurnAt(glimpses, views, c, turns, true, t - 1);
      var l', l'' := glimpses[t - 1].state.ledger, glimpses[t].state.ledger;
      TurnConserves(glimpses[t - 1], turns[t - 1], glimpses[t], views(c + Elapsed(turns[..t - 1 + 1])));
      ArrivedInParts(l, l', l'');
    }
  }

  /** Polls that pull the first delivered item and then find its fetch done, `n` times over. */
  function Attend(n: nat): seq<Turn> {
    if n == 0 then [] else Attend(n - 1) + [Poll(FetchPending, WsItem(0)), Poll(FetchReady(0, true), WsPending)]
  }

  lemma {:induction false} AttendScript(n: nat)
    ensures |Attend(n)| == 2 * n
    ensures forall k :: 0 <= k < n ==>
      Attend(n)[2 * k] == Poll(FetchPending, WsItem(0)) && Attend(n)[2 * k + 1] == Poll(FetchReady(0, true), WsPending)
  {
    if n == 0 {
    } else {
      AttendScript(n - 1);
    }
  }

  lemma AttendPull(m: Moment, t: Moment, view: Chain, open: bool)
    requires Took(m, Poll(FetchPending, WsItem(0)), t, view, open) && m.state.inFlight == multiset{} && m.state.queue != []
    ensures open && t.state == m.state.(queue := m.state.queue[1..], inFlight := multiset{m.state.queue[0]})
  {
    assert m.state.queue[..0] + m.state.queue[1..] == m.state.queue[1..];
  }

  lemma AttendFetch(m: Moment, t: Moment, view: Chain, open: bool, p: nat)
    requires Took(m, Poll(FetchReady(0, true), WsPending), t, view, open)
    requires m.state.inFlight == multiset(m.running) == multiset{p}
    ensures open && t.state == m.state.(inFlight := multiset{}, sent := m.state.sent + [p], cursor := p)
  {
    assert |multiset(m.running)| == |m.running| == 1;
    assert m.running[0] in multiset(m.running);
  }

  /** After pulling and fetching the first `k` items. */
  function Attended(s: State, k: nat): State
    requires k <= |s.queue|
  {
    s.(queue := s.queue[k..], sent := s.sent + s.queue[..k], cursor := if k == 0 then s.cursor else s.queue[k - 1])
  }

  lemma AttendStart(s: State)
    ensures Attended(s, 0) == s
  {
    assert s.queue[0..] == s.queue && s.sent + s.queue[..0] == s.sent;
  }

  lemma AttendOn(s: State, k: nat)
    requires k < |s.queue|
    ensures
      var before, p := Attended(s, k), s.queue[k];
      && before.queue != [] && before.queue[0] == p && before.inFlight == s.inFlight
      && before.(queue := before.queue[1..], sent := before.sent + [p], cursor := p) == Attended(s, k + 1)
  {
    assert s.sent + s.queue[..k] + [s.queue[k]] == s.sent + s.queue[..k + 1];
  }

  /** A session whose polls attend to the items one by one sends all of them in order, and
      stays open. */
  lemma {:induction false} AttendedAreSent(glimpses: seq<Moment>, views: nat -> Chain, c: nat, n: nat, k: nat, open: bool)
    requires FollowsTurns(glimpses, views, c, Attend(n), open) && glimpses[0].state.inFlight == multiset{}
    requires k <= n <= |glimpses[0].state.queue|
    ensures 2 * k < |glimpses| && (2 * k == |glimpses| - 1 ==> open)
    ensures glimpses[2 * k].state == Attended(glimpses[0].state, k)
  {
    hide FollowsTurns, Took, Elapsed, Attended, Attend;
    AttendScript(n);
    FollowsLength(glimpses, views, c, Attend(n), open);
    var s, turns := glimpses[0].state, Attend(n);
    if k == 0 {
      AttendStart(s);
    } else {
      var j := k - 1;
      AttendedAreSent(glimpses, views, c, n, j, open);
      AttendOn(s, j);
      var a, b := 2 * j, 2 * j + 1;
      assert turns[a] == Poll(FetchPending, WsItem(0)) && turns[b] == Poll(FetchReady(0, true), WsPending);
      TurnAt(glimpses, views, c, turns, open, a);
      AttendPull(glimpses[a], glimpses[a + 1], views(c + Elapsed(turns[..a + 1])), open || a < |glimpses| - 2);
      TurnAt(glimpses, views, c, turns, open, b);
      AttendFetch(glimpses[b], glimpses[b + 1], views(c + Elapsed(turns[..b + 1])), open || b < |glimpses| - 2, s.queue[j]);
    }
  }

  /** What comes of a session that began with the items `delivered` and ended in `s`. A
      fetched transaction is sent and its signature stored; one that was pulled is sent or
      still in flight; nothing is lost or repeated; and polls that attend to every item in
      turn send all of them. */
  ghost predicate Heard(glimpses: seq<Moment>, turns: seq<Turn>, delivered: seq<nat>, s: State, open: bool)
    requires 1 <= |glimpses| <= |turns| + 1
  {
    var s0 := glimpses[0].state;
    && (forall t: nat, p: nat :: t < |glimpses| - 1 && Fetches(glimpses[t], turns[t], p) ==>
          p in s.sent && glimpses[t + 1].state.cursor == p)
    && (open ==> forall t: nat, p: nat :: t < |glimpses| - 1 && Pulls(glimpses[t], turns[t], p) ==>
          p in s.sent || p in s.inFlight)
    && (open ==> s0.ledger <= s.ledger && Held(s) == Held(s0) + multiset(Arrived(s.ledger, |s0.ledger|)))
    && (turns == Attend(|delivered|) ==>
          open && s.sent == s0.sent + delivered && s.cursor == if delivered == [] then s0.cursor else delivered[|delivered| - 1])
  }

  lemma WhatIsHeard(glimpses: seq<Moment>, views: nat -> Chain, c: nat, turns: seq<Turn>, delivered: seq<nat>, open: bool)
    requires FollowsTurns(glimpses, views, c, turns, open)
    requires glimpses[0].state.queue == delivered && glimpses[0].state.inFlight == multiset{}
    ensures 1 <= |glimpses| <= |turns| + 1 && Heard(glimpses, turns, delivered, glimpses[|glimpses| - 1].state, open)
  {
    hide FollowsTurns, Held, Fetches, Pulls, Attend, Arrived;
    FollowsLength(glimpses, views, c, turns, open);
    var n := |glimpses| - 1;
    forall t: nat, p: nat | t < n && Fetches(glimpses[t], turns[t], p)
      ensures p in glimpses[n].state.sent && glimpses[t + 1].state.cursor == p
    {
      FetchedIsSent(glimpses, views, c, turns, open, t, p);
    }
    if open {
      forall t: nat, p: nat | t < n && Pulls(glimpses[t], turns[t], p)
        ensures p in glimpses[n].state.sent || p in glimpses[n].state.inFlight
      {
        PulledIsKept(glimpses, views, c, turns, t, n, p);
      }
      SessionConserves(glimpses, views, c, turns, n);
    }
    if turns == Attend(|delivered|) {
      AttendScript(|delivered|);
      AttendedAreSent(glimpses, views, c, |delivered|, |delivered|, open);
      assert delivered[..|delivered|] == delivered;
    }
  }

  /** All that can be said of a session from its moments. */
  lemma Overheard(moments: seq<Moment>, steps: seq<Step>, views: nat -> Chain, c: nat, turns: seq<Turn>,
                  delivered: seq<nat>, open: bool)
    returns (glimpses: seq<Moment>)
    requires Growing(views) && Followed(moments, EventsOf(views, c, turns), open)
    requires steps == StepsAlong(moments, EventsOf(views, c, turns), |moments| - 1)
    requires if open then |moments| == |EventsOf(views, c, turns)| + 1 else |moments| >= 2
    requires moments[0].state.ledger == views(c)
    requires moments[0].state.queue == delivered && moments[0].state.inFlight == multiset{}
    ensures FollowsTurns(glimpses, views, c, turns, open) && 1 <= |glimpses| <= |turns| + 1
    ensures glimpses[0] == moments[0] && glimpses[|glimpses| - 1] == moments[|moments| - 1]
    ensures Heard(glimpses, turns, delivered, moments[|moments| - 1].state, open)
    ensures Acts(steps) == TurnActs(glimpses, turns, |glimpses| - 1)
  {
    hide Growing, Followed, EventsOf, FollowsTurns, Sampled, Heard, Acts, TurnActs, StepsAlong;
    FollowedLength(moments, EventsOf(views, c, turns), open);
    glimpses := Glimpse(moments, views, c, turns, open);
    FollowsLength(glimpses, views, c, turns, open);
    ActsOfTurns(glimpses, moments, views, c, turns, |glimpses| - 1);
    WhatIsHeard(glimpses, views, c, turns, delivered, open);
  }
}
