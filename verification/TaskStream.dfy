/** The task pusher's loop: tasks run concurrently in a queue that yields results
    in the order the tasks were received, and every yielded id is stored. */
module TaskStream {
  import opened Basics

  type TaskId = nat

  /** A running task; `done` tells whether its future has completed. */
  datatype Running = Running(id: TaskId, done: bool)

  /** What the task channel answers to a poll. */
  datatype Receive = Task(id: TaskId) | NoTask | Closed

  datatype PollResult = Yields(id: TaskId) | Waits | Ends

  /** One turn of the environment: the channel's answer, and the tasks, numbered in the
      order they were received, whose futures are found completed in this turn. */
  datatype Turn = Turn(receive: Receive, completed: set<nat>)

  function Ids(rs: seq<Running>): (ids: seq<TaskId>)
    ensures |ids| == |rs| && forall i :: 0 <= i < |ids| ==> ids[i] == rs[i].id
  {
    seq(|rs|, i requires 0 <= i < |rs| => rs[i].id)
  }

  /** Running tasks, the first of which has number `first`, after some futures completed. */
  function Mark(rs: seq<Running>, first: nat, completed: set<nat>): (r: seq<Running>)
    ensures |r| == |rs| && Ids(r) == Ids(rs)
    ensures forall i :: 0 <= i < |r| ==> (r[i].done <==> rs[i].done || first + i in completed)
  {
    seq(|rs|, i requires 0 <= i < |rs| => rs[i].(done := rs[i].done || first + i in completed))
  }

  ghost predicate AllDone(rs: seq<Running>) {
    forall i :: 0 <= i < |rs| ==> rs[i].done
  }

  lemma IdsAppend(rs: seq<Running>, r: Running)
    ensures Ids(rs + [r]) == Ids(rs) + [r.id]
  {
  }

  lemma IdsMove(done: seq<Running>, rs: seq<Running>)
    requires rs != []
    ensures Ids(done + [rs[0]]) + Ids(rs[1..]) == Ids(done) + Ids(rs)
  {
  }

  /** A list of ids that starts with the ids of `rs`. */
  lemma IdsPrefix(rs: seq<Running>, more: seq<Running>)
    ensures Ids(rs) <= Ids(rs) + Ids(more) && (more == [] ==> Ids(rs) + Ids(more) == Ids(rs))
  {
  }

  function Last(rs: seq<Running>): Option<TaskId> {
    if rs == [] then None else Some(rs[|rs| - 1].id)
  }

  // ---------------------------------------------------------------- what a script of turns amounts to

  ghost predicate ClosedBy(turns: seq<Turn>) {
    exists i :: 0 <= i < |turns| && turns[i].receive.Closed?
  }

  /** The ids a channel delivers before it closes. */
  ghost function Accepted(turns: seq<Turn>): seq<TaskId> {
    if turns == [] then []
    else
      var n := |turns| - 1;
      Accepted(turns[..n]) + if turns[n].receive.Task? && !ClosedBy(turns[..n]) then [turns[n].receive.id] else []
  }

  /** Within the first `t` turns task `n` was received and its future completed. */
  ghost predicate FinishedBy(turns: seq<Turn>, n: nat, t: int) {
    exists i :: 0 <= i < t && i < |turns| && n in turns[i].completed && n < |Accepted(turns[..i + 1])|
  }

  /** Enough for task `n` to be out of the queue after `t` turns: it has finished, and the
      task before it was out a turn earlier. */
  ghost predicate OutBy(turns: seq<Turn>, n: nat, t: int) {
    FinishedBy(turns, n, t) && (n > 0 ==> OutBy(turns, n - 1, t - 1))
  }

  /** Exactly the first `m` tasks are out after `t` turns. */
  ghost predicate ExactlyOut(turns: seq<Turn>, m: nat, t: int) {
    forall n: nat :: OutBy(turns, n, t) <==> n < m
  }

  lemma NothingYet(turns: seq<Turn>)
    ensures !ClosedBy(turns[..0]) && Accepted(turns[..0]) == [] && ExactlyOut(turns, 0, 0)
  {
  }

  lemma OneMoreTurn(turns: seq<Turn>, i: nat)
    requires i < |turns|
    ensures ClosedBy(turns[..i + 1]) <==> ClosedBy(turns[..i]) || turns[i].receive.Closed?
    ensures Accepted(turns[..i + 1])
         == Accepted(turns[..i]) + if turns[i].receive.Task? && !ClosedBy(turns[..i]) then [turns[i].receive.id] else []
  {
    assert turns[..i + 1][..i] == turns[..i];
    if turns[i].receive.Closed? {
      assert turns[..i + 1][i].receive.Closed?;
    }
    if k :| 0 <= k < i && turns[..i][k].receive.Closed? {
      assert turns[..i + 1][k].receive.Closed?;
    }
  }

  lemma {:induction false} AcceptedGrows(turns: seq<Turn>, i: nat, k: nat)
    requires i <= k <= |turns|
    ensures Accepted(turns[..i]) <= Accepted(turns[..k]) && (ClosedBy(turns[..i]) ==> ClosedBy(turns[..k]))
    ensures ClosedBy(turns[..i]) ==> Accepted(turns[..k]) == Accepted(turns[..i])
    decreases k
  {
    if i == k {
    } else {
      AcceptedGrows(turns, i, k - 1);
      OneMoreTurn(turns, k - 1);
    }
  }

  lemma FinishedMonotone(turns: seq<Turn>, n: nat, t: int, t': int)
    requires FinishedBy(turns, n, t) && t <= t'
    ensures FinishedBy(turns, n, t')
  {
  }

  /** A task that was not received yet has not finished. */
  lemma FinishedIsAccepted(turns: seq<Turn>, n: nat, t: nat)
    requires FinishedBy(turns, n, t) && t <= |turns|
    ensures n < |Accepted(turns[..t])|
  {
    var i :| 0 <= i < t && n in turns[i].completed && n < |Accepted(turns[..i + 1])|;
    AcceptedGrows(turns, i + 1, t);
  }

  /** How `FinishedBy` advances in one turn. */
  lemma FinishedNext(turns: seq<Turn>, n: nat, t: nat)
    requires t < |turns|
    ensures FinishedBy(turns, n, t + 1)
       <==> FinishedBy(turns, n, t) || (n in turns[t].completed && n < |Accepted(turns[..t + 1])|)
  {
  }

  lemma {:induction false} OutMonotone(turns: seq<Turn>, n: nat, t: int, t': int)
    requires OutBy(turns, n, t) && t <= t'
    ensures OutBy(turns, n, t')
  {
    FinishedMonotone(turns, n, t, t');
    if n == 0 {
    } else {
      OutMonotone(turns, n - 1, t - 1, t' - 1);
    }
  }

  lemma {:induction false} OutBefore(turns: seq<Turn>, n: nat, m: nat, t: int)
    requires n <= m && OutBy(turns, m, t)
    ensures OutBy(turns, n, t)
  {
    if n == m {
    } else {
      OutBefore(turns, n, m - 1, t - 1);
      OutMonotone(turns, n, t - 1, t);
    }
  }

  /** Tasks come out one a turn: the next one when it has finished, and none behind it. */
  lemma OutNext(turns: seq<Turn>, out: nat, t: nat)
    requires t < |turns| && ExactlyOut(turns, out, t)
    ensures ExactlyOut(turns, if FinishedBy(turns, out, t + 1) then out + 1 else out, t + 1)
  {
    hide FinishedBy;
    var next := t + 1;
    forall n: nat
      ensures OutBy(turns, n, next) <==> n < out || (n == out && FinishedBy(turns, out, next))
    {
      if n < out {
        OutMonotone(turns, n, t, next);
      } else {
        assert n > 0 ==> (OutBy(turns, n - 1, t) <==> n - 1 < out);
      }
    }
  }

  lemma OutIsAccepted(turns: seq<Turn>, n: nat, t: nat)
    requires OutBy(turns, n, t) && t <= |turns|
    ensures n < |Accepted(turns[..t])|
  {
    FinishedIsAccepted(turns, n, t);
  }

  ghost predicate AllFinishedBy(turns: seq<Turn>, t: nat) {
    forall n: nat :: n < |Accepted(turns)| ==> FinishedBy(turns, n, t)
  }

  /** All tasks the channel delivers are out after `t` turns. */
  ghost predicate AllOutBy(turns: seq<Turn>, t: int) {
    forall n: nat :: n < |Accepted(turns)| ==> OutBy(turns, n, t)
  }

  /** Once every task has finished the queue drains by one task a turn: `out` of them were
      out by turn `k`, and the rest need as many turns as they are. */
  lemma {:induction false} Drains(turns: seq<Turn>, k: nat, out: nat, n: nat)
    requires AllFinishedBy(turns, k) && (out > 0 ==> OutBy(turns, out - 1, k))
    requires n < |Accepted(turns)|
    ensures OutBy(turns, n, k + if n < out then 0 else n + 1 - out)
  {
    if n + 1 < out {
      OutBefore(turns, n, out - 1, k);
    } else if n + 1 > out {
      if n > 0 {
        Drains(turns, k, out, n - 1);
      }
      FinishedMonotone(turns, n, k, k + n + 1 - out);
    }
  }

  lemma AllOutIff(turns: seq<Turn>, out: nat, t: int)
    requires ExactlyOut(turns, out, t) && out <= |Accepted(turns)|
    ensures AllOutBy(turns, t) <==> out == |Accepted(turns)|
  {
    hide OutBy, Accepted;
    assert OutBy(turns, out, t) <==> out < out;
  }

  /** Turns after the end of the stream change nothing. */
  lemma AfterTheEnd(turns: seq<Turn>, t: nat)
    requires 0 < t < |turns| && ClosedBy(turns[..t]) && ExactlyOut(turns, |Accepted(turns[..t])|, t - 1)
    ensures Accepted(turns) == Accepted(turns[..t]) && ClosedBy(turns) && AllOutBy(turns, |turns| - 1)
    ensures ExactlyOut(turns, |Accepted(turns)|, |turns|)
  {
    hide OutBy, Accepted, ClosedBy;
    assert turns[..|turns|] == turns;
    AcceptedGrows(turns, t, |turns|);
    var all, last := |Accepted(turns)|, |turns| - 1;
    forall n: nat
      ensures OutBy(turns, n, |turns|) ==> n < all
      ensures n < all ==> OutBy(turns, n, last) && OutBy(turns, n, |turns|)
    {
      if OutBy(turns, n, |turns|) {
        OutIsAccepted(turns, n, |turns|);
      }
      if n < all {
        assert OutBy(turns, n, t - 1);
        OutMonotone(turns, n, t - 1, last);
        OutMonotone(turns, n, t - 1, |turns|);
      }
    }
  }

  class TaskPusher {
    var futuresOrdered: seq<Running>
    /** The number of the task at the head of the queue. */
    var nextOutgoing: nat
    var terminated: bool
    var stored: Option<TaskId>
    ghost var received: seq<TaskId>
    ghost var yielded: seq<Running>

    /** Received ids are the yielded ones followed by the queued ones, and nothing was
        yielded before its task finished. */
    ghost predicate Valid()
      reads this
    {
      && received == Ids(yielded) + Ids(futuresOrdered) && nextOutgoing == |yielded|
      && AllDone(yielded)
    }

    /** The stored id is the last one yielded. */
    ghost predicate Recorded(initial: Option<TaskId>)
      reads this
    {
      stored == if yielded == [] then initial else Last(yielded)
    }

    constructor (stored: Option<TaskId>)
      ensures Valid() && Recorded(stored) && received == [] && yielded == [] && futuresOrdered == [] && !terminated
    {
      futuresOrdered, nextOutgoing, terminated, this.stored := [], 0, false, stored;
      received, yielded := [], [];
    }

    /** The queue with what a turn brings: at most one more task, and none once the channel
        was closed, and the futures that completed. */
    ghost function Polled(turn: Turn): seq<Running>
      reads this
    {
      Mark(futuresOrdered + if !terminated && turn.receive.Task? then [Running(turn.receive.id, false)] else [],
           nextOutgoing, turn.completed)
    }

    /** Takes at most one task from the channel, and none once it was closed. */
    method Accept(receive: Receive)
      requires Valid()
      modifies `futuresOrdered, `terminated, `received
      ensures Valid() && (terminated <==> old(terminated) || receive.Closed?)
      ensures
        if !old(terminated) && receive.Task? then
          && futuresOrdered == old(futuresOrdered) + [Running(receive.id, false)]
          && received == old(received) + [receive.id]
        else futuresOrdered == old(futuresOrdered) && received == old(received)
    {
      if !terminated {
        match receive {
          case Task(id) =>
            IdsAppend(futuresOrdered, Running(id, false));
            futuresOrdered := futuresOrdered + [Running(id, false)];
            received := received + [id];
          case NoTask =>
          case Closed => terminated := true;
        }
      }
    }

    /** The poll function. The head of the queue comes out if and only if it has finished,
        whatever the tasks behind it have done; the stream ends if and only if the channel
        is closed and nothing is queued. */
    method PollTasks(turn: Turn) returns (r: PollResult)
      requires Valid()
      modifies `futuresOrdered, `nextOutgoing, `terminated, `received, `yielded
      ensures Valid() && (terminated <==> old(terminated) || turn.receive.Closed?)
      ensures received == if !old(terminated) && turn.receive.Task? then old(received) + [turn.receive.id] else old(received)
      ensures
        var queue := old(Polled(turn));
        if queue != [] && queue[0].done then
          && r == Yields(queue[0].id) && yielded == old(yielded) + [queue[0]] && futuresOrdered == queue[1..]
        else
          && r == (if queue == [] && terminated then Ends else Waits)
          && yielded == old(yielded) && futuresOrdered == queue
    {
      Accept(turn.receive);
      assert futuresOrdered + [] == futuresOrdered;
      futuresOrdered := Mark(futuresOrdered, nextOutgoing, turn.completed);
      if |futuresOrdered| == 0 {
        return if terminated then Ends else Waits;
      }
      if !futuresOrdered[0].done {
        return Waits;
      }
      r := Yields(futuresOrdered[0].id);
      IdsMove(yielded, futuresOrdered);
      yielded := yielded + [futuresOrdered[0]];
      futuresOrdered := futuresOrdered[1..];
      nextOutgoing := nextOutgoing + 1;
    }

    /** What the pusher holds is what the first `t` turns brought: exactly the queued tasks
        that have finished are done, and exactly those that could come out did. */
    ghost predicate UpToDate(turns: seq<Turn>, t: nat)
      requires t <= |turns|
      reads this
    {
      && received == Accepted(turns[..t]) && (terminated <==> ClosedBy(turns[..t]))
      && ExactlyOut(turns, nextOutgoing, t)
      && forall i :: 0 <= i < |futuresOrdered| ==> (futuresOrdered[i].done <==> FinishedBy(turns, nextOutgoing + i, t))
    }

    /** Exactly the tasks that have finished by now are done when the poll looks at the queue. */
    lemma PolledIsFinished(turns: seq<Turn>, t: nat)
      requires Valid() && t < |turns| && UpToDate(turns, t)
      ensures
        var queue := Polled(turns[t]);
        && |Accepted(turns[..t + 1])| == nextOutgoing + |queue|
        && forall i :: 0 <= i < |queue| ==> (queue[i].done <==> FinishedBy(turns, nextOutgoing + i, t + 1))
    {
      hide FinishedBy, Accepted, ClosedBy, ExactlyOut;
      OneMoreTurn(turns, t);
      var queue := Polled(turns[t]);
      forall i | 0 <= i < |queue|
        ensures queue[i].done <==> FinishedBy(turns, nextOutgoing + i, t + 1)
      {
        FinishedNext(turns, nextOutgoing + i, t);
        if FinishedBy(turns, nextOutgoing + i, t) {
          FinishedIsAccepted(turns, nextOutgoing + i, t);
        }
      }
    }

    lemma NotReceivedYet(turns: seq<Turn>, t: nat)
      requires t <= |turns|
      ensures !FinishedBy(turns, |Accepted(turns[..t])|, t)
    {
      if FinishedBy(turns, |Accepted(turns[..t])|, t) {
        FinishedIsAccepted(turns, |Accepted(turns[..t])|, t);
      }
    }

    /** One turn of the loop. */
    method TakeTurn(turns: seq<Turn>, t: nat) returns (r: PollResult)
      requires Valid() && t < |turns| && UpToDate(turns, t)
      modifies `futuresOrdered, `nextOutgoing, `terminated, `received, `yielded
      ensures Valid() && UpToDate(turns, t + 1)
      ensures if r.Yields? then |yielded| == |old(yielded)| + 1 && old(yielded) <= yielded && Last(yielded) == Some(r.id)
              else yielded == old(yielded)
      ensures r.Ends? <==> terminated && |received| == old(nextOutgoing)
    {
      hide FinishedBy, Accepted, ClosedBy, ExactlyOut, Mark, AllDone;
      OneMoreTurn(turns, t);
      PolledIsFinished(turns, t);
      NotReceivedYet(turns, t + 1);
      OutNext(turns, nextOutgoing, t);
      r := PollTasks(turns[t]);
    }

    /** The consuming loop over any script of turns. A task's id is stored by the end of the
        script if and only if it and all tasks before it finished early enough; `ended`
        tells whether the stream finished, which the component treats as fatal. */
    method ProcessInternal(turns: seq<Turn>) returns (ended: bool, ghost stores: seq<TaskId>)
      requires Valid() && yielded == [] && futuresOrdered == [] && received == [] && !terminated
      modifies this
      ensures Valid() && Recorded(old(stored))
      ensures received == Accepted(turns) && stores == Ids(yielded) && stores <= received
      ensures forall n: nat :: OutBy(turns, n, |turns|) <==> n < |stores|
      ensures ended <==> ClosedBy(turns) && AllOutBy(turns, |turns| - 1)
      ensures ended ==> terminated && stores == received
      ensures forall k: nat :: AllFinishedBy(turns, k) && k + |received| <= |turns| ==> stores == received
    {
      hide Mark, AllDone, Accepted, ClosedBy, FinishedBy, OutBy, AllFinishedBy, AllOutBy;
      NothingYet(turns);
      stores := [];
      ended := false;
      var i := 0;
      ghost var out: nat := 0;
      while i < |turns| && !ended
        invariant i <= |turns| && Valid() && Recorded(old(stored)) && stores == Ids(yielded)
        invariant UpToDate(turns, i)
        invariant 0 < i ==> ExactlyOut(turns, out, i - 1) && (ended <==> terminated && |received| == out)
        invariant out <= |received| && (ended ==> 0 < i && nextOutgoing == |received|)
      {
        out := nextOutgoing;
        var r := TakeTurn(turns, i);
        match r {
          case Yields(id) =>
            stored := Some(id);
            stores := stores + [id];
          case Waits =>
          case Ends => ended := true;
        }
        i := i + 1;
      }
      assert turns[..|turns|] == turns;
      if i < |turns| {
        AfterTheEnd(turns, i);
      } else if 0 < i {
        AllOutIff(turns, out, i - 1);
      }
      forall k: nat | AllFinishedBy(turns, k) && k + |received| <= |turns|
        ensures stores == received
      {
        if |received| > 0 {
          Drains(turns, k, 0, |received| - 1);
          OutMonotone(turns, |received| - 1, k + |received|, |turns|);
        }
      }
    }
  }
}
