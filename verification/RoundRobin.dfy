/** The combinator that merges the two log subscriptions: it alternates which
    stream it polls first and ends as soon as either stream ends. */
module RoundRobin {
  datatype Answer<+T> = Item(value: T) | Pending | End

  /** A stream is the script of answers it still has to give. Both inputs are fused,
      so a stream that ended keeps answering `End`. */
  type Script<T> = seq<Answer<T>>

  function Peek<T>(s: Script<T>): Answer<T> {
    if s == [] then End else s[0]
  }

  function Advance<T>(s: Script<T>): Script<T> {
    if s == [] || s[0].End? then [] else s[1..]
  }

  /** The items a stream will deliver before it ends. */
  function Items<T>(s: Script<T>): seq<T>
    decreases |s|
  {
    match Peek(s)
    case Item(v) => [v] + Items(Advance(s))
    case Pending => Items(Advance(s))
    case End => []
  }

  class Stream<T> {
    var script: Script<T>

    constructor (script: Script<T>)
      ensures this.script == script
    {
      this.script := script;
    }

    method PollNext() returns (a: Answer<T>)
      modifies this
      ensures a == Peek(old(script)) && script == Advance(old(script))
    {
      if |script| == 0 {
        return End;
      }
      a := script[0];
      script := if a.End? then [] else script[1..];
    }
  }

  // ---------------------------------------------------------------- specification

  datatype State<T> = State(left: Script<T>, right: Script<T>, pollFirst: bool)

  datatype Output<+T> = Emitted(value: T, fromLeft: bool) | Nothing | Finished

  function OutputOf<T>(a: Answer<T>, fromLeft: bool): Output<T> {
    match a
    case Item(v) => Emitted(v, fromLeft)
    case Pending => Nothing
    case End => Finished
  }

  /** One poll: the preferred side answers unless it is pending. */
  function Poll<T>(s: State<T>): (State<T>, Output<T>) {
    if !s.pollFirst then
      if !Peek(s.left).Pending? then
        (State(Advance(s.left), s.right, true), OutputOf(Peek(s.left), true))
      else
        (State(Advance(s.left), Advance(s.right), true), OutputOf(Peek(s.right), false))
    else
      if !Peek(s.right).Pending? then
        (State(s.left, Advance(s.right), false), OutputOf(Peek(s.right), false))
      else
        (State(Advance(s.left), Advance(s.right), false), OutputOf(Peek(s.left), true))
  }

  /** The items emitted by up to `n` polls; the consumer stops at the first `Finished`. */
  function Outputs<T>(s: State<T>, n: nat): seq<Output<T>>
    decreases n
  {
    if n == 0 then [] else
    var (next, out) := Poll(s);
    match out
    case Emitted(_, _) => [out] + Outputs(next, n - 1)
    case Nothing => Outputs(next, n - 1)
    case Finished => []
  }

  function After<T>(s: State<T>, n: nat): State<T>
    decreases n
  {
    if n == 0 then s else
    var (next, out) := Poll(s);
    if out.Finished? then next else After(next, n - 1)
  }

  /** The values a list of outputs took from one side. */
  function FromSide<T>(outs: seq<Output<T>>, left: bool): seq<T> {
    if outs == [] then []
    else if outs[0].Emitted? && outs[0].fromLeft == left then [outs[0].value] + FromSide(outs[1..], left)
    else FromSide(outs[1..], left)
  }

  // ---------------------------------------------------------------- implementation

  class Merge<T> {
    const s1: Stream<T>
    const s2: Stream<T>
    var pollFirst: bool

    function Abs(): State<T>
      reads this, s1, s2
    {
      State(s1.script, s2.script, pollFirst)
    }

    constructor (s1: Stream<T>, s2: Stream<T>)
      requires s1 != s2
      ensures this.s1 == s1 && this.s2 == s2 && !pollFirst
    {
      this.s1, this.s2 := s1, s2;
      pollFirst := false;
    }

    static method PollRound(a: Stream<T>, b: Stream<T>) returns (r: Answer<T>, fromFirst: bool)
      requires a != b
      modifies a, b
      ensures a.script == Advance(old(a.script))
      ensures if Peek(old(a.script)).Pending?
              then r == Peek(old(b.script)) && b.script == Advance(old(b.script)) && !fromFirst
              else r == Peek(old(a.script)) && b.script == old(b.script) && fromFirst
    {
      r := a.PollNext();
      fromFirst := true;
      if r.Pending? {
        r := b.PollNext();
        fromFirst := false;
      }
    }

    method PollNext() returns (out: Output<T>)
      requires s1 != s2
      modifies this, s1, s2
      ensures (Abs(), out) == Poll(old(Abs()))
    {
      pollFirst := !pollFirst;
      var r, fromFirst;
      if pollFirst {
        r, fromFirst := PollRound(s1, s2);
        out := OutputOf(r, fromFirst);
      } else {
        r, fromFirst := PollRound(s2, s1);
        out := OutputOf(r, !fromFirst);
      }
    }
  }

  // ---------------------------------------------------------------- properties

  lemma PollTakesOne<T>(s: State<T>)
    ensures
      var (next, out) := Poll(s);
      && Items(s.left) == (if out.Emitted? && out.fromLeft then [out.value] else []) + Items(next.left)
      && Items(s.right) == (if out.Emitted? && !out.fromLeft then [out.value] else []) + Items(next.right)
  {
  }

  /** For every polling script the merge is an order-preserving interleaving: what was
      emitted from a side, followed by what that side still holds, is what it held. */
  lemma {:induction false} NothingLostOrRepeated<T>(s: State<T>, n: nat)
    ensures Items(s.left) == FromSide(Outputs(s, n), true) + Items(After(s, n).left)
    ensures Items(s.right) == FromSide(Outputs(s, n), false) + Items(After(s, n).right)
    decreases n
  {
    if n == 0 {
    } else {
      hide Poll, Items;
      var (next, out) := Poll(s);
      PollTakesOne(s);
      NothingLostOrRepeated(next, n - 1);
    }
  }

  predicate Ready<T>(s: State<T>, left: bool) {
    Peek(if left then s.left else s.right).Item?
  }

  /** A ready item is emitted at once, or right after one item of the other side;
      only the end of the other side can keep it back. */
  lemma ReadyWaitsForAtMostOne<T>(s: State<T>, left: bool)
    requires Ready(s, left)
    ensures
      var v := Peek(if left then s.left else s.right).value;
      var (next, out) := Poll(s);
      || out == Emitted(v, left)
      || (out.Emitted? && out.fromLeft != left && Poll(next).1 == Emitted(v, left))
      || (out.Finished? && Peek(if left then s.right else s.left).End?)
  {
  }

  /** Once one side has ended, at most one more item comes out, however often the merge is polled. */
  lemma EndsSoonAfterOneSide<T>(s: State<T>, n: nat)
    requires Peek(s.left).End? || Peek(s.right).End?
    ensures |Outputs(s, n)| <= 1
  {
    if n > 1 {
      var (next, out) := Poll(s);
      if out.Emitted? {
        assert Poll(next).1.Finished?;
        assert Outputs(next, n - 1) == [];
      }
    }
  }
}
