/** The persisted state of the relayer: three fields overlaid on one memory-mapped
    buffer of 96 bytes. */
module Storage {
  import opened Basics

  const ID_LEN: nat := 16
  const SIGNATURE_LEN: nat := 64
  const STATE_LEN: nat := 96

  const QUERIED_AT: nat := 0
  const PROCESSED_AT: nat := 16
  const SIGNATURE_AT: nat := 32

  const U128_END: nat := 0x1_0000_0000_0000_0000_0000_0000_0000_0000

  type u128 = x: nat | x < U128_END

  /** 64 bytes. */
  type SignatureBytes = s: seq<byte> | |s| == SIGNATURE_LEN witness seq(SIGNATURE_LEN, _ => 0)

  // ---------------------------------------------------------------- little-endian numbers

  function Pow256(n: nat): (r: nat)
    ensures r > 0
  {
    if n == 0 then 1 else 256 * Pow256(n - 1)
  }

  function Encode(v: nat, n: nat): (r: seq<byte>)
    ensures |r| == n
  {
    if n == 0 then [] else [v % 256] + Encode(v / 256, n - 1)
  }

  function Decode(bytes: seq<byte>): (r: nat)
    ensures r < Pow256(|bytes|)
  {
    if bytes == [] then 0 else bytes[0] + 256 * Decode(bytes[1..])
  }

  lemma {:induction false} DecodeEncode(v: nat, n: nat)
    requires v < Pow256(n)
    ensures Decode(Encode(v, n)) == v
  {
    if n == 0 {
    } else {
      DecodeEncode(v / 256, n - 1);
      assert Encode(v, n)[1..] == Encode(v / 256, n - 1);
    }
  }

  lemma {:induction false} EncodeDecode(bytes: seq<byte>)
    ensures Encode(Decode(bytes), |bytes|) == bytes
  {
    if bytes == [] {
    } else {
      EncodeDecode(bytes[1..]);
      assert Decode(bytes) % 256 == bytes[0] && Decode(bytes) / 256 == Decode(bytes[1..]);
    }
  }

  lemma U128IsSixteenBytes()
    ensures Pow256(ID_LEN) == U128_END
  {
    assert Pow256(4) == 0x1_0000_0000;
    assert Pow256(8) == 256 * 256 * 256 * 256 * Pow256(4);
    assert Pow256(12) == 256 * 256 * 256 * 256 * Pow256(8);
    assert Pow256(16) == 256 * 256 * 256 * 256 * Pow256(12);
  }

  // ---------------------------------------------------------------- the record and its fields

  datatype Field = Queried | Processed

  function At(f: Field): nat {
    match f case Queried => QUERIED_AT case Processed => PROCESSED_AT
  }

  /** The three fields of the state. */
  datatype Record = Record(queried: u128, processed: u128, signature: SignatureBytes)

  function Id(r: Record, f: Field): u128 {
    match f case Queried => r.queried case Processed => r.processed
  }

  function WithId(r: Record, f: Field, id: u128): Record {
    match f case Queried => r.(queried := id) case Processed => r.(processed := id)
  }

  /** Reading an id after writing one: the same field gives the new value, the other its old one. */
  lemma IdAfterWith(r: Record, f: Field, id: u128, g: Field)
    ensures Id(WithId(r, f, id), g) == if g == f then id else Id(r, g)
    ensures WithId(r, f, id).signature == r.signature
    ensures (forall h :: Id(WithId(r, f, id), h) == Id(r, h)) ==> WithId(r, f, id) == r
  {
    if WithId(r, f, id) != r {
      assert Id(WithId(r, f, id), f) != Id(r, f);
    }
  }

  /** How the buffer is read. */
  function View(bytes: seq<byte>): Record
    requires |bytes| == STATE_LEN
  {
    U128IsSixteenBytes();
    Record(Decode(bytes[0..16]), Decode(bytes[16..32]), bytes[32..96])
  }

  function Zeroes(n: nat): (r: seq<byte>)
    ensures |r| == n
  {
    seq(n, _ => 0)
  }

  class MemmapState {
    var mmap: array<byte>

    /** Getters and setters view the whole map as the state, so they need its exact length. */
    ghost predicate Valid()
      reads this
    {
      mmap.Length == STATE_LEN
    }

    ghost function Abs(): Record
      requires Valid()
      reads this, mmap
    {
      View(mmap[..])
    }

    /** Opens a state file. An absent or short file is overwritten with zeroes; a longer
        one is mapped as it is, and then the state cannot be viewed. */
    constructor (file: seq<byte>)
      ensures fresh(mmap)
      ensures Valid() <==> |file| <= STATE_LEN
      ensures mmap[..] == if |file| < STATE_LEN then Zeroes(STATE_LEN) else file
    {
      var contents: seq<byte> := if |file| < STATE_LEN then Zeroes(STATE_LEN) else file;
      mmap := new byte[|contents|] ((i: nat) requires i < |contents| => contents[i]);
    }

    method WriteAt(at: nat, bytes: seq<byte>)
      requires Valid() && at + |bytes| <= STATE_LEN
      modifies mmap
      ensures mmap[..] == old(mmap[..at]) + bytes + old(mmap[at + |bytes|..])
    {
      for i := 0 to |bytes|
        invariant forall k :: 0 <= k < mmap.Length ==>
          mmap[k] == if at <= k < at + i then bytes[k - at] else old(mmap[k])
      {
        mmap[at + i] := bytes[i];
      }
    }

    method SetTaskItemId(f: Field, id: u128)
      requires Valid()
      modifies mmap
      ensures Abs() == WithId(old(Abs()), f, id)
      ensures match f
              case Queried => mmap[..] == Encode(id, 16) + old(mmap[16..])
              case Processed => mmap[..] == old(mmap[..16]) + Encode(id, 16) + old(mmap[32..])
      ensures forall g :: Id(Abs(), g) == if g == f then id else Id(old(Abs()), g)
    {
      ghost var before := mmap[..];
      WriteAt(At(f), Encode(id, ID_LEN));
      U128IsSixteenBytes();
      DecodeEncode(id, ID_LEN);
      ghost var after := mmap[..];
      match f {
        case Queried =>
          assert after[0..16] == Encode(id, ID_LEN) && after[16..32] == before[16..32] && after[32..96] == before[32..96];
        case Processed =>
          assert after[16..32] == Encode(id, ID_LEN) && after[0..16] == before[0..16] && after[32..96] == before[32..96];
      }
    }

    method GetTaskItemId(f: Field) returns (r: Option<u128>)
      requires Valid()
      ensures r == if Id(Abs(), f) == 0 then None else Some(Id(Abs(), f))
    {
      U128IsSixteenBytes();
      var at := At(f);
      var id: u128 := Decode(mmap[at..at + ID_LEN]);
      assert mmap[..][at..at + ID_LEN] == mmap[at..at + ID_LEN];
      r := if id == 0 then None else Some(id);
    }

    method SetSignature(s: SignatureBytes)
      requires Valid()
      modifies mmap
      ensures Abs() == old(Abs()).(signature := s) && mmap[..] == old(mmap[..32]) + s
      ensures forall g :: Id(Abs(), g) == Id(old(Abs()), g)
    {
      ghost var before := mmap[..];
      WriteAt(SIGNATURE_AT, s);
      ghost var after := mmap[..];
      assert after[0..16] == before[0..16] && after[16..32] == before[16..32] && after[32..96] == s;
    }

    method GetSignature() returns (r: Option<SignatureBytes>)
      requires Valid()
      ensures r == if Abs().signature == Zeroes(SIGNATURE_LEN) then None else Some(Abs().signature)
    {
      var s: SignatureBytes := mmap[SIGNATURE_AT..STATE_LEN];
      assert mmap[..][32..96] == s;
      r := if s == Zeroes(SIGNATURE_LEN) then None else Some(s);
    }
  }

  lemma {:induction false} ZeroesDecodeToZero(n: nat)
    ensures Decode(seq(n, _ => 0)) == 0
  {
    if n == 0 {
    } else {
      assert seq(n, _ => 0 as byte)[1..] == seq(n - 1, _ => 0 as byte);
      ZeroesDecodeToZero(n - 1);
    }
  }

  /** A fresh state file reads as empty in every field. */
  lemma FreshFileIsEmpty()
    ensures View(Zeroes(STATE_LEN)) == Record(0, 0, Zeroes(SIGNATURE_LEN))
  {
    ZeroesDecodeToZero(ID_LEN);
    var bytes: seq<byte> := Zeroes(STATE_LEN);
    assert bytes[0..16] == Zeroes(ID_LEN) && bytes[16..32] == Zeroes(ID_LEN);
  }

  // ---------------------------------------------------------------- sequences of operations

  datatype Op = SetId(field: Field, id: u128) | SetSig(signature: SignatureBytes) | GetId(field: Field) | GetSig | Reopen

  datatype Answer = Done | IdIs(id: Option<u128>) | SignatureIs(signature: Option<SignatureBytes>)

  /** A setter changes its own field and nothing else. */
  function After(op: Op, r: Record): Record {
    match op
    case SetId(f, id) => WithId(r, f, id)
    case SetSig(signature) => r.(signature := signature)
    case _ => r
  }

  /** The last value a sequence of operations sets a task id field to. */
  function LastId(ops: seq<Op>, f: Field, initial: u128): u128 {
    if ops == [] then initial
    else
      var op := ops[|ops| - 1];
      if op.SetId? && op.field == f then op.id else LastId(ops[..|ops| - 1], f, initial)
  }

  function LastSignature(ops: seq<Op>, initial: SignatureBytes): SignatureBytes {
    if ops == [] then initial
    else
      var op := ops[|ops| - 1];
      if op.SetSig? then op.signature else LastSignature(ops[..|ops| - 1], initial)
  }

  /** The record after a sequence of operations: each field holds the last value set to it. */
  function Latest(ops: seq<Op>, initial: Record): Record {
    Record(LastId(ops, Queried, initial.queried), LastId(ops, Processed, initial.processed),
           LastSignature(ops, initial.signature))
  }

  /** What an operation answers: a getter returns the last value set to its own field,
      or None if that is all zero. */
  function AnswerTo(op: Op, r: Record): Answer {
    match op
    case GetId(f) => IdIs(if Id(r, f) == 0 then None else Some(Id(r, f)))
    case GetSig => SignatureIs(if r.signature == Zeroes(SIGNATURE_LEN) then None else Some(r.signature))
    case _ => Done
  }

  /** What the file holds for a task id, if it is long enough to be kept. */
  function FileId(file: seq<byte>, f: Field): u128
    requires |file| <= STATE_LEN
  {
    U128IsSixteenBytes();
    if |file| < STATE_LEN then 0
    else match f case Queried => Decode(file[0..16]) case Processed => Decode(file[16..32])
  }

  function FileSignature(file: seq<byte>): SignatureBytes
    requires |file| <= STATE_LEN
  {
    if |file| < STATE_LEN then Zeroes(64) else file[32..96]
  }

  /** A getter answers with the last value set to its own field, else with the file's. */
  lemma GetterAnswers(file: seq<byte>, ops: seq<Op>, op: Op)
    requires |file| <= STATE_LEN
    ensures
      var answer := AnswerTo(op, Latest(ops, View(if |file| < STATE_LEN then Zeroes(STATE_LEN) else file)));
      && (op.GetId? ==>
            var id := LastId(ops, op.field, FileId(file, op.field));
            answer == IdIs(if id == 0 then None else Some(id)))
      && (op.GetSig? ==>
            var signature := LastSignature(ops, FileSignature(file));
            answer == SignatureIs(if signature == Zeroes(64) then None else Some(signature)))
  {
    FreshFileIsEmpty();
  }

  lemma LatestNext(ops: seq<Op>, i: nat, initial: Record)
    requires i < |ops|
    ensures Latest(ops[..i + 1], initial) == After(ops[i], Latest(ops[..i], initial))
  {
    assert ops[..i + 1][..i] == ops[..i];
  }

  method Perform(s: MemmapState, op: Op) returns (t: MemmapState, answer: Answer)
    requires s.Valid()
    modifies s.mmap
    ensures t.Valid() && ((t == s && t.mmap == old(s.mmap)) || (fresh(t) && fresh(t.mmap)))
    ensures answer == AnswerTo(op, old(s.Abs()))
    ensures t.Abs() == After(op, old(s.Abs()))
  {
    hide View;
    t, answer := s, Done;
    match op {
      case SetId(f, id) => s.SetTaskItemId(f, id);
      case SetSig(signature) => s.SetSignature(signature);
      case GetId(f) =>
        var id := s.GetTaskItemId(f);
        answer := IdIs(id);
      case GetSig =>
        var signature := s.GetSignature();
        answer := SignatureIs(signature);
      case Reopen => t := new MemmapState(s.mmap[..]);
    }
  }

  lemma NothingLatest(initial: Record)
    ensures Latest([], initial) == initial
  {
  }

  /** Runs any operations on a state file, reopening it from its bytes as asked. Every
      getter answers with the last value set to its own field, or with what the file
      held: the three overlaid fields never disturb each other and survive reopening. */
  method RunOperations(file: seq<byte>, ops: seq<Op>) returns (s: MemmapState, answers: seq<Answer>)
    requires |file| <= STATE_LEN
    ensures s.Valid() && |answers| == |ops|
    ensures
      var initial := View(if |file| < STATE_LEN then Zeroes(STATE_LEN) else file);
      && s.Abs() == Latest(ops, initial)
      && (forall i :: 0 <= i < |ops| ==> answers[i] == AnswerTo(ops[i], Latest(ops[..i], initial)))
      && (forall i :: 0 <= i < |ops| && ops[i].GetId? ==>
            var id := LastId(ops[..i], ops[i].field, FileId(file, ops[i].field));
            answers[i] == IdIs(if id == 0 then None else Some(id)))
      && (forall i :: 0 <= i < |ops| && ops[i].GetSig? ==>
            var signature := LastSignature(ops[..i], FileSignature(file));
            answers[i] == SignatureIs(if signature == Zeroes(64) then None else Some(signature)))
  {
    hide View, Latest, AnswerTo, FileId, FileSignature, LastId, LastSignature;
    s := new MemmapState(file);
    ghost var initial := s.Abs();
    answers := [];
    NothingLatest(initial);
    for i := 0 to |ops|
      invariant fresh(s) && fresh(s.mmap) && s.Valid() && |answers| == i
      invariant s.Abs() == Latest(ops[..i], initial)
      invariant forall k :: 0 <= k < i ==> answers[k] == AnswerTo(ops[k], Latest(ops[..k], initial))
    {
      var answer;
      LatestNext(ops, i, initial);
      s, answer := Perform(s, ops[i]);
      answers := answers + [answer];
    }
    assert ops[..|ops|] == ops;
    forall i | 0 <= i < |ops|
      ensures ops[i].GetId? ==>
        var id := LastId(ops[..i], ops[i].field, FileId(file, ops[i].field));
        answers[i] == IdIs(if id == 0 then None else Some(id))
      ensures ops[i].GetSig? ==>
        var signature := LastSignature(ops[..i], FileSignature(file));
        answers[i] == SignatureIs(if signature == Zeroes(64) then None else Some(signature))
    {
      GetterAnswers(file, ops[..i], ops[i]);
    }
  }
}
