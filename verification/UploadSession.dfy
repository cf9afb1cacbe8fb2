/** The upload session of one message payload: initialise the account, write all
    chunks concurrently, commit. Earlier attempts may have left the account in any
    state an upload of the same payload can leave behind. */
module UploadSession {
  import opened Basics
  import opened PayloadUpload

  datatype Account = Absent | Open(buffer: seq<byte>) | Committed(buffer: seq<byte>)

  datatype UploadStep = InitializePayload | WriteChunk(index: nat) | CommitPayload

  datatype Event = Sent(step: UploadStep) | Returned(step: UploadStep, ok: bool)

  /** The states a sound account can be in: it has the payload's length, and it is only
      ever committed with exactly the payload in it. */
  predicate Sound(payload: seq<byte>, a: Account) {
    match a
    case Absent => true
    case Open(b) => |b| == |payload|
    case Committed(b) => b == payload
  }

  /** The account holds the bytes of a chunk. */
  predicate Holds(a: Account, c: ChunkWithOffset) {
    !a.Absent? && c.offset + |c.bytes| <= |a.buffer| && a.buffer[c.offset..c.offset + |c.bytes|] == c.bytes
  }

  lemma WriteHolds(payload: seq<byte>, size: nat, buffer: seq<byte>, i: nat, j: nat)
    requires size > 0 && |payload| <= U64_MAX && |buffer| == |payload|
    requires i < |ChunksWithOffset(payload, size)| && j < |ChunksWithOffset(payload, size)|
    requires j == i || Holds(Open(buffer), ChunksWithOffset(payload, size)[j])
    ensures
      var cs := ChunksWithOffset(payload, size);
      cs[i].offset + |cs[i].bytes| <= |buffer| && Holds(Open(Splice(buffer, cs[i])), cs[j])
  {
    hide ChunksWithOffset;
    ChunkAt(payload, size, i);
    ChunkAt(payload, size, j);
    var cs := ChunksWithOffset(payload, size);
    var after := Splice(buffer, cs[i]);
    forall k: nat | cs[j].offset <= k < cs[j].offset + |cs[j].bytes|
      ensures after[k] == payload[k]
    {
      if j != i {
        assert buffer[k] == buffer[cs[j].offset..cs[j].offset + |cs[j].bytes|][k - cs[j].offset];
      }
    }
  }

  lemma CompleteBuffer(payload: seq<byte>, size: nat, a: Account)
    requires size > 0 && |payload| <= U64_MAX && Sound(payload, a) && !a.Absent?
    requires forall i: nat :: i < |ChunksWithOffset(payload, size)| ==> Holds(a, ChunksWithOffset(payload, size)[i])
    ensures a.buffer == payload
  {
    forall k: nat | k < |payload|
      ensures a.buffer[k] == payload[k]
    {
      var i := ChunksPartition(payload, size, k);
      ChunkAt(payload, size, i);
      var c := ChunksWithOffset(payload, size)[i];
      assert a.buffer[c.offset..c.offset + |c.bytes|][k - c.offset] == a.buffer[k];
    }
  }

  /** Results reported so far are enough to send the commit. */
  ghost predicate ReadyToCommit(trace: seq<Event>, chunks: nat) {
    && Returned(InitializePayload, true) in trace
    && forall i: nat :: i < chunks ==> Returned(WriteChunk(i), true) in trace
  }

  /** Every commit in the trace was sent after initialisation and all writes reported Ok. */
  ghost predicate CommitsLast(trace: seq<Event>, chunks: nat) {
    forall k :: 0 <= k < |trace| && trace[k] == Sent(CommitPayload) ==> ReadyToCommit(trace[..k], chunks)
  }

  lemma CommitsLastExtends(trace: seq<Event>, e: Event, chunks: nat)
    requires CommitsLast(trace, chunks)
    requires e == Sent(CommitPayload) ==> ReadyToCommit(trace, chunks)
    ensures CommitsLast(trace + [e], chunks)
  {
    forall k | 0 <= k < |trace + [e]| && (trace + [e])[k] == Sent(CommitPayload)
      ensures ReadyToCommit((trace + [e])[..k], chunks)
    {
      assert (trace + [e])[..k] == trace[..k];
      assert trace[..|trace|] == trace;
    }
  }

  function Indices(n: nat): (r: set<nat>)
    ensures forall i: nat :: i in r <==> i < n
  {
    if n == 0 then {} else Indices(n - 1) + {n - 1}
  }

  lemma EmptyPayload(payload: seq<byte>, size: nat)
    requires size > 0
    ensures ChunksWithOffset(payload, size) == [] <==> payload == []
  {
  }

  ghost predicate SomeWriteFailed(trace: seq<Event>) {
    exists i :: Returned(WriteChunk(i), false) in trace
  }

  class Uploader {
    const payload: seq<byte>
    const chunkSize: nat
    /** Whether the gateway answers a write to a committed account with an error that
        tells the relayer to proceed. */
    const writeAfterCommitProceeds: bool
    /** Whether the instruction of a step can be built. */
    const builds: UploadStep -> bool
    var account: Account
    ghost var trace: seq<Event>

    ghost predicate Valid()
      reads this
    {
      && chunkSize > 0 && |payload| <= U64_MAX
      && Sound(payload, account)
      && CommitsLast(trace, |ChunksWithOffset(payload, chunkSize)|)
    }

    /** Every chunk's write can be built. */
    predicate WritesBuild()
      requires chunkSize > 0
    {
      forall i: nat :: i < |ChunksWithOffset(payload, chunkSize)| ==> builds(WriteChunk(i))
    }

    predicate AllBuild()
      requires chunkSize > 0
    {
      builds(InitializePayload) && WritesBuild() && builds(CommitPayload)
    }

    constructor (payload: seq<byte>, chunkSize: nat, writeAfterCommitProceeds: bool, builds: UploadStep -> bool,
                 account: Account)
      requires chunkSize > 0 && |payload| <= U64_MAX && Sound(payload, account)
      ensures Valid() && this.payload == payload && this.chunkSize == chunkSize && this.account == account
      ensures this.writeAfterCommitProceeds == writeAfterCommitProceeds && this.builds == builds && trace == []
    {
      this.payload, this.chunkSize, this.account := payload, chunkSize, account;
      this.writeAfterCommitProceeds, this.builds := writeAfterCommitProceeds, builds;
      trace := [];
    }

    /** The account after a step that the gateway executes. */
    function Effect(step: UploadStep, a: Account): Account
      requires chunkSize > 0 && |payload| <= U64_MAX
    {
      match step
      case InitializePayload => if a.Absent? then Open(seq(|payload|, _ => 0)) else a
      case WriteChunk(i) =>
        var cs := ChunksWithOffset(payload, chunkSize);
        if a.Open? && i < |cs| && cs[i].offset + |cs[i].bytes| <= |a.buffer| then Open(Splice(a.buffer, cs[i])) else a
      case CommitPayload => if a.Open? then Committed(a.buffer) else a
    }

    /** Whether a send without transport faults reports success: the gateway executes
        the step, or answers that it is already done. */
    predicate Succeeds(step: UploadStep, a: Account) {
      match step
      case InitializePayload => true
      case WriteChunk(_) => a.Open? || (a.Committed? && writeAfterCommitProceeds)
      case CommitPayload => !a.Absent?
    }

    /** Sends one step. With `faulty` the step may or may not take effect and the report
        may be an error either way; an Ok report always means the effect is on chain. */
    method Send(step: UploadStep, faulty: bool) returns (ok: bool)
      requires chunkSize > 0 && |payload| <= U64_MAX
      modifies `account, `trace
      ensures account == old(account) || account == Effect(step, old(account))
      ensures ok ==> account == Effect(step, old(account)) && Succeeds(step, old(account))
      ensures !faulty ==> (ok <==> Succeeds(step, old(account)))
      ensures trace == old(trace) + [Sent(step), Returned(step, ok)]
    {
      var fails: bool, lands: bool := *, *;
      if faulty && fails {
        if lands {
          account := Effect(step, account);
        }
        ok := false;
      } else {
        ok := Succeeds(step, account);
        if ok {
          account := Effect(step, account);
        }
      }
      trace := trace + [Sent(step), Returned(step, ok)];
    }

    /** Writes that were in flight when another one failed may still land. */
    method DropPending(pending: set<nat>)
      requires Valid() && forall i :: i in pending ==> i < |ChunksWithOffset(payload, chunkSize)|
      modifies `account
      ensures Valid() && (account.Absent? <==> old(account).Absent?) && (account.Committed? <==> old(account).Committed?)
    {
      var rest := pending;
      while rest != {}
        invariant rest <= pending && Valid()
        invariant (account.Absent? <==> old(account).Absent?) && (account.Committed? <==> old(account).Committed?)
        decreases rest
      {
        var i :| i in rest;
        var lands: bool := *;
        if lands {
          account := Effect(WriteChunk(i), account);
        }
        rest := rest - {i};
      }
    }

    /** After a write took effect, its chunk is held, and everything held before still is. */
    lemma WriteKeepsHeld(a: Account, i: nat)
      requires chunkSize > 0 && |payload| <= U64_MAX && Sound(payload, a) && !a.Absent?
      requires i < |ChunksWithOffset(payload, chunkSize)|
      ensures
        var cs := ChunksWithOffset(payload, chunkSize);
        var b := Effect(WriteChunk(i), a);
        && Sound(payload, b) && Holds(b, cs[i]) && (b.Open? <==> a.Open?) && !b.Absent?
        && forall j: nat :: j < |cs| && Holds(a, cs[j]) ==> Holds(b, cs[j])
    {
      var cs := ChunksWithOffset(payload, chunkSize);
      ChunkAt(payload, chunkSize, i);
      if a.Open? {
        WriteHolds(payload, chunkSize, a.buffer, i, i);
        forall j: nat | j < |cs| && Holds(a, cs[j])
          ensures Holds(Effect(WriteChunk(i), a), cs[j])
        {
          WriteHolds(payload, chunkSize, a.buffer, i, j);
        }
      }
    }

    method SendWrite(i: nat, faulty: bool) returns (ok: bool)
      requires Valid() && !account.Absent? && i < |ChunksWithOffset(payload, chunkSize)|
      modifies `account, `trace
      ensures Valid()
      ensures account == old(account) || account == Effect(WriteChunk(i), old(account))
      ensures ok ==> account == Effect(WriteChunk(i), old(account))
      ensures ok ==> old(account).Open? || writeAfterCommitProceeds
      ensures !faulty ==> (ok <==> old(account).Open? || writeAfterCommitProceeds)
      ensures trace == old(trace) + [Sent(WriteChunk(i)), Returned(WriteChunk(i), ok)]
    {
      WriteKeepsHeld(account, i);
      ok := Send(WriteChunk(i), faulty);
      var chunks := |ChunksWithOffset(payload, chunkSize)|;
      CommitsLastExtends(old(trace), Sent(WriteChunk(i)), chunks);
      CommitsLastExtends(old(trace) + [Sent(WriteChunk(i))], Returned(WriteChunk(i), ok), chunks);
      assert trace == old(trace) + [Sent(WriteChunk(i))] + [Returned(WriteChunk(i), ok)];
    }

    /** Builds all writes first, so that nothing is sent when one cannot be built; then
        sends them, taking results in any order and giving up at the first failure. */
    method Write(faulty: bool) returns (ok: bool)
      requires Valid() && !account.Absent? && Returned(InitializePayload, true) in trace
      requires Sent(CommitPayload) !in trace && !SomeWriteFailed(trace)
      modifies `account, `trace
      ensures Valid() && !account.Absent? && (account.Committed? <==> old(account).Committed?)
      ensures Sent(CommitPayload) !in trace && (ok <==> WritesBuild() && !SomeWriteFailed(trace))
      ensures !WritesBuild() ==> trace == old(trace) && account == old(account)
      ensures ok ==> ReadyToCommit(trace, |ChunksWithOffset(payload, chunkSize)|) && account.buffer == payload
      ensures ok ==> account.Open? || writeAfterCommitProceeds || payload == []
      ensures !faulty ==> (ok <==> WritesBuild() && (account.Open? || writeAfterCommitProceeds || payload == []))
    {
      hide ChunksWithOffset, CommitsLast;
      var cs := ChunksWithOffset(payload, chunkSize);
      for i := 0 to |cs|
        invariant forall j: nat :: j < i ==> builds(WriteChunk(j))
      {
        if !builds(WriteChunk(i)) {
          return false;
        }
      }
      var pending := Indices(|cs|);
      assert cs != [] ==> 0 in pending;
      EmptyPayload(payload, chunkSize);
      while pending != {}
        invariant Valid() && !account.Absent? && (account.Committed? <==> old(account).Committed?)
        invariant Returned(InitializePayload, true) in trace
        invariant Sent(CommitPayload) !in trace && !SomeWriteFailed(trace)
        invariant forall i: nat :: i in pending ==> i < |cs|
        invariant forall i: nat :: i < |cs| && i !in pending ==>
          Holds(account, cs[i]) && Returned(WriteChunk(i), true) in trace
        invariant pending != Indices(|cs|) ==> account.Open? || writeAfterCommitProceeds
        decreases pending
      {
        var i :| i in pending;
        WriteKeepsHeld(account, i);
        ok := SendWrite(i, faulty);
        pending := pending - {i};
        if !ok {
          DropPending(pending);
          return;
        }
      }
      CompleteBuffer(payload, chunkSize, account);
      ok := true;
    }

    /** One upload attempt. Commit is sent only when everything before it reported Ok, so
        an account never gets committed with anything but the payload. */
    method Upload(faulty: bool) returns (ok: bool)
      requires Valid() && trace == []
      modifies `account, `trace
      ensures Valid()
      ensures ok ==> account == Committed(payload)
      ensures ok ==> AllBuild() && (!old(account).Committed? || writeAfterCommitProceeds || payload == [])
      ensures ok ==> builds(InitializePayload) && builds(CommitPayload)
                     && forall i: nat :: i < |ChunksWithOffset(payload, chunkSize)| ==> builds(WriteChunk(i))
      ensures !builds(InitializePayload) ==> trace == [] && account == old(account)
      ensures !builds(CommitPayload) ==> Sent(CommitPayload) !in trace
      ensures (exists i: nat :: i < |ChunksWithOffset(payload, chunkSize)| && !builds(WriteChunk(i))) ==>
        forall i: nat :: Sent(WriteChunk(i)) !in trace
      ensures !faulty ==>
        (ok <==> AllBuild() && (!old(account).Committed? || writeAfterCommitProceeds || payload == []))
      ensures SomeWriteFailed(trace) ==> Sent(CommitPayload) !in trace
      ensures account.Committed? && !old(account).Committed? ==> Sent(CommitPayload) in trace
    {
      ghost var chunks := |ChunksWithOffset(payload, chunkSize)|;
      if !builds(InitializePayload) {
        return false;
      }
      CommitsLastExtends([], Sent(InitializePayload), chunks);
      ok := Send(InitializePayload, faulty);
      CommitsLastExtends([Sent(InitializePayload)], Returned(InitializePayload, ok), chunks);
      assert trace == [Sent(InitializePayload)] + [Returned(InitializePayload, ok)];
      if !ok {
        return;
      }
      ok := Write(faulty);
      if !ok {
        return;
      }
      if !builds(CommitPayload) {
        return false;
      }
      ghost var written := trace;
      CommitsLastExtends(written, Sent(CommitPayload), chunks);
      ok := Send(CommitPayload, faulty);
      CommitsLastExtends(written + [Sent(CommitPayload)], Returned(CommitPayload, ok), chunks);
      assert trace == written + [Sent(CommitPayload)] + [Returned(CommitPayload, ok)];
    }
  }
}
