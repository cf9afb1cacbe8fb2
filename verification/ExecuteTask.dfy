/** An execute task: check that the message is still to be executed, check the gas,
    upload the payload, call the destination program and close the payload account in
    one transaction, and publish an event when any of this fails. */
module ExecuteTask {
  import opened Basics
  import opened PayloadUpload
  import opened UploadSession
  import opened GasEstimator
  import opened EstimatorCache

  /** What the environment does during one attempt. `destination` is None when the
      address does not parse, and else tells whether it may be called; `builds` whether
      the call can be built, `accepts` whether its simulation passes. `meanwhile` are the
      gas checks of other messages that run while this one waits; the last three are what
      the cost queries of a failed attempt answer. */
  datatype Attempt = Attempt(
    destination: Option<bool>,
    gas: Call,
    meanwhile: seq<EstimatorCache.Event>,
    builds: bool,
    accepts: bool,
    failedFee: Result<u64>,
    totalGas: Result<u64>,
    uploadCost: Result<u64>)

  /** What may go wrong with the execute transaction itself: it never leaves, it fails
      on chain after its simulation passed, or it lands and nobody sees it. */
  datatype SendFault = NoFault | NeverSent | FailsOnChain | LostConfirmation

  /** The faults of the network during one attempt. */
  datatype Faults = Faults(status: bool, upload: bool, send: SendFault) {
    predicate None() { !status && !upload && send.NoFault? }
  }

  datatype ExecuteError = TransactionError | InsufficientGasBalance | OtherError

  datatype ExecuteResult = Executed | Refused(error: ExecuteError)

  /** The events a failed attempt publishes. */
  datatype Report = Reverted(cost: u64) | CannotExecute(insufficientGas: bool)

  /** What is published for an error; nothing when the failed transaction itself cannot
      be fetched, which ends the task with an error instead. */
  function ReportFor(a: Attempt, e: ExecuteError): Option<Report> {
    match e
    case TransactionError =>
      (match a.failedFee
       case Err => None
       case Ok(fee) => Some(Reverted(if a.totalGas.Ok? then a.totalGas.value else fee)))
    case InsufficientGasBalance => Some(CannotExecute(true))
    case OtherError =>
      if a.uploadCost.Ok? && a.uploadCost.value > 0 then Some(Reverted(a.uploadCost.value)) else Some(CannotExecute(false))
  }

  lemma EmptyTrace(chunks: nat)
    ensures CommitsLast([], chunks)
  {
  }

  class Executor {
    const uploader: Uploader
    const estimator: RealGasEstimator
    /** Whether the gateway holds the approved message. */
    const approved: bool
    const message: MessageId
    var executed: bool
    /** The payloads the destination program was called with. */
    ghost var delivered: seq<seq<byte>>
    /** The attempts so far, and what went wrong in each. */
    ghost var attempts: seq<(Attempt, Faults)>

    /** The destination is called at most once, and then with exactly the payload. */
    ghost predicate Valid()
      reads this, uploader, estimator
    {
      && uploader.Valid() && message !in estimator.pending && (executed ==> approved)
      && delivered == if executed then [uploader.payload] else []
    }

    /** The attempt is about this message. */
    predicate Concerns(a: Attempt) {
      a.gas.message == message && forall i :: 0 <= i < |a.meanwhile| ==> a.meanwhile[i].Message() != message
    }

    constructor (uploader: Uploader, estimator: RealGasEstimator, approved: bool, message: MessageId)
      requires uploader.Valid() && message !in estimator.pending
      ensures Valid() && this.uploader == uploader && this.estimator == estimator && this.approved == approved
      ensures !executed && delivered == [] && attempts == [] && this.message == message
    {
      this.message := message;
      this.uploader, this.estimator, this.approved := uploader, estimator, approved;
      executed, delivered, attempts := false, [], [];
    }

    /** Reads the message's status; an absent account is an error like a failed call. */
    method AlreadyExecuted(lost: bool) returns (r: Result<bool>)
      requires Valid()
      ensures r == if approved && !lost then Ok(executed) else Err
    {
      r := if !approved || lost then Err else Ok(executed);
    }

    /** The call and the closing of the payload account, in one transaction: both take
        effect or neither does. `landed` tells whether they did. */
    method SendToDestination(a: Attempt, fault: SendFault) returns (r: ExecuteResult, ghost landed: bool)
      requires Valid()
      modifies uploader`account, `executed, `delivered
      ensures Valid() && uploader.trace == old(uploader.trace)
      ensures executed == (old(executed) || landed) && uploader.account == if landed then Absent else old(uploader.account)
      ensures landed <==>
        && a.builds && approved && !old(executed) && old(uploader.account) == Committed(uploader.payload) && a.accepts
        && (fault.NoFault? || fault.LostConfirmation?)
      ensures r.Executed? <==> landed && !fault.LostConfirmation?
      ensures r.Refused? ==> !r.error.InsufficientGasBalance?
      ensures r == Refused(TransactionError) <==>
        && a.builds && approved && !old(executed) && old(uploader.account) == Committed(uploader.payload) && a.accepts
        && fault.FailsOnChain?
    {
      if !a.builds || fault.NeverSent? {
        return Refused(OtherError), false;
      }
      if !approved || executed || !uploader.account.Committed? || !a.accepts {
        return Refused(OtherError), false;
      }
      if fault.FailsOnChain? {
        return Refused(TransactionError), false;
      }
      delivered := delivered + [uploader.account.buffer];
      executed := true;
      uploader.account := Absent;
      landed := true;
      r := if fault.LostConfirmation? then Refused(OtherError) else Executed;
    }

    /** Whether an attempt asks for the gas check, seen before it. */
    predicate AsksForGas(a: Attempt, faults: Faults, executed: bool) {
      approved && !executed && !faults.status && a.destination == Some(true)
    }

    /** Whether an undisturbed upload takes an attempt up to the execute transaction, and
        the simulation of that passes, seen before the attempt. */
    predicate GetsThrough(a: Attempt, faults: Faults, gas: Outcome, account: Account, executed: bool)
      requires uploader.chunkSize > 0
    {
      && AsksForGas(a, faults, executed) && gas.EnoughGas? && uploader.AllBuild() && a.builds && a.accepts
      && (!account.Committed? || uploader.writeAfterCommitProceeds || uploader.payload == [])
    }

    /** Whether an attempt gets the message executed: the message is still to be executed,
        nothing in the attempt stands in its way, and no fault hides the status or stops
        the execute transaction. */
    predicate Lands(a: Attempt, faults: Faults, gas: Outcome, account: Account, executed: bool)
      requires uploader.chunkSize > 0
    {
      GetsThrough(a, faults, gas, account, executed) && (faults.send.NoFault? || faults.send.LostConfirmation?)
    }

    /** One attempt at the task. Nothing is sent unless the message is still to be
        executed, the destination may be called and the gas suffices. */
    method ExecuteWithEstimator(a: Attempt, faults: Faults) returns (r: ExecuteResult, ghost landed: bool)
      requires Valid() && uploader.trace == [] && Concerns(a)
      modifies uploader, estimator, `executed, `delivered
      ensures Valid() && executed == (old(executed) || landed) && (landed ==> !old(executed))
      ensures a.destination != Some(true) || !OutcomeOf(CheckOf(old(estimator.cache), a.gas)).EnoughGas? || old(executed) ==>
        uploader.trace == [] && uploader.account == old(uploader.account) && !landed
      ensures
        var lands := Lands(a, faults, OutcomeOf(CheckOf(old(estimator.cache), a.gas)), old(uploader.account), old(executed));
        (landed ==> lands) && (!faults.upload && lands ==> landed)
      ensures r.Executed? <==> (old(executed) && !faults.status) || (landed && !faults.send.LostConfirmation?)
      ensures
        var gas := OutcomeOf(CheckOf(old(estimator.cache), a.gas));
        var through := GetsThrough(a, faults, gas, old(uploader.account), old(executed));
        && (r == Refused(TransactionError) ==> !executed && through && faults.send.FailsOnChain?)
        && (!faults.upload && through && faults.send.FailsOnChain? ==> r == Refused(TransactionError))
      ensures r == Refused(InsufficientGasBalance) <==>
        AsksForGas(a, faults, old(executed)) && OutcomeOf(CheckOf(old(estimator.cache), a.gas)).InsufficientGas?
      ensures r == Refused(InsufficientGasBalance) ==> !executed
    {
      hide OutcomeOf, CheckOf;
      landed := false;
      var status := AlreadyExecuted(faults.status);
      if status.Err? {
        return Refused(OtherError), false;
      }
      if status.value {
        return Executed, false;
      }
      if a.destination != Some(true) {
        return Refused(OtherError), false;
      }
      var gas := estimator.EnsureEnoughGas(a.gas, a.meanwhile);
      match gas {
        case EnoughGas =>
        case InsufficientGas(_, _) => return Refused(InsufficientGasBalance), false;
        case Failed => return Refused(OtherError), false;
      }
      var uploaded := uploader.Upload(faults.upload);
      if !uploaded {
        return Refused(OtherError), false;
      }
      r, landed := SendToDestination(a, faults.send);
    }

    /** The task as the processor runs it. Failures are reported; but a report is published
        for an executed message if and only if the network hid the execution: the status of
        an earlier one, or the confirmation of one that this attempt gets through. */
    method ProcessExecute(a: Attempt, faults: Faults) returns (published: Option<Report>)
      requires Valid() && Concerns(a)
      modifies uploader, estimator, `executed, `delivered, `attempts
      ensures Valid() && attempts == old(attempts) + [(a, faults)]
      ensures
        var lands := Lands(a, faults, OutcomeOf(CheckOf(old(estimator.cache), a.gas)), old(uploader.account), old(executed));
        && (executed ==> old(executed) || lands)
        && (!faults.upload ==> (executed <==> old(executed) || lands))
        && (published.Some? && executed ==>
              (old(executed) && faults.status) || (lands && faults.send.LostConfirmation?))
        && (!faults.upload ==>
              (published.Some? && executed <==>
                 (old(executed) && faults.status) || (lands && faults.send.LostConfirmation?)))
      ensures old(executed) ==> executed && (published.Some? <==> faults.status)
      ensures published.Some? && executed ==> published == ReportFor(a, OtherError)
      ensures faults.None() ==> (published.Some? <==> !executed)
      ensures published == Some(CannotExecute(true)) <==>
        AsksForGas(a, faults, old(executed)) && OutcomeOf(CheckOf(old(estimator.cache), a.gas)).InsufficientGas?
      ensures
        var gas := OutcomeOf(CheckOf(old(estimator.cache), a.gas));
        var through := GetsThrough(a, faults, gas, old(uploader.account), old(executed));
        && (!faults.upload && through && faults.send.FailsOnChain? ==>
              published == if a.failedFee.Err? then Option.None
                           else Some(Reverted(if a.totalGas.Ok? then a.totalGas.value else a.failedFee.value)))
        && (!faults.upload ==>
              (published.None? <==>
                 || (old(executed) && !faults.status)
                 || (through && faults.send.NoFault?)
                 || (through && faults.send.FailsOnChain? && a.failedFee.Err?)))
        && (!(through && faults.send.FailsOnChain?) && published.Some? && published != Some(CannotExecute(true)) ==>
              published == Some(if a.uploadCost.Ok? && a.uploadCost.value > 0 then Reverted(a.uploadCost.value)
                                else CannotExecute(false)))
    {
      hide OutcomeOf, CheckOf, GetsThrough, AsksForGas;
      attempts := attempts + [(a, faults)];
      uploader.trace := [];
      EmptyTrace(|ChunksWithOffset(uploader.payload, uploader.chunkSize)|);
      ghost var landed;
      var r;
      r, landed := ExecuteWithEstimator(a, faults);
      match r {
        case Executed => published := Option.None;
        case Refused(e) => published := ReportFor(a, e);
      }
    }

    /** Any number of attempts under any faults, and then one without faults: the message
        is executed at most once over all of them, and the last report tells the truth. */
    method ProcessUntilFaultless(earlier: seq<(Attempt, Faults)>, last: Attempt) returns (published: Option<Report>)
      requires Valid() && Concerns(last)
      requires forall i :: 0 <= i < |earlier| ==> Concerns(earlier[i].0)
      modifies uploader, estimator, `executed, `delivered, `attempts
      ensures Valid() && (old(executed) ==> executed)
      ensures attempts == old(attempts) + earlier + [(last, Faults(false, false, NoFault))]
      ensures published.Some? <==> !executed
    {
      hide OutcomeOf, CheckOf, Lands, GetsThrough, AsksForGas, Concerns;
      for i := 0 to |earlier|
        invariant Valid() && (old(executed) ==> executed) && attempts == old(attempts) + earlier[..i]
      {
        published := ProcessExecute(earlier[i].0, earlier[i].1);
      }
      assert earlier[..|earlier|] == earlier;
      published := ProcessExecute(last, Faults(false, false, NoFault));
    }
  }

  /** An attempt in which everything goes well, except that nobody sees the execute
      transaction land. */
  function UnseenAttempt(): Attempt {
    var free := StageMetadata(0, []);
    var gas := Call(0, _ => Ok(0), Ok((0, Breakdown(free, [], free, free, free))), 0);
    Attempt(Some(true), gas, [], true, true, Err, Err, Ok(15000))
  }

  /** It publishes that the message was reverted, although it was executed. */
  method ReportsAnExecutedMessage() returns (published: Option<Report>, executor: Executor)
    ensures fresh(executor) && executor.Valid()
    ensures executor.executed && executor.delivered == [[1, 2, 3]] && published == Some(Reverted(15000))
  {
    var uploader := new Uploader([1, 2, 3], 2, true, _ => true, Absent);
    var estimator := new RealGasEstimator();
    executor := new Executor(uploader, estimator, true, 0);
    published := executor.ProcessExecute(UnseenAttempt(), Faults(false, false, LostConfirmation));
  }
}
