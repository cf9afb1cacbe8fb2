/** A gateway task: a session of many transactions that is initialised, has its
    signatures verified in any order and then rotates signers or approves messages
    in any order. The on-chain gateway is a set of finished steps that only grows. */
module GatewaySession {
  import opened Basics

  /** One signer of the signing set. `builds` tells whether its instruction can be
      constructed, `valid` whether the gateway accepts its signature. */
  datatype Leaf = Leaf(weight: nat, builds: bool, valid: bool)

  /** Messages are named by their index; the flags tell whether an instruction can be constructed. */
  datatype Payload = VerifierSetRotation(rotationBuilds: bool) | NewMessages(builds: seq<bool>)

  /** `decodes` tells whether the execute data parse, `initializeBuilds` whether the first
      instruction can be constructed. */
  datatype GatewayTask = GatewayTask(
    decodes: bool,
    initializeBuilds: bool,
    leaves: seq<Leaf>,
    quorum: nat,
    payload: Payload)

  datatype TxStep = Initialize | Verify(leaf: nat) | Rotate | Approve(message: nat)

  datatype SendResult =
    | Confirmed
    | SimulationError(shouldRelayerProceed: bool)
    | TransactionError
    | TransportError

  /** What happened during one run: groups of transactions started together, and the
      results that came back. */
  datatype Event = Started(steps: set<TxStep>) | Returned(step: TxStep, ok: bool)

  // ---------------------------------------------------------------- the task's steps and the gateway's rules

  function VerifySteps(t: GatewayTask): set<TxStep> {
    set i | 0 <= i < |t.leaves| && t.leaves[i].builds :: Verify(i)
  }

  function FinalSteps(t: GatewayTask): set<TxStep> {
    match t.payload
    case VerifierSetRotation(_) => {Rotate}
    case NewMessages(builds) => set i | 0 <= i < |builds| && builds[i] :: Approve(i)
  }

  function AllSteps(t: GatewayTask): set<TxStep> {
    {Initialize} + VerifySteps(t) + FinalSteps(t)
  }

  /** The steps of a task, one by one: exactly the signers and messages whose instruction
      can be built, and a rotation only if that is what the task asks for. */
  lemma StepsAre(t: GatewayTask)
    ensures Initialize in AllSteps(t) && (Rotate in AllSteps(t) <==> t.payload.VerifierSetRotation?)
    ensures forall i: nat :: Verify(i) in AllSteps(t) <==> i < |t.leaves| && t.leaves[i].builds
    ensures forall i: nat :: Approve(i) in AllSteps(t) <==>
      t.payload.NewMessages? && i < |t.payload.builds| && t.payload.builds[i]
  {
  }

  function WeightUpTo(leaves: seq<Leaf>, done: set<TxStep>, n: nat): nat
    requires n <= |leaves|
  {
    if n == 0 then 0
    else WeightUpTo(leaves, done, n - 1) + if Verify(n - 1) in done then leaves[n - 1].weight else 0
  }

  function VerifiedWeight(t: GatewayTask, done: set<TxStep>): nat {
    WeightUpTo(t.leaves, done, |t.leaves|)
  }

  /** Whether the gateway executes a step that is not done yet. */
  predicate Accepts(t: GatewayTask, done: set<TxStep>, step: TxStep) {
    match step
    case Initialize => true
    case Verify(i) => Initialize in done && i < |t.leaves| && t.leaves[i].valid
    case Rotate => VerifiedWeight(t, done) >= t.quorum
    case Approve(_) => VerifiedWeight(t, done) >= t.quorum
  }

  /** Whether a step of the group is accepted does not depend on which others landed. */
  ghost predicate Independent(t: GatewayTask, done: set<TxStep>, steps: set<TxStep>) {
    forall step, c: set<TxStep> :: step in steps && done <= c <= done + steps ==>
      (Accepts(t, c, step) <==> Accepts(t, done, step))
  }

  lemma {:induction false} WeightMonotone(leaves: seq<Leaf>, a: set<TxStep>, b: set<TxStep>, n: nat)
    requires a <= b && n <= |leaves|
    ensures WeightUpTo(leaves, a, n) <= WeightUpTo(leaves, b, n)
  {
    if n == 0 {
    } else {
      WeightMonotone(leaves, a, b, n - 1);
    }
  }

  lemma {:induction false} WeightIgnoresOthers(leaves: seq<Leaf>, a: set<TxStep>, b: set<TxStep>, n: nat)
    requires n <= |leaves| && forall i: nat :: Verify(i) in a <==> Verify(i) in b
    ensures WeightUpTo(leaves, a, n) == WeightUpTo(leaves, b, n)
  {
    if n == 0 {
    } else {
      WeightIgnoresOthers(leaves, a, b, n - 1);
    }
  }

  lemma {:induction false} WeightUpToIgnores(leaves: seq<Leaf>, done: set<TxStep>, i: nat, n: nat)
    requires n <= i && n <= |leaves|
    ensures WeightUpTo(leaves, done + {Verify(i)}, n) == WeightUpTo(leaves, done, n)
  {
    if n == 0 {
    } else {
      WeightUpToIgnores(leaves, done, i, n - 1);
    }
  }

  /** Each verified signature counts once, with its own weight. */
  lemma {:induction false} VerifyAddsWeight(leaves: seq<Leaf>, done: set<TxStep>, i: nat, n: nat)
    requires i < n <= |leaves| && Verify(i) !in done
    ensures WeightUpTo(leaves, done + {Verify(i)}, n) == WeightUpTo(leaves, done, n) + leaves[i].weight
  {
    if i == n - 1 {
      WeightUpToIgnores(leaves, done, i, i);
    } else {
      VerifyAddsWeight(leaves, done, i, n - 1);
    }
  }

  /** The steps whose failure to be constructed ends the task can be constructed. */
  predicate Constructible(t: GatewayTask) {
    t.decodes && t.initializeBuilds && (t.payload.VerifierSetRotation? ==> t.payload.rotationBuilds)
  }

  /** When a run without transport faults completes, seen from the chain state before it. */
  ghost predicate Completable(t: GatewayTask, done: set<TxStep>) {
    && Constructible(t)
    && (forall i :: 0 <= i < |t.leaves| && t.leaves[i].builds ==> t.leaves[i].valid || Verify(i) in done)
    && (FinalSteps(t) <= done || VerifiedWeight(t, done + {Initialize} + VerifySteps(t)) >= t.quorum)
  }

  /** Progress of earlier, interrupted runs never makes a task uncompletable. */
  lemma CompletableMonotone(t: GatewayTask, a: set<TxStep>, b: set<TxStep>)
    requires a <= b && Completable(t, a)
    ensures Completable(t, b)
  {
    WeightMonotone(t.leaves, a + {Initialize} + VerifySteps(t), b + {Initialize} + VerifySteps(t), |t.leaves|);
  }

  // ---------------------------------------------------------------- ordering

  ghost predicate ReturnedOk(trace: seq<Event>, step: TxStep) {
    Returned(step, true) in trace
  }

  /** No verification starts before initialisation returned Ok, and no rotation or
      approval before every built verification did. */
  ghost predicate Ordered(t: GatewayTask, trace: seq<Event>) {
    forall i :: 0 <= i < |trace| && trace[i].Started? ==>
      forall step :: step in trace[i].steps ==>
        && (step.Verify? ==> ReturnedOk(trace[..i], Initialize))
        && (step.Rotate? || step.Approve? ==> forall v :: v in VerifySteps(t) ==> ReturnedOk(trace[..i], v))
  }

  lemma OrderedReturn(t: GatewayTask, trace: seq<Event>, step: TxStep, ok: bool)
    requires Ordered(t, trace)
    ensures Ordered(t, trace + [Returned(step, ok)])
    ensures forall s :: ReturnedOk(trace + [Returned(step, ok)], s) <==> ReturnedOk(trace, s) || (ok && s == step)
  {
    var longer := trace + [Returned(step, ok)];
    forall i | 0 <= i < |trace|
      ensures longer[..i] == trace[..i]
    {
    }
  }

  /** The group may be started now without breaking the order. */
  ghost predicate MayStart(t: GatewayTask, trace: seq<Event>, steps: set<TxStep>) {
    forall step :: step in steps ==>
      && (step.Verify? ==> ReturnedOk(trace, Initialize))
      && (step.Rotate? || step.Approve? ==> forall v :: v in VerifySteps(t) ==> ReturnedOk(trace, v))
  }

  /** Whether a step was started, and so may be sent. */
  ghost predicate WasStarted(trace: seq<Event>, step: TxStep) {
    exists i :: 0 <= i < |trace| && trace[i].Started? && step in trace[i].steps
  }

  lemma Start(t: GatewayTask, trace: seq<Event>, steps: set<TxStep>)
    requires Ordered(t, trace) && MayStart(t, trace, steps)
    ensures Ordered(t, trace + [Started(steps)])
    ensures forall s :: s in steps ==> WasStarted(trace + [Started(steps)], s)
  {
    var longer := trace + [Started(steps)];
    forall i | 0 <= i <= |trace|
      ensures longer[..i] == trace[..i]
    {
    }
    assert trace[..|trace|] == trace;
    assert longer[|trace|] == Started(steps);
  }

  lemma StillStarted(trace: seq<Event>, longer: seq<Event>, steps: set<TxStep>)
    requires trace <= longer && forall s :: s in steps ==> WasStarted(trace, s)
    ensures forall s :: s in steps ==> WasStarted(longer, s)
  {
    forall s | s in steps
      ensures WasStarted(longer, s)
    {
      var i :| 0 <= i < |trace| && trace[i].Started? && s in trace[i].steps;
      assert longer[i] == trace[i];
    }
  }

  lemma MoreReturned(trace: seq<Event>, step: TxStep)
    ensures ReturnedOk(trace + [Returned(step, true)], step)
    ensures forall s :: ReturnedOk(trace, s) ==> ReturnedOk(trace + [Returned(step, true)], s)
  {
  }

  lemma StartsWithInitialize(t: GatewayTask)
    ensures Ordered(t, []) && Ordered(t, [Started({Initialize})]) && WasStarted([Started({Initialize})], Initialize)
  {
    assert [Started({Initialize})][0].Started?;
  }

  lemma VerificationsMayStart(t: GatewayTask, trace: seq<Event>)
    requires ReturnedOk(trace, Initialize)
    ensures MayStart(t, trace, VerifySteps(t))
  {
  }

  lemma FinalsMayStart(t: GatewayTask, trace: seq<Event>)
    requires forall v :: v in VerifySteps(t) ==> ReturnedOk(trace, v)
    ensures MayStart(t, trace, FinalSteps(t))
  {
  }

  /** When every step of a group is done or accepted. */
  lemma GroupOutcomes(t: GatewayTask, done: set<TxStep>)
    requires Initialize in done
    ensures (forall s :: s in VerifySteps(t) ==> s in done || Accepts(t, done, s))
       <==> (forall i :: 0 <= i < |t.leaves| && t.leaves[i].builds ==> t.leaves[i].valid || Verify(i) in done)
    ensures (forall s :: s in FinalSteps(t) ==> s in done || Accepts(t, done, s))
       <==> FinalSteps(t) <= done || VerifiedWeight(t, done) >= t.quorum
  {
    if forall s :: s in VerifySteps(t) ==> s in done || Accepts(t, done, s) {
      forall i | 0 <= i < |t.leaves| && t.leaves[i].builds
        ensures t.leaves[i].valid || Verify(i) in done
      {
        assert Verify(i) in VerifySteps(t);
      }
    }
  }

  /** `Completable` looks ahead correctly through the two groups of a run. */
  lemma CompletableUnfolds(t: GatewayTask, done: set<TxStep>)
    ensures
      var initialized := done + {Initialize};
      var verified := initialized + VerifySteps(t);
      Completable(t, done)
      <==> && Constructible(t)
           && (forall s :: s in VerifySteps(t) ==> s in initialized || Accepts(t, initialized, s))
           && (forall s :: s in FinalSteps(t) ==> s in verified || Accepts(t, verified, s))
  {
    var initialized := done + {Initialize};
    var verified := initialized + VerifySteps(t);
    GroupOutcomes(t, initialized);
    GroupOutcomes(t, verified);
    assert FinalSteps(t) <= verified <==> FinalSteps(t) <= done;
  }

  lemma VerificationsIndependent(t: GatewayTask, done: set<TxStep>)
    requires Initialize in done
    ensures Independent(t, done, VerifySteps(t))
  {
  }

  /** Approving or rotating does not change the verified weight. */
  lemma FinalsIndependent(t: GatewayTask, done: set<TxStep>)
    ensures Independent(t, done, FinalSteps(t))
  {
    forall step, c: set<TxStep> | step in FinalSteps(t) && done <= c <= done + FinalSteps(t)
      ensures Accepts(t, c, step) <==> Accepts(t, done, step)
    {
      WeightIgnoresOthers(t.leaves, c, done, |t.leaves|);
    }
  }

  // ---------------------------------------------------------------- progress that the gateway accepted

  /** What a faulty run may have left behind: only steps of the task that the gateway
      accepted, so only valid signatures of an initialised session, and final steps only
      with enough verified weight. */
  ghost predicate Earned(t: GatewayTask, a: set<TxStep>, b: set<TxStep>) {
    && a <= b <= a + AllSteps(t)
    && (forall i: nat :: Verify(i) in b && Verify(i) !in a ==> Initialize in b && i < |t.leaves| && t.leaves[i].valid)
    && (forall f :: f in b && f !in a && (f.Rotate? || f.Approve?) ==> VerifiedWeight(t, b) >= t.quorum)
  }

  /** No progress can verify more than the task's own verifications. */
  lemma WeightWithin(t: GatewayTask, a: set<TxStep>, b: set<TxStep>)
    requires b <= a + AllSteps(t)
    ensures VerifiedWeight(t, b) <= VerifiedWeight(t, a + {Initialize} + VerifySteps(t))
  {
    WeightMonotone(t.leaves, b, a + AllSteps(t), |t.leaves|);
    WeightIgnoresOthers(t.leaves, a + AllSteps(t), a + {Initialize} + VerifySteps(t), |t.leaves|);
  }

  lemma EarnStep(t: GatewayTask, a: set<TxStep>, b: set<TxStep>, c: set<TxStep>, step: TxStep)
    requires Earned(t, a, b) && step in AllSteps(t) && b <= c <= b + {step}
    requires c != b ==> Accepts(t, b, step)
    ensures Earned(t, a, c)
  {
    WeightMonotone(t.leaves, b, c, |t.leaves|);
    if c != b {
      assert c == b + {step};
    }
  }

  lemma EarnNothing(t: GatewayTask, a: set<TxStep>)
    ensures Earned(t, a, a)
  {
  }

  lemma EarnOn(t: GatewayTask, a: set<TxStep>, b: set<TxStep>, c: set<TxStep>)
    requires Earned(t, a, b) && Earned(t, b, c)
    ensures Earned(t, a, c)
  {
    WeightMonotone(t.leaves, b, c, |t.leaves|);
  }

  /** A task that is completable after such progress was completable before it. */
  lemma CompletableBack(t: GatewayTask, a: set<TxStep>, b: set<TxStep>)
    requires Earned(t, a, b) && Completable(t, b)
    ensures Completable(t, a)
  {
    WeightIgnoresOthers(t.leaves, b + {Initialize} + VerifySteps(t), b + AllSteps(t), |t.leaves|);
    WeightWithin(t, a, b + AllSteps(t));
    WeightWithin(t, a, b);
    if f :| f in FinalSteps(t) && f in b && f !in a {
      assert VerifiedWeight(t, b) >= t.quorum;
    }
    forall i | 0 <= i < |t.leaves| && t.leaves[i].builds
      ensures t.leaves[i].valid || Verify(i) in a
    {
      assert t.leaves[i].valid || Verify(i) in b;
    }
  }

  // ---------------------------------------------------------------- the relayer's side

  class Relayer {
    const task: GatewayTask
    /** The steps finished on chain for this session. */
    var done: set<TxStep>
    /** What this run has started and what came back. */
    ghost var trace: seq<Event>
    /** The runs so far, and whether each met faults. */
    ghost var runs: seq<bool>

    constructor (task: GatewayTask, done: set<TxStep>)
      ensures this.task == task && this.done == done && trace == [] && runs == []
    {
      this.task, this.done := task, done;
      trace, runs := [], [];
    }

    /** Simulates and sends one transaction of a started step. With `faulty`, the network
        may fail before anything happens, the transaction may fail after its simulation
        succeeded, land without its confirmation being seen, or lose a race against
        another sender. */
    method SendTransaction(step: TxStep, faulty: bool) returns (r: SendResult)
      requires WasStarted(trace, step)
      modifies `done
      ensures old(done) <= done <= old(done) + {step}
      ensures done != old(done) ==> Accepts(task, old(done), step)
      ensures r == Confirmed ==> step !in old(done) && step in done
      ensures r == SimulationError(true) ==> step in old(done)
      ensures !faulty ==> r == if step in old(done) then SimulationError(true)
                               else if Accepts(task, old(done), step) then Confirmed
                               else SimulationError(false)
    {
      var lostBefore: bool, failsAfter: bool, lands: bool, reported: bool := *, *, *, *;
      if faulty && lostBefore {
        return TransportError;
      }
      if step in done {
        return SimulationError(true);
      }
      if !Accepts(task, done, step) {
        return SimulationError(false);
      }
      if faulty && failsAfter {
        if lands {
          done := done + {step};
        }
        if reported {
          return TransactionError;
        }
        return TransportError;
      }
      done := done + {step};
      r := Confirmed;
    }

    /** A simulation error that says the step is already done counts as success. */
    method SendGatewayTx(step: TxStep, faulty: bool) returns (ok: bool)
      requires Ordered(task, trace) && WasStarted(trace, step)
      modifies `done, `trace
      ensures old(done) <= done <= old(done) + {step}
      ensures done != old(done) ==> Accepts(task, old(done), step)
      ensures ok ==> step in done
      ensures !faulty ==> (ok <==> step in old(done) || Accepts(task, old(done), step))
      ensures trace == old(trace) + [Returned(step, ok)] && Ordered(task, trace)
    {
      var res := SendTransaction(step, faulty);
      match res {
        case Confirmed => ok := true;
        case SimulationError(proceed) => ok := proceed;
        case TransactionError => ok := false;
        case TransportError => ok := false;
      }
      OrderedReturn(task, trace, step, ok);
      trace := trace + [Returned(step, ok)];
    }

    /** Futures dropped half-way: each of their transactions may still land. */
    method DropPending(pending: set<TxStep>)
      requires pending <= AllSteps(task) && forall step :: step in pending ==> WasStarted(trace, step)
      modifies `done
      ensures old(done) <= done <= old(done) + pending && Earned(task, old(done), done)
    {
      hide Earned;
      EarnNothing(task, done);
      var rest := pending;
      while rest != {}
        invariant rest <= pending && old(done) <= done <= old(done) + pending
        invariant Earned(task, old(done), done)
        decreases rest
      {
        var step :| step in rest;
        var lands: bool := *;
        if lands && Accepts(task, done, step) {
          EarnStep(task, old(done), done, done + {step}, step);
          done := done + {step};
        }
        rest := rest - {step};
      }
    }

    /** Starts a group of transactions together and takes their results in whatever
        order they come. At the first failure the remaining futures are dropped: any of
        their transactions may or may not have reached the chain. */
    method SendAll(steps: set<TxStep>, faulty: bool) returns (ok: bool)
      requires Ordered(task, trace) && MayStart(task, trace, steps)
      requires Independent(task, done, steps) && steps <= AllSteps(task)
      modifies `done, `trace
      ensures old(done) <= done <= old(done) + steps && Earned(task, old(done), done)
      ensures ok ==> steps <= done
      ensures !faulty ==> (ok <==> forall s :: s in steps ==> s in old(done) || Accepts(task, old(done), s))
      ensures old(trace) <= trace && Ordered(task, trace)
      ensures ok ==> forall s :: s in steps ==> ReturnedOk(trace, s)
    {
      hide Ordered, MayStart, Accepts, ReturnedOk, WasStarted, Earned;
      EarnNothing(task, done);
      var pending := steps;
      Start(task, trace, steps);
      ghost var started := trace + [Started(steps)];
      trace := started;
      while pending != {}
        invariant pending <= steps && steps - pending <= done
        invariant old(done) <= done <= old(done) + steps && Earned(task, old(done), done)
        invariant old(trace) <= started <= trace && Ordered(task, trace)
        invariant forall s :: s in steps ==> WasStarted(started, s)
        invariant forall s :: s in steps - pending ==> ReturnedOk(trace, s)
        invariant !faulty ==> done <= old(done) + (steps - pending)
        invariant !faulty ==> forall s :: s in steps - pending ==> s in old(done) || Accepts(task, old(done), s)
        decreases pending
      {
        var step :| step in pending;
        assert Accepts(task, done, step) <==> Accepts(task, old(done), step);
        StillStarted(started, trace, steps);
        MoreReturned(trace, step);
        ghost var reached := done;
        ok := SendGatewayTx(step, faulty);
        EarnStep(task, old(done), reached, done, step);
        pending := pending - {step};
        if !ok {
          StillStarted(started, trace, steps);
          reached := done;
          DropPending(pending);
          EarnOn(task, old(done), reached, done);
          return;
        }
      }
      ok := true;
    }

    /** The whole task. An instruction that cannot be built is silently left out. */
    method GatewayTxTask(faulty: bool) returns (ok: bool)
      requires trace == []
      modifies `done, `trace, `runs
      ensures runs == old(runs) + [faulty]
      ensures old(done) <= done <= old(done) + AllSteps(task) && Earned(task, old(done), done)
      ensures ok ==> done == old(done) + AllSteps(task)
      ensures ok ==> Initialize in done && (task.payload.VerifierSetRotation? ==> Rotate in done)
      ensures ok ==> forall i: nat :: i < |task.leaves| && task.leaves[i].builds ==> Verify(i) in done
      ensures ok && task.payload.NewMessages? ==>
        forall i: nat :: i < |task.payload.builds| && task.payload.builds[i] ==> Approve(i) in done
      ensures forall step :: step in done && step !in old(done) ==>
        match step
        case Initialize => true
        case Verify(i) => i < |task.leaves| && task.leaves[i].builds
        case Rotate => task.payload.VerifierSetRotation?
        case Approve(i) => task.payload.NewMessages? && i < |task.payload.builds| && task.payload.builds[i]
      ensures forall i: nat :: Verify(i) in done && Verify(i) !in old(done) ==>
        Initialize in done && i < |task.leaves| && task.leaves[i].valid
      ensures forall f :: f in done && f !in old(done) && (f.Rotate? || f.Approve?) ==>
        VerifiedWeight(task, done) >= task.quorum
      ensures ok ==> task.decodes && task.initializeBuilds
      ensures !task.decodes || !task.initializeBuilds ==> done == old(done) && trace == []
      ensures task.payload.VerifierSetRotation? && !task.payload.rotationBuilds ==>
        !ok && (Rotate in done ==> Rotate in old(done))
      ensures !faulty ==> (ok <==> Completable(task, old(done)))
      ensures Ordered(task, trace)
    {
      hide Completable, Ordered, MayStart, Independent, VerifiedWeight, Earned;
      runs := runs + [faulty];
      StepsAre(task);
      CompletableUnfolds(task, done);
      EarnNothing(task, done);
      StartsWithInitialize(task);
      if !task.decodes || !task.initializeBuilds {
        return false;
      }
      trace := [Started({Initialize})];
      ok := SendGatewayTx(Initialize, faulty);
      EarnStep(task, old(done), old(done), done, Initialize);
      if !ok {
        return;
      }
      ghost var reached := done;
      assert done == old(done) + {Initialize};
      VerificationsIndependent(task, done);
      VerificationsMayStart(task, trace);
      ok := SendAll(VerifySteps(task), faulty);
      EarnOn(task, old(done), reached, done);
      if !ok {
        return;
      }
      reached := done;
      assert done == old(done) + {Initialize} + VerifySteps(task);
      FinalsIndependent(task, done);
      FinalsMayStart(task, trace);
      if task.payload.VerifierSetRotation? && !task.payload.rotationBuilds {
        return false;
      }
      ok := SendAll(FinalSteps(task), faulty);
      EarnOn(task, old(done), reached, done);
    }

    /** Any number of interrupted runs followed by one without transport faults ends Ok
        exactly if an uninterrupted run would have, and then in the same state. */
    method RunUntilUninterrupted(interrupted: nat) returns (ok: bool)
      modifies `done, `trace, `runs
      ensures runs == old(runs) + seq(interrupted, _ => true) + [false]
      ensures ok <==> Completable(task, old(done))
      ensures ok ==> done == old(done) + AllSteps(task)
      ensures ok ==> Initialize in done && (task.payload.VerifierSetRotation? ==> Rotate in done)
      ensures ok ==> forall i: nat :: i < |task.leaves| && task.leaves[i].builds ==> Verify(i) in done
      ensures ok && task.payload.NewMessages? ==>
        forall i: nat :: i < |task.payload.builds| && task.payload.builds[i] ==> Approve(i) in done
      ensures forall step :: step in done && step !in old(done) ==>
        match step
        case Initialize => true
        case Verify(i) => i < |task.leaves| && task.leaves[i].builds
        case Rotate => task.payload.VerifierSetRotation?
        case Approve(i) => task.payload.NewMessages? && i < |task.payload.builds| && task.payload.builds[i]
    {
      hide Completable, Earned;
      StepsAre(task);
      EarnNothing(task, done);
      for i := 0 to interrupted
        invariant old(done) <= done <= old(done) + AllSteps(task) && Earned(task, old(done), done)
        invariant runs == old(runs) + seq(i, _ => true)
      {
        trace := [];
        ghost var reached := done;
        ok := GatewayTxTask(true);
        EarnOn(task, old(done), reached, done);
      }
      if Completable(task, old(done)) {
        CompletableMonotone(task, old(done), done);
      } else if Completable(task, done) {
        CompletableBack(task, old(done), done);
      }
      trace := [];
      ok := GatewayTxTask(false);
    }
  }
}
