/** The dual-replica orchestrator of one rank: it owns the four flat buffers, binds both
    replicas' parameters and gradients to them, exchanges them with the partner rank and
    drives the two replicas' executors through a training step.
    The executors, the transport and the device are not part of this model: what a
    forward pass or a whole executor step returns, and what a receive delivers, enter as
    inputs; the events of the step are returned as a trace. */
module SpatialMaster {
  import opened Ranks
  import opened FlatLayout
  import opened Exchange
  import opened Schedule

  /** A completed receive into a flat buffer: the buffer holds what arrived. */
  method Receive(a: array<int>, data: seq<int>)
    requires a.Length == |data|
    modifies a
    ensures a[..] == data
  {
    for i := 0 to a.Length
      invariant forall j :: 0 <= j < i ==> a[j] == data[j]
    {
      a[i] := data[i];
    }
  }

  /** The in-place `+=` of a received gradient buffer. */
  method AddInPlace(a: array<int>, received: seq<int>)
    requires a.Length == |received|
    modifies a
    ensures a[..] == AddInto(old(a[..]), received)
  {
    for i := 0 to a.Length
      invariant forall j :: 0 <= j < i ==> a[j] == old(a[j]) + received[j]
      invariant forall j :: i <= j < a.Length ==> a[j] == old(a[j])
    {
      a[i] := a[i] + received[i];
    }
  }

  /** The forward loop of one phase: part i of the half [base, base + len) goes through the
      executor, and its result is counted when the executor is at the last stage. */
  method ForwardLoop(r: Replica, tm: Executor, base: nat, len: nat, partsSize: nat, ys: seq<Score>)
    returns (events: seq<Event>, loss: int, corrects: int)
    ensures events == Forwards(r, base, len, partsSize, ys)
    ensures Score(loss, corrects) == TerminalSum(tm, ys)
  {
    events, loss, corrects := [], 0, 0;
    for i := 0 to |ys|
      invariant events == Forwards(r, base, len, partsSize, ys[..i])
      invariant Score(loss, corrects) == TerminalSum(tm, ys[..i])
    {
      var start, end := i * partsSize, (i + 1) * partsSize;
      var y := ys[i];
      ForwardsSnoc(r, base, len, partsSize, ys, i);
      SumSnoc(ys, i);
      events := events + [Forward(r, i, base + Clip(start, len), base + Clip(end, len), y)];
      if tm.splitRank == tm.splitSize - 1 {
        loss := loss + y.loss;
        corrects := corrects + y.correct;
      }
    }
    assert ys[..|ys|] == ys;
  }

  /** The backward loop of one phase: every part in forward order, each given what its
      forward returned. */
  method BackwardLoop(r: Replica, ys: seq<Score>) returns (events: seq<Event>)
    ensures events == Backwards(r, ys)
  {
    events := [];
    for i := 0 to |ys|
      invariant events == Backwards(r, ys[..i])
    {
      BackwardsSnoc(r, ys, i);
      events := events + [Backward(r, i, ys[i].loss)];
    }
    assert ys[..|ys|] == ys;
  }

  /** A fresh flat buffer of n zeros (`torch.zeros`). */
  method ZeroBuffer(n: nat) returns (a: array<int>)
    ensures fresh(a) && a[..] == Zeros(n)
  {
    a := new int[n](_ => 0);
    assert a[..] == Zeros(n);
  }

  /** The step's totals are the two phases' totals added up. */
  lemma TotalsOfPhases(s: Setup, odd: bool, ys1: seq<Score>, ys2: seq<Score>, t1: Score, t2: Score)
    requires t1 == TerminalSum(ExecutorOf(s, FirstReplica(odd)), ys1)
    requires t2 == TerminalSum(ExecutorOf(s, SecondReplica(odd)), ys2)
    ensures Plus(t1, t2) == AllreduceTotals(s, odd, ys1, ys2)
  {
  }

  class TrainSpatialModelMaster {
    const mpSize: nat
    const localRank: nat
    const batchSize: nat
    const parts: nat
    const replications: int
    const trainModel1: Executor
    const trainModel2: Executor

    /** Element count of each parameter of model 1 and of model 2. */
    const sizes1: seq<nat>
    const sizes2: seq<nat>
    const model1Size: nat
    const model2Size: nat

    /** The slots each parameter's data and gradient were bound to. */
    const paramSlots1: seq<Slot>
    const paramSlots2: seq<Slot>
    const gradSlots1: seq<Slot>
    const gradSlots2: seq<Slot>

    const flatParamsModel1: array<int>
    const flatParamsModel2: array<int>
    const flatGradsModel1: array<int>
    const flatGradsModel2: array<int>

    ghost predicate Valid()
    {
      model1Size == Total(sizes1) && model2Size == Total(sizes2) &&
      paramSlots1 == Layout(sizes1) && gradSlots1 == Layout(sizes1) &&
      paramSlots2 == Layout(sizes2) && gradSlots2 == Layout(sizes2) &&
      flatParamsModel1.Length == model1Size && flatGradsModel1.Length == model1Size &&
      flatParamsModel2.Length == model2Size && flatGradsModel2.Length == model2Size &&
      flatParamsModel1 != flatParamsModel2 && flatParamsModel1 != flatGradsModel1 &&
      flatParamsModel1 != flatGradsModel2 && flatParamsModel2 != flatGradsModel1 &&
      flatParamsModel2 != flatGradsModel2 && flatGradsModel1 != flatGradsModel2
    }

    function Arr(b: Buf): array<int>
    {
      match b
      case Params1 => flatParamsModel1
      case Params2 => flatParamsModel2
      case Grads1 => flatGradsModel1
      case Grads2 => flatGradsModel2
    }

    /** The contents of the four flat buffers. */
    ghost function State(): Buffers
      reads flatParamsModel1, flatParamsModel2, flatGradsModel1, flatGradsModel2
    {
      Buffers(flatParamsModel1[..], flatParamsModel2[..], flatGradsModel1[..], flatGradsModel2[..])
    }

    /** What the step schedules read of this object. */
    function Config(): Setup
    {
      Setup(mpSize, localRank, batchSize, parts, model1Size, model2Size, trainModel1, trainModel2)
    }

    /** What model 1's parameters read: each is a view of its slot of the flat buffer. */
    ghost function ParamsView1(): seq<seq<int>>
      requires Valid()
      reads flatParamsModel1
    {
      LayoutFits(sizes1);
      Bound(paramSlots1, flatParamsModel1[..])
    }

    ghost function ParamsView2(): seq<seq<int>>
      requires Valid()
      reads flatParamsModel2
    {
      LayoutFits(sizes2);
      Bound(paramSlots2, flatParamsModel2[..])
    }

    /** `__init__`: size both replicas, allocate four zeroed flat buffers and bind every
        parameter's data and gradient to its slot. */
    constructor (params1: seq<seq<int>>, params2: seq<seq<int>>, mpSize: nat, localRank: nat,
                 batchSize: nat, parts: nat, replications: int,
                 trainModel1: Executor, trainModel2: Executor)
      ensures Valid()
      ensures this.mpSize == mpSize && this.localRank == localRank && this.batchSize == batchSize
      ensures this.parts == parts && this.replications == replications
      ensures this.trainModel1 == trainModel1 && this.trainModel2 == trainModel2
      ensures sizes1 == Sizes(params1) && sizes2 == Sizes(params2)
      ensures model1Size == |Flatten(params1)| && model2Size == |Flatten(params2)|
      ensures State() == Buffers(Zeros(model1Size), Zeros(model2Size), Zeros(model1Size), Zeros(model2Size))
      ensures fresh(flatParamsModel1) && fresh(flatParamsModel2) && fresh(flatGradsModel1) && fresh(flatGradsModel2)
    {
      this.mpSize := mpSize;
      this.localRank := localRank;
      this.batchSize := batchSize;
      this.parts := parts;
      this.replications := replications;
      this.trainModel1 := trainModel1;
      this.trainModel2 := trainModel2;
      sizes1 := Sizes(params1);
      sizes2 := Sizes(params2);
      var m1 := GetModelParameterSize(params1);
      var m2 := GetModelParameterSize(params2);
      model1Size := m1;
      model2Size := m2;
      var a1 := ZeroBuffer(m1);
      var a2 := ZeroBuffer(m2);
      var b1 := ZeroBuffer(m1);
      var b2 := ZeroBuffer(m2);
      flatParamsModel1, flatParamsModel2, flatGradsModel1, flatGradsModel2 := a1, a2, b1, b2;
      var p1 := UpdateModelLoc(params1);
      var p2 := UpdateModelLoc(params2);
      var g1 := UpdateModelLoc(params1);
      var g2 := UpdateModelLoc(params2);
      paramSlots1, paramSlots2, gradSlots1, gradSlots2 := p1, p2, g1, g2;
    }

    /** After binding, each parameter of a replica is exactly its slot of the parameter
        buffer: packing the parameters gives the buffer back, whatever it holds. */
    lemma ViewsAreTheBuffer()
      requires Valid()
      ensures Sizes(ParamsView1()) == sizes1 && Flatten(ParamsView1()) == flatParamsModel1[..]
      ensures Sizes(ParamsView2()) == sizes2 && Flatten(ParamsView2()) == flatParamsModel2[..]
    {
      BoundRoundTrip(sizes1, flatParamsModel1[..]);
      BoundRoundTrip(sizes2, flatParamsModel2[..]);
    }

    /** `recv_params_model` and the wait on it: the parity's receive buffer is overwritten
        with what the partner sent. */
    method ReceiveParams(recvRank: int, odd: bool, received: seq<int>) returns (op: CommOp)
      requires Valid()
      requires |received| == Arr(RecvParamsBuffer(odd)).Length
      modifies Arr(RecvParamsBuffer(odd))
      ensures op == IRecv(Flat(RecvParamsBuffer(odd)), recvRank, ExchangeTag)
      ensures State() == ParamsReceived(old(State()), odd, received)
    {
      var target := if odd then flatParamsModel1 else flatParamsModel2;
      Receive(target, received);
      op := IRecv(Flat(if odd then Params1 else Params2), recvRank, 0);
    }

    /** `recv_grads_model` into a fresh zeroed buffer, the wait, and the `+=` into the
        parity's accumulation buffer. */
    method ReceiveAndAccumulateGrads(recvRank: int, odd: bool, received: seq<int>) returns (op: CommOp)
      requires Valid()
      requires |received| == GradsRecvSize(model1Size, model2Size, odd)
      modifies Arr(AccumGradsBuffer(odd))
      ensures op == IRecv(Scratch(GradsRecvSize(model1Size, model2Size, odd)), recvRank, ExchangeTag)
      ensures State() == GradsAccumulated(old(State()), odd, received)
    {
      var recvSize := if odd then model1Size else model2Size;
      op := IRecv(Scratch(recvSize), recvRank, 0);
      if odd {
        AddInPlace(flatGradsModel1, received);
      } else {
        AddInPlace(flatGradsModel2, received);
      }
    }

    /** `send_recv_params`: exchange parameters with the partner; lower-half ranks post
        their send first. */
    method SendRecvParams(odd: bool, received: seq<int>) returns (ops: seq<CommOp>)
      requires Valid()
      requires |received| == Arr(RecvParamsBuffer(odd)).Length
      modifies Arr(RecvParamsBuffer(odd))
      ensures ops == SendRecvParamsOps(mpSize, localRank, odd)
      ensures State() == ParamsReceived(old(State()), odd, received)
    {
      var sendRecvRank := mpSize - 1 - localRank;
      var send := ISend(if odd then Params2 else Params1, sendRecvRank, 0);
      var recv := ReceiveParams(sendRecvRank, odd, received);
      if localRank < mpSize / 2 {
        ops := [send, recv];
      } else {
        ops := [recv, send];
      }
      ops := ops + [Wait(0), Wait(1)];
    }

    /** `send_recv_grads`: send this parity's gradients, receive the partner's into a
        scratch buffer and add them into the other replica's gradients. */
    method SendRecvGrads(odd: bool, received: seq<int>) returns (ops: seq<CommOp>)
      requires Valid()
      requires |received| == GradsRecvSize(model1Size, model2Size, odd)
      modifies Arr(AccumGradsBuffer(odd))
      ensures ops == SendRecvGradsOps(mpSize, localRank, odd, GradsRecvSize(model1Size, model2Size, odd))
      ensures State() == GradsAccumulated(old(State()), odd, received)
    {
      var sendRecvRank := mpSize - 1 - localRank;
      var send := ISend(if odd then Grads2 else Grads1, sendRecvRank, 0);
      var recv := ReceiveAndAccumulateGrads(sendRecvRank, odd, received);
      ops := [send, recv, Wait(0), Wait(1)];
    }

    /** First half of `run_step_allreduce`: the first replica on inputs[:batch_size]. A
        last-rank replica receives parameters before its forwards and sends after its
        backwards; any other rank exchanges parameters between the two loops. */
    method ParamsPhaseStep(n: nat, odd: bool, ys: seq<Score>, receivedParams: seq<int>)
      returns (events: seq<Event>, loss: int, corrects: int)
      requires Valid()
      requires parts >= 1 && |ys| == parts
      requires |receivedParams| == Arr(RecvParamsBuffer(odd)).Length
      modifies Arr(RecvParamsBuffer(odd))
      ensures events == ParamsPhase(Config(), odd, n, ys)
      ensures Score(loss, corrects) == TerminalSum(ExecutorOf(Config(), FirstReplica(odd)), ys)
      ensures State() == ParamsReceived(old(State()), odd, receivedParams)
    {
      var partsSize := batchSize / parts;
      var tm1 := if odd then trainModel2 else trainModel1;
      var r1 := if odd then Model2 else Model1;
      var peer := mpSize - 1 - localRank;
      var half := if batchSize <= n then batchSize else n;
      var fw, bw;
      if tm1.localRank == mpSize - 1 {
        var op := ReceiveParams(peer, odd, receivedParams);
        fw, loss, corrects := ForwardLoop(r1, tm1, 0, half, partsSize, ys);
        bw := BackwardLoop(r1, ys);
        var send := ISend(if odd then Params2 else Params1, peer, 0);
        events := [Comm([op, Wait(0)])] + fw + bw + [Comm([send, Wait(0)])];
      } else {
        fw, loss, corrects := ForwardLoop(r1, tm1, 0, half, partsSize, ys);
        var ops := SendRecvParams(odd, receivedParams);
        bw := BackwardLoop(r1, ys);
        events := fw + [Comm(ops)] + bw;
      }
    }

    /** Second half of `run_step_allreduce`: the other replica on inputs[batch_size:]. A
        last-rank replica receives and accumulates gradients before its forwards and sends
        after its backwards; any other rank exchanges gradients between the two loops. */
    method GradsPhaseStep(n: nat, odd: bool, ys: seq<Score>, receivedGrads: seq<int>)
      returns (events: seq<Event>, loss: int, corrects: int)
      requires Valid()
      requires parts >= 1 && |ys| == parts
      requires |receivedGrads| == GradsRecvSize(model1Size, model2Size, odd)
      modifies Arr(AccumGradsBuffer(odd))
      ensures events == GradsPhase(Config(), odd, n, ys)
      ensures Score(loss, corrects) == TerminalSum(ExecutorOf(Config(), SecondReplica(odd)), ys)
      ensures State() == GradsAccumulated(old(State()), odd, receivedGrads)
    {
      var partsSize := batchSize / parts;
      var tm2 := if odd then trainModel1 else trainModel2;
      var r2 := if odd then Model1 else Model2;
      var peer := mpSize - 1 - localRank;
      var half := if batchSize <= n then batchSize else n;
      var fw, bw;
      if tm2.localRank == mpSize - 1 {
        var op := ReceiveAndAccumulateGrads(peer, odd, receivedGrads);
        fw, loss, corrects := ForwardLoop(r2, tm2, half, n - half, partsSize, ys);
        bw := BackwardLoop(r2, ys);
        var send := ISend(if odd then Grads2 else Grads1, peer, 0);
        events := [Comm([op, Wait(0)])] + fw + bw + [Comm([send, Wait(0)])];
      } else {
        fw, loss, corrects := ForwardLoop(r2, tm2, half, n - half, partsSize, ys);
        var ops := SendRecvGrads(odd, receivedGrads);
        bw := BackwardLoop(r2, ys);
        events := fw + [Comm(ops)] + bw;
      }
    }

    /** `run_step_allreduce` on a batch of n samples. ys1 and ys2 are what the two
        replicas' forward passes return, part by part; receivedParams and receivedGrads are
        what the partner's parameters and gradients turn out to be. */
    method RunStepAllreduce(n: nat, odd: bool, ys1: seq<Score>, ys2: seq<Score>,
                            receivedParams: seq<int>, receivedGrads: seq<int>)
      returns (trace: seq<Event>, loss: int, corrects: int)
      requires Valid()
      requires parts >= 1 && |ys1| == parts && |ys2| == parts
      requires |receivedParams| == Arr(RecvParamsBuffer(odd)).Length
      requires |receivedGrads| == GradsRecvSize(model1Size, model2Size, odd)
      modifies Arr(RecvParamsBuffer(odd)), Arr(AccumGradsBuffer(odd))
      ensures trace == AllreduceTrace(Config(), odd, n, ys1, ys2)
      ensures Score(loss, corrects) == AllreduceTotals(Config(), odd, ys1, ys2)
      ensures State() == GradsAccumulated(ParamsReceived(old(State()), odd, receivedParams), odd, receivedGrads)
    {
      var events1, loss1, corrects1 := ParamsPhaseStep(n, odd, ys1, receivedParams);
      ghost var afterParams := State();
      var events2, loss2, corrects2 := GradsPhaseStep(n, odd, ys2, receivedGrads);
      trace := events1 + events2;
      loss, corrects := loss1 + loss2, corrects1 + corrects2;
      TotalsOfPhases(Config(), odd, ys1, ys2, Score(loss1, corrects1), Score(loss2, corrects2));
    }

    /** `run_step`: the two replicas take turns running a whole executor step on
        consecutive runs of batch_size samples, two calls plus two per extra replication.
        results holds what the calls return, in call order. */
    method RunStep(n: nat, results: seq<Score>) returns (trace: seq<Event>, loss: int, correct: int)
      requires |results| == StepCount(replications)
      ensures trace == SequentialTrace(batchSize, n, results)
      ensures Score(loss, correct) == Sum(results)
    {
      StepPair(batchSize, n, 0, results[0], results[1]);
      trace := [ReplicaStep(Model1, Clip(0, n), Clip(batchSize, n), results[0])];
      loss, correct := results[0].loss, results[0].correct;
      SequentialSnoc(batchSize, n, results, 0);
      SumSnoc(results, 0);
      assert results[..0] == [];
      trace := trace + [ReplicaStep(Model2, Clip(batchSize, n), Clip(2 * batchSize, n), results[1])];
      loss, correct := loss + results[1].loss, correct + results[1].correct;
      SequentialSnoc(batchSize, n, results, 1);
      SumSnoc(results, 1);
      var extra := if replications > 1 then replications - 1 else 0;
      for times := 0 to extra
        invariant trace == SequentialTrace(batchSize, n, results[..2 * times + 2])
        invariant Score(loss, correct) == Sum(results[..2 * times + 2])
      {
        var index := 2 * times + 2;
        StepPair(batchSize, n, index, results[index], results[index + 1]);
        SequentialSnoc(batchSize, n, results, index);
        SumSnoc(results, index);
        trace := trace + [ReplicaStep(Model1, Clip(index * batchSize, n), Clip((index + 1) * batchSize, n), results[index])];
        loss, correct := loss + results[index].loss, correct + results[index].correct;
        SequentialSnoc(batchSize, n, results, index + 1);
        SumSnoc(results, index + 1);
        trace := trace + [ReplicaStep(Model2, Clip((index + 1) * batchSize, n), Clip((index + 2) * batchSize, n), results[index + 1])];
        loss, correct := loss + results[index + 1].loss, correct + results[index + 1].correct;
      }
      assert results[..|results|] == results;
    }
  }
}
