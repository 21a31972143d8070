/** The two step schedules as event traces.
    The per-replica executor (forward pass, backward pass, single-replica step) is not part
    of this model: what it returns for each call enters as a sequence of scores, and each
    call appears in the trace as an event naming the replica, the part and the sample
    range it is given. */
module Schedule {
  import opened Ranks
  import opened Exchange

  /** `train_model1` (model 1, normal layout) or `train_model2` (model 2, inverse layout). */
  datatype Replica = Model1 | Model2

  /** What the orchestrator reads of an executor. */
  datatype Executor = Executor(localRank: int, splitRank: int, splitSize: int)

  /** A loss and a correct-count, as returned per part or per step, or accumulated. */
  datatype Score = Score(loss: int, correct: int)

  datatype Event =
    | Forward(replica: Replica, part: nat, lo: nat, hi: nat, out: Score)  // forward_pass on inputs[lo:hi]
    | Backward(replica: Replica, part: nat, y: int)                         // backward_pass(y_list[part])
    | Comm(ops: seq<CommOp>)                                                // an exchange, waited to completion
    | ReplicaStep(replica: Replica, lo: nat, hi: nat, out: Score)           // run_step on inputs[lo:hi]

  /** The fixed configuration a step reads. */
  datatype Setup = Setup(
    mpSize: nat, localRank: nat, batchSize: nat, parts: nat,
    model1Size: nat, model2Size: nat, trainModel1: Executor, trainModel2: Executor)

  /** A Python slice bound on a sequence of length n: non-negative bounds are clipped to n. */
  function Clip(x: nat, n: nat): nat
  {
    if x <= n then x else n
  }

  /** Loss and corrects come out only at the last pipeline stage. */
  predicate IsTerminal(e: Executor)
  {
    e.splitRank == e.splitSize - 1
  }

  function Plus(a: Score, b: Score): Score
  {
    Score(a.loss + b.loss, a.correct + b.correct)
  }

  const NoScore := Score(0, 0)

  function Sum(ys: seq<Score>): Score
  {
    if ys == [] then NoScore else Plus(ys[0], Sum(ys[1..]))
  }

  /** What one replica's forward loop adds to the step's totals. */
  function TerminalSum(e: Executor, ys: seq<Score>): Score
  {
    if IsTerminal(e) then Sum(ys) else NoScore
  }

  // ---------------------------------------------------------------------------
  // The interleaved step (run_step_allreduce)

  /** The replica that runs first: model 2 on odd iterations, model 1 on even ones. */
  function FirstReplica(odd: bool): Replica
  {
    if odd then Model2 else Model1
  }

  function SecondReplica(odd: bool): Replica
  {
    if odd then Model1 else Model2
  }

  function ExecutorOf(s: Setup, r: Replica): Executor
  {
    if r == Model1 then s.trainModel1 else s.trainModel2
  }

  /** A replica whose local rank is the last of the group exchanges only at the edges of
      its phase. */
  predicate IsEdge(s: Setup, e: Executor)
  {
    e.localRank == s.mpSize - 1
  }

  /** Micro-part i of a batch half that starts at `base` and holds `len` samples. */
  function ForwardAt(r: Replica, base: nat, len: nat, partsSize: nat, i: nat, out: Score): Event
  {
    Forward(r, i, base + Clip(i * partsSize, len), base + Clip((i + 1) * partsSize, len), out)
  }

  function Forwards(r: Replica, base: nat, len: nat, partsSize: nat, ys: seq<Score>): (fw: seq<Event>)
    ensures |fw| == |ys|
  {
    seq(|ys|, i requires 0 <= i < |ys| => ForwardAt(r, base, len, partsSize, i, ys[i]))
  }

  /** Backward over every part in forward order, each given the output its forward kept. */
  function Backwards(r: Replica, ys: seq<Score>): (bw: seq<Event>)
    ensures |bw| == |ys|
  {
    seq(|ys|, i requires 0 <= i < |ys| => Backward(r, i, ys[i].loss))
  }

  /** One replica's phase: an edge rank receives before its forwards and sends after its
      backwards; any other rank exchanges once between forwards and backwards. */
  function PhaseTrace(edge: bool, pre: Event, mid: Event, post: Event, fw: seq<Event>, bw: seq<Event>)
    : seq<Event>
  {
    if edge then [pre] + fw + bw + [post] else fw + [mid] + bw
  }

  function PartsSize(s: Setup): nat
    requires s.parts >= 1
  {
    s.batchSize / s.parts
  }

  /** First phase: the first replica on inputs[:batch_size], exchanging parameters. */
  function ParamsPhase(s: Setup, odd: bool, n: nat, ys: seq<Score>): seq<Event>
    requires s.parts >= 1
  {
    var r := FirstReplica(odd);
    var peer := Partner(s.mpSize, s.localRank);
    PhaseTrace(
      IsEdge(s, ExecutorOf(s, r)),
      Comm([RecvParamsModel(peer, odd), Wait(0)]),
      Comm(SendRecvParamsOps(s.mpSize, s.localRank, odd)),
      Comm([SendParamsModel(peer, odd), Wait(0)]),
      Forwards(r, 0, Clip(s.batchSize, n), PartsSize(s), ys),
      Backwards(r, ys))
  }

  /** Second phase: the other replica on inputs[batch_size:], exchanging gradients. */
  function GradsPhase(s: Setup, odd: bool, n: nat, ys: seq<Score>): seq<Event>
    requires s.parts >= 1
  {
    var r := SecondReplica(odd);
    var peer := Partner(s.mpSize, s.localRank);
    var recvSize := GradsRecvSize(s.model1Size, s.model2Size, odd);
    PhaseTrace(
      IsEdge(s, ExecutorOf(s, r)),
      Comm([RecvGradsModel(recvSize, peer), Wait(0)]),
      Comm(SendRecvGradsOps(s.mpSize, s.localRank, odd, recvSize)),
      Comm([SendGradsModel(peer, odd), Wait(0)]),
      Forwards(r, Clip(s.batchSize, n), n - Clip(s.batchSize, n), PartsSize(s), ys),
      Backwards(r, ys))
  }

  /** The whole interleaved step on an input batch of n samples; ys1 and ys2 are what the
      first and second replica's forward passes return, part by part. */
  function AllreduceTrace(s: Setup, odd: bool, n: nat, ys1: seq<Score>, ys2: seq<Score>): seq<Event>
    requires s.parts >= 1
  {
    ParamsPhase(s, odd, n, ys1) + GradsPhase(s, odd, n, ys2)
  }

  function AllreduceTotals(s: Setup, odd: bool, ys1: seq<Score>, ys2: seq<Score>): Score
  {
    Plus(TerminalSum(ExecutorOf(s, FirstReplica(odd)), ys1),
         TerminalSum(ExecutorOf(s, SecondReplica(odd)), ys2))
  }

  // ---------------------------------------------------------------------------
  // The sequential step (run_step)

  /** Number of single-replica steps: two, plus two per extra replication. */
  function StepCount(replications: int): nat
  {
    if replications <= 1 then 2 else 2 * replications
  }

  /** Call j runs model 1 when j is even and model 2 when it is odd, on the j-th run of
      batch_size samples. */
  function StepAt(batchSize: nat, n: nat, j: nat, out: Score): Event
  {
    ReplicaStep(if j % 2 == 0 then Model1 else Model2, Clip(j * batchSize, n), Clip((j + 1) * batchSize, n), out)
  }

  function SequentialTrace(batchSize: nat, n: nat, results: seq<Score>): (t: seq<Event>)
    ensures |t| == |results|
  {
    seq(|results|, j requires 0 <= j < |results| => StepAt(batchSize, n, j, results[j]))
  }

  // ---------------------------------------------------------------------------
  // Appending one event (used by the loops that build the traces)

  lemma SumSnoc(ys: seq<Score>, k: nat)
    requires k < |ys|
    ensures Sum(ys[..k + 1]) == Plus(Sum(ys[..k]), ys[k])
  {
    assert ys[..k + 1] == ys[..k] + [ys[k]];
    SumAppend(ys[..k], [ys[k]]);
    SumSingle(ys[k]);
  }

  lemma ForwardsSnoc(r: Replica, base: nat, len: nat, partsSize: nat, ys: seq<Score>, k: nat)
    requires k < |ys|
    ensures Forwards(r, base, len, partsSize, ys[..k + 1])
            == Forwards(r, base, len, partsSize, ys[..k]) + [ForwardAt(r, base, len, partsSize, k, ys[k])]
  {
  }

  lemma BackwardsSnoc(r: Replica, ys: seq<Score>, k: nat)
    requires k < |ys|
    ensures Backwards(r, ys[..k + 1]) == Backwards(r, ys[..k]) + [Backward(r, k, ys[k].loss)]
  {
  }

  /** The two calls of one round: model 1 on the even call, model 2 on the next one. */
  lemma StepPair(batchSize: nat, n: nat, index: nat, a: Score, b: Score)
    requires index % 2 == 0
    ensures StepAt(batchSize, n, index, a) == ReplicaStep(Model1, Clip(index * batchSize, n), Clip((index + 1) * batchSize, n), a)
    ensures StepAt(batchSize, n, index + 1, b) == ReplicaStep(Model2, Clip((index + 1) * batchSize, n), Clip((index + 2) * batchSize, n), b)
  {
    assert (index + 1 + 1) * batchSize == (index + 2) * batchSize;
  }

  lemma SequentialSnoc(batchSize: nat, n: nat, results: seq<Score>, k: nat)
    requires k < |results|
    ensures SequentialTrace(batchSize, n, results[..k + 1])
            == SequentialTrace(batchSize, n, results[..k]) + [StepAt(batchSize, n, k, results[k])]
  {
  }

  // ---------------------------------------------------------------------------
  // Order within a phase

  /** Where everything sits in a phase. */
  lemma {:induction false} EdgePositions(pre: Event, post: Event, fw: seq<Event>, bw: seq<Event>)
    ensures var ph := [pre] + fw + bw + [post];
            |ph| == |fw| + |bw| + 2 &&
            (forall i :: 0 <= i < |fw| ==> ph[1 + i] == fw[i]) &&
            (forall i :: 0 <= i < |bw| ==> ph[|fw| + 1 + i] == bw[i]) &&
            ph[0] == pre && ph[|ph| - 1] == post
  {
    var a := [pre] + fw;
    var b := a + bw;
    var ph := b + [post];
    forall i | 0 <= i < |fw|
      ensures ph[1 + i] == fw[i]
    {
      assert ph[1 + i] == b[1 + i] == a[1 + i];
    }
    forall i | 0 <= i < |bw|
      ensures ph[|fw| + 1 + i] == bw[i]
    {
      assert ph[|fw| + 1 + i] == b[|a| + i];
    }
    assert ph[0] == b[0] == a[0];
  }

  lemma {:induction false} MidPositions(mid: Event, fw: seq<Event>, bw: seq<Event>)
    ensures var ph := fw + [mid] + bw;
            |ph| == |fw| + |bw| + 1 &&
            (forall i :: 0 <= i < |fw| ==> ph[i] == fw[i]) &&
            (forall i :: 0 <= i < |bw| ==> ph[|fw| + 1 + i] == bw[i]) &&
            ph[|fw|] == mid
  {
    var a := fw + [mid];
    var ph := a + bw;
    forall i | 0 <= i < |fw|
      ensures ph[i] == fw[i]
    {
      assert ph[i] == a[i];
    }
    forall i | 0 <= i < |bw|
      ensures ph[|fw| + 1 + i] == bw[i]
    {
      assert ph[|a| + i] == bw[i];
    }
    assert ph[|fw|] == a[|fw|];
  }

  /** A phase built from a forward loop's events fw and a backward loop's events bw: an
      edge rank runs `pre` right before the first forward and `post` right after the last
      backward; any other rank runs `mid` between the last forward and the first backward.
      Forward i and backward i keep their loop order. */
  lemma {:induction false} PhaseOrder(edge: bool, pre: Event, mid: Event, post: Event, fw: seq<Event>, bw: seq<Event>)
    ensures var ph := PhaseTrace(edge, pre, mid, post, fw, bw);
            var o := if edge then 1 else 0;
            |ph| == |fw| + |bw| + (if edge then 2 else 1) &&
            (forall i :: 0 <= i < |fw| ==> ph[o + i] == fw[i]) &&
            (forall i :: 0 <= i < |bw| ==> ph[|fw| + 1 + i] == bw[i]) &&
            (edge ==> ph[0] == pre && ph[|ph| - 1] == post) &&
            (!edge ==> ph[|fw|] == mid)
  {
    if edge {
      EdgePositions(pre, post, fw, bw);
    } else {
      MidPositions(mid, fw, bw);
    }
  }

  /** Nothing else is in a phase: its exchanges are the ones placed there, and its
      forwards and backwards come from the loops. */
  lemma {:induction false} PhaseShape(edge: bool, pre: Event, mid: Event, post: Event, fw: seq<Event>, bw: seq<Event>)
    requires pre.Comm? && mid.Comm? && post.Comm?
    requires forall e :: e in fw ==> e.Forward?
    requires forall e :: e in bw ==> e.Backward?
    ensures var ph := PhaseTrace(edge, pre, mid, post, fw, bw);
            var o := if edge then 1 else 0;
            |ph| == |fw| + |bw| + (if edge then 2 else 1) &&
            (forall i :: 0 <= i < |fw| ==> ph[o + i] == fw[i]) &&
            (forall i :: 0 <= i < |bw| ==> ph[|fw| + 1 + i] == bw[i]) &&
            (edge ==> ph[0] == pre && ph[|ph| - 1] == post) &&
            (!edge ==> ph[|fw|] == mid) &&
            (forall k :: 0 <= k < |ph| && ph[k].Comm? ==>
               (edge && (k == 0 || k == |ph| - 1)) || (!edge && k == |fw|)) &&
            (forall k :: 0 <= k < |ph| && ph[k].Forward? ==> ph[k] in fw) &&
            (forall k :: 0 <= k < |ph| && ph[k].Backward? ==> ph[k] in bw)
  {
    PhaseOrder(edge, pre, mid, post, fw, bw);
    var ph := PhaseTrace(edge, pre, mid, post, fw, bw);
    if edge {
      forall k | 0 <= k < |ph|
        ensures ph[k].Comm? ==> k == 0 || k == |ph| - 1
        ensures ph[k].Forward? ==> ph[k] in fw
        ensures ph[k].Backward? ==> ph[k] in bw
      {
        if 1 <= k < 1 + |fw| {
          assert ph[k] == fw[k - 1];
          assert fw[k - 1] in fw;
        } else if 1 + |fw| <= k < 1 + |fw| + |bw| {
          assert ph[k] == bw[k - 1 - |fw|];
          assert bw[k - 1 - |fw|] in bw;
        }
      }
    } else {
      forall k | 0 <= k < |ph|
        ensures ph[k].Comm? ==> k == |fw|
        ensures ph[k].Forward? ==> ph[k] in fw
        ensures ph[k].Backward? ==> ph[k] in bw
      {
        if k < |fw| {
          assert ph[k] == fw[k];
          assert fw[k] in fw;
        } else if |fw| < k {
          assert ph[k] == bw[k - 1 - |fw|];
          assert bw[k - 1 - |fw|] in bw;
        }
      }
    }
  }

  /** The forward loop emits only forwards and the backward loop only backwards, all of
      the replica they run. */
  lemma LoopEvents(r: Replica, base: nat, len: nat, partsSize: nat, ys: seq<Score>)
    ensures forall e :: e in Forwards(r, base, len, partsSize, ys) ==> e.Forward? && e.replica == r
    ensures forall e :: e in Backwards(r, ys) ==> e.Backward? && e.replica == r
  {
    var fw := Forwards(r, base, len, partsSize, ys);
    var bw := Backwards(r, ys);
    forall e | e in fw
      ensures e.Forward? && e.replica == r
    {
      var i :| 0 <= i < |fw| && fw[i] == e;
    }
    forall e | e in bw
      ensures e.Backward? && e.replica == r
    {
      var i :| 0 <= i < |bw| && bw[i] == e;
    }
  }

  /** A phase over |ys| parts holds 2|ys| loop events plus its exchanges, at the ends or
      right after the last forward. */
  lemma {:induction false} PhaseEnds(edge: bool, pre: Event, mid: Event, post: Event,
                                     r: Replica, base: nat, len: nat, partsSize: nat, ys: seq<Score>)
    ensures var ph := PhaseTrace(edge, pre, mid, post, Forwards(r, base, len, partsSize, ys), Backwards(r, ys));
            |ph| == 2 * |ys| + (if edge then 2 else 1) &&
            (edge ==> ph[0] == pre && ph[|ph| - 1] == post) &&
            (!edge ==> ph[|ys|] == mid)
  {
    PhaseOrder(edge, pre, mid, post, Forwards(r, base, len, partsSize, ys), Backwards(r, ys));
  }

  /** In such a phase the exchanges sit only at the edges (edge rank) or only between the
      forward and the backward loop (other ranks). */
  lemma {:induction false} PhaseCommPositions(edge: bool, pre: Event, mid: Event, post: Event,
                                              r: Replica, base: nat, len: nat, partsSize: nat, ys: seq<Score>)
    requires pre.Comm? && mid.Comm? && post.Comm?
    ensures var ph := PhaseTrace(edge, pre, mid, post, Forwards(r, base, len, partsSize, ys), Backwards(r, ys));
            forall k :: 0 <= k < |ph| && ph[k].Comm? ==>
              (edge && (k == 0 || k == |ph| - 1)) || (!edge && k == |ys|)
  {
    LoopEvents(r, base, len, partsSize, ys);
    PhaseShape(edge, pre, mid, post, Forwards(r, base, len, partsSize, ys), Backwards(r, ys));
  }

  /** The exchanges of the first phase: a last-rank replica receives into the parity's
      receive buffer before its first forward and sends the parity's send buffer after its
      last backward, both with the partner; any other replica runs `send_recv_params`
      between its last forward and its first backward. No other exchange happens. */
  lemma {:induction false} ParamsPhaseExchanges(s: Setup, odd: bool, n: nat, ys: seq<Score>)
    requires s.parts >= 1
    ensures var ph := ParamsPhase(s, odd, n, ys);
            var peer := s.mpSize - 1 - s.localRank;
            var edge := ExecutorOf(s, FirstReplica(odd)).localRank == s.mpSize - 1;
            |ph| == 2 * |ys| + (if edge then 2 else 1) &&
            (edge ==> ph[0] == Comm([IRecv(Flat(RecvParamsBuffer(odd)), peer, 0), Wait(0)]) &&
                      ph[|ph| - 1] == Comm([ISend(SendParamsBuffer(odd), peer, 0), Wait(0)])) &&
            (!edge ==> ph[|ys|] == Comm(SendRecvParamsOps(s.mpSize, s.localRank, odd))) &&
            (forall k :: 0 <= k < |ph| && ph[k].Comm? ==>
               (edge && (k == 0 || k == |ph| - 1)) || (!edge && k == |ys|))
  {
    var peer := Partner(s.mpSize, s.localRank);
    var r := FirstReplica(odd);
    var edge := IsEdge(s, ExecutorOf(s, r));
    var pre := Comm([RecvParamsModel(peer, odd), Wait(0)]);
    var mid := Comm(SendRecvParamsOps(s.mpSize, s.localRank, odd));
    var post := Comm([SendParamsModel(peer, odd), Wait(0)]);
    PhaseEnds(edge, pre, mid, post, r, 0, Clip(s.batchSize, n), PartsSize(s), ys);
    PhaseCommPositions(edge, pre, mid, post, r, 0, Clip(s.batchSize, n), PartsSize(s), ys);
  }

  /** The exchanges of the second phase: a last-rank replica receives gradients into a
      scratch buffer of the other replica's size before its first forward and sends the
      parity's gradient buffer after its last backward; any other replica runs
      `send_recv_grads` between its loops. No other exchange happens. */
  lemma {:induction false} GradsPhaseExchanges(s: Setup, odd: bool, n: nat, ys: seq<Score>)
    requires s.parts >= 1
    ensures var ph := GradsPhase(s, odd, n, ys);
            var peer := s.mpSize - 1 - s.localRank;
            var edge := ExecutorOf(s, SecondReplica(odd)).localRank == s.mpSize - 1;
            var recvSize := if odd then s.model1Size else s.model2Size;
            |ph| == 2 * |ys| + (if edge then 2 else 1) &&
            (edge ==> ph[0] == Comm([IRecv(Scratch(recvSize), peer, 0), Wait(0)]) &&
                      ph[|ph| - 1] == Comm([ISend(SendGradsBuffer(odd), peer, 0), Wait(0)])) &&
            (!edge ==> ph[|ys|] == Comm(SendRecvGradsOps(s.mpSize, s.localRank, odd, recvSize))) &&
            (forall k :: 0 <= k < |ph| && ph[k].Comm? ==>
               (edge && (k == 0 || k == |ph| - 1)) || (!edge && k == |ys|))
  {
    var peer := Partner(s.mpSize, s.localRank);
    var r := SecondReplica(odd);
    var recvSize := GradsRecvSize(s.model1Size, s.model2Size, odd);
    var edge := IsEdge(s, ExecutorOf(s, r));
    var pre := Comm([RecvGradsModel(recvSize, peer), Wait(0)]);
    var mid := Comm(SendRecvGradsOps(s.mpSize, s.localRank, odd, recvSize));
    var post := Comm([SendGradsModel(peer, odd), Wait(0)]);
    var base := Clip(s.batchSize, n);
    PhaseEnds(edge, pre, mid, post, r, base, n - base, PartsSize(s), ys);
    PhaseCommPositions(edge, pre, mid, post, r, base, n - base, PartsSize(s), ys);
  }

  /** Every forward and backward of a phase belongs to the replica whose loops built it. */
  lemma {:induction false} PhaseReplica(edge: bool, pre: Event, mid: Event, post: Event,
                                        r: Replica, base: nat, len: nat, partsSize: nat, ys: seq<Score>)
    requires pre.Comm? && mid.Comm? && post.Comm?
    ensures var ph := PhaseTrace(edge, pre, mid, post, Forwards(r, base, len, partsSize, ys), Backwards(r, ys));
            forall k :: 0 <= k < |ph| && (ph[k].Forward? || ph[k].Backward?) ==> ph[k].replica == r
  {
    LoopEvents(r, base, len, partsSize, ys);
    PhaseShape(edge, pre, mid, post, Forwards(r, base, len, partsSize, ys), Backwards(r, ys));
  }

  /** Two traces run one after the other keep their replicas apart. */
  lemma {:induction false} ConcatReplicas(p1: seq<Event>, p2: seq<Event>, r1: Replica, r2: Replica)
    requires forall k :: 0 <= k < |p1| && (p1[k].Forward? || p1[k].Backward?) ==> p1[k].replica == r1
    requires forall k :: 0 <= k < |p2| && (p2[k].Forward? || p2[k].Backward?) ==> p2[k].replica == r2
    ensures var t := p1 + p2;
            (forall k :: 0 <= k < |p1| && (t[k].Forward? || t[k].Backward?) ==> t[k].replica == r1) &&
            (forall k :: |p1| <= k < |t| && (t[k].Forward? || t[k].Backward?) ==> t[k].replica == r2)
  {
    var t := p1 + p2;
    forall k | |p1| <= k < |t| && (t[k].Forward? || t[k].Backward?)
      ensures t[k].replica == r2
    {
      assert t[k] == p2[k - |p1|];
    }
  }

  /** Which replica runs first follows the parity, and every forward and backward of the
      first phase belongs to it, every one of the second phase to the other replica. */
  lemma {:induction false} AllreduceReplicaOrder(s: Setup, odd: bool, n: nat, ys1: seq<Score>, ys2: seq<Score>)
    requires s.parts >= 1
    ensures FirstReplica(odd) == (if odd then Model2 else Model1)
    ensures FirstReplica(odd) != SecondReplica(odd)
    ensures var t := AllreduceTrace(s, odd, n, ys1, ys2);
            var k1 := |ParamsPhase(s, odd, n, ys1)|;
            k1 <= |t| &&
            (forall k :: 0 <= k < k1 && (t[k].Forward? || t[k].Backward?) ==> t[k].replica == FirstReplica(odd)) &&
            (forall k :: k1 <= k < |t| && (t[k].Forward? || t[k].Backward?) ==> t[k].replica == SecondReplica(odd))
  {
    var peer := Partner(s.mpSize, s.localRank);
    var recvSize := GradsRecvSize(s.model1Size, s.model2Size, odd);
    var r1, r2 := FirstReplica(odd), SecondReplica(odd);
    PhaseReplica(IsEdge(s, ExecutorOf(s, r1)),
      Comm([RecvParamsModel(peer, odd), Wait(0)]),
      Comm(SendRecvParamsOps(s.mpSize, s.localRank, odd)),
      Comm([SendParamsModel(peer, odd), Wait(0)]), r1, 0, Clip(s.batchSize, n), PartsSize(s), ys1);
    PhaseReplica(IsEdge(s, ExecutorOf(s, r2)),
      Comm([RecvGradsModel(recvSize, peer), Wait(0)]),
      Comm(SendRecvGradsOps(s.mpSize, s.localRank, odd, recvSize)),
      Comm([SendGradsModel(peer, odd), Wait(0)]), r2, Clip(s.batchSize, n), n - Clip(s.batchSize, n), PartsSize(s), ys2);
    ConcatReplicas(ParamsPhase(s, odd, n, ys1), GradsPhase(s, odd, n, ys2), r1, r2);
  }

  // ---------------------------------------------------------------------------
  // Batch slicing

  lemma {:induction false} MulMonotone(a: nat, b: nat, c: nat)
    requires a <= b
    ensures a * c <= b * c
    decreases b - a
  {
    if a < b {
      MulMonotone(a, b - 1, c);
    }
  }

  /** Micro-parts of a half that holds at least parts * partsSize samples: part i reads
      [base + i*partsSize, base + (i+1)*partsSize), inside the half. */
  lemma {:induction false} ForwardRanges(r: Replica, base: nat, len: nat, partsSize: nat, ys: seq<Score>)
    requires |ys| * partsSize <= len
    ensures forall e :: e in Forwards(r, base, len, partsSize, ys) ==>
              e.Forward? && e.part < |ys| &&
              e.lo == base + e.part * partsSize && e.hi == base + (e.part + 1) * partsSize &&
              e.hi <= base + |ys| * partsSize <= base + len
  {
    var fw := Forwards(r, base, len, partsSize, ys);
    forall e | e in fw
      ensures e.Forward? && e.part < |ys|
      ensures e.lo == base + e.part * partsSize && e.hi == base + (e.part + 1) * partsSize
      ensures e.hi <= base + |ys| * partsSize
    {
      var i :| 0 <= i < |fw| && fw[i] == e;
      MulMonotone(i, i + 1, partsSize);
      MulMonotone(i + 1, |ys|, partsSize);
    }
  }

  /** Micro-parts never overlap and come in input order, clipped or not. */
  lemma ForwardsDisjoint(r: Replica, base: nat, len: nat, partsSize: nat, ys: seq<Score>)
    ensures var fw := Forwards(r, base, len, partsSize, ys);
            forall i, j :: 0 <= i < j < |ys| ==> fw[i].lo <= fw[i].hi <= fw[j].lo <= fw[j].hi
  {
    var fw := Forwards(r, base, len, partsSize, ys);
    forall i, j | 0 <= i < j < |ys|
      ensures fw[i].lo <= fw[i].hi <= fw[j].lo <= fw[j].hi
    {
      MulMonotone(i, i + 1, partsSize);
      MulMonotone(i + 1, j, partsSize);
      MulMonotone(j, j + 1, partsSize);
    }
  }

  /** Every forward of a phase is one of its loop's parts, with that part's range. */
  lemma {:induction false} PhaseForwardRanges(edge: bool, pre: Event, mid: Event, post: Event,
                                              r: Replica, base: nat, len: nat, partsSize: nat, ys: seq<Score>)
    requires pre.Comm? && mid.Comm? && post.Comm?
    requires |ys| * partsSize <= len
    ensures var ph := PhaseTrace(edge, pre, mid, post, Forwards(r, base, len, partsSize, ys), Backwards(r, ys));
            forall k :: 0 <= k < |ph| && ph[k].Forward? ==>
              ph[k].replica == r && ph[k].part < |ys| &&
              ph[k].lo == base + ph[k].part * partsSize && ph[k].hi == base + (ph[k].part + 1) * partsSize &&
              ph[k].hi <= base + |ys| * partsSize <= base + len
  {
    LoopEvents(r, base, len, partsSize, ys);
    ForwardRanges(r, base, len, partsSize, ys);
    PhaseShape(edge, pre, mid, post, Forwards(r, base, len, partsSize, ys), Backwards(r, ys));
  }

  lemma ParamsPhaseSlices(s: Setup, odd: bool, n: nat, ys: seq<Score>)
    requires s.parts >= 1 && |ys| == s.parts
    requires n >= s.batchSize
    ensures var ph := ParamsPhase(s, odd, n, ys);
            var ps := PartsSize(s);
            forall k :: 0 <= k < |ph| && ph[k].Forward? ==>
              ph[k].replica == FirstReplica(odd) && ph[k].part < s.parts &&
              ph[k].lo == ph[k].part * ps && ph[k].hi == (ph[k].part + 1) * ps && ph[k].hi <= s.batchSize
  {
    var peer := Partner(s.mpSize, s.localRank);
    var r := FirstReplica(odd);
    assert s.parts * PartsSize(s) <= s.batchSize;
    PhaseForwardRanges(IsEdge(s, ExecutorOf(s, r)),
      Comm([RecvParamsModel(peer, odd), Wait(0)]),
      Comm(SendRecvParamsOps(s.mpSize, s.localRank, odd)),
      Comm([SendParamsModel(peer, odd), Wait(0)]), r, 0, Clip(s.batchSize, n), PartsSize(s), ys);
  }

  lemma GradsPhaseSlices(s: Setup, odd: bool, n: nat, ys: seq<Score>)
    requires s.parts >= 1 && |ys| == s.parts
    requires n >= 2 * s.batchSize
    ensures var ph := GradsPhase(s, odd, n, ys);
            var ps := PartsSize(s);
            forall k :: 0 <= k < |ph| && ph[k].Forward? ==>
              ph[k].replica == SecondReplica(odd) && ph[k].part < s.parts &&
              ph[k].lo == s.batchSize + ph[k].part * ps && ph[k].hi == s.batchSize + (ph[k].part + 1) * ps &&
              ph[k].hi <= 2 * s.batchSize
  {
    var peer := Partner(s.mpSize, s.localRank);
    var recvSize := GradsRecvSize(s.model1Size, s.model2Size, odd);
    var r := SecondReplica(odd);
    var ps := PartsSize(s);
    assert Clip(s.batchSize, n) == s.batchSize;
    assert |ys| * ps <= n - s.batchSize by {
      assert s.parts * ps <= s.batchSize;
    }
    PhaseForwardRanges(IsEdge(s, ExecutorOf(s, r)),
      Comm([RecvGradsModel(recvSize, peer), Wait(0)]),
      Comm(SendRecvGradsOps(s.mpSize, s.localRank, odd, recvSize)),
      Comm([SendGradsModel(peer, odd), Wait(0)]), r, Clip(s.batchSize, n), n - Clip(s.batchSize, n), PartsSize(s), ys);
    assert s.parts * ps <= s.batchSize;
  }

  /** Slicing of the interleaved step on a batch of 2 * batch_size samples: the first
      replica's part p reads [p*ps, (p+1)*ps) of inputs[:batch_size] and the second
      replica's reads [batch_size + p*ps, batch_size + (p+1)*ps) of inputs[batch_size:],
      with ps = batch_size / parts; so distinct parts of one replica never overlap and the
      two replicas read disjoint halves. */
  lemma {:induction false} AllreduceSlices(s: Setup, odd: bool, n: nat, ys1: seq<Score>, ys2: seq<Score>)
    requires s.parts >= 1 && |ys1| == s.parts && |ys2| == s.parts
    requires n >= 2 * s.batchSize
    ensures var t := AllreduceTrace(s, odd, n, ys1, ys2);
            var ps := PartsSize(s);
            forall k :: 0 <= k < |t| && t[k].Forward? ==>
              t[k].part < s.parts &&
              (t[k].replica == FirstReplica(odd) ==>
                 t[k].lo == t[k].part * ps && t[k].hi == (t[k].part + 1) * ps && t[k].hi <= s.batchSize) &&
              (t[k].replica == SecondReplica(odd) ==>
                 t[k].lo == s.batchSize + t[k].part * ps && t[k].hi == s.batchSize + (t[k].part + 1) * ps &&
                 t[k].hi <= 2 * s.batchSize)
  {
    var t := AllreduceTrace(s, odd, n, ys1, ys2);
    var p1 := ParamsPhase(s, odd, n, ys1);
    var p2 := GradsPhase(s, odd, n, ys2);
    ParamsPhaseSlices(s, odd, n, ys1);
    GradsPhaseSlices(s, odd, n, ys2);
    forall k | 0 <= k < |t| && t[k].Forward?
      ensures k < |p1| ==> t[k] == p1[k]
      ensures k >= |p1| ==> t[k] == p2[k - |p1|]
    {
    }
  }

  // ---------------------------------------------------------------------------
  // Totals

  /** A forward of a replica whose executor is at the last pipeline stage: what it
      returns is added to the step's totals. */
  predicate Counts(s: Setup, e: Event)
  {
    e.Forward? && IsTerminal(ExecutorOf(s, e.replica))
  }

  /** What the counted forwards of a trace returned, in trace order. */
  function CountedOutputs(s: Setup, t: seq<Event>): seq<Score>
  {
    if t == [] then []
    else (if Counts(s, t[0]) then [t[0].out] else []) + CountedOutputs(s, t[1..])
  }

  lemma {:induction false} SumAppend(a: seq<Score>, b: seq<Score>)
    ensures Sum(a + b) == Plus(Sum(a), Sum(b))
    decreases |a|
  {
    if a == [] {
      assert a + b == b;
    } else {
      assert (a + b)[1..] == a[1..] + b;
      SumAppend(a[1..], b);
    }
  }

  lemma SumSingle(x: Score)
    ensures Sum([x]) == x
  {
    assert [x][1..] == [];
  }

  lemma {:induction false} CountedAppend(s: Setup, a: seq<Event>, b: seq<Event>)
    ensures CountedOutputs(s, a + b) == CountedOutputs(s, a) + CountedOutputs(s, b)
    decreases |a|
  {
    if a == [] {
      assert a + b == b;
    } else {
      assert (a + b)[0] == a[0];
      assert (a + b)[1..] == a[1..] + b;
      CountedAppend(s, a[1..], b);
    }
  }

  lemma CountedSingle(s: Setup, e: Event)
    ensures CountedOutputs(s, [e]) == if Counts(s, e) then [e.out] else []
  {
    assert [e][1..] == [];
  }

  lemma {:induction false} CountedForwards(s: Setup, r: Replica, base: nat, len: nat, partsSize: nat, ys: seq<Score>)
    ensures CountedOutputs(s, Forwards(r, base, len, partsSize, ys)) == if IsTerminal(ExecutorOf(s, r)) then ys else []
    decreases |ys|
  {
    if ys == [] {
      assert Forwards(r, base, len, partsSize, ys) == [];
    } else {
      var m := |ys| - 1;
      var x := ForwardAt(r, base, len, partsSize, m, ys[m]);
      assert ys[..m + 1] == ys;
      ForwardsSnoc(r, base, len, partsSize, ys, m);
      CountedForwards(s, r, base, len, partsSize, ys[..m]);
      CountedAppend(s, Forwards(r, base, len, partsSize, ys[..m]), [x]);
      CountedSingle(s, x);
    }
  }

  lemma {:induction false} CountedBackwards(s: Setup, r: Replica, ys: seq<Score>)
    ensures CountedOutputs(s, Backwards(r, ys)) == []
    decreases |ys|
  {
    if ys == [] {
      assert Backwards(r, ys) == [];
    } else {
      var m := |ys| - 1;
      var x := Backward(r, m, ys[m].loss);
      assert ys[..m + 1] == ys;
      BackwardsSnoc(r, ys, m);
      CountedBackwards(s, r, ys[..m]);
      CountedAppend(s, Backwards(r, ys[..m]), [x]);
      CountedSingle(s, x);
    }
  }

  /** An exchange between two stretches of a trace counts for nothing. */
  lemma {:induction false} CountedAroundComm(s: Setup, a: seq<Event>, c: Event, b: seq<Event>)
    requires c.Comm?
    ensures CountedOutputs(s, a + [c] + b) == CountedOutputs(s, a) + CountedOutputs(s, b)
  {
    CountedAppend(s, a + [c], b);
    CountedAppend(s, a, [c]);
    CountedSingle(s, c);
  }

  /** Exchanges at both ends of a trace count for nothing. */
  lemma {:induction false} CountedBetweenComms(s: Setup, c: Event, m: seq<Event>, d: Event)
    requires c.Comm? && d.Comm?
    ensures CountedOutputs(s, [c] + m + [d]) == CountedOutputs(s, m)
  {
    CountedAppend(s, [c] + m, [d]);
    CountedAppend(s, [c], m);
    CountedSingle(s, c);
    CountedSingle(s, d);
  }

  /** Exchanges count for nothing: a phase counts what its loops count. */
  lemma {:induction false} CountedPhase(s: Setup, edge: bool, pre: Event, mid: Event, post: Event,
                                        fw: seq<Event>, bw: seq<Event>)
    requires pre.Comm? && mid.Comm? && post.Comm?
    ensures CountedOutputs(s, PhaseTrace(edge, pre, mid, post, fw, bw))
            == CountedOutputs(s, fw) + CountedOutputs(s, bw)
  {
    if edge {
      assert [pre] + fw + bw + [post] == [pre] + (fw + bw) + [post];
      CountedBetweenComms(s, pre, fw + bw, post);
      CountedAppend(s, fw, bw);
    } else {
      CountedAroundComm(s, fw, mid, bw);
    }
  }

  lemma CountedLoops(s: Setup, edge: bool, pre: Event, mid: Event, post: Event,
                     r: Replica, base: nat, len: nat, partsSize: nat, ys: seq<Score>)
    requires pre.Comm? && mid.Comm? && post.Comm?
    ensures CountedOutputs(s, PhaseTrace(edge, pre, mid, post, Forwards(r, base, len, partsSize, ys), Backwards(r, ys)))
            == if IsTerminal(ExecutorOf(s, r)) then ys else []
  {
    CountedForwards(s, r, base, len, partsSize, ys);
    CountedBackwards(s, r, ys);
    CountedPhase(s, edge, pre, mid, post, Forwards(r, base, len, partsSize, ys), Backwards(r, ys));
  }

  lemma ParamsPhaseCounted(s: Setup, odd: bool, n: nat, ys: seq<Score>)
    requires s.parts >= 1
    ensures CountedOutputs(s, ParamsPhase(s, odd, n, ys))
            == if IsTerminal(ExecutorOf(s, FirstReplica(odd))) then ys else []
  {
    var peer := Partner(s.mpSize, s.localRank);
    var r := FirstReplica(odd);
    CountedLoops(s, IsEdge(s, ExecutorOf(s, r)),
      Comm([RecvParamsModel(peer, odd), Wait(0)]),
      Comm(SendRecvParamsOps(s.mpSize, s.localRank, odd)),
      Comm([SendParamsModel(peer, odd), Wait(0)]), r, 0, Clip(s.batchSize, n), PartsSize(s), ys);
  }

  lemma GradsPhaseCounted(s: Setup, odd: bool, n: nat, ys: seq<Score>)
    requires s.parts >= 1
    ensures CountedOutputs(s, GradsPhase(s, odd, n, ys))
            == if IsTerminal(ExecutorOf(s, SecondReplica(odd))) then ys else []
  {
    var peer := Partner(s.mpSize, s.localRank);
    var recvSize := GradsRecvSize(s.model1Size, s.model2Size, odd);
    var r := SecondReplica(odd);
    CountedLoops(s, IsEdge(s, ExecutorOf(s, r)),
      Comm([RecvGradsModel(recvSize, peer), Wait(0)]),
      Comm(SendRecvGradsOps(s.mpSize, s.localRank, odd, recvSize)),
      Comm([SendGradsModel(peer, odd), Wait(0)]), r, Clip(s.batchSize, n), n - Clip(s.batchSize, n), PartsSize(s), ys);
  }

  /** The counted forwards of the interleaved step return exactly ys1 (when the first
      replica is at the last stage) followed by ys2 (when the second is), and the step's
      totals are their sum. */
  lemma {:induction false} AllreduceTotalsFromTrace(s: Setup, odd: bool, n: nat, ys1: seq<Score>, ys2: seq<Score>)
    requires s.parts >= 1
    ensures CountedOutputs(s, AllreduceTrace(s, odd, n, ys1, ys2))
            == (if IsTerminal(ExecutorOf(s, FirstReplica(odd))) then ys1 else []) +
               (if IsTerminal(ExecutorOf(s, SecondReplica(odd))) then ys2 else [])
    ensures AllreduceTotals(s, odd, ys1, ys2) == Sum(CountedOutputs(s, AllreduceTrace(s, odd, n, ys1, ys2)))
  {
    ParamsPhaseCounted(s, odd, n, ys1);
    GradsPhaseCounted(s, odd, n, ys2);
    CountedAppend(s, ParamsPhase(s, odd, n, ys1), GradsPhase(s, odd, n, ys2));
    var c1: seq<Score> := if IsTerminal(ExecutorOf(s, FirstReplica(odd))) then ys1 else [];
    var c2: seq<Score> := if IsTerminal(ExecutorOf(s, SecondReplica(odd))) then ys2 else [];
    SumAppend(c1, c2);
  }

  /** When neither replica's executor is at the last pipeline stage the step returns
      (0, 0), whatever the forwards returned. */
  lemma AllreduceTotalsNonTerminal(s: Setup, odd: bool, ys1: seq<Score>, ys2: seq<Score>)
    requires !IsTerminal(s.trainModel1) && !IsTerminal(s.trainModel2)
    ensures AllreduceTotals(s, odd, ys1, ys2) == Score(0, 0)
  {
    NonTerminalSums(ExecutorOf(s, FirstReplica(odd)), ExecutorOf(s, SecondReplica(odd)), ys1, ys2);
  }

  lemma NonTerminalSums(e1: Executor, e2: Executor, ys1: seq<Score>, ys2: seq<Score>)
    requires !IsTerminal(e1) && !IsTerminal(e2)
    ensures Plus(TerminalSum(e1, ys1), TerminalSum(e2, ys2)) == Score(0, 0)
  {
  }

  // ---------------------------------------------------------------------------
  // The sequential step

  /** On a batch of at least |results| * batch_size samples, call j reads exactly
      [j*batch_size, (j+1)*batch_size): consecutive calls read adjacent slices, the calls
      cover [0, |results| * batch_size) from 0, and they alternate model 1, model 2. */
  lemma {:induction false} SequentialSlices(batchSize: nat, n: nat, results: seq<Score>)
    requires n >= |results| * batchSize
    ensures var t := SequentialTrace(batchSize, n, results);
            (forall j :: 0 <= j < |t| ==>
               t[j].lo == j * batchSize && t[j].hi == (j + 1) * batchSize &&
               t[j].replica == (if j % 2 == 0 then Model1 else Model2) &&
               t[j].out == results[j]) &&
            (forall j :: 0 <= j < |t| - 1 ==> t[j].hi == t[j + 1].lo) &&
            (|t| > 0 ==> t[0].lo == 0 && t[|t| - 1].hi == |t| * batchSize)
  {
    var t := SequentialTrace(batchSize, n, results);
    forall j | 0 <= j < |t|
      ensures t[j].lo == j * batchSize && t[j].hi == (j + 1) * batchSize
    {
      MulMonotone(j, j + 1, batchSize);
      MulMonotone(j + 1, |results|, batchSize);
    }
  }

  /** run_step makes two calls, then two more per replication beyond the first, so with
      r replications it reads 2r consecutive slices when r >= 1. */
  lemma StepCountCovers(replications: int)
    ensures StepCount(replications) % 2 == 0 && StepCount(replications) >= 2
    ensures replications >= 1 ==> StepCount(replications) == 2 * replications
  {
  }
}
