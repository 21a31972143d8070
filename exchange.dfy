/** Cross-replica exchange bookkeeping: which of the four flat buffers a parity selects,
    which non-blocking operations an exchange issues and in what order, and how the
    buffers change once the transfers complete. Message delivery itself is not modelled:
    the data a receive delivers is an input. */
module Exchange {
  import opened Ranks

  /** The four flat buffers a rank holds: parameters and gradients of each replica. */
  datatype Buf = Params1 | Params2 | Grads1 | Grads2

  /** Contents of the four buffers. */
  datatype Buffers = Buffers(params1: seq<int>, params2: seq<int>, grads1: seq<int>, grads2: seq<int>)
  {
    function Get(b: Buf): seq<int>
    {
      match b
      case Params1 => params1
      case Params2 => params2
      case Grads1 => grads1
      case Grads2 => grads2
    }

    function Set(b: Buf, v: seq<int>): (r: Buffers)
      ensures r.Get(b) == v
      ensures forall c :: c != b ==> r.Get(c) == Get(c)
    {
      match b
      case Params1 => this.(params1 := v)
      case Params2 => this.(params2 := v)
      case Grads1 => this.(grads1 := v)
      case Grads2 => this.(grads2 := v)
    }
  }

  /** Where a receive lands: one of the flat buffers, or a fresh zeroed scratch buffer. */
  datatype Target = Flat(buf: Buf) | Scratch(size: nat)

  /** A non-blocking send, a non-blocking receive, or a wait on the request issued
      `request`-th within the same exchange. */
  datatype CommOp =
    | ISend(buf: Buf, peer: int, tag: nat)
    | IRecv(into: Target, peer: int, tag: nat)
    | Wait(request: nat)

  /** Every transfer of this core uses message tag 0. */
  const ExchangeTag: nat := 0

  // ---------------------------------------------------------------------------
  // Parity selection

  /** Odd iterations send model 2's parameters, even ones model 1's. */
  function SendParamsBuffer(odd: bool): Buf
  {
    if odd then Params2 else Params1
  }

  /** Odd iterations receive into model 1's parameters, even ones into model 2's. */
  function RecvParamsBuffer(odd: bool): Buf
  {
    if odd then Params1 else Params2
  }

  /** Odd iterations send model 2's gradients, even ones model 1's. */
  function SendGradsBuffer(odd: bool): Buf
  {
    if odd then Grads2 else Grads1
  }

  /** Odd iterations add the received gradients into model 1's, even ones into model 2's. */
  function AccumGradsBuffer(odd: bool): Buf
  {
    if odd then Grads1 else Grads2
  }

  /** Length of the scratch buffer a gradient receive allocates. */
  function GradsRecvSize(model1Size: nat, model2Size: nat, odd: bool): nat
  {
    if odd then model1Size else model2Size
  }

  /** Parity selection: a rank never receives into the buffer it is sending, the buffer it
      receives into on one parity is the one it sends on the other, and gradients are
      accumulated into the replica whose parameters arrive on the same parity. */
  lemma ParitySelection(odd: bool)
    ensures SendParamsBuffer(odd) != RecvParamsBuffer(odd)
    ensures RecvParamsBuffer(odd) == SendParamsBuffer(!odd)
    ensures SendGradsBuffer(odd) != AccumGradsBuffer(odd)
    ensures AccumGradsBuffer(odd) == SendGradsBuffer(!odd)
    ensures (RecvParamsBuffer(odd) == Params1) == (AccumGradsBuffer(odd) == Grads1)
  {
  }

  // ---------------------------------------------------------------------------
  // The operations an exchange issues

  function SendParamsModel(sendRank: int, odd: bool): CommOp
  {
    ISend(SendParamsBuffer(odd), sendRank, ExchangeTag)
  }

  function RecvParamsModel(recvRank: int, odd: bool): CommOp
  {
    IRecv(Flat(RecvParamsBuffer(odd)), recvRank, ExchangeTag)
  }

  function SendGradsModel(sendRank: int, odd: bool): CommOp
  {
    ISend(SendGradsBuffer(odd), sendRank, ExchangeTag)
  }

  /** The gradient receive always lands in a scratch buffer, whatever the parity. */
  function RecvGradsModel(size: nat, recvRank: int): CommOp
  {
    IRecv(Scratch(size), recvRank, ExchangeTag)
  }

  /** `send_recv_params`: lower-half ranks send then receive, the others receive then
      send; both requests are waited on in issue order. */
  function SendRecvParamsOps(mpSize: nat, localRank: int, odd: bool): seq<CommOp>
  {
    var peer := Partner(mpSize, localRank);
    if SendsParamsFirst(mpSize, localRank) then
      [SendParamsModel(peer, odd), RecvParamsModel(peer, odd), Wait(0), Wait(1)]
    else
      [RecvParamsModel(peer, odd), SendParamsModel(peer, odd), Wait(0), Wait(1)]
  }

  /** `send_recv_grads`: the two rank-half branches are written separately but both send
      then receive. */
  function SendRecvGradsOps(mpSize: nat, localRank: int, odd: bool, recvSize: nat): seq<CommOp>
  {
    var peer := Partner(mpSize, localRank);
    if localRank >= mpSize / 2 then
      [SendGradsModel(peer, odd), RecvGradsModel(recvSize, peer), Wait(0), Wait(1)]
    else
      [SendGradsModel(peer, odd), RecvGradsModel(recvSize, peer), Wait(0), Wait(1)]
  }

  /** The first n operations are issues and the last n wait on them in order: nothing is
      waited on before everything is in flight. */
  predicate IssuedBeforeWaited(ops: seq<CommOp>, n: nat)
  {
    |ops| == 2 * n &&
    (forall i :: 0 <= i < n ==> !ops[i].Wait?) &&
    (forall i :: 0 <= i < n ==> ops[n + i] == Wait(i))
  }

  /** The parameter exchange issues one send of the parity's send buffer and one receive
      into its receive buffer, both with the partner, before waiting on either; the send
      comes first exactly on the lower-half ranks. */
  lemma {:induction false} SendRecvParamsShape(mpSize: nat, localRank: int, odd: bool)
    ensures var ops := SendRecvParamsOps(mpSize, localRank, odd);
            IssuedBeforeWaited(ops, 2) &&
            (ops[0].ISend? <==> localRank < mpSize / 2) &&
            (ops[1].ISend? <==> !(localRank < mpSize / 2)) &&
            (forall i :: 0 <= i < 2 ==> ops[i].peer == mpSize - 1 - localRank && ops[i].tag == 0) &&
            (forall i :: 0 <= i < 2 && ops[i].ISend? ==> ops[i].buf == SendParamsBuffer(odd)) &&
            (forall i :: 0 <= i < 2 && ops[i].IRecv? ==> ops[i].into == Flat(RecvParamsBuffer(odd)))
  {
    var ops := SendRecvParamsOps(mpSize, localRank, odd);
    assert ops[2] == Wait(0) && ops[3] == Wait(1);
  }

  /** The gradient exchange sends first on every rank, whichever half it is in. */
  lemma {:induction false} SendRecvGradsShape(mpSize: nat, localRank: int, odd: bool, recvSize: nat)
    ensures var ops := SendRecvGradsOps(mpSize, localRank, odd, recvSize);
            IssuedBeforeWaited(ops, 2) &&
            ops[0] == ISend(SendGradsBuffer(odd), mpSize - 1 - localRank, 0) &&
            ops[1] == IRecv(Scratch(recvSize), mpSize - 1 - localRank, 0)
  {
    var ops := SendRecvGradsOps(mpSize, localRank, odd, recvSize);
    assert ops[2] == Wait(0) && ops[3] == Wait(1);
  }

  /** For an even group, a rank and its partner issue their parameter operations in
      opposite orders, so each first operation meets its counterpart. */
  lemma PartnersComplementary(mpSize: nat, rank: int, odd: bool)
    requires mpSize % 2 == 0
    requires 0 <= rank < mpSize
    ensures SendRecvParamsOps(mpSize, rank, odd)[0].ISend?
            != SendRecvParamsOps(mpSize, Partner(mpSize, rank), odd)[0].ISend?
  {
    PartnerRolesDiffer(mpSize, rank);
  }

  // ---------------------------------------------------------------------------
  // Effect on the buffers once the transfers complete

  /** Element-wise sum: the in-place `+=` of a received gradient buffer. */
  function AddInto(acc: seq<int>, received: seq<int>): (r: seq<int>)
    requires |acc| == |received|
    ensures |r| == |acc|
    ensures forall i :: 0 <= i < |acc| ==> r[i] - acc[i] == received[i]
  {
    seq(|acc|, i requires 0 <= i < |acc| => acc[i] + received[i])
  }

  function Zeros(n: nat): (z: seq<int>)
    ensures |z| == n
  {
    seq(n, i => 0)
  }

  /** After a parameter exchange: the parity's receive buffer holds what arrived. */
  function ParamsReceived(b: Buffers, odd: bool, received: seq<int>): Buffers
  {
    b.Set(RecvParamsBuffer(odd), received)
  }

  /** After a gradient exchange: the received buffer is added into the parity's
      accumulation buffer. */
  function GradsAccumulated(b: Buffers, odd: bool, received: seq<int>): Buffers
    requires |b.Get(AccumGradsBuffer(odd))| == |received|
  {
    b.Set(AccumGradsBuffer(odd), AddInto(b.Get(AccumGradsBuffer(odd)), received))
  }

  /** A parameter exchange replaces the receive buffer and nothing else; in particular the
      buffer being sent is left as it was. */
  lemma ParamsReceivedFrame(b: Buffers, odd: bool, received: seq<int>)
    ensures ParamsReceived(b, odd, received).Get(RecvParamsBuffer(odd)) == received
    ensures ParamsReceived(b, odd, received).Get(SendParamsBuffer(odd)) == b.Get(SendParamsBuffer(odd))
    ensures forall c :: c != RecvParamsBuffer(odd) ==> ParamsReceived(b, odd, received).Get(c) == b.Get(c)
  {
  }

  /** A gradient exchange adds element by element into the accumulation buffer and leaves
      the other gradient buffer and both parameter buffers unchanged. */
  lemma GradsAccumulatedFrame(b: Buffers, odd: bool, received: seq<int>)
    requires |b.Get(AccumGradsBuffer(odd))| == |received|
    ensures var after := GradsAccumulated(b, odd, received);
            var acc := AccumGradsBuffer(odd);
            |after.Get(acc)| == |received| &&
            (forall i :: 0 <= i < |received| ==> after.Get(acc)[i] == b.Get(acc)[i] + received[i]) &&
            (forall c :: c != acc ==> after.Get(c) == b.Get(c))
  {
  }

  /** Receiving all-zero gradients is a no-op. */
  lemma ZeroGradsNoop(b: Buffers, odd: bool)
    ensures GradsAccumulated(b, odd, Zeros(|b.Get(AccumGradsBuffer(odd))|)) == b
  {
    var acc := b.Get(AccumGradsBuffer(odd));
    assert AddInto(acc, Zeros(|acc|)) == acc;
  }

  /** Two partner ranks exchanging parameters on the same parity: each ends up with the
      other's send buffer in its receive buffer. On an even step followed by an odd one,
      a rank's model-2 parameters become its partner's model-1 parameters and its model-1
      parameters come back unchanged. */
  lemma {:induction false} ParityAlternation(mine: Buffers, theirs: Buffers)
    ensures var mine1 := ParamsReceived(mine, false, theirs.Get(SendParamsBuffer(false)));
            var theirs1 := ParamsReceived(theirs, false, mine.Get(SendParamsBuffer(false)));
            var mine2 := ParamsReceived(mine1, true, theirs1.Get(SendParamsBuffer(true)));
            mine1.params2 == theirs.params1 &&
            mine2.params1 == mine.params1 &&
            mine2.params2 == theirs.params1
  {
  }
}
