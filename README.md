# Dual-replica spatial master, modelled in Dafny

This project models the bookkeeping core of `train_spatial_model_master` in
`src/torchgems/train_spatial_master.py`. That class runs two mirrored model replicas on
the same devices. Model 1 is laid out on the ranks in the normal order and model 2 in the
inverse order. Each rank holds four flat buffers: the parameters and the gradients of
each replica. Every parameter's data and gradient are bound to a contiguous slot of those
buffers. In the interleaved step the parameters and gradients are exchanged with the
mirrored rank `mp_size - 1 - local_rank` while the two replicas' executors run forward
and backward passes on the two halves of the batch.

Modules:

- `Ranks` (`ranks.dfy`): the partner rank, and which half of the group sends parameters first.
- `SpatialConfig` (`spatial_config.dfy`): `verify_spatial_master_config`. The generic spatial check enters as a boolean.
- `FlatLayout` (`flat_layout.dfy`): the layout of one replica's flat buffer.
  - Parameter sizes, offsets and slots.
  - Packing (`model_parameters`) and copying a flat buffer back in (`update_model_paramters`).
  - The loops of `get_model_parameter_size` and `update_model_params_loc` / `update_model_grads_loc`, as methods proved against these functions.
- `Exchange` (`exchange.dfy`):
  - which buffer each parity sends from and receives into;
  - the non-blocking operations each exchange issues, and their order;
  - the effect of a completed exchange on the four buffers.
- `Schedule` (`schedule.dfy`): the two step schedules as event traces.
  - `run_step_allreduce` gives forwards with their sample ranges, backwards, and exchanges.
  - `run_step` gives the single-replica steps.
  - It also holds the totals, and lemmas on order, slicing and totals.
- `SpatialMaster` (`master.dfy`): the class `TrainSpatialModelMaster`.
  - Its state is the four flat buffers, as arrays, plus the bound slots.
  - Its constructor, exchange methods and step methods are proved against the functions above.

Things outside this file are abstracted as follows:

- The executors (`train_model_spatial`) are abstracted to their results. What each `forward_pass` or executor `run_step` returns is an input sequence of integer `(loss, correct)` scores.
- The transport is abstracted to data. What the partner's parameters or gradients turn out to be is an input to the method that receives them.
- A step's observable behaviour is its trace, its totals and the new buffer contents.

`send_recv_params` posts its send first on ranks below `mp_size / 2` and its receive first on the others; `send_recv_grads` posts its send first on every rank (`src/torchgems/train_spatial_master.py:264-270, 312-317`).

## Model

| member | source | states |
|---|---|---|
| Ranks.Partner | src/torchgems/train_spatial_master.py:249-250 | The partner of a rank in `[0, mp_size)` is in `[0, mp_size)`; rank and partner add up to `mp_size - 1`. |
| Ranks.PartnerRolesDiffer | src/torchgems/train_spatial_master.py:264-270 | With an even group, a rank and its partner are in opposite halves, so exactly one of them sends parameters first. |
| Ranks.OddGroupMiddleRank | src/torchgems/train_spatial_master.py:264-270 | With an odd group, a rank is its own partner exactly when it is the middle rank; every other rank still pairs with the opposite half. |
| SpatialConfig.VerifySpatialMasterConfig | src/torchgems/train_spatial_master.py:33-84 | The outcome is Accepted iff the list is non-empty, the generic check passes and `mp_size >= 2 * parts[0]`. An empty list fails on indexing and a failed generic check is reported as such. The replica-overlap rejection happens exactly when `mp_size < 2 * parts[0]` after both pass. |
| SpatialConfig.AcceptedIffSpatialRanksDisjoint | src/torchgems/train_spatial_master.py:42-84 | Once the generic check passes, the configuration is accepted exactly when no world rank hosts a spatial part of both replicas (model 2's local rank j sits on world rank `mp_size - 1 - j`). |
| SpatialConfig.OneRankShortRejected | src/torchgems/train_spatial_master.py:82-84 | `mp_size = 2k - 1` with k spatial parts is rejected for overlap. |
| FlatLayout.LayoutPartition | src/torchgems/train_spatial_master.py:187-199 | Parameter k's slot starts at the sum of the sizes before it and is `numel_k` long. The first slot starts at 0, consecutive slots are adjacent, slots are pairwise disjoint and in parameter order, and the last ends at the total size. |
| FlatLayout.LayoutOwner | src/torchgems/train_spatial_master.py:187-199 | Every index below the total size belongs to exactly one parameter's slot. |
| FlatLayout.GetModelParameterSize | src/torchgems/train_spatial_master.py:201-205 | The loop's result is the sum of the parameter sizes, which is also the length of the packed parameters. |
| FlatLayout.UpdateModelLoc | src/torchgems/train_spatial_master.py:187-199 | The running-index loop binds parameter k to exactly `Layout(sizes)[k]`; the same for data and gradients. |
| FlatLayout.ModelParameters | src/torchgems/train_spatial_master.py:207-218 | The result is None exactly for a model without parameters; otherwise it is all parameters concatenated in order. |
| FlatLayout.UpdateModelParameters | src/torchgems/train_spatial_master.py:220-227 | The copy completes exactly when the flat buffer holds at least the total size. The result is `CopyIn`: each parameter whose slot fits takes that slice, and the copy stops at the first slot that runs past the end. |
| FlatLayout.CopyInOwnFlatten | src/torchgems/train_spatial_master.py:207-227 | Copying a model's own packed parameters back in leaves every parameter unchanged. |
| FlatLayout.FlattenCopyIn | src/torchgems/train_spatial_master.py:207-227 | Copying in a buffer of exactly the total size and packing again gives that buffer back. |
| FlatLayout.CopyInPastEnd | src/torchgems/train_spatial_master.py:223-227 | Once a slot runs past the end of the buffer, that parameter and all later ones keep their values, and the buffer is shorter than the total size. |
| FlatLayout.BoundRoundTrip | src/torchgems/train_spatial_master.py:187-192 | Views bound to the slots of a buffer of the total size have the parameters' sizes, and packing them gives the buffer back. |
| FlatLayout.FlattenLength | src/torchgems/train_spatial_master.py:201-218 | The packed parameters are exactly as long as the summed sizes. |
| FlatLayout.FlattenSlot | src/torchgems/train_spatial_master.py:207-218 | In the packed buffer, parameter k's slot holds exactly parameter k. |
| Exchange.ParitySelection | src/torchgems/train_spatial_master.py:229-246 | A parity never receives into the buffer it sends. The buffer received into on one parity is the one sent on the other. Gradients accumulate into the replica whose parameters arrive on the same parity. |
| Exchange.SendRecvParamsShape | src/torchgems/train_spatial_master.py:248-273 | Both requests are issued before either is waited on, and the waits follow issue order. The first operation is the send exactly on ranks below `mp_size / 2`. Both operations go to the partner with tag 0, from the parity's send buffer and into its receive buffer. |
| Exchange.SendRecvGradsShape | src/torchgems/train_spatial_master.py:296-320 | Both rank halves send the parity's gradient buffer first and then receive into a scratch buffer, both before waiting. |
| Exchange.PartnersComplementary | src/torchgems/train_spatial_master.py:264-270 | With an even group, a rank and its partner issue their parameter operations in opposite orders. |
| Exchange.ParamsReceivedFrame | src/torchgems/train_spatial_master.py:239-246 | A parameter receive replaces the parity's receive buffer and nothing else; the buffer being sent is unchanged. |
| Exchange.GradsAccumulatedFrame | src/torchgems/train_spatial_master.py:322-325 | After a gradient exchange, the accumulation buffer is its old value plus the received buffer, element by element. The other gradient buffer and both parameter buffers are unchanged. |
| Exchange.ZeroGradsNoop | src/torchgems/train_spatial_master.py:322-325 | Accumulating an all-zero received buffer changes nothing. |
| Exchange.ParityAlternation | src/torchgems/train_spatial_master.py:229-246 | Two partners exchange on an even step and then an odd one. Each rank's model-2 parameters become its partner's model-1 parameters, and its model-1 parameters come back unchanged. |
| Exchange.AddInto | src/torchgems/train_spatial_master.py:322-325 | The element-wise sum keeps the length, and each element grows by the received value. |
| Schedule.PhaseOrder | src/torchgems/train_spatial_master.py:348-389 | An edge rank's phase starts with its receive and ends with its send; any other rank's exchange sits right after the last forward. The forward loop's events come in loop order before every backward, and the backward loop's events follow in loop order. |
| Schedule.PhaseCommPositions | src/torchgems/train_spatial_master.py:348-389 | Exchanges occur only at the two ends of an edge rank's phase, or only between the loops of any other rank. |
| Schedule.ParamsPhaseExchanges | src/torchgems/train_spatial_master.py:346-389 | In the first phase, an edge replica receives the partner's parameters into the parity's receive buffer first and sends the parity's send buffer last. Any other replica runs `send_recv_params` between its loops, and there is no other exchange. |
| Schedule.GradsPhaseExchanges | src/torchgems/train_spatial_master.py:395-453 | In the second phase, an edge replica receives into a scratch buffer of `model1_size` (odd) or `model2_size` (even) first and sends the parity's gradients last. Any other replica runs `send_recv_grads` between its loops, and there is no other exchange. |
| Schedule.AllreduceReplicaOrder | src/torchgems/train_spatial_master.py:337-342 | Odd parity runs model 2 first and even parity model 1. Every forward and backward of the first phase belongs to that replica, and every one of the second phase to the other. |
| Schedule.ForwardsDisjoint | src/torchgems/train_spatial_master.py:359-365 | Micro-part ranges are well formed, pairwise disjoint and in input order, with or without clipping at the batch end. |
| Schedule.AllreduceSlices | src/torchgems/train_spatial_master.py:331-365 | On a batch of at least `2 * batch_size` samples, with `ps = batch_size / parts`, part p of the first replica reads `[p*ps, (p+1)*ps)` inside `[0, batch_size)`. Part p of the second replica reads `[batch_size + p*ps, batch_size + (p+1)*ps)` inside `[batch_size, 2*batch_size)`. |
| Schedule.GradsPhaseSlices | src/torchgems/train_spatial_master.py:395-425 | On an input of at least 2 × batch_size samples and with one forward result per part, the second replica's parts are read from `inputs[batch_size:]`, offset by `batch_size`, within `2 * batch_size`. |
| Schedule.AllreduceTotalsFromTrace | src/torchgems/train_spatial_master.py:359-430 | The counted forwards, those of a replica at the last split stage, return exactly ys1 (if the first replica is terminal) followed by ys2 (if the second is). The step's totals are their sum. |
| Schedule.AllreduceTotalsNonTerminal | src/torchgems/train_spatial_master.py:368-370 | When neither replica is at the last split stage, the step returns `(0, 0)`. |
| Schedule.SequentialSlices | src/torchgems/train_spatial_master.py:457-501 | On an input of at least calls × batch_size samples, call j of `run_step` reads exactly `[j*batch_size, (j+1)*batch_size)` with the j-th result. Consecutive calls are adjacent, the first starts at 0, the last ends at `calls*batch_size`, and the replicas alternate model 1, model 2. |
| Schedule.StepCountCovers | src/torchgems/train_spatial_master.py:462-499 | `run_step` makes an even number of calls, at least two, and exactly `2 * replications` when `replications >= 1`. |
| SpatialMaster.ForwardLoop | src/torchgems/train_spatial_master.py:359-370 | The loop emits exactly the phase's forwards, and its loss and corrects are the sum of the results when the executor is at the last stage and 0 otherwise. |
| SpatialMaster.BackwardLoop | src/torchgems/train_spatial_master.py:375-377 | The loop emits a backward for every part in forward order, each with its forward's output. |
| SpatialMaster.AddInPlace | src/torchgems/train_spatial_master.py:322-325 | The in-place `+=` leaves the array equal to the element-wise sum. |
| SpatialMaster.ZeroBuffer | src/torchgems/train_spatial_master.py:117-131 | A fresh buffer of n zeros. |
| SpatialMaster.TrainSpatialModelMaster.constructor | src/torchgems/train_spatial_master.py:88-185 | Sizes are the parameters' total element counts. The four buffers are fresh, distinct and all zero. Every parameter's data and gradient slot is the layout slot. |
| SpatialMaster.TrainSpatialModelMaster.ViewsAreTheBuffer | src/torchgems/train_spatial_master.py:134-138 | After binding, each replica's parameters are exactly the slots of its parameter buffer, and packing them gives the buffer back. |
| SpatialMaster.TrainSpatialModelMaster.ReceiveParams | src/torchgems/train_spatial_master.py:239-246 | Receives from the given rank into the parity's receive buffer, which then holds what arrived; nothing else changes. |
| SpatialMaster.TrainSpatialModelMaster.ReceiveAndAccumulateGrads | src/torchgems/train_spatial_master.py:398-417 | Receives into a scratch buffer of the other replica's size, then adds it into the parity's accumulation buffer. |
| SpatialMaster.TrainSpatialModelMaster.SendRecvParams | src/torchgems/train_spatial_master.py:248-273 | Issues exactly `SendRecvParamsOps` and leaves the buffers as `ParamsReceived` describes. |
| SpatialMaster.TrainSpatialModelMaster.SendRecvGrads | src/torchgems/train_spatial_master.py:296-325 | Issues exactly `SendRecvGradsOps` and leaves the buffers as `GradsAccumulated` describes. |
| SpatialMaster.TrainSpatialModelMaster.ParamsPhaseStep | src/torchgems/train_spatial_master.py:344-389 | The first half of the step: the trace is `ParamsPhase`, the totals are the first replica's `TerminalSum` (its results when it is at the last stage, 0 otherwise), and the new state is `ParamsReceived`. |
| SpatialMaster.TrainSpatialModelMaster.GradsPhaseStep | src/torchgems/train_spatial_master.py:393-453 | The second half of the step: the trace is `GradsPhase`, the totals are the second replica's `TerminalSum`, and the new state is `GradsAccumulated`. |
| SpatialMaster.TrainSpatialModelMaster.RunStepAllreduce | src/torchgems/train_spatial_master.py:327-455 | Returns the trace `AllreduceTrace` and the totals `AllreduceTotals`. Its only buffer changes are the parameter receive and the gradient accumulation of the parity. |
| SpatialMaster.TrainSpatialModelMaster.RunStep | src/torchgems/train_spatial_master.py:457-501 | Returns the trace `SequentialTrace` of all calls and the sum of every call's result. |

## Left out

- Message delivery is not modelled: `dist.isend`, `dist.irecv`, the request objects and `wait`. An exchange is an operation list in the trace, and the data a receive delivers is an input. Its effect is applied when the exchange completes, since nothing reads the buffer in between. Deadlock across ranks is a concurrency property and is not modelled.
- `torch.cuda.synchronize`, `.to("cuda")`, `device=`, `requires_grad` and `torch.zeros` are not modelled; they are device plumbing.
- Tensor views are modelled as slots. A parameter's data and gradient are index ranges of the flat arrays (`Bound`), not objects that share storage.
- FlatLayout.UpdateModelParameters: modelled on values. It returns the updated parameter list rather than writing through the parameters in place.
- FlatLayout.ModelParameters: `param is not None` is always true for the entries `parameters()` yields. Clones are plain values.
- The generic spatial check `verify_spatial_config` lives in a module that is not part of this model. Its verdict is an input.
- `train_model_spatial` is not part of this model. This covers its construction, `forward_pass`, `backward_pass` and `run_step`. Their results are inputs, with one score per call.
- The backward passes' writes into the gradient buffers, which reach them through `params.grad`, are not modelled. In the model the gradient buffers change only through the exchange.
- Loss, corrects and tensor elements are integers. Floating point and `.item()` are not modelled.
- Several rank variables are overwritten before use (lines 349-353, 380-385, 399-410 and 443-448); only the final `mp_size - 1 - local_rank` is modelled. Commented-out code is not modelled.
- Labels are sliced exactly like inputs and are not tracked separately.
- SpatialMaster.TrainSpatialModelMaster.RunStepAllreduce: requires `parts >= 1` and one forward result per part. With `parts == 0`, line 331 raises ZeroDivisionError, and that error path is not modelled.
- SpatialMaster.TrainSpatialModelMaster.ReceiveParams: requires the received data to have the buffer's length. A size mismatch in the transport is not modelled. The same holds for the gradient receives.
- SpatialMaster.TrainSpatialModelMaster.RunStep: requires one result per executor call (`StepCount(replications)`).
- `int(x / y)` on non-negative operands is modelled as integer division. Python slice bounds are never negative here and are clipped to the input length (`Clip`).
