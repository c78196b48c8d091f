# Training-loop bookkeeping of the Transformer-XL trainer

This project models the integer bookkeeping that `train.py` does around each
training batch of its segment-recurrent language model. Training is scheduled
by the number of tokens processed, counted across all processes. On each batch
the loop:

- checks the batch's shape;
- adds the global batch width times `seq_len` to `global_token_count`;
- increments `train_step`;
- picks a learning-rate action (a linear warmup rate, `scheduler.step(count)`,
  no change, or a skip after an fp16 overflow);
- logs on a predicate of the step count before the increment, which resets the
  loss accumulator;
- evaluates every `eval_interval` steps and writes the `best` checkpoint when
  the validation loss improves;
- raises `StopIteration` once the token count reaches `max_tokens`.

`main()` runs epoch after epoch. It treats `StopIteration` as normal completion
and `KeyboardInterrupt` as an early exit. Both go on to the final evaluation;
any other exception ends the process. Evaluation swaps the model's
(tgt_len, ext_len, mem_len) window for one with the same total span. It
averages a length-weighted loss over at most `max_eval_steps` batches and then
puts the training window back.

Modules:

- `Wrappers`: Option and Result.
- `Schedule`: the learning-rate action.
- `Evaluation`: the window swap and the capped average. The `MemTransformer`
  class holds the model's three lengths and its train/eval mode.
- `Training`: the run state and the step function `Next`. The `RunState` class
  holds the module globals that train() and main() update. Its methods `Step`,
  `TrainBatches`, `Train`, `TrainEpochs` and `RunTraining` are proved equal to
  the functions `Next`, `RunBatches`, `RunEpoch`, `RunEpochs` and `RunAll`.
- `TrainingProps`: what those functions guarantee, over one batch, over an
  epoch and over a whole run.

Inputs that come from outside the bookkeeping are fields of `StepInput`:

- the batch width summed over all processes;
- the batch loss;
- the fp16 overflow flag;
- the result evaluate() would return on that step.

The exceptions of the bookkeeping itself are outcomes (`Fault`), not preconditions:

- a failed shape assertion;
- a zero `log_interval` or `eval_interval` (ZeroDivisionError);
- `scheduler.step` on the `None` that main() leaves for `inv_sqrt` (main()
  builds a scheduler only for `cosine` and `finder`, and `constant` and
  `dev_perf` never step one);
- an evaluation that saw no tokens.

The metric logging can raise as well, and these exits are not modelled (see
`Training.Next` under "## Left out"):

- `math.exp` of a large loss at train.py:535-539 and 585-589 raises OverflowError;
- `toscalar` divisions by a zero width.

Places where the code does less than its own shape suggests; the model follows
the code:

- The comment `# linear warmup stage` (train.py:510) suggests a ramp that ends
  at `args.lr`. But under `constant` and `dev_perf` the loop sets the rate only
  while `global_token_count < args.warmup_tokens`, and never sets `args.lr`
  afterwards. It holds the last warmup rate instead. So under `constant`, once
  a batch has set a warmup rate, the rate stays below the base rate for the
  rest of the run (`ConstantRateStaysBelowBase`). If no batch did (with the
  default `--warmup_tokens` of 0 at train.py:83, for instance), the rate stays
  `args.lr` (`ConstantRateWithoutWarmup`).
- `for i in range(1, data.shape[0])` (train.py:475) reads as a shift check at
  every position, but the `break` at train.py:477 ends it after position 1.
  On batches of up to two rows the check is exactly the shift at every position
  (`BatchCheckAccepts`); later rows go unchecked (`LaterRowsUnchecked`).
- `not best_val_loss` treats a best loss of 0.0 as unset (`ZeroBestIsReplaced`).
- With `--scheduler inv_sqrt`, main() builds no scheduler. The first batch
  without an overflow then raises (`InvSqrtRaises`).

## Model

| member | source | states |
|---|---|---|
| `Schedule.ChooseLrAction` | train.py:508-520 | skip iff fp16 overflow; warmup rate `lr * count / warmup_tokens` iff cosine/constant/dev_perf below warmup; `scheduler.step(count)` iff cosine past warmup or any other schedule; hold iff constant/dev_perf past warmup |
| `Schedule.WarmupRamp` | train.py:511-513 | the warmup rate starts at zero, grows with the token count and stays strictly below the base rate |
| `Evaluation.EvalWindow` | train.py:427-434 | the evaluation window has target `eval_tgt_len` and the same span as the training window; ext_len grows when mem_len is 0, otherwise mem_len grows and ext_len is kept |
| `Evaluation.AverageLoss` | train.py:437-450 | consumes at most `max_eval_steps` batches when that is positive, all of them otherwise, and returns `total_loss / total_len` over exactly those |
| `Evaluation.ConsumedIsCapped` | train.py:442-444 | a loop that breaks at index `max_eval_steps` has consumed exactly the capped prefix |
| `Evaluation.TotalLossBounds` | train.py:449-450 | the length-weighted loss sum lies between the smallest and the largest batch loss times the total length |
| `Evaluation.MeanLossBetween` | train.py:449-456 | the returned loss is a weighted average: between the smallest and the largest batch loss |
| `Evaluation.NoTokensIffEmptyBatches` | train.py:446-450 | the summed `seq_len` is zero exactly when every batch has `seq_len` 0 |
| `Evaluation.MeanLossFailsIffNoTokens` | train.py:442-456 | evaluate() fails with ZeroDivisionError exactly when every batch it consumed (the capped prefix) has `seq_len` 0 |
| `Evaluation.MemTransformer.constructor` | train.py:621-627 | the model starts with the configured window, in training mode |
| `Evaluation.MemTransformer.ResetLength` | train.py:430-434 | reset_length installs the given window and keeps the mode |
| `Evaluation.MemTransformer.SetTraining` | train.py:423 | model.eval()/model.train() change the mode and keep the window |
| `Evaluation.Evaluate` | train.py:421-456 | runs under the evaluation window in eval mode, returns the capped weighted average, and leaves the model in training mode with exactly the training window |
| `Training.Next` | train.py:474-596 | a batch that fails the shape check or should_log changes nothing; any other batch adds width times seq_len to the token count and one to the step count, overflow or not; the count never decreases; last_log_step stays at most train_step; Continue only below the budget, Finished only at or above it |
| `Training.RunBatches` | train.py:471-596 | batches run in order until one stops or raises; the token count never decreases and the log step stays at most the step count |
| `Training.RunEpoch` | train.py:459-600 | an epoch processes at most its batches and never lowers the token count |
| `Training.RunEpochs` | train.py:711-712 | epochs numbered from 1 never lower the token count; after draining all of them, the epoch is the last number |
| `Training.RunAll` | train.py:698-717 | the whole training loop of main() never lowers the token count |
| `Training.RunBatchesIgnoresRest` | train.py:593-596 | once a batch stops or raises, later batches are never processed |
| `Training.RunEpochsIgnoresRest` | train.py:710-717 | once an epoch stops or raises, no later epoch runs |
| `Training.RunState.constructor` | train.py:195-200 | the token count, epoch and train_step start at zero as at import time; train_loss, last_log_step and best_val_loss, which main() first assigns at lines 704-707, start at 0, 0 and None; the rate is the `args.lr` the optimizer is built with at lines 637-643 |
| `Training.RunState.Step` | train.py:474-596 | one batch changes the globals exactly as Next says and keeps last_log_step at most train_step |
| `Training.RunState.KeepBest` | train.py:570-575 | an improving loss becomes the best and writes a best checkpoint unless in debug mode |
| `Training.RunState.TrainBatches` | train.py:471-596 | the batch loop changes the globals exactly as RunBatches says |
| `Training.RunState.Train` | train.py:459-600 | train() for one epoch, with the per-epoch checkpoint, is RunEpoch |
| `Training.RunState.TrainEpochs` | train.py:710-712 | the epoch loop is RunEpochs |
| `Training.RunState.RunTraining` | train.py:698-717 | main() from the first checkpoint to the end of its training loop is RunAll |
| `TrainingProps.BatchCheckAccepts` | train.py:474-477 | on batches of at most two rows, a batch passes iff seq_len equals its row count and it is shifted by one at every position |
| `TrainingProps.ShiftedBatchPasses` | train.py:474-477 | a batch shifted by one everywhere, with the right seq_len, passes |
| `TrainingProps.LaterRowsUnchecked` | train.py:475-477 | a batch whose row 2 breaks the shift still passes |
| `TrainingProps.NextLrDispatch` | train.py:506-520 | the action is chosen from the updated token count; an overflow leaves the rate unchanged; the missing scheduler raises exactly when a scheduler step is due |
| `TrainingProps.InvSqrtRaises` | train.py:517-518 | under inv_sqrt, the first batch without overflow raises |
| `TrainingProps.NextLogging` | train.py:484 | logging fires iff should_log held before the increment; it zeroes train_loss and sets last_log_step to the new step; otherwise the loss accumulates and last_log_step is unchanged |
| `TrainingProps.NextEvaluation` | train.py:567-575 | evaluation runs iff the updated step is a multiple of eval_interval; the best loss and one best checkpoint (not in debug mode) change iff the loss improves |
| `TrainingProps.NextBestNeverWorse` | train.py:570-575 | a set, nonzero best loss never grows |
| `TrainingProps.ZeroBestIsReplaced` | train.py:570 | a best loss of 0.0 counts as unset: whatever loss the next evaluation returns becomes the best |
| `TrainingProps.NextStop` | train.py:593-596 | a batch finishes the run iff it raised nothing and the count reached max_tokens; the failures are exactly the listed faults |
| `TrainingProps.BatchesAreCounted` | train.py:479-506 | unless a batch raised, the count grows by the tokens of exactly the batches processed and the step count by their number |
| `TrainingProps.DrainedBelowBudget` | train.py:593-596 | an epoch whose stream ran dry stayed below max_tokens |
| `TrainingProps.StopIsFirstCrossing` | train.py:593-596 | a stopped epoch stopped at the first batch that reached max_tokens; before it the count was below |
| `TrainingProps.DebugWritesNothing` | train.py:571-573 | in debug mode no batch writes a checkpoint |
| `TrainingProps.ConstantRateAtMostBase` | train.py:509-516 | under constant, one batch keeps the rate between zero and the base rate and reaches the base rate only by keeping it |
| `TrainingProps.ConstantRateStaysBelowBase` | train.py:509-516 | under constant, once the rate is below the base rate it stays below for every later batch |
| `TrainingProps.ConstantRateWithoutWarmup` | train.py:509-516 | under constant, when the count is already at or past warmup_tokens, the rate stays the base rate for every later batch |
| `TrainingProps.BatchesWriteNoEpochTag` | train.py:570-575 | the batch loop writes only "best" checkpoints, never a per-epoch one |
| `TrainingProps.EpochCheckpoint` | train.py:598-600 | an epoch writes the checkpoint for epoch n, once, exactly when its iterator ran dry and checkpoint_each_epoch is set |
| `TrainingProps.EpochsAreCounted` | train.py:711-712 | unless an epoch raised, the step count grows by the number of batches in all epochs |
| `TrainingProps.EpochsAgainstBudget` | train.py:711-717 | drained epochs leave the count below max_tokens; a stopped one has reached it |
| `TrainingProps.RunEndsAgainstBudget` | train.py:704-717 | StopIteration only at or above max_tokens, an interrupt only below it, and unless the run raised its step count is the number of batches processed |
| `TrainingProps.FreshRunEndsAgainstBudget` | train.py:704-717 | from the initial state with a positive budget, completion and interruption fall on opposite sides of max_tokens |

The rows above are stated over these definitions, which carry no contract of
their own:

- `Training.BatchFault` (train.py:474-477) and `Training.FullyShifted`.
- `Training.LogDefined` (the ZeroDivisionError of `train_step % log_interval`
  at train.py:484) and `Training.ShouldLog` (train.py:484).
- `Training.Improves` (train.py:570), `Training.ApplyRate` and
  `Training.ActionOf` (train.py:508-520).
- `Training.Account` (train.py:479-506), `Training.LogReset` (train.py:563-565),
  `Training.RecordEval` (train.py:570-575) and `Training.StopOutcome`
  (train.py:593-596).
- `Training.Fresh` (train.py:195-200), `Training.Begin` (train.py:698-707) and
  `Training.EndOf` (the three ways out of the loop at train.py:710-717).
- `Schedule.HasScheduler` (main() builds a scheduler only for cosine and
  finder, train.py:646-654), `Schedule.LoopWarmup` (train.py:509) and
  `Schedule.WarmupRate` (train.py:512).
- `Evaluation.Capped` (the break at train.py:442-444), `Evaluation.TotalLen`
  and `Evaluation.TotalLoss` (train.py:446-450), and `Evaluation.MeanLoss`
  (train.py:456).
- `Training.Admitted` (the two checks at train.py:474-484 that fail before
  anything changes) and `Training.BatchTokens` (`total_tokens` at train.py:483).
- `TrainingProps.TokenSum`, `TrainingProps.EpochTags` and
  `TrainingProps.EpochTagsAppend`: the token sum of a sequence of batches, the
  per-epoch tags among the checkpoints, and that filter's behaviour on
  concatenation.
- `Training.RunState.Valid`: last_log_step is at most train_step. It is what
  keeps `elapsed_steps` at train.py:526-527 positive when the logging branch
  divides by it, since train_step has been incremented by then (`NextLogging`).
  `Next` and the lemmas over it accept any `Counters`. A state that violates
  this invariant, which the loop never reaches, can log without the source's
  ZeroDivisionError.

## Left out

- Argument parsing, logger and TensorBoard plumbing, timing and timestamps (train.py:34-306): I/O and wall clock.
- The distributed collectives (train.py:479-481, 615-618, 686). The global batch width is an input, already summed.
- FP16 wrappers, optimizers, schedulers and gradient clipping are foreign numerical code. Overflow is an input flag, and a scheduler step is an action whose resulting rate is recorded only as `ByScheduler(count)`. Only parameter group 0's rate is modelled.
- The forward pass, the loss, the threading of `mems` and weight initialisation (train.py:357-405, 488-496, 621-627) are opaque model code. The per-batch loss is an input.
- `Training.Next`: the metric code of the logging branch (train.py:523-560) and of the evaluation log (train.py:577-589) is not modelled, and neither are the exceptions it can raise. `math.exp(cur_loss)` at 535/539 raises OverflowError when a logging step's loss exceeds about 709.78. `math.exp(val_loss)` at 585/589 raises the same way on an evaluation step, after `best_val_loss` and the `best` checkpoint have been updated. The divisions by `toscalar(batch_total)` and `toscalar(total_tokens)` may raise for a zero width; `util.toscalar` is not part of this model. `NextStop`'s list of failures is therefore complete for the model only, not for the source.
- Checkpoint contents, the load of `model-best.pt`, the final test evaluation's logging and the shutdown commands (train.py:719-763) are I/O and process lifecycle. Checkpoint writes are recorded only as tags.
- The model unwrapping at train.py:426, where `args.module` raises when fp16 is off.
- `global_example_count`, which the code never updates.
- No run state is restored on a restart. Only weights are reloaded (train.py:661-664), and this is not modelled.
- `Training.RunAll`: a KeyboardInterrupt is modelled as arriving between two batches, after the batches in `last`. An interrupt in the middle of a batch is not modelled.
- `Evaluation.Evaluate`: the batch losses are inputs computed by the model under the evaluation window. An exception part-way through evaluate() leaves the evaluation window in place, which the model does not follow.
- `TrainingProps.ConstantRateStaysBelowBase`: Python floats (doubles) are modelled as exact reals. This covers the warmup rate `args.lr * global_token_count / args.warmup_tokens` (train.py:512) and the loss sums (train.py:496, 449-450). In doubles the warmup rate can round up to `args.lr` once the count no longer converts exactly, for example with `warmup_tokens = 2**54` and a count of `2**54 - 1`. The lemma's "strictly below the base rate" holds only for exact arithmetic. The same applies to `Schedule.WarmupRamp`, `Evaluation.TotalLossBounds` and `Evaluation.MeanLossBetween`.
- `torch.eq` broadcasting between rows of different widths is modelled as plain sequence equality.
