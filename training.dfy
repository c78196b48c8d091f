/** The per-batch bookkeeping of train() (train.py:471-596), the epoch loop and
    its termination handling in main() (train.py:698-717).  The run state that the
    source keeps in module globals is a RunState object; what a batch does to it
    is the function Next, and RunState.Step is proved to do exactly that. */
module Training {
  import opened Wrappers
  import opened Schedule
  import opened Evaluation

  /** The command-line options the bookkeeping reads. */
  datatype Config = Config(
    fp16: bool,
    debug: bool,
    scheduler: SchedulerKind,
    lr: real,
    warmupTokens: int,
    maxTokens: int,
    verboseLogSteps: int,
    logInterval: int,
    evalInterval: int,
    checkpointEachEpoch: bool)

  /** One batch of the training stream: row i of `data` holds position i of
      every sequence in the batch, and likewise for `target`. */
  datatype Batch = Batch(data: seq<seq<int>>, target: seq<seq<int>>, seqLen: int)

  /** What the loop learns while processing a batch from code outside the
      bookkeeping: the batch width summed over all processes, the batch's loss,
      the fp16 overflow flag, and what evaluate() returns should it run. */
  datatype StepInput = StepInput(
    batch: Batch,
    globalWidth: nat,
    loss: real,
    overflow: bool,
    valLoss: Result<real, EvalError>)

  /** The exceptions a batch can raise; all of them end the run. */
  datatype Fault =
    | SeqLenMismatch           // assert seq_len == data.shape[0]
    | ShiftMismatch            // assert data[1] == target[0] (or target has no row 0)
    | ZeroLogInterval          // train_step % log_interval with log_interval == 0
    | MissingScheduler         // scheduler.step on the None left by main()
    | ZeroEvalInterval         // train_step % eval_interval with eval_interval == 0
    | EvalFailed(error: EvalError)

  /** The suffix a checkpoint is written under. */
  datatype Tag = Best | EpochTag(n: nat)

  /** The learning rate of parameter group 0: a value the loop set, or whatever
      the scheduler derived from a token count. */
  datatype Rate = Fixed(value: real) | ByScheduler(count: nat)

  /** The run state: global_token_count, train_step, train_loss, last_log_step,
      best_val_loss, epoch, the optimizer's rate and the checkpoints written. */
  datatype Counters = Counters(
    tokenCount: nat,
    trainStep: nat,
    trainLoss: real,
    lastLogStep: nat,
    bestValLoss: Option<real>,
    epoch: nat,
    rate: Rate,
    checkpoints: seq<Tag>)

  datatype StepOutcome = Continue | Finished | Failed(fault: Fault)

  /** The state after a batch, how the batch ended, the learning-rate action
      taken (None when the batch failed before reaching it), and whether the
      batch logged and evaluated. */
  datatype Transition = Transition(
    after: Counters,
    outcome: StepOutcome,
    action: Option<LrAction>,
    logged: bool,
    evaluated: bool)

  /** The state at import time (train.py:195-202) with the resets of main()
      (train.py:704-707); the optimizer starts at the configured rate. */
  function Fresh(cfg: Config): Counters {
    Counters(0, 0, 0.0, 0, None, 0, Fixed(cfg.lr), [])
  }

  /** The batch-shape assertions (train.py:474-477): the loop body runs once,
      for position 1, and then breaks. */
  function BatchFault(b: Batch): Option<Fault> {
    if b.seqLen != |b.data| then Some(SeqLenMismatch)
    else if |b.data| >= 2 && (|b.target| == 0 || b.data[1] != b.target[0]) then Some(ShiftMismatch)
    else None
  }

  /** The shifted-by-one contract of a language-modelling batch, at every position. */
  ghost predicate FullyShifted(b: Batch) {
    forall i :: 1 <= i < |b.data| ==> i - 1 < |b.target| && b.data[i] == b.target[i - 1]
  }

  /** Whether `train_step % log_interval` is evaluated without dividing by zero. */
  predicate LogDefined(cfg: Config, step: nat) {
    step < cfg.verboseLogSteps || cfg.logInterval != 0
  }

  /** should_log, computed from the step count before the increment (train.py:484). */
  predicate ShouldLog(cfg: Config, step: nat)
    requires LogDefined(cfg, step)
  {
    step < cfg.verboseLogSteps || step % cfg.logInterval == 0
  }

  /** `not best_val_loss or val_loss < best_val_loss` (train.py:570): a best of
      0.0 is falsy and counts as unset. */
  predicate Improves(best: Option<real>, valLoss: real) {
    best.None? || best.value == 0.0 || valLoss < best.value
  }

  /** What a learning-rate action does to the rate. */
  function ApplyRate(rate: Rate, a: LrAction): Rate {
    match a
    case Warmup(r) => Fixed(r)
    case SchedulerStep(c) => ByScheduler(c)
    case _ => rate
  }

  /** Whether the batch gets past the shape check and the computation of
      should_log, the two failures that leave the state untouched. */
  predicate Admitted(cfg: Config, s: Counters, x: StepInput) {
    BatchFault(x.batch).None? && LogDefined(cfg, s.trainStep)
  }

  /** Tokens of one batch: global batch width times seq_len. */
  function BatchTokens(x: StepInput): int {
    x.globalWidth * x.batch.seqLen
  }

  /** What one batch of train() does to the run state.  The lemmas of module
      TrainingProps state the rest of what it does. */
  function Next(cfg: Config, s: Counters, x: StepInput): (t: Transition)
    // the batch check and should_log fail before anything changes
    ensures !Admitted(cfg, s, x) ==> t.after == s && t.outcome.Failed? && t.action.None?
    // every admitted batch is counted in tokens and in steps, overflow or not
    ensures Admitted(cfg, s, x) ==>
              BatchTokens(x) >= 0 &&
              t.after.tokenCount == s.tokenCount + BatchTokens(x) &&
              t.after.trainStep == s.trainStep + 1
    ensures t.after.tokenCount >= s.tokenCount && t.after.epoch == s.epoch
    ensures s.lastLogStep <= s.trainStep ==> t.after.lastLogStep <= t.after.trainStep
    // the stop condition
    ensures t.outcome == Continue ==> t.after.tokenCount < cfg.maxTokens
    ensures t.outcome == Finished ==> cfg.maxTokens <= t.after.tokenCount
  {
    if BatchFault(x.batch).Some? then
      Transition(s, Failed(BatchFault(x.batch).value), None, false, false)
    else if !LogDefined(cfg, s.trainStep) then
      Transition(s, Failed(ZeroLogInterval), None, false, false)
    else
      var log := ShouldLog(cfg, s.trainStep);
      var s0 := Account(s, x);
      var a := ActionOf(cfg, s0, x);
      if a.SchedulerStep? && !HasScheduler(cfg.scheduler) then
        Transition(s0, Failed(MissingScheduler), Some(a), false, false)
      else
        var s1 := LogReset(s0.(rate := ApplyRate(s0.rate, a)), log);
        if cfg.evalInterval == 0 then
          Transition(s1, Failed(ZeroEvalInterval), Some(a), log, false)
        else if s1.trainStep % cfg.evalInterval != 0 then
          Transition(s1, StopOutcome(cfg, s1), Some(a), log, false)
        else if x.valLoss.Err? then
          Transition(s1, Failed(EvalFailed(x.valLoss.error)), Some(a), log, true)
        else
          var s2 := RecordEval(cfg, s1, x.valLoss.value);
          Transition(s2, StopOutcome(cfg, s2), Some(a), log, true)
  }

  /** Lines 483-506: the batch's tokens, its loss and one step are counted. */
  function Account(s: Counters, x: StepInput): Counters
    requires BatchFault(x.batch).None?
  {
    var seqLen: nat := x.batch.seqLen;
    s.(tokenCount := s.tokenCount + x.globalWidth * seqLen,
       trainStep := s.trainStep + 1,
       trainLoss := s.trainLoss + x.loss)
  }

  /** Lines 508-520, from the token count already updated. */
  function ActionOf(cfg: Config, s: Counters, x: StepInput): LrAction {
    ChooseLrAction(cfg.scheduler, cfg.lr, cfg.warmupTokens, cfg.fp16 && x.overflow, s.tokenCount)
  }

  /** Lines 563-565. */
  function LogReset(s: Counters, log: bool): Counters {
    if log then s.(trainLoss := 0.0, lastLogStep := s.trainStep) else s
  }

  /** Lines 570-575: the best checkpoint (not in debug mode) and the new best. */
  function RecordEval(cfg: Config, s: Counters, valLoss: real): Counters {
    if Improves(s.bestValLoss, valLoss)
    then s.(bestValLoss := Some(valLoss),
            checkpoints := if cfg.debug then s.checkpoints else s.checkpoints + [Best])
    else s
  }

  /** Lines 593-596. */
  function StopOutcome(cfg: Config, s: Counters): StepOutcome {
    if cfg.maxTokens <= s.tokenCount then Finished else Continue
  }

  /** How an epoch (one pass of train()) ended: its iterator ran dry, the token
      budget raised StopIteration, or an exception was raised. */
  datatype EpochOutcome = Drained | Stopped | Crashed(fault: Fault)

  /** The state after a run of batches, how it ended and how many batches it
      processed (the batch that stopped or crashed the run included). */
  datatype EpochRun = EpochRun(after: Counters, outcome: EpochOutcome, processed: nat)

  function EpochOutcomeOf(o: StepOutcome): EpochOutcome {
    match o
    case Continue => Drained
    case Finished => Stopped
    case Failed(f) => Crashed(f)
  }

  /** The batch loop of train(): batches are processed in order until one of
      them stops or crashes the run. */
  function RunBatches(cfg: Config, s: Counters, xs: seq<StepInput>): (r: EpochRun)
    ensures r.processed <= |xs|
    ensures r.outcome.Drained? ==> r.processed == |xs|
    ensures r.after.tokenCount >= s.tokenCount && r.after.epoch == s.epoch
    ensures s.lastLogStep <= s.trainStep ==> r.after.lastLogStep <= r.after.trainStep
    decreases |xs|
  {
    if xs == [] then EpochRun(s, Drained, 0)
    else
      var r := RunBatches(cfg, s, xs[..|xs| - 1]);
      if !r.outcome.Drained? then r
      else
        var t := Next(cfg, r.after, xs[|xs| - 1]);
        EpochRun(t.after, EpochOutcomeOf(t.outcome), |xs|)
  }

  /** train() for epoch `n`: the batch loop, then the per-epoch checkpoint when
      the iterator ran dry (train.py:598-600). */
  function RunEpoch(cfg: Config, s: Counters, n: nat, xs: seq<StepInput>): (r: EpochRun)
    ensures r.processed <= |xs| && r.after.tokenCount >= s.tokenCount && r.after.epoch == n
  {
    var r := RunBatches(cfg, s.(epoch := n), xs);
    if r.outcome.Drained? && cfg.checkpointEachEpoch
    then r.(after := r.after.(checkpoints := r.after.checkpoints + [EpochTag(n)]))
    else r
  }

  /** The state after a sequence of epochs numbered from 1, how the last one
      ended, and the number of batches processed in all. */
  datatype EpochsRun = EpochsRun(after: Counters, outcome: EpochOutcome, batches: nat)

  /** `for epoch in itertools.count(start=1): train()` over the epochs given. */
  function RunEpochs(cfg: Config, s: Counters, es: seq<seq<StepInput>>): (r: EpochsRun)
    ensures r.after.tokenCount >= s.tokenCount
    ensures r.outcome.Drained? && es != [] ==> r.after.epoch == |es|
    decreases |es|
  {
    if es == [] then EpochsRun(s, Drained, 0)
    else
      var r := RunEpochs(cfg, s, es[..|es| - 1]);
      if !r.outcome.Drained? then r
      else
        var e := RunEpoch(cfg, r.after, |es|, es[|es| - 1]);
        EpochsRun(e.after, e.outcome, r.batches + e.processed)
  }

  /** How main() leaves its training loop (train.py:710-717): StopIteration is
      normal completion, KeyboardInterrupt an early exit that still goes on to
      the final test evaluation, and any other exception ends the process. */
  datatype RunEnd = Completed | Interrupted | Aborted(fault: Fault)

  datatype TrainingRun = TrainingRun(after: Counters, end: RunEnd, batches: nat)

  /** main() from the checkpoint written before training (train.py:698-701)
      through the resets of train.py:704-707. */
  function Begin(cfg: Config, s: Counters): Counters {
    s.(trainStep := 0, trainLoss := 0.0, lastLogStep := 0, bestValLoss := None,
       checkpoints := if cfg.checkpointEachEpoch then s.checkpoints + [EpochTag(0)] else s.checkpoints)
  }

  function EndOf(o: EpochOutcome): RunEnd {
    match o
    case Drained => Interrupted
    case Stopped => Completed
    case Crashed(f) => Aborted(f)
  }

  /** The epoch loop of main(): the epochs in `full` run to the end of their
      streams; while the next epoch runs, the interrupt arrives after the batches
      in `last`, unless the run stopped or crashed before. */
  function RunAll(cfg: Config, s: Counters, full: seq<seq<StepInput>>, last: seq<StepInput>): (r: TrainingRun)
    ensures r.after.tokenCount >= s.tokenCount
  {
    var e := RunEpochs(cfg, Begin(cfg, s), full);
    if !e.outcome.Drained? then TrainingRun(e.after, EndOf(e.outcome), e.batches)
    else
      var l := RunBatches(cfg, e.after.(epoch := |full| + 1), last);
      TrainingRun(l.after, EndOf(l.outcome), e.batches + l.processed)
  }

  /** The module globals of train.py that the bookkeeping changes. */
  class RunState {
    const cfg: Config
    var tokenCount: nat
    var trainStep: nat
    var trainLoss: real
    var lastLogStep: nat
    var bestValLoss: Option<real>
    var epoch: nat
    var rate: Rate
    var checkpoints: seq<Tag>

    function Snapshot(): Counters
      reads this
    {
      Counters(tokenCount, trainStep, trainLoss, lastLogStep, bestValLoss, epoch, rate, checkpoints)
    }

    /** The logging branch divides by `elapsed_steps = train_step - last_log_step`
        (train.py:526-527); keeping last_log_step at most train_step before a
        batch makes that divisor positive after the increment (NextLogging).
        Next and the lemmas about it take any Counters, including states the
        loop never reaches: from one with last_log_step == train_step + 1 a
        logging batch would divide by zero in the source, while Next goes on.
        Only Valid, which every RunState method keeps, and Begin rule such
        states out. */
    ghost predicate Valid()
      reads this
    {
      lastLogStep <= trainStep
    }

    constructor (cfg: Config)
      ensures this.cfg == cfg && Snapshot() == Fresh(cfg) && Valid()
    {
      this.cfg := cfg;
      tokenCount, trainStep, trainLoss, lastLogStep := 0, 0, 0.0, 0;
      bestValLoss, epoch, rate, checkpoints := None, 0, Fixed(cfg.lr), [];
    }

    /** One iteration of the batch loop of train() (train.py:474-596). */
    method Step(x: StepInput) returns (outcome: StepOutcome, action: Option<LrAction>, logged: bool, evaluated: bool)
      requires Valid()
      modifies this
      ensures Valid()
      ensures Next(cfg, old(Snapshot()), x) == Transition(Snapshot(), outcome, action, logged, evaluated)
    {
      ghost var s := Snapshot();
      action, logged, evaluated := None, false, false;
      var fault := BatchFault(x.batch);
      if fault.Some? {
        outcome := Failed(fault.value);
        return;
      }
      if !LogDefined(cfg, trainStep) {
        outcome := Failed(ZeroLogInterval);
        return;
      }
      assert Admitted(cfg, s, x);
      var seqLen: nat := x.batch.seqLen;
      var totalTokens := x.globalWidth * seqLen;
      var shouldLog := ShouldLog(cfg, trainStep);
      tokenCount := tokenCount + totalTokens;
      trainLoss := trainLoss + x.loss;
      trainStep := trainStep + 1;
      ghost var s0 := Snapshot();
      assert s0 == Account(s, x);

      var a := ChooseLrAction(cfg.scheduler, cfg.lr, cfg.warmupTokens, cfg.fp16 && x.overflow, tokenCount);
      assert a == ActionOf(cfg, s0, x);
      action := Some(a);
      if a.SchedulerStep? && !HasScheduler(cfg.scheduler) {
        outcome := Failed(MissingScheduler);
        assert Next(cfg, s, x) == Transition(s0, outcome, action, false, false);
        return;
      }
      rate := ApplyRate(rate, a);

      if shouldLog {
        trainLoss := 0.0;
        lastLogStep := trainStep;
        logged := true;
      }
      ghost var s1 := Snapshot();
      assert s1 == LogReset(s0.(rate := ApplyRate(s0.rate, a)), shouldLog);

      if cfg.evalInterval == 0 {
        outcome := Failed(ZeroEvalInterval);
        assert Next(cfg, s, x) == Transition(s1, outcome, action, logged, false);
        return;
      }
      if trainStep % cfg.evalInterval == 0 {
        evaluated := true;
        if x.valLoss.Err? {
          outcome := Failed(EvalFailed(x.valLoss.error));
          return;
        }
        KeepBest(x.valLoss.value);
      }

      outcome := if cfg.maxTokens <= tokenCount then Finished else Continue;
    }

    /** The best-checkpoint bookkeeping after an evaluation (train.py:570-575). */
    method KeepBest(valLoss: real)
      modifies this
      ensures Snapshot() == RecordEval(cfg, old(Snapshot()), valLoss)
    {
      if Improves(bestValLoss, valLoss) {
        if !cfg.debug {
          checkpoints := checkpoints + [Best];
        }
        bestValLoss := Some(valLoss);
      }
    }

    /** The batch loop of train(): Step on each batch until one of them stops
        or crashes the run. */
    method TrainBatches(xs: seq<StepInput>) returns (outcome: EpochOutcome, processed: nat)
      requires Valid()
      modifies this
      ensures Valid()
      ensures RunBatches(cfg, old(Snapshot()), xs) == EpochRun(Snapshot(), outcome, processed)
    {
      ghost var s0 := Snapshot();
      var i := 0;
      while i < |xs|
        invariant 0 <= i <= |xs| && Valid()
        invariant RunBatches(cfg, s0, xs[..i]) == EpochRun(Snapshot(), Drained, i)
      {
        assert xs[..i + 1][..i] == xs[..i];
        var o, _, _, _ := Step(xs[i]);
        if o != Continue {
          outcome, processed := EpochOutcomeOf(o), i + 1;
          RunBatchesStoppedAt(cfg, s0, xs, processed);
          return;
        }
        i := i + 1;
      }
      assert xs[..i] == xs;
      outcome, processed := Drained, i;
    }

    /** train() for epoch `n` over the batches of its stream. */
    method Train(n: nat, xs: seq<StepInput>) returns (outcome: EpochOutcome, processed: nat)
      requires Valid()
      modifies this
      ensures Valid()
      ensures RunEpoch(cfg, old(Snapshot()), n, xs) == EpochRun(Snapshot(), outcome, processed)
    {
      epoch := n;
      outcome, processed := TrainBatches(xs);
      if outcome.Drained? && cfg.checkpointEachEpoch {
        checkpoints := checkpoints + [EpochTag(n)];
      }
    }

    /** The epoch loop of main() over epochs 1 to |full|, each run to the end
        of its stream unless it stops or crashes the run. */
    method TrainEpochs(full: seq<seq<StepInput>>) returns (outcome: EpochOutcome, batches: nat)
      requires Valid()
      modifies this
      ensures Valid()
      ensures RunEpochs(cfg, old(Snapshot()), full) == EpochsRun(Snapshot(), outcome, batches)
    {
      ghost var s0 := Snapshot();
      batches := 0;
      var i := 0;
      while i < |full|
        invariant 0 <= i <= |full| && Valid()
        invariant RunEpochs(cfg, s0, full[..i]) == EpochsRun(Snapshot(), Drained, batches)
      {
        var o, k := Train(i + 1, full[i]);
        RunEpochsStep(cfg, s0, full, i);
        batches := batches + k;
        if o != Drained {
          outcome := o;
          RunEpochsStoppedAt(cfg, s0, full, i + 1);
          return;
        }
        i := i + 1;
      }
      assert full[..i] == full;
      outcome := Drained;
    }

    /** main() from train.py:698 to the end of its training loop. */
    method RunTraining(full: seq<seq<StepInput>>, last: seq<StepInput>) returns (end: RunEnd, batches: nat)
      modifies this
      ensures Valid()
      ensures RunAll(cfg, old(Snapshot()), full, last) == TrainingRun(Snapshot(), end, batches)
    {
      if cfg.checkpointEachEpoch {
        checkpoints := checkpoints + [EpochTag(0)];
      }
      trainStep, trainLoss, lastLogStep, bestValLoss := 0, 0.0, 0, None;
      assert Snapshot() == Begin(cfg, old(Snapshot()));
      var o, k := TrainEpochs(full);
      batches := k;
      if o != Drained {
        end := EndOf(o);
        return;
      }
      // the interrupted epoch never reaches its end-of-epoch checkpoint
      epoch := |full| + 1;
      o, k := TrainBatches(last);
      batches := batches + k;
      end := EndOf(o);
    }
  }

  /** One more epoch after a prefix of epochs that drained their streams. */
  lemma RunEpochsStep(cfg: Config, s: Counters, es: seq<seq<StepInput>>, i: nat)
    requires i < |es| && RunEpochs(cfg, s, es[..i]).outcome.Drained?
    ensures var r := RunEpochs(cfg, s, es[..i]);
            var ep := RunEpoch(cfg, r.after, i + 1, es[i]);
            RunEpochs(cfg, s, es[..i + 1]) == EpochsRun(ep.after, ep.outcome, r.batches + ep.processed)
  {
    assert es[..i + 1][..i] == es[..i];
  }

  /** A run of epochs that stopped or crashed within its first `j` epochs. */
  lemma RunEpochsStoppedAt(cfg: Config, s: Counters, es: seq<seq<StepInput>>, j: nat)
    requires j <= |es| && !RunEpochs(cfg, s, es[..j]).outcome.Drained?
    ensures RunEpochs(cfg, s, es) == RunEpochs(cfg, s, es[..j])
  {
    RunEpochsIgnoresRest(cfg, s, es[..j], es[j..]);
    assert es[..j] + es[j..] == es;
  }

  /** A run of batches that stopped or crashed within its first `j` batches. */
  lemma RunBatchesStoppedAt(cfg: Config, s: Counters, xs: seq<StepInput>, j: nat)
    requires j <= |xs| && !RunBatches(cfg, s, xs[..j]).outcome.Drained?
    ensures RunBatches(cfg, s, xs) == RunBatches(cfg, s, xs[..j])
  {
    RunBatchesIgnoresRest(cfg, s, xs[..j], xs[j..]);
    assert xs[..j] + xs[j..] == xs;
  }

  /** Once a run of batches has stopped or crashed, later batches change nothing. */
  lemma {:induction false} RunBatchesIgnoresRest(cfg: Config, s: Counters, xs: seq<StepInput>, ys: seq<StepInput>)
    requires !RunBatches(cfg, s, xs).outcome.Drained?
    ensures RunBatches(cfg, s, xs + ys) == RunBatches(cfg, s, xs)
    decreases |ys|
  {
    if ys == [] {
      assert xs + ys == xs;
    } else {
      var init := ys[..|ys| - 1];
      RunBatchesIgnoresRest(cfg, s, xs, init);
      var zs := xs + ys;
      assert zs != [] && zs[..|zs| - 1] == xs + init;
      assert RunBatches(cfg, s, zs) == RunBatches(cfg, s, xs + init);
    }
  }

  /** Once an epoch has stopped or crashed, later epochs change nothing. */
  lemma {:induction false} RunEpochsIgnoresRest(cfg: Config, s: Counters, es: seq<seq<StepInput>>, fs: seq<seq<StepInput>>)
    requires !RunEpochs(cfg, s, es).outcome.Drained?
    ensures RunEpochs(cfg, s, es + fs) == RunEpochs(cfg, s, es)
    decreases |fs|
  {
    if fs == [] {
      assert es + fs == es;
    } else {
      var init := fs[..|fs| - 1];
      RunEpochsIgnoresRest(cfg, s, es, init);
      var gs := es + fs;
      assert gs != [] && gs[..|gs| - 1] == es + init;
      assert RunEpochs(cfg, s, gs) == RunEpochs(cfg, s, es + init);
    }
  }
}
