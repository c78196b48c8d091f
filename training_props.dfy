/** What the per-batch bookkeeping and the loops around it guarantee. */
module TrainingProps {
  import opened Wrappers
  import opened Schedule
  import opened Evaluation
  import opened Training

  // ---------------------------------------------------------------------------
  // The batch check

  /** On batches of at most two rows the check is exactly the shift contract
      together with the right seq_len; LaterRowsUnchecked shows that on longer
      batches it is weaker. */
  lemma BatchCheckAccepts(b: Batch)
    requires |b.data| <= 2
    ensures BatchFault(b).None? <==> b.seqLen == |b.data| && FullyShifted(b)
  {
    if |b.data| == 2 && BatchFault(b).None? {
      forall i | 1 <= i < |b.data|
        ensures i - 1 < |b.target| && b.data[i] == b.target[i - 1]
      {
        assert i == 1;
      }
    }
  }

  /** A batch that is shifted by one everywhere and has the right seq_len passes. */
  lemma ShiftedBatchPasses(b: Batch)
    requires FullyShifted(b) && b.seqLen == |b.data|
    ensures BatchFault(b).None?
  {
    if |b.data| >= 2 {
      assert 1 <= 1 < |b.data|;
    }
  }

  /** Only position 1 is checked: a batch whose later rows break the shift passes. */
  lemma LaterRowsUnchecked()
    ensures var b := Batch([[1], [2], [3]], [[2], [7], [4]], 3);
            BatchFault(b).None? && !FullyShifted(b)
  {
    var b := Batch([[1], [2], [3]], [[2], [7], [4]], 3);
    assert b.data[2] != b.target[2 - 1];
  }

  // ---------------------------------------------------------------------------
  // One batch

  /** The learning-rate action is taken from the updated token count; an fp16
      overflow leaves the rate alone; scheduler.step raises for the schedules
      main() builds no scheduler for. */
  lemma NextLrDispatch(cfg: Config, s: Counters, x: StepInput)
    requires Admitted(cfg, s, x)
    ensures var t := Next(cfg, s, x);
            && t.action == Some(ChooseLrAction(cfg.scheduler, cfg.lr, cfg.warmupTokens,
                                               cfg.fp16 && x.overflow, t.after.tokenCount))
            && (cfg.fp16 && x.overflow ==> t.action == Some(SkipOverflow) && t.after.rate == s.rate)
            && (t.outcome == Failed(MissingScheduler) <==>
                  t.action.value.SchedulerStep? && !HasScheduler(cfg.scheduler))
  {
  }

  /** With --scheduler inv_sqrt, the first batch without overflow raises. */
  lemma InvSqrtRaises(cfg: Config, s: Counters, x: StepInput)
    requires cfg.scheduler == InvSqrt && Admitted(cfg, s, x) && !(cfg.fp16 && x.overflow)
    ensures Next(cfg, s, x).outcome == Failed(MissingScheduler)
  {
  }

  /** Logging happens iff should_log held for the step count before the
      increment; it resets the loss accumulator and remembers the new step,
      which lies strictly after the previous log step. */
  lemma NextLogging(cfg: Config, s: Counters, x: StepInput)
    ensures var t := Next(cfg, s, x);
            && (t.logged <==>
                  Admitted(cfg, s, x) && t.outcome != Failed(MissingScheduler) && ShouldLog(cfg, s.trainStep))
            && (t.logged ==> t.after.trainLoss == 0.0 && t.after.lastLogStep == t.after.trainStep)
            && (t.logged && s.lastLogStep <= s.trainStep ==> s.lastLogStep < t.after.trainStep)
            && (Admitted(cfg, s, x) && !t.logged ==>
                  t.after.trainLoss == s.trainLoss + x.loss && t.after.lastLogStep == s.lastLogStep)
  {
  }

  /** Evaluation runs iff the updated step count is a multiple of eval_interval;
      an improving loss becomes the best and writes one "best" checkpoint unless
      in debug mode; anything else leaves both alone. */
  lemma NextEvaluation(cfg: Config, s: Counters, x: StepInput)
    ensures var t := Next(cfg, s, x);
            var improved := t.evaluated && x.valLoss.Ok? && Improves(s.bestValLoss, x.valLoss.value);
            && (t.evaluated <==>
                  Admitted(cfg, s, x) && t.outcome != Failed(MissingScheduler) && cfg.evalInterval != 0 &&
                  t.after.trainStep % cfg.evalInterval == 0)
            && t.after.bestValLoss == (if improved then Some(x.valLoss.value) else s.bestValLoss)
            && t.after.checkpoints == s.checkpoints + (if improved && !cfg.debug then [Best] else [])
  {
  }

  /** A best loss that is set and nonzero never gets worse. */
  lemma NextBestNeverWorse(cfg: Config, s: Counters, x: StepInput)
    requires s.bestValLoss.Some? && s.bestValLoss.value != 0.0
    ensures var t := Next(cfg, s, x);
            t.after.bestValLoss.Some? && t.after.bestValLoss.value <= s.bestValLoss.value
  {
  }

  /** `not best_val_loss` is true of a best of 0.0: whatever loss the next
      evaluation returns replaces it. */
  lemma ZeroBestIsReplaced(cfg: Config, s: Counters, x: StepInput)
    requires s.bestValLoss == Some(0.0) && x.valLoss.Ok?
    requires Next(cfg, s, x).evaluated
    ensures Next(cfg, s, x).after.bestValLoss == Some(x.valLoss.value)
  {
  }

  /** The run stops right after the batch that brings the count to the budget;
      the failures are exactly the faults of Fault. */
  lemma NextStop(cfg: Config, s: Counters, x: StepInput)
    ensures var t := Next(cfg, s, x);
            && (t.outcome == Finished <==> !t.outcome.Failed? && cfg.maxTokens <= t.after.tokenCount)
            && (t.outcome.Failed? <==>
                  !Admitted(cfg, s, x) || t.outcome == Failed(MissingScheduler) || cfg.evalInterval == 0 ||
                  (t.evaluated && x.valLoss.Err?))
  {
  }

  // ---------------------------------------------------------------------------
  // A run of batches

  /** The tokens of a sequence of batches. */
  function TokenSum(xs: seq<StepInput>): int {
    if xs == [] then 0 else TokenSum(xs[..|xs| - 1]) + BatchTokens(xs[|xs| - 1])
  }

  /** Unless a batch raised, the token count grows by the tokens of exactly the
      batches processed, and the step count by their number. */
  lemma {:induction false} BatchesAreCounted(cfg: Config, s: Counters, xs: seq<StepInput>)
    ensures var r := RunBatches(cfg, s, xs);
            !r.outcome.Crashed? ==>
              r.after.tokenCount == s.tokenCount + TokenSum(xs[..r.processed]) &&
              r.after.trainStep == s.trainStep + r.processed
    decreases |xs|
  {
    if xs != [] {
      var init := xs[..|xs| - 1];
      BatchesAreCounted(cfg, s, init);
      var r := RunBatches(cfg, s, init);
      if r.outcome.Drained? {
        assert init[..r.processed] == init;
        assert xs[..|xs|][..|xs| - 1] == init;
        assert xs[..|xs|] == xs;
      } else {
        assert xs[..r.processed] == init[..r.processed];
      }
    }
  }

  /** A run that drained its batches never reached the budget. */
  lemma {:induction false} DrainedBelowBudget(cfg: Config, s: Counters, xs: seq<StepInput>)
    requires s.tokenCount < cfg.maxTokens
    ensures var r := RunBatches(cfg, s, xs);
            r.outcome.Drained? ==> r.after.tokenCount < cfg.maxTokens
    decreases |xs|
  {
    if xs != [] {
      DrainedBelowBudget(cfg, s, xs[..|xs| - 1]);
    }
  }

  /** A run that stopped did so at the first batch that brought the count to the
      budget: the batches before it left the count below the budget. */
  lemma {:induction false} StopIsFirstCrossing(cfg: Config, s: Counters, xs: seq<StepInput>)
    requires s.tokenCount < cfg.maxTokens
    ensures var r := RunBatches(cfg, s, xs);
            r.outcome.Stopped? ==>
              && 1 <= r.processed
              && cfg.maxTokens <= r.after.tokenCount
              && var before := RunBatches(cfg, s, xs[..r.processed - 1]);
                 before.outcome.Drained? && before.after.tokenCount < cfg.maxTokens
    decreases |xs|
  {
    if xs != [] {
      var init := xs[..|xs| - 1];
      var r := RunBatches(cfg, s, init);
      StopIsFirstCrossing(cfg, s, init);
      if r.outcome.Drained? {
        DrainedBelowBudget(cfg, s, init);
        assert xs[..|xs| - 1] == init;
      } else if r.outcome.Stopped? {
        assert xs[..r.processed - 1] == init[..r.processed - 1];
      }
    }
  }

  /** In debug mode no batch writes a checkpoint. */
  lemma {:induction false} DebugWritesNothing(cfg: Config, s: Counters, xs: seq<StepInput>)
    requires cfg.debug
    ensures RunBatches(cfg, s, xs).after.checkpoints == s.checkpoints
    decreases |xs|
  {
    if xs != [] {
      var init := xs[..|xs| - 1];
      DebugWritesNothing(cfg, s, init);
      var r := RunBatches(cfg, s, init);
      if r.outcome.Drained? {
        NextEvaluation(cfg, r.after, xs[|xs| - 1]);
      }
    }
  }

  /** With --scheduler constant, a rate below the base rate stays below it: the
      loop sets only warmup rates and afterwards holds the last one, so the base
      rate is never restored once warmup has started. */
  lemma {:induction false} ConstantRateStaysBelowBase(cfg: Config, s: Counters, xs: seq<StepInput>)
    requires cfg.scheduler == Constant && 0.0 < cfg.lr
    requires s.rate.Fixed? && 0.0 <= s.rate.value < cfg.lr
    ensures var r := RunBatches(cfg, s, xs).after.rate;
            r.Fixed? && 0.0 <= r.value < cfg.lr
    decreases |xs|
  {
    if xs != [] {
      var init := xs[..|xs| - 1];
      ConstantRateStaysBelowBase(cfg, s, init);
      var r := RunBatches(cfg, s, init);
      if r.outcome.Drained? {
        ConstantRateAtMostBase(cfg, r.after, xs[|xs| - 1]);
      }
    }
  }

  /** With --scheduler constant, if no batch ends with the count below
      warmup_tokens (for example with the default warmup_tokens of 0), the rate
      stays the base rate for the whole run. */
  lemma {:induction false} ConstantRateWithoutWarmup(cfg: Config, s: Counters, xs: seq<StepInput>)
    requires cfg.scheduler == Constant && cfg.warmupTokens <= s.tokenCount
    requires s.rate == Fixed(cfg.lr)
    ensures RunBatches(cfg, s, xs).after.rate == Fixed(cfg.lr)
    decreases |xs|
  {
    if xs != [] {
      var init := xs[..|xs| - 1];
      ConstantRateWithoutWarmup(cfg, s, init);
      var r := RunBatches(cfg, s, init);
      if r.outcome.Drained? && Admitted(cfg, r.after, xs[|xs| - 1]) {
        NextLrDispatch(cfg, r.after, xs[|xs| - 1]);
      }
    }
  }

  /** Under the constant schedule the rate is a warmup rate or the base rate. */
  lemma ConstantRateAtMostBase(cfg: Config, s: Counters, x: StepInput)
    requires cfg.scheduler == Constant && 0.0 < cfg.lr
    requires s.rate.Fixed? && 0.0 <= s.rate.value <= cfg.lr
    ensures var r := Next(cfg, s, x).after.rate;
            r.Fixed? && 0.0 <= r.value <= cfg.lr && (r.value == cfg.lr ==> r == s.rate)
  {
    if Admitted(cfg, s, x) {
      NextLrDispatch(cfg, s, x);
      var t := Next(cfg, s, x);
      if t.action.value.Warmup? {
        WarmupRamp(cfg.lr, t.after.tokenCount, t.after.tokenCount, cfg.warmupTokens);
      }
    }
  }

  // ---------------------------------------------------------------------------
  // Epochs and the whole run

  /** The per-epoch checkpoints among the tags written. */
  function EpochTags(cs: seq<Tag>): seq<Tag> {
    if cs == [] then []
    else EpochTags(cs[..|cs| - 1]) + (if cs[|cs| - 1].EpochTag? then [cs[|cs| - 1]] else [])
  }

  lemma {:induction false} EpochTagsAppend(a: seq<Tag>, b: seq<Tag>)
    ensures EpochTags(a + b) == EpochTags(a) + EpochTags(b)
    decreases |b|
  {
    if b != [] {
      var init := b[..|b| - 1];
      EpochTagsAppend(a, init);
      var ab := a + b;
      var tail := if b[|b| - 1].EpochTag? then [b[|b| - 1]] else [];
      assert ab != [] && ab[..|ab| - 1] == a + init && ab[|ab| - 1] == b[|b| - 1];
      assert EpochTags(ab) == EpochTags(a + init) + tail;
      assert EpochTags(b) == EpochTags(init) + tail;
    } else {
      assert a + b == a;
    }
  }

  /** The batch loop writes only "best" checkpoints, never a per-epoch one. */
  lemma {:induction false} BatchesWriteNoEpochTag(cfg: Config, s: Counters, xs: seq<StepInput>)
    ensures EpochTags(RunBatches(cfg, s, xs).after.checkpoints) == EpochTags(s.checkpoints)
    decreases |xs|
  {
    if xs != [] {
      var init := xs[..|xs| - 1];
      BatchesWriteNoEpochTag(cfg, s, init);
      var r := RunBatches(cfg, s, init);
      if r.outcome.Drained? {
        var x := xs[|xs| - 1];
        NextEvaluation(cfg, r.after, x);
        var t := Next(cfg, r.after, x);
        var added := t.after.checkpoints[|r.after.checkpoints|..];
        assert t.after.checkpoints == r.after.checkpoints + added;
        assert added == [] || added == [Best];
        assert EpochTags(added) == [] by {
          if added == [Best] {
            assert added[..0] == [];
          }
        }
        EpochTagsAppend(r.after.checkpoints, added);
      }
    }
  }

  /** An epoch writes its checkpoint for epoch `n`, once, exactly when its
      iterator ran dry and checkpoint_each_epoch is set. */
  lemma EpochCheckpoint(cfg: Config, s: Counters, n: nat, xs: seq<StepInput>)
    ensures var r := RunEpoch(cfg, s, n, xs);
            EpochTags(r.after.checkpoints) ==
              EpochTags(s.checkpoints) + (if r.outcome.Drained? && cfg.checkpointEachEpoch then [EpochTag(n)] else [])
  {
    var s1 := s.(epoch := n);
    BatchesWriteNoEpochTag(cfg, s1, xs);
    var r := RunBatches(cfg, s1, xs);
    if r.outcome.Drained? && cfg.checkpointEachEpoch {
      EpochTagsAppend(r.after.checkpoints, [EpochTag(n)]);
      assert [EpochTag(n)][..0] == [];
    }
  }

  /** Unless an epoch raised, the step count grows by the number of batches. */
  lemma {:induction false} EpochsAreCounted(cfg: Config, s: Counters, es: seq<seq<StepInput>>)
    ensures var r := RunEpochs(cfg, s, es);
            !r.outcome.Crashed? ==> r.after.trainStep == s.trainStep + r.batches
    decreases |es|
  {
    if es != [] {
      var init := es[..|es| - 1];
      EpochsAreCounted(cfg, s, init);
      var r := RunEpochs(cfg, s, init);
      if r.outcome.Drained? {
        BatchesAreCounted(cfg, r.after.(epoch := |es|), es[|es| - 1]);
      }
    }
  }

  /** Epochs that ran to the end of their streams stayed below the budget, and
      epochs that stopped reached it. */
  lemma {:induction false} EpochsAgainstBudget(cfg: Config, s: Counters, es: seq<seq<StepInput>>)
    requires s.tokenCount < cfg.maxTokens
    ensures var r := RunEpochs(cfg, s, es);
            && (r.outcome.Drained? ==> r.after.tokenCount < cfg.maxTokens)
            && (r.outcome.Stopped? ==> cfg.maxTokens <= r.after.tokenCount)
    decreases |es|
  {
    if es != [] {
      var init := es[..|es| - 1];
      EpochsAgainstBudget(cfg, s, init);
      var r := RunEpochs(cfg, s, init);
      if r.outcome.Drained? {
        var s1 := r.after.(epoch := |es|);
        DrainedBelowBudget(cfg, s1, es[|es| - 1]);
        StopIsFirstCrossing(cfg, s1, es[|es| - 1]);
      }
    }
  }

  /** main() sees StopIteration only once the token budget is reached, and a
      KeyboardInterrupt always comes before it; unless the run raised, every
      batch processed was one step. */
  lemma RunEndsAgainstBudget(cfg: Config, s: Counters, full: seq<seq<StepInput>>, last: seq<StepInput>)
    requires s.tokenCount < cfg.maxTokens
    ensures var r := RunAll(cfg, s, full, last);
            && (r.end == Completed ==> cfg.maxTokens <= r.after.tokenCount)
            && (r.end == Interrupted ==> r.after.tokenCount < cfg.maxTokens)
            && (!r.end.Aborted? ==> r.after.trainStep == r.batches)
  {
    var s0 := Begin(cfg, s);
    EpochsAgainstBudget(cfg, s0, full);
    EpochsAreCounted(cfg, s0, full);
    var e := RunEpochs(cfg, s0, full);
    if e.outcome.Drained? {
      var s1 := e.after.(epoch := |full| + 1);
      DrainedBelowBudget(cfg, s1, last);
      StopIsFirstCrossing(cfg, s1, last);
      BatchesAreCounted(cfg, s1, last);
    }
  }

  /** A run started from the state at import time ends by StopIteration or a
      KeyboardInterrupt on the budget's two sides. */
  lemma FreshRunEndsAgainstBudget(cfg: Config, full: seq<seq<StepInput>>, last: seq<StepInput>)
    requires 0 < cfg.maxTokens
    ensures var r := RunAll(cfg, Fresh(cfg), full, last);
            && (r.end == Completed ==> cfg.maxTokens <= r.after.tokenCount)
            && (r.end == Interrupted ==> r.after.tokenCount < cfg.maxTokens)
  {
    RunEndsAgainstBudget(cfg, Fresh(cfg), full, last);
  }
}
