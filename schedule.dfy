/** The learning-rate dispatch that follows every batch of the training loop
    (train.py:508-520), with the optimizer and scheduler reduced to the action
    the loop asks of them. */
module Schedule {

  /** The schedule shapes accepted by the --scheduler option. */
  datatype SchedulerKind = Cosine | InvSqrt | DevPerf | Constant | Finder

  /** What the loop does to the learning rate after a batch. */
  datatype LrAction =
    | SkipOverflow              // fp16 overflow: neither the rate nor the scheduler is touched
    | Warmup(rate: real)        // the rate of parameter group 0 is set directly
    | SchedulerStep(count: nat) // scheduler.step(count)
    | Hold                      // the rate is left as it is

  /** The schedules whose linear warmup the loop computes itself. */
  predicate LoopWarmup(kind: SchedulerKind) {
    kind == Cosine || kind == Constant || kind == DevPerf
  }

  /** Whether main() builds a scheduler object for this kind (train.py:646-654);
      for every other kind the global `scheduler` stays None. */
  predicate HasScheduler(kind: SchedulerKind) {
    kind == Cosine || kind == Finder
  }

  /** The linear warmup rate `lr * count / warmup_tokens`. */
  function WarmupRate(lr: real, count: nat, warmupTokens: int): real
    requires count < warmupTokens
  {
    lr * (count as real) / (warmupTokens as real)
  }

  /** The action taken once the token count has reached `count`;
      `overflowed` is `fp16 and optimizer.overflow`. */
  function ChooseLrAction(kind: SchedulerKind, lr: real, warmupTokens: int,
                          overflowed: bool, count: nat): (a: LrAction)
    ensures a == SkipOverflow <==> overflowed
    ensures a.Warmup? <==> !overflowed && LoopWarmup(kind) && count < warmupTokens
    ensures a.Warmup? ==> a.rate * (warmupTokens as real) == lr * (count as real)
    ensures a.SchedulerStep? <==>
              !overflowed && (kind == Cosine || !LoopWarmup(kind)) &&
              (LoopWarmup(kind) ==> warmupTokens <= count)
    ensures a.SchedulerStep? ==> a.count == count
    ensures a == Hold <==>
              !overflowed && (kind == Constant || kind == DevPerf) && warmupTokens <= count
  {
    if overflowed then SkipOverflow
    else if LoopWarmup(kind) then
      if count < warmupTokens then Warmup(WarmupRate(lr, count, warmupTokens))
      else if kind == Cosine then SchedulerStep(count)
      else Hold
    else SchedulerStep(count)
  }

  /** During warmup the rate grows with the token count from zero and stays
      strictly below the base rate. */
  lemma WarmupRamp(lr: real, c1: nat, c2: nat, warmupTokens: int)
    requires 0.0 < lr && c1 <= c2 < warmupTokens
    ensures WarmupRate(lr, 0, warmupTokens) == 0.0
    ensures 0.0 <= WarmupRate(lr, c1, warmupTokens) <= WarmupRate(lr, c2, warmupTokens)
    ensures WarmupRate(lr, c2, warmupTokens) < lr
  {
    var w := warmupTokens as real;
    assert 0.0 < w;
    assert lr * (c1 as real) <= lr * (c2 as real);
    assert lr * (c2 as real) < lr * w;
    DivMonotone(lr * (c1 as real), lr * (c2 as real), w);
    DivBelow(lr * (c2 as real), lr, w);
  }

  lemma DivMonotone(x: real, y: real, w: real)
    requires 0.0 <= x <= y && 0.0 < w
    ensures 0.0 <= x / w <= y / w
  {
  }

  lemma DivBelow(x: real, l: real, w: real)
    requires x < l * w && 0.0 < w
    ensures x / w < l
  {
    assert x / w * w == x;
  }
}
