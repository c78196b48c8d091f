/** The evaluation routine (train.py:421-456): the model's window lengths are
    traded for evaluation, a length-weighted loss is averaged over at most
    `max_eval_steps` batches, and the training window is put back. */
module Evaluation {
  import opened Wrappers

  /** The model's (tgt_len, ext_len, mem_len) triple. */
  datatype Window = Window(tgt: int, ext: int, mem: int)

  /** What one evaluation batch contributes: its `seq_len` and its mean loss. */
  datatype EvalBatch = EvalBatch(seqLen: nat, loss: real)

  /** `total_loss / total_len` with `total_len == 0` raises ZeroDivisionError. */
  datatype EvalError = EmptyEvaluation

  /** The receptive field of a window. */
  function Span(w: Window): int {
    w.tgt + w.ext + w.mem
  }

  /** The window used for evaluation: the target length becomes `evalTgt`, and
      the lengths given up go to the extended context when the model keeps no
      memory, to the memory otherwise (train.py:429-434). */
  function EvalWindow(train: Window, evalTgt: int): (e: Window)
    ensures e.tgt == evalTgt
    ensures Span(e) == Span(train)
    ensures train.mem == 0 ==> e.mem == 0
    ensures train.mem != 0 ==> e.ext == train.ext
  {
    if train.mem == 0 then Window(evalTgt, train.ext + train.tgt - evalTgt, train.mem)
    else Window(evalTgt, train.ext, train.mem + train.tgt - evalTgt)
  }

  /** The batches the loop gets to: it breaks at index `maxEvalSteps` when that
      is positive, and runs to the end of the stream otherwise. */
  function Capped(batches: seq<EvalBatch>, maxEvalSteps: int): seq<EvalBatch> {
    if 0 < maxEvalSteps < |batches| then batches[..maxEvalSteps] else batches
  }

  /** The sum of `seq_len` over the batches. */
  function TotalLen(batches: seq<EvalBatch>): nat {
    if batches == [] then 0 else TotalLen(batches[..|batches| - 1]) + batches[|batches| - 1].seqLen
  }

  /** The sum of `seq_len * loss` over the batches. */
  function TotalLoss(batches: seq<EvalBatch>): real {
    if batches == [] then 0.0
    else TotalLoss(batches[..|batches| - 1]) + (batches[|batches| - 1].seqLen as real) * batches[|batches| - 1].loss
  }

  /** The value evaluate() returns for the batches it consumed. */
  function MeanLoss(batches: seq<EvalBatch>): Result<real, EvalError> {
    var n := TotalLen(batches);
    if n == 0 then Err(EmptyEvaluation) else Ok(TotalLoss(batches) / (n as real))
  }

  /** The averaging loop of evaluate() (train.py:437-450): the number of batches
      it consumed and `total_loss / total_len` over them. */
  method AverageLoss(batches: seq<EvalBatch>, maxEvalSteps: int) returns (r: Result<real, EvalError>, consumed: nat)
    ensures consumed <= |batches|
    ensures 0 < maxEvalSteps ==> consumed <= maxEvalSteps
    ensures maxEvalSteps <= 0 ==> consumed == |batches|
    ensures batches[..consumed] == Capped(batches, maxEvalSteps)
    ensures r == MeanLoss(Capped(batches, maxEvalSteps))
  {
    var totalLen, totalLoss := 0, 0.0;
    var i := 0;
    while i < |batches|
      invariant 0 <= i <= |batches|
      invariant 0 < maxEvalSteps ==> i <= maxEvalSteps
      invariant totalLen == TotalLen(batches[..i])
      invariant totalLoss == TotalLoss(batches[..i])
    {
      if 0 < maxEvalSteps && maxEvalSteps <= i {
        break;
      }
      assert batches[..i + 1][..i] == batches[..i];
      totalLoss := totalLoss + (batches[i].seqLen as real) * batches[i].loss;
      totalLen := totalLen + batches[i].seqLen;
      i := i + 1;
    }
    consumed := i;
    ConsumedIsCapped(batches, maxEvalSteps, consumed);
    r := if totalLen == 0 then Err(EmptyEvaluation) else Ok(totalLoss / (totalLen as real));
  }

  /** The batches AverageLoss consumes are exactly those Capped keeps. */
  lemma ConsumedIsCapped(batches: seq<EvalBatch>, maxEvalSteps: int, consumed: nat)
    requires consumed <= |batches|
    requires 0 < maxEvalSteps ==> consumed <= maxEvalSteps
    requires maxEvalSteps <= 0 ==> consumed == |batches|
    requires consumed < |batches| ==> 0 < maxEvalSteps && consumed == maxEvalSteps
    ensures batches[..consumed] == Capped(batches, maxEvalSteps)
  {
  }

  /** The length-weighted sum is bounded by the smallest and the largest batch
      loss, each weighted by the total length. */
  lemma {:induction false} TotalLossBounds(batches: seq<EvalBatch>, lo: real, hi: real)
    requires forall i :: 0 <= i < |batches| ==> lo <= batches[i].loss <= hi
    ensures lo * (TotalLen(batches) as real) <= TotalLoss(batches) <= hi * (TotalLen(batches) as real)
  {
    if batches != [] {
      var init, last := batches[..|batches| - 1], batches[|batches| - 1];
      assert forall i :: 0 <= i < |init| ==> init[i] == batches[i];
      TotalLossBounds(init, lo, hi);
      var n := last.seqLen as real;
      var t := TotalLen(init) as real;
      assert TotalLoss(batches) == TotalLoss(init) + n * last.loss;
      assert 0.0 <= n;
      assert lo <= last.loss <= hi;
      ProductNonNegative(last.loss - lo, n);
      ProductNonNegative(hi - last.loss, n);
      assert lo * n <= n * last.loss <= hi * n;
      assert (TotalLen(batches) as real) == t + n;
      assert lo * (t + n) == lo * t + lo * n;
      assert hi * (t + n) == hi * t + hi * n;
    }
  }

  lemma ProductNonNegative(x: real, y: real)
    requires 0.0 <= x && 0.0 <= y
    ensures 0.0 <= x * y
  {
  }

  /** The returned loss is a weighted average: it lies between the smallest and
      the largest batch loss. */
  lemma MeanLossBetween(batches: seq<EvalBatch>, lo: real, hi: real)
    requires forall i :: 0 <= i < |batches| ==> lo <= batches[i].loss <= hi
    requires MeanLoss(batches).Ok?
    ensures lo <= MeanLoss(batches).value <= hi
  {
    TotalLossBounds(batches, lo, hi);
    QuotientBetween(TotalLoss(batches), TotalLen(batches) as real, lo, hi);
  }

  lemma QuotientBetween(x: real, n: real, lo: real, hi: real)
    requires 0.0 < n && lo * n <= x <= hi * n
    ensures lo <= x / n <= hi
  {
    assert x / n * n == x;
  }

  /** The batches hold no tokens exactly when every one of them has seq_len 0. */
  lemma {:induction false} NoTokensIffEmptyBatches(batches: seq<EvalBatch>)
    ensures TotalLen(batches) == 0 <==> forall i :: 0 <= i < |batches| ==> batches[i].seqLen == 0
    decreases |batches|
  {
    if batches != [] {
      var init := batches[..|batches| - 1];
      NoTokensIffEmptyBatches(init);
      assert forall i :: 0 <= i < |init| ==> init[i] == batches[i];
    }
  }

  /** evaluate() fails exactly when every batch it consumed has seq_len 0. */
  lemma MeanLossFailsIffNoTokens(batches: seq<EvalBatch>, maxEvalSteps: int)
    ensures var c := Capped(batches, maxEvalSteps);
            MeanLoss(c).Err? <==> forall i :: 0 <= i < |c| ==> c[i].seqLen == 0
  {
    NoTokensIffEmptyBatches(Capped(batches, maxEvalSteps));
  }

  /** The model whose window lengths evaluate() changes and restores. */
  class MemTransformer {
    var tgtLen: int
    var extLen: int
    var memLen: int
    var training: bool

    function CurrentWindow(): Window
      reads this
    {
      Window(tgtLen, extLen, memLen)
    }

    constructor (w: Window)
      ensures CurrentWindow() == w && training
    {
      tgtLen, extLen, memLen := w.tgt, w.ext, w.mem;
      training := true;
    }

    /** reset_length(tgt_len, ext_len, mem_len) */
    method ResetLength(w: Window)
      modifies this
      ensures CurrentWindow() == w && training == old(training)
    {
      tgtLen, extLen, memLen := w.tgt, w.ext, w.mem;
    }

    /** model.train() / model.eval() */
    method SetTraining(on: bool)
      modifies this
      ensures training == on && CurrentWindow() == old(CurrentWindow())
    {
      training := on;
    }
  }

  /** evaluate(eval_iter): `train` is the configured training window, `batches`
      the stream with the losses the model produces under the evaluation window.
      Returns the average, and the window and the mode that were in force while
      the batches ran. */
  method Evaluate(model: MemTransformer, train: Window, evalTgt: int,
                  batches: seq<EvalBatch>, maxEvalSteps: int)
      returns (r: Result<real, EvalError>, used: Window, usedTraining: bool)
    modifies model
    ensures used == EvalWindow(train, evalTgt) && Span(used) == Span(train)
    ensures !usedTraining
    ensures r == MeanLoss(Capped(batches, maxEvalSteps))
    ensures model.CurrentWindow() == train && model.training
  {
    model.SetTraining(false);
    model.ResetLength(EvalWindow(train, evalTgt));
    used, usedTraining := model.CurrentWindow(), model.training;
    var consumed;
    r, consumed := AverageLoss(batches, maxEvalSteps);
    model.ResetLength(train);
    model.SetTraining(true);
  }
}
