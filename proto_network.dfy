/** The prototypical-network meta-learning controller: construction from a
    configuration, the early-stopping / checkpoint training loop, and the two
    evaluation routines. The learner and the sequence scorer are opaque: their
    results enter as parameters. */
module ProtoNetwork {
  import opened Results

  // ---------------------------------------------------------------------------
  // Configuration and construction
  // ---------------------------------------------------------------------------

  /** The configuration keys the controller reads; a missing optional
      `stopping_threshold` is `None`. */
  datatype Config = Config(
    basePath: string,
    stamp: string,
    numUpdates: int,
    numMetaEpochs: int,
    earlyStopping: int,
    stoppingThreshold: Option<real>,
    metaModel: string)

  /** The two encoder variants the model name can select. */
  datatype LearnerKind = SeqProto | SeqProtoOnline

  const DefaultStoppingThreshold: real := 0.001

  /** `needle` occurs in `haystack` starting at index `i`. */
  ghost predicate OccursAt(haystack: string, needle: string, i: int)
  {
    0 <= i && i + |needle| <= |haystack| && haystack[i..i + |needle|] == needle
  }

  /** Python's substring test `needle in haystack`. */
  predicate Contains(haystack: string, needle: string)
    decreases |haystack|
  {
    if |needle| > |haystack| then false
    else if haystack[..|needle|] == needle then true
    else Contains(haystack[1..], needle)
  }

  lemma {:induction false} ContainsIffOccurs(haystack: string, needle: string)
    ensures Contains(haystack, needle) <==> exists i :: OccursAt(haystack, needle, i)
    decreases |haystack|
  {
    if |needle| > |haystack| {
    } else if haystack[..|needle|] == needle {
      assert OccursAt(haystack, needle, 0);
    } else {
      var tail := haystack[1..];
      ContainsIffOccurs(tail, needle);
      if exists i :: OccursAt(haystack, needle, i) {
        var i :| OccursAt(haystack, needle, i);
        assert i != 0;
        assert tail[i - 1..i - 1 + |needle|] == haystack[i..i + |needle|];
        assert OccursAt(tail, needle, i - 1);
      }
      if exists j :: OccursAt(tail, needle, j) {
        var j :| OccursAt(tail, needle, j);
        assert haystack[j + 1..j + 1 + |needle|] == tail[j..j + |needle|];
        assert OccursAt(haystack, needle, j + 1);
      }
    }
  }

  /** The encoder the two selection tests leave in place: the online test
      runs second, so it wins whenever its word occurs. */
  function SelectedLearner(name: string): Option<LearnerKind>
  {
    if Contains(name, "online") then Some(SeqProtoOnline)
    else if Contains(name, "seq") then Some(SeqProto)
    else None
  }

  /** Selection by where the words occur in the model name: the online
      variant exactly when "online" occurs anywhere, the plain one exactly
      when "seq" occurs and "online" does not, none when neither occurs. */
  lemma SelectionByOccurrence(name: string)
    ensures SelectedLearner(name) == Some(SeqProtoOnline) <==> exists j :: OccursAt(name, "online", j)
    ensures SelectedLearner(name) == Some(SeqProto) <==>
              (exists i :: OccursAt(name, "seq", i)) && !(exists j :: OccursAt(name, "online", j))
    ensures SelectedLearner(name) == None <==>
              !(exists i :: OccursAt(name, "seq", i)) && !(exists j :: OccursAt(name, "online", j))
  {
    ContainsIffOccurs(name, "seq");
    ContainsIffOccurs(name, "online");
  }

  /** Any model name in which both words occur, wherever they occur, passes
      both substring tests, and the later, online selection is the one that
      stays. */
  lemma BothWordsSelectOnline(name: string, i: int, j: int)
    requires OccursAt(name, "seq", i) && OccursAt(name, "online", j)
    ensures Contains(name, "seq") && Contains(name, "online")
    ensures SelectedLearner(name) == Some(SeqProtoOnline)
  {
    ContainsIffOccurs(name, "seq");
    ContainsIffOccurs(name, "online");
  }

  // ---------------------------------------------------------------------------
  // The early-stopping state machine
  // ---------------------------------------------------------------------------

  /** `best_loss` starts as floating-point infinity. */
  datatype Loss = Infinite | Finite(value: real)

  /** What one epoch's validation yields once the opaque learner has run on the
      sampled episodes and the external scorer has scored its predictions: the
      sequence-level F1 and the mean validation loss. */
  datatype EpochOutcome = EpochOutcome(valF1: real, valLoss: real)

  /** The loop's local state: epochs executed so far, the best F1 and its loss,
      the patience counter, the epochs (0-based) at which a checkpoint was
      written, and whether the early-stopping `break` has fired. */
  datatype TrainState = TrainState(
    epochsRun: nat,
    bestF1: real,
    bestLoss: Loss,
    patience: nat,
    saves: seq<nat>,
    stopped: bool)

  /** The failures of the controller's runs, each an uncaught Python error:
      no learner was selected (AttributeError), the validation pool is smaller
      than the sample drawn from it (ValueError from `random.sample`), or the
      scorer is reached with no episode bound (NameError). */
  datatype RunError = NoLearner | SampleLargerThanPopulation | NoEpisodes

  /** The number of validation episodes sampled each epoch. */
  const ValidationSampleSize: nat := 200

  const Start: TrainState := TrainState(0, 0.0, Infinite, 0, [], false)

  /** An epoch counts as improved when its F1 beats the best by more than the
      margin. */
  predicate Improves(f1: real, bestF1: real, threshold: real)
  {
    f1 > bestF1 + threshold
  }

  /** One epoch of the loop body applied to a running state. */
  function Step(s: TrainState, o: EpochOutcome, threshold: real, earlyStopping: int): TrainState
  {
    if Improves(o.valF1, s.bestF1, threshold) then
      TrainState(s.epochsRun + 1, o.valF1, Finite(o.valLoss), 0, s.saves + [s.epochsRun], false)
    else
      TrainState(s.epochsRun + 1, s.bestF1, s.bestLoss, s.patience + 1, s.saves,
                 s.patience + 1 == earlyStopping)
  }

  /** The state after the loop has been offered the first `n` epochs; once
      stopped it no longer changes. */
  function Run(outcomes: seq<EpochOutcome>, n: nat, threshold: real, earlyStopping: int): TrainState
    requires n <= |outcomes|
  {
    if n == 0 then Start
    else
      var s := Run(outcomes, n - 1, threshold, earlyStopping);
      if s.stopped then s else Step(s, outcomes[n - 1], threshold, earlyStopping)
  }

  /** `range(meta_epochs)` has no element when `meta_epochs` is not positive. */
  function EpochLimit(metaEpochs: int): nat
  {
    if metaEpochs < 0 then 0 else metaEpochs
  }

  /** What holds of every reachable state: saves are increasing epochs already
      run; the best F1 and loss are those of the last save (0 and infinity
      before any); patience counts the epochs since the last save; and the
      stop flag is exactly "patience reached a positive limit". */
  ghost predicate Consistent(s: TrainState, outcomes: seq<EpochOutcome>, earlyStopping: int)
  {
    && s.epochsRun <= |outcomes|
    && (forall k :: 0 <= k < |s.saves| ==> s.saves[k] < s.epochsRun)
    && (forall j, k :: 0 <= j < k < |s.saves| ==> s.saves[j] < s.saves[k])
    && (s.saves == [] ==>
          s.bestF1 == 0.0 && s.bestLoss == Infinite && s.patience == s.epochsRun)
    && (s.saves != [] ==>
          var last := s.saves[|s.saves| - 1];
          && s.bestF1 == outcomes[last].valF1
          && s.bestLoss == Finite(outcomes[last].valLoss)
          && s.patience == s.epochsRun - 1 - last)
    && (s.stopped ==> s.patience == earlyStopping && earlyStopping >= 1)
    && (!s.stopped && earlyStopping >= 1 ==> s.patience < earlyStopping)
  }

  lemma {:induction false} RunConsistent(outcomes: seq<EpochOutcome>, n: nat, threshold: real, earlyStopping: int)
    requires n <= |outcomes|
    ensures Consistent(Run(outcomes, n, threshold, earlyStopping), outcomes, earlyStopping)
    ensures Run(outcomes, n, threshold, earlyStopping).epochsRun <= n
    ensures !Run(outcomes, n, threshold, earlyStopping).stopped ==>
              Run(outcomes, n, threshold, earlyStopping).epochsRun == n
  {
    if n > 0 {
      RunConsistent(outcomes, n - 1, threshold, earlyStopping);
      var s := Run(outcomes, n - 1, threshold, earlyStopping);
      if !s.stopped {
        var t := Step(s, outcomes[n - 1], threshold, earlyStopping);
        if Improves(outcomes[n - 1].valF1, s.bestF1, threshold) {
          assert t.saves[|t.saves| - 1] == n - 1;
        } else {
          assert t.saves == s.saves;
        }
      }
    }
  }

  /** Once the loop has broken out, offering further epochs changes nothing. */
  lemma {:induction false} RunAfterStop(outcomes: seq<EpochOutcome>, n: nat, m: nat, threshold: real, earlyStopping: int)
    requires n <= m <= |outcomes|
    requires Run(outcomes, n, threshold, earlyStopping).stopped
    ensures Run(outcomes, m, threshold, earlyStopping) == Run(outcomes, n, threshold, earlyStopping)
    decreases m
  {
    if m > n {
      RunAfterStop(outcomes, n, m - 1, threshold, earlyStopping);
    }
  }

  /** Every state before the last executed epoch is a running one that had
      executed exactly its own number of epochs. */
  lemma {:induction false} RunPrefix(outcomes: seq<EpochOutcome>, n: nat, m: nat, threshold: real, earlyStopping: int)
    requires m < n <= |outcomes| && m < Run(outcomes, n, threshold, earlyStopping).epochsRun
    ensures !Run(outcomes, m, threshold, earlyStopping).stopped
    ensures Run(outcomes, m, threshold, earlyStopping).epochsRun == m
    decreases n
  {
    RunConsistent(outcomes, n, threshold, earlyStopping);
    var s := Run(outcomes, n - 1, threshold, earlyStopping);
    RunConsistent(outcomes, n - 1, threshold, earlyStopping);
    if s.stopped || m < n - 1 {
      RunPrefix(outcomes, n - 1, m, threshold, earlyStopping);
    }
  }

  /** Save if and only if improved: epoch `e` wrote a checkpoint exactly when
      its F1 beat the best held before it by more than the margin. */
  lemma {:induction false} SaveIffImproved(outcomes: seq<EpochOutcome>, n: nat, e: nat, threshold: real, earlyStopping: int)
    requires e < n <= |outcomes| && e < Run(outcomes, n, threshold, earlyStopping).epochsRun
    ensures e < |outcomes|
    ensures e in Run(outcomes, n, threshold, earlyStopping).saves <==>
              Improves(outcomes[e].valF1, Run(outcomes, e, threshold, earlyStopping).bestF1, threshold)
    decreases n
  {
    var s := Run(outcomes, n - 1, threshold, earlyStopping);
    RunConsistent(outcomes, n - 1, threshold, earlyStopping);
    if s.stopped {
      SaveIffImproved(outcomes, n - 1, e, threshold, earlyStopping);
    } else if e < n - 1 {
      SaveIffImproved(outcomes, n - 1, e, threshold, earlyStopping);
    } else {
      assert e !in s.saves;
    }
  }

  /** With a non-negative margin the best F1 never decreases. */
  lemma {:induction false} BestMonotone(outcomes: seq<EpochOutcome>, i: nat, j: nat, threshold: real, earlyStopping: int)
    requires i <= j <= |outcomes| && threshold >= 0.0
    ensures Run(outcomes, i, threshold, earlyStopping).bestF1 <= Run(outcomes, j, threshold, earlyStopping).bestF1
    decreases j
  {
    if i < j {
      BestMonotone(outcomes, i, j - 1, threshold, earlyStopping);
    }
  }

  /** The margin is not checked for sign: with margin -0.1, an epoch at 0.45
      after one at 0.5 still counts as an improvement and lowers best F1. */
  lemma NegativeMarginLowersBest(l0: real, l1: real, earlyStopping: int)
    ensures var outcomes := [EpochOutcome(0.5, l0), EpochOutcome(0.45, l1)];
      && Run(outcomes, 1, -0.1, earlyStopping).bestF1 == 0.5
      && Run(outcomes, 2, -0.1, earlyStopping).bestF1 == 0.45
      && Run(outcomes, 2, -0.1, earlyStopping).saves == [0, 1]
  {
    var outcomes := [EpochOutcome(0.5, l0), EpochOutcome(0.45, l1)];
    assert Run(outcomes, 0, -0.1, earlyStopping) == Start;
    assert Run(outcomes, 1, -0.1, earlyStopping) == TrainState(1, 0.5, Finite(l0), 0, [0], false);
  }

  /** The returned best F1 is that of the last checkpointed epoch, or 0 when no
      epoch improved, and the best loss goes with it. */
  lemma BestIsLastSaved(outcomes: seq<EpochOutcome>, n: nat, threshold: real, earlyStopping: int)
    requires n <= |outcomes|
    ensures var s := Run(outcomes, n, threshold, earlyStopping);
      if s.saves == [] then s.bestF1 == 0.0 && s.bestLoss == Infinite
      else s.saves[|s.saves| - 1] < |outcomes| &&
           s.bestF1 == outcomes[s.saves[|s.saves| - 1]].valF1 &&
           s.bestLoss == Finite(outcomes[s.saves[|s.saves| - 1]].valLoss)
  {
    RunConsistent(outcomes, n, threshold, earlyStopping);
  }

  /** With a positive limit the patience never exceeds it; the loop stops
      exactly when patience reaches it, and no earlier state had reached it. */
  lemma PatienceBounded(outcomes: seq<EpochOutcome>, n: nat, threshold: real, earlyStopping: int)
    requires n <= |outcomes| && earlyStopping >= 1
    ensures Run(outcomes, n, threshold, earlyStopping).patience <= earlyStopping
    ensures Run(outcomes, n, threshold, earlyStopping).stopped <==>
              Run(outcomes, n, threshold, earlyStopping).patience == earlyStopping
  {
    RunConsistent(outcomes, n, threshold, earlyStopping);
  }

  /** The break fires at the first epoch whose patience reaches the limit:
      every earlier state was running with patience short of the limit. */
  lemma StopsAtFirstReach(outcomes: seq<EpochOutcome>, n: nat, m: nat, threshold: real, earlyStopping: int)
    requires m < n <= |outcomes| && m < Run(outcomes, n, threshold, earlyStopping).epochsRun
    ensures !Run(outcomes, m, threshold, earlyStopping).stopped
    ensures earlyStopping >= 1 ==> Run(outcomes, m, threshold, earlyStopping).patience < earlyStopping
  {
    RunPrefix(outcomes, n, m, threshold, earlyStopping);
    RunConsistent(outcomes, m, threshold, earlyStopping);
  }

  /** A non-positive limit never stops the loop: every offered epoch runs. */
  lemma NoEarlyStopWhenLimitNonPositive(outcomes: seq<EpochOutcome>, n: nat, threshold: real, earlyStopping: int)
    requires n <= |outcomes| && earlyStopping <= 0
    ensures !Run(outcomes, n, threshold, earlyStopping).stopped
    ensures Run(outcomes, n, threshold, earlyStopping).epochsRun == n
  {
    RunConsistent(outcomes, n, threshold, earlyStopping);
  }

  /** Patience resets to 0 on an improved epoch and otherwise grows by one,
      with the best values untouched. */
  lemma PatienceRule(outcomes: seq<EpochOutcome>, n: nat, threshold: real, earlyStopping: int)
    requires n < |outcomes| && !Run(outcomes, n, threshold, earlyStopping).stopped
    ensures var s, t := Run(outcomes, n, threshold, earlyStopping), Run(outcomes, n + 1, threshold, earlyStopping);
      if Improves(outcomes[n].valF1, s.bestF1, threshold) then
        t.patience == 0 && t.bestF1 == outcomes[n].valF1 && t.bestLoss == Finite(outcomes[n].valLoss) &&
        |t.saves| == |s.saves| + 1
      else
        t.patience == s.patience + 1 && t.bestF1 == s.bestF1 && t.bestLoss == s.bestLoss && t.saves == s.saves
  {
  }

  /** The worked scenario: limit 3, margin 0.001, validation F1 0.40, 0.55,
      0.54, 0.53, 0.50 over six allowed epochs. Epochs 1 and 2 improve, the
      next three do not, and the fifth brings patience to 3 and stops the loop
      with best F1 0.55. */
  lemma ScenarioEarlyStop(l: real)
    ensures var outcomes := [EpochOutcome(0.40, l), EpochOutcome(0.55, l), EpochOutcome(0.54, l),
                             EpochOutcome(0.53, l), EpochOutcome(0.50, l), EpochOutcome(0.99, l)];
      Run(outcomes, 4, 0.001, 3) == TrainState(4, 0.55, Finite(l), 2, [0, 1], false) &&
      Run(outcomes, 6, 0.001, 3) == TrainState(5, 0.55, Finite(l), 3, [0, 1], true)
  {
    var outcomes := [EpochOutcome(0.40, l), EpochOutcome(0.55, l), EpochOutcome(0.54, l),
                     EpochOutcome(0.53, l), EpochOutcome(0.50, l), EpochOutcome(0.99, l)];
    assert Run(outcomes, 1, 0.001, 3) == TrainState(1, 0.40, Finite(l), 0, [0], false);
    assert Run(outcomes, 2, 0.001, 3) == TrainState(2, 0.55, Finite(l), 0, [0, 1], false);
    assert Run(outcomes, 3, 0.001, 3) == TrainState(3, 0.55, Finite(l), 1, [0, 1], false);
    assert Run(outcomes, 4, 0.001, 3) == TrainState(4, 0.55, Finite(l), 2, [0, 1], false);
    assert Run(outcomes, 5, 0.001, 3) == TrainState(5, 0.55, Finite(l), 3, [0, 1], true);
  }

  // ---------------------------------------------------------------------------
  // Aggregation helpers
  // ---------------------------------------------------------------------------

  function Sum(s: seq<real>): real
  {
    if s == [] then 0.0 else Sum(s[..|s| - 1]) + s[|s| - 1]
  }

  /** `np.mean`; on an empty list NumPy yields NaN, which has no counterpart
      here, so the mean is only defined on non-empty input. */
  function Mean(s: seq<real>): real
    requires |s| > 0
  {
    Sum(s) / (|s| as real)
  }

  lemma {:induction false} SumBounds(s: seq<real>, lo: real, hi: real)
    requires forall i :: 0 <= i < |s| ==> lo <= s[i] <= hi
    ensures (|s| as real) * lo <= Sum(s) <= (|s| as real) * hi
  {
    if s != [] {
      SumBounds(s[..|s| - 1], lo, hi);
      var n := (|s| - 1) as real;
      assert (|s| as real) * lo == n * lo + lo;
      assert (|s| as real) * hi == n * hi + hi;
    }
  }

  /** The mean lies between any lower and upper bound of the values. */
  lemma MeanBounds(s: seq<real>, lo: real, hi: real)
    requires |s| > 0
    requires forall i :: 0 <= i < |s| ==> lo <= s[i] <= hi
    ensures lo <= Mean(s) <= hi
  {
    SumBounds(s, lo, hi);
    var n := |s| as real;
    assert Mean(s) * n == Sum(s);
  }

  lemma MeanSmall(a: real, b: real)
    ensures Mean([a]) == a
    ensures Mean([a, b]) == (a + b) / 2.0
  {
    assert [a][..0] == [];
    assert Sum([a]) == a;
    assert [a, b][..1] == [a];
    assert Sum([a, b]) == a + b;
  }

  /** Three episodes scoring 0.2, 0.6 and 0.7 average to 0.5. */
  lemma MeanOfThreeEpisodes()
    ensures Mean([0.2, 0.6, 0.7]) == 0.5
  {
    var s := [0.2, 0.6, 0.7];
    assert s[..2] == [0.2, 0.6];
    assert s[..2][..1] == [0.2];
    assert s[..2][..1][..0] == [];
    assert Sum(s[..2][..1]) == 0.2;
    assert Sum(s[..2]) == 0.2 + 0.6;
    assert Sum(s) == 1.5;
  }

  /** In-order concatenation, as repeated `list.extend`. */
  function Flatten<T>(xss: seq<seq<T>>): seq<T>
  {
    if xss == [] then [] else Flatten(xss[..|xss| - 1]) + xss[|xss| - 1]
  }

  lemma {:induction false} FlattenPrefix<T>(xss: seq<seq<T>>, i: nat)
    requires i <= |xss|
    ensures |Flatten(xss[..i])| <= |Flatten(xss)|
    ensures Flatten(xss[..i]) == Flatten(xss)[..|Flatten(xss[..i])|]
    decreases |xss|
  {
    if i < |xss| {
      var init := xss[..|xss| - 1];
      assert init[..i] == xss[..i];
      FlattenPrefix(init, i);
    } else {
      assert xss[..i] == xss;
    }
  }

  /** Episode `i`'s items sit as one block in the concatenation, after those
      of all earlier episodes. */
  lemma FlattenBlock<T>(xss: seq<seq<T>>, i: nat)
    requires i < |xss|
    ensures |Flatten(xss[..i])| + |xss[i]| <= |Flatten(xss)|
    ensures Flatten(xss)[|Flatten(xss[..i])|..|Flatten(xss[..i])| + |xss[i]|] == xss[i]
  {
    FlattenPrefix(xss, i + 1);
    assert xss[..i + 1][..i] == xss[..i];
    assert Flatten(xss[..i + 1]) == Flatten(xss[..i]) + xss[i];
  }

  /** Pairwise equal block lengths give equal total lengths. */
  lemma {:induction false} FlattenSameLength<T, U>(xss: seq<seq<T>>, yss: seq<seq<U>>)
    requires |xss| == |yss|
    requires forall i :: 0 <= i < |xss| ==> |xss[i]| == |yss[i]|
    ensures |Flatten(xss)| == |Flatten(yss)|
  {
    if xss != [] {
      FlattenSameLength(xss[..|xss| - 1], yss[..|yss| - 1]);
    }
  }

  // ---------------------------------------------------------------------------
  // Learner outputs and evaluation inputs
  // ---------------------------------------------------------------------------

  /** One learner call's result: per-episode metric lists and the flattened
      predictions and gold labels. */
  datatype LearnerOutput = LearnerOutput(
    losses: seq<real>,
    accuracies: seq<real>,
    precisions: seq<real>,
    recalls: seq<real>,
    f1s: seq<real>,
    predictions: seq<int>,
    labels: seq<int>)

  /** The single field of an episode the controller reads. */
  datatype Episode = Episode(tags: seq<string>)

  datatype Scores = Scores(accuracy: real, precision: real, recall: real, f1: real)

  /** Every one-episode call yields at least one value of each metric. */
  predicate AllScored(outputs: seq<LearnerOutput>)
  {
    forall i :: 0 <= i < |outputs| ==>
      |outputs[i].accuracies| > 0 && |outputs[i].precisions| > 0 &&
      |outputs[i].recalls| > 0 && |outputs[i].f1s| > 0
  }

  /** Element 0 of each episode's F1 list, in episode order. */
  function FirstF1s(outputs: seq<LearnerOutput>): (r: seq<real>)
    requires AllScored(outputs)
  {
    seq(|outputs|, i requires 0 <= i < |outputs| => outputs[i].f1s[0])
  }

  function PredictionsOf(outputs: seq<LearnerOutput>): seq<seq<int>>
  {
    seq(|outputs|, i requires 0 <= i < |outputs| => outputs[i].predictions)
  }

  function LabelsOf(outputs: seq<LearnerOutput>): seq<seq<int>>
  {
    seq(|outputs|, i requires 0 <= i < |outputs| => outputs[i].labels)
  }

  /** When every episode yields as many predictions as labels, so does the
      whole test run. */
  lemma TestingLengthsAgree(outputs: seq<LearnerOutput>)
    requires forall i :: 0 <= i < |outputs| ==> |outputs[i].predictions| == |outputs[i].labels|
    ensures |Flatten(PredictionsOf(outputs))| == |Flatten(LabelsOf(outputs))|
  {
    FlattenSameLength(PredictionsOf(outputs), LabelsOf(outputs));
  }

  // ---------------------------------------------------------------------------
  // The controller
  // ---------------------------------------------------------------------------

  class PrototypicalNetwork {
    const basePath: string
    const stamp: string
    const updates: int
    const metaEpochs: int
    const earlyStopping: int
    const stoppingThreshold: real
    /** The selected encoder; `None` when the model name names neither. */
    const learner: Option<LearnerKind>

    constructor (config: Config)
      ensures basePath == config.basePath && stamp == config.stamp
      ensures updates == config.numUpdates && metaEpochs == config.numMetaEpochs
      ensures earlyStopping == config.earlyStopping
      ensures stoppingThreshold ==
                if config.stoppingThreshold.Some? then config.stoppingThreshold.value
                else DefaultStoppingThreshold
      ensures Contains(config.metaModel, "online") ==> learner == Some(SeqProtoOnline)
      ensures Contains(config.metaModel, "seq") && !Contains(config.metaModel, "online") ==>
                learner == Some(SeqProto)
      ensures !Contains(config.metaModel, "seq") && !Contains(config.metaModel, "online") ==>
                learner == None
      ensures learner == SelectedLearner(config.metaModel)
    {
      basePath := config.basePath;
      stamp := config.stamp;
      updates := config.numUpdates;
      metaEpochs := config.numMetaEpochs;
      earlyStopping := config.earlyStopping;
      stoppingThreshold :=
        if config.stoppingThreshold.Some? then config.stoppingThreshold.value
        else DefaultStoppingThreshold;
      var selected: Option<LearnerKind> := None;
      if Contains(config.metaModel, "seq") {
        selected := Some(SeqProto);
      }
      if Contains(config.metaModel, "online") {
        selected := Some(SeqProtoOnline);
      }
      learner := selected;
    }

    /** The training loop. `outcomes[e]` is what epoch `e`'s validation
        yields and `poolSize` is the number of validation episodes. The
        Python method returns the final `bestF1`; the whole final state is
        returned here, including the epochs at which a checkpoint was
        written. */
    method Training(poolSize: nat, outcomes: seq<EpochOutcome>) returns (r: Result<TrainState, RunError>)
      requires EpochLimit(metaEpochs) <= |outcomes|
      ensures metaEpochs >= 1 && learner.None? ==> r == Err(NoLearner)
      ensures metaEpochs >= 1 && learner.Some? && poolSize < ValidationSampleSize ==>
                r == Err(SampleLargerThanPopulation)
      ensures metaEpochs < 1 || (learner.Some? && poolSize >= ValidationSampleSize) ==>
                r == Ok(Run(outcomes, EpochLimit(metaEpochs), stoppingThreshold, earlyStopping))
    {
      var bestLoss := Infinite;
      var bestF1 := 0.0;
      var patience: nat := 0;
      var saves: seq<nat> := [];
      var epochsRun: nat := 0;
      var stopped := false;
      for epoch := 0 to EpochLimit(metaEpochs)
        invariant epochsRun == epoch
        invariant epoch > 0 ==> learner.Some? && poolSize >= ValidationSampleSize
        invariant Run(outcomes, epoch, stoppingThreshold, earlyStopping) ==
                    TrainState(epoch, bestF1, bestLoss, patience, saves, false)
      {
        if learner.None? {
          return Err(NoLearner);
        }
        if poolSize < ValidationSampleSize {
          return Err(SampleLargerThanPopulation);
        }
        var o := outcomes[epoch];
        epochsRun := epoch + 1;
        if o.valF1 > bestF1 + stoppingThreshold {
          patience := 0;
          bestLoss := Finite(o.valLoss);
          bestF1 := o.valF1;
          saves := saves + [epoch];
        } else {
          patience := patience + 1;
          if patience == earlyStopping {
            stopped := true;
            RunAfterStop(outcomes, epoch + 1, EpochLimit(metaEpochs), stoppingThreshold, earlyStopping);
            break;
          }
        }
      }
      r := Ok(TrainState(epochsRun, bestF1, bestLoss, patience, saves, stopped));
    }

    /** Per-episode testing: the mean of each episode's first F1 value. */
    method EpisodicTesting(outputs: seq<LearnerOutput>) returns (r: Result<real, RunError>)
      requires |outputs| > 0
      requires AllScored(outputs)
      ensures learner.None? ==> r == Err(NoLearner)
      ensures learner.Some? ==> r == Ok(Mean(FirstF1s(outputs)))
    {
      if learner.None? {
        return Err(NoLearner);
      }
      var episodeF1s: seq<real> := [];
      for i := 0 to |outputs|
        invariant episodeF1s == FirstF1s(outputs[..i])
      {
        episodeF1s := episodeF1s + [outputs[i].f1s[0]];
      }
      assert outputs[..|outputs|] == outputs;
      r := Ok(Mean(episodeF1s));
    }

    /** Aggregate testing: predictions and labels of all episodes are
        concatenated in episode order and scored once, against the tags of
        the last episode visited. */
    method Testing(episodes: seq<Episode>, outputs: seq<LearnerOutput>,
                   score: (seq<int>, seq<int>, seq<string>) -> Scores)
      returns (r: Result<real, RunError>, allPredictions: seq<int>, allLabels: seq<int>)
      requires |outputs| == |episodes|
      ensures episodes == [] ==> r == Err(NoEpisodes)
      ensures episodes != [] && learner.None? ==> r == Err(NoLearner)
      ensures episodes != [] && learner.Some? ==>
                && allPredictions == Flatten(PredictionsOf(outputs))
                && allLabels == Flatten(LabelsOf(outputs))
                && r == Ok(score(allPredictions, allLabels, episodes[|episodes| - 1].tags).f1)
    {
      allPredictions, allLabels := [], [];
      if episodes == [] {
        return Err(NoEpisodes), allPredictions, allLabels;
      }
      for i := 0 to |episodes|
        invariant allPredictions == Flatten(PredictionsOf(outputs[..i]))
        invariant allLabels == Flatten(LabelsOf(outputs[..i]))
        invariant i > 0 ==> learner.Some?
      {
        if learner.None? {
          return Err(NoLearner), allPredictions, allLabels;
        }
        assert PredictionsOf(outputs[..i + 1])[..i] == PredictionsOf(outputs[..i]);
        assert LabelsOf(outputs[..i + 1])[..i] == LabelsOf(outputs[..i]);
        allPredictions := allPredictions + outputs[i].predictions;
        allLabels := allLabels + outputs[i].labels;
      }
      assert outputs[..|episodes|] == outputs;
      var last := episodes[|episodes| - 1];
      r := Ok(score(allPredictions, allLabels, last.tags).f1);
    }
  }
}
