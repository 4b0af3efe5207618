/**
 * What a caller of the Predictor can conclude from its contracts alone,
 * whatever BrainFlow answers.
 */
module Scenarios {
  import opened Exceptions
  import opened Signal
  import opened Restfulness
  import BrainFlow

  /** A short interval, a stop before any start, and a start while streaming are all refused. */
  method LifecycleScenario(boardId: int)
  {
    var lib := new BrainFlow.Runtime();
    var refused, _ := Predictor.Create(lib, boardId, 499);
    assert refused == Failure(ArgumentError) && lib.calls == [];

    var created, _ := Predictor.Create(lib, boardId);
    if created.Success? {
      var p := created.value;
      assert p.predictionInterval == DefaultPredictionInterval;
      var before := lib.calls;
      var o, _ := p.StopSession();
      assert o == Fail(InvalidOperation) && lib.calls == before && !p.isStreaming;
      assert p.RestfulnessScore() == 0.0;

      o := p.StartSession();
      if o.Pass? {
        before := lib.calls;
        o := p.StartSession();
        assert o == Fail(InvalidOperation) && lib.calls == before && p.isStreaming;
      }
    }
  }

  /**
   * The first tick starts with one current pull; the next one starts by
   * consuming samples and, whenever it gets to feature extraction, hands it
   * the two pulls side by side.
   */
  method TickScenario(p: Predictor)
    requires p.Valid() && p.firstPrediction
    modifies p`firstPrediction, p`restfulnessScore, p`notifications, p.lib`calls
  {
    var start := |p.lib.calls|;
    var _, rp1 := p.Predict();
    FirstTickPullsOnce(p.dataCount, p.eegChannels, p.samplingRate, rp1);
    assert p.lib.calls[start] == BrainFlow.GetCurrentBoardData(p.dataCount, rp1.current);

    var middle := |p.lib.calls|;
    var _, rp2 := p.Predict();
    LaterTickJoinsTwoPulls(p.dataCount, p.eegChannels, p.samplingRate, rp2);
    assert p.lib.calls[middle] == BrainFlow.GetBoardData(p.dataCount, rp2.older);
    if TickWindow(false, rp2).Success? {
      assert TickWindow(false, rp2).value == Join(rp2.older.value, rp2.current.value);
    }
  }

  /**
   * A tick keeps the score in [0, 1] whenever the classifier's first value
   * is in [0, 1]: a failed tick leaves the old score, a successful one
   * publishes that value.
   */
  method ScoreRangeScenario(p: Predictor)
    requires p.Valid() && 0.0 <= p.RestfulnessScore() <= 1.0
    modifies p`firstPrediction, p`restfulnessScore, p`notifications, p.lib`calls
  {
    var first := p.firstPrediction;
    var before := p.RestfulnessScore();
    var _, rp := p.Predict();
    TickKeepsScoreInRange(first, rp, before);
    if rp.scores.Some? && |rp.scores.value| > 0 && 0.0 <= rp.scores.value[0] <= 1.0 {
      assert 0.0 <= p.RestfulnessScore() <= 1.0;
    }
  }
}
