/**
 * The BrainFlow library as one Predictor sees it: the BoardShim and the
 * MLModel it creates and the static DataFilter routine. BrainFlow itself is
 * not part of this model. The two constructors only store their arguments;
 * every other call may fail with a BrainFlowError and returns data the model
 * knows nothing about, apart from its type. What the model does keep is the
 * order of the calls and what each one answered, appended to `calls`.
 */
module BrainFlow {
  import opened Exceptions
  import opened Signal

  /** One call into BrainFlow, with the answer it gave (None: it threw). */
  datatype Call =
    | NewBoardShim(boardId: int)
    | GetSamplingRate(boardId: int, rate: Option<int>)
    | GetEegChannels(boardId: int, eegChannels: Option<seq<int>>)
    | PrepareSession(ok: bool)
    | NewMLModel
    | PrepareModel(ok: bool)
    | StartStream(ok: bool)
    | StopStream(ok: bool)
    | ReleaseSession(ok: bool)
    | ReleaseModel(ok: bool)
    | GetBoardData(count: int, pulled: Option<Matrix>)
    | GetCurrentBoardData(count: int, pulled: Option<Matrix>)
    | GetAvgBandPowers(data: Matrix, channels: seq<int>, samplingRate: int, applyFilters: bool,
                       bands: Option<(seq<real>, seq<real>)>)
    | Predict(features: seq<real>, scores: Option<seq<real>>)

  /** What a pull handed out: the samples of the array, or None if it threw. */
  function Pulled(r: Result<array2<real>>): (o: Option<Matrix>)
    reads if r.Success? then {r.value} else {}
    ensures o.Some? <==> r.Success?
    ensures o.Some? ==> o.value == Snapshot(r.value)
  {
    if r.Success? then Some(Snapshot(r.value)) else None
  }

  class Runtime {
    /** Every call made so far, oldest first. */
    var calls: seq<Call>

    constructor ()
      ensures calls == []
    {
      calls := [];
    }

    /** `new BoardShim(boardId, inputParams)`: only stores its arguments. */
    method NewBoardShim(boardId: int)
      modifies this`calls
      ensures calls == old(calls) + [Call.NewBoardShim(boardId)]
    {
      calls := calls + [Call.NewBoardShim(boardId)];
    }

    /** `BoardShim.get_sampling_rate(boardId)`. */
    method GetSamplingRate(boardId: int) returns (r: Result<int>)
      modifies this`calls
      ensures r.Failure? ==> r.error == BrainFlowError
      ensures calls == old(calls) + [Call.GetSamplingRate(boardId, r.ToOption())]
    {
      var ok: bool :| true;
      var rate: int :| true;
      r := if ok then Success(rate) else Failure(BrainFlowError);
      calls := calls + [Call.GetSamplingRate(boardId, r.ToOption())];
    }

    /** `BoardShim.get_eeg_channels(boardId)`. */
    method GetEegChannels(boardId: int) returns (r: Result<seq<int>>)
      modifies this`calls
      ensures r.Failure? ==> r.error == BrainFlowError
      ensures calls == old(calls) + [Call.GetEegChannels(boardId, r.ToOption())]
    {
      var ok: bool :| true;
      var channels: seq<int> := *;
      r := if ok then Success(channels) else Failure(BrainFlowError);
      calls := calls + [Call.GetEegChannels(boardId, r.ToOption())];
    }

    /** `new MLModel(modelParams)`: only stores its arguments. */
    method NewMLModel()
      modifies this`calls
      ensures calls == old(calls) + [Call.NewMLModel]
    {
      calls := calls + [Call.NewMLModel];
    }

    /** `BoardShim.prepare_session()`. */
    method PrepareSession() returns (o: Outcome)
      modifies this`calls
      ensures o.Fail? ==> o.error == BrainFlowError
      ensures calls == old(calls) + [Call.PrepareSession(o.Pass?)]
    {
      var ok: bool :| true;
      o := if ok then Pass else Fail(BrainFlowError);
      calls := calls + [Call.PrepareSession(ok)];
    }

    /** `MLModel.prepare()`. */
    method PrepareModel() returns (o: Outcome)
      modifies this`calls
      ensures o.Fail? ==> o.error == BrainFlowError
      ensures calls == old(calls) + [Call.PrepareModel(o.Pass?)]
    {
      var ok: bool :| true;
      o := if ok then Pass else Fail(BrainFlowError);
      calls := calls + [Call.PrepareModel(ok)];
    }

    /** `BoardShim.start_stream()`. */
    method StartStream() returns (o: Outcome)
      modifies this`calls
      ensures o.Fail? ==> o.error == BrainFlowError
      ensures calls == old(calls) + [Call.StartStream(o.Pass?)]
    {
      var ok: bool :| true;
      o := if ok then Pass else Fail(BrainFlowError);
      calls := calls + [Call.StartStream(ok)];
    }

    /** `BoardShim.stop_stream()`. */
    method StopStream() returns (o: Outcome)
      modifies this`calls
      ensures o.Fail? ==> o.error == BrainFlowError
      ensures calls == old(calls) + [Call.StopStream(o.Pass?)]
    {
      var ok: bool :| true;
      o := if ok then Pass else Fail(BrainFlowError);
      calls := calls + [Call.StopStream(ok)];
    }

    /** `BoardShim.release_session()`. */
    method ReleaseSession() returns (o: Outcome)
      modifies this`calls
      ensures o.Fail? ==> o.error == BrainFlowError
      ensures calls == old(calls) + [Call.ReleaseSession(o.Pass?)]
    {
      var ok: bool :| true;
      o := if ok then Pass else Fail(BrainFlowError);
      calls := calls + [Call.ReleaseSession(ok)];
    }

    /** `MLModel.release()`. */
    method ReleaseModel() returns (o: Outcome)
      modifies this`calls
      ensures o.Fail? ==> o.error == BrainFlowError
      ensures calls == old(calls) + [Call.ReleaseModel(o.Pass?)]
    {
      var ok: bool :| true;
      o := if ok then Pass else Fail(BrainFlowError);
      calls := calls + [Call.ReleaseModel(ok)];
    }

    /** A fresh array of some shape holding samples the model knows nothing about. */
    static method ArbitraryBlock() returns (a: array2<real>)
      ensures fresh(a)
    {
      var rows: nat :| true;
      var cols: nat :| true;
      var sample: (int, int) -> real := *;
      a := new real[rows, cols]((i, j) => sample(i, j));
    }

    /** `BoardShim.get_board_data(count)`: takes samples out of the board's buffer. */
    method GetBoardData(count: int) returns (r: Result<array2<real>>)
      modifies this`calls
      ensures r.Success? ==> fresh(r.value)
      ensures r.Failure? ==> r.error == BrainFlowError
      ensures calls == old(calls) + [Call.GetBoardData(count, Pulled(r))]
    {
      var ok: bool :| true;
      if ok {
        var a := ArbitraryBlock();
        r := Success(a);
      } else {
        r := Failure(BrainFlowError);
      }
      calls := calls + [Call.GetBoardData(count, Pulled(r))];
    }

    /** `BoardShim.get_current_board_data(count)`: reads the newest samples, leaving them buffered. */
    method GetCurrentBoardData(count: int) returns (r: Result<array2<real>>)
      modifies this`calls
      ensures r.Success? ==> fresh(r.value)
      ensures r.Failure? ==> r.error == BrainFlowError
      ensures calls == old(calls) + [Call.GetCurrentBoardData(count, Pulled(r))]
    {
      var ok: bool :| true;
      if ok {
        var a := ArbitraryBlock();
        r := Success(a);
      } else {
        r := Failure(BrainFlowError);
      }
      calls := calls + [Call.GetCurrentBoardData(count, Pulled(r))];
    }

    /**
     * `DataFilter.get_avg_band_powers(data, channels, samplingRate, applyFilters)`:
     * the mean and the deviation of the band powers, in that order.
     */
    method GetAvgBandPowers(data: array2<real>, channels: seq<int>, samplingRate: int, applyFilters: bool)
      returns (r: Result<(seq<real>, seq<real>)>)
      modifies this`calls
      ensures r.Failure? ==> r.error == BrainFlowError
      ensures calls == old(calls) + [Call.GetAvgBandPowers(Snapshot(data), channels, samplingRate, applyFilters, r.ToOption())]
    {
      var ok: bool :| true;
      var bands: (seq<real>, seq<real>) := *;
      r := if ok then Success(bands) else Failure(BrainFlowError);
      calls := calls + [Call.GetAvgBandPowers(Snapshot(data), channels, samplingRate, applyFilters, r.ToOption())];
    }

    /** `MLModel.predict(features)`. */
    method Predict(features: seq<real>) returns (r: Result<seq<real>>)
      modifies this`calls
      ensures r.Failure? ==> r.error == BrainFlowError
      ensures calls == old(calls) + [Call.Predict(features, r.ToOption())]
    {
      var ok: bool :| true;
      var scores: seq<real> := *;
      r := if ok then Success(scores) else Failure(BrainFlowError);
      calls := calls + [Call.Predict(features, r.ToOption())];
    }
  }
}
