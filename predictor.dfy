/**
 * The restfulness predictor: a session guard around a BrainFlow board and
 * classifier, a per-tick windowing and classification pipeline, and the
 * score property whose setter notifies the event's subscribers.
 */
module Restfulness {
  import opened Exceptions
  import opened Signal
  import BrainFlow

  /** Shorter intervals hold too few samples for a prediction. */
  const MinPredictionInterval: int := 500
  const DefaultPredictionInterval: int := 2500
  /** The Interval a System.Timers.Timer starts with, in milliseconds. */
  const DefaultTimerInterval: int := 100

  /**
   * `n` is a nearest integer to the samples one prediction interval holds:
   * the sampling rate times the interval in seconds. At a midpoint both
   * neighbours qualify, which leaves open where the double arithmetic of the
   * source lands.
   */
  predicate NearestSampleCount(n: int, samplingRate: int, predictionInterval: int) {
    (n as real) - 0.5 <= (samplingRate * predictionInterval) as real / 1000.0 <= (n as real) + 0.5
  }

  /** Two nearest sample counts differ only at a midpoint, and then by one. */
  lemma NearestSampleCountAlmostUnique(a: int, b: int, samplingRate: int, predictionInterval: int)
    requires NearestSampleCount(a, samplingRate, predictionInterval)
    requires NearestSampleCount(b, samplingRate, predictionInterval)
    requires a < b
    ensures b == a + 1
    ensures (samplingRate * predictionInterval) as real / 1000.0 == (a as real) + 0.5
  {
  }

  /**
   * 250 Hz over 2006 ms is a midpoint: 501.5 samples. Both neighbours are
   * nearest counts, and the double computation of the source yields 501.
   */
  lemma MidpointLeavesBothNeighbours()
    ensures NearestSampleCount(501, 250, 2006) && NearestSampleCount(502, 250, 2006)
    ensures forall n :: NearestSampleCount(n, 250, 2006) ==> n == 501 || n == 502
  {
  }

  /**
   * One nearest sample count: the exact product rounded, halves to the even
   * neighbour. The constructor stores it; everything else relies only on
   * `NearestSampleCount`.
   */
  function SamplesPerInterval(samplingRate: int, predictionInterval: int): (n: int)
    ensures NearestSampleCount(n, samplingRate, predictionInterval)
    ensures samplingRate >= 0 && predictionInterval >= 0 ==> n >= 0
  {
    var exact := (samplingRate * predictionInterval) as real / 1000.0;
    var below := exact.Floor;
    var fraction := exact - below as real;
    if fraction < 0.5 then below
    else if fraction > 0.5 then below + 1
    else if below % 2 == 0 then below
    else below + 1
  }

  /** 250 samples per second over 2000 ms make 500 samples per interval. */
  lemma SamplesPerIntervalExample()
    ensures SamplesPerInterval(250, 2000) == 500
  {
  }

  // ---------------------------------------------------------------------
  // The score event

  /**
   * A subscriber of the score event. `throws` says whether its handler
   * raises an exception when invoked.
   */
  datatype Listener = Listener(id: nat, throws: bool)

  /** One invocation of a subscriber with a score. */
  datatype Notification = Notification(listener: nat, score: real)

  /** The invocations one event raise made, and whether a handler threw. */
  datatype Delivery = Delivery(notified: seq<Notification>, faulted: bool)

  /**
   * Raising the event with `score`: the handlers run one after the other, in
   * subscription order, each with the same value; an exception from one
   * handler ends the raise, so the handlers after it are not invoked.
   */
  function Deliver(listeners: seq<Listener>, score: real): (d: Delivery)
    ensures |d.notified| <= |listeners|
    ensures forall k :: 0 <= k < |d.notified| ==> d.notified[k] == Notification(listeners[k].id, score)
    ensures d.faulted <==> exists k :: 0 <= k < |listeners| && listeners[k].throws
    ensures !d.faulted ==> |d.notified| == |listeners|
    ensures d.faulted ==> 0 < |d.notified| && listeners[|d.notified| - 1].throws
    ensures forall k :: 0 <= k < |d.notified| - 1 ==> !listeners[k].throws
    decreases |listeners|
  {
    if listeners == [] then Delivery([], false)
    else if listeners[0].throws then Delivery([Notification(listeners[0].id, score)], true)
    else
      var rest := Deliver(listeners[1..], score);
      Delivery([Notification(listeners[0].id, score)] + rest.notified, rest.faulted)
  }

  /** The position of the last occurrence of `l`, or -1 when `l` is absent. */
  function LastIndex(listeners: seq<Listener>, l: Listener): (k: int)
    ensures -1 <= k < |listeners|
    ensures k == -1 <==> l !in listeners
    ensures k >= 0 ==> listeners[k] == l && l !in listeners[k + 1..]
    decreases |listeners|
  {
    if listeners == [] then -1
    else if listeners[|listeners| - 1] == l then |listeners| - 1
    else
      var init := listeners[..|listeners| - 1];
      var k := LastIndex(init, l);
      assert listeners == init + [listeners[|listeners| - 1]];
      assert k >= 0 ==> listeners[k + 1..] == init[k + 1..] + [listeners[|listeners| - 1]];
      k
  }

  /**
   * Unsubscribing a handler: like Delegate.Remove, only the last occurrence
   * of it leaves the invocation list; an absent handler leaves the list as it is.
   */
  function RemoveLast(listeners: seq<Listener>, l: Listener): (r: seq<Listener>)
    ensures l !in listeners ==> r == listeners
    ensures l in listeners ==>
      var k := LastIndex(listeners, l);
      |r| == |listeners| - 1 && r[..k] == listeners[..k] && r[k..] == listeners[k + 1..]
    ensures multiset(r) == multiset(listeners) - multiset{l}
  {
    var k := LastIndex(listeners, l);
    if k < 0 then listeners
    else
      assert listeners == listeners[..k] + [l] + listeners[k + 1..];
      listeners[..k] + listeners[k + 1..]
  }

  /**
   * Unsubscribing undoes subscribing: removing a handler right after adding
   * it gives back the invocation list as it was, even if the handler was
   * already subscribed before.
   */
  lemma UnsubscribeUndoesSubscribe(listeners: seq<Listener>, l: Listener)
    ensures RemoveLast(listeners + [l], l) == listeners
  {
  }

  /** Removing a handler leaves the handlers added after its last occurrence at the end. */
  lemma UnsubscribeKeepsLaterHandlers(listeners: seq<Listener>, l: Listener, m: Listener)
    requires m != l
    ensures RemoveLast(listeners + [m], l) == RemoveLast(listeners, l) + [m]
  {
  }

  // ---------------------------------------------------------------------
  // One tick, as a reference pipeline over the collaborators' answers

  /**
   * What BrainFlow answered during one tick (None: the call threw or was
   * not made): the consumed pull, the current pull, the band powers and the
   * classifier's output.
   */
  datatype Replies = Replies(older: Option<Matrix>, current: Option<Matrix>,
                             bands: Option<(seq<real>, seq<real>)>, scores: Option<seq<real>>)

  ghost predicate WellFormed(rp: Replies) {
    (rp.older.Some? ==> rp.older.value.Valid()) && (rp.current.Some? ==> rp.current.value.Valid())
  }

  /**
   * The window a tick hands to feature extraction, or the exception that
   * stops it first. The first tick uses one current pull; every later tick
   * puts the consumed pull and the current pull side by side.
   */
  function TickWindow(first: bool, rp: Replies): (w: Result<Matrix>)
    requires WellFormed(rp)
    ensures w.Success? ==> w.value.Valid()
    ensures first ==> (w.Success? <==> rp.current.Some?)
    ensures first && w.Success? ==> w.value == rp.current.value
    ensures !first && w.Success? ==>
      rp.older.Some? && rp.current.Some? &&
      w.value.rows == rp.older.value.rows == rp.current.value.rows &&
      w.value.cols == rp.older.value.cols + rp.current.value.cols
    ensures w.Failure? ==>
      w.error == if !first && rp.older.Some? && rp.current.Some? then ArgumentError else BrainFlowError
  {
    if first then
      if rp.current.None? then Failure(BrainFlowError) else Success(rp.current.value)
    else if rp.older.None? || rp.current.None? then Failure(BrainFlowError)
    else if rp.older.value.rows != rp.current.value.rows then Failure(ArgumentError)
    else Success(Join(rp.older.value, rp.current.value))
  }

  /** The score a tick publishes, or the exception that ends it before publishing. */
  function TickScore(first: bool, rp: Replies): (score: Result<real>)
    requires WellFormed(rp)
    ensures score.Success? ==>
      TickWindow(first, rp).Success? && rp.bands.Some? && rp.scores.Some? &&
      |rp.scores.value| > 0 && score.value == rp.scores.value[0]
    ensures TickWindow(first, rp).Failure? ==> score == Failure(TickWindow(first, rp).error)
    ensures score.Failure? && TickWindow(first, rp).Success? ==>
      score.error == (if rp.bands.Some? && rp.scores.Some? then IndexOutOfRange else BrainFlowError)
  {
    match TickWindow(first, rp)
    case Failure(e) => Failure(e)
    case Success(_) =>
      if rp.bands.None? || rp.scores.None? then Failure(BrainFlowError)
      else if |rp.scores.value| == 0 then Failure(IndexOutOfRange)
      else Success(rp.scores.value[0])
  }

  /** The pulls a tick makes before it has a window, with their answers. */
  function TickPulls(first: bool, count: int, rp: Replies): (pulls: seq<BrainFlow.Call>)
    ensures 0 < |pulls| <= if first then 1 else 2
    ensures pulls[0] == if first then BrainFlow.GetCurrentBoardData(count, rp.current)
                        else BrainFlow.GetBoardData(count, rp.older)
    ensures |pulls| == 2 <==> !first && rp.older.Some?
  {
    if first then [BrainFlow.GetCurrentBoardData(count, rp.current)]
    else [BrainFlow.GetBoardData(count, rp.older)] +
         (if rp.older.None? then [] else [BrainFlow.GetCurrentBoardData(count, rp.current)])
  }

  /** The BrainFlow calls a tick makes, in order, with their answers. */
  function TickCalls(first: bool, count: int, channels: seq<int>, samplingRate: int, rp: Replies)
    : (calls: seq<BrainFlow.Call>)
    requires WellFormed(rp)
    ensures 0 < |calls| <= if first then 3 else 4
    ensures calls[0] == if first then BrainFlow.GetCurrentBoardData(count, rp.current)
                        else BrainFlow.GetBoardData(count, rp.older)
  {
    var pulls := TickPulls(first, count, rp);
    match TickWindow(first, rp)
    case Failure(_) => pulls
    case Success(window) =>
      pulls + [BrainFlow.GetAvgBandPowers(window, channels, samplingRate, true, rp.bands)] +
      (if rp.bands.None? then [] else [BrainFlow.Predict(rp.bands.value.0, rp.scores)])
  }

  /**
   * A tick reaches feature extraction exactly when it got a window, and the
   * classifier exactly when feature extraction answered too.
   */
  lemma TickReachesStages(first: bool, count: int, channels: seq<int>, samplingRate: int, rp: Replies)
    requires WellFormed(rp)
    ensures var calls := TickCalls(first, count, channels, samplingRate, rp);
      (exists k :: 0 <= k < |calls| && calls[k].GetAvgBandPowers?) <==> TickWindow(first, rp).Success?
    ensures var calls := TickCalls(first, count, channels, samplingRate, rp);
      (exists k :: 0 <= k < |calls| && calls[k].Predict?) <==> TickWindow(first, rp).Success? && rp.bands.Some?
  {
    var calls := TickCalls(first, count, channels, samplingRate, rp);
    var pulls := if first then 1 else if rp.older.None? then 1 else 2;
    if TickWindow(first, rp).Success? {
      assert calls[pulls].GetAvgBandPowers?;
      if rp.bands.Some? {
        assert calls[pulls + 1].Predict?;
      }
    }
  }

  /**
   * The first tick makes a single current pull of one interval and never
   * consumes samples; its window is exactly that pull.
   */
  lemma FirstTickPullsOnce(count: int, channels: seq<int>, samplingRate: int, rp: Replies)
    requires WellFormed(rp)
    ensures TickCalls(true, count, channels, samplingRate, rp)[0] == BrainFlow.GetCurrentBoardData(count, rp.current)
    ensures forall k :: 0 <= k < |TickCalls(true, count, channels, samplingRate, rp)| ==>
      !TickCalls(true, count, channels, samplingRate, rp)[k].GetBoardData?
    ensures TickWindow(true, rp).Success? <==> rp.current.Some?
    ensures rp.current.Some? ==> TickWindow(true, rp).value == rp.current.value
  {
  }

  /**
   * A later tick first consumes one interval, then reads the current one,
   * and joins the two halves: the window has the halves' rows and the sum of
   * their columns, with the consumed samples first.
   */
  lemma LaterTickJoinsTwoPulls(count: int, channels: seq<int>, samplingRate: int, rp: Replies)
    requires WellFormed(rp)
    ensures TickCalls(false, count, channels, samplingRate, rp)[0] == BrainFlow.GetBoardData(count, rp.older)
    ensures rp.older.Some? ==>
      TickCalls(false, count, channels, samplingRate, rp)[1] == BrainFlow.GetCurrentBoardData(count, rp.current)
    ensures TickWindow(false, rp).Success? <==>
      rp.older.Some? && rp.current.Some? && rp.older.value.rows == rp.current.value.rows
    ensures TickWindow(false, rp).Success? ==>
      var w := TickWindow(false, rp).value;
      w == Join(rp.older.value, rp.current.value) &&
      w.rows == rp.older.value.rows && w.cols == rp.older.value.cols + rp.current.value.cols &&
      Columns(w, 0, rp.older.value.cols) == rp.older.value &&
      Columns(w, rp.older.value.cols, w.cols) == rp.current.value
  {
    if TickWindow(false, rp).Success? {
      JoinSplits(rp.older.value, rp.current.value);
    }
  }

  /** When both pulls deliver `count` samples, a later window spans two intervals. */
  lemma LaterWindowSpansTwoIntervals(count: nat, rp: Replies)
    requires WellFormed(rp) && TickWindow(false, rp).Success?
    requires rp.older.value.cols == count && rp.current.value.cols == count
    ensures TickWindow(false, rp).value.cols == 2 * count
  {
  }

  /**
   * Halves with different row counts end the tick with an ArgumentError
   * before feature extraction: no band powers, no classifier, no score.
   */
  lemma RowMismatchPublishesNothing(count: int, channels: seq<int>, samplingRate: int, rp: Replies)
    requires WellFormed(rp) && rp.older.Some? && rp.current.Some?
    requires rp.older.value.rows != rp.current.value.rows
    ensures TickScore(false, rp) == Failure(ArgumentError)
    ensures TickCalls(false, count, channels, samplingRate, rp) ==
      [BrainFlow.GetBoardData(count, rp.older), BrainFlow.GetCurrentBoardData(count, rp.current)]
  {
  }

  /**
   * A tick publishes exactly when every stage answered and the classifier
   * returned at least one value; the score is the classifier's first value,
   * for a prediction computed from the mean band powers of the window.
   */
  lemma ScoreIsClassifierOutput(first: bool, count: int, channels: seq<int>, samplingRate: int, rp: Replies)
    requires WellFormed(rp)
    ensures TickScore(first, rp).Success? <==>
      TickWindow(first, rp).Success? && rp.bands.Some? && rp.scores.Some? && |rp.scores.value| > 0
    ensures TickScore(first, rp).Success? ==>
      TickScore(first, rp).value == rp.scores.value[0] &&
      var calls := TickCalls(first, count, channels, samplingRate, rp);
      calls[|calls| - 2] ==
        BrainFlow.GetAvgBandPowers(TickWindow(first, rp).value, channels, samplingRate, true, rp.bands) &&
      calls[|calls| - 1] == BrainFlow.Predict(rp.bands.value.0, rp.scores)
  {
  }

  /** The score a tick leaves behind, given the score `before` it. */
  function ScoreAfterTick(first: bool, rp: Replies, before: real): (after: real)
    requires WellFormed(rp)
    ensures TickScore(first, rp).Success? ==> after == rp.scores.value[0]
    ensures TickScore(first, rp).Failure? ==> after == before
  {
    match TickScore(first, rp)
    case Success(score) => score
    case Failure(_) => before
  }

  /**
   * The score is documented to lie in [0, 1], but nothing in a tick checks
   * that. A tick keeps a score in [0, 1] whenever the classifier's first
   * value is in [0, 1]; and a tick that publishes a value outside [0, 1]
   * leaves the score outside [0, 1].
   */
  lemma TickKeepsScoreInRange(first: bool, rp: Replies, before: real)
    requires WellFormed(rp) && 0.0 <= before <= 1.0
    ensures (rp.scores.Some? && |rp.scores.value| > 0 ==> 0.0 <= rp.scores.value[0] <= 1.0) ==>
      0.0 <= ScoreAfterTick(first, rp, before) <= 1.0
    ensures TickScore(first, rp).Success? && !(0.0 <= rp.scores.value[0] <= 1.0) ==>
      !(0.0 <= ScoreAfterTick(first, rp, before) <= 1.0)
  {
  }

  // ---------------------------------------------------------------------
  // Construction and teardown

  /** What BrainFlow answered while a Predictor was being constructed. */
  datatype Setup = Setup(rate: Option<int>, channels: Option<seq<int>>, sessionPrepared: bool, modelPrepared: bool)

  /** The BrainFlow calls the constructor makes (once the interval is accepted), with their answers. */
  function SetupCalls(boardId: int, s: Setup): (calls: seq<BrainFlow.Call>)
    ensures 2 <= |calls| <= 6
    ensures calls[..2] == [BrainFlow.NewBoardShim(boardId), BrainFlow.GetSamplingRate(boardId, s.rate)]
    ensures BrainFlow.NewMLModel in calls <==> s.rate.Some? && s.channels.Some? && s.sessionPrepared
    ensures SetupSucceeded(s) ==> |calls| == 6 && calls[5] == BrainFlow.PrepareModel(true)
  {
    [BrainFlow.NewBoardShim(boardId), BrainFlow.GetSamplingRate(boardId, s.rate)] +
    if s.rate.None? then [] else
    [BrainFlow.GetEegChannels(boardId, s.channels)] +
    if s.channels.None? then [] else
    [BrainFlow.PrepareSession(s.sessionPrepared)] +
    if !s.sessionPrepared then [] else
    [BrainFlow.NewMLModel, BrainFlow.PrepareModel(s.modelPrepared)]
  }

  predicate SetupSucceeded(s: Setup) {
    s.rate.Some? && s.channels.Some? && s.sessionPrepared && s.modelPrepared
  }

  /**
   * The calls StopSession makes on a streaming predictor when the first
   * `passed` of its three steps (stop the stream, release the board session,
   * release the model) return normally: each step runs only after the one
   * before it returned.
   */
  function TeardownCalls(passed: nat): (calls: seq<BrainFlow.Call>)
    requires passed <= 3
    ensures |calls| == if passed == 3 then 3 else passed + 1
  {
    [BrainFlow.StopStream(passed >= 1)] +
    (if passed >= 1 then [BrainFlow.ReleaseSession(passed >= 2)] else []) +
    (if passed >= 2 then [BrainFlow.ReleaseModel(passed >= 3)] else [])
  }

  /**
   * The board session is released only after the stream stopped, and the
   * model only after the board session was released.
   */
  lemma TeardownIsOrdered(passed: nat)
    requires passed <= 3
    ensures TeardownCalls(passed)[0].StopStream?
    ensures forall k :: 0 <= k < |TeardownCalls(passed)| && TeardownCalls(passed)[k].ReleaseSession? ==>
      k == 1 && TeardownCalls(passed)[0] == BrainFlow.StopStream(true)
    ensures forall k :: 0 <= k < |TeardownCalls(passed)| && TeardownCalls(passed)[k].ReleaseModel? ==>
      k == 2 && TeardownCalls(passed)[1] == BrainFlow.ReleaseSession(true)
  {
  }

  // ---------------------------------------------------------------------
  // The predictor

  class Predictor {
    var isStreaming: bool
    var restfulnessScore: real
    var firstPrediction: bool

    const lib: BrainFlow.Runtime
    const samplingRate: int
    const eegChannels: seq<int>
    const predictionInterval: int
    const dataCount: int

    // The timer: its Interval, whether it is running, and how many times
    // Predict is registered on its Elapsed event.
    var timerInterval: int
    var timerEnabled: bool
    var elapsedHandlers: nat

    // The score event: its invocation list, and every invocation made so far.
    var subscribers: seq<Listener>
    var notifications: seq<Notification>

    /**
     * The timer runs exactly while the stream does, with Predict registered
     * once and the prediction interval as its period; the interval is
     * accepted and the sample count follows from it.
     */
    ghost predicate Valid()
      reads this
    {
      predictionInterval >= MinPredictionInterval &&
      NearestSampleCount(dataCount, samplingRate, predictionInterval) &&
      timerEnabled == isStreaming &&
      elapsedHandlers == (if isStreaming then 1 else 0) &&
      (isStreaming ==> timerInterval == predictionInterval)
    }

    /** The field initialisation of a Predictor whose BrainFlow setup went through. */
    constructor (lib: BrainFlow.Runtime, samplingRate: int, eegChannels: seq<int>, predictionInterval: int)
      requires predictionInterval >= MinPredictionInterval
      ensures Valid()
      ensures this.lib == lib && this.samplingRate == samplingRate && this.eegChannels == eegChannels
      ensures this.predictionInterval == predictionInterval
      ensures !isStreaming && firstPrediction && restfulnessScore == 0.0
      ensures timerInterval == DefaultTimerInterval && !timerEnabled
      ensures subscribers == [] && notifications == []
    {
      this.lib := lib;
      this.samplingRate := samplingRate;
      this.eegChannels := eegChannels;
      this.predictionInterval := predictionInterval;
      this.dataCount := SamplesPerInterval(samplingRate, predictionInterval);
      isStreaming := false;
      restfulnessScore := 0.0;
      firstPrediction := true;
      timerInterval := DefaultTimerInterval;
      timerEnabled := false;
      elapsedHandlers := 0;
      subscribers := [];
      notifications := [];
    }

    /**
     * `new Predictor(boardId, predictionInterval)`. An interval under 500 ms
     * is refused with an ArgumentError before BrainFlow is touched at all;
     * otherwise the board is created and prepared and the model created and
     * prepared, and the first BrainFlow exception aborts construction.
     */
    static method Create(lib: BrainFlow.Runtime, boardId: int, predictionInterval: int := DefaultPredictionInterval)
      returns (r: Result<Predictor>, ghost setup: Setup)
      modifies lib`calls
      ensures predictionInterval < MinPredictionInterval ==>
        r == Failure(ArgumentError) && lib.calls == old(lib.calls)
      ensures predictionInterval >= MinPredictionInterval ==>
        lib.calls == old(lib.calls) + SetupCalls(boardId, setup) &&
        (r.Success? <==> SetupSucceeded(setup)) &&
        (r.Failure? ==> r.error == BrainFlowError)
      ensures r.Success? ==>
        var p := r.value;
        fresh(p) && p.Valid() && p.lib == lib && p.predictionInterval == predictionInterval &&
        p.samplingRate == setup.rate.value && p.eegChannels == setup.channels.value &&
        !p.isStreaming && p.firstPrediction && p.restfulnessScore == 0.0 &&
        p.subscribers == [] && p.notifications == []
    {
      setup := Setup(None, None, false, false);
      if predictionInterval < MinPredictionInterval {
        return Failure(ArgumentError), setup;
      }
      lib.NewBoardShim(boardId);
      var rate := lib.GetSamplingRate(boardId);
      setup := setup.(rate := rate.ToOption());
      if rate.Failure? {
        return Failure(rate.error), setup;
      }
      var channels := lib.GetEegChannels(boardId);
      setup := setup.(channels := channels.ToOption());
      if channels.Failure? {
        return Failure(channels.error), setup;
      }
      var prepared := lib.PrepareSession();
      setup := setup.(sessionPrepared := prepared.Pass?);
      if prepared.Fail? {
        return Failure(prepared.error), setup;
      }
      lib.NewMLModel();
      var modelReady := lib.PrepareModel();
      setup := setup.(modelPrepared := modelReady.Pass?);
      if modelReady.Fail? {
        return Failure(modelReady.error), setup;
      }
      var p := new Predictor(lib, rate.value, channels.value, predictionInterval);
      r := Success(p);
    }

    /** The `RestfulnessScore` getter. */
    function RestfulnessScore(): (score: real)
      reads this
      ensures score == restfulnessScore
    {
      restfulnessScore
    }

    /** `OnRestfulnessScoreUpdated += l`: the handler joins the end of the invocation list. */
    method Subscribe(l: Listener)
      modifies this`subscribers
      ensures subscribers == old(subscribers) + [l]
    {
      subscribers := subscribers + [l];
    }

    /** `OnRestfulnessScoreUpdated -= l`. */
    method Unsubscribe(l: Listener)
      modifies this`subscribers
      ensures subscribers == RemoveLast(old(subscribers), l)
    {
      subscribers := RemoveLast(subscribers, l);
    }

    /**
     * The private `RestfulnessScore` setter: the value is stored first, then
     * the event is raised with the stored value. A handler's exception
     * propagates, with the value already stored.
     */
    method SetRestfulnessScore(value: real) returns (o: Outcome)
      modifies this`restfulnessScore, this`notifications
      ensures restfulnessScore == value
      ensures notifications == old(notifications) + Deliver(subscribers, value).notified
      ensures o == if Deliver(subscribers, value).faulted then Fail(ListenerFault) else Pass
    {
      restfulnessScore := value;
      var d := Deliver(subscribers, restfulnessScore);
      notifications := notifications + d.notified;
      o := if d.faulted then Fail(ListenerFault) else Pass;
    }

    /**
     * `StartSession()`: refused with an InvalidOperation while streaming,
     * with nothing changed and no call made; otherwise the stream is started,
     * and only once that returned is the flag set and the timer armed.
     */
    method StartSession() returns (o: Outcome)
      requires Valid()
      modifies this`isStreaming, this`timerInterval, this`timerEnabled, this`elapsedHandlers, lib`calls
      ensures Valid()
      ensures old(isStreaming) ==>
        o == Fail(InvalidOperation) && lib.calls == old(lib.calls) && unchanged(this)
      ensures !old(isStreaming) ==>
        lib.calls == old(lib.calls) + [BrainFlow.StartStream(o.Pass?)] &&
        (o.Fail? ==> o.error == BrainFlowError && unchanged(this)) &&
        (o.Pass? ==> isStreaming && timerEnabled && timerInterval == predictionInterval &&
                     elapsedHandlers == old(elapsedHandlers) + 1)
    {
      if isStreaming {
        return Fail(InvalidOperation);
      }
      o := lib.StartStream();
      if o.Fail? {
        return;
      }
      isStreaming := true;
      timerInterval := predictionInterval;
      elapsedHandlers := elapsedHandlers + 1;
      timerEnabled := true;
    }

    /**
     * The private `StopStream()`: refused with an InvalidOperation when not
     * streaming; otherwise the stream is stopped, and only once that returned
     * is the flag cleared and the timer disarmed.
     */
    method StopStream() returns (o: Outcome)
      requires Valid()
      modifies this`isStreaming, this`timerEnabled, this`elapsedHandlers, lib`calls
      ensures Valid()
      ensures !old(isStreaming) ==>
        o == Fail(InvalidOperation) && lib.calls == old(lib.calls) && unchanged(this)
      ensures old(isStreaming) ==>
        lib.calls == old(lib.calls) + [BrainFlow.StopStream(o.Pass?)] &&
        (o.Fail? ==> o.error == BrainFlowError && unchanged(this)) &&
        (o.Pass? ==> !isStreaming && !timerEnabled && elapsedHandlers == old(elapsedHandlers) - 1)
    {
      if !isStreaming {
        return Fail(InvalidOperation);
      }
      o := lib.StopStream();
      if o.Fail? {
        return;
      }
      isStreaming := false;
      elapsedHandlers := elapsedHandlers - 1;
      timerEnabled := false;
    }

    /**
     * `StopSession()`: StopStream, then release of the board session, then
     * release of the model; the first exception ends it. Before any start it
     * fails with an InvalidOperation and releases nothing.
     */
    method StopSession() returns (o: Outcome, ghost passed: nat)
      requires Valid()
      modifies this`isStreaming, this`timerEnabled, this`elapsedHandlers, lib`calls
      ensures Valid() && passed <= 3
      ensures !old(isStreaming) ==>
        o == Fail(InvalidOperation) && lib.calls == old(lib.calls) && unchanged(this)
      ensures old(isStreaming) ==>
        lib.calls == old(lib.calls) + TeardownCalls(passed) &&
        (o.Pass? <==> passed == 3) && (o.Fail? ==> o.error == BrainFlowError) &&
        isStreaming == (passed == 0)
    {
      passed := 0;
      o := StopStream();
      if o.Fail? {
        return;
      }
      passed := 1;
      o := lib.ReleaseSession();
      if o.Fail? {
        return;
      }
      passed := 2;
      o := lib.ReleaseModel();
      if o.Fail? {
        return;
      }
      passed := 3;
    }

    /**
     * `ConcatenateData(first, second)`: refused with an ArgumentError when
     * the halves differ in row count; otherwise a new array with the rows of
     * `first` and the columns of both, `first` in the leading columns and
     * `second` in the ones after them.
     */
    static method ConcatenateData(first: array2<real>, second: array2<real>) returns (r: Result<array2<real>>)
      ensures r.Failure? <==> first.Length0 != second.Length0
      ensures r.Failure? ==> r.error == ArgumentError
      ensures r.Success? ==> r.value != first && r.value != second
      ensures r.Success? ==> r.value.Length0 == first.Length0 && r.value.Length1 == first.Length1 + second.Length1
      ensures r.Success? ==> forall i, j :: 0 <= i < first.Length0 && 0 <= j < first.Length1 ==>
        r.value[i, j] == first[i, j]
      ensures r.Success? ==> forall i, j :: 0 <= i < second.Length0 && 0 <= j < second.Length1 ==>
        r.value[i, first.Length1 + j] == second[i, j]
      ensures r.Success? ==> Snapshot(r.value) == Join(Snapshot(first), Snapshot(second))
    {
      var firstRows, firstCols := first.Length0, first.Length1;
      var secondRows, secondCols := second.Length0, second.Length1;
      if firstRows != secondRows {
        return Failure(ArgumentError);
      }
      var result := new real[firstRows, firstCols + secondCols];
      for i := 0 to firstRows
        invariant forall i', j :: 0 <= i' < i && 0 <= j < firstCols ==> result[i', j] == first[i', j]
      {
        for j := 0 to firstCols
          invariant forall i', j' :: 0 <= i' < i && 0 <= j' < firstCols ==> result[i', j'] == first[i', j']
          invariant forall j' :: 0 <= j' < j ==> result[i, j'] == first[i, j']
        {
          result[i, j] := first[i, j];
        }
      }
      for i := 0 to secondRows
        invariant forall i', j :: 0 <= i' < firstRows && 0 <= j < firstCols ==> result[i', j] == first[i', j]
        invariant forall i', j :: 0 <= i' < i && 0 <= j < secondCols ==> result[i', j + firstCols] == second[i', j]
      {
        for j := 0 to secondCols
          invariant forall i', j' :: 0 <= i' < firstRows && 0 <= j' < firstCols ==> result[i', j'] == first[i', j']
          invariant forall i', j' :: 0 <= i' < i && 0 <= j' < secondCols ==>
            result[i', j' + firstCols] == second[i', j']
          invariant forall j' :: 0 <= j' < j ==> result[i, j' + firstCols] == second[i, j']
        {
          result[i, j + firstCols] := second[i, j];
        }
      }
      JoinUnique(Snapshot(first), Snapshot(second), Snapshot(result));
      r := Success(result);
    }

    /**
     * The first half of a tick: the window it hands to feature extraction.
     * The first tick clears `firstPrediction` before anything else and pulls
     * one interval; later ticks consume one interval, read the current one
     * and join the two.
     */
    method PullWindow() returns (r: Result<array2<real>>, ghost rp: Replies)
      requires Valid()
      modifies this`firstPrediction, lib`calls
      ensures Valid() && WellFormed(rp) && !firstPrediction && rp.bands.None? && rp.scores.None?
      ensures lib.calls == old(lib.calls) + TickPulls(old(firstPrediction), dataCount, rp)
      ensures r.Success? <==> TickWindow(old(firstPrediction), rp).Success?
      ensures r.Success? ==> Snapshot(r.value) == TickWindow(old(firstPrediction), rp).value
      ensures r.Failure? ==> r.error == TickWindow(old(firstPrediction), rp).error
    {
      if firstPrediction {
        firstPrediction := false;
        r := lib.GetCurrentBoardData(dataCount);
        rp := Replies(None, BrainFlow.Pulled(r), None, None);
      } else {
        var older := lib.GetBoardData(dataCount);
        rp := Replies(BrainFlow.Pulled(older), None, None, None);
        if older.Failure? {
          return Failure(older.error), rp;
        }
        var current := lib.GetCurrentBoardData(dataCount);
        rp := rp.(current := BrainFlow.Pulled(current));
        if current.Failure? {
          return Failure(current.error), rp;
        }
        r := ConcatenateData(older.value, current.value);
      }
    }

    /**
     * `Predict`, the handler of one timer tick. It takes the window of
     * `PullWindow` through band powers and the classifier, and sets the
     * score as the very last step, so a tick that throws earlier leaves the
     * score and the subscribers untouched.
     */
    method Predict() returns (o: Outcome, ghost rp: Replies)
      requires Valid()
      modifies this`firstPrediction, this`restfulnessScore, this`notifications, lib`calls
      ensures Valid() && WellFormed(rp) && !firstPrediction
      ensures lib.calls == old(lib.calls) + TickCalls(old(firstPrediction), dataCount, eegChannels, samplingRate, rp)
      ensures restfulnessScore == ScoreAfterTick(old(firstPrediction), rp, old(restfulnessScore))
      ensures TickScore(old(firstPrediction), rp).Failure? ==>
        o == Fail(TickScore(old(firstPrediction), rp).error) &&
        restfulnessScore == old(restfulnessScore) && notifications == old(notifications)
      ensures TickScore(old(firstPrediction), rp).Success? ==>
        var score := TickScore(old(firstPrediction), rp).value;
        restfulnessScore == score &&
        notifications == old(notifications) + Deliver(subscribers, score).notified &&
        o == if Deliver(subscribers, score).faulted then Fail(ListenerFault) else Pass
    {
      ghost var first := firstPrediction;
      ghost var start := lib.calls;
      var window;
      window, rp := PullWindow();
      ghost var made := TickPulls(first, dataCount, rp);
      if window.Failure? {
        return Fail(window.error), rp;
      }
      var data := window.value;
      var bands := lib.GetAvgBandPowers(data, eegChannels, samplingRate, true);
      rp := rp.(bands := bands.ToOption());
      made := made + [BrainFlow.GetAvgBandPowers(Snapshot(data), eegChannels, samplingRate, true, rp.bands)];
      if bands.Failure? {
        assert TickCalls(first, dataCount, eegChannels, samplingRate, rp) == made;
        return Fail(bands.error), rp;
      }
      var featureVector := bands.value.0;
      var scores := lib.Predict(featureVector);
      rp := rp.(scores := scores.ToOption());
      made := made + [BrainFlow.Predict(featureVector, rp.scores)];
      assert TickCalls(first, dataCount, eegChannels, samplingRate, rp) == made;
      if scores.Failure? {
        return Fail(scores.error), rp;
      }
      if |scores.value| == 0 {
        return Fail(IndexOutOfRange), rp;
      }
      o := SetRestfulnessScore(scores.value[0]);
    }
  }
}
