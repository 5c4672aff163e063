/**
 * `analyze_symbol` (bot.py:118-134): for each configured timeframe, in
 * order, fetch the candles, compute the indicators, classify the last row,
 * record the signal; then reduce the signals by unanimity.
 *
 * The exchange request is a parameter `fetch` that either yields the
 * candles or fails (`None`), standing for a raised exception that
 * propagates out of the loop. The pause before each request is left out.
 */
module Consensus {
  import opened Wrappers
  import opened Config
  import opened Indicators
  import opened Signals
  import IndicatorFacts

  /** Why a timeframe gives no signal: the request raised, or `iloc[-1]` met an empty frame. */
  datatype Failure = FetchFailed | NoCandles

  /** `return consensus, per_tf` */
  datatype Analysis = Analysis(overall: Signal, perTimeframe: map<string, Signal>)

  /**
   * BUY if every signal is BUY, else SELL if every signal is SELL, else
   * NEUTRAL. An empty list is BUY, because `all` of nothing is true.
   */
  function Consensus(signals: seq<Signal>): (r: Signal)
    ensures r == Buy <==> forall i :: 0 <= i < |signals| ==> signals[i] == Buy
    ensures r == Sell <==> |signals| > 0 && forall i :: 0 <= i < |signals| ==> signals[i] == Sell
    ensures r == Neutral <==>
      (exists i :: 0 <= i < |signals| && signals[i] != Buy) &&
      (exists j :: 0 <= j < |signals| && signals[j] != Sell)
  {
    if forall i :: 0 <= i < |signals| ==> signals[i] == Buy then
      assert |signals| > 0 ==> signals[0] != Sell;
      Buy
    else if forall i :: 0 <= i < |signals| ==> signals[i] == Sell then Sell
    else Neutral
  }

  /** A single NEUTRAL timeframe, or a BUY beside a SELL, collapses the consensus to NEUTRAL. */
  lemma OneDissentIsNeutral(signals: seq<Signal>, i: nat, j: nat)
    requires i < |signals| && j < |signals|
    requires signals[i] == Neutral || (signals[i] == Buy && signals[j] == Sell)
    ensures Consensus(signals) == Neutral
  {
    if signals[i] == Neutral {
      assert signals[i] != Buy && signals[i] != Sell;
    } else {
      assert signals[j] != Buy && signals[i] != Sell;
    }
  }

  /** The signal of one timeframe: fetch, compute, take the last row, classify. */
  function TimeframeSignal(symbol: string, tf: string, p: Params, sd: seq<real> -> real,
                           fetch: (string, string, nat) -> Option<seq<Candle>>): (r: Result<Signal, Failure>)
    requires Valid(p)
    ensures r == Failure(FetchFailed) <==> fetch(symbol, tf, p.limit).None?
    ensures r == Failure(NoCandles) <==> fetch(symbol, tf, p.limit) == Some([])
    ensures r.Success? ==> var c := fetch(symbol, tf, p.limit).value;
      |c| > 0 && r.value == Evaluate(SnapshotAt(c, p, sd, |c| - 1), p)
  {
    match fetch(symbol, tf, p.limit)
    case None => Failure(FetchFailed)
    case Some(c) =>
      if |c| == 0 then Failure(NoCandles) else Success(Evaluate(SnapshotAt(c, p, sd, |c| - 1), p))
  }

  /** The outcome of every timeframe of `tfs`, in order. */
  function Outcomes(symbol: string, tfs: seq<string>, p: Params, sd: seq<real> -> real,
                    fetch: (string, string, nat) -> Option<seq<Candle>>): (r: seq<Result<Signal, Failure>>)
    requires Valid(p)
    ensures |r| == |tfs|
  {
    seq(|tfs|, i requires 0 <= i < |tfs| => TimeframeSignal(symbol, tfs[i], p, sd, fetch))
  }

  /** The signals in order, or the first failure, which ends the loop. */
  function Collect(outcomes: seq<Result<Signal, Failure>>): (r: Result<seq<Signal>, Failure>)
    ensures r.Success? ==> |r.value| == |outcomes|
    ensures r.Failure? ==> exists k :: 0 <= k < |outcomes| && outcomes[k] == Failure(r.error)
  {
    if |outcomes| == 0 then Success([])
    else
      match Collect(outcomes[..|outcomes| - 1])
      case Failure(e) => Failure(e)
      case Success(ss) =>
        match outcomes[|outcomes| - 1]
        case Failure(e) => Failure(e)
        case Success(s) => Success(ss + [s])
  }

  function SignalsFor(symbol: string, tfs: seq<string>, p: Params, sd: seq<real> -> real,
                      fetch: (string, string, nat) -> Option<seq<Candle>>): Result<seq<Signal>, Failure>
    requires Valid(p)
  {
    Collect(Outcomes(symbol, tfs, p, sd, fetch))
  }

  /**
   * One signal per timeframe, each that timeframe's own, exactly when no
   * timeframe fails; otherwise the failure of the first one that does.
   */
  lemma {:induction false} CollectOrder(outcomes: seq<Result<Signal, Failure>>)
    ensures Collect(outcomes).Success? <==> forall i :: 0 <= i < |outcomes| ==> outcomes[i].Success?
    ensures Collect(outcomes).Success? ==>
            |Collect(outcomes).value| == |outcomes| &&
            forall i :: 0 <= i < |outcomes| ==> outcomes[i] == Success(Collect(outcomes).value[i])
    ensures Collect(outcomes).Failure? ==>
            exists k :: 0 <= k < |outcomes| && outcomes[k] == Failure(Collect(outcomes).error) &&
              forall i :: 0 <= i < k ==> outcomes[i].Success?
  {
    if |outcomes| > 0 {
      var init := outcomes[..|outcomes| - 1];
      CollectOrder(init);
      assert forall i :: 0 <= i < |init| ==> init[i] == outcomes[i];
    }
  }

  /** Once a prefix fails, the whole list fails the same way. */
  lemma {:induction false} FailureStops(outcomes: seq<Result<Signal, Failure>>, k: nat)
    requires k <= |outcomes| && Collect(outcomes[..k]).Failure?
    ensures Collect(outcomes) == Collect(outcomes[..k])
    decreases |outcomes| - k
  {
    if k < |outcomes| {
      assert outcomes[..k + 1][..k] == outcomes[..k];
      FailureStops(outcomes, k + 1);
    } else {
      assert outcomes[..k] == outcomes;
    }
  }

  /** One pass of the loop body: fetch, `compute_indicators`, `iloc[-1]`, `evaluate_conditions`. */
  method EvaluateTimeframe(symbol: string, tf: string, p: Params, sd: seq<real> -> real,
                           fetch: (string, string, nat) -> Option<seq<Candle>>)
    returns (r: Result<Signal, Failure>)
    requires Valid(p)
    ensures r == TimeframeSignal(symbol, tf, p, sd, fetch)
  {
    var fetched := fetch(symbol, tf, p.limit);
    if fetched.None? {
      return Failure(FetchFailed);
    }
    var frame := new Frame(fetched.value);
    frame.ComputeIndicators(p, sd);
    if |frame.candles| == 0 {
      return Failure(NoCandles);
    }
    var latest := frame.Latest();
    r := Success(Evaluate(latest, p));
  }

  /** `analyze_symbol(symbol)` */
  method AnalyzeSymbol(symbol: string, p: Params, sd: seq<real> -> real,
                       fetch: (string, string, nat) -> Option<seq<Candle>>)
    returns (r: Result<Analysis, Failure>)
    requires Valid(p)
    ensures r.Failure? <==> SignalsFor(symbol, p.timeframes, p, sd, fetch).Failure?
    ensures r.Failure? ==> r.error == SignalsFor(symbol, p.timeframes, p, sd, fetch).error
    ensures r.Success? ==> r.value.overall == Consensus(SignalsFor(symbol, p.timeframes, p, sd, fetch).value)
    ensures r.Success? ==> forall tf :: tf in r.value.perTimeframe <==> tf in p.timeframes
    ensures r.Success? ==> forall tf :: tf in r.value.perTimeframe ==>
      TimeframeSignal(symbol, tf, p, sd, fetch) == Success(r.value.perTimeframe[tf])
  {
    hide TimeframeSignal, SnapshotAt, Evaluate;
    var tfs := p.timeframes;
    ghost var outcomes := Outcomes(symbol, tfs, p, sd, fetch);
    var signals: seq<Signal> := [];
    var perTf: map<string, Signal> := map[];
    var i := 0;
    while i < |tfs|
      invariant 0 <= i <= |tfs|
      invariant Collect(outcomes[..i]) == Success(signals)
      invariant forall tf :: tf in perTf <==> tf in tfs[..i]
      invariant forall tf :: tf in perTf ==> TimeframeSignal(symbol, tf, p, sd, fetch) == Success(perTf[tf])
    {
      var tf := tfs[i];
      var outcome := EvaluateTimeframe(symbol, tf, p, sd, fetch);
      assert outcomes[..i + 1][..i] == outcomes[..i] && outcomes[..i + 1][i] == outcome;
      assert tfs[..i + 1] == tfs[..i] + [tf];
      if outcome.Failure? {
        FailureStops(outcomes, i + 1);
        return Failure(outcome.error);
      }
      var signal := outcome.value;
      perTf := perTf[tf := signal];
      signals := signals + [signal];
      i := i + 1;
    }
    assert outcomes[..i] == outcomes && tfs[..i] == tfs;
    r := Success(Analysis(Consensus(signals), perTf));
  }

  /** A fetch that yields a non-empty series with one close repeated. */
  predicate FlatFetch(fetched: Option<seq<Candle>>) {
    fetched.Some? && |fetched.value| > 0 && IndicatorFacts.FlatCloses(fetched.value)
  }

  /** A flat, non-empty fetch makes that timeframe NEUTRAL. */
  lemma FlatTimeframeIsNeutral(symbol: string, tf: string, p: Params, sd: seq<real> -> real,
                               fetch: (string, string, nat) -> Option<seq<Candle>>)
    requires Valid(p) && StdDevLaw(sd) && FlatFetch(fetch(symbol, tf, p.limit))
    ensures TimeframeSignal(symbol, tf, p, sd, fetch) == Success(Neutral)
  {
    var c := fetch(symbol, tf, p.limit).value;
    IndicatorFacts.FlatSeriesIsNeutral(c, p, sd);
  }

  /**
   * When every timeframe's series is flat (100 candles at close 100 are
   * one such market), every timeframe is NEUTRAL and so is the consensus.
   */
  lemma FlatMarketIsNeutral(symbol: string, p: Params, sd: seq<real> -> real,
                            fetch: (string, string, nat) -> Option<seq<Candle>>)
    requires Valid(p) && StdDevLaw(sd) && |p.timeframes| > 0
    requires forall i :: 0 <= i < |p.timeframes| ==> FlatFetch(fetch(symbol, p.timeframes[i], p.limit))
    ensures SignalsFor(symbol, p.timeframes, p, sd, fetch).Success?
    ensures var ss := SignalsFor(symbol, p.timeframes, p, sd, fetch).value;
      (forall i :: 0 <= i < |ss| ==> ss[i] == Neutral) && Consensus(ss) == Neutral
  {
    hide TimeframeSignal, SnapshotAt, Evaluate;
    var tfs := p.timeframes;
    forall i | 0 <= i < |tfs| ensures TimeframeSignal(symbol, tfs[i], p, sd, fetch) == Success(Neutral) {
      FlatTimeframeIsNeutral(symbol, tfs[i], p, sd, fetch);
    }
    CollectOrder(Outcomes(symbol, tfs, p, sd, fetch));
    var ss := SignalsFor(symbol, tfs, p, sd, fetch).value;
    OneDissentIsNeutral(ss, 0, 0);
  }
}
