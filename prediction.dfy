/**
 * The threshold recommenders: a stored scalar (annualised slope or 30-day
 * momentum) is mapped to a label, a confidence and a rounded forecast.
 */
module Prediction {
  import opened Floats

  /** What the model store holds for one symbol and model type. */
  datatype Artifact = Missing | Unloadable | Stored(value: real)

  /** load_simple_model: the stored value, or 0.0 when the file is missing or cannot be loaded. */
  function LoadSimpleModel(a: Artifact): (v: real)
    ensures a.Stored? ==> v == a.value
    ensures !a.Stored? ==> v == 0.0
  {
    match a
    case Stored(x) => x
    case _ => 0.0
  }

  // -------------------------------------------------------------- long term

  datatype Trend = StrongBuyTrend | PositiveTrend | StrongSellTrend | NegativeTrend | NeutralTrend {
    function Name(): string {
      match this
      case StrongBuyTrend => "Strong Buy Trend"
      case PositiveTrend => "Positive Trend"
      case StrongSellTrend => "Strong Sell Trend"
      case NegativeTrend => "Negative Trend"
      case NeutralTrend => "Neutral Trend"
    }

    function Confidence(): real {
      match this
      case StrongBuyTrend => 0.75
      case PositiveTrend => 0.65
      case StrongSellTrend => 0.75
      case NegativeTrend => 0.65
      case NeutralTrend => 0.50
    }

    /** The label on the other side of zero. */
    function Mirror(): Trend {
      match this
      case StrongBuyTrend => StrongSellTrend
      case PositiveTrend => NegativeTrend
      case StrongSellTrend => StrongBuyTrend
      case NegativeTrend => PositiveTrend
      case NeutralTrend => NeutralTrend
    }
  }

  /** The if/elif chain on the annualised slope against 5% of the current price. */
  function LongTermTrend(slope: real, price: real): Trend {
    if slope > price * 0.05 then StrongBuyTrend
    else if slope > 0.0 then PositiveTrend
    else if slope < -(price * 0.05) then StrongSellTrend
    else if slope < 0.0 then NegativeTrend
    else NeutralTrend
  }

  datatype LongTermForecast = LongTermForecast(forecast1y: real, recommendation: string, confidence: real)

  /**
   * get_long_term_prediction on the cleaned closes (the caller has already
   * rejected an empty frame) and the stored long_term artifact.
   */
  function GetLongTermPrediction(closes: seq<real>, artifact: Artifact): (p: LongTermForecast)
    requires |closes| > 0
    ensures p.forecast1y == Round(closes[|closes| - 1] + LoadSimpleModel(artifact), 2)
    ensures -0.005 <= p.forecast1y - (closes[|closes| - 1] + LoadSimpleModel(artifact)) <= 0.005
    ensures var trend := LongTermTrend(LoadSimpleModel(artifact), closes[|closes| - 1]);
      p.recommendation == trend.Name() && p.confidence == trend.Confidence()
  {
    var slope := LoadSimpleModel(artifact);
    var price := closes[|closes| - 1];
    var trend := LongTermTrend(slope, price);
    assert Pow10(2) == 100.0;
    LongTermForecast(Round(price + slope, 2), trend.Name(), trend.Confidence())
  }

  // ------------------------------------------------------------- short term

  datatype Signal = BuyMomentum | WeakBuy | SellMomentum | WeakSell | HoldNeutral {
    function Name(): string {
      match this
      case BuyMomentum => "Buy (Momentum)"
      case WeakBuy => "Hold/Weak Buy"
      case SellMomentum => "Sell (Momentum)"
      case WeakSell => "Hold/Weak Sell"
      case HoldNeutral => "Hold (Neutral)"
    }

    function Confidence(): real {
      match this
      case BuyMomentum => 0.80
      case WeakBuy => 0.60
      case SellMomentum => 0.80
      case WeakSell => 0.60
      case HoldNeutral => 0.50
    }

    function Mirror(): Signal {
      match this
      case BuyMomentum => SellMomentum
      case WeakBuy => WeakSell
      case SellMomentum => BuyMomentum
      case WeakSell => WeakBuy
      case HoldNeutral => HoldNeutral
    }
  }

  /** The if/elif chain on the 30-day momentum in percent. */
  function ShortTermSignal(momentum: real): Signal {
    if momentum > 3.0 then BuyMomentum
    else if momentum > 0.5 then WeakBuy
    else if momentum < -3.0 then SellMomentum
    else if momentum < -0.5 then WeakSell
    else HoldNeutral
  }

  datatype ShortTermForecast = ShortTermForecast(forecast7dPercent: real, recommendation: string, confidence: real)

  /** get_short_term_prediction on the stored short_term artifact; the price frame is not read. */
  function GetShortTermPrediction(artifact: Artifact): (p: ShortTermForecast)
    ensures p.forecast7dPercent == Round(LoadSimpleModel(artifact) / 4.0, 2)
    ensures -0.005 <= p.forecast7dPercent - LoadSimpleModel(artifact) / 4.0 <= 0.005
    ensures var signal := ShortTermSignal(LoadSimpleModel(artifact));
      p.recommendation == signal.Name() && p.confidence == signal.Confidence()
  {
    var momentum := LoadSimpleModel(artifact);
    var signal := ShortTermSignal(momentum);
    assert Pow10(2) == 100.0;
    ShortTermForecast(Round(momentum / 4.0, 2), signal.Name(), signal.Confidence())
  }

  // ------------------------------------------------------------- properties

  /** For a positive price the chain picks the label of the band the slope lies in. */
  lemma LongTermBands(slope: real, price: real)
    requires price > 0.0
    ensures LongTermTrend(slope, price) == StrongBuyTrend <==> slope > 0.05 * price
    ensures LongTermTrend(slope, price) == PositiveTrend <==> 0.0 < slope <= 0.05 * price
    ensures LongTermTrend(slope, price) == StrongSellTrend <==> slope < -0.05 * price
    ensures LongTermTrend(slope, price) == NegativeTrend <==> -0.05 * price <= slope < 0.0
    ensures LongTermTrend(slope, price) == NeutralTrend <==> slope == 0.0
  {
  }

  /** For a positive price, slopes s and -s get mirrored labels with the same confidence. */
  lemma LongTermMirror(slope: real, price: real)
    requires price > 0.0
    ensures LongTermTrend(-slope, price) == LongTermTrend(slope, price).Mirror()
    ensures LongTermTrend(-slope, price).Confidence() == LongTermTrend(slope, price).Confidence()
  {
    LongTermBands(slope, price);
    LongTermBands(-slope, price);
  }

  /** The short-term chain picks the label of the band the momentum lies in. */
  lemma ShortTermBands(momentum: real)
    ensures ShortTermSignal(momentum) == BuyMomentum <==> momentum > 3.0
    ensures ShortTermSignal(momentum) == WeakBuy <==> 0.5 < momentum <= 3.0
    ensures ShortTermSignal(momentum) == SellMomentum <==> momentum < -3.0
    ensures ShortTermSignal(momentum) == WeakSell <==> -3.0 <= momentum < -0.5
    ensures ShortTermSignal(momentum) == HoldNeutral <==> -0.5 <= momentum <= 0.5
  {
  }

  /** Momentum m and -m get mirrored labels with the same confidence, boundaries included. */
  lemma ShortTermMirror(momentum: real)
    ensures ShortTermSignal(-momentum) == ShortTermSignal(momentum).Mirror()
    ensures ShortTermSignal(-momentum).Confidence() == ShortTermSignal(momentum).Confidence()
  {
    ShortTermBands(momentum);
    ShortTermBands(-momentum);
  }

  /**
   * With no usable long-term artifact the slope is 0: the forecast is the
   * last close rounded to cents, and the label is Neutral at 0.50 exactly
   * when the price is not negative (a negative price reads as a strong buy).
   */
  lemma LongTermWithoutArtifact(closes: seq<real>, artifact: Artifact)
    requires |closes| > 0 && !artifact.Stored?
    ensures var p := GetLongTermPrediction(closes, artifact);
      p.forecast1y == Round(closes[|closes| - 1], 2) &&
      (p.recommendation == "Neutral Trend" <==> closes[|closes| - 1] >= 0.0) &&
      (closes[|closes| - 1] >= 0.0 ==> p.confidence == 0.50) &&
      (closes[|closes| - 1] < 0.0 ==> p.recommendation == "Strong Buy Trend" && p.confidence == 0.75)
  {
    var price := closes[|closes| - 1];
    assert price + 0.0 == price;
    if price < 0.0 {
      assert LongTermTrend(0.0, price) == StrongBuyTrend;
      assert StrongBuyTrend.Name() != NeutralTrend.Name();
    }
  }

  /** With no usable short-term artifact the answer is Hold (Neutral) at 0.50 with forecast 0. */
  lemma ShortTermWithoutArtifact(artifact: Artifact)
    requires !artifact.Stored?
    ensures GetShortTermPrediction(artifact) == ShortTermForecast(0.0, "Hold (Neutral)", 0.50)
  {
    RoundOfZero(2);
    assert 0.0 / 4.0 == 0.0;
  }
}
