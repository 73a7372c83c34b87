# finstock-ai backend core, modelled in Dafny

This project models the numeric and text core of the finstock-ai backend:

- **Statistics.** `calculate_statistics` cleans the Close column of a price
  history. It computes the descriptive statistics, the daily returns and the
  up/down probabilities (with `calculate_advanced_probabilities`). It
  replaces every non-finite number by `None` and returns the finite returns,
  in percent, for the histogram.
- **Prediction.** `get_long_term_prediction` and `get_short_term_prediction`
  turn a stored model value into a forecast, a recommendation and a
  confidence. `load_simple_model` falls back to 0.0 when that value is
  missing or unreadable.
- **Training.** `train_short_term_model` computes the 30-day momentum and
  `train_long_term_model` the annualised least-squares trend over five
  years. Both give 0.0 instead of failing.
- **News.** `fetch_rss_feed` truncates a parsed feed and fills in default
  titles. `get_news_and_sentiment` picks the articles relevant to a
  company, scores them and labels the average. `get_global_market_sentiment`
  does the same for the market feed and guesses a trending topic.

Modules, one file each:

| file | module | what it holds |
|---|---|---|
| `wrappers.dfy` | `Wrappers` | `Option` and `Result` |
| `floats.dfy` | `Floats` | doubles as exact reals plus ±infinity and NaN, division, round-half-even |
| `descriptive.dfy` | `Descriptive` | sum, mean, sample variance, sorting, linear-interpolation percentiles, median, mode |
| `probabilities.dfy` | `Probabilities` | `calculate_advanced_probabilities` |
| `statistics.dfy` | `Statistics` | `calculate_statistics`: the cleaning loop, the stats dict, the sanitising loop, the histogram loop |
| `prediction.dfy` | `Prediction` | model loading and the two prediction functions |
| `training.dfy` | `Training` | the two training functions and the least-squares slope |
| `text.dfy` | `Text` | `lower()`, `split()[0]`, `in`, `split(c)[0]`, `strip()` |
| `news.dfy` | `News` | the sentiment label, the feed reader and the two news services |

The functions that loop in the source are methods with loop invariants:
- `Statistics.DropUnreadableCloses`, `Statistics.Sanitise` and `Statistics.HistogramList`;
- `News.FetchRssFeed`, `News.ScoreArticles` and `News.GetGlobalMarketSentiment`.

Each is proved equal to a specification function. The properties are proved about those functions.

Doubles are exact reals (`Float.Fin`), extended by `PosInf`, `NegInf` and `NaN`. These appear where the source can produce them:
- a return after a zero close;
- a sample variance of one value.

Python's `round` is round-half-even on the exact value.

## Model

| member | source | states |
|---|---|---|
| Statistics.CalculateStatistics | backend/app/services/analysis.py:96-174 | It raises "Invalid historical data" exactly when the frame is empty or has no Close column. It raises "No valid Close data" exactly when no readable close remains. Otherwise it returns the sanitised stats of the cleaned rows and the histogram of their returns, and every value in the dict is finite or None. |
| Statistics.DropUnreadableCloses | backend/app/services/analysis.py:113-114 | The loop keeps exactly the rows whose close is readable, in order, and returns their days and closes. |
| Statistics.CleanRows | backend/app/services/analysis.py:113-114 | Every kept row has a readable close. Every row with a readable close is kept, and no other row is. |
| Statistics.CleanRowsSplits | backend/app/services/analysis.py:114 | Cleaning distributes over concatenation, so the kept rows keep their order and multiplicity. |
| Statistics.CleanRowsOne | backend/app/services/analysis.py:113-114 | A single row is kept exactly when its close is readable. |
| Statistics.CleanRowsIdempotent | backend/app/services/analysis.py:113-114 | Cleaning a frame a second time removes nothing. |
| Statistics.FirstDay | backend/app/services/analysis.py:119 | It is one of the days and no day is earlier. |
| Statistics.LastDay | backend/app/services/analysis.py:120 | It is one of the days and no day is later. |
| Statistics.DatesAreTheEnds | backend/app/services/analysis.py:119-120 | start_date and end_date are dates of the cleaned series, and each other date lies between them. |
| Statistics.PctChangeCases | backend/app/services/analysis.py:139 | After a non-zero close the change is close[i+1]/close[i] - 1. After a zero close it is +inf, -inf or NaN exactly when the next close is positive, negative or zero. |
| Statistics.ReturnsOfNonZeroCloses | backend/app/services/analysis.py:139 | With no zero close, dropna (DropNaN) on DailyReturns removes only the leading NaN. Each return is then c[i+1]/c[i] - 1. |
| Statistics.DropNaNKeepsNaNFree | backend/app/services/analysis.py:139 | dropna leaves a series without NaN unchanged. |
| Statistics.DropNaNMembership | backend/app/services/analysis.py:139 | dropna (DropNaN) keeps exactly the values that are not NaN, so infinities stay. |
| Statistics.DropNaNSplits | backend/app/services/analysis.py:139 | dropna distributes over concatenation, so the kept returns keep their order and multiplicity. |
| Statistics.DropNaNOne | backend/app/services/analysis.py:139 | A single value is dropped exactly when it is NaN. |
| Statistics.PriceFieldsAgree | backend/app/services/analysis.py:121-135 | The price fields of Describe are finite. range = max - min, iqr = p75 - p25, and min <= p25 <= p50 <= p75 <= max. The median equals the 50th percentile. min and max are closes that bound every close. |
| Statistics.SingleClosePriceFields | backend/app/services/analysis.py:121-136 | For one close, variance and std are NaN and become None. range and iqr are 0. Mean, median and mode are that close. coeff_of_variation (CoefficientOfVariation) is None unless the close is 0, and then 0. |
| Statistics.SingleCloseReturnFields | backend/app/services/analysis.py:139-143 | For one close there are no returns. The up probability and the return mean and std fall back to 0. Every advanced probability is None, and the histogram is empty. |
| Statistics.PairProbabilitiesPresent | backend/app/services/analysis.py:70-85 | With at least two returns, the valid-pair count is never 0, so all five advanced probabilities are numbers. The conditional ones lie in [0, 100], and the two streaks add up to at most 100. |
| Statistics.UpAndDownAtMost100 | backend/app/services/analysis.py:140-141 | probability_next_day_up + probability_next_day_down <= 100, with the up share given by UpProbability. |
| Statistics.StdSquaresToVariance | backend/app/services/analysis.py:125-129 | When sqrt is a square root, the std is finite and non-negative and squares to the finite variance, for two closes or more. |
| Statistics.ConstantClosesPriceFields | backend/app/services/analysis.py:121-136 | For a constant series, variance, std, range and iqr are 0, the mean is the close, and coeff_of_variation is 0. |
| Statistics.ConstantReturns | backend/app/services/analysis.py:139 | A constant non-zero series has only zero returns, one fewer than its closes. |
| Statistics.ConstantClosesReturnFields | backend/app/services/analysis.py:139-143 | For a constant non-zero series of three or more closes, every probability is 0, and so are the mean and the std of the returns. |
| Statistics.FlatReturnMean | backend/app/services/analysis.py:142 | Zero returns have mean_daily_return_percent 0. |
| Statistics.FlatReturnStd | backend/app/services/analysis.py:143 | Zero returns have std_dev_daily_return_percent 0. |
| Statistics.RawStatistics | backend/app/services/analysis.py:145-158 | The stats dict has exactly the 25 keys. |
| Statistics.KeyNameRoundTrip | backend/app/services/analysis.py:145-158 | Each key's JSON name reads back as that key. |
| Statistics.KeyNameIsInjective | backend/app/services/analysis.py:145-158 | Distinct keys have distinct JSON names, so the dict has 25 distinct string keys. |
| Statistics.StatsAreCleanedValues | backend/app/services/analysis.py:145-166 | Each entry of the cleaned dict is the sanitised value of that field. |
| Statistics.Sanitised | backend/app/services/analysis.py:163-166 | The value is kept when finite or not a number, and becomes None otherwise. |
| Statistics.Sanitise | backend/app/services/analysis.py:161-166 | The loop keeps every key and sanitises each value. |
| Statistics.HistogramList | backend/app/services/analysis.py:169-172 | The loop builds exactly Histogram of the returns. HistogramSplits and HistogramOne pin that list down completely: one round(r*100, 4) per finite return, in order, and nothing for an infinite one. |
| Statistics.HistogramOfFinite | backend/app/services/analysis.py:169-172 | With finite returns, the list has one entry per return, and each entry is round(r*100, 4). |
| Statistics.HistogramSplits | backend/app/services/analysis.py:169-172 | The histogram (Histogram) distributes over concatenation, so its entries follow the order of the returns. |
| Statistics.HistogramOne | backend/app/services/analysis.py:169-172 | A single return contributes round(r*100, 4) when it is finite, and nothing when it is infinite or NaN. |
| Statistics.ZeroCloseHistogram | backend/app/services/analysis.py:139-172 | Closes 0, 5, 10 give the returns +inf and 1. dropna keeps both, and the histogram keeps only 100.0. |
| Statistics.ConstantClosesHistogram | backend/app/services/analysis.py:169-172 | A constant non-zero series gives a histogram of zeros, one per return. |
| Statistics.ExampleReturns | backend/app/services/analysis.py:139 | Closes 100, 102, 101, 101, 105 give returns 0.02, -1/102, 0, 4/101. |
| Statistics.ExampleProbabilities | backend/app/services/analysis.py:54-93 | For those closes, up is 50 and down is 25, and the conditional and streak probabilities are 0. |
| Statistics.ExampleHistogram | backend/app/services/analysis.py:169-172 | For those closes the histogram is [2.0, -0.9804, 0.0, 3.9604]. |
| Probabilities.AdvancedProbabilities | backend/app/services/analysis.py:54-93 | All five values are None exactly when there are fewer than two returns. Otherwise prob_down_day is the percentage of down days. Every present value lies in [0, 100]. |
| Probabilities.AdvancedProbabilitiesDefinition | backend/app/services/analysis.py:77-93 | Without NaN and with two or more returns, each value is the pandas count quotient: down days over all days, up-after-up over was-up (0 when there are none), down-after-down over was-down, and each streak count over the valid pairs. |
| Probabilities.CountPairsIsCardinality | backend/app/services/analysis.py:62-80 | Each recursive pair count is the size of the set of indices i >= 1 where the pair condition holds on (r[i-1], r[i]). |
| Probabilities.CountDaysIsCardinality | backend/app/services/analysis.py:63-65 | Each day count is the size of the set of indices in that direction. |
| Probabilities.CountPairs | backend/app/services/analysis.py:62-68 | Pairs are counted from the second return on, so there are fewer than the returns, and none for one return. |
| Probabilities.CountDays | backend/app/services/analysis.py:63-65 | There are at most as many up (or down) days as returns. |
| Probabilities.PairCountsNested | backend/app/services/analysis.py:77-84 | up-after-up <= was-up <= valid and down-after-down <= was-down <= valid. The two streak counts add up to at most the valid pairs. |
| Probabilities.UpAndDownDaysDisjoint | backend/app/services/analysis.py:63-65 | There are at most as many up days plus down days as returns. |
| Probabilities.ValidPairsWithoutNaN | backend/app/services/analysis.py:67-68 | Without NaN, every consecutive pair is valid. |
| Probabilities.StreaksAtMost100 | backend/app/services/analysis.py:83-84 | The two 2-day streak probabilities add up to at most 100. |
| Probabilities.FlatCounts | backend/app/services/analysis.py:63-80 | Zero returns have no up or down day, and no pair of either kind. |
| Probabilities.FlatReturns | backend/app/services/analysis.py:54-93 | Two or more zero returns give 0 for every probability. |
| Descriptive.SampleVariance | backend/app/services/analysis.py:125 | The variance is NaN exactly below two values, and is non-negative otherwise. |
| Descriptive.SumSqDev | backend/app/services/analysis.py:125 | A sum of squared deviations is non-negative. |
| Descriptive.VarianceOfConstant | backend/app/services/analysis.py:125 | Equal values have variance 0. |
| Descriptive.MeanOfConstant | backend/app/services/analysis.py:121-128 | Equal values have that value as their mean. |
| Descriptive.SortIsPermutationInOrder | backend/app/services/analysis.py:121 | The sort describe uses for its percentiles is ascending and a permutation of the closes. |
| Descriptive.SortedEnds | backend/app/services/analysis.py:121-131 | The first and last sorted values are closes and bound every close. |
| Descriptive.Quantile | backend/app/services/analysis.py:121-133 | A linearly interpolated percentile lies between the smallest and the largest value. |
| Descriptive.InterpolateMonotone | backend/app/services/analysis.py:121-133 | Interpolation at a later position never gives a smaller value. |
| Descriptive.QuartilesInOrder | backend/app/services/analysis.py:132-133 | p25 <= p50 <= p75. |
| Descriptive.MedianIsMiddleQuantile | backend/app/services/analysis.py:122 | The median (the middle value, or the mean of the two middle values) equals the 50% percentile. |
| Descriptive.Mode | backend/app/services/analysis.py:123-124 | The first mode is a close that occurs at least as often as any other. Among the most frequent closes it is the smallest. |
| Descriptive.ModeTieBreak | backend/app/services/analysis.py:123-124 | [1, 1, 2, 2] has first mode 1. |
| Floats.Quotient | backend/app/services/analysis.py:139 | A quotient is NaN exactly for 0/0 and finite exactly when the divisor is non-zero. |
| Floats.Round | backend/app/services/prediction.py:58 | round(x, d) differs from x by at most half a unit in the d-th place. RoundIsNearestEven states that it also lies on the 10^-d grid. |
| Floats.RoundIsNearestEven | backend/app/services/prediction.py:58 | round(x, d) is k / 10^d, where k is the integer nearest to x * 10^d. When x * 10^d is half-way between two integers, k is the even one. |
| Floats.RoundTiesExample | backend/app/services/prediction.py:58 | Half-way cases go to the even digit: round(0.125, 2) = 0.12 and round(0.135, 2) = 0.14. |
| Floats.RoundOfInteger | backend/app/services/analysis.py:170 | Rounding a value that is already a multiple of 10^-d returns it. |
| Prediction.LoadSimpleModel | backend/app/services/prediction.py:11-25 | A stored value is returned. A missing or unloadable file gives 0.0. |
| Prediction.GetLongTermPrediction | backend/app/services/prediction.py:29-61 | forecast_1y is round(last close + loaded slope, 2), so it is within half a cent of that sum. recommendation and confidence are the label of the band (LongTermTrend, see LongTermBands) that the loaded slope falls in at the last close. |
| Prediction.LongTermBands | backend/app/services/prediction.py:41-55 | At a positive price, the label of LongTermTrend is Strong Buy above +5% of the price, Positive in (0, 5%], Strong Sell below -5%, Negative in [-5%, 0) and Neutral at 0 (each an iff). |
| Prediction.LongTermMirror | backend/app/services/prediction.py:41-55 | Negating the slope mirrors the label and keeps its confidence. |
| Prediction.LongTermWithoutArtifact | backend/app/services/prediction.py:34-58 | With no usable model file, forecast_1y is the last close rounded to cents. The label is Neutral at 0.50 exactly when the price is not negative, and Strong Buy at 0.75 when it is. |
| Prediction.GetShortTermPrediction | backend/app/services/prediction.py:63-91 | forecast_7d_percent is round(loaded momentum / 4, 2), so it is within half a cent of that quarter. recommendation and confidence are the label of the band (ShortTermSignal, see ShortTermBands) that the loaded momentum falls in. |
| Prediction.ShortTermBands | backend/app/services/prediction.py:71-85 | ShortTermSignal gives Buy above 3, Weak Buy in (0.5, 3], Sell below -3, Weak Sell in [-3, -0.5) and Neutral in [-0.5, 0.5] (each an iff). |
| Prediction.ShortTermMirror | backend/app/services/prediction.py:71-85 | Negating the momentum mirrors the signal and keeps its confidence. |
| Prediction.ShortTermWithoutArtifact | backend/app/services/prediction.py:68-91 | With no usable model file the answer is (0.0, "Hold (Neutral)", 0.50). |
| Training.PyIloc | backend/training/2_train_simple_models.py:77-78 | iloc[k] is defined exactly for -len <= k < len. A negative k counts from the end. |
| Training.TrainShortTermModel | backend/training/2_train_simple_models.py:66-89 | The result is 0.0 with fewer rows than days, with a zero base close, and on an empty frame. |
| Training.MomentumSign | backend/training/2_train_simple_models.py:77-85 | With a positive base, momentum > 0, < 0 or = 0 exactly when the latest close is above, below or equal to the base. |
| Training.MomentumRecoversLatest | backend/training/2_train_simple_models.py:77-85 | base * (1 + momentum/100) is the latest close. |
| Training.LatestDay | backend/training/2_train_simple_models.py:36 | It is a row's date and no row is later. |
| Training.EarliestDay | backend/training/2_train_simple_models.py:46 | It is a row's date and no row is earlier. |
| Training.OnOrAfter | backend/training/2_train_simple_models.py:38 | A row is kept exactly when it is dated on or after the start. OnOrAfterSplits and OnOrAfterOne pin down order and multiplicity. |
| Training.OnOrAfterSplits | backend/training/2_train_simple_models.py:38 | The date filter distributes over concatenation, so kept rows keep their order and their duplicates. |
| Training.OnOrAfterOne | backend/training/2_train_simple_models.py:38 | A single row is kept exactly when it is dated on or after the start. |
| Training.WindowMembership | backend/training/2_train_simple_models.py:36-38 | A row is in Window exactly when it is dated at most span days before the latest date. |
| Training.WindowHasLatestRow | backend/training/2_train_simple_models.py:36-38 | The latest row is always in the window. |
| Training.DaysSinceStart | backend/training/2_train_simple_models.py:46 | The regressor is each row's distance in days from the window's first date. |
| Training.TrainLongTermModel | backend/training/2_train_simple_models.py:29-63 | The slope is 0.0 when the window has fewer than two rows and when the frame is empty. |
| Training.ConstantClosesHaveNoTrend | backend/training/2_train_simple_models.py:29-59 | A constant close gives slope 0. |
| Training.LinearClosesRecoverTheSlope | backend/training/2_train_simple_models.py:36-59 | If the closes lie on a line with daily slope b and the window has at least two rows, the annualised slope is exactly 252 * b. |
| Training.SlopeOfLine | backend/training/2_train_simple_models.py:51-55 | OlsSlope, the least squares slope fitted to points on a line with slope b, with two distinct x, gives b. |
| Training.NoCrossNoSlope | backend/training/2_train_simple_models.py:51-55 | Without co-variation the fitted slope is 0. |
| Training.DistinctRegressors | backend/training/2_train_simple_models.py:46-52 | Two distinct regressor values give a positive spread, so the slope is a proper quotient. |
| Training.MeanOfLinear | backend/training/2_train_simple_models.py:51-55 | The mean of points on a line lies on the line. |
| Training.CrossDevOfLinear | backend/training/2_train_simple_models.py:51-55 | On a line, the co-deviation is b times the spread of x. |
| Text.Lower | backend/app/services/news.py:67 | lower() keeps the length and lowers each ASCII capital. |
| Text.LowerIsIdempotent | backend/app/services/news.py:67 | No capital is left after lowering, and lowering twice equals lowering once. |
| Text.ContainsBasics | backend/app/services/news.py:67 | "" is in every headline, a keyword is in itself, and it is in any headline it sits inside. |
| Text.FirstWord | backend/app/services/news.py:67 | split()[0] fails exactly for an all-whitespace name. Otherwise it is a non-empty word without whitespace. |
| Text.FirstWordFinds | backend/app/services/news.py:67 | If the name is whitespace, then a word, then nothing or whitespace, then split()[0] is that word. |
| Text.CutAt | backend/app/services/news.py:119 | split(c)[0] is a prefix without c, followed by c or by the end of the string. |
| Text.CutAtFinds | backend/app/services/news.py:119 | split(c)[0] of a + c + b, where a has no c, is a. |
| Text.Strip | backend/app/services/news.py:119 | strip() leaves a piece of its argument with only whitespace around it, and the piece neither starts nor ends with whitespace. |
| Text.StripFinds | backend/app/services/news.py:119 | strip() of whitespace + core + whitespace is the core. |
| Text.StripIsIdempotent | backend/app/services/news.py:119 | Stripping twice equals stripping once. |
| Text.StripIsContained | backend/app/services/news.py:119 | The stripped string occurs in the original. |
| News.LabelOf | backend/app/services/news.py:25-30 | The VADER label is Positive iff score >= 0.05, Negative iff score <= -0.05, Neutral iff in between. |
| News.LabelIsMonotone | backend/app/services/news.py:25-30 | A higher score never gives a lower label. |
| News.LabelIsSymmetric | backend/app/services/news.py:25-30 | Negating the score mirrors the label. |
| News.Take | backend/app/services/news.py:41 | entries[:limit] is a prefix of length min(limit, len), or len + limit floored at 0 for a negative limit. |
| News.RssArticles | backend/app/services/news.py:34-50 | A feed that fails to parse gives []. Otherwise there is one article per entry of entries[:limit], with the feed title (or "RSS Feed") and the entry title (or "No Title"). |
| News.FetchRssFeed | backend/app/services/news.py:34-50 | The loop builds exactly those articles. |
| News.RssArticlesDefaults | backend/app/services/news.py:41-46 | There are at most `limit` articles. Each gets "No Title" without an entry title, "RSS Feed" without a feed title, and the feed title otherwise. |
| News.ScoreArticles | backend/app/services/news.py:76-81 | The loop scores each article and sums the scores. |
| News.TotalScoreBounds | backend/app/services/news.py:76-81 | With compound scores in [-1, 1], the total of n scores lies in [-n, n]. |
| News.AverageInRange | backend/app/services/news.py:83 | The average of scores in [-1, 1] lies in [-1, 1]. |
| News.Mentioning | backend/app/services/news.py:65-67 | An article is kept exactly when its lowered headline contains the keyword. |
| News.MentioningSplits | backend/app/services/news.py:65-67 | Filtering distributes over concatenation, so the feed order is kept. |
| News.MentioningOne | backend/app/services/news.py:65-67 | A single article is kept exactly when it mentions the keyword. |
| News.Relevant | backend/app/services/news.py:65-72 | The result is the first three matches, or the first two articles when nothing matches. It has at most three articles, and it is empty exactly when the feed is. |
| News.RelevantFromFeed | backend/app/services/news.py:65-72 | Every relevant article comes from the feed, and it mentions the keyword when anything does. |
| News.Placeholder | backend/app/services/news.py:87-92 | The fallback article comes from "System" with score 0 and label Neutral. |
| News.GetNewsAndSentiment | backend/app/services/news.py:54-99 | It fails exactly when the feed has articles and the company name is blank. An empty feed gives the placeholder labelled Neutral. Otherwise the result holds the scored relevant articles, in order, and OverallLabel: the VADER label of the text "Score <average>". |
| News.CompanyScoresInRange | backend/app/services/news.py:76-84 | With VADER scores in [-1, 1], the relevant set is non-empty and its average lies in [-1, 1]. |
| News.TrendingTopic | backend/app/services/news.py:119 | The topic has no '-' and no '\|'. It is the stripped part of the headline before the first '-' and then before the first '\|', so it neither starts nor ends with whitespace. |
| News.TrendingTopicIsInHeadline | backend/app/services/news.py:119 | The topic occurs in the first headline. |
| News.TrendingTopicOfDashedHeadline | backend/app/services/news.py:119 | For the headline "Topic - rest", the topic is "Topic". |
| News.GetGlobalMarketSentiment | backend/app/services/news.py:102-131 | An empty feed gives (Neutral, "News Unavailable", ["Could not fetch market news feed."]). Otherwise the result has the five-or-fewer headlines in order, the topic of the first, and the label of the average score. |
| News.MarketHeadlineCount | backend/app/services/news.py:106-114 | A non-empty market view has between one and five headlines. |

## Left out

- Date index parsing (analysis.py:105-112): the model receives rows whose dates are already day numbers, so the "Could not process date index" error is not modelled.
- calculate_statistics changes the caller's frame in place: `hist_data.index` and the Close column are reassigned, and `dropna(inplace=True)` runs twice (analysis.py:107-114). The model takes the history by value and returns the cleaned rows, so this mutation is not modelled. The only caller, endpoints.py:156-162, passes a copy that it has already cleaned the same way, and CleanRowsIdempotent shows that the second cleaning then removes nothing.
- `strftime` formatting of start_date and end_date: dates stay as day numbers.
- Infinite or NaN closes as inputs: `to_numeric` is modelled as giving a real number or nothing. Infinities and NaN still arise from division, and they are modelled there.
- Skewness and kurtosis: pandas' bias-corrected formulas are not modelled. They enter `calculate_statistics` as given values (`LibraryMoments`) and are then sanitised like every other value.
- Square root: a parameter `sqrt: real -> real`. The lemmas that need it state what they assume about it.
- `pd.DateOffset(years=5)`: a window `span` in days. Calendar arithmetic with leap years is not modelled.
- The sklearn `LinearRegression` fit is replaced by the closed-form least-squares slope with an intercept. When every x is equal it is 0, as sklearn's minimum-norm solution is.
- The generic `except` branches of the training functions are modelled only where their cause is modelled: an out-of-range `iloc`. The other errors they catch (a missing Close column, non-numeric data) are outside the model.
- Prediction.GetLongTermPrediction: requires a non-empty close series, because `iloc[-1]` on an empty frame raises, and that exception is not modelled.
- joblib, the filesystem and `float()` on the loaded object become the `Artifact` value: missing, unloadable, or a stored number.
- feedparser becomes the `Feed` value: unreadable, or a title and entries with optional titles. VADER's compound score is a parameter `polarity`. Python's float formatting inside `f"Score {avg_score}"` is a parameter `show`.
- Text.Lower: lowers ASCII capitals only. Python's Unicode case mapping is not modelled.
- The articles that `get_news_and_sentiment` mutates are modelled as new scored records. The dicts are fresh from `fetch_rss_feed`, so the mutation is not observable to callers.
- The `symbol` parameter of `get_news_and_sentiment` is unused by the source and is not modelled.
- The "Market Update" fallback for the trending topic (news.py:119) cannot be reached: the list of headlines is non-empty on that branch. It is not modelled.
- Statistics.UpAndDownAtMost100: stated on the returns, that is on UpProbability and AdvancedProbabilities, rather than on the two entries of the cleaned dict.
- Logging and `print` calls, `random`, `get_stock_data`, `get_intraday_prediction`, the HTTP and websocket endpoints, the data-collection script, and the training script's loop over CSV files and saving with joblib.
- Integer width: pandas sums of booleans are unbounded integers here. That matches the source for any realistic series length.
