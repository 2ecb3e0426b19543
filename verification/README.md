# Running statistics in Dafny

A model of the single-pass statistical accumulators of the RunningStats
library, with proofs of what they compute:

- `RunningStats` keeps the count, the mean and the central-moment sums M2,
  M3 and M4 of a stream of values, plus its minimum and maximum. It updates
  them one value at a time (Welford's update extended to the fourth
  moment), and `operator+` pools two accumulators (Pébay's pairwise
  formulas).
- `RunningRegression` keeps two such accumulators and the co-moment S_xy
  of a stream of pairs. Slope, intercept and correlation are read from
  them.
- `RunningStatsDS` is the d-dimensional version: one accumulator per
  variable and a d x d co-moment matrix S.
- `RunningPercentile` is the P-square estimator of Jain and Chlamtac
  (Communications of the ACM 28(10), 1985). It keeps five markers per
  tracked percentile.

## How the model works

- **Numbers.** `double` is modelled as `real` and the `long` counters as
  `nat`.
- **Division by zero.** Where the source would divide by zero (the variance
  of one value, a slope over constant x, a merge of two empty
  accumulators), the model has a precondition.
- **Functions.** Every operation is a pure function on an immutable
  datatype. The methods `PushArray` and `PushRows` are loops that agree
  with the functional definitions.
- **Histories.** The values pushed so far never live in the state. They
  are a lemma parameter `xs`, linked to the state by a predicate:
  - `RunningStats.Moments(s, xs)`: the count is |xs|, M1 is the mean of
    xs, and M2 is the sum of squared deviations of xs.
  - `RunningStats.Extrema(s, xs)`: min and max are values of xs that
    bound all of them.
  - `RunningRegression.Tracks`, `RunningStatsDS.Tracks`,
    `RunningPercentile.Tracks`: the same link for the other accumulators.
- **Deviation sums.** The `Deviations` module defines means and
  co-moments from raw sums. The running updates are proved against those
  definitions, so the invariants are exact over the reals.
- **Square root.** `Math.Sqrt` is a parameter `sqrt`. The predicate
  `SquareRoot(sqrt)` holds when it returns the non-negative root of every
  non-negative number. Lemmas that need a true root require it.
- **Scenario.** `StreamingScenario` restates the console driver's data.
  It uses x from -5 to 10, y = 2x + 5 and z = -6.4x - 19, and proves that
  the fits recover these lines.

## Model

| member | source | states |
|---|---|---|
| RunningStats.Clear | RunningStats/RunningStats.cs:32-38 | clearing gives count 0, M1..M4 zero and min = max = 0 |
| RunningStats.ClearMoments | RunningStats/RunningStats.cs:32-38 | the cleared accumulator has seen nothing: the moment and extreme invariants hold of the empty history |
| RunningStats.Push | RunningStats/RunningStats.cs:44-69 | a push raises the count by exactly one |
| RunningStats.PushMin | RunningStats/RunningStats.cs:58-67 | the first value becomes the minimum; afterwards the new minimum is the old one or x, whichever is smaller |
| RunningStats.PushMax | RunningStats/RunningStats.cs:58-67 | the first value becomes the maximum; afterwards the new maximum is the old one or x, whichever is larger |
| RunningStats.FirstPush | RunningStats/RunningStats.cs:44-69 | pushing x into a cleared accumulator gives count 1, mean x, zero M2..M4 and min = max = x |
| RunningStats.Single | RunningStats/RunningStats.cs:44-69 | the one-value accumulator has the moments and extremes of the history [x] |
| RunningStats.PushMoments | RunningStats/RunningStats.cs:48-57 | if the state has seen xs, after pushing x M1 is the mean of xs + [x] and M2 its sum of squared deviations |
| RunningStats.PushLowMoments | RunningStats/RunningStats.cs:48-57 | the mean moves by (x - mean)/(n+1), and M2 grows by the co-moment increment of x with itself at the pre-push mean |
| RunningStats.MomentsStep | RunningStats/RunningStats.cs:48-57 | any state whose count, mean and M2 move by those increments from a state that has seen xs has seen xs + [x] |
| RunningStats.PushM2Grows | RunningStats/RunningStats.cs:57 | a push never decreases M2 |
| RunningStats.PushExtrema | RunningStats/RunningStats.cs:58-67 | if min and max are values of xs bounding all of them, after pushing x they are values of xs + [x] bounding all of them |
| RunningStats.PushAll | RunningStats/RunningStats.cs:76-82 | pushing a sequence raises the count by its length |
| RunningStats.PushArray | RunningStats/RunningStats.cs:76-82 | the array push loop equals pushing each element in order |
| RunningStats.Accumulate | RunningStats/RunningStats.cs:76-82 | accumulating xs from a cleared state counts |xs| values |
| RunningStats.PushAllTracks | RunningStats/RunningStats.cs:76-82 | pushing ys onto a state that has seen xs gives the moments and extremes of xs + ys |
| RunningStats.AccumulateTracks | RunningStats/RunningStats.cs:76-82 | after pushing xs into a cleared accumulator, M1 is their mean, M2 their squared deviations, and min/max their extremes |
| RunningStats.Mean | RunningStats/RunningStats.cs:111-117 | returns M1; that M1 is the mean of the values seen is stated by RunningStats.PushMoments and RunningStats.AccumulateTracks |
| RunningStats.Variance | RunningStats/RunningStats.cs:122-128 | multiplied by n-1 the variance gives back M2, and it is non-negative when M2 is and more than one value was seen; RunningStats.VarianceOfHistory relates it to the history |
| RunningStats.StdDev | RunningStats/RunningStats.cs:133-139 | for a true square root and a non-negative variance, the result is non-negative and squares to the variance; RunningStats.StdDevOfHistory relates it to the history |
| RunningStats.Skewness | RunningStats/RunningStats.cs:144-150 | with M2^1.5 read as M2 sqrt(M2), the skewness times M2 sqrt(M2) is sqrt(n) M3; RunningStats.TwoValuesShape gives its value for two values |
| RunningStats.Kurtosis | RunningStats/RunningStats.cs:155-161 | the excess kurtosis plus 3, times M2^2, is n M4; RunningStats.KurtosisOfTwo gives its value for two values |
| RunningStats.Max | RunningStats/RunningStats.cs:163-169 | returns the stored maximum; that it is the greatest value seen is stated by RunningStats.PushExtrema and RunningStats.AccumulateTracks |
| RunningStats.Min | RunningStats/RunningStats.cs:171-177 | returns the stored minimum; that it is the least value seen is stated by RunningStats.PushExtrema and RunningStats.AccumulateTracks |
| RunningStats.VarianceOfHistory | RunningStats/RunningStats.cs:122-128 | M2 is never negative; for two or more values the variance is M2/(n-1) of the history and is non-negative |
| RunningStats.SquaredDeviations | RunningStats/RunningStats.cs:53-57 | M2 equals the sum over the values seen of (x - M1)^2 |
| RunningStats.StdDevOfHistory | RunningStats/RunningStats.cs:133-139 | for two or more values and a true square root, the standard deviation is non-negative and its square is the sample variance |
| RunningStats.TwoValuesShape | RunningStats/RunningStats.cs:144-161 | after pushing two distinct values, skewness is 0 and kurtosis is -2 |
| RunningStats.KurtosisOfTwo | RunningStats/RunningStats.cs:155-161 | with two values at squared distance q (M2 = q/2, M4 = q^2/8), the excess kurtosis is -2 |
| RunningStats.Merge | RunningStats/RunningStats.cs:186-210 | the merged count is the sum of the counts, and min and max are left at 0 |
| RunningStats.MergeMoments | RunningStats/RunningStats.cs:179-199 | merging accumulators that have seen xs and ys gives the mean and M2 of xs + ys, as accumulating the concatenation would |
| RunningStats.MergeLowMoments | RunningStats/RunningStats.cs:199 | the merged M2 is a.M2 + b.M2 plus the pooling term delta^2 a.n b.n / n |
| RunningStats.MomentsConcat | RunningStats/RunningStats.cs:197-199 | a state with the pooled count, mean and M2 of xs and ys has seen xs + ys |
| RunningStats.MergeForgetsExtrema | RunningStats/RunningStats.cs:186-210 | merging two positive one-value accumulators gives the right moments, but its min and max are not extremes of the values |
| RunningStats.MergeCommutes | RunningStats/RunningStats.cs:186-210 | a + b equals b + a |
| RunningStats.MergeMeanCommutes | RunningStats/RunningStats.cs:197 | the pooled mean is symmetric in the two operands |
| RunningStats.MergeM2Commutes | RunningStats/RunningStats.cs:199 | the pooled M2 is symmetric in the two operands |
| RunningStats.MergeM3Commutes | RunningStats/RunningStats.cs:201-202 | the pooled M3 is symmetric in the two operands |
| RunningStats.MergeM4Commutes | RunningStats/RunningStats.cs:204-207 | the pooled M4 is symmetric in the two operands |
| RunningStats.PushIsMerge | RunningStats/RunningStats.cs:44-210 | pushing x gives the same count, M1, M2, M3 and M4 as merging with the one-value accumulator of x |
| RunningStats.PushMeanIsMerge | RunningStats/RunningStats.cs:54-197 | the push update of M1 is the pooled mean with a one-value accumulator |
| RunningStats.PushM2IsMerge | RunningStats/RunningStats.cs:57-199 | the push update of M2 is the pooled M2 with a one-value accumulator |
| RunningStats.PushM3IsMerge | RunningStats/RunningStats.cs:56-202 | the push update of M3 is the pooled M3 with a one-value accumulator |
| RunningStats.PushM4IsMerge | RunningStats/RunningStats.cs:55-207 | the push update of M4, which reads the pre-update M2 and M3, is the pooled M4 with a one-value accumulator |
| RunningRegression.Clear | RunningStats/RunningRegression.cs:33-39 | clearing zeroes S_xy and n and clears both accumulators |
| RunningRegression.ClearTracks | RunningStats/RunningRegression.cs:33-39 | the cleared regression is consistent and has seen no pairs |
| RunningRegression.Push | RunningStats/RunningRegression.cs:46-53 | a push raises n and both accumulators' counts by exactly one |
| RunningRegression.PushValid | RunningStats/RunningRegression.cs:46-53 | n equals both accumulators' counts after every push |
| RunningRegression.PushTracks | RunningStats/RunningRegression.cs:46-53 | S_xy, updated with the pre-push means, stays the co-moment of the pairs seen, and each accumulator its column |
| RunningRegression.TracksStep | RunningStats/RunningRegression.cs:48 | adding the co-moment increment at the pre-push means to S_xy keeps it the co-moment of the pairs |
| RunningRegression.PushAll | RunningStats/RunningRegression.cs:61-72 | pushing equal-length sequences raises n by their length |
| RunningRegression.PushArrays | RunningStats/RunningRegression.cs:61-72 | the array push fails exactly when the lengths differ; otherwise it pushes each pair in order |
| RunningRegression.PushAllTracks | RunningStats/RunningRegression.cs:61-72 | pushing us, vs onto a regression that has seen xs, ys gives one that has seen xs + us, ys + vs |
| RunningRegression.AccumulateTracks | RunningStats/RunningRegression.cs:61-72 | a cleared regression fed xs, ys has exactly their moments and co-moment |
| RunningRegression.Merge | RunningStats/RunningRegression.cs:155-169 | the merged n and accumulator counts are the sums of the operands' |
| RunningRegression.MergeValid | RunningStats/RunningRegression.cs:155-169 | merging consistent regressions gives a consistent one |
| RunningRegression.MergeTracks | RunningStats/RunningRegression.cs:155-169 | merging regressions that have seen two pair streams equals accumulating their concatenation, S_xy included |
| RunningRegression.TracksConcat | RunningStats/RunningRegression.cs:163-166 | S_xy = a.S_xy + b.S_xy + a.n b.n dx dy / n is the co-moment of the concatenated pairs |
| RunningRegression.Sxx | RunningStats/RunningRegression.cs:133 | S_xx recovered as var_x (n-1); RunningRegression.SxxOfHistory states it is the squared deviations of the x values seen |
| RunningRegression.Slope | RunningStats/RunningRegression.cs:129-136 | S_xy / S_xx; RunningRegression.FitOfHistory states it is the least-squares slope of the history and RunningRegression.LinearRecovery that it recovers an exact line |
| RunningRegression.Intercept | RunningStats/RunningRegression.cs:138-144 | mean_y - slope mean_x; RunningRegression.FitOfHistory and RunningRegression.LinearRecovery carry its meaning |
| RunningRegression.Correlation | RunningStats/RunningRegression.cs:146-153 | S_xy / ((n-1) sd_x sd_y); RunningRegression.CorrelationOfHistory and RunningRegression.CorrelationSign carry its meaning |
| RunningRegression.SxxOfHistory | RunningStats/RunningRegression.cs:129-136 | (n-1) var_x equals the squared deviations of the x values seen |
| RunningRegression.FitOfHistory | RunningStats/RunningRegression.cs:129-144 | with at least two distinct x values, the slope is the co-moment over the x variation and the intercept is mean_y - slope mean_x |
| RunningRegression.LinearRecovery | RunningStats/RunningRegression.cs:129-144 | if every pair lies on y = a x + b and two x values differ, slope = a and intercept = b |
| RunningRegression.CorrelationOfHistory | RunningStats/RunningRegression.cs:146-153 | with both columns varying and a true root, the denominator is positive and the correlation squared times both variations is the co-moment squared |
| RunningRegression.CorrelationSign | RunningStats/RunningRegression.cs:146-153 | the correlation is positive (negative) exactly when the co-moment is |
| RunningRegression.StdDevsOfHistory | RunningStats/RunningRegression.cs:146-153 | both standard deviations are non-negative roots of the column variances, and S_xy is the co-moment |
| RunningStatsDS.New | RunningStats/RunningStatsDS.cs:20-32 | a negative dimension fails; otherwise the result has that dimension, no points, and the invariant |
| RunningStatsDS.Fresh | RunningStats/RunningStatsDS.cs:20-32 | d cleared accumulators and a d x d matrix, no points |
| RunningStatsDS.FreshTracks | RunningStats/RunningStatsDS.cs:20-32 | the fresh state is symmetric, its diagonal holds each M2, and it has seen no rows |
| RunningStatsDS.Clear | RunningStats/RunningStatsDS.cs:37-48 | clearing keeps the dimension, zeroes n and clears every accumulator; the result is valid and has seen nothing |
| RunningStatsDS.Resize | RunningStats/RunningStatsDS.cs:54-65 | a negative dimension fails; otherwise the state is a fresh one of the new dimension |
| RunningStatsDS.Push | RunningStats/RunningStatsDS.cs:72-87 | a push keeps the shape and dimension and raises n by one |
| RunningStatsDS.PushPair | RunningStats/RunningStatsDS.cs:72-87 | for each pair (x, y), the pushed state's pair regression is that regression pushed with (pt[x], pt[y]) |
| RunningStatsDS.PushValid | RunningStats/RunningStatsDS.cs:72-87 | pushing keeps the counts equal, S symmetric and S[i][i] = M2 of dimension i |
| RunningStatsDS.PushTracks | RunningStats/RunningStatsDS.cs:72-87 | after a push, each accumulator has seen its column and S[x][y] is the co-moment of columns x and y |
| RunningStatsDS.PushAll | RunningStats/RunningStatsDS.cs:117-123 | pushing rows keeps the shape and raises n by the number of rows |
| RunningStatsDS.PushRows | RunningStats/RunningStatsDS.cs:117-123 | the jagged-array push loop equals pushing each row in order |
| RunningStatsDS.PushAllTracks | RunningStats/RunningStatsDS.cs:117-123 | pushing more rows onto a state that has seen rows gives one that has seen their concatenation |
| RunningStatsDS.AccumulateTracks | RunningStats/RunningStatsDS.cs:117-123 | a fresh state fed rows has seen exactly those rows |
| RunningStatsDS.TracksValid | RunningStats/RunningStatsDS.cs:14 | a state that has seen any rows is symmetric with each M2 on the diagonal |
| RunningStatsDS.Merge | RunningStats/RunningStatsDS.cs:340-374 | merging fails exactly when the dimensions differ; otherwise counts add and the shape is kept |
| RunningStatsDS.MergePair | RunningStats/RunningStatsDS.cs:340-374 | each pair regression of the merged state is the merge of the operands' pair regressions |
| RunningStatsDS.MergeValid | RunningStats/RunningStatsDS.cs:340-374 | merging valid states of equal dimension succeeds and keeps the invariant |
| RunningStatsDS.MergeTracks | RunningStats/RunningStatsDS.cs:340-374 | merging states that have seen two row streams equals accumulating their concatenation |
| RunningStatsDS.Slopes | RunningStats/RunningStatsDS.cs:159-178 | a d x d matrix whose entry [x][y] is the slope of the pair regression of y on x |
| RunningStatsDS.Intercepts | RunningStats/RunningStatsDS.cs:184-203 | a d x d matrix whose entry [x][y] is the intercept of the pair regression of y on x |
| RunningStatsDS.Correlations | RunningStats/RunningStatsDS.cs:208-226 | a d x d matrix whose entry [x][y] is the correlation of the pair regression |
| RunningStatsDS.Covariances | RunningStats/RunningStatsDS.cs:231-248 | a d x d matrix whose entry [x][y] times n-1 gives back S[x][y]; RunningStatsDS.CovariancesOfHistory and RunningStatsDS.CovariancesSymmetric carry its meaning |
| RunningStatsDS.CovariancesSymmetric | RunningStats/RunningStatsDS.cs:231-248 | covariances are symmetric and the diagonal is each dimension's variance |
| RunningStatsDS.CorrelationsSymmetric | RunningStats/RunningStatsDS.cs:208-226 | correlations are symmetric |
| RunningStatsDS.CovariancesOfHistory | RunningStats/RunningStatsDS.cs:231-248 | covariance [x][y] is the co-moment of columns x and y over n - 1 |
| RunningStatsDS.SlopesOfHistory | RunningStats/RunningStatsDS.cs:159-203 | slope [x][y] is the co-moment over the variation of column x, and intercept [x][y] is mean_y - slope mean_x |
| RunningStatsDS.CorrelationsOfHistory | RunningStats/RunningStatsDS.cs:208-226 | the correlation squared times both variations is the co-moment squared, with the co-moment's sign |
| RunningStatsDS.SlopesRecoverLine | RunningStats/RunningStatsDS.cs:159-203 | if column y is a x + b over the rows and column x varies, slope [x][y] = a and intercept [x][y] = b |
| RunningStatsDS.SpreadDefinesSlopes | RunningStats/RunningStatsDS.cs:159-178 | if no column is constant, every slope is defined |
| RunningPercentile.New | RunningStats/RunningPercentile.cs:15-36 | construction fails exactly when some percentile lies outside [0, 1]; otherwise the estimator is valid and has seen nothing |
| RunningPercentile.NewSingle | RunningStats/RunningPercentile.cs:42-64 | the one-percentile constructor fails exactly when p is outside [0, 1] |
| RunningPercentile.FreshValid | RunningStats/RunningPercentile.cs:29-35 | the initial markers of every in-range percentile satisfy the invariant |
| RunningPercentile.InitialValid | RunningStats/RunningPercentile.cs:29-32 | positions 1..5, desired positions 1, 1+2p, 1+4p, 3+2p, 5 and increments 0, p/2, p, (1+p)/2, 1 satisfy the invariant |
| RunningPercentile.Clear | RunningStats/RunningPercentile.cs:69-80 | clearing keeps the percentiles, zeroes the count and restores exactly the constructed state |
| RunningPercentile.SelectCell | RunningStats/RunningPercentile.cs:101-131 | the selected cell is between 1 and 4 |
| RunningPercentile.SelectCellFacts | RunningStats/RunningPercentile.cs:104-130 | below q[0] gives cell 1, above q[4] cell 4, otherwise q[k-1] <= x < q[k], and x == q[4] keeps cell 1 |
| RunningPercentile.ResetEndsOrdered | RunningStats/RunningPercentile.cs:105-114 | replacing the end heights by x when x lies outside keeps them ordered and brackets x |
| RunningPercentile.ShiftFacts | RunningStats/RunningPercentile.cs:135-138 | shifting the positions from cell k up keeps them strictly increasing, n[0] fixed and n[4] one higher |
| RunningPercentile.Sign | RunningStats/RunningPercentile.cs:156 | the direction of a move is +1 or -1 |
| RunningPercentile.SignIsRatio | RunningStats/RunningPercentile.cs:156 | the direction is d / abs(d) |
| RunningPercentile.Adjust | RunningStats/RunningPercentile.cs:145-177 | marker i moves by exactly +1 (or -1) precisely when d >= 1 (d <= -1) and the gap to that neighbour exceeds 1; nothing else changes |
| RunningPercentile.StepUp | RunningStats/RunningPercentile.cs:166-173 | the linear step towards the upper neighbour stays between the two heights |
| RunningPercentile.StepDown | RunningStats/RunningPercentile.cs:166-173 | the linear step towards the lower neighbour stays between the two heights |
| RunningPercentile.AdjustOrdered | RunningStats/RunningPercentile.cs:151-174 | adjusting an interior marker keeps the heights ordered: the parabolic value is taken only strictly between the neighbours, the linear one otherwise |
| RunningPercentile.AdjustAll | RunningStats/RunningPercentile.cs:145-177 | adjusting markers 1, 2 and 3 keeps both end markers, the desired positions and the order of heights |
| RunningPercentile.Observe | RunningStats/RunningPercentile.cs:101-177 | observing a value keeps five strictly increasing positions |
| RunningPercentile.ObserveFacts | RunningStats/RunningPercentile.cs:101-177 | n[0] stays, n[4] grows by one, every desired position advances by its increment, the ends are reset, and ordered heights stay ordered |
| RunningPercentile.ObserveValid | RunningStats/RunningPercentile.cs:101-177 | past the fifth value, observing keeps the invariant |
| RunningPercentile.DesiredAdvance | RunningStats/RunningPercentile.cs:140-143 | adding dn to the desired positions keeps them the initial ones plus dn per push past the fifth |
| RunningPercentile.DesiredOrdered | RunningStats/RunningPercentile.cs:140-143 | desired positions are non-decreasing across markers, the first is 1, and the last is the count once five values are in |
| RunningPercentile.AccruedConstant | RunningStats/RunningPercentile.cs:142 | adding dn once per step for s steps adds s dn |
| RunningPercentile.PushMarkers | RunningStats/RunningPercentile.cs:86-182 | one push keeps five strictly increasing positions and the increments |
| RunningPercentile.PushMarkersValid | RunningStats/RunningPercentile.cs:86-182 | every push keeps the invariant: positions strictly increasing from 1 to the count, desired positions advanced, heights ordered once sorted |
| RunningPercentile.Push | RunningStats/RunningPercentile.cs:86-182 | a push keeps the percentiles and raises the count by one |
| RunningPercentile.PushValid | RunningStats/RunningPercentile.cs:86-182 | a push keeps the invariant for every tracked percentile |
| RunningPercentile.PushOneValid | RunningStats/RunningPercentile.cs:86-182 | after a push, the markers of percentile i satisfy the invariant for the new count |
| RunningPercentile.PushAll | RunningStats/RunningPercentile.cs:189-195 | pushing a sequence keeps the invariant and raises the count by its length |
| RunningPercentile.PushArray | RunningStats/RunningPercentile.cs:189-195 | the array push loop equals pushing each element in order |
| RunningPercentile.Insert | RunningStats/RunningPercentile.cs:95-99 | inserting into a sorted sequence gives a sorted permutation with the new value added |
| RunningPercentile.Sort | RunningStats/RunningPercentile.cs:95-99 | the result is a sorted permutation of the input |
| RunningPercentile.SortedUnique | RunningStats/RunningPercentile.cs:95-99 | two sorted permutations of the same values are equal, so any sort gives this result |
| RunningPercentile.OrderedIsSorted | RunningStats/RunningPercentile.cs:95-99 | for five heights, the marker order is the sort order |
| RunningPercentile.StoreTracks | RunningStats/RunningPercentile.cs:88-92 | the first five pushes store x at q[count] |
| RunningPercentile.SortTracks | RunningStats/RunningPercentile.cs:95-99 | sorting the five stored values and observing the sixth makes the end heights the least and greatest of the six |
| RunningPercentile.ObserveTracks | RunningStats/RunningPercentile.cs:101-177 | if the end heights are the least and greatest value seen, they still are after observing x |
| RunningPercentile.PushMarkersTrack | RunningStats/RunningPercentile.cs:86-182 | the markers keep holding the values stored so far, then the extremes of all values seen |
| RunningPercentile.PushTracks | RunningStats/RunningPercentile.cs:86-182 | every percentile's markers keep tracking the values seen after one push |
| RunningPercentile.PushAllTracks | RunningStats/RunningPercentile.cs:189-195 | pushing ys onto an estimator that has seen xs gives one that has seen xs + ys |
| RunningPercentile.AccumulateTracks | RunningStats/RunningPercentile.cs:189-195 | a fresh estimator fed xs tracks exactly xs |
| RunningPercentile.PercentileValues | RunningStats/RunningPercentile.cs:214-222 | one estimate per percentile; past the fifth value each lies between its percentile's lowest and highest marker heights; RunningPercentile.EstimatesWithinRange bounds it by the values seen |
| RunningPercentile.EstimatesWithinRange | RunningStats/RunningPercentile.cs:214-222 | past the fifth value, each estimate lies between the least and greatest value seen |
| RunningPercentile.MiddleWithinRange | RunningStats/RunningPercentile.cs:214-222 | the middle height of ordered markers lies between the least and greatest value seen |
| RunningPercentile.Independent | RunningStats/RunningPercentile.cs:86-182 | each percentile's markers evolve as if it were the only one tracked |
| StreamingScenario.PairScenario | StreamingTest/Program.cs:15-47 | the pair regression fed the driver's pairs has slope 2 and intercept 5 |
| StreamingScenario.LineXZ | StreamingTest/Program.cs:21-26 | the driver's z values are -6.4 x - 19 |
| StreamingScenario.AccumulatedTracks | StreamingTest/Program.cs:15-56 | the three-dimensional accumulator fed the driver's points has seen them, and every slope is defined |
| StreamingScenario.YOnX | StreamingTest/Program.cs:15-56 | slope and intercept of y on x are 2 and 5 |
| StreamingScenario.ZOnX | StreamingTest/Program.cs:15-56 | slope and intercept of z on x are -6.4 and -19 |
| StreamingScenario.XOnZ | StreamingTest/Program.cs:15-56 | slope and intercept of x on z are -1/6.4 and -19/6.4 |

## Left out

- IEEE-754 doubles. They are modelled as reals: rounding, NaN and infinity do not exist in the model. Every division the source can make by zero is a precondition, so NaN results are outside the model. This covers the variance of one value, a slope over constant x, and merging two empty accumulators.
- `long` and `int` overflow of the counters and dimensions. Counters are unbounded `nat`.
- `Math.Sqrt` and `Math.Pow` are not interpreted. The square root is a function parameter.
  - `Math.Pow(M2, 1.5)` in `skewness` is written M2 * sqrt(M2).
  - Divisions by products such as M2 * M2 are written as chained divisions by each factor. These are equal over the reals.
- RunningStats.MergeMoments: states the pooled count, mean and M2 only. For M3 and M4 the model proves that a push equals merging with a one-value accumulator (PushIsMerge) and that merging commutes. It does not prove that merging M3 and M4 equals accumulating the concatenation of arbitrary histories.
- RunningStats.Skewness, RunningStats.Kurtosis: not related to the values seen for general histories. Only the two-value shape (0 and -2) is proved.
- The count getter `numDataValues`, which returns n unchanged, and the `List<double>` overloads of every class, which repeat the array versions element by element, are not modelled.
- The regression's `List<double>` pair push (RunningRegression.cs:80-91) is not modelled. It repeats the length check and the loop of the array push modelled by RunningRegression.PushArrays.
- The regression's jagged pushes `push(double[][])` and `push(List<List<double>>)` (RunningRegression.cs:98-119) are not modelled. They push (x[i][0], x[i][1]) row by row with no length check. A row shorter than two throws after the earlier rows were already pushed, and that partial push is not modelled.
- The per-dimension accessors of the multivariate accumulator (maxVals, means, minVals, stdDevs, skewness, kurtosis, variances) and its indexer. They read the per-dimension RunningStats values modelled above. The indexer hands out a live reference, which an immutable model cannot express.
- RunningStatsDS.Push: requires a point with at least `dims` values. The source reads out of bounds with a shorter point and throws after partly updating S. That partial mutation is not modelled.
- RunningStatsDS.Resize: a negative size is a Failure. The source throws only when allocating, after updating the dimension field, so the half-updated object is not modelled.
- RunningPercentile.Push: requires the estimator invariant (`Valid`). Every constructed estimator satisfies it and every push preserves it. Pushes on hand-made states outside it are not modelled.
- Convergence of the P-square estimates to the true quantiles. It is a statistical property. Only the ordering invariants and the bound "each estimate lies between the least and greatest value seen" are proved.
- `Array.Sort`. It is modelled by its result, a sorted permutation (RunningPercentile.Sort), together with the proof that this result is unique (SortedUnique). The sorting algorithm itself is not modelled.
- The console driver's `Random` percentile data and its printing. Only the deterministic line data is restated (StreamingScenario).

## Behaviour of the code worth knowing

- The multivariate constructor accepts dimension 0 and rejects only negative sizes.
- The multivariate merge pools S with the difference of means a - b (RunningStatsDS.cs:357). The product of the two differences is the same as with b - a (Deviations.PoolingFlip).
- `operator+` of RunningStats never sets min and max, so a merged accumulator reports 0 for both (RunningStats.MergeForgetsExtrema).
- In P-square cell selection, a value equal to the largest height matches no branch and keeps cell 1 (RunningPercentile.SelectCellFacts).
