# fr360 risk core in Dafny

fr360 is a portfolio-risk web application. An Express back end stores its data in MongoDB: portfolios, their positions, simulated market prices and Value-at-Risk (VaR) runs. A React front end offers sign-up and sign-in forms. This project models the parts of it that carry logic:

- **The three VaR calculators.**
  - Parametric (`varService.js`): a latest-price-weighted portfolio return series, its population mean and standard deviation, and a z-score lookup.
  - Historical (`historicalVarService.js`): a sorted portfolio return series and a quantile index.
  - Monte Carlo (`montecarloService.js`): covariance, Cholesky factor with its diagonal fallback, correlated normal draws, revaluation, sorted losses and a clamped quantile index.
- **The HTTP handlers that create and read state**, each modelled as a method on one `Database.Store` class.
  - Positions: create, update, delete.
  - Portfolios: create, cascade delete, summary.
  - The VaR run endpoint: synchronous runs, and queued Monte Carlo runs with their job.
  - The dashboard aggregation.
- **Background work.**
  - The Monte Carlo job handler, which moves a run from queued to running to completed.
  - The price simulator's random-walk tick.
- **The front end's validators**, and the form state that the sign-up and sign-in handlers update.

How the model represents the running system:

- **Store.** The store's invariant is `Database.Store.Valid`, and every state-changing handler keeps it. Ids come from one increasing counter, so a collection's natural order is id order, and "newest first" is descending id.
- **Numbers.** Prices and returns are `real`. A stored price is never zero (`Market.NonZeroQuotes`): the price worker writes at least 1, and `POST /api/market` refuses a falsy price. A price may still be negative, so a portfolio's value may be negative or zero. The weights divide by that value, so a zero value makes the VaR `NaN`, which the model reports as a failure.
- **Square root.** `Math.sqrt` is a parameter `sqrt` constrained by `Stats.IsSqrt`.
- **Random inputs.**
  - The Box–Muller pairs are a parameter `draw: nat -> (real, real)`, indexed by how many pairs have been drawn.
  - The price simulator's `Math.random()` is a parameter `u` in [0, 1).
- **Time.** The clock is a parameter `now`.
- **Errors.** Every value the code would throw, or store as `NaN`, is a `Failure` of a `Result`.
- **Handlers.** Each route handler is a method proved equal to a pure reply function of the old state. The lemmas are stated about those functions.
- **Source lines.** The source cells below give paths and line numbers within the repository.

## Model

| member | source | states |
|---|---|---|
| Stats.Mean | backend/src/services/montecarloService.js:12-15 | the mean of an empty array is 0; otherwise mean times length equals the sum |
| Stats.SquaredDeviations | backend/src/services/varService.js:61 | the fold of squared deviations is never negative |
| Stats.PopulationVariance | backend/src/services/varService.js:60-61 | the population variance is never negative |
| Stats.ConstantStatistics | backend/src/services/varService.js:60-62 | a constant series has that constant as mean and a variance of zero |
| Stats.SumBounds | backend/src/services/varService.js:60 | element bounds scale to bounds on the sum |
| Stats.MeanBounds | backend/src/services/montecarloService.js:12-15 | the mean lies between any lower and upper bound of the elements |
| Stats.MinOf | backend/src/services/varService.js:38 | the value `Math.min(...lengths)` picks is one of the lengths and is at most every length |
| Sorting.SortAscending | backend/src/services/historicalVarService.js:61 | the numeric sort returns an ascending permutation of its input |
| Sorting.SortKeepsElements | backend/src/services/montecarloService.js:188 | sorting neither adds nor drops a value |
| Sorting.SortedPermutationUnique | backend/src/services/historicalVarService.js:61 | any two ascending permutations of the same values are equal, so the sorted result is determined |
| Text.TrimStart | backend/src/models/Position.js:10-15 | leading white space is removed, and only that |
| Text.TrimEnd | backend/src/models/Position.js:10-15 | trailing white space is removed, and only that |
| Text.ToUpper | backend/src/models/Position.js:10-15 | the result has the same length, and each character is that character upper-cased |
| Text.TrimIdempotent | backend/src/models/Position.js:10-15 | trimming twice is trimming once |
| Text.ToUpperIdempotent | backend/src/models/Position.js:10-15 | upper-casing twice is upper-casing once |
| Text.TrimCommutesWithUpper | backend/src/models/Position.js:10-15 | the schema's `uppercase` and `trim` casts give the same symbol in either order |
| Market.Reverse | backend/src/services/varService.js:22 | `reverse` maps index i to index n-1-i |
| Market.ReverseReverse | backend/src/services/varService.js:22 | reversing twice restores the series |
| Market.NewestFirst | backend/src/services/varService.js:15-17 | the query sorted by timestamp descending with `limit` returns the newest min(limit, n) prices, newest first |
| Market.RecentPricesAreSuffix | backend/src/services/varService.js:15-22 | the look-back series, oldest to newest, is the last min(limit, n) stored prices of the symbol |
| Market.RecentPricesNonZero | backend/src/services/varService.js:15-22 | a look-back window of a store without zero prices holds no zero price |
| Market.RecentPricesPositive | backend/src/services/varService.js:15-22 | a look-back window of a positive store holds only positive prices |
| Market.RecentPricesNegative | backend/src/services/varService.js:15-22 | a look-back window of a store of negative prices holds only negative prices |
| Market.LatestPrice | backend/src/services/marketService.js:3-7 | `getLatestPrice` upper-cases the symbol; it returns none exactly when that symbol has no stored price, and otherwise the newest one |
| ReturnSeries.PriceSeriesContents | backend/src/services/varService.js:14-24 | a symbol gets a series exactly when some position holds it and its look-back window has at least 2 prices; the series is that window |
| ReturnSeries.CollectPriceSeries | backend/src/services/varService.js:14-24 | the fetch loop builds exactly that series map |
| ReturnSeries.SimpleReturns | backend/src/services/varService.js:31-33 | a series of n prices gives n-1 returns, and conversely none for an empty series |
| ReturnSeries.ReturnStep | backend/src/services/varService.js:32 | growing the earlier price by the return gives the later price |
| ReturnSeries.ReturnsReconstructPrices | backend/src/services/varService.js:31-33 | every return r[i] carries p[i] to p[i+1] |
| ReturnSeries.RebuildReturns | backend/src/services/varService.js:31-33 | the first price and the returns together determine the whole price series |
| ReturnSeries.FlatPricesZeroReturns | backend/src/services/varService.js:31-33 | a constant non-zero series has only zero returns |
| ReturnSeries.BuildReturns | backend/src/services/montecarloService.js:113-117 | the push loop computes the simple returns |
| ReturnSeries.SliceMapIsSimpleReturns | backend/src/services/historicalVarService.js:32 | the `slice(1).map` form gives the same returns as the push loop |
| ReturnSeries.ReturnsOf | backend/src/services/varService.js:27-34 | `returns` has exactly the keys of `priceSeries` |
| ReturnSeries.ComputeReturns | backend/src/services/varService.js:27-34 | the `for…in` loop builds exactly that returns map |
| ReturnSeries.NumDays | backend/src/services/varService.js:38 | `numDays` is the length of some returns series and at most the length of each |
| ReturnSeries.PortfolioValuePositive | backend/src/services/varService.js:69-73 | with positive quantities and prices, a non-empty portfolio has a positive value, and any portfolio a non-negative one |
| ReturnSeries.PortfolioValueNegative | backend/src/services/varService.js:69-73 | with positive quantities and negative prices, a non-empty portfolio has a negative value, and any portfolio a non-positive one |
| ReturnSeries.ValueSigns | backend/src/services/varService.js:69-73 | the value of a covered portfolio read from a store of positive prices is positive, and from a store of negative prices negative |
| ReturnSeries.PortfolioReturns | backend/src/services/varService.js:37-57 | one portfolio return per aligned day |
| ReturnSeries.WeightsSumToOne | backend/src/services/varService.js:44-52 | the latest-price weights sum to 1 |
| ReturnSeries.DailyReturnBounds | backend/src/services/varService.js:50-54 | the weighted sum of returns lies within the bounds of the returns, scaled by the weight sum |
| ReturnSeries.PortfolioReturnBounds | backend/src/services/varService.js:50-54 | each portfolio return lies between the smallest and largest aligned asset returns of that day |
| ReturnSeries.ComputeTotalValue | backend/src/services/varService.js:44-48 | the accumulation loop computes the portfolio value |
| ReturnSeries.ComputeDailyReturn | backend/src/services/varService.js:50-54 | the inner loop computes the day's weighted return |
| ReturnSeries.ComputePortfolioReturns | backend/src/services/varService.js:40-57 | the day loop computes the portfolio return series |
| ReturnSeries.DailyReturnZero | backend/src/services/varService.js:50-54 | a day on which every aligned return is 0 has a weighted return of 0, whatever the non-zero total |
| ReturnSeries.FlatSeriesZeroReturns | backend/src/services/varService.js:36-57 | when every price is constant and the total is not zero, every portfolio return is 0 |
| ParametricVaR.ZScore | backend/src/services/varService.js:65-66 | z is 2.33 exactly for confidence 0.99, and 1.65 for 0.95 and for everything else |
| ParametricVaR.VaRFormula | backend/src/services/varService.js:75 | zero mean and deviation give zero VaR; a mean at most z·σ gives a non-negative VaR |
| ParametricVaR.ParametricFromSeries | backend/src/services/varService.js:59-77 | given ready series, the computation succeeds exactly when the horizon is non-negative and the portfolio value, which the weights divide by, is not zero; every failure is `NotANumber`; a result carries the portfolio value |
| ParametricVaR.ComputeParametricFromSeries | backend/src/services/varService.js:36-77 | the loops compute that function |
| ParametricVaR.ComputeParametricVaR | backend/src/services/varService.js:9-78 | the whole calculator equals its specification `ParametricOutcome` |
| ParametricVaR.ParametricErrors | backend/src/services/varService.js:14-53 | it fails on `undefined.slice` exactly when some position lacks two look-back prices; it succeeds exactly when every position has them, the horizon is non-negative and the portfolio value is not zero |
| ParametricVaR.ParametricValueSign | backend/src/services/varService.js:69-73 | a successful run reports a non-zero portfolio value: positive when every stored price is positive, negative when every one is negative |
| ParametricVaR.FlatPricesZeroVaR | backend/src/services/varService.js:59-75 | constant prices give a parametric VaR of 0 |
| HistoricalVaR.QuantileIndex | backend/src/services/historicalVarService.js:62 | the index is the floor of (1 - confidence)·n |
| HistoricalVaR.QuantileIndexInBounds | backend/src/services/historicalVarService.js:62-63 | the index falls inside the series exactly when 0 < confidence ≤ 1 |
| HistoricalVaR.VaRFormula | backend/src/services/historicalVarService.js:71 | a zero quantile return gives zero VaR; with a non-positive one, a non-negative value gives a non-negative VaR and a non-positive value a non-positive VaR |
| HistoricalVaR.HistoricalFromSeries | backend/src/services/historicalVarService.js:36-73 | given ready series, it succeeds exactly when the horizon is non-negative, 0 < confidence ≤ 1 and the portfolio value is not zero; every failure is `NotANumber`; a result carries the portfolio value |
| HistoricalVaR.ComputeSliceMapReturns | backend/src/services/historicalVarService.js:29-33 | the `for…in` loop builds the returns map |
| HistoricalVaR.ComputeHistoricalFromSeries | backend/src/services/historicalVarService.js:36-73 | the loops compute that function |
| HistoricalVaR.ComputeHistoricalVaR | backend/src/services/historicalVarService.js:10-74 | the whole calculator equals its specification `HistoricalOutcome` |
| HistoricalVaR.HistoricalErrors | backend/src/services/historicalVarService.js:15-26 | "insufficient data" exactly when no position has two prices; `undefined.slice` exactly when some do and some do not; success exactly with positions, all covered, a valid horizon, a valid confidence and a non-zero portfolio value |
| HistoricalVaR.SeriesMembership | backend/src/services/historicalVarService.js:15-22 | a position's symbol has a series exactly when its window holds two prices, and every series belongs to a position |
| HistoricalVaR.UsableSeries | backend/src/services/historicalVarService.js:15-26 | every position has a series exactly when every window holds two prices, and there is no series at all exactly when no window does |
| HistoricalVaR.HistoricalQuantile | backend/src/services/historicalVarService.js:60-63 | the quantile return is one of the portfolio returns, and sits at the quantile index of every ascending permutation of them |
| HistoricalVaR.HistoricalVaRSign | backend/src/services/historicalVarService.js:66-71 | with a non-positive quantile return the VaR has the sign of the portfolio value; that value is positive when every stored price is positive, negative when every one is negative |
| HistoricalVaR.FlatPricesZeroHistoricalVaR | backend/src/services/historicalVarService.js:60-71 | constant prices give a zero quantile return and a zero VaR |
| Covariance.CrossSumSymmetric | backend/src/services/montecarloService.js:28-35 | the cross-deviation sum is symmetric in its two series |
| Covariance.CrossSumSelfNonNegative | backend/src/services/montecarloService.js:29-32 | a series' sum of squared deviations is not negative |
| Covariance.Means | backend/src/services/montecarloService.js:25 | `means[i]` is the mean of series i |
| Covariance.EntryProperties | backend/src/services/montecarloService.js:28-36 | `cov[i][j] == cov[j][i]`, and the diagonal is not negative |
| Covariance.CovarianceOf | backend/src/services/montecarloService.js:22-39 | the matrix is m×m |
| Covariance.CrossSumLoop | backend/src/services/montecarloService.js:29-32 | the inner loop computes the cross-deviation sum |
| Covariance.CovarianceMatrix | backend/src/services/montecarloService.js:22-39 | the array the loops fill equals `CovarianceOf`, and the means are the series means |
| Cholesky.BelowDiagonalInverse | backend/src/services/montecarloService.js:57 | `(1/d)·x` multiplied by d gives x when d ≠ 0 |
| Cholesky.FactorOf | backend/src/services/montecarloService.js:45-62 | the factor is square, with zeros above the diagonal |
| Cholesky.DiagonalPositive | backend/src/services/montecarloService.js:52-55 | a positive pivot gives a positive diagonal entry whose square is the pivot |
| Cholesky.LowerEntryReconstructed | backend/src/services/montecarloService.js:56-58 | each entry below the diagonal solves its row equation for `a[i][j]` |
| Cholesky.FactorTimesTranspose | backend/src/services/montecarloService.js:41-62 | for a symmetric matrix with positive pivots, L·Lᵀ = A, as the doc comment promises |
| Cholesky.FactorShape | backend/src/services/montecarloService.js:45-62 | with positive pivots L is lower triangular with a positive diagonal |
| Cholesky.DotLoop | backend/src/services/montecarloService.js:50-51 | the `sum` loop computes the row dot product |
| Cholesky.FillEntry | backend/src/services/montecarloService.js:49-58 | one entry is filled, or the pivot is found non-positive; nothing else changes |
| Cholesky.FillRow | backend/src/services/montecarloService.js:48-60 | a row is filled exactly when its pivot is positive |
| Cholesky.Cholesky | backend/src/services/montecarloService.js:45-62 | returns null exactly when some pivot `A[i][i] - sum` is ≤ 0; otherwise returns the factor |
| Cholesky.DiagonalTimesTranspose | backend/src/services/montecarloService.js:129-131 | the fallback times its transpose is the diagonal of the covariance |
| Cholesky.DiagonalFallback | backend/src/services/montecarloService.js:129-131 | the fallback matrix has `sqrt(cov[i][i])` on the diagonal and zeros elsewhere |
| Normals.FlattenEntries | backend/src/services/montecarloService.js:79-83 | even slots take a pair's first value and odd slots its second |
| Normals.NormalVectorFromPairs | backend/src/services/montecarloService.js:76-85 | `randnVec(k)` is the first k values of ⌈k/2⌉ pairs, dropping one value exactly when k is odd |
| Normals.RandnVec | backend/src/services/montecarloService.js:76-85 | returns exactly k values and consumes ⌈k/2⌉ pairs |
| MonteCarloVaR.SeriesSymbolsAreKeys | backend/src/services/montecarloService.js:97-105 | `Object.keys(symbolToPrices)`: the keys with series, each once |
| MonteCarloVaR.ReturnsArray | backend/src/services/montecarloService.js:111-118 | one return series per symbol |
| MonteCarloVaR.ComputeReturnsArray | backend/src/services/montecarloService.js:111-118 | the map with its push loop computes them |
| MonteCarloVaR.MinLength | backend/src/services/montecarloService.js:121 | `minLen` is the length of some series and at most the length of each |
| MonteCarloVaR.AlignRecent | backend/src/services/montecarloService.js:122 | every aligned series has length `minLen` and is the suffix of its original |
| MonteCarloVaR.LatestPrices | backend/src/services/montecarloService.js:134-138 | one latest price per symbol |
| MonteCarloVaR.CollectLatestPrices | backend/src/services/montecarloService.js:134-138 | the loop computes them |
| MonteCarloVaR.FirstQuantityFinds | backend/src/services/montecarloService.js:178-179 | `positions.find`: the first matching position's quantity, or 0 when none matches |
| MonteCarloVaR.CorrelatedVector | backend/src/services/montecarloService.js:157-164 | one correlated value per dimension |
| MonteCarloVaR.Losses | backend/src/services/montecarloService.js:151-185 | one loss per simulation |
| MonteCarloVaR.ClampedIndex | backend/src/services/montecarloService.js:191-192 | the index lies in range and is `floor(confidence·n) - 1` whenever that is in range |
| MonteCarloVaR.LossesSample | backend/src/services/montecarloService.js:204 | at most 10 losses, taken from the sorted losses, including the VaR entry |
| MonteCarloVaR.Summary | backend/src/services/montecarloService.js:187-205 | the VaR is the sorted loss at the clamped index, present exactly when there was a simulation; it is in the sample; the mean loss is the mean |
| MonteCarloVaR.SimulationFactor | backend/src/services/montecarloService.js:127-131 | the Cholesky factor, or the fallback, is square |
| MonteCarloVaR.AlignedOf | backend/src/services/montecarloService.js:120-122 | aligned series are rectangular, each at least 1 and less than its price count long |
| MonteCarloVaR.Correlate | backend/src/services/montecarloService.js:157-164 | the loop computes L·z + means |
| MonteCarloVaR.Revalue | backend/src/services/montecarloService.js:168-181 | the loop revalues the holdings at the simulated prices |
| MonteCarloVaR.SimulateOne | backend/src/services/montecarloService.js:153-185 | simulation s returns `Loss` for the draws from pair s·⌈dim/2⌉ on, so each simulation reads the pairs after the previous one |
| MonteCarloVaR.Simulate | backend/src/services/montecarloService.js:151-185 | the simulation loop fills the loss array with `Losses` |
| MonteCarloVaR.CollectSeries | backend/src/services/montecarloService.js:97-108 | the fetch loop builds the series and its key order |
| MonteCarloVaR.SimulatedLosses | backend/src/services/montecarloService.js:124-185 | covariance, factor or fallback, and simulation give `Losses` |
| MonteCarloVaR.ComputeFromSeries | backend/src/services/montecarloService.js:110-205 | the post-fetch pipeline equals `SimulationOutcome` |
| MonteCarloVaR.ComputeMonteCarloVaR | backend/src/services/montecarloService.js:94-206 | the whole calculator equals its specification `MonteCarloOutcome` |
| MonteCarloVaR.AlignedLength | backend/src/services/montecarloService.js:121-122 | aligned returns have at least 2 entries exactly when every series has at least 3 prices |
| MonteCarloVaR.UsableWindows | backend/src/services/montecarloService.js:102-108 | every position is usable exactly when each has two prices; no symbol is kept exactly when none has |
| MonteCarloVaR.MonteCarloErrors | backend/src/services/montecarloService.js:98-151 | the insufficient-data error, the negative-length error and success, each with its exact condition |
| MonteCarloVaR.SimulationSucceeds | backend/src/services/montecarloService.js:118-151 | once every position has a series and the count is not negative, a number comes back exactly when nothing is simulated, or the horizon is non-negative and every window has three prices |
| MonteCarloVaR.ThreeQuotes | backend/src/services/montecarloService.js:102-122 | every series has three prices exactly when every position's window does |
| MonteCarloVaR.MonteCarloShape | backend/src/services/montecarloService.js:198-205 | a result has the portfolio value, positive for positive prices and negative for negative ones, and the requested simulation count; it has a VaR and a standard deviation exactly when simulations > 0; the VaR is in a sample of at most 10 |
| MonteCarloVaR.SummaryQuantile | backend/src/services/montecarloService.js:188-193 | the VaR is the idx-th of any ascending permutation of the losses, with no larger loss before it and no smaller one after it |
| PositionModel.ParseCurrency | backend/src/models/Position.js:26-30 | absent means USD; otherwise a currency whose name is the text, or none when no name matches |
| PositionModel.CurrencyRoundTrip | backend/src/models/Position.js:26-30 | parsing a currency's name gives that currency back |
| PositionModel.NormalizeSymbolIdempotent | backend/src/models/Position.js:10-15 | the symbol cast is trim then upper-case, and is idempotent |
| PositionModel.CostBasisNonNegative | backend/src/models/Position.js:16-25 | under the schema minimums the cost basis is not negative |
| PositionModel.MakePosition | backend/src/models/Position.js:3-31 | the document validates exactly when symbol, quantity of at least 1, avgPrice of at least 0 and a known currency are present; the stored fields are the cast inputs |
| PositionModel.ApplyPatch | backend/src/routes/positionRoutes.js:77-81 | `findOneAndUpdate` with `runValidators`: fails exactly on an invalid patch; otherwise replaces each given field by its cast value (the normalised symbol, the parsed currency), the portfolio among them, keeps the others and keeps the id |
| PositionModel.ApplyPatchKeepsValidity | backend/src/routes/positionRoutes.js:77-81 | a validated update leaves a valid position, and an empty patch changes nothing |
| PositionModel.StoreKeepsUniqueKeys | backend/src/models/Position.js:33 | storing a position whose (portfolio, symbol) is free keeps the unique index |
| VaRRunModel.ParseMethod | backend/src/models/VaRRun.js:14-18 | accepts exactly the three enum names and returns the method of that name |
| VaRRunModel.MakeRun | backend/src/models/VaRRun.js:3-29 | the run validates exactly when confidence and horizon are present; fields are stored as given, with the creation time |
| Database.PositionsBelowContents | backend/src/routes/portfolioRoutes.js:74 | `Position.find({ portfolio })` lists exactly the portfolio's positions, each once, in id order |
| Database.PositionsOfValid | backend/src/routes/varRoutes.js:20 | every listed position is valid and belongs to the portfolio |
| Database.PortfoliosBelowContents | backend/src/routes/dashboardRoutes.js:13 | `Portfolio.find({ user })` lists exactly the user's portfolios, in id order |
| Database.RunsNewestFirstContents | backend/src/routes/dashboardRoutes.js:31-32 | the user's runs, newest first, each once |
| PositionRoutes.CreateCheck | backend/src/routes/positionRoutes.js:12-17 | "required" exactly when a field is falsy; the range message exactly when quantity ≤ 0 or avgPrice < 0; passes exactly for a non-empty symbol, quantity > 0 and avgPrice > 0 |
| PositionRoutes.InsertKeepsValid | backend/src/routes/positionRoutes.js:21-23 | saving a valid position with a free key keeps the store invariant |
| PositionRoutes.CreateReply | backend/src/routes/positionRoutes.js:9-29 | 400, 404, 201 and 500, each with its exact condition; a 201 carries the validated, normalised position |
| PositionRoutes.Insert | backend/src/routes/positionRoutes.js:21-23 | the save adds the position under the next id |
| PositionRoutes.CreatePosition | backend/src/routes/positionRoutes.js:9-29 | the handler answers `CreateReply` and stores the position exactly on 201 |
| PositionRoutes.UpdateCheck | backend/src/routes/positionRoutes.js:66-72 | the two 400 messages in order, each with its exact condition |
| PositionRoutes.ReplaceKeepsValid | backend/src/routes/positionRoutes.js:77-81 | replacing a position by a valid one with a free key keeps the invariant |
| PositionRoutes.RemoveKeepsValid | backend/src/routes/positionRoutes.js:97 | deleting a position keeps the invariant |
| PositionRoutes.UpdateReply | backend/src/routes/positionRoutes.js:64-89 | 400, portfolio 404, position 404 and 200, each with its exact condition, the unique key checked on the patched portfolio and symbol; 200 returns the patched position, in the body's portfolio when it names one |
| PositionRoutes.UpdateMovesPosition | backend/src/routes/positionRoutes.js:77-81 | a body holding only `portfolio` moves the position to that portfolio id, whoever owns it and whether or not it exists |
| PositionRoutes.Replace | backend/src/routes/positionRoutes.js:77-81 | the update overwrites that position only |
| PositionRoutes.UpdatePosition | backend/src/routes/positionRoutes.js:64-89 | the handler answers `UpdateReply` and changes the store exactly on 200 |
| PositionRoutes.DeletePosition | backend/src/routes/positionRoutes.js:92-105 | 404 for a foreign portfolio or a missing position; otherwise the position is removed and nothing else changes |
| PortfolioRoutes.CreateReply | backend/src/routes/portfolioRoutes.js:9-18 | 201 exactly for a present name, a known currency and no same-named portfolio of the caller; the owner is the caller; otherwise 500 |
| PortfolioRoutes.AddPortfolioKeepsValid | backend/src/routes/portfolioRoutes.js:11-12 | saving a portfolio with a free name keeps the invariant |
| PortfolioRoutes.CreatePortfolio | backend/src/routes/portfolioRoutes.js:9-18 | the handler answers `CreateReply` and stores the portfolio exactly on 201 |
| PortfolioRoutes.WithoutPortfolio | backend/src/routes/portfolioRoutes.js:61 | `deleteMany` keeps exactly the positions of other portfolios, unchanged |
| PortfolioRoutes.CascadeKeepsValid | backend/src/routes/portfolioRoutes.js:57-66 | deleting a portfolio with its positions keeps the invariant |
| PortfolioRoutes.DeletePortfolio | backend/src/routes/portfolioRoutes.js:57-66 | 404 with nothing changed for a foreign portfolio; otherwise the portfolio and exactly its positions are removed |
| PortfolioRoutes.InvestedNonNegative | backend/src/routes/portfolioRoutes.js:78 | the invested total of valid positions is not negative |
| PortfolioRoutes.InvestedAppend | backend/src/routes/portfolioRoutes.js:78 | the `reduce` total is additive over concatenation |
| PortfolioRoutes.SummaryReply | backend/src/routes/portfolioRoutes.js:69-86 | 404 exactly for a foreign portfolio; otherwise the name, the count of listed positions and their invested total |
| PortfolioRoutes.SummaryCountsReferencingPositions | backend/src/routes/portfolioRoutes.js:74-77 | `totalPositions` is the number of positions referencing the portfolio |
| PortfolioRoutes.SummaryInvestedNonNegative | backend/src/routes/portfolioRoutes.js:78 | `totalInvested` is not negative |
| VaRRoutes.SyncResult | backend/src/routes/varRoutes.js:23-46 | the parametric and historical results the run stores, failing exactly when the calculator fails |
| VaRRoutes.PostReply | backend/src/routes/varRoutes.js:13-76 | 404, the two 400s and 202, each with its exact condition; 201 stores a well-formed synchronous run carrying the calculator's result; 500 otherwise |
| VaRRoutes.AddRunKeepsValid | backend/src/routes/varRoutes.js:25-32 | saving a well-formed run keeps the invariant |
| VaRRoutes.AddJobKeepsValid | backend/src/routes/varRoutes.js:59-62 | enqueueing a Monte Carlo run's job keeps the invariant |
| VaRRoutes.PositionsOfPositive | backend/src/routes/varRoutes.js:20-21 | the positions handed to any calculator carry positive quantities, as the schema's minimum guarantees |
| VaRRoutes.SaveRun | backend/src/routes/varRoutes.js:25-32 | `run.save()` adds the run under the next id |
| VaRRoutes.Enqueue | backend/src/routes/varRoutes.js:59-62 | appends the `montecarlo-run` job with 3 attempts and a 5000 ms backoff delay |
| VaRRoutes.PostVaR | backend/src/routes/varRoutes.js:13-76 | the handler answers `PostReply`; it stores a run on 201, a queued run plus its job on 202, and nothing on a refusal |
| VaRRoutes.ComputeSync | backend/src/routes/varRoutes.js:23-45 | the dispatch calls the chosen calculator |
| VaRRoutes.GetRun | backend/src/routes/varRoutes.js:79-91 | 200 exactly for the caller's own run; otherwise 404 |
| VaRRoutes.PostThenGet | backend/src/routes/varRoutes.js:79-86 | a created or queued run can then be read by its creator, queued until processed, and by no other user |
| VaRRunModel.StrictSave | backend/src/models/VaRRun.js:3-29 | strict mode drops `status` and `params.simulations` and keeps every declared path |
| VaRWorker.StrictSaveAsWritten | backend/src/workers/varWorker.js:23 | as written, a queued run asking for 100 simulations is saved without the count, so the job simulates 5000, and it is saved without a status, so it is not well formed |
| VaRWorker.SimulationCount | backend/src/workers/varWorker.js:23 | the run's simulation count, or the default 5000 |
| VaRWorker.StoredResult | backend/src/workers/varWorker.js:25 | the result sub-document keeps the value and the VaR only |
| VaRWorker.JobOutcome | backend/src/workers/varWorker.js:12-30 | "run not found", a missing portfolio and success, each with its exact condition; success completes the run with the simulation's result |
| VaRWorker.RunsAfterJob | backend/src/workers/varWorker.js:15-27 | only the job's run changes, never back to queued, with its method and parameters kept |
| VaRWorker.WriteRun | backend/src/workers/varWorker.js:18-27 | `findByIdAndUpdate` and `save` overwrite that one run |
| VaRWorker.CompleteRun | backend/src/workers/varWorker.js:20-29 | a missing portfolio fails and leaves the runs alone; a failed simulation fails likewise; a successful one stores the completed run with its result |
| VaRWorker.UpdateRunKeepsValid | backend/src/workers/varWorker.js:18-27 | marking a Monte Carlo run running, or completing it with a result, keeps the run invariant |
| VaRWorker.ProcessJob | backend/src/workers/varWorker.js:12-30 | the handler returns `JobOutcome` and leaves the runs as `RunsAfterJob` says, touching nothing else |
| VaRWorker.CompletedRunShape | backend/src/workers/varWorker.js:23-27 | a completed run has a result whose value is positive for positive prices and negative for negative ones, and a VaR exactly when it simulated at least once |
| DataPrep.EnrichFields | backend/src/services/dataPrep.js:71-88 | none exactly for a missing or zero price; otherwise the fields, `quantity·latest` and `marketValue - costBasis` |
| DataPrep.Enrich | backend/src/services/dataPrep.js:17-33 | `enrichPositionWithLatest`: null exactly for a falsy price; the P&L is market value minus cost basis |
| DataPrep.EnrichedValueSign | backend/src/services/dataPrep.js:21 | an enriched position of positive quantity has a market value of its latest price's sign |
| DataPrep.GetPortfolioPositions | backend/src/services/dataPrep.js:63-96 | the loop computes the valuation of the portfolio's listed positions |
| DataPrep.ValuePositions | backend/src/services/dataPrep.js:66-95 | the `for…of` loop's list and two totals are the valuation of the positions it is given |
| DataPrep.ValuationOf | backend/src/services/dataPrep.js:70-95 | the returned positions are the enriched priced ones, and the two totals are taken over exactly those |
| DataPrep.EnrichAllAppend | backend/src/services/dataPrep.js:70-89 | enrichment distributes over concatenation |
| DataPrep.EnrichAllKeepsAll | backend/src/services/dataPrep.js:70-72 | no position is skipped exactly when every position is priced |
| DataPrep.EnrichAllSound | backend/src/services/dataPrep.js:70-89 | every entry is the enrichment of some position |
| DataPrep.EnrichAllComplete | backend/src/services/dataPrep.js:70-89 | every priced position's enrichment is listed |
| DataPrep.TotalsDifferByPnL | backend/src/services/dataPrep.js:74-79 | total value minus total invested is the sum of unrealised P&L |
| DataPrep.InvestedAtMostSummary | backend/src/services/dataPrep.js:75-79 | the priced cost basis is at most the summary's `totalInvested`, and equal when every position is priced |
| DataPrep.EnrichedPortfolioAsWritten | backend/src/services/dataPrep.js:38-61 | as written, `getEnrichedPortfolio` always throws: "not found" exactly for a foreign portfolio, otherwise a `for…of` over a non-iterable object |
| DataPrep.EnrichedPortfolioAsWrittenFails | backend/src/services/dataPrep.js:42-46 | the caller's own portfolio still gets the not-iterable failure |
| DataPrep.GetEnrichedPortfolio | backend/src/services/dataPrep.js:38-61 | corrected: fails exactly for a foreign portfolio; otherwise the portfolio's fields with the valuation's positions and total value |
| DataPrep.EnrichListed | backend/src/services/dataPrep.js:46-52 | re-enriching already enriched entries keeps them all and sums their values |
| DataPrep.EnrichAgainKeeps | backend/src/services/dataPrep.js:46-52 | enriching an enriched entry's fields gives the entry back |
| DashboardRoutes.QuoteOrZero | backend/src/routes/dashboardRoutes.js:19-20 | `latestPrice \|\| 0`: the latest price, or 0 when there is none |
| DashboardRoutes.AverageValue | backend/src/routes/dashboardRoutes.js:24-25 | 0 without portfolios; otherwise the average times the count is the total |
| DashboardRoutes.Take | backend/src/routes/dashboardRoutes.js:33 | `limit(5)`: a prefix of at most n elements, exactly n when there are enough |
| DashboardRoutes.Row | backend/src/routes/dashboardRoutes.js:42-48 | the row exists exactly when the run's portfolio exists; date, name, `var95` null, value and method |
| DashboardRoutes.Rows | backend/src/routes/dashboardRoutes.js:42-48 | the map succeeds exactly when every run's portfolio exists, row by row |
| DashboardRoutes.DashboardReply | backend/src/routes/dashboardRoutes.js:11-54 | 500 exactly when a recent run's portfolio is gone; otherwise the count, total, average, null `latestVar95`, the time and the rows |
| DashboardRoutes.AddHoldings | backend/src/routes/dashboardRoutes.js:18-21 | the inner loop adds the portfolio's holdings values |
| DashboardRoutes.TotalValue | backend/src/routes/dashboardRoutes.js:14-22 | the nested loops compute the total over the user's portfolios |
| DashboardRoutes.Dashboard | backend/src/routes/dashboardRoutes.js:11-54 | the handler answers `DashboardReply` |
| DashboardRoutes.RecentRunsShape | backend/src/routes/dashboardRoutes.js:31-34 | at most 5 of the caller's runs, newest first; exactly 5 when there are that many, and all of them otherwise |
| DashboardRoutes.HoldingsMatchValuation | backend/src/routes/dashboardRoutes.js:18-21 | the dashboard's holdings value equals `getPortfolioPositions`' total value |
| DashboardRoutes.HoldingsSign | backend/src/routes/dashboardRoutes.js:14-22 | the total is not negative when every stored price is positive, and not positive when every one is negative |
| PriceWorker.ChangePercentRange | backend/src/workers/priceWorker.js:25 | for u in [0, 1) the change lies in [-1%, +1%) |
| PriceWorker.GenerateNextPrice | backend/src/workers/priceWorker.js:24-27 | the result is at least 1; it is the stepped price when that is at least 1, and 1 otherwise |
| PriceWorker.WithinOnePercent | backend/src/workers/priceWorker.js:26 | above the floor, the new price is within 1% of the last |
| PriceWorker.BaseFor | backend/src/workers/priceWorker.js:34-37 | the newest stored price of the symbol, or 100 |
| PriceWorker.Append | backend/src/workers/priceWorker.js:43-47 | saving appends the price to that symbol only |
| PriceWorker.SimulatePrices | backend/src/workers/priceWorker.js:30-54 | the loop leaves the prices as `Tick` says and the rest of the store untouched |
| PriceWorker.AppendKeepsNonZero | backend/src/workers/priceWorker.js:40-47 | saving a price of at least 1 keeps the store free of zero prices |
| PriceWorker.AppendKeepsPositive | backend/src/workers/priceWorker.js:40-47 | saving a price of at least 1 keeps every price positive |
| PriceWorker.TickKeepsPositive | backend/src/workers/priceWorker.js:30-54 | a tick keeps every price positive |
| PriceWorker.TickAppendsOnePerSymbol | backend/src/workers/priceWorker.js:32-50 | each distinct symbol gains exactly one price, generated from its newest price before the tick; other symbols are untouched |
| PriceWorker.SymbolsDistinct | backend/src/workers/priceWorker.js:13 | the three simulated symbols are distinct |
| Validators.IsEmailMatchesPattern | frontend/finsrisk/src/utils/helper.js:2 | the positional test accepts exactly the strings `/^[^\s@]+@[^\s@]+\.[^\s@]+$/` matches |
| Validators.IsEmailSplits | frontend/finsrisk/src/utils/helper.js:2 | a string the positional test accepts splits as local part, '@', domain, '.', top-level part, none of them empty or holding white space or '@' |
| Validators.SplitIsEmail | frontend/finsrisk/src/utils/helper.js:2 | conversely, every such split is accepted |
| Validators.ValidatedEmail | frontend/finsrisk/src/utils/helper.js:1-7 | "required" exactly for "", "invalid" exactly for a non-empty non-match, "" exactly for a match |
| Validators.ValidatedPassword | frontend/finsrisk/src/utils/helper.js:9-16 | "required" exactly for "", the length message exactly for 1 to 5 characters, "" exactly from 6 up |
| Validators.NoDotNoEmail | frontend/finsrisk/src/utils/helper.js:2-5 | an address with no dot after its '@' is refused |
| ApiClient.MessageOr | frontend/finsrisk/src/pages/Auth/Login.jsx:114 | `message \|\| fallback`: the message when truthy, else the fallback, so never empty when the fallback is not |
| SignUp.Fields.Set | frontend/finsrisk/src/pages/Auth/SignUp.jsx:63-66 | `{ ...prev, [name]: value }` sets one field and keeps the others |
| SignUp.ValidateName | frontend/finsrisk/src/pages/Auth/SignUp.jsx:49-54 | required, too short or too long, each exactly; "" exactly for 2 to 50 characters |
| SignUp.ValidateConfirmPassword | frontend/finsrisk/src/pages/Auth/SignUp.jsx:55-59 | "" exactly when the two match; a mismatch always gives the first message; "Passwords do not match." is never returned |
| SignUp.Validate | frontend/finsrisk/src/pages/Auth/SignUp.jsx:95-103 | each field's validator accepts exactly its intended values |
| SignUp.ErrorsOf | frontend/finsrisk/src/pages/Auth/SignUp.jsx:114-117 | the four messages the submit computes |
| SignUp.IsFormValid | frontend/finsrisk/src/pages/Auth/SignUp.jsx:106-112 | true exactly when all four validators return "" (the emptiness tests add nothing), that is a 2 to 50 character name, a matching address, 6+ characters and an equal confirmation |
| SignUp.InputChange | frontend/finsrisk/src/pages/Auth/SignUp.jsx:61-86 | value stored; only a touched field is revalidated; a touched password also revalidates a touched confirmation; error cleared; nothing else changes |
| SignUp.Blur | frontend/finsrisk/src/pages/Auth/SignUp.jsx:87-105 | marks the field touched and shows its validator's message for the stored value |
| SignUp.Submit | frontend/finsrisk/src/pages/Auth/SignUp.jsx:113-176 | sends exactly for a valid form; invalid: all four messages, all touched; resolved: form and touched reset, success exactly on 201; rejected: server message or fallback; loading ends false |
| SignUp.InitialConsistent | frontend/finsrisk/src/pages/Auth/SignUp.jsx:24-47 | the initial state shows no stale message |
| SignUp.BlurKeepsConsistent | frontend/finsrisk/src/pages/Auth/SignUp.jsx:87-105 | blurring keeps every shown message current |
| SignUp.SubmitKeepsConsistent | frontend/finsrisk/src/pages/Auth/SignUp.jsx:113-176 | submitting keeps every shown message current |
| SignUp.InputChangeKeepsConsistent | frontend/finsrisk/src/pages/Auth/SignUp.jsx:68-84 | typing keeps every shown message current, except a password typed while only the confirmation is touched |
| SignUp.StaleConfirmation | frontend/finsrisk/src/pages/Auth/SignUp.jsx:74-79 | that exception happens: the confirmation shows no error after the password changes |
| SignUp.RegisteredFormIsBlank | frontend/finsrisk/src/pages/Auth/SignUp.jsx:150-161 | a successful registration leaves a blank, untouched form that is no longer valid |
| SignUp.SignUpForm.constructor | frontend/finsrisk/src/pages/Auth/SignUp.jsx:24-47 | the `useState` initial values |
| SignUp.SignUpForm.HandleInputChange | frontend/finsrisk/src/pages/Auth/SignUp.jsx:61-86 | the new state is `InputChange` of the old |
| SignUp.SignUpForm.HandleBlur | frontend/finsrisk/src/pages/Auth/SignUp.jsx:87-105 | the new state is `Blur` of the old |
| SignUp.SignUpForm.HandleSubmit | frontend/finsrisk/src/pages/Auth/SignUp.jsx:113-176 | the new state and the request are `Submit` of the old state |
| Login.Pair.Set | frontend/finsrisk/src/pages/Auth/Login.jsx:41-44 | sets one field and keeps the other |
| Login.Validate | frontend/finsrisk/src/pages/Auth/Login.jsx:64-69 | each field's validator accepts exactly its intended values |
| Login.ErrorsOf | frontend/finsrisk/src/pages/Auth/Login.jsx:82-88 | the two messages the submit computes |
| Login.IsFormValid | frontend/finsrisk/src/pages/Auth/Login.jsx:74-78 | true exactly when both validators return "", that is a matching address and 6+ characters |
| Login.InputChange | frontend/finsrisk/src/pages/Auth/Login.jsx:39-56 | value stored; revalidated only when touched; error cleared |
| Login.Blur | frontend/finsrisk/src/pages/Auth/Login.jsx:57-72 | marks the field touched and shows its message for the stored value |
| Login.Submit | frontend/finsrisk/src/pages/Auth/Login.jsx:81-126 | sends exactly for a valid form; success exactly for 200 with a token; no error exactly for 200; the two fallbacks; form kept; loading ends false |
| Login.InitialConsistent | frontend/finsrisk/src/pages/Auth/Login.jsx:21-37 | the initial state shows no stale message |
| Login.InputChangeKeepsConsistent | frontend/finsrisk/src/pages/Auth/Login.jsx:46-55 | typing keeps every shown message current |
| Login.BlurKeepsConsistent | frontend/finsrisk/src/pages/Auth/Login.jsx:57-72 | blurring keeps every shown message current |
| Login.SubmitKeepsConsistent | frontend/finsrisk/src/pages/Auth/Login.jsx:81-126 | submitting keeps every shown message current |
| Login.SubmitKeepsForm | frontend/finsrisk/src/pages/Auth/Login.jsx:100-101 | a submitted form keeps its data, so submitting again sends the same credentials |
| Login.LoginForm.constructor | frontend/finsrisk/src/pages/Auth/Login.jsx:21-37 | the `useState` initial values |
| Login.LoginForm.HandleInputChange | frontend/finsrisk/src/pages/Auth/Login.jsx:39-56 | the new state is `InputChange` of the old |
| Login.LoginForm.HandleBlur | frontend/finsrisk/src/pages/Auth/Login.jsx:57-72 | the new state is `Blur` of the old |
| Login.LoginForm.HandleSubmit | frontend/finsrisk/src/pages/Auth/Login.jsx:81-126 | the new state and the request are `Submit` of the old state |

## Left out

- Database, Redis and queue I/O. Mongoose queries are modelled as reads and writes of `Database.Store`. The BullMQ queue is a list of jobs. Retry, exponential backoff and delivery are not executed, because they belong to the queue library.
- Concurrency and timing: the cron schedule, `await` interleavings between handlers, and the `setTimeout` redirect after login.
- Floating point. Arithmetic is over `real`, so rounding, `Infinity` and `NaN` propagation are not modelled.
  - A value that would be stored as `NaN` becomes a `Failure`: Mongoose rejects it on save.
  - `Math.sqrt` is a parameter.
  - `randnPair` (`Math.log`, `cos`, `sin`, `random`) is replaced by the `draw` parameter, so no distributional claim is made.
- ParametricVaR.ComputeParametricVaR: requires at least one position. With none, `Math.min()` is `Infinity` and the day loop does not terminate. The only caller refuses empty portfolios first, with a 400.
- Monte Carlo `posWeights` and the `simulations` echo in the summary: values that nothing reads are not modelled, beyond the simulation count.
- VaRRoutes.PostReply: stores `status` and `params.simulations` as the handler writes them, not as strict mode would save them; see Findings.
- VaRWorker.SimulationCount: reads the count the handler wrote, where strict mode would leave the default 5000; see Findings.
- VaRWorker.ProcessJob: requires that a run found under the job's id is a Monte Carlo run. This is the only kind the POST handler enqueues.
- The imports whose targets are missing or misnamed are modelled against the functions they evidently mean:
  - `parametricVarService.js` in varRoutes.js:5 means `computeParametricVaR` of varService.js;
  - `computeMonteCarloVaR` from `varService.js` in varWorker.js:6 means the one in montecarloService.js.
- `populate("portfolio", …)`: the run's portfolio is looked up by id. The GET-by-id reply returns the run record without the joined name and currency.
- Text.ToUpper: covers ASCII only. Unicode case mapping is not modelled.
- Lengths are counted in characters, not in JavaScript's UTF-16 code units. For a string outside the Basic Multilingual Plane, the length tests in the validators count differently.
- Timestamps. `createdAt` order is taken to be id order, and the price store keeps each symbol's prices in insertion order.
- `POST /api/market` (backend/src/routes/marketRoutes.js) is not modelled as a handler. Its effect is a store where any non-zero number may be a price, and the model assumes no more than that.
- Market.NonZeroQuotes: a price sent as the string "0" passes the route's `!price` test and is cast to 0. The model leaves that store out. A zero price would make a return divide by zero, which the model does not follow.
- ReturnSeries.PortfolioReturns: a zero portfolio value makes every weight infinite. The model does not follow the infinities; it reports the `NaN` VaR they end in as `Failure(NotANumber)`.
- The GET routes that only list or read documents (`GET /portfolios`, `GET /portfolios/:id`, `GET /positions`) and the portfolio PUT route: each is a single query with no logic beyond the store reads modelled here.
- PositionModel.PositionPatch: only the schema's paths are modelled, `portfolio` among them. Strict mode drops keys the schema does not declare from the update.
- The in-place `sort` of the historical and Monte Carlo calculators is modelled on values (`Sorting.SortAscending`), not as an array permutation in place.
- The price worker's `redis.set` of the latest price and its console output: no model state reads them.
- React rendering, password visibility toggles, `login(data, token)` and `navigate("/")` of the auth context: they do not change the form's state records.
- JavaScript object key order. Symbols are visited in the order positions first mention them, which is the insertion order `Object.keys` preserves for non-numeric keys.

## Findings

| source | as written | input that shows it | evidently intended | confidence | as-written member | corrected member |
|---|---|---|---|---|---|---|
| backend/src/models/VaRRun.js:3-29 | the schema declares neither `status` nor `params.simulations`, so strict mode drops both on save | a Monte Carlo POST with `simulations: 100` | the run keeps its status and its count, and the job simulates 100 paths | medium; not executed | VaRWorker.StrictSaveAsWritten | VaRWorker.SimulationCount |
| backend/src/services/dataPrep.js:42-46 | `getPortfolioPositions` returns an object `{ positions, totalValue, totalInvested }`, and `getEnrichedPortfolio` iterates that object with `for…of`, which throws "positions is not iterable" | any portfolio the caller owns, e.g. portfolio 0 "Main" of user 7 | iterate the portfolio's positions, enrich each priced one and total their market values | not executed | DataPrep.EnrichedPortfolioAsWritten, DataPrep.EnrichedPortfolioAsWrittenFails | DataPrep.GetEnrichedPortfolio |
