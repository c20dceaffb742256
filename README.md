# Investment dashboard — a Dafny model of its core

The investment dashboard has two parts:

- a FastAPI back end, which
  - values a hard-coded brokerage statement against market quotes;
  - summarises the portfolio;
  - keeps a user's brokerage connection and holding rows in a database;
  - produces rule-based diversification recommendations;
- a React client, which
  - shows the holdings in two tables with 52-week range bars and a detail drawer;
  - shows a watchlist of quote cards with buy-score gauges;
  - guards its routes behind a login session;
  - offers a persisted colour theme.

This project models both halves, file by file:

| source file | module |
|---|---|
| `backend/app/services/recommendation_service.py` | `Recommendations` |
| `backend/app/api/portfolio.py` | `PortfolioApi` |
| `backend/app/services/pdf_service.py`, `backend/app/api/brokerage.py` | `PdfService` (class `Database`) |
| `backend/app/api/market.py` | `MarketApi` |
| `frontend/src/pages/Dashboard.tsx` | `Dashboard` |
| `frontend/src/components/HoldingsTable.tsx` | `HoldingsTable` |
| `frontend/src/components/dashboard/HoldingsTable.tsx` | `DashboardHoldingsTable` |
| `frontend/src/components/dashboard/HoldingDetailDrawer.tsx` | `HoldingDetailDrawer` |
| `frontend/src/components/Watchlist.tsx` | `Watchlist` |
| `frontend/src/components/dashboard/StockCard.tsx` | `StockCard` |
| `frontend/src/constants/design.ts` | `Design` |
| `frontend/src/context/AuthContext.tsx` | `Auth` |
| `frontend/src/App.tsx` | `AppRoutes` |
| `frontend/src/components/Header.tsx` | `Header` |
| `frontend/src/contexts/ThemeContext.tsx`, `frontend/src/components/common/ThemeSwitcher.tsx` | `Theme` |

Four support modules:

- `Wrappers`: the `Option` and `Result` types.
- `Decimal`: natural numbers as decimal text, with a parse-back round trip.
- `ClientTypes`: the client's records; JavaScript's `x || d` on numbers; IEEE division by zero as `JsNumber`.
- `Divergences`: lemmas comparing the client's several copies of the same display logic.

Modelling choices:

- Money, prices and percentages are `real`.
- Every division that Python or JavaScript can perform with a zero divisor has an explicit outcome:
  - `Err(DivisionByZero)` for Python's `ZeroDivisionError`;
  - `JsNumber` infinities and NaN in the one client component that does not guard its division.
- Market quotes come from a function parameter (`string -> Option<…>`), because the market service does network I/O.
- The database is a class with two tables held as sequences: connections and holding rows.
- The client's session, header, theme store, theme menu and table selections are classes whose methods update their fields, mirroring React state updates.
- Session transitions are also pure functions (`Auth.AfterInit`, `AfterLogin`, `AfterLogout`). The methods are proved to follow them, and the route guard is proved against them.

Three behaviours of the code stand out; the model states what the code does, and one of them is a defect, kept apart:

- `portfolio.py` reads `quote.price`, `quote.week52_low`, `quote.week52_high` and `quote.buy_score` (lines 25 and 42-44). The market quote record has none of these; it names its price `current_price`. As written, reading `quote.price` raises on every quoted holding, and the market service answers every symbol, so the portfolio, summary and sync endpoints fail on the first holding (`PortfolioApi.StatementFailsAsWritten`, see Findings). The rest of the model values holdings as evidently intended, against an abstract quote record (`PortfolioQuote`) with exactly the fields that code reads.
- The SCHD rule (`recommendation_service.py:67`) divides by the total without the `total_value > 0` guard the other rules have. The model keeps this: a portfolio whose only Technology holdings have zero cost fails with `DivisionByZero` (`Recommendations.ZeroValueTechnologyFails`).
- The page table colours a zero return as a loss (`HoldingsTable.tsx:222`, a truthiness test). The dashboard drawer shows the same return as positive. `Divergences.ZeroReturnShownBothWays` states both.

## Model

| member | source | states |
|---|---|---|
| Recommendations.SectorOrder | backend/app/services/recommendation_service.py:20-27 | the sector dictionary's keys hold no repeats and include the sector of every holding |
| Recommendations.SectorOrderFromHoldings | backend/app/services/recommendation_service.py:22-27 | every key of the sector dictionary is the sector of some holding |
| Recommendations.SectorValueOutside | backend/app/services/recommendation_service.py:27 | a sector that is not a key has accumulated no value |
| Recommendations.SectorValuesSumToTotal | backend/app/services/recommendation_service.py:20-27 | the per-sector values sum to the running total of quantity × average cost |
| Recommendations.AggregateSectors | backend/app/services/recommendation_service.py:20-27 | the loop yields the total cost basis, the sectors in first-insertion order and each sector's summed value, with no other keys |
| Recommendations.AttachQuotes | backend/app/services/recommendation_service.py:76-79 | price attachment keeps the list and every field but the price; a quoted symbol gets its quote's price, an unquoted one keeps its price |
| Recommendations.FetchPrices | backend/app/services/recommendation_service.py:76-79 | the price loop has the effect of AttachQuotes on the recommendation list |
| Recommendations.ApplySectorRule | backend/app/services/recommendation_service.py:29-41 | with a positive total, one VTI recommendation is appended per sector over 40%, in dictionary order, with risk set to High and 30 taken off the score for each; with a zero total nothing changes |
| Recommendations.ApplyHoldingRule | backend/app/services/recommendation_service.py:44-54 | one Reduce recommendation per holding over 25% of the total, with 10 taken off per recommendation |
| Recommendations.ApplyTechRule | backend/app/services/recommendation_service.py:67-73 | SCHD is appended when Technology exceeds half the total; when Technology is present and the total is zero the rule fails with a division by zero |
| Recommendations.GenerateRecommendations | backend/app/services/recommendation_service.py:12-85 | the service method's result is the rule pipeline Generate, whose properties are the lemmas below |
| Recommendations.GenerateWellFormed | backend/app/services/recommendation_service.py:33-73 | every recommendation carries the symbol, risk and action its rule prescribes (VTI/Low/Buy, the holding/High/Reduce, QQQ/Medium/Watch, SCHD/Low/Buy) |
| Recommendations.RulePositions | backend/app/services/recommendation_service.py:29-73 | the response is the sector block, then the holding block, then QQQ, then SCHD, position by position |
| Recommendations.RuleOrder | backend/app/services/recommendation_service.py:29-73 | recommendations never appear out of rule order |
| Recommendations.CountRules | backend/app/services/recommendation_service.py:15-73 | any count over the response is the sum of the counts over the four rules |
| Recommendations.VtiPerHeavySector | backend/app/services/recommendation_service.py:29-41 | exactly one VTI recommendation for each sector whose weight exceeds 40%, none for any other |
| Recommendations.ReducePerHeavyHolding | backend/app/services/recommendation_service.py:44-54 | the number of Reduce recommendations for a symbol equals the number of its holdings over 25% |
| Recommendations.QqqIffFewHoldings | backend/app/services/recommendation_service.py:57-64 | QQQ is recommended once if there are fewer than three holdings, and otherwise never |
| Recommendations.SchdIffHeavyTech | backend/app/services/recommendation_service.py:67-73 | SCHD is recommended once if Technology is over half the total, and otherwise never |
| Recommendations.ScoreFromRecommendations | backend/app/services/recommendation_service.py:17-84 | the score is 100 less 30 per sector warning, 10 per holding warning and 20 for QQQ, floored at 0, and lies in [0, 100] |
| Recommendations.RiskHighIffHeavySector | backend/app/services/recommendation_service.py:16-83 | the summary says risk "High" exactly when some sector is over 40%, and it quotes the reported score |
| Recommendations.EmptyPortfolio | backend/app/services/recommendation_service.py:57-85 | no holdings gives only QQQ, score 80 and the summary "Portfolio Risk is Low. Diversification Score: 80/100" |
| Recommendations.ZeroValueTechnologyFails | backend/app/services/recommendation_service.py:67 | a zero-cost Technology-only portfolio reaches rule 4's unguarded division and fails |
| Recommendations.PositiveCostsNeverFail | backend/app/services/recommendation_service.py:29-67 | when every holding has a positive cost, the service never divides by zero |
| Recommendations.FirstIndex | backend/app/services/recommendation_service.py:22-27 | the index of the first holding in a sector, with every earlier holding in another sector |
| Recommendations.SectorOrderByFirstIndex | backend/app/services/recommendation_service.py:27-30 | the dictionary iterates sectors in the order in which they first appear among the holdings |
| Recommendations.SectorRecsLead | backend/app/services/recommendation_service.py:29-54 | the sector warnings open the response, and no later entry is a sector warning |
| Recommendations.VtiInFirstAppearanceOrder | backend/app/services/recommendation_service.py:30-41 | the VTI warnings follow the sectors' first appearance among the holdings |
| Decimal.NatToString | backend/app/services/recommendation_service.py:83 | the score is printed as non-empty decimal digits without a leading zero |
| Decimal.ParseNatToString | backend/app/services/recommendation_service.py:83 | reading the printed score back gives the score |
| Decimal.NatToStringInjective | backend/app/services/recommendation_service.py:83 | distinct scores print differently |
| PortfolioApi.ValueHolding | backend/app/api/portfolio.py:18-46 | valuing one statement item fails exactly when the cost is positive and the quantity zero (the percentage then divides by zero) |
| PortfolioApi.ValuationFacts | backend/app/api/portfolio.py:25-44 | the entry's id, user, price (the quote's, else the cost), market value, P/L, P/L percentage (0 without a positive cost) and 52-week/buy-score defaults |
| PortfolioApi.UnquotedHasNoGain | backend/app/api/portfolio.py:25-28 | an unquoted holding is priced at cost, with zero P/L and zero percentage |
| PortfolioApi.Portfolio | backend/app/api/portfolio.py:15-49 | a successful valuation has one entry per statement item |
| PortfolioApi.PortfolioEntries | backend/app/api/portfolio.py:17-47 | the i-th entry is the i-th item valued against its own quote |
| PortfolioApi.PortfolioIds | backend/app/api/portfolio.py:17-41 | entries keep the statement's order; ids are 1, 2, …; the user is the demo user; symbol, name, quantity, cost and sector are copied |
| PortfolioApi.PortfolioFailsIff | backend/app/api/portfolio.py:17-28 | the endpoint fails exactly when some item has a positive cost and zero quantity |
| PortfolioApi.StatementValuationSucceeds | backend/app/api/portfolio.py:13-28 | the hard-coded statement is always valued, whatever the quotes, into 27 entries |
| PortfolioApi.ValueHoldingAsWritten | backend/app/api/portfolio.py:23-28 | as written, any market quote raises on its missing `price` attribute; without a quote the entry is valued at cost, as intended |
| PortfolioApi.FirstQuotedFails | backend/app/api/portfolio.py:17-25 | as written, a quote for the first entry makes the whole valuation fail |
| PortfolioApi.StatementFailsAsWritten | backend/app/services/market_service.py:15-51 | the market service answers every symbol, so as written valuing the statement always fails |
| PortfolioApi.UnquotedAsWrittenAgrees | backend/app/api/portfolio.py:25-28 | without any quote the code as written and the intended valuation give the same result |
| PortfolioApi.ValueEntries | backend/app/api/portfolio.py:15-49 | the loop computes the Portfolio valuation, including its failure |
| PortfolioApi.GetPortfolio | backend/app/api/portfolio.py:11-49 | the endpoint values the parsed statement |
| PortfolioApi.SyncPortfolio | backend/app/api/portfolio.py:82-89 | sync returns exactly what the portfolio endpoint returns |
| PortfolioApi.PercentOfCost | backend/app/api/portfolio.py:59 | the percentage is 0 without a positive cost, and otherwise P/L × 100 / cost |
| PortfolioApi.PortfolioSummary | backend/app/api/portfolio.py:52-80 | the summary succeeds exactly when the portfolio valuation does |
| PortfolioApi.TrendShape | backend/app/api/portfolio.py:63-65 | seven trend points whose last is the total value and whose first six lie between 95% and 99% of it |
| PortfolioApi.SectorAllocationSumsTo100 | backend/app/api/portfolio.py:74-79 | the four fixed sector weights sum to 100 |
| PortfolioApi.TotalPlIsSumOfHoldingPl | backend/app/api/portfolio.py:56-58 | the total P/L equals the sum of the holdings' own P/L |
| PortfolioApi.AtCostTotals | backend/app/api/portfolio.py:56-57 | when every holding is valued at cost, total value equals total cost |
| PortfolioApi.SummaryTotals | backend/app/api/portfolio.py:56-79 | the summary's value, P/L, P/L percentage, weekly figures (a tenth of P/L and percentage) and allocation |
| PortfolioApi.PortfolioPlIsTotalsGap | backend/app/api/portfolio.py:27-58 | the sum of holding P/L is total value less total cost |
| PortfolioApi.NoQuotesNoGain | backend/app/api/portfolio.py:25-69 | without any quotes the summary's value is the cost basis and P/L, P/L percentage and weekly change are zero |
| PortfolioApi.StatementSummary | backend/app/api/portfolio.py:52-59 | the summary of the statement never fails, and without quotes it shows no gain |
| PdfService.ParsedHoldingsPositive | backend/app/services/pdf_service.py:53-95 | the statement lists 27 holdings, each with positive quantity and cost |
| PdfService.ParsedHoldingsWellFormed | backend/app/services/pdf_service.py:53-95 | the statement's 27 symbols are pairwise distinct |
| PdfService.FindConnection | backend/app/services/pdf_service.py:26 | `.first()` yields the earliest connection of the user, or none when the user has none |
| PdfService.RowsFor | backend/app/services/pdf_service.py:108-118 | one new holding row per statement item |
| PdfService.ConnectionStatus | backend/app/api/brokerage.py:35-37 | the status is connected exactly for an existing, connected row, and carries its provider |
| PdfService.FindUnique | backend/app/models/brokerage.py:10 | with unique user ids, the lookup finds the user's only row |
| PdfService.ConnectShape | backend/app/services/pdf_service.py:26-37 | connecting updates the user's row in place to connected via PDF import, or appends a new connected row, and changes nothing else |
| PdfService.ConnectLeavesOneConnection | backend/app/services/pdf_service.py:26-37 | after connecting the user has exactly one row, connected by PDF import; other users' rows are unchanged and ids stay unique |
| PdfService.DisconnectMissing | backend/app/services/pdf_service.py:44-51 | without a row, disconnecting reports failure and changes nothing |
| PdfService.DisconnectExisting | backend/app/services/pdf_service.py:44-50 | with a row, disconnecting reports success, clears both tokens and the flag, keeps the provider and leaves other users alone |
| PdfService.DisconnectedStatus | backend/app/services/pdf_service.py:44-50 | after a disconnect the status endpoint reports not connected |
| PdfService.StatusIffConnectedRow | backend/app/api/brokerage.py:35-37 | the status is connected if and only if the user has a connected row |
| PdfService.ConnectedStatus | backend/app/api/brokerage.py:15-18 | after a connect the status is connected with provider `pdf_import` |
| PdfService.SyncUserRows | backend/app/services/pdf_service.py:102-118 | after a sync the user's rows are exactly the statement's items, in order |
| PdfService.SyncKeepsOtherUsers | backend/app/services/pdf_service.py:105 | a sync deletes and adds rows of its own user only |
| PdfService.SyncIdempotent | backend/app/services/pdf_service.py:97-121 | syncing twice leaves the same table as syncing once |
| PdfService.Database.ConnectAccount | backend/app/services/pdf_service.py:22-41 | the connection table becomes ConnectTable, holdings are untouched, and the returned row is the user's connected PDF-import row |
| PdfService.Database.DisconnectAccount | backend/app/services/pdf_service.py:43-51 | the result tells whether the user had a row; the table becomes DisconnectTable; holdings are untouched |
| PdfService.Database.SyncHoldings | backend/app/services/pdf_service.py:97-121 | the rows become SyncTable of the statement, the 27 added rows are returned and connections are untouched |
| PdfService.Database.ImportFromPdf | backend/app/api/brokerage.py:9-18 | connect then sync; the status is then connected via `pdf_import` |
| PdfService.Database.DisconnectBrokerage | backend/app/api/brokerage.py:20-28 | HTTP 400 "No active connection found" exactly when the user has no row; otherwise "disconnected" and a not-connected status |
| MarketApi.GetQuote | backend/app/api/market.py:14-17 | a missing quote is a 404 "Symbol not found", otherwise the quote itself |
| MarketApi.Split | backend/app/api/market.py:24 | `split(",")` always yields at least one piece |
| MarketApi.SplitCount | backend/app/api/market.py:24 | the number of pieces is one more than the number of commas |
| MarketApi.SplitPiecesFree | backend/app/api/market.py:24 | no piece contains the separator |
| MarketApi.JoinSplit | backend/app/api/market.py:24 | joining the pieces with the separator restores the query |
| MarketApi.SplitFree | backend/app/api/market.py:24 | a string without the separator is a single piece |
| MarketApi.SplitAround | backend/app/api/market.py:24 | splitting at a separator splits each side independently |
| MarketApi.SplitJoin | backend/app/api/market.py:24 | splitting a join of separator-free pieces gives back the pieces |
| MarketApi.StripLeading | backend/app/api/market.py:24 | removes exactly the leading whitespace, leaving a suffix that starts with non-space |
| MarketApi.StripTrailing | backend/app/api/market.py:24 | removes exactly the trailing whitespace, leaving a prefix that ends with non-space |
| MarketApi.StripEnds | backend/app/api/market.py:24 | a stripped symbol has no whitespace at either end |
| MarketApi.StripKeepsAbsent | backend/app/api/market.py:24 | stripping never introduces a character |
| MarketApi.StripUnpadded | backend/app/api/market.py:24 | stripping an unpadded symbol changes nothing |
| MarketApi.ParseSymbolsShape | backend/app/api/market.py:24 | one symbol per comma-separated piece, each the stripped piece and comma-free |
| MarketApi.EmptyQuery | backend/app/api/market.py:24 | an empty query yields one empty symbol |
| MarketApi.AdjacentCommas | backend/app/api/market.py:24 | two adjacent commas yield an empty symbol between them |
| MarketApi.JoinParseRoundTrip | backend/app/api/market.py:24 | parsing the client's comma-joined list of unpadded, comma-free symbols returns that list |
| MarketApi.EmptyJoin | frontend/src/services/api.ts:65 | an empty symbol list sends an empty query, which parses to one empty symbol |
| Dashboard.TotalGainPercent | frontend/src/pages/Dashboard.tsx:51-54 | 0 without a positive total cost, otherwise gain × 100 / cost |
| Dashboard.NoHoldingsNoTotals | frontend/src/pages/Dashboard.tsx:51-54 | before holdings arrive all totals are 0 |
| Dashboard.UnvaluedHoldingsAddNothing | frontend/src/pages/Dashboard.tsx:51 | holdings with a missing or zero market value leave the total unchanged |
| Dashboard.ToClient | backend/app/schemas/portfolio.py:15-24 | a served holding keeps its identity, quantity, cost and the four computed amounts; its 52-week range and buy score arrive missing, since the response schema does not declare them |
| Dashboard.ToClientAll | backend/app/api/portfolio.py:10 | the client receives one holding per server entry, in order, none with a 52-week range or a buy score |
| Dashboard.ServedHoldingsShowMidpointAndHold | frontend/src/components/dashboard/HoldingsTable.tsx:37-39 | every served holding has its range marker in the middle of the bar, and the drawer rates it 50, "Hold", 0% above its 52-week low |
| Dashboard.SumsAgree | frontend/src/pages/Dashboard.tsx:51-52 | the page's value and cost sums equal the server's totals |
| Dashboard.AgreesWithSummary | frontend/src/pages/Dashboard.tsx:51-54 | the page's value, cost, gain and gain percentage equal the server summary's for the same holdings |
| Dashboard.Symbols | frontend/src/pages/Dashboard.tsx:36 | the symbols requested are the holdings' symbols, in order |
| Dashboard.QuotesRequest | frontend/src/pages/Dashboard.tsx:32-40 | quotes are requested only once holdings are loaded, for exactly their symbols |
| Dashboard.RequestReachesServer | frontend/src/pages/Dashboard.tsx:32-40 | the server's parse of the quotes query returns the holdings' symbols when they are unpadded, comma-free and free of the characters an unencoded query string alters (`&`, `#`, `+`, `%`) |
| Dashboard.EmptyHoldingsAskForEmptySymbol | frontend/src/pages/Dashboard.tsx:32-40 | no holdings still sends a request, which the server reads as one empty symbol |
| Dashboard.NoQuotesEmptyMap | frontend/src/pages/Dashboard.tsx:57 | without quotes the quote map is empty |
| Dashboard.QuoteMapKeysAndValues | frontend/src/pages/Dashboard.tsx:57 | every quoted symbol is a key, and each key maps to a quote of that symbol from the list |
| Dashboard.LastQuoteWins | frontend/src/pages/Dashboard.tsx:57 | the last quote for a symbol is the one kept |
| HoldingsTable.PLColorBands | frontend/src/components/HoldingsTable.tsx:18-24 | the row tint for P/L percentages ≥ 20, in (0, 20), ≤ −20 and in (−20, 0), with no tint at exactly 0 |
| HoldingsTable.PlLabel | frontend/src/components/HoldingsTable.tsx:67-114 | a `+` and the gain colour exactly for a non-negative percentage; a missing percentage counts as 0 |
| HoldingsTable.NoRangeMidpoint | frontend/src/components/HoldingsTable.tsx:72-75 | without a usable quote range, high and low fall back to the price and the marker sits at 50 |
| HoldingsTable.PositionOnBar | frontend/src/components/HoldingsTable.tsx:72-75 | a price inside the range puts the marker in [0, 100], at 0 on the low and at 100 on the high |
| HoldingsTable.BarColorBands | frontend/src/components/HoldingsTable.tsx:131-145 | the bar is the near-low colour below 20, the near-high colour above 80 and the middle colour otherwise |
| HoldingsTable.Rows | frontend/src/components/HoldingsTable.tsx:66-160 | one row per holding, in order |
| HoldingsTable.UnquotedRow | frontend/src/components/HoldingsTable.tsx:67-75 | a holding without a quote shows its marker in the middle, in the middle colour |
| HoldingsTable.ReturnColorStrict | frontend/src/components/HoldingsTable.tsx:222 | the drawer shows a gain only for a strictly positive P/L; a zero P/L is a loss there, though the row label shows it as a gain |
| HoldingsTable.Selection.constructor | frontend/src/components/HoldingsTable.tsx:16 | nothing is selected and the drawer is closed |
| HoldingsTable.Selection.RowClick | frontend/src/components/HoldingsTable.tsx:82 | the clicked row is selected and the drawer opens |
| HoldingsTable.Selection.Close | frontend/src/components/HoldingsTable.tsx:169-183 | the selection clears and the drawer closes |
| DashboardHoldingsTable.SignFacts | frontend/src/components/dashboard/HoldingsTable.tsx:33-76 | sign, badge and marker colour are the positive ones exactly for a non-negative percentage; a missing percentage is positive |
| DashboardHoldingsTable.MarkerOnBar | frontend/src/components/dashboard/HoldingsTable.tsx:82-83 | the clamped marker always lies in [0, 100]; it equals the position inside the bar and is pinned to the nearer end outside it |
| DashboardHoldingsTable.NoRangeMidpoint | frontend/src/components/dashboard/HoldingsTable.tsx:37-39 | without a positive range the position and marker are 50 |
| DashboardHoldingsTable.PositionInRange | frontend/src/components/dashboard/HoldingsTable.tsx:37-39 | a price inside a positive range gives a position in [0, 100], 0 at the low and 100 at the high |
| DashboardHoldingsTable.Rows | frontend/src/components/dashboard/HoldingsTable.tsx:32-47 | one row per holding, in order |
| DashboardHoldingsTable.Selection.constructor | frontend/src/components/dashboard/HoldingsTable.tsx:12 | nothing is selected and no drawer shows |
| DashboardHoldingsTable.Selection.RowClick | frontend/src/components/dashboard/HoldingsTable.tsx:47 | the clicked holding is selected and its drawer shows |
| DashboardHoldingsTable.Selection.Close | frontend/src/components/dashboard/HoldingsTable.tsx:95-98 | the selection clears and the drawer disappears |
| HoldingDetailDrawer.RecommendationBands | frontend/src/components/dashboard/HoldingDetailDrawer.tsx:16-18 | "Strong Buy" above 70, "Consider Selling" below 40 and "Hold" from 40 to 70, 70 included |
| HoldingDetailDrawer.UnscoredIsHold | frontend/src/components/dashboard/HoldingDetailDrawer.tsx:14-18 | a missing or zero buy score shows as 50 and "Hold" |
| HoldingDetailDrawer.ColoursFollowRecommendation | frontend/src/components/dashboard/HoldingDetailDrawer.tsx:83-91 | two scores share a text colour, and a bar colour, if and only if they share a recommendation |
| HoldingDetailDrawer.Round | frontend/src/components/dashboard/HoldingDetailDrawer.tsx:101 | `Math.round` returns the integer within half a unit, with ties rounded up |
| HoldingDetailDrawer.AboveLowFigure | frontend/src/components/dashboard/HoldingDetailDrawer.tsx:100-102 | "0%" when the price or the low is missing or zero; otherwise the rounded percentage above the low, at least 0 for a price at or over the low and 0 at the low |
| HoldingDetailDrawer.Drawer | frontend/src/components/dashboard/HoldingDetailDrawer.tsx:11 | no holding, no drawer |
| HoldingDetailDrawer.DrawerFacts | frontend/src/components/dashboard/HoldingDetailDrawer.tsx:13-93 | the return's sign and magnitude recombine to the percentage; the bar's width is the buy score; the rating is its recommendation |
| Watchlist.GaugeColorBands | frontend/src/components/Watchlist.tsx:12-15 | red below 40, yellow from 40 to below 70, green from 70 |
| Watchlist.GaugeOffsetFacts | frontend/src/components/Watchlist.tsx:17-18 | the offset is the uncovered share of the circle: all of it at score 0, none at 100, inside the circle for scores in [0, 100], and non-increasing in the score |
| Watchlist.PositionFacts | frontend/src/components/Watchlist.tsx:75-76 | without a positive range the marker is at 50; a price inside the range puts it in [0, 100] |
| Watchlist.ChangeLabelFacts | frontend/src/components/Watchlist.tsx:74-127 | a `+` and the gain background exactly for a non-negative change; the magnitude is never negative and recombines with the sign to the change |
| Watchlist.Cards | frontend/src/components/Watchlist.tsx:189-191 | one card per quote, in order |
| Watchlist.CardFacts | frontend/src/components/Watchlist.tsx:99-166 | the card's bar colour follows the 20/80 bands of its position; a quote without an AI score shows 50 in yellow |
| StockCard.GaugeColorBands | frontend/src/components/dashboard/StockCard.tsx:14-16 | red below 40, cyan from 70, yellow between |
| StockCard.GaugeOffsetFacts | frontend/src/components/dashboard/StockCard.tsx:11-12 | the offset is the uncovered share of the circle: all at 0, none at 100, within the circle for scores in [0, 100], non-increasing |
| StockCard.GaugesShowSameFraction | frontend/src/components/dashboard/StockCard.tsx:11-12 | the card's small gauge and the watchlist's large gauge leave the same fraction of their circles uncovered |
| StockCard.PositionWithRange | frontend/src/components/dashboard/StockCard.tsx:53-58 | with a non-flat range the position is finite, and the range text follows the 20/80 bands |
| StockCard.FlatRange | frontend/src/components/dashboard/StockCard.tsx:53-58 | a flat range gives +∞ ("Near High") above it, −∞ ("Near Low") below it and NaN ("Mid Range") on it |
| StockCard.ChangeFacts | frontend/src/components/dashboard/StockCard.tsx:50-88 | cyan exactly for a non-negative change; the shown magnitude is never negative and recombines with the sign to the change |
| Design.BuyScoreColorBands | frontend/src/constants/design.ts:124-130 | success from 80, lime from 60, amber from 20 (the 20–40 warning band has amber's value), error below 20 |
| Design.BuyScoreColorMonotone | frontend/src/constants/design.ts:124-130 | a higher score never gets a lower-ranked colour |
| Design.RiskColors | frontend/src/constants/design.ts:133-142 | the three risk levels get three distinct colours, the success, warning and error colours |
| Auth.InitialFacts | frontend/src/context/AuthContext.tsx:16-18 | the session starts with no user, not signed in and loading |
| Auth.InitOutcomes | frontend/src/context/AuthContext.tsx:20-39 | start-up always ends loading; without a stored token nothing else changes; an accepted token signs in with the fetched user; a rejected token is removed |
| Auth.LoginFacts | frontend/src/context/AuthContext.tsx:44-49 | login stores the token and signs in; the user is the fetched one, or the previous one when the fetch fails |
| Auth.LogoutFacts | frontend/src/context/AuthContext.tsx:51-55 | logout removes the token and the user and signs out; a second logout changes nothing |
| Auth.TransitionsKeepConsistent | frontend/src/context/AuthContext.tsx:20-55 | start-up, login and logout keep the invariant: signed in implies a stored token, a user implies signed in |
| Auth.UseAuth | frontend/src/context/AuthContext.tsx:64-69 | the hook fails, with its message, exactly outside the provider |
| Auth.AuthSession.constructor | frontend/src/context/AuthContext.tsx:16-18 | the session object starts in the initial state |
| Auth.AuthSession.InitAuth | frontend/src/context/AuthContext.tsx:20-39 | the start-up effect moves the session to AfterInit and keeps the invariant |
| Auth.AuthSession.Login | frontend/src/context/AuthContext.tsx:44-49 | moves the session to AfterLogin and keeps the invariant |
| Auth.AuthSession.Logout | frontend/src/context/AuthContext.tsx:51-55 | moves the session to AfterLogout and keeps the invariant |
| AppRoutes.ProtectedRouteCases | frontend/src/App.tsx:108-120 | loading shows the spinner; otherwise a signed-out visitor is redirected and a signed-in one sees the page |
| AppRoutes.Lookup | frontend/src/App.tsx:130-148 | a path finds the route declared for it, or none when no route is declared |
| AppRoutes.RouteTable | frontend/src/App.tsx:130-148 | four routes with distinct paths, of which the dashboard and settings are the protected ones |
| AppRoutes.VisitFacts | frontend/src/App.tsx:108-148 | an unprotected page always shows; a protected page shows if and only if the session is signed in and done loading |
| AppRoutes.DashboardThroughTheSession | frontend/src/App.tsx:108-148 | the dashboard waits during start-up, shows after an accepted token and redirects after a rejected one and after logout |
| Header.Lower | frontend/src/components/Header.tsx:31 | `toLowerCase` maps each character, keeping the length |
| Header.ReplaceFirstOnly | frontend/src/components/Header.tsx:31 | `replace(' ', '-')` turns only the first space into a dash |
| Header.TabPathShape | frontend/src/components/Header.tsx:29-32 | any tab but Dashboard goes to its lower-cased name with the first space made a dash |
| Header.NavPaths | frontend/src/components/Header.tsx:31-34 | the Dashboard tab goes to `/` and "AI Advisor" to `/ai-advisor` |
| Header.Avatar | frontend/src/components/Header.tsx:146 | the first letter of a non-empty full name, else the upper-cased first letter of the email, and nothing (the render throws) when both are empty |
| Header.HeaderState.constructor | frontend/src/components/Header.tsx:12-13 | the Dashboard tab is active and the menu closed |
| Header.HeaderState.TabClick | frontend/src/components/Header.tsx:29-32 | the clicked tab becomes active and the bar navigates to its path |
| Header.HeaderState.LogoClick | frontend/src/components/Header.tsx:73 | the logo acts as the Dashboard tab |
| Header.HeaderState.OpenMenu | frontend/src/components/Header.tsx:15-17 | the account menu opens; nothing else changes |
| Header.HeaderState.CloseMenu | frontend/src/components/Header.tsx:19-21 | the account menu closes; nothing else changes |
| Header.HeaderState.Logout | frontend/src/components/Header.tsx:23-27 | the session signs out, the menu closes and the bar navigates to `/login` |
| Theme.ThemesDistinct | frontend/src/contexts/ThemeContext.tsx:16-20 | three menu entries with distinct values, the default first |
| Theme.InitialTheme | frontend/src/contexts/ThemeContext.tsx:23-27 | the stored theme when it is non-empty, the default otherwise |
| Theme.CurrentLabel | frontend/src/components/common/ThemeSwitcher.tsx:9 | a label exists exactly for a theme on the menu, and it is that entry's label |
| Theme.UncheckedStoredTheme | frontend/src/contexts/ThemeContext.tsx:23-27 | a stored value outside the menu is used all the same, and the switcher then has no label |
| Theme.UseTheme | frontend/src/contexts/ThemeContext.tsx:47-52 | the hook fails, with its message, exactly outside the provider |
| Theme.ThemeStore.constructor | frontend/src/contexts/ThemeContext.tsx:23-34 | starts from the stored theme and stores it back along with the document attribute |
| Theme.ThemeStore.ApplyTheme | frontend/src/contexts/ThemeContext.tsx:29-34 | sets the document attribute and stores the theme, keeping the theme |
| Theme.ThemeStore.SetTheme | frontend/src/contexts/ThemeContext.tsx:36-38 | the theme changes and its effect stores it; other storage keys are untouched |
| Theme.ThemeSwitcher.constructor | frontend/src/components/common/ThemeSwitcher.tsx:7 | the menu starts closed |
| Theme.ThemeSwitcher.Toggle | frontend/src/components/common/ThemeSwitcher.tsx:14 | the button toggles the menu |
| Theme.ThemeSwitcher.Dismiss | frontend/src/components/common/ThemeSwitcher.tsx:25 | the backdrop closes the menu |
| Theme.ThemeSwitcher.Choose | frontend/src/components/common/ThemeSwitcher.tsx:31-34 | choosing an entry makes it the stored theme, which the switcher then labels, and closes the menu |
| ClientTypes.OrElse | frontend/src/components/Watchlist.tsx:75 | `x \|\| d` on a number: the value when present and non-zero, otherwise the default |
| ClientTypes.JsDivide | frontend/src/components/dashboard/StockCard.tsx:54 | IEEE division: finite for a non-zero divisor, otherwise +∞, −∞ or NaN by the dividend's sign |
| ClientTypes.JsScale | frontend/src/components/dashboard/StockCard.tsx:54 | multiplying by a positive constant keeps infinities and NaN and scales finite values |
| Divergences.GaugesAgree | frontend/src/components/Watchlist.tsx:12-15 | the watchlist's and the card's gauges change colour at the same two scores |
| Divergences.SeventyIsTheOnlyDisagreement | frontend/src/components/dashboard/HoldingDetailDrawer.tsx:16-18 | gauges and drawer agree on every score except 70, top colour on the gauges but "Hold" in the drawer |
| Divergences.DesignColorDiffers | frontend/src/constants/design.ts:124-130 | the design colour scale disagrees with the gauges: 70 is lime, and 30 is amber where both gauges show red |
| Divergences.FlatRange | frontend/src/components/dashboard/StockCard.tsx:53-54 | for a flat range off the price, three bars sit at 50 while the stock card's position is infinite |
| Divergences.TablesReadDifferentRanges | frontend/src/components/HoldingsTable.tsx:72-75 | without a quote the page table shows the middle while the dashboard table places the price in the holding's own range |
| Divergences.OnlyOneTableClamps | frontend/src/components/dashboard/HoldingsTable.tsx:82-83 | above the 52-week high the page table's marker passes 100; the dashboard table's marker stays on its bar |
| Divergences.ZeroReturnShownBothWays | frontend/src/components/HoldingsTable.tsx:222 | a return of exactly zero is a loss in the page table's drawer and positive in the dashboard drawer |

## Left out

- The market service (`backend/app/services/market_service.py`) fetches quotes over the network, with a cache and random fallbacks. It is not part of this model: quotes are a function parameter.
- Database sessions, `commit`, `refresh`, `updated_at` timestamps and row ids are not modelled. A table is a sequence of rows.
- The current user is an integer parameter; the authentication dependency is not part of this model.
- The portfolio endpoints use demo user 1. Their quote attributes (`price`, `week52_low`, `week52_high`, `buy_score`) are an abstract `PortfolioQuote`, since the market schema does not declare them.
- PortfolioApi.StatementValuationSucceeds: holds of the intended valuation against `PortfolioQuote`; the code as written raises on every quoted holding (see Findings).
- PortfolioApi.StatementSummary: holds of the intended valuation against `PortfolioQuote`; as written the summary endpoint raises as well, through `get_portfolio` (see Findings).
- PortfolioApi.SummaryOf: models the dictionary the summary endpoint returns. Its response schema (`backend/app/schemas/portfolio.py:29-33`, used at `backend/app/api/portfolio.py:51`) drops `weekly_change_value`, `weekly_change_percent` and `trend_data`, so the client never receives those three; no client component reads them.
- The summary's six trend draws from `random.uniform(0.01, 0.05)` are a parameter; `TrendShape` assumes each draw lies in that interval.
- Floating point: amounts are exact reals. Rounding error, `toFixed`, `toLocaleString` and `int(weight*100)` are left out.
  - Recommendation reasons are a `Reason` value (the sector or symbol) rather than the formatted sentence with its truncated percentage.
  - Only the stock card's unguarded division is modelled with infinities and NaN.
- π is a positive parameter of the gauge circumference, since it is not a real-number literal.
- `Header.Lower` and the avatar's `toUpperCase` map ASCII letters only. String indexing is by character, not UTF-16 code unit.
- Asynchronous ordering is left out.
  - `getMe` appears as its outcome (a user or a failure), passed to `Auth.AuthSession.InitAuth` and `Login`.
  - A login whose user fetch completes later is modelled as atomic.
- Auth.AuthSession.InitAuth: requires a loading, signed-out session, the state React's mount effect runs in; a start-up racing a login is not modelled.
- React rendering, animation, layout, icons and the purely presentational components are left out. So are the text of the page table's AI guidance (`HoldingsTable.tsx:199`) and its unused `allocation` value (`HoldingsTable.tsx:69`).
- The theme effect is modelled as running after every `SetTheme`, even when the theme is unchanged; React skips the effect then, but its writes would be the same.
- Theme.ThemeStore.SetTheme: accepts any string, as `setTheme` does at run time; the TypeScript `Theme` type is not enforced.
- Header.NavPaths: states the paths of the "Dashboard" and "AI Advisor" tabs only. `Header.TabPathShape` covers every other tab.
- The client's holding record reads fields its shared type does not declare (the 52-week fields and `buy_score`). They are modelled as optional record fields. The server's holding schema (`backend/app/schemas/portfolio.py:15-24`) does not declare them either, so served holdings carry none of them (`Dashboard.ToClient`); the client components are still modelled for holdings that do carry them.
- The stock card is modelled over an abstract `StockCard.Stock` record whose fields (`price`, `change_percent`, `week52_high`, `week52_low`, `buy_score`, `name`, `market_cap`) are all present, as the portfolio valuation is over `PortfolioQuote`. The card's declared input is the client's `StockQuote` type (`frontend/src/types/index.ts:26-40`), which has none of `price`, `change_percent`, `week52_high`, `week52_low`, `buy_score` or `name`. A `StockQuote` as typed is not modelled: on it the card's position would be NaN and formatting the missing price would throw.
- Dashboard.RequestReachesServer: the client puts the joined symbols into the URL without encoding them (`frontend/src/services/api.ts:65`), and the server decodes the query before splitting it. The model treats the joined text as exactly what the server receives, which holds only for symbols without `&`, `#`, `+` or `%`; the lemma requires that, and URL decoding itself is not modelled.
- HoldingDetailDrawer.AboveLowFigure: the exact-value clause is stated for a positive 52-week low only; for a negative low only the zero cases are stated.
- Other endpoints (insights, register, settings), the PDF parsing scripts and `App_backup.tsx` are not part of this model.

## Findings

| source | as written | input that shows it | evidently intended | confidence | as-written member | corrected member |
|---|---|---|---|---|---|---|
| backend/app/api/portfolio.py:25 | reads `quote.price` (and `week52_low`, `week52_high`, `buy_score` at lines 42-44) on a market quote record, which has `current_price` and none of these, so the attribute read raises | any statement entry, since the market service returns a quote for every symbol | value each holding at the quote's current price | not executed | PortfolioApi.StatementFailsAsWritten | PortfolioApi.StatementValuationSucceeds |
