# CryptoAlgoTradingBot core, modelled in Dafny

This project models the core of a small crypto trading bot for the Kraken exchange and proves
properties of the model:

- **The backtest replay** (`Source/Bot.py`, `backtest`). The loop walks a strategy's data frame
  bar by bar:
  - it opens a position on a buy signal while flat;
  - it closes the position on a sell signal while long, or whenever the bar's low falls below
    the bar's stoploss column;
  - it charges the fee rate on both sides;
  - it keeps running counters (wins, losses, amounts gained and lost, best and worst
    performer, cumulative profit and percent, stoploss hits);
  - it stops early once the capital is under $10 with no open position;
  - it then prints a summary, or "No Trades Made".

  The loop is modelled twice, and the two are proved equal:
  - `Bot.Replay` / `Bot.Backtest` are imperative methods on the source's own locals;
  - `BotModel` holds the functional specification (`Step`, `RunFrom`, `Summarize`,
    `BacktestSpec`).

  `TradeStats` defines the aggregates over the ledger of closed trades. `BotProperties`
  proves what the replay guarantees.
- **The helpers** (`Helper/Utilities.py`): the time-unit conversion table and
  `convert_time_from_str`, and `list_to_string`.
- **The endpoint builders** (`API/Endpoints.py`): the public and private URL builders over the
  API domain and path prefixes.
- **The request logic of the REST client** (`API/KrakenRequests.py`):
  - the success rule for responses and the `(success, body)` reply of GET and POST requests;
  - the path that is signed;
  - the file-save branch of POST requests;
  - `get_pair_from_result`;
  - the order-book count clamp;
  - the payloads of `get_closed_orders` and `add_order`.

Amounts are exact `real`s. The source divides by zero in three places:
- an entry on a bar whose close is 0 (Bot.py:63);
- the exit branch taken with a zero stake (Bot.py:75; this happens on a flat bar whose low
  is under its stoploss, because the stoploss test does not check for an open position);
- the final percentage with a zero starting capital (Bot.py:112).

The model stops with a `BacktestError` in each of these cases. All three divide numpy
scalars: the close and the stoploss come from the data frame, and after any exit the capital
holds the proceeds computed from them. So the source produces `inf`/`nan` with a warning rather
than an exception, and goes on with non-finite numbers. The model reports the error instead.
- The first two report the bar they happen on.
- The last one is unreachable in the model (`SummaryTheorem`). A replay that starts with no
  capital stakes nothing, so its first exit already stops it with a zero stake, before any
  trade is closed.

The model follows the code:
- The stoploss tested on each bar is that bar's own `stoploss` column, not a level fixed at
  entry.
- On a bar that opens a position, the buy branch wins, so that bar's stoploss is not examined.
- The reported "Total" is wins + losses.
- `rejected_signals` is never incremented, so it is always 0.
- No argument is validated.

## Model

| member | source | states |
|---|---|---|
| Utilities.TableFactor | Helper/Utilities.py:10-15 | every factor of the conversion table is positive, and it is 1 exactly on the diagonal |
| Utilities.MinutesIn | Helper/Utilities.py:10-15 | the reference unit lengths 1, 60, 1440, 10080 are the table's column for minutes, so each is at least one minute |
| Utilities.TableIsRatioOfLengths | Helper/Utilities.py:10-15 | each entry of the conversion table is the ratio of the two units' lengths in minutes |
| Utilities.TableDiagonal | Helper/Utilities.py:10-15 | converting a unit to itself multiplies by 1 |
| Utilities.TableReciprocal | Helper/Utilities.py:10-15 | the factors from a to b and from b to a multiply to 1 |
| Utilities.TableComposes | Helper/Utilities.py:10-15 | converting a to b then b to c is the same as converting a to c |
| Utilities.LowerChar | Helper/Utilities.py:36-37 | ASCII lower-casing: A-Z go to a-z and every other character is unchanged (no non-ASCII character lowers to a table key, so unit lookups agree with `lower()`) |
| Utilities.Lower | Helper/Utilities.py:36-37 | lower-casing keeps the length and lower-cases each character in place |
| Utilities.UnitForKey | Helper/Utilities.py:40 | a key finds a unit exactly when it is that unit's one-letter table key |
| Utilities.UnitNamedIsCaseInsensitive | Helper/Utilities.py:36-37 | a unit spelling is accepted exactly when it is the unit's letter in lower or upper case |
| Utilities.ConvertTimeFromStr | Helper/Utilities.py:18-41 | fails exactly on an empty time, an unparsable number or an unknown source unit; gives -1 for an unknown target unit; otherwise the number times the table factor |
| Utilities.SameUnitIsIdentity | Helper/Utilities.py:36-41 | converting to the unit the time already has returns the number unchanged |
| Utilities.ConversionRoundTrip | Helper/Utilities.py:18-41 | for any time string in unit u and any spelling of v, converting to v and then converting a v-time with that number back to any spelling of u returns the original number |
| Utilities.ListToString | Helper/Utilities.py:57-77 | a list comes back joined with the delimiter; any other object comes back as is |
| Utilities.Join | Helper/Utilities.py:75 | the joined string has the length of all elements plus n - 1 delimiters; an empty list joins to "" |
| Utilities.JoinStartsWithFirst | Helper/Utilities.py:75 | the joined string starts with the first element, followed by the delimiter when more elements follow |
| Utilities.Split | Helper/Utilities.py:75 | splitting on a character yields at least one piece, none containing that character |
| Utilities.SplitPeelsPiece | Helper/Utilities.py:75 | a separator-free piece before a separator splits off as the first piece |
| Utilities.SplitWithoutSeparator | Helper/Utilities.py:75 | a string without the separator splits into itself alone |
| Utilities.SplitAfterJoin | Helper/Utilities.py:74-75 | joining separator-free elements with a one-character delimiter and splitting again recovers the list |
| Utilities.JoinAfterSplit | Helper/Utilities.py:74-75 | splitting on a character and joining with it again recovers the string |
| Endpoints.PublicEndpoint | API/Endpoints.py:44-59 | the URL is the API domain, then the public prefix, then the endpoint, with the length of the three |
| Endpoints.PrivateEndpoint | API/Endpoints.py:62-77 | the URL is the API domain, then the private prefix, then the endpoint, with the length of the three |
| Endpoints.PublicEndpointRoundTrip | API/Endpoints.py:44-59 | stripping the public prefix from a built URL recovers the endpoint |
| Endpoints.PrivateEndpointRoundTrip | API/Endpoints.py:62-77 | stripping the private prefix from a built URL recovers the endpoint |
| Endpoints.BuildersAreInjective | API/Endpoints.py:44-77 | different endpoints give different URLs, for both builders |
| Endpoints.PublicAndPrivateNeverCollide | API/Endpoints.py:5-20 | no public URL equals a private URL, and neither parses as the other kind |
| KrakenRequests.Decide | API/KrakenRequests.py:63-70 | success iff the status is 200 and the error list is empty; success carries the result, failure the error list |
| KrakenRequests.FailureHasReason | API/KrakenRequests.py:65-70 | a failed reply has a non-200 status or a non-empty error list; a successful one carries the result |
| KrakenRequests.GetRequest | API/KrakenRequests.py:42-70 | the GET goes to the public endpoint URL and returns the success rule's reply |
| KrakenRequests.SignedPath | API/KrakenRequests.py:99-104 | the signed path is the private endpoint URL without the API domain |
| KrakenRequests.PostRequest | API/KrakenRequests.py:73-127 | raises exactly when asked to save a file without a name; a saved file reports success; otherwise the success rule |
| KrakenRequests.LastPairKey | API/KrakenRequests.py:150-154 | the key the walk keeps is one of the result's keys and is not "last" |
| KrakenRequests.LastPairKeyIsPairKey | API/KrakenRequests.py:150-154 | the pair found is one of the keys and not "last"; none is found iff every key is "last" |
| KrakenRequests.PairFoundInEitherOrder | API/KrakenRequests.py:130-154 | for the {pair, "last"} result the pair is found whichever order the keys come in |
| KrakenRequests.GetPairFromResult | API/KrakenRequests.py:150-154 | the loop returns the last key other than "last" (None if there is none) |
| KrakenRequests.ClampCount | API/KrakenRequests.py:355-356 | the count sent lies in [1, 500], and a count already in range is sent unchanged |
| KrakenRequests.ClampCountProperties | API/KrakenRequests.py:355-356 | the clamped count lies in [1, 500], in-range counts are kept, out-of-range ones go to the nearer bound, and clamping is idempotent |
| KrakenRequests.OrderBookPayload | API/KrakenRequests.py:355-361 | the order-book payload holds exactly the pair and the clamped count |
| KrakenRequests.PutIfGiven | API/KrakenRequests.py:537-540 | `if arg is not None: payload[key] = arg` inserts the key only when the argument is given |
| KrakenRequests.Put | API/KrakenRequests.py:537-540 | after `if arg is not None: payload[key] = arg`, the key holds the argument when it is given and its old value otherwise |
| KrakenRequests.PutAt | API/KrakenRequests.py:537-540 | a conditional insertion changes the lookup of its own key only, and only when the argument is given |
| KrakenRequests.ClosedOrdersKeys | API/KrakenRequests.py:531-540 | the closed-orders payload always has nonce, trades and closetime; userref, start, end and offset exactly when given; the offset under "ofs"; nothing else |
| KrakenRequests.OffsetTravelsAsOfs | API/KrakenRequests.py:540 | the offset is sent under the wire name "ofs", and no field is sent as "offset" |
| KrakenRequests.ClosedOrdersBuildIsSpec | API/KrakenRequests.py:531-540 | the step-by-step insertions build exactly the specified closed-orders payload |
| KrakenRequests.ClosedOrdersPayload | API/KrakenRequests.py:531-540 | the method builds the specified closed-orders payload |
| KrakenRequests.AddOrderKnownKeys | API/KrakenRequests.py:940-962 | the add-order payload holds only the required and optional keys, and never "trigger" |
| KrakenRequests.AddOrderRequiredSent | API/KrakenRequests.py:940-948 | nonce, pair, type, ordertype, volume, timeinforce and validate are always sent, with the argument's value |
| KrakenRequests.AddOrderOptionalSentIffGiven | API/KrakenRequests.py:952-962 | each optional key (price … userref, close order fields under "close[...]") is sent exactly when its argument is given, with its value |
| KrakenRequests.AddOrderBuildAt | API/KrakenRequests.py:940-962 | looking any field up in the assembled add-order payload gives what the field table says |
| KrakenRequests.AddOrderBuildIsSpec | API/KrakenRequests.py:940-962 | the assembly of the add-order payload, insertion by insertion, is exactly the specified payload |
| KrakenRequests.AddOrderPayload | API/KrakenRequests.py:940-962 | the method builds the specified add-order payload |
| BotModel.Enter | Source/Bot.py:58-64 | the entry opens a position on this bar, moves the stake out of the capital (capital + stake is unchanged), buys coins worth the stake at the close, and books no trade |
| BotModel.ClosingTrade | Source/Bot.py:65-75 | the trade closes on this bar, at the stoploss when it was hit and at the close otherwise; profit = net proceeds - stake, and percent × stake = profit × 100 |
| BotModel.Exit | Source/Bot.py:76-99 | the exit counts one more trade as exactly one win or loss, leaves the position flat, keeps gained + lost - cumulative profit and capital + stake - cumulative profit unchanged, only raises the best and lowers the worst performer, and never rejects a signal |
| BotModel.Step | Source/Bot.py:54-99 | a bar fails exactly when it divides by zero: a buy while flat on a close of 0, or the exit branch (not an entry, and a sell while long or a stoploss hit) with a zero stake, reported with that bar's timestamp; afterwards a position is open iff it stayed open with no exit or a flat bar signalled a buy; the trade count grows by the number of trades the bar closed |
| BotModel.RunFrom | Source/Bot.py:54-107 | the loop's trade count grows by the length of the ledger of closed trades, and at most one trade closes per processed bar, with no more bars processed than given |
| BotModel.Summarize | Source/Bot.py:109-129 | "No Trades Made" iff no trade was made; fails only on the division by a zero capital after a trade; otherwise Total = wins + losses, the balance folds the open stake back in, and the absolute profit is the balance less the starting capital |
| BotModel.BacktestSpec | Source/Bot.py:25-129 | a failing replay fails the backtest with its error; a successful backtest reports "No Trades Made" iff the replay made no trade |
| TradeStats.WinsAndLossesPartition | Source/Bot.py:81-94 | every closed trade is counted as exactly one of a win or a loss |
| TradeStats.GainedAndLostPartition | Source/Bot.py:81-94 | amount gained + amount lost = total profit, with gained >= 0 and lost <= 0 |
| TradeStats.BestIsMaximum | Source/Bot.py:85-87 | the best performer is the maximum winning profit and the timestamp of the earliest trade reaching it (every earlier winner is strictly lower), or (0, None) exactly when no trade won |
| TradeStats.WorstIsMinimum | Source/Bot.py:92-94 | the worst performer is the minimum losing profit and the timestamp of the earliest trade reaching it (every earlier loser is strictly higher), or (0, None) exactly when no trade lost money |
| TradeStats.BreakEvenLeavesWorst | Source/Bot.py:81-94 | a break-even trade counts as a loss but does not change the worst performer |
| BotProperties.EntryRule | Source/Bot.py:58-64 | a position opens iff the bar signals a buy while flat; stake = fraction of capital less its fee; coins × close = stake; capital drops by the stake |
| BotProperties.ExitRule | Source/Bot.py:65-99 | a trade closes iff the bar is not an entry and (sell while long or stoploss hit); the price, net proceeds, profit, percent, capital, win/loss count and flat reset are as in the exit branch |
| BotProperties.StoplossWinsOverSell | Source/Bot.py:66-69 | on a sell bar that also hits the stoploss, the exit is at the stoploss price |
| BotProperties.EntryBarIgnoresStoploss | Source/Bot.py:58-65 | on a bar that opens a position, the low and stoploss columns change nothing |
| BotProperties.NoOpBars | Source/Bot.py:58-65 | a buy while long or a sell while flat with no stoploss hit leaves the state unchanged |
| BotProperties.InitialBooks | Source/Bot.py:27-49 | the initial locals are the books of an empty ledger, flat with the full capital |
| BotProperties.StepKeepsBooks | Source/Bot.py:54-99 | one bar keeps every counter equal to its aggregate over the closed trades, and keeps capital + stake = starting capital + cumulative profit |
| BotProperties.RunKeepsBooks | Source/Bot.py:54-107 | the whole loop keeps the books |
| BotProperties.BacktestBooks | Source/Bot.py:25-107 | after the replay, wins + losses = trades, gained + lost = cumulative profit, and capital + open stake = starting capital + cumulative profit |
| BotProperties.FlatStoplossHitFails | Source/Bot.py:56-75 | a flat bar that hits its stoploss without a buy takes the exit branch and divides by the zero stake |
| BotProperties.StopIsCapitalFloor | Source/Bot.py:101-103 | the loop stops early exactly when a processed bar leaves the capital under $10 with no position: a stopped run ends in that state, a run ending in that state after a bar has stopped, and an unstopped run processes every bar |
| BotProperties.StopAtFloor | Source/Bot.py:101-103 | when replaying the first k bars leaves the capital under $10 with no position, the replay of the whole series is the replay of those k bars: later bars are never looked at |
| BotProperties.StopIgnoresLaterBars | Source/Bot.py:101-103 | after the early stop, later bars change nothing |
| BotProperties.IdleRunMakesNoTrades | Source/Bot.py:58-99 | a replay with no capital and no stake never closes a trade |
| BotProperties.SummaryTheorem | Source/Bot.py:109-129 | the summary never fails after a successful replay; it is "No Trades Made" iff no trade closed; otherwise every reported figure is the matching aggregate of the closed trades, with balance = capital + total profit |
| BotProperties.NoBuyRunStaysFlat | Source/Bot.py:58-99 | without buy signals the replay never trades; it can only fail on a flat stoploss hit |
| BotProperties.NoBuyNoTrades | Source/Bot.py:109-129 | without buy signals the backtest reports "No Trades Made" or the flat stoploss division by zero, and it reports the former when no stoploss is hit |
| BotProperties.EnterKeepsNonNegative | Source/Bot.py:58-64 | with a fraction and fee rate in [0, 1], an entry keeps capital, stake and coins non-negative |
| BotProperties.ExitKeepsNonNegative | Source/Bot.py:65-99 | with non-negative prices, the net proceeds and the capital after an exit are non-negative |
| BotProperties.StepKeepsNonNegative | Source/Bot.py:54-99 | one bar keeps capital, stake and coins non-negative |
| BotProperties.CapitalNeverNegative | Source/Bot.py:54-107 | the whole replay keeps capital, stake and coins non-negative |
| BotProperties.StoplossScenario | Source/Bot.py:11-129 | with the defaults, a buy at 100 followed by a bar under its stoploss of 90 closes one losing trade (-918.665244, -10.234 %) and reports a balance of 9081.334756 |
| Bot.FinalStateStep | Source/Bot.py:54-103 | one loop iteration: an error ends the replay, the capital floor ends it with that state, otherwise it continues on the remaining bars |
| Bot.Replay | Source/Bot.py:25-107 | the loop over the bars, on the source's own locals, ends in exactly the state (or division by zero) of the functional replay |
| Bot.Backtest | Source/Bot.py:25-129 | the whole backtest (loop and summary) returns exactly `BacktestSpec` of the bars and parameters |

## Left out

- Strategy loading and running (`importlib`, `strategy.run`, Bot.py:17-22) and the pandas data
  frame. The bars are given as a sequence of (timestamp, close, low, signal, stoploss) rows in
  index order.
- Bot.Replay: the bars are taken to carry distinct timestamps. When the index repeats a
  timestamp, `df.loc[timestamp]` at Bot.py:55 returns several rows, and the test at Bot.py:58
  raises because the truth value of a Series is ambiguous. The model instead replays each bar
  as its own step.
- The printed report text. The summary is the record of values it prints, without the `:.2f`
  rounding and without the `output` list or `print`.
- `run` (Bot.py:3-9) only prints a message.
- The assignment `row = df.loc[last_buy_timestamp]` at Bot.py:106-107 is never read before
  being overwritten, so it has no effect and is not modelled.
- Bot.Replay: floating-point rounding is not modelled, because amounts are exact reals. The
  numpy `inf`/`nan` produced by a zero close or a zero stake is reported as a
  `BacktestError` instead of being propagated.
- HTTP: requests, responses, `response.json()` and writing the response file. A response is
  given as its status code, error list and result.
- `get_kraken_signature` (HMAC-SHA512 over the nonce and the payload). Only the path that is
  signed is modelled.
- `generate_nonce` (Utilities.py:44-54) reads the clock. The nonce is a parameter of the
  payload builders.
- Utilities.TableFactor / Utilities.ConvertTimeFromStr: the table entries are exact reals. In
  the source, 1/60, 1/24, 1/1440 and the like are binary floats. So `TableReciprocal`,
  `TableComposes`, `SameUnitIsIdentity` and `ConversionRoundTrip` hold for the program only up
  to floating-point rounding.
- Utilities.ConvertTimeFromStr: `float()` parsing of the number part is an input (`parsed`,
  None when `float` raises). Lower-casing covers ASCII letters only.
- Utilities.ListToString: `str()` of the list elements is not modelled; a list is given by the
  strings of its elements.
- Utilities.SplitAfterJoin: the join/split round trip is stated for a one-character
  delimiter. With a longer delimiter, elements can overlap delimiter boundaries and the round
  trip does not hold in general.
- The other `KrakenRequests` methods only forward their arguments to `get_request` or
  `post_request`, or index into the reply (`result[...]`); their payloads are not modelled.
  `get_order_book`'s indexing of the reply is covered by `GetPairFromResult`.
- `add_order`'s `trigger` argument is accepted but never sent (its insertion at
  API/KrakenRequests.py:951 is commented out); the model proves it is never sent.
- The user interface, `Main.py`, the strategies and the live-trading entry points are not part
  of this model.
