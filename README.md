# Binance Telegram bot: the per-user session model

This project models the session logic of a Telegram bot that trades on,
and charts prices from, the Binance exchange (`bot.py`). The bot keeps one
table, `user_state`, from a Telegram user id to a dict `{"symbol": ...}`.
Two handlers change it:

- pressing a button of the `/stats` menu (callback data `stats_<SYMBOL>`)
  stores the chosen symbol for that user, overwriting whatever was there;
- a plain text message from a user who has a stored symbol is read as a day
  count, daily candles are requested for the symbol with `limit = days`,
  and once the chart photo has been sent the user's entry is deleted.

`/start`, `/buy` and `/stats` answer without looking at the table. `/stats`
filters the exchange's symbols to those ending in `USDT` and lays them out
three buttons to a row.

The modules follow that structure:

- `Text` (text.dfy): prefix/suffix tests, `str.split`, `str.join`, ASCII
  `str.upper`, `int(text)` and `str(n)`.
- `Keyboard` (keyboard.dfy): the USDT filter, the callback data codec and
  the keyboard layout, as a reference function `Rows` and as the loop
  `BuildKeyboard` proved equal to it.
- `Exchange` (exchange.dfy): the three Binance calls and their possible
  answers, and the candle loop `CollectSeries`.
- `Replies` (replies.dfy): the messages sent back.
- `Sessions` (sessions.dfy): `user_state` and the two handlers as pure
  transitions, with the lemmas about when the table changes.
- `Bot` (bot.dfy): the routing table, `start`/`buy`/`stats`, one `Step` of
  the bot for any update, runs of steps with the no-interference theorem,
  and the class `Bot` whose methods update `userState` in place and are
  proved to perform `Step`.

Everything outside the bot is an input: the answers of `get_exchange_info`,
`order_market_buy` and `get_klines` (each possibly a failure), Python's
`float()` on the quantity text (a function parameter), and whether drawing,
saving and sending the chart completed (a boolean). What the bot asks of the
exchange is an output (`Call`), so "no exchange call" is a statement about
that output.

In four places the code behaves differently from what a reader might
expect; the model follows the code:

- `/stats` never creates a session entry; only coin selection does, and it
  does so from any state, including when there is no entry at all.
- A day count that is not an integer is answered with an error reply
  (the `ValueError` is caught at bot.py:124-125); it is not silently ignored.
  The table is unchanged.
- Neither the day count nor the order quantity is checked to be positive:
  `-3` days reaches `get_klines` as `limit = -3` (`EnterDaysNegativeLimit`),
  and a negative quantity reaches `order_market_buy` (`BuyCall`).
- After an empty candle answer, an exchange error or a failed chart the
  entry stays; it is deleted only after the photo was sent.

## Model

| member | source | states |
|---|---|---|
| Text.Split | bot.py:67 | `str.split` always gives at least one piece; `SplitShape`, `JoinSplit` and `SplitJoin` carry the rest of its contract |
| Text.SplitShape | bot.py:67 | `split("_")` yields at least one piece and no piece contains `_` |
| Text.JoinSplit | bot.py:67 | joining the pieces of a split with the separator gives back the string |
| Text.SplitJoin | bot.py:67 | splitting a join of separator-free pieces gives back the pieces |
| Text.ParseInt | bot.py:78 | `int(text)` succeeds exactly on an optional sign followed by at least one digit |
| Text.ParseShowInt | bot.py:78 | parsing the decimal rendering of any integer gives the integer back |
| Text.ToUpper | bot.py:38 | `upper()` keeps the length; `ToUpperProperties` carries the rest of its contract |
| Text.ToUpperProperties | bot.py:38 | `upper()` turns each lower-case letter into the upper-case letter at the same alphabet position, leaves no lower-case letter, changes nothing else, and is idempotent |
| Keyboard.UsdtSymbols | bot.py:48 | the kept symbols all end with `USDT` and are no more than the input |
| Keyboard.UsdtSymbolsAppend | bot.py:48 | the filter distributes over concatenation, so it keeps the original order |
| Keyboard.UsdtSymbolsSingle | bot.py:48 | one symbol is kept exactly when it ends with `USDT` |
| Keyboard.UsdtSymbolsCount | bot.py:48 | every USDT symbol is kept as many times as it occurs; all others are dropped |
| Keyboard.UsdtSymbolsMembers | bot.py:48 | a symbol is in the result iff it is in the input and ends with `USDT` |
| Keyboard.CallbackData | bot.py:53 | the button data starts with `stats_` and the rest is the symbol; `CallbackRoundTrip` is its round trip with `SymbolOf` |
| Keyboard.SymbolOf | bot.py:67 | `split("_")[1]` fails on data without `_`; `SymbolOfDefined`, `SymbolOfCallbackData` and `CallbackRoundTrip` carry the rest of its contract |
| Keyboard.SymbolOfDefined | bot.py:67 | `split("_")[1]` raises no IndexError exactly when the data contains `_` |
| Keyboard.SymbolOfCallbackData | bot.py:53-67 | decoding `stats_<s>` gives `s` up to its first underscore |
| Keyboard.CallbackRoundTrip | bot.py:53-67 | decoding `stats_<s>` gives back `s` iff `s` has no underscore |
| Keyboard.RoutedDataDecodes | bot.py:135 | callback data matching `^stats_` always decodes |
| Keyboard.Rows | bot.py:50-56 | the reference layout has no more rows than symbols; `FlattenRows`, `RowsShape` and `RowsCount` carry the rest of its contract |
| Keyboard.FlattenRows | bot.py:50-56 | the rows, read in order, are one button per filtered symbol, each with data `stats_<symbol>` |
| Keyboard.RowsShape | bot.py:50-56 | every row has 1 to 3 buttons; every row but the last has exactly 3 |
| Keyboard.RowsCount | bot.py:50-56 | there are ceil(n/3) rows, and none for an empty list |
| Keyboard.BuildKeyboard | bot.py:50-56 | the `range(0, len, 3)` loop builds exactly the reference layout `Rows` |
| Exchange.SeriesOf | bot.py:90-98 | the five chart lists have one point per candle, point j taken from candle j's fields |
| Exchange.CollectSeries | bot.py:90-98 | the appending loop builds exactly those five lists |
| Sessions.SelectCoin | bot.py:64-69 | coin selection never calls the exchange, adds no user but the sender, and changes nothing when it sends nothing; `SelectCoinEffect` and `SelectCoinFromButton` carry the rest of its contract |
| Sessions.EnterDays | bot.py:71-125 | day input keeps the table or removes only the sender's entry, and replies exactly when the sender has a symbol; the `EnterDays...` lemmas carry the rest of its contract |
| Sessions.SelectCoinEffect | bot.py:64-69 | a decoded symbol becomes the user's whole entry `{symbol}`, overwriting any old one; no other user changes; no exchange call; bad data changes nothing |
| Sessions.SelectCoinFromButton | bot.py:53-68 | pressing a `stats_<s>` button stores `s` for the user from any state |
| Sessions.EnterDaysWithoutSymbol | bot.py:74-75 | without an entry holding a symbol: no reply, no exchange call, table unchanged |
| Sessions.EnterDaysInvalidNumber | bot.py:78-125 | non-integer day text: one error reply, no candle request, table unchanged |
| Sessions.EnterDaysCall | bot.py:77-84 | candles are requested iff the user has a symbol and the text parses, with the stored symbol, interval `1d` and `limit = days` |
| Sessions.EnterDaysNoData | bot.py:86-88 | an empty candle answer gives the "no data" reply and keeps the entry |
| Sessions.EnterDaysRemoval | bot.py:118-122 | the table stays or loses exactly this user's entry; it is lost iff candles came and the photo was sent, and then the reply is the chart |
| Sessions.EnterDaysFailureReplies | bot.py:80-125 | for a user with a symbol and a valid number: an exchange failure gives the exchange-error reply, a chart that cannot be built or sent gives the chart-failure reply, the entry is kept in both cases, and every such input gets a reply |
| Sessions.EnterDaysNegativeLimit | bot.py:78-84 | no positivity check: `-3` is sent as `limit = -3` |
| Sessions.EnterDaysFiveDays | bot.py:78-122 | `5` with five candles and a sent photo: one chart reply with five points, entry removed |
| Sessions.WellFormedPreserved | bot.py:68 | both handlers keep every entry holding a `symbol` key |
| Sessions.HandlersLocal | bot.py:64-122 | each handler's effect for a user depends only on that user's entry |
| Bot.RouteOf | bot.py:132-136 | plain text goes to day input, callbacks are routed iff their data starts with `stats_`, and commands iff they are `start`, `buy` or `stats` |
| Bot.CallbackRouting | bot.py:135 | callbacks reach coin selection iff their data starts with `stats_`, and then a symbol is always stored |
| Bot.Buy | bot.py:36-43 | `buy` always replies, and its only possible exchange call is a market buy; `BuyCall` carries the rest of its contract |
| Bot.BuyCall | bot.py:36-43 | an order is placed iff there are at least two arguments and the quantity converts, with the upper-cased symbol and that quantity; otherwise an error reply |
| Bot.StatsEffect | bot.py:45-62 | `stats` always calls `get_exchange_info` and always replies, with a menu exactly when the exchange answered; `StatsMenu` carries the rest of its contract |
| Bot.StatsMenu | bot.py:45-59 | the `/stats` menu is one button per USDT symbol in order, rows of 1-3, all full but the last, ceil(n/3) rows |
| Bot.Stats | bot.py:45-62 | `stats` with its loop gives the reference menu, or the exchange's error |
| Bot.Step | bot.py:64-136 | one update adds no user but its sender, and an unrouted update does nothing; `StepFrame`, `StepLocal`, `StepWellFormed` and `Isolation` carry the rest of its contract |
| Bot.SessionFreeHandlers | bot.py:28-62 | `start`, `buy` and `stats` leave the table unchanged and do not depend on it |
| Bot.EntryCreatedOnlyBySelection | bot.py:132-136 | only coin selection creates an entry; `/stats` never does |
| Bot.StepFrame | bot.py:64-136 | one update changes no entry but its sender's |
| Bot.StepLocal | bot.py:64-136 | what one update does for its sender depends only on the sender's entry |
| Bot.StepWellFormed | bot.py:68 | every update keeps every entry holding a symbol |
| Bot.RunWellFormed | bot.py:68 | any run of updates keeps every entry holding a symbol |
| Bot.Isolation | bot.py:64-136 | in any interleaving, a user's final entry, replies and exchange calls equal those of handling only that user's updates |
| Bot.Bot.constructor | bot.py:26 | the table starts empty |
| Bot.Bot.HandleCoinSelection | bot.py:64-69 | updates `userState` in place exactly as `SelectCoin` |
| Bot.Bot.HandleDayInput | bot.py:71-125 | updates `userState` in place exactly as `EnterDays`; the table stays or loses only this user |
| Bot.Bot.HandleUpdate | bot.py:132-136 | routes the update and performs exactly `Step` |

## Left out

- Telegram transport: `Update` objects, `reply_text`/`reply_photo`, `query.answer()`, `ApplicationBuilder` and polling. Updates are a datatype and replies are values; a reply is assumed to go out unless stated.
- Command parsing by the platform: the command name and its arguments arrive already split; the `@botname` suffix and case handling of command names are the platform's.
- Binance client calls (`get_exchange_info`, `order_market_buy`, `get_klines`): foreign, so their answers are inputs, each with a failure case.
- Float conversions: `float(context.args[1])` is a function parameter; `float(k[1..4])` is not performed, and prices stay as the exchange's decimal strings.
- Timestamp formatting (`datetime.fromtimestamp(...).strftime`): the chart's x values are the raw candle open times.
- Chart rendering, candle conversion and file I/O (`float(k[1..4])` and `datetime.fromtimestamp` in the candle loop, matplotlib, `savefig`, reopening the PNG): whether all of these and `reply_photo` complete without raising is one boolean input, since any of them raising ends the same way (one error reply, entry kept). The chart reply carries the symbol, the day count and the five lists instead of image bytes.
- Text.ParseInt: stricter than Python's `int()`, which also accepts surrounding whitespace, underscores between digits and non-ASCII digits.
- Text.ToUpperProperties: Python's `str.upper` is Unicode-aware; only ASCII letters are modelled.
- Environment and configuration loading (bot.py:14-22) and logging.
- The async event loop and concurrency: handlers run one at a time. Interleaving of whole updates is covered by `Bot.Isolation`; an update suspended mid-handler at an `await` while another runs is not.
- The exception text that the error reply shows (`{e}`): replaced by a failure kind carrying the relevant input or message.
