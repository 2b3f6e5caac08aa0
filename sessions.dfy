/** The per-user session table `user_state` and the two handlers that
    change it, as pure transitions: coin selection (bot.py:64-69) and day
    input (bot.py:71-125). The class in module Bot performs the same
    transitions in place. */
module Sessions {

  import opened Options
  import opened Text
  import opened Keyboard
  import opened Exchange
  import opened Replies

  /** Telegram user ids are integers. */
  type UserId = int

  /** One session entry, the dict `{"symbol": ...}`. */
  type Entry = map<string, string>

  /** `user_state`: user id to entry. */
  type SessionMap = map<UserId, Entry>

  const SymbolKey := "symbol"

  /** What one handler invocation does: the new table, the reply sent (if
      any) and the exchange call made (if any). */
  datatype Transition = Transition(state: SessionMap, reply: Option<Reply>, call: Option<Call>)

  function Get(m: SessionMap, user: UserId): Option<Entry>
  {
    if user in m then Some(m[user]) else None
  }

  /** The guard of bot.py:74, negated: the user has an entry with a symbol. */
  predicate HasSymbol(m: SessionMap, user: UserId)
  {
    user in m && SymbolKey in m[user]
  }

  /** Every entry carries a symbol; the handlers create no other kind. */
  predicate WellFormed(m: SessionMap)
  {
    forall u :: u in m ==> SymbolKey in m[u]
  }

  /** handle_coin_selection: decode the symbol from the callback data and
      store `{"symbol": symbol}` for the user, whatever was there before. */
  function SelectCoin(m: SessionMap, user: UserId, data: string): (t: Transition)
    ensures t.call.None?
    ensures t.state.Keys <= m.Keys + {user}
    ensures t.reply.None? ==> t.state == m
  {
    match SymbolOf(data)
    case None => Transition(m, None, None)
    case Some(symbol) => Transition(m[user := map[SymbolKey := symbol]], Some(DayPrompt(symbol)), None)
  }

  /** handle_day_input. `klines` is what `get_klines` answers if it is
      called; `delivered` says whether everything after a non-empty candle
      answer completed without raising: the `float(...)` conversions and
      `datetime.fromtimestamp(...)` in the candle loop, drawing the chart,
      saving and reopening the PNG, and `reply_photo`. Any of these raising
      ends in the same place: one error reply, and the entry kept. */
  function EnterDays(m: SessionMap, user: UserId, text: string, klines: KlinesResult, delivered: bool): (t: Transition)
    ensures t.state == m || t.state == m - {user}
    ensures t.reply.None? <==> !HasSymbol(m, user)
  {
    if !HasSymbol(m, user) then Transition(m, None, None)
    else
      var symbol := m[user][SymbolKey];
      match ParseInt(text)
      case None => Transition(m, Some(Error(InvalidDayCount(text))), None)
      case Some(days) =>
        var call := Some(GetKlines(symbol, DailyInterval, days));
        match klines
        case KlinesFailed(message) => Transition(m, Some(Error(ExchangeError(message))), call)
        case Candles(rows) =>
          if |rows| == 0 then Transition(m, Some(NoData), call)
          else if !delivered then Transition(m, Some(Error(ChartNotDelivered)), call)
          else Transition(m - {user}, Some(Chart(symbol, days, SeriesOf(rows))), call)
  }

  // ---------------------------------------------------------------------
  // Coin selection
  // ---------------------------------------------------------------------

  /** A decoded symbol becomes the user's whole entry, overwriting any
      previous one; no other user's entry changes and the exchange is not
      called. Undecodable data changes nothing and sends nothing. */
  lemma SelectCoinEffect(m: SessionMap, user: UserId, data: string)
    ensures var t := SelectCoin(m, user, data);
      && t.call == None
      && (SymbolOf(data).None? ==> t == Transition(m, None, None))
      && (SymbolOf(data).Some? ==>
            && t.state.Keys == m.Keys + {user}
            && t.state[user] == map[SymbolKey := SymbolOf(data).value]
            && t.reply == Some(DayPrompt(SymbolOf(data).value)))
      && forall v :: v != user ==> Get(t.state, v) == Get(m, v)
  {
  }

  /** Pressing a `stats_` button always records the button's symbol
      (when it has no underscore), from any state, including one with no entry. */
  lemma SelectCoinFromButton(m: SessionMap, user: UserId, symbol: string)
    requires Separator !in symbol
    ensures SelectCoin(m, user, CallbackData(symbol)).state == m[user := map[SymbolKey := symbol]]
    ensures HasSymbol(SelectCoin(m, user, CallbackData(symbol)).state, user)
  {
    CallbackRoundTrip(symbol);
  }

  // ---------------------------------------------------------------------
  // Day input
  // ---------------------------------------------------------------------

  /** Without an entry holding a symbol nothing happens at all. */
  lemma EnterDaysWithoutSymbol(m: SessionMap, user: UserId, text: string, klines: KlinesResult, delivered: bool)
    requires !HasSymbol(m, user)
    ensures EnterDays(m, user, text, klines, delivered) == Transition(m, None, None)
  {
  }

  /** Day text that is not an integer is answered with one error reply;
      the exchange is not called and the table is unchanged. */
  lemma EnterDaysInvalidNumber(m: SessionMap, user: UserId, text: string, klines: KlinesResult, delivered: bool)
    requires HasSymbol(m, user)
    requires !IsDecimal(text)
    ensures EnterDays(m, user, text, klines, delivered) == Transition(m, Some(Error(InvalidDayCount(text))), None)
  {
  }

  /** The exchange is called exactly when the user has a symbol and the
      text parses, and then with the stored symbol, the daily interval and
      `limit = days`. */
  lemma EnterDaysCall(m: SessionMap, user: UserId, text: string, klines: KlinesResult, delivered: bool)
    ensures var t := EnterDays(m, user, text, klines, delivered);
      && (t.call.Some? <==> HasSymbol(m, user) && IsDecimal(text))
      && (t.call.Some? ==> t.call == Some(GetKlines(m[user][SymbolKey], DailyInterval, ParseInt(text).value)))
  {
  }

  /** No candles: the "no data" reply, and the entry is kept. */
  lemma EnterDaysNoData(m: SessionMap, user: UserId, text: string, delivered: bool)
    requires HasSymbol(m, user) && IsDecimal(text)
    ensures EnterDays(m, user, text, Candles([]), delivered).state == m
    ensures EnterDays(m, user, text, Candles([]), delivered).reply == Some(NoData)
  {
  }

  /** The table either stays as it was or loses exactly this user's entry,
      and the entry goes exactly when there were candles and the chart was
      delivered; then the reply is that chart. */
  lemma EnterDaysRemoval(m: SessionMap, user: UserId, text: string, klines: KlinesResult, delivered: bool)
    ensures var t := EnterDays(m, user, text, klines, delivered);
      && (t.state == m || t.state == m - {user})
      && (user !in t.state <==> user !in m || (HasSymbol(m, user) && IsDecimal(text) && klines.Candles? && |klines.klines| > 0 && delivered))
      && (HasSymbol(m, user) && user !in t.state ==>
            t.reply == Some(Chart(m[user][SymbolKey], ParseInt(text).value, SeriesOf(klines.klines))))
      && forall v :: v != user ==> Get(t.state, v) == Get(m, v)
  {
  }

  /** Every failure after the candle request is caught and answered with
      one error reply: the exchange's error, or the failure to draw and send
      the chart. Every day input from a user with a symbol is answered. */
  lemma EnterDaysFailureReplies(m: SessionMap, user: UserId, text: string, klines: KlinesResult, delivered: bool)
    requires HasSymbol(m, user) && IsDecimal(text)
    ensures var t := EnterDays(m, user, text, klines, delivered);
      && (klines.KlinesFailed? ==> t.reply == Some(Error(ExchangeError(klines.message))) && t.state == m)
      && (klines.Candles? && |klines.klines| > 0 && !delivered ==> t.reply == Some(Error(ChartNotDelivered)) && t.state == m)
      && t.reply.Some?
  {
  }

  /** The day count is not checked to be positive: "-3" reaches the
      exchange as `limit = -3`. */
  lemma EnterDaysNegativeLimit(m: SessionMap, user: UserId, klines: KlinesResult, delivered: bool)
    requires HasSymbol(m, user)
    ensures EnterDays(m, user, "-3", klines, delivered).call == Some(GetKlines(m[user][SymbolKey], DailyInterval, -3))
  {
    assert "-3"[1..] == "3";
    assert "3"[..0] == "";
  }

  /** "5" with five candles and a delivered chart: one photo reply, and the
      session is gone. */
  lemma EnterDaysFiveDays(m: SessionMap, user: UserId, rows: seq<Kline>)
    requires HasSymbol(m, user) && |rows| == 5
    ensures var t := EnterDays(m, user, "5", Candles(rows), true);
      && t.reply == Some(Chart(m[user][SymbolKey], 5, SeriesOf(rows)))
      && |SeriesOf(rows).times| == 5
      && user !in t.state
  {
    assert "5"[..0] == "";
  }

  // ---------------------------------------------------------------------
  // Invariant and locality
  // ---------------------------------------------------------------------

  /** Both handlers keep every entry holding a symbol. */
  lemma WellFormedPreserved(m: SessionMap, user: UserId, data: string, text: string, klines: KlinesResult, delivered: bool)
    requires WellFormed(m)
    ensures WellFormed(SelectCoin(m, user, data).state)
    ensures WellFormed(EnterDays(m, user, text, klines, delivered).state)
  {
  }

  /** What each handler does for a user depends only on that user's entry. */
  lemma HandlersLocal(m: SessionMap, m': SessionMap, user: UserId, data: string, text: string, klines: KlinesResult, delivered: bool)
    requires Get(m, user) == Get(m', user)
    ensures var t, t' := SelectCoin(m, user, data), SelectCoin(m', user, data);
      Get(t.state, user) == Get(t'.state, user) && t.reply == t'.reply && t.call == t'.call
    ensures var t, t' := EnterDays(m, user, text, klines, delivered), EnterDays(m', user, text, klines, delivered);
      Get(t.state, user) == Get(t'.state, user) && t.reply == t'.reply && t.call == t'.call
  {
  }

}
