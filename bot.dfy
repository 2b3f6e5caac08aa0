/** The bot as a whole: the routing table of `main` (bot.py:132-136), the
    three handlers that never touch the session table (`start`, `buy`,
    `stats`, bot.py:28-62), one step of the bot for any update, runs of
    many steps, and the object holding `user_state` whose handlers update
    it in place. */
module Bot {

  import opened Options
  import opened Text
  import opened Keyboard
  import opened Exchange
  import opened Replies
  import opened Sessions

  /** An update as the transport delivers it: a command with its
      whitespace-separated arguments, a plain text message, or the data of a
      pressed inline button. */
  datatype UpdateKind =
    | CommandMessage(command: string, args: seq<string>)
    | TextMessage(text: string)
    | CallbackQuery(data: string)

  datatype Update = Update(user: UserId, kind: UpdateKind)

  /** The answers of everything outside the bot that one update may consult:
      the exchange's three calls, Python's `float()` on the quantity text,
      and whether the chart was drawn and sent without raising. */
  datatype Environment = Environment(
    exchangeInfo: SymbolsResult,
    parseFloat: string -> Option<real>,
    order: OrderResult,
    klines: KlinesResult,
    delivered: bool)

  datatype Input = Input(update: Update, env: Environment)

  /** The reply and the exchange call of a handler that has no session effect. */
  datatype Effect = Effect(reply: Option<Reply>, call: Option<Call>)

  datatype Handler =
    | StartHandler
    | BuyHandler(args: seq<string>)
    | StatsHandler
    | CoinSelectionHandler(data: string)
    | DayInputHandler(text: string)

  // ---------------------------------------------------------------------
  // Routing
  // ---------------------------------------------------------------------

  /** The handler table: three commands, callbacks matching `^stats_`, and
      plain text that is not a command. Anything else reaches no handler. */
  function RouteOf(kind: UpdateKind): (h: Option<Handler>)
    ensures kind.TextMessage? ==> h == Some(DayInputHandler(kind.text))
    ensures kind.CallbackQuery? ==> (h.Some? <==> StartsWith(kind.data, CallbackPrefix))
    ensures kind.CommandMessage? ==> (h.Some? <==> kind.command in {"start", "buy", "stats"})
  {
    match kind
    case CommandMessage(command, args) =>
      if command == "start" then Some(StartHandler)
      else if command == "buy" then Some(BuyHandler(args))
      else if command == "stats" then Some(StatsHandler)
      else None
    case TextMessage(text) => Some(DayInputHandler(text))
    case CallbackQuery(data) =>
      if StartsWith(data, CallbackPrefix) then Some(CoinSelectionHandler(data)) else None
  }

  /** Only callback data starting with `stats_` reaches coin selection, and
      such data always yields a symbol that the selection stores. */
  lemma CallbackRouting(m: SessionMap, user: UserId, data: string)
    ensures RouteOf(CallbackQuery(data)) == Some(CoinSelectionHandler(data)) <==> StartsWith(data, CallbackPrefix)
    ensures RouteOf(CallbackQuery(data)).None? <==> !StartsWith(data, CallbackPrefix)
    ensures StartsWith(data, CallbackPrefix) ==> HasSymbol(SelectCoin(m, user, data).state, user)
  {
    if StartsWith(data, CallbackPrefix) {
      RoutedDataDecodes(data);
    }
  }

  // ---------------------------------------------------------------------
  // The handlers that do not use the session table
  // ---------------------------------------------------------------------

  /** `buy`: upper-case the symbol, convert the quantity with `float`, place
      a market order. Every exception becomes an error reply. */
  function Buy(args: seq<string>, parseFloat: string -> Option<real>, order: OrderResult): (e: Effect)
    ensures e.reply.Some?
    ensures e.call.Some? ==> e.call.value.OrderMarketBuy?
  {
    if |args| < 2 then Effect(Some(Error(MissingArgument)), None)
    else
      var symbol := ToUpper(args[0]);
      match parseFloat(args[1])
      case None => Effect(Some(Error(InvalidQuantity(args[1]))), None)
      case Some(quantity) =>
        var call := Some(OrderMarketBuy(symbol, quantity));
        match order
        case OrderFailed(message) => Effect(Some(Error(ExchangeError(message))), call)
        case Placed(confirmation) => Effect(Some(OrderSent(confirmation)), call)
  }

  /** An order is placed exactly when there are at least two arguments and the second
      converts to a number, and then with the upper-cased symbol and that
      number, whatever its sign; every outcome is answered by one reply. */
  lemma BuyCall(args: seq<string>, parseFloat: string -> Option<real>, order: OrderResult)
    ensures var e := Buy(args, parseFloat, order);
      && e.reply.Some?
      && (e.call.Some? <==> |args| >= 2 && parseFloat(args[1]).Some?)
      && (e.call.Some? ==> e.call == Some(OrderMarketBuy(ToUpper(args[0]), parseFloat(args[1]).value)))
      && (e.call.None? ==> e.reply.value.Error?)
  {
  }

  /** `stats`: list the exchange's symbols and show the USDT pairs as a
      keyboard, or report the exchange's error. */
  function StatsEffect(exchangeInfo: SymbolsResult): (e: Effect)
    ensures e.call == Some(GetExchangeInfo)
    ensures e.reply.Some? && (e.reply.value.CoinMenu? <==> exchangeInfo.Symbols?)
  {
    match exchangeInfo
    case SymbolsFailed(message) => Effect(Some(Error(ExchangeError(message))), Some(GetExchangeInfo))
    case Symbols(symbols) => Effect(Some(CoinMenu(Rows(UsdtSymbols(symbols)))), Some(GetExchangeInfo))
  }

  /** The menu `stats` shows: read row by row it is one button per USDT
      symbol in exchange order, every row has one to three buttons, all
      but the last exactly three, and there are ceil(n / 3) rows. */
  lemma StatsMenu(symbols: seq<string>)
    ensures var kb := Rows(UsdtSymbols(symbols));
      && StatsEffect(Symbols(symbols)).reply == Some(CoinMenu(kb))
      && Flatten(kb) == Buttons(UsdtSymbols(symbols))
      && (forall k :: 0 <= k < |kb| ==> 1 <= |kb[k]| <= RowWidth)
      && (forall k :: 0 <= k < |kb| - 1 ==> |kb[k]| == RowWidth)
      && |kb| == (|UsdtSymbols(symbols)| + RowWidth - 1) / RowWidth
  {
    FlattenRows(UsdtSymbols(symbols));
    RowsShape(UsdtSymbols(symbols));
    RowsCount(UsdtSymbols(symbols));
  }

  /** `stats` as the code runs it, building the keyboard with its loop. */
  method Stats(exchangeInfo: SymbolsResult) returns (e: Effect)
    ensures e == StatsEffect(exchangeInfo)
  {
    match exchangeInfo
    case SymbolsFailed(message) =>
      e := Effect(Some(Error(ExchangeError(message))), Some(GetExchangeInfo));
    case Symbols(all) =>
      var symbols := UsdtSymbols(all);
      var keyboard := BuildKeyboard(symbols);
      e := Effect(Some(CoinMenu(keyboard)), Some(GetExchangeInfo));
  }

  // ---------------------------------------------------------------------
  // One step, and runs of steps
  // ---------------------------------------------------------------------

  /** What the bot does with one update. */
  function Step(m: SessionMap, input: Input): (t: Transition)
    ensures t.state.Keys <= m.Keys + {input.update.user}
    ensures RouteOf(input.update.kind).None? ==> t == Transition(m, None, None)
  {
    var user := input.update.user;
    var env := input.env;
    match RouteOf(input.update.kind)
    case None => Transition(m, None, None)
    case Some(StartHandler) => Transition(m, Some(Help), None)
    case Some(BuyHandler(args)) =>
      var e := Buy(args, env.parseFloat, env.order);
      Transition(m, e.reply, e.call)
    case Some(StatsHandler) =>
      var e := StatsEffect(env.exchangeInfo);
      Transition(m, e.reply, e.call)
    case Some(CoinSelectionHandler(data)) => SelectCoin(m, user, data)
    case Some(DayInputHandler(text)) => EnterDays(m, user, text, env.klines, env.delivered)
  }

  predicate UsesSessions(h: Handler)
  {
    h.CoinSelectionHandler? || h.DayInputHandler?
  }

  /** `start`, `buy` and `stats` neither read nor write the table: the table
      is unchanged and the reply and call are the same whatever it holds. */
  lemma SessionFreeHandlers(m: SessionMap, m': SessionMap, input: Input)
    requires RouteOf(input.update.kind).Some? && !UsesSessions(RouteOf(input.update.kind).value)
    ensures Step(m, input).state == m
    ensures Step(m, input).reply == Step(m', input).reply
    ensures Step(m, input).call == Step(m', input).call
  {
  }

  /** An entry is created only by coin selection; `/stats` in particular
      never creates one. */
  lemma EntryCreatedOnlyBySelection(m: SessionMap, input: Input)
    requires input.update.user !in m && input.update.user in Step(m, input).state
    ensures RouteOf(input.update.kind).Some?
    ensures RouteOf(input.update.kind).value.CoinSelectionHandler?
  {
  }

  /** A step changes no entry but that of the user who sent the update. */
  lemma StepFrame(m: SessionMap, input: Input, v: UserId)
    requires v != input.update.user
    ensures Get(Step(m, input).state, v) == Get(m, v)
  {
  }

  /** What a step does for its user depends only on that user's entry. */
  lemma StepLocal(m: SessionMap, m': SessionMap, input: Input)
    requires Get(m, input.update.user) == Get(m', input.update.user)
    ensures Get(Step(m, input).state, input.update.user) == Get(Step(m', input).state, input.update.user)
    ensures Step(m, input).reply == Step(m', input).reply
    ensures Step(m, input).call == Step(m', input).call
  {
  }

  /** Every step keeps every entry holding a symbol. */
  lemma StepWellFormed(m: SessionMap, input: Input)
    requires WellFormed(m)
    ensures WellFormed(Step(m, input).state)
  {
  }

  /** The table after handling the inputs one after another. */
  function Run(m: SessionMap, inputs: seq<Input>): SessionMap
    decreases |inputs|
  {
    if |inputs| == 0 then m else Run(Step(m, inputs[0]).state, inputs[1..])
  }

  /** The replies and calls the updates of `user` produced, in order. */
  function Observed(m: SessionMap, inputs: seq<Input>, user: UserId): seq<Effect>
    decreases |inputs|
  {
    if |inputs| == 0 then []
    else
      var t := Step(m, inputs[0]);
      (if inputs[0].update.user == user then [Effect(t.reply, t.call)] else []) + Observed(t.state, inputs[1..], user)
  }

  /** The inputs that come from `user`, in order. */
  function OnlyUser(inputs: seq<Input>, user: UserId): seq<Input>
  {
    if |inputs| == 0 then []
    else (if inputs[0].update.user == user then [inputs[0]] else []) + OnlyUser(inputs[1..], user)
  }

  /** Runs keep every entry holding a symbol. */
  lemma {:induction false} RunWellFormed(m: SessionMap, inputs: seq<Input>)
    requires WellFormed(m)
    ensures WellFormed(Run(m, inputs))
    decreases |inputs|
  {
    if |inputs| > 0 {
      StepWellFormed(m, inputs[0]);
      RunWellFormed(Step(m, inputs[0]).state, inputs[1..]);
    }
  }

  /** No interference between users: however the updates of several users
      are interleaved, one user's final entry and everything that user was
      sent and that was asked of the exchange on their behalf are what they
      would be if only that user's updates had been handled, from any table
      that agrees on that user's entry. */
  lemma {:induction false} Isolation(m: SessionMap, m': SessionMap, inputs: seq<Input>, user: UserId)
    requires Get(m, user) == Get(m', user)
    ensures Get(Run(m, inputs), user) == Get(Run(m', OnlyUser(inputs, user)), user)
    ensures Observed(m, inputs, user) == Observed(m', OnlyUser(inputs, user), user)
    decreases |inputs|
  {
    if |inputs| > 0 {
      var first, rest := inputs[0], inputs[1..];
      var t := Step(m, first);
      if first.update.user == user {
        var t' := Step(m', first);
        StepLocal(m, m', first);
        Isolation(t.state, t'.state, rest, user);
        assert OnlyUser(inputs, user) == [first] + OnlyUser(rest, user);
        assert ([first] + OnlyUser(rest, user))[1..] == OnlyUser(rest, user);
      } else {
        StepFrame(m, first, user);
        Isolation(t.state, m', rest, user);
        assert OnlyUser(inputs, user) == OnlyUser(rest, user);
      }
    }
  }

  // ---------------------------------------------------------------------
  // The bot object: `user_state` updated in place
  // ---------------------------------------------------------------------

  class Bot {

    /** `user_state` */
    var userState: SessionMap

    constructor ()
      ensures userState == map[]
    {
      userState := map[];
    }

    /** handle_coin_selection */
    method HandleCoinSelection(user: UserId, data: string) returns (reply: Option<Reply>)
      modifies this
      ensures userState.Keys == old(userState).Keys || userState.Keys == old(userState).Keys + {user}
      ensures SelectCoin(old(userState), user, data) == Transition(userState, reply, None)
    {
      var symbol := SymbolOf(data);
      if symbol.None? {
        // the IndexError escapes the handler: no reply, nothing stored
        reply := None;
        return;
      }
      userState := userState[user := map[SymbolKey := symbol.value]];
      reply := Some(DayPrompt(symbol.value));
    }

    /** handle_day_input */
    method HandleDayInput(user: UserId, text: string, klines: KlinesResult, delivered: bool)
      returns (reply: Option<Reply>, call: Option<Call>)
      modifies this
      ensures userState == old(userState) || userState == old(userState) - {user}
      ensures EnterDays(old(userState), user, text, klines, delivered) == Transition(userState, reply, call)
    {
      reply, call := None, None;
      if user !in userState || SymbolKey !in userState[user] {
        return;
      }
      var symbol := userState[user][SymbolKey];
      var parsed := ParseInt(text);
      if parsed.None? {
        reply := Some(Error(InvalidDayCount(text)));
        return;
      }
      var days := parsed.value;
      call := Some(GetKlines(symbol, DailyInterval, days));
      if klines.KlinesFailed? {
        reply := Some(Error(ExchangeError(klines.message)));
        return;
      }
      var rows := klines.klines;
      if |rows| == 0 {
        reply := Some(NoData);
        return;
      }
      var series := CollectSeries(rows);
      if !delivered {
        reply := Some(Error(ChartNotDelivered));
        return;
      }
      reply := Some(Chart(symbol, days, series));
      // the entry is removed only once the photo has gone out
      userState := userState - {user};
    }

    /** One update, dispatched by the routing table. */
    method HandleUpdate(input: Input) returns (reply: Option<Reply>, call: Option<Call>)
      modifies this
      ensures Step(old(userState), input) == Transition(userState, reply, call)
    {
      var user := input.update.user;
      var env := input.env;
      var route := RouteOf(input.update.kind);
      match route
      case None =>
        reply, call := None, None;
      case Some(StartHandler) =>
        reply, call := Some(Help), None;
      case Some(BuyHandler(args)) =>
        var e := Buy(args, env.parseFloat, env.order);
        reply, call := e.reply, e.call;
      case Some(StatsHandler) =>
        var e := Stats(env.exchangeInfo);
        reply, call := e.reply, e.call;
      case Some(CoinSelectionHandler(data)) =>
        reply := HandleCoinSelection(user, data);
        call := None;
      case Some(DayInputHandler(text)) =>
        reply, call := HandleDayInput(user, text, env.klines, env.delivered);
    }

  }

}
