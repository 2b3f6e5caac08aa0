/** The `/stats` menu: the exchange's symbols narrowed to USDT pairs, laid
    out three buttons to a row, each button carrying the callback data
    `stats_<SYMBOL>`; and the decoding of that data with `split("_")[1]`
    when a button is pressed (bot.py lines 48-56 and 67). */
module Keyboard {

  import opened Options
  import opened Text

  const Quote := "USDT"
  const CallbackPrefix := "stats_"
  const Separator := '_'
  const RowWidth := 3

  /** An inline keyboard button: the label shown and the data sent back. */
  datatype Button = Button(text: string, callbackData: string)

  // ---------------------------------------------------------------------
  // The USDT filter (the list comprehension of bot.py:48)
  // ---------------------------------------------------------------------

  predicate IsUsdtPair(symbol: string)
  {
    EndsWith(symbol, Quote)
  }

  function UsdtSymbols(symbols: seq<string>): (kept: seq<string>)
    ensures |kept| <= |symbols|
    ensures forall k :: 0 <= k < |kept| ==> IsUsdtPair(kept[k])
  {
    if |symbols| == 0 then []
    else (if IsUsdtPair(symbols[0]) then [symbols[0]] else []) + UsdtSymbols(symbols[1..])
  }

  /** The filter works element by element, in order: it distributes over
      concatenation, and a single symbol is kept exactly when it ends with
      USDT. Together these determine the result for every list. */
  lemma {:induction false} UsdtSymbolsAppend(a: seq<string>, b: seq<string>)
    ensures UsdtSymbols(a + b) == UsdtSymbols(a) + UsdtSymbols(b)
  {
    if |a| > 0 {
      assert (a + b)[0] == a[0];
      assert (a + b)[1..] == a[1..] + b;
      UsdtSymbolsAppend(a[1..], b);
    } else {
      assert a + b == b;
    }
  }

  lemma UsdtSymbolsSingle(symbol: string)
    ensures UsdtSymbols([symbol]) == if IsUsdtPair(symbol) then [symbol] else []
  {
    assert [symbol][1..] == [];
  }

  /** Every USDT symbol is kept as often as it occurs, every other symbol
      is dropped. */
  lemma {:induction false} UsdtSymbolsCount(symbols: seq<string>, x: string)
    ensures multiset(UsdtSymbols(symbols))[x] == if IsUsdtPair(x) then multiset(symbols)[x] else 0
  {
    if |symbols| > 0 {
      UsdtSymbolsCount(symbols[1..], x);
      assert symbols == [symbols[0]] + symbols[1..];
    }
  }

  lemma UsdtSymbolsMembers(symbols: seq<string>, x: string)
    ensures x in UsdtSymbols(symbols) <==> x in symbols && IsUsdtPair(x)
  {
    UsdtSymbolsCount(symbols, x);
    assert x in UsdtSymbols(symbols) <==> multiset(UsdtSymbols(symbols))[x] > 0;
  }

  // ---------------------------------------------------------------------
  // Callback data, encoded (bot.py:53) and decoded (bot.py:67)
  // ---------------------------------------------------------------------

  /** `f"stats_{s}"` */
  function CallbackData(symbol: string): (data: string)
    ensures StartsWith(data, CallbackPrefix)
    ensures data[|CallbackPrefix|..] == symbol
  {
    CallbackPrefix + symbol
  }

  /** `data.split("_")[1]`: `None` stands for the IndexError raised when the
      data contains no underscore. */
  function SymbolOf(data: string): (symbol: Option<string>)
    ensures Separator !in data ==> symbol.None?
  {
    var parts := Split(data, Separator);
    if |parts| >= 2 then Some(parts[1]) else None
  }

  /** Decoding succeeds exactly when the data contains an underscore. */
  lemma SymbolOfDefined(data: string)
    ensures SymbolOf(data).Some? <==> Separator in data
  {
    SplitShape(data, Separator);
    if Separator in data {
      var i := IndexOf(data, Separator);
      SplitShape(data[i + 1..], Separator);
    }
  }

  /** Decoding the callback data of a button gives the symbol up to its
      first underscore. */
  lemma SymbolOfCallbackData(symbol: string)
    ensures SymbolOf(CallbackData(symbol)) == Some(FirstField(symbol, Separator))
  {
    assert CallbackData(symbol) == "stats" + [Separator] + symbol;
    SplitAfterPrefix("stats", Separator, symbol);
    SplitShape(symbol, Separator);
    SplitHead(symbol, Separator);
  }

  /** The round trip: decoding recovers the symbol exactly when the symbol
      contains no underscore. */
  lemma CallbackRoundTrip(symbol: string)
    ensures SymbolOf(CallbackData(symbol)) == Some(symbol) <==> Separator !in symbol
  {
    SymbolOfCallbackData(symbol);
    if Separator in symbol {
      var i := IndexOf(symbol, Separator);
      assert |FirstField(symbol, Separator)| < |symbol|;
    }
  }

  /** Data that matches the routing pattern `^stats_` always decodes. */
  lemma RoutedDataDecodes(data: string)
    requires StartsWith(data, CallbackPrefix)
    ensures SymbolOf(data).Some?
  {
    assert data[5] == CallbackPrefix[5];
    SymbolOfDefined(data);
  }

  // ---------------------------------------------------------------------
  // The keyboard layout (the loop of bot.py:50-56)
  // ---------------------------------------------------------------------

  function ButtonFor(symbol: string): Button
  {
    Button(symbol, CallbackData(symbol))
  }

  /** One button per symbol, in order. */
  function Buttons(symbols: seq<string>): seq<Button>
  {
    seq(|symbols|, k requires 0 <= k < |symbols| => ButtonFor(symbols[k]))
  }

  /** The reference layout: consecutive rows of three buttons, the last row
      holding what is left over. */
  function Rows(symbols: seq<string>): (rows: seq<seq<Button>>)
    ensures |rows| <= |symbols|
    decreases |symbols|
  {
    if |symbols| == 0 then []
    else if |symbols| <= RowWidth then [Buttons(symbols)]
    else [Buttons(symbols[..RowWidth])] + Rows(symbols[RowWidth..])
  }

  function Flatten(rows: seq<seq<Button>>): seq<Button>
  {
    if |rows| == 0 then [] else rows[0] + Flatten(rows[1..])
  }

  /** Reading the rows left to right, top to bottom, gives one button per
      symbol in the original order. */
  lemma {:induction false} FlattenRows(symbols: seq<string>)
    ensures Flatten(Rows(symbols)) == Buttons(symbols)
    decreases |symbols|
  {
    if |symbols| > RowWidth {
      var rest := Rows(symbols[RowWidth..]);
      assert ([Buttons(symbols[..RowWidth])] + rest)[1..] == rest;
      FlattenRows(symbols[RowWidth..]);
      assert Buttons(symbols) == Buttons(symbols[..RowWidth]) + Buttons(symbols[RowWidth..]);
    } else if |symbols| > 0 {
      assert [Buttons(symbols)][1..] == [];
    }
  }

  /** Every row holds one to three buttons, and every row but the last
      holds exactly three. */
  lemma {:induction false} RowsShape(symbols: seq<string>)
    ensures forall k :: 0 <= k < |Rows(symbols)| ==> 1 <= |Rows(symbols)[k]| <= RowWidth
    ensures forall k :: 0 <= k < |Rows(symbols)| - 1 ==> |Rows(symbols)[k]| == RowWidth
    decreases |symbols|
  {
    if |symbols| > RowWidth {
      RowsShape(symbols[RowWidth..]);
      var rest := Rows(symbols[RowWidth..]);
      assert forall k :: 1 <= k < |Rows(symbols)| ==> Rows(symbols)[k] == rest[k - 1];
    }
  }

  /** There are ceil(n / 3) rows for n symbols, so none for no symbols. */
  lemma {:induction false} RowsCount(symbols: seq<string>)
    ensures |Rows(symbols)| == (|symbols| + RowWidth - 1) / RowWidth
    ensures Rows(symbols) == [] <==> symbols == []
    decreases |symbols|
  {
    if |symbols| > RowWidth {
      RowsCount(symbols[RowWidth..]);
    }
  }

  function Min(a: int, b: int): int
  {
    if a <= b then a else b
  }

  /** The rows from position `i` on: the row starting at `i`, then the rows
      after it. */
  lemma RowsFrom(symbols: seq<string>, i: nat)
    requires i < |symbols|
    ensures Rows(symbols[i..]) == [Buttons(symbols[i..Min(i + RowWidth, |symbols|)])] + Rows(symbols[Min(i + RowWidth, |symbols|)..])
  {
    var t := symbols[i..];
    if |t| <= RowWidth {
      assert t == symbols[i..|symbols|];
      assert symbols[|symbols|..] == [];
    } else {
      assert t[..RowWidth] == symbols[i..i + RowWidth];
      assert t[RowWidth..] == symbols[i + RowWidth..];
    }
  }

  /** The keyboard building loop: one row per step of
      `range(0, len(symbols), 3)`, each row made of the buttons for
      `symbols[i:i+3]`. */
  method BuildKeyboard(symbols: seq<string>) returns (keyboard: seq<seq<Button>>)
    ensures keyboard == Rows(symbols)
  {
    keyboard := [];
    var i := 0;
    while i < |symbols|
      invariant 0 <= i
      invariant keyboard + Rows(symbols[Min(i, |symbols|)..]) == Rows(symbols)
      decreases |symbols| - i
    {
      var row := Buttons(symbols[i..Min(i + RowWidth, |symbols|)]);
      RowsFrom(symbols, i);
      keyboard := keyboard + [row];
      i := i + RowWidth;
    }
    assert symbols[|symbols|..] == [];
  }

}
