/** The messages the bot sends back to a user. Each handler sends at most
    one; the literal texts are those of bot.py, named here by what they say. */
module Replies {

  import Keyboard
  import Exchange

  /** What an `except Exception as e` branch reports as `❌ Error:\n{e}`. */
  datatype Failure =
    | MissingArgument                  // IndexError on context.args
    | InvalidQuantity(text: string)    // ValueError from float(...)
    | InvalidDayCount(text: string)    // ValueError from int(...)
    | ExchangeError(message: string)   // raised by the Binance client
    | ChartNotDelivered                // plotting, the PNG file or reply_photo raised

  datatype Reply =
    | Help                                                      // the /start text
    | OrderSent(confirmation: string)                           // "BUY ORDER SENT"
    | CoinMenu(keyboard: seq<seq<Keyboard.Button>>)             // "Bir coin seç" with the buttons
    | DayPrompt(symbol: string)                                 // symbol chosen, how many days?
    | NoData                                                    // "Veri bulunamadı"
    | Chart(symbol: string, days: int, series: Exchange.Series) // the price chart photo
    | Error(failure: Failure)

}
