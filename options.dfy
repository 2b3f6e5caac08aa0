/** The conventional optional value, used for lookups that may miss and
    for conversions that may raise in the bot. */
module Options {

  datatype Option<+T> = None | Some(value: T)

}
