/**
 * The record of one ticket-sale attempt: the chosen movie, the number of
 * tickets and the price of one ticket. The record is immutable and checks
 * nothing when it is built; validity is decided separately by
 * `MovieTickets.ValidateData`.
 */
module TicketData {
  import opened Wrappers

  /** Java's 32-bit `int`. */
  newtype int32 = x: int | -0x8000_0000 <= x < 0x8000_0000

  /**
   * A sale attempt. `movieName` is `None` where the Java field holds `null`;
   * `ticketPrice` is the `double` price read as an exact real number.
   * The destructors `movieName`, `numberOfTickets` and `ticketPrice` are the
   * three getters.
   */
  datatype MovieTicketData = MovieTicketData(
    movieName: Option<string>,
    numberOfTickets: int32,
    ticketPrice: real)

  /**
   * The constructor stores its three arguments unchanged, whatever they are
   * (a null or blank name, a zero or negative count or price), and each
   * getter returns exactly the argument it was given.
   */
  lemma GettersReturnConstructorArguments(name: Option<string>, count: int32, price: real)
    ensures MovieTicketData(name, count, price).movieName == name
    ensures MovieTicketData(name, count, price).numberOfTickets == count
    ensures MovieTicketData(name, count, price).ticketPrice == price
  {
  }
}
