/**
 * The ticket pricing and validation unit: the VAT-inclusive total of a
 * sale and the check a sale must pass before its total is computed.
 * Prices are exact reals, so the arithmetic is the intended one rather
 * than IEEE-754 double arithmetic.
 */
module MovieTickets {
  import opened Wrappers
  import opened JavaStrings
  import opened TicketData

  /** The VAT rate, 14%, added on top of the subtotal. */
  const VatRate: real := 0.14

  /** The price of the tickets before VAT. */
  function Subtotal(numberOfTickets: int32, ticketPrice: real): real
  {
    ticketPrice * numberOfTickets as real
  }

  /**
   * The total price including VAT: the subtotal plus 14% of it. The
   * calculation does no validation of its own, so a zero count or a zero
   * price gives a total of zero and a negative price gives a negative total.
   */
  function CalculateTotalTicketPrice(numberOfTickets: int32, ticketPrice: real): (total: real)
    ensures total == ticketPrice * numberOfTickets as real * 114.0 / 100.0
    ensures numberOfTickets == 0 || ticketPrice == 0.0 ==> total == 0.0
    ensures ticketPrice > 0.0 && numberOfTickets > 0 ==> total > Subtotal(numberOfTickets, ticketPrice) > 0.0
    ensures ticketPrice < 0.0 && numberOfTickets > 0 ==> total < 0.0
  {
    var totalPrice := Subtotal(numberOfTickets, ticketPrice);
    totalPrice + totalPrice * VatRate
  }

  /**
   * A sale is valid when the movie name is present and not blank after
   * `trim()`, the price is above zero and the count is above zero. Any such
   * name is accepted, not only the titles the form offers.
   */
  function ValidateData(movieTicketData: MovieTicketData): (valid: bool)
    ensures valid <==>
              && movieTicketData.movieName.Some?
              && (exists i :: 0 <= i < |movieTicketData.movieName.value| && movieTicketData.movieName.value[i] > ' ')
              && movieTicketData.ticketPrice > 0.0
              && movieTicketData.numberOfTickets > 0
  {
    if movieTicketData.movieName.None? || Trim(movieTicketData.movieName.value) == [] then
      false
    else if movieTicketData.ticketPrice <= 0.0 then
      false
    else
      movieTicketData.numberOfTickets > 0
  }

  /**
   * VAT, at the fixed rate of 14%, is added on top of the subtotal, not
   * taken out of it.
   */
  lemma VatAddedOnTop(numberOfTickets: int32, ticketPrice: real)
    ensures CalculateTotalTicketPrice(numberOfTickets, ticketPrice) - Subtotal(numberOfTickets, ticketPrice)
            == Subtotal(numberOfTickets, ticketPrice) * VatRate
    ensures CalculateTotalTicketPrice(numberOfTickets, ticketPrice) / (1.0 + VatRate)
            == Subtotal(numberOfTickets, ticketPrice)
  {
  }

  /**
   * Buying tickets in two lots at one price costs the same as buying them
   * together.
   */
  lemma TotalAdditiveInCount(count1: int32, count2: int32, ticketPrice: real)
    requires -0x8000_0000 <= count1 as int + count2 as int < 0x8000_0000
    ensures CalculateTotalTicketPrice(count1 + count2, ticketPrice)
            == CalculateTotalTicketPrice(count1, ticketPrice) + CalculateTotalTicketPrice(count2, ticketPrice)
  {
  }

  /** At a positive price, more tickets always cost more. */
  lemma TotalIncreasesWithCount(count1: int32, count2: int32, ticketPrice: real)
    requires ticketPrice > 0.0 && count1 < count2
    ensures CalculateTotalTicketPrice(count1, ticketPrice) < CalculateTotalTicketPrice(count2, ticketPrice)
  {
  }

  /** Worked totals: 2 at 100 is 228, 1 at 50 is 57, 3 at 75 is 256.5. */
  lemma TotalExamples()
    ensures CalculateTotalTicketPrice(2, 100.0) == 228.0
    ensures CalculateTotalTicketPrice(1, 50.0) == 57.0
    ensures CalculateTotalTicketPrice(3, 75.0) == 256.5
  {
  }

  /** A missing or blank name is rejected, whatever the count and price. */
  lemma RejectsMissingOrBlankName(movieTicketData: MovieTicketData)
    requires movieTicketData.movieName.None? || IsBlank(movieTicketData.movieName.value)
    ensures !ValidateData(movieTicketData)
  {
  }

  /** A price of zero or below is rejected, whatever the name and count. */
  lemma RejectsNonPositivePrice(movieTicketData: MovieTicketData)
    requires movieTicketData.ticketPrice <= 0.0
    ensures !ValidateData(movieTicketData)
  {
  }

  /** A count of zero or below is rejected, whatever the name and price. */
  lemma RejectsNonPositiveCount(movieTicketData: MovieTicketData)
    requires movieTicketData.numberOfTickets <= 0
    ensures !ValidateData(movieTicketData)
  {
  }

  /** Each title the form offers passes with a positive count and price. */
  lemma AcceptsOfferedTitles(numberOfTickets: int32, ticketPrice: real)
    requires numberOfTickets > 0 && ticketPrice > 0.0
    ensures ValidateData(MovieTicketData(Some("Napoleon"), numberOfTickets, ticketPrice))
    ensures ValidateData(MovieTicketData(Some("Oppenheimer"), numberOfTickets, ticketPrice))
    ensures ValidateData(MovieTicketData(Some("Damsel"), numberOfTickets, ticketPrice))
  {
  }

  /** Worked validations. */
  lemma ValidateExamples()
    ensures !ValidateData(MovieTicketData(Some("Napoleon"), 0, 50.0))
    ensures !ValidateData(MovieTicketData(Some(""), 2, 50.0))
    ensures !ValidateData(MovieTicketData(Some(" \t\n"), 2, 50.0))
    ensures !ValidateData(MovieTicketData(None, 2, 50.0))
    ensures ValidateData(MovieTicketData(Some("Damsel"), 3, 75.0))
  {
  }

  /**
   * A sale that passes validation has a total above its subtotal, which is
   * itself above zero.
   */
  lemma ValidSaleTotalExceedsSubtotal(movieTicketData: MovieTicketData)
    requires ValidateData(movieTicketData)
    ensures var n, p := movieTicketData.numberOfTickets, movieTicketData.ticketPrice;
            CalculateTotalTicketPrice(n, p) > Subtotal(n, p) > 0.0
  {
  }
}
