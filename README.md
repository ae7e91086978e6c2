# Movie ticket pricing and validation, in Dafny

This project models the pricing and validation unit of a desktop movie-ticket
receipt application. A sale attempt is an immutable record of a movie name, a
ticket count and a price per ticket (`MovieTicketData`). The unit decides
whether a sale is valid: the name is present and not blank after Java's
`trim()`, the price is above zero and the count is above zero. For a sale it
computes the total with 14% VAT added on top of the subtotal. The application
only computes the total for a sale that passes the check.

Files:

- `wrappers.dfy`: `Option`, used for a Java reference that may be `null`.
- `java_strings.dfy`: the part of `java.lang.String` the validator relies on.
  `trim()` strips every character at most U+0020 from both ends, and `isEmpty()` on the result is the test `== []`.
- `ticket_data.dfy`: the `MovieTicketData` record, with Java's 32-bit `int` as
  the `int32` newtype for the count.
- `movie_tickets.dfy`: `VatRate`, `CalculateTotalTicketPrice`, `ValidateData`
  and the lemmas about them.

Two consequences of the code are worth stating:

- `ValidateData` (MovieTicketApp/src/movieticketapp/MovieTickets.java:48) tests the name with `trim()`, which strips only characters at or below U+0020. A name made only of, say, U+00A0 (no-break space) therefore passes. The model states validity as "some character is above ' '".
- Any name that is not blank passes. The three titles exist only in the selection box at MovieTicketApp/src/movieticketapp/MovieTicketApp.java:50.

## Model

| member | source | states |
|---|---|---|
| `JavaStrings.TrimLeading` | MovieTicketApp/src/movieticketapp/MovieTickets.java:48 | the result is a suffix of the input, starts with a character above ' ' or is empty, and every character dropped is at most ' ' |
| `JavaStrings.TrimTrailing` | MovieTicketApp/src/movieticketapp/MovieTickets.java:48 | the result is a prefix of the input, ends with a character above ' ' or is empty, and every character dropped is at most ' ' |
| `JavaStrings.Trim` | MovieTicketApp/src/movieticketapp/MovieTickets.java:48 | `trim()` returns a slice `s[i..j]` of its input such that every character outside the slice is at most ' '; the result is empty exactly when every character is at most ' '; otherwise it starts and ends with a character above ' ' |
| `JavaStrings.TrimKeepsTrimmed` | MovieTicketApp/src/movieticketapp/MovieTickets.java:48 | a string that already starts and ends with a character above ' ' is returned unchanged |
| `JavaStrings.TrimIdempotent` | MovieTicketApp/src/movieticketapp/MovieTickets.java:48 | trimming twice gives the same string as trimming once |
| `TicketData.GettersReturnConstructorArguments` | MovieTicketApp/src/movieticketapp/MovieTicketData.java:24-55 | each getter returns exactly the argument given to the constructor; the constructor accepts any name, count and price, including null names and non-positive values |
| `MovieTickets.CalculateTotalTicketPrice` | MovieTicketApp/src/movieticketapp/MovieTickets.java:30-35 | the total is price × count × 114/100; it is 0 when the count or the price is 0; it is above the positive subtotal when both are positive; it is negative for a negative price and a positive count (no validation of its own) |
| `MovieTickets.VatAddedOnTop` | MovieTicketApp/src/movieticketapp/MovieTickets.java:18-34 | VAT is added on top: the total minus the subtotal is the subtotal times the fixed rate 0.14; dividing the total by 1.14 gives back the subtotal |
| `MovieTickets.TotalAdditiveInCount` | MovieTicketApp/src/movieticketapp/MovieTickets.java:30-35 | buying two lots at one price costs the same as buying them together |
| `MovieTickets.TotalIncreasesWithCount` | MovieTicketApp/src/movieticketapp/MovieTickets.java:30-35 | at a positive price, a larger count gives a strictly larger total |
| `MovieTickets.TotalExamples` | MovieTicketApp/src/movieticketapp/MovieTickets.java:32-34 | 2 tickets at 100 total 228, 1 at 50 totals 57, and 3 at 75 total 256.5 |
| `MovieTickets.ValidateData` | MovieTicketApp/src/movieticketapp/MovieTickets.java:46-60 | a sale is valid exactly when the name is non-null with some character above ' ', the price is above 0 and the count is above 0 |
| `MovieTickets.RejectsMissingOrBlankName` | MovieTicketApp/src/movieticketapp/MovieTickets.java:48-50 | a null name, or one whose characters are all at most ' ', is rejected whatever the count and price |
| `MovieTickets.RejectsNonPositivePrice` | MovieTicketApp/src/movieticketapp/MovieTickets.java:53-55 | a price of zero or below is rejected whatever the name and count |
| `MovieTickets.RejectsNonPositiveCount` | MovieTicketApp/src/movieticketapp/MovieTickets.java:59 | a count of zero or below is rejected whatever the name and price |
| `MovieTickets.AcceptsOfferedTitles` | MovieTicketApp/src/movieticketapp/MovieTicketApp.java:50 | each of the three titles the form offers is accepted with a positive count and price |
| `MovieTickets.ValidateExamples` | MovieTicketApp/src/movieticketapp/MovieTickets.java:46-60 | a zero count, an empty name, a name of control characters and a null name are rejected; "Damsel" with 3 tickets at 75 is accepted |
| `MovieTickets.ValidSaleTotalExceedsSubtotal` | MovieTicketApp/src/movieticketapp/MovieTicketApp.java:161-162 | for a sale that passes validation, the total computed next is above the subtotal, which is above 0 |

`MovieTicketData` has no setters and only its constructor writes its fields.
It is therefore a Dafny `datatype`, whose values cannot change after
construction. Its three getters are the datatype's destructors.

## Left out

- The Swing window in `MovieTicketApp.java`: layout, colours, menus, dialogs, the clear action and `System.exit`. It is presentation with no logic of its own.
- Parsing of the price and count text with `Double.parseDouble` and `Integer.parseInt`, and the parse-error dialog. These are library calls outside this model. The model starts from the parsed values.
- The report text built from `double` values by string concatenation. It depends on Java's float-to-string conversion.
- MovieTickets.CalculateTotalTicketPrice: does not model IEEE-754 double rounding or overflow to infinity. The price is an exact real, so the model gives the intended value `price × count × 1.14`.
- MovieTickets.ValidateData: does not model a NaN or infinite price. In Java `NaN <= 0` is false, so a NaN price passes the price check. `Double.parseDouble("Infinity")` also succeeds and passes that check, and the calculation then returns an infinite total. A real number is never NaN or infinite.
- The `IMovieTickets` interface is not part of this model. It only declares the two operations modelled here.
