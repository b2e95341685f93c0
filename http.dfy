/**
  What an Express handler sends back: a status code and either the JSON
  document it succeeded with or the `{ message }` it refused with.
*/
module Http {

  /** The `message` strings the handlers of the core send. */
  datatype Message =
    | FieldsRequired                      // "Symbol, quantity, and avgPrice are required"
    | QuantityPositiveAvgPriceNonNegative // "Quantity must be > 0 and avgPrice >= 0"
    | QuantityMustBePositive              // "Quantity must be > 0"
    | AvgPriceCannotBeNegative            // "Average price cannot be negative"
    | PortfolioNotFound                   // "Portfolio not found"
    | PositionNotFound                    // "Position not found"
    | PositionDeleted                     // "Position deleted successfully"
    | PortfolioDeleted                    // "Portfolio and positions deleted successfully"
    | NoPositions                         // "No positions in portfolio"
    | UnsupportedMethod                   // "Unsupported VaR method"
    | RunNotFound                         // "VaR run not found"
    | InternalServerError                 // "Internal server error", the catch block of every handler

  datatype Reply<+T> = Ok(status: nat, value: T) | Refused(status: nat, message: Message)

  const OK: nat := 200
  const CREATED: nat := 201
  const ACCEPTED: nat := 202
  const BAD_REQUEST: nat := 400
  const NOT_FOUND: nat := 404
  const SERVER_ERROR: nat := 500
}
