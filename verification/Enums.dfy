/** Enumerations used across the system. */
module Enums {
  datatype Side = Buy | Sell
}
