/** The four record levels of Go's log/slog that this system uses. */
module Slog {
  datatype Level = Debug | Info | Warn | Error
}
