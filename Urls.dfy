/** What Foundation's `URL(string:)` yields, reduced to the parts the
    application inspects. The parse itself is not modelled: callers receive
    `None` when the string is not a URL, `Some(u)` otherwise. */
module Urls {
  import opened Wrappers

  datatype ParsedUrl = ParsedUrl(scheme: Option<string>, host: Option<string>)
}
