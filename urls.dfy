/** URLs exchanged between the editor extension and the application, at the
    level of `URLQueryItem`s: the percent-encoding of the query string is not
    modelled, so a query item is the (name, optional value) pair itself. */
module Urls {
  import opened Wrappers

  /** Foundation's `URLQueryItem`: a name and a value that may be absent. */
  datatype QueryItem = QueryItem(name: string, value: Option<string>)

  /** The parts of a URL that `URLComponents` is given: scheme, host and the
      list of query items, in order. */
  datatype AppUrl = AppUrl(scheme: string, host: string, queryItems: seq<QueryItem>)
}
