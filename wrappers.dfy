/** The nullable values of the endpoint (a cookie that may be missing, a query
    parameter that may be absent, a client the store may not know) as an
    explicit option type. */
module Wrappers {

  datatype Option<+T> = None | Some(value: T)
}
