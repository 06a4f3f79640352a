/** The optional value used wherever the filter's collaborators may find nothing:
    an address that does not parse, a host:port text without a port, a
    geolocation lookup that misses, a filter without a block page. */
module Wrappers {

  datatype Option<+T> = None | Some(value: T)
}
