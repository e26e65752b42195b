// The classes of automatic observations.
module Classes {
  datatype ObservationClass = Clock | Database | Environment | Filesystem | OutboundHttp | Queue | Randomness
}
