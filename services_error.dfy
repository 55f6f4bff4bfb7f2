/**
 * `services::Error`, the error type of the block watcher and the commit listener, with the
 * conversions their `?` operators apply to the port errors.
 */
module ServicesError {
  import FuelPort
  import L1Port
  import StoragePort

  datatype Error = Other(msg: string) | Network(msg: string) | Storage(msg: string)

  /** A node failure is a network failure. */
  function FromFuel(e: FuelPort.Error): Error {
    Network(e.msg)
  }

  /** A store failure is a storage failure. */
  function FromStorage(e: StoragePort.Error): Error {
    Storage(e.msg)
  }

  /** An L1 network failure stays a network failure; any other L1 failure is `Other`. */
  function FromL1(e: L1Port.Error): Error {
    match e
    case Network(m) => Network(m)
    case Other(_) => Other(e.ToString())
  }
}
