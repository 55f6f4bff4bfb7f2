/**
 * The committer's top-level error (`committer::Error`) and the `From` conversions that fold
 * every lower-level error into one of its three classes.
 */
module CommitterErrors {
  import L1Port
  import FuelPort
  import StoragePort
  import ServicesError

  /** Network failures are retried on the next tick; storage and other failures are surfaced. */
  datatype Error = Other(msg: string) | Network(msg: string) | Storage(msg: string)

  /** Every error type the committer converts from; foreign errors carry their rendered message. */
  datatype Source =
    | SerdeJson(rendered: string)
    | Io(rendered: string)
    | Join(rendered: string)
    | StorageFailure(storageError: StoragePort.Error)
    | L1Failure(l1Error: L1Port.Error)
    | FuelFailure(fuelError: FuelPort.Error)
    | ServicesFailure(servicesError: ServicesError.Error)
    | Config(rendered: string)

  /** The message a source error carries. */
  function Payload(source: Source): string {
    match source
    case SerdeJson(m) => m
    case Io(m) => m
    case Join(m) => m
    case StorageFailure(e) => e.msg
    case L1Failure(e) => e.msg
    case FuelFailure(e) => e.msg
    case ServicesFailure(e) => e.msg
    case Config(m) => m
  }

  /**
   * The `From` impls. Only network failures of the two chains become `Network`, only store
   * failures become `Storage`, everything else is `Other`, and the message is kept.
   */
  function From(source: Source): (e: Error)
    ensures e.Network? <==>
      || (source.L1Failure? && source.l1Error.Network?)
      || source.FuelFailure?
      || (source.ServicesFailure? && source.servicesError.Network?)
    ensures e.Storage? <==> source.StorageFailure? || (source.ServicesFailure? && source.servicesError.Storage?)
    ensures e.Other? <==>
      || source.SerdeJson? || source.Io? || source.Join? || source.Config?
      || (source.L1Failure? && source.l1Error.Other?)
      || (source.ServicesFailure? && source.servicesError.Other?)
    ensures e.msg == Payload(source)
  {
    match source
    case SerdeJson(m) => Other(m)
    case Io(m) => Other(m)
    case Join(m) => Other(m)
    case StorageFailure(err) => Storage(err.msg)
    case L1Failure(err) =>
      (match err
       case Network(m) => Network(m)
       case _ => Other(err.ToString()))
    case FuelFailure(err) =>
      (match err
       case Network(m) => Network(m))
    case ServicesFailure(err) =>
      (match err
       case Network(m) => Network(m)
       case Storage(m) => Storage(m)
       case Other(m) => Other(m))
    case Config(m) => Other(m)
  }

  /**
   * A port error classified by the services first and then by the committer ends in the same
   * class, with the same message, as when the committer converts it directly.
   */
  lemma ClassificationThroughServicesAgrees(l1: L1Port.Error, fuel: FuelPort.Error, storage: StoragePort.Error)
    ensures From(ServicesFailure(ServicesError.FromL1(l1))) == From(L1Failure(l1))
    ensures From(ServicesFailure(ServicesError.FromFuel(fuel))) == From(FuelFailure(fuel))
    ensures From(ServicesFailure(ServicesError.FromStorage(storage))) == From(StorageFailure(storage))
  {
  }
}
