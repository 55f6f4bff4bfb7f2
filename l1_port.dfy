/** The destination-chain contract (`ports::l1`): its error type and a stand-in for its event streamer. */
module L1Port {
  import opened Wrappers
  import opened Types

  /** `ports::l1::Error`. */
  datatype Error = Network(msg: string) | Other(msg: string) {

    /** The `Display` rendering of the error. */
    function ToString(): (s: string)
      ensures Other? ==> s == msg
      ensures Network? ==> |s| > |msg| && s[|s| - |msg|..] == msg
    {
      match this
      case Network(m) => "network error: " + m
      case Other(m) => m
    }
  }

  /** One item pulled from the confirmation stream: an event, or an error the stream reported. */
  type StreamItem = Result<FuelBlockCommittedOnL1, Error>

  /**
   * The contract as the listener sees it: for each starting L1 height, either the finite
   * prefix of the event stream that is pulled, or the error raised while establishing it.
   */
  datatype Contract = Contract(streamFrom: L1Height -> Result<seq<StreamItem>, Error>) {

    /** `event_streamer(height).establish_stream()`. */
    function EstablishStream(height: L1Height): Result<seq<StreamItem>, Error> {
      streamFrom(height)
    }
  }
}
