/**
 * The options value of the M3Msg aggregator client (package `client`).
 *
 * The options carry a single optional producer. The producer itself is
 * treated as an opaque value: the type parameter `P` stands for the
 * `producer.Producer` interface, and `None` for the `nil` interface value.
 * Every setter returns a fresh copy, so an options value is never changed
 * once built; a Dafny datatype value has exactly that behaviour.
 */
module Client {
  import opened Wrappers

  /** The message of the only error `Validate` can return. */
  const NoProducerMessage: string := "no producer set"

  /**
   * A Go `error` value. `NoProducerSet` is the sentinel
   * `errM3MsgOptionsNoProducer`; `Other` stands for any other error, since
   * Go's `error` is an open interface.
   */
  datatype Error = NoProducerSet | Other(text: string) {
    /** The text this error reports; Go's `Error()` method. */
    function Message(): (s: string)
      ensures NoProducerSet? ==> s == NoProducerMessage
      ensures Other? ==> s == text
    {
      match this
      case NoProducerSet => NoProducerMessage
      case Other(t) => t
    }
  }

  /** A set of M3Msg client options: one optional producer. */
  datatype M3MsgOptions<P> = M3MsgOptions(producer: Option<P>) {

    /** Passes exactly when a producer is set; otherwise fails with `NoProducerSet`. */
    function Validate(): (r: Outcome<Error>)
      ensures r.Pass? <==> producer.Some?
      ensures r.Fail? <==> producer.None?
      ensures r.Fail? ==> r.error == NoProducerSet
    {
      if producer.None? then Fail(NoProducerSet) else Pass
    }

    /** A copy of these options carrying `value` as the producer. */
    function SetProducer(value: Option<P>): (r: M3MsgOptions<P>)
      ensures r.Producer() == value
      ensures r.Validate().Pass? <==> value.Some?
    {
      var opts := this;
      opts.(producer := value)
    }

    /** The stored producer; it is present exactly when the options validate. */
    function Producer(): (r: Option<P>)
      ensures r.Some? <==> Validate().Pass?
      ensures r.None? <==> Validate() == Fail(NoProducerSet)
    {
      producer
    }
  }

  /** A new set of options, with no producer. */
  function NewM3MsgOptions<P>(): (r: M3MsgOptions<P>)
    ensures r.Producer() == None
    ensures r.Validate() == Fail(NoProducerSet)
  {
    M3MsgOptions(None)
  }
}
