/**
 * Properties of the M3Msg client options value: what `Validate` accepts,
 * the getter/setter round trip, and that setting never changes the receiver.
 */
module ClientProperties {
  import opened Wrappers
  import opened Client

  /** Fresh options fail validation with the "no producer set" error. */
  lemma NewOptionsFailValidation<P>()
    ensures NewM3MsgOptions<P>().Validate() == Fail(NoProducerSet)
    ensures NewM3MsgOptions<P>().Validate().error.Message() == "no producer set"
  {
  }

  /** The only error `Validate` returns is `NoProducerSet`, reading "no producer set". */
  lemma ValidateOnlyError<P>(o: M3MsgOptions<P>)
    ensures o.Validate() == Pass || o.Validate() == Fail(NoProducerSet)
    ensures o.Validate().Fail? ==> o.Validate().error.Message() == "no producer set"
  {
  }

  /** Round trip: the getter returns what the setter stored, `nil` included. */
  lemma SetThenGet<P>(o: M3MsgOptions<P>, v: Option<P>)
    ensures o.SetProducer(v).Producer() == v
  {
  }

  /**
   * Setting works on a copy that differs from the receiver only in the
   * producer: setting the receiver's old producer back on the copy gives back
   * a value equal to the receiver.
   */
  lemma SetProducerLeavesReceiver<P>(o: M3MsgOptions<P>, v: Option<P>)
    ensures o.SetProducer(v).SetProducer(o.Producer()) == o
  {
  }

  /** Last write wins for two consecutive sets. */
  lemma LastWriteWins<P>(o: M3MsgOptions<P>, a: Option<P>, b: Option<P>)
    ensures o.SetProducer(a).SetProducer(b).Producer() == b
    ensures o.SetProducer(a).SetProducer(b) == o.SetProducer(b)
  {
  }

  /** Setting `nil` makes any options invalid; setting a producer makes them valid. */
  lemma SetProducerDecidesValidity<P>(o: M3MsgOptions<P>, p: P)
    ensures o.SetProducer(None).Validate() == Fail(NoProducerSet)
    ensures o.SetProducer(Some(p)).Validate() == Pass
  {
  }

  /** Builder-style chaining: `o.SetProducer(vs[0]).SetProducer(vs[1])...`. */
  function SetChain<P>(o: M3MsgOptions<P>, vs: seq<Option<P>>): M3MsgOptions<P>
    decreases |vs|
  {
    if vs == [] then o else SetChain(o.SetProducer(vs[0]), vs[1..])
  }

  /**
   * A chain validates exactly when its last value is a producer (or, for an
   * empty chain, when the start value validates), and its only possible
   * failure is `NoProducerSet`.
   */
  lemma {:induction false} SetChainValidate<P>(o: M3MsgOptions<P>, vs: seq<Option<P>>)
    ensures SetChain(o, vs).Validate().Pass?
            <==> (if vs == [] then o.Validate().Pass? else vs[|vs| - 1].Some?)
    ensures SetChain(o, vs).Validate().Fail? ==> SetChain(o, vs).Validate().error == NoProducerSet
    decreases |vs|
  {
    if vs != [] {
      SetChainValidate(o.SetProducer(vs[0]), vs[1..]);
      if |vs| > 1 {
        assert vs[1..][|vs[1..]| - 1] == vs[|vs| - 1];
      }
    }
  }

  /**
   * Last write wins over any chain of sets: the chain's result is the
   * options carrying the last value set, whatever the start value held.
   */
  lemma {:induction false} SetChainLastWins<P>(o: M3MsgOptions<P>, vs: seq<Option<P>>)
    ensures SetChain(o, vs) == if vs == [] then o else M3MsgOptions(vs[|vs| - 1])
    decreases |vs|
  {
    if |vs| > 1 {
      SetChainLastWins(o.SetProducer(vs[0]), vs[1..]);
    }
  }
}
