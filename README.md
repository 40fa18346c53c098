# M3Msg client options

A Dafny model of the options value of the M3Msg aggregator client
(`src/aggregator/client/m3msg_options.go`, Go package `client`). The value
holds one optional producer. The operations are:

- `NewM3MsgOptions` builds options with no producer.
- `SetProducer` returns a copy that carries the given producer.
- `Producer` reads the producer.
- `Validate` rejects options that have no producer with the sentinel error
  `errM3MsgOptionsNoProducer` ("no producer set").

Modelling choices:

- The producer is a type parameter `P`. Nothing about its behaviour is modelled.
- The `nil` interface value of `producer.Producer` is `None` of `Wrappers.Option`.
- A Go `error` result is `Wrappers.Outcome<Client.Error>`: `Pass` is a `nil`
  error. `Client.Error` is open like Go's `error` interface:
  `NoProducerSet` is the sentinel and `Other(text)` is any other error, so
  that "`Validate` fails only with the sentinel" is a real statement.
- The source's options type is a pointer to a struct. `SetProducer` copies
  the struct before assigning the field, so no options value is ever changed
  after it is built. That makes the options an immutable value, modelled as
  a datatype (`Client.M3MsgOptions`) with member functions. Because of this,
  `Validate` and `Producer` change no state, by construction.
- Go compares the interface value with `nil`. A typed nil pointer stored in
  the interface is therefore a non-nil producer and passes `Validate`. Here
  that case is `Some(p)` for some `p`.

Files:

- `wrappers.dfy`: `Option` and `Outcome`.
- `m3msg_options.dfy`: module `Client`, which holds the error, the options
  datatype and its operations.
- `m3msg_options_properties.dfy`: module `ClientProperties`, the lemmas.
  `SetChain` there applies a sequence of `SetProducer` calls in order, the
  way Go builder chains like `o.SetProducer(a).SetProducer(b)` do.

## Model

| member | source | states |
|---|---|---|
| `Client.Error.Message` | src/aggregator/client/m3msg_options.go:29-31 | the sentinel error's text is "no producer set"; any other error reports its own text |
| `Client.NewM3MsgOptions` | src/aggregator/client/m3msg_options.go:49-52 | new options have no producer, and validating them fails with `NoProducerSet` |
| `Client.M3MsgOptions.Validate` | src/aggregator/client/m3msg_options.go:54-59 | passes iff a producer is set, fails iff it is nil, and the only failure is `NoProducerSet` |
| `Client.M3MsgOptions.SetProducer` | src/aggregator/client/m3msg_options.go:61-65 | the returned copy's getter gives back exactly the value set; the copy validates iff that value is non-nil |
| `Client.M3MsgOptions.Producer` | src/aggregator/client/m3msg_options.go:67-69 | the getter gives a producer exactly when the options validate, and nil exactly when validation fails with `NoProducerSet` |
| `ClientProperties.NewOptionsFailValidation` | src/aggregator/client/m3msg_options.go:50-57 | validating fresh options fails with the error whose text is "no producer set" |
| `ClientProperties.ValidateOnlyError` | src/aggregator/client/m3msg_options.go:30-59 | for every options value, `Validate` either passes or fails with the sentinel `NoProducerSet` (text "no producer set"), never with any other error |
| `ClientProperties.SetThenGet` | src/aggregator/client/m3msg_options.go:61-69 | getter/setter round trip for every value, nil included |
| `ClientProperties.SetProducerLeavesReceiver` | src/aggregator/client/m3msg_options.go:61-65 | setting the receiver's old producer back on the copy restores the receiver exactly; the receiver itself is unchanged by value semantics |
| `ClientProperties.LastWriteWins` | src/aggregator/client/m3msg_options.go:61-65 | `SetProducer(a).SetProducer(b)` returns `b` and equals `SetProducer(b)` |
| `ClientProperties.SetProducerDecidesValidity` | src/aggregator/client/m3msg_options.go:54-65 | setting nil makes any options fail with `NoProducerSet`; setting a producer makes them pass |
| `ClientProperties.SetChainValidate` | src/aggregator/client/m3msg_options.go:54-65 | a chain of sets validates iff its last value is non-nil (an empty chain: iff the start validates), and can fail only with `NoProducerSet` |
| `ClientProperties.SetChainLastWins` | src/aggregator/client/m3msg_options.go:61-65 | a non-empty chain of sets gives exactly the options holding the last value set, whatever the start held; an empty chain gives the start unchanged |

## Left out

- The `M3MsgOptions` interface type is not modelled separately. Its only implementation is `m3msgOptions`, modelled as the datatype.
- Pointer identity: `SetProducer` returns a new pointer each time. The model has values, not addresses, so two results holding the same producer are equal.
- The behaviour of `producer.Producer` (message production, network I/O): the producer is a type parameter.
- `src/collector/reporter/m3aggregator/reporter_test.go`: it tests a reporter whose code is not part of this model. What it checks depends on external matcher and client mocks, goroutines and sleep-based timing.
- `src/cmd/tools/m3ctl/yaml/generated/db_create.pb.go`: generated protobuf registration and accessor boilerplate.
