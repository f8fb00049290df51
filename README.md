# TestHub streaming model

A Dafny model of the streaming and folding logic of the SignalR test server hub
(`Examples/TestServer/TestHub.cs`), the server side that the Swift SignalR client
is tested against. The hub has three kinds of streaming methods, all modelled here:

- **Client-to-server streams** (`InvokeWithManyArgsWithClientStream` and its void
  twin). These read a finite stream of `int`s and fold it with a cyclic modifier
  array: `result += value * modifiers[idx]; idx = (idx + 1) % modifiers.Length`.
  The per-arity wrappers `InvokeWithArgs{0..4}[Void]WithClientStream` pass the
  array `[1]` or `[arg1, ..., argk]`.
- **Server-to-client streams** (`StreamNumbers`, `ErrorStreamMethod`,
  `StreamManyArgs` and `StreamManyArgs{0..8}`). Each fills an unbounded channel
  and then completes it, normally or with a fault.
- **Bidirectional streams** (`StreamWithManyArgsWithClientStream` and
  `StreamManyArgs{0..4}WithClientStream`). These write one product per input
  item into a channel.

It also models `SortByName`, `Echo` and `Concatenate`.

Modules, one per concern:

- `Results` (results.dfy): `Option`, and `Result` for a method that returns or throws.
- `Int32Arith` (int32.dfy): C# `int` wrap-around. The hub is not compiled with
  `checked`, so products and sums are truncated to 32 bits in two's complement
  (`Wrap32`).
- `Channels` (channels.dfy): `Channel<T>`, a class holding a FIFO `buffer`, a
  completion `state` (`Open | Completed | Faulted`) and a ghost record of what the
  reader has `consumed`, plus a flag `ended` that the reader sets once it has
  taken the terminal signal. Its methods are `Write`, `TryComplete`, `TryRead`,
  `ReadNext` and `ReadAll`. `ReadAll` is the framework's loop that drains a
  returned `ChannelReader`. The
  function `Observed` gives what a consumer receives: the items in order, then
  one terminal signal.
- `Modifiers` (modifiers.dfy): the closed form `CyclicSum(v, m)` = Σ v[i]·m[i mod |m|],
  the truncated products `CyclicProducts`, and lemmas about them.
- `ClientStreams` (client_streams.dfy): the fold methods and their wrappers.
- `ServerStreams` (server_streams.dfy): the producers and their wrappers.
- `Consumers` (consumers.dfy): what a caller of each streaming method
  receives once the returned channel is drained.
- `People` (people.dfy): `SortByName` as a stable insertion sort.
- `Text` (text.dfy): `Echo`, and `Concatenate` with decimal formatting.

Modelling choices:

- The input `IAsyncEnumerable<int>` is the finite `seq<Int32>` the caller delivers. It is read once, in order.
- The `int[]` modifier arrays and `object[]` item arrays are only read, so they are `seq` parameters.
- A producer's `Task.Run` body runs until it finishes or stops for good before
  the model returns the reader. It stops for good at a wait that never returns or
  at an exception inside the discarded task. The items and the completion it
  leaves are the ones a concurrent reader would eventually see.
- `StreamNumbers` with a negative `delay` and `count > 0`: `Task.Delay(-1)` waits
  forever, and any smaller value throws `ArgumentOutOfRangeException` inside the
  task. Either way the channel holds only `0` and is never completed.
- A write to a completed channel is refused (`Write` returns false). The library
  throws `ChannelClosedException` there. The hub never does this. The model proves
  every write it makes is accepted, because each channel is still open.
- `Channel.Terminal` is the library's rule for when `ChannelReader.Completion`
  fires: after the writer has completed, and only once every buffered item is
  read. `ReadNext` takes the terminal signal only when `Terminal()` shows it.
  That keeps the channel's invariant (`ended` only with an empty buffer and a
  completed writer). `ReadNext` then proves that what the reader has received so
  far is always a prefix of `Observed(Written(), state)`. So an item can never
  arrive after a fault or a normal end.
- Fault case for the folds: with an empty modifier array and a non-empty input,
  the first item throws `IndexOutOfRangeException` at `modifiers[0]`.
  `InvokeWithManyArgs[Void]WithClientStream` then return `Err(IndexOutOfRange)`.
  An empty input gives `0` for any modifier array, including an empty one.
  One could read the cyclic update as a division by zero on `% modifiers.Length`.
  The code never reaches the `%`: the index fault comes first.
- Fault case for the bidirectional method: in
  `StreamWithManyArgsWithClientStream` the same fault occurs inside a discarded
  background task (`_ = Task.Run(...)`). Nothing is written and the channel is
  never completed, so the caller sees no message at all. All its wrappers pass
  non-empty arrays, and the model proves each of them completes normally.
- Sort order: `SortByName` uses an ordinal, character-by-character
  lexicographic order on names. `OrderBy(...).ThenBy(...)` is a stable sort by
  `(LastName, FirstName)`, and `People.SortByNameIsOrderByThenBy` proves that any
  ordered, stable arrangement of the input equals the model's result.

## Model

| member | source | states |
|---|---|---|
| `Int32Arith.Wrap32` | Examples/TestServer/TestHub.cs:222 | the stored `int` agrees with the exact value modulo 2^32 and equals it when it is in range |
| `Int32Arith.WrapCongruent` | Examples/TestServer/TestHub.cs:222 | values equal modulo 2^32 are stored as the same `int` |
| `Int32Arith.WrapAdd` | Examples/TestServer/TestHub.cs:222 | wrapping an addend early does not change the wrapped sum of `result += value * modifiers[idx]` |
| `Channels.ObservedOrder` | Examples/TestServer/TestHub.cs:52-82 | a drained channel yields its items first, in FIFO order, then exactly one terminal signal if completed (none while open); the stream is well formed |
| `Channels.ObservedRoundTrip` | Examples/TestServer/TestHub.cs:52-82 | the items and the completion can be recovered from what the consumer observes |
| `Channels.WellFormedIsObserved` | Examples/TestServer/TestHub.cs:52-82 | every stream whose terminal signal (if any) is last is the observation of some channel |
| `Channels.Channel.constructor` | Examples/TestServer/TestHub.cs:54 | `Channel.CreateUnbounded` gives an empty, open channel |
| `Channels.Channel.Write` | Examples/TestServer/TestHub.cs:60 | an open channel appends the item at the end, and a completed one refuses it; nothing else changes |
| `Channels.Channel.TryComplete` | Examples/TestServer/TestHub.cs:64 | the first call completes the channel, normally or with the given fault; later calls change nothing; buffered items stay |
| `Channels.Channel.TryRead` | Examples/TestServer/TestHub.cs:67 | removes and returns the oldest item, or nothing when the buffer is empty; what has been written is unchanged |
| `Channels.DeliveredIsPrefix` | Examples/TestServer/TestHub.cs:52-82 | under the reader invariant, the events delivered so far are a prefix of the observation of everything written, and all of it once the terminal is taken |
| `Channels.Channel.ReadNext` | Examples/TestServer/TestHub.cs:67 | delivers the oldest item, or the terminal signal once the buffer is empty and the writer has completed (once only), or nothing while open; keeps the invariant, and what has been received stays a prefix of the observation of what was written |
| `Channels.Channel.ReadAll` | Examples/TestServer/TestHub.cs:67 | draining yields exactly `Observed(buffer, state)`: all buffered items in order, then the terminal signal; the reader has ended iff the writer had completed |
| `Modifiers.NextIndex` | Examples/TestServer/TestHub.cs:223 | `idx = (idx + 1) % Length` keeps `idx` equal to the number of consumed items mod Length |
| `Modifiers.CyclicSumStep` | Examples/TestServer/TestHub.cs:220-224 | consuming item k adds v[k] * m[k mod m.Length] to the closed-form sum |
| `Modifiers.CyclicSumOfThree` | Examples/TestServer/TestHub.cs:216-226 | with modifiers [m0, m1], input [v0, v1, v2] folds to v0*m0 + v1*m1 + v2*m0 |
| `Modifiers.CyclicSumOfOne` | Examples/TestServer/TestHub.cs:191-194 | the modifier array [1] makes the fold the plain sum |
| `Modifiers.SumOfWrapped` | Examples/TestServer/TestHub.cs:222 | summing 32-bit-truncated terms with `int` addition gives the truncated exact sum |
| `Modifiers.ProductsSumToFold` | Examples/TestServer/TestHub.cs:316-330 | the `int` sum of the bidirectional outputs equals the client-stream fold of the same input and modifiers |
| `ClientStreams.InvokeWithManyArgsWithClientStream` | Examples/TestServer/TestHub.cs:216-226 | result is Wrap32(Σ v[i]·m[i mod m.Length]); faults with IndexOutOfRange iff the modifiers are empty and the input is not; empty input gives 0 |
| `ClientStreams.InvokeWithManyArgsVoidWithClientStream` | Examples/TestServer/TestHub.cs:179-189 | broadcasts "ClientStreamResult" with the same fold value; faults, with nothing sent, in the same case |
| `ClientStreams.InvokeWithArgs0WithClientStream` | Examples/TestServer/TestHub.cs:191-194 | the 32-bit sum of the items, never a fault |
| `ClientStreams.InvokeWithArgs1WithClientStream` | Examples/TestServer/TestHub.cs:196-199 | the fold with modifiers exactly [arg1], never a fault |
| `ClientStreams.InvokeWithArgs2WithClientStream` | Examples/TestServer/TestHub.cs:201-204 | the fold with modifiers exactly [arg1, arg2], never a fault |
| `ClientStreams.InvokeWithArgs3WithClientStream` | Examples/TestServer/TestHub.cs:206-209 | the fold with modifiers exactly [arg1, arg2, arg3], never a fault |
| `ClientStreams.InvokeWithArgs4WithClientStream` | Examples/TestServer/TestHub.cs:211-214 | the fold with modifiers exactly [arg1, ..., arg4], never a fault |
| `ClientStreams.InvokeWithArgs0VoidWithClientStream` | Examples/TestServer/TestHub.cs:154-157 | broadcasts the 32-bit sum of the items |
| `ClientStreams.InvokeWithArgs1VoidWithClientStream` | Examples/TestServer/TestHub.cs:159-162 | broadcasts the fold with modifiers [arg1] |
| `ClientStreams.InvokeWithArgs2VoidWithClientStream` | Examples/TestServer/TestHub.cs:164-167 | broadcasts the fold with modifiers [arg1, arg2] |
| `ClientStreams.InvokeWithArgs3VoidWithClientStream` | Examples/TestServer/TestHub.cs:169-172 | broadcasts the fold with modifiers [arg1, arg2, arg3] |
| `ClientStreams.InvokeWithArgs4VoidWithClientStream` | Examples/TestServer/TestHub.cs:174-177 | broadcasts the fold with modifiers [arg1, ..., arg4] |
| `ClientStreams.FoldOfThreeWithTwoModifiers` | Examples/TestServer/TestHub.cs:201-204 | the two-modifier wrapper reuses m0 for the third item |
| `ServerStreams.StreamNumbers` | Examples/TestServer/TestHub.cs:52-68 | with delay >= 0 or count <= 0, buffers exactly 0, 1, ..., count-1 (nothing when count <= 0) and completes normally; with a negative delay and count > 0, buffers only 0 and stays open |
| `ServerStreams.ErrorStreamMethod` | Examples/TestServer/TestHub.cs:70-82 | buffers "abc" then null, then completes with the InvalidOperation fault |
| `ServerStreams.StreamManyArgs` | Examples/TestServer/TestHub.cs:277-289 | buffers the given items unchanged, in order, and completes normally |
| `ServerStreams.StreamManyArgs0` | Examples/TestServer/TestHub.cs:233-236 | buffers 1..10 and completes |
| `ServerStreams.StreamManyArgs1` | Examples/TestServer/TestHub.cs:238-241 | buffers [n1] and completes |
| `ServerStreams.StreamManyArgs2` | Examples/TestServer/TestHub.cs:243-246 | buffers [n1, n2] and completes |
| `ServerStreams.StreamManyArgs3` | Examples/TestServer/TestHub.cs:248-251 | buffers [n1, n2, n3] and completes |
| `ServerStreams.StreamManyArgs4` | Examples/TestServer/TestHub.cs:253-256 | buffers [n1, ..., n4] in positional order and completes |
| `ServerStreams.StreamManyArgs5` | Examples/TestServer/TestHub.cs:258-261 | buffers [n1, ..., n5] in positional order and completes |
| `ServerStreams.StreamManyArgs6` | Examples/TestServer/TestHub.cs:262-265 | buffers [n1, ..., n6] in positional order and completes |
| `ServerStreams.StreamManyArgs7` | Examples/TestServer/TestHub.cs:267-270 | buffers [n1, ..., n7] in positional order and completes |
| `ServerStreams.StreamManyArgs8` | Examples/TestServer/TestHub.cs:272-275 | buffers [n1, ..., n8] in positional order and completes |
| `ServerStreams.StreamWithManyArgsWithClientStream` | Examples/TestServer/TestHub.cs:316-330 | buffers out[i] = Wrap32(v[i]·m[i mod m.Length]) for every input item and completes; with no modifiers and a non-empty input, writes nothing and never completes |
| `ServerStreams.StreamManyArgs0WithClientStream` | Examples/TestServer/TestHub.cs:291-294 | echoes the input items unchanged and completes |
| `ServerStreams.StreamManyArgs1WithClientStream` | Examples/TestServer/TestHub.cs:296-299 | the cyclic products with modifiers [n1], completed |
| `ServerStreams.StreamManyArgs2WithClientStream` | Examples/TestServer/TestHub.cs:301-304 | the cyclic products with modifiers [n1, n2], completed |
| `ServerStreams.StreamManyArgs3WithClientStream` | Examples/TestServer/TestHub.cs:306-309 | the cyclic products with modifiers [n1, n2, n3], completed |
| `ServerStreams.StreamManyArgs4WithClientStream` | Examples/TestServer/TestHub.cs:311-314 | the cyclic products with modifiers [n1, ..., n4], completed |
| `Consumers.ObserveStreamNumbers` | Examples/TestServer/TestHub.cs:52-68 | with delay >= 0 or count <= 0, the caller receives exactly 0..count-1 in increasing order, then exactly one normal end; with a negative delay and count > 0, only 0 and no terminal signal |
| `Consumers.ObserveErrorStream` | Examples/TestServer/TestHub.cs:70-82 | the caller receives "abc", then null, then the fault, in that order |
| `Consumers.ObserveStreamManyArgs` | Examples/TestServer/TestHub.cs:277-289 | the caller receives the items unchanged (same count, same order), then one normal end |
| `Consumers.ObserveBidirectional` | Examples/TestServer/TestHub.cs:316-330 | one output per input, out[i] = Wrap32(v[i]·m[i mod m.Length]), then one end; with no modifiers and a non-empty input, the caller receives nothing |
| `Consumers.SumOfBidirectionalOutputs` | Examples/TestServer/TestHub.cs:316-330 | feeding the bidirectional outputs into the arity-0 client stream gives the same result as the client-stream fold |
| `People.StrLessIrreflexive` | Examples/TestServer/TestHub.cs:49 | the name order is irreflexive |
| `People.StrLessTransitive` | Examples/TestServer/TestHub.cs:49 | the name order is transitive |
| `People.StrLessTotal` | Examples/TestServer/TestHub.cs:49 | any two names are equal or ordered one way |
| `People.KeyLessFacts` | Examples/TestServer/TestHub.cs:49 | the (LastName, FirstName) order is asymmetric and total on keys |
| `People.KeyLeTransitive` | Examples/TestServer/TestHub.cs:49 | "may stand before" is transitive |
| `People.InsertPermutes` | Examples/TestServer/TestHub.cs:49 | inserting adds exactly one person |
| `People.InsertOrdered` | Examples/TestServer/TestHub.cs:49 | inserting into an ordered list keeps it ordered |
| `People.InsertStable` | Examples/TestServer/TestHub.cs:49 | an inserted person lands before everyone with an equal key, and nobody else moves |
| `People.SortByName` | Examples/TestServer/TestHub.cs:47-50 | the result is non-decreasing by (LastName, FirstName) and a permutation of the input |
| `People.SortByNameStable` | Examples/TestServer/TestHub.cs:47-50 | people with equal keys keep their input order |
| `People.WithKeyMember` | Examples/TestServer/TestHub.cs:49 | a key with people under it occurs in the list |
| `People.NonEmptyHasKey` | Examples/TestServer/TestHub.cs:49 | the first person of a list is listed under their own key |
| `People.OrderedStableUnique` | Examples/TestServer/TestHub.cs:49 | two ordered arrangements that agree on the order within every key are equal |
| `People.SortByNameIsOrderByThenBy` | Examples/TestServer/TestHub.cs:47-50 | any ordered, stable rearrangement of the input is exactly `SortByName`'s result |
| `Text.Echo` | Examples/TestServer/TestHub.cs:21-25 | the reply is the message unchanged |
| `Text.NatToDecimal` | Examples/TestServer/TestHub.cs:230 | decimal digits only, at least one, no leading zero |
| `Text.ParseNatToDecimal` | Examples/TestServer/TestHub.cs:230 | reading the digits back gives the number |
| `Text.IntToDecimal` | Examples/TestServer/TestHub.cs:230 | a leading `-` exactly for negative numbers, then decimal digits only, at least one, with no leading zero (so no `-0`) |
| `Text.IntToDecimalRoundTrip` | Examples/TestServer/TestHub.cs:230 | formatting an `int` (with its sign) loses nothing |
| `Text.Concatenate` | Examples/TestServer/TestHub.cs:228-231 | the result is the string, one space, then the canonical decimal numeral of n: `-` exactly when n < 0, digits only after it, no leading zero (no `-0`), and it reads back as n |

## Left out

- The hub methods outside the streaming core are not modelled: `ErrorMethod`,
  `VoidMethod`, `InvokeGetNumber`, `InvokeGetPerson`, `InvokeManyArgs`,
  `InvokeNoArgs` and `InvokeManyArgs1..8`. `ErrorMethod` throws and `VoidMethod`
  returns a completed task. The others push their arguments to the caller through
  `Clients.Client(...).SendAsync` (`SendCoreAsync` for `InvokeManyArgs`), which
  belongs to the SignalR library. `InvokeNoArgs` and `InvokeManyArgs1..8` then
  return `true`. For the void fold, the model keeps only the message that
  `Clients.All.SendAsync` would broadcast.
- `GetHeader`, `KillConnection` and `ComputeSHA` are not modelled. They are
  HTTP context, connection abort and a foreign hash library.
- Logging is not modelled.
- `Task.Run`, `Task.Delay` and interleaving are not modelled. A non-negative
  `delay` of `StreamNumbers` only spaces out the writes, so it has no effect in
  the model. A negative one stops the producer, as described above. A reader running
  concurrently with the producer is not modelled: the reader drains after the
  producer finishes, which yields the same items and terminal signal.
- Cancellation and connection abort are not modelled. Neither is any
  synchronisation inside `System.Threading.Channels` beyond "FIFO buffer plus one
  completion".
- Method dispatch by name and argument count is not modelled. It is done by the
  SignalR framework, which is not part of this model.
- The culture-sensitive default string comparison of `OrderBy` is replaced by
  an ordinal lexicographic order. The fields of `Person` other than the two names
  are an opaque `details` value. `null` names are not modelled.
- `null` arrays are not modelled, because a `seq` cannot be null. A `null`
  `int[]` of modifiers makes `InvokeWithManyArgs[Void]WithClientStream` throw
  `NullReferenceException` at `modifiers[0]` on the first item. Inside
  `StreamWithManyArgsWithClientStream` the same exception ends the discarded
  task, and the channel stays open and empty. An empty input never touches the
  array. A `null` people array, or a `null` person in it, makes
  `SortByName` throw.
- `Concatenate`: a `null` string argument is not modelled. The number is
  formatted as in the invariant culture, with `-` as the minus sign.
- Boxing to `object` is not modelled. `StreamManyArgs` and its wrappers are
  generic in the item type, and `StreamManyArgs0` streams `int`s.
  `StreamWithManyArgsWithClientStream` and `StreamManyArgs0..4WithClientStream`
  write boxed `int`s into a `Channel<object>`; the model uses a `Channel<Int32>`.
- `Sources/SignalRClient/TransportDelegate.swift` and
  `SignalRClientTests/TestTransport.swift` are not modelled. They are transport
  plumbing: an interface, and a stub with no logic.
