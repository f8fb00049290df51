/**
 * What a caller of each streaming hub method receives when the framework
 * drains the returned channel: the items in order, then one terminal signal.
 */
module Consumers {
  import opened Results
  import opened Int32Arith
  import opened Channels
  import opened Modifiers
  import opened ClientStreams
  import opened ServerStreams

  /**
   * StreamNumbers: exactly 0, 1, ..., count - 1, in order, then one normal end.
   * With a negative delay and count > 0 the producer stops for good after 0:
   * the caller sees that one item and never a terminal signal.
   */
  method ObserveStreamNumbers(count: Int32, delay: Int32) returns (events: seq<StreamEvent<Int32>>)
    ensures count > 0 && delay < 0 ==> events == [Item(0)]
    ensures count <= 0 || delay >= 0 ==>
              |events| == (if count <= 0 then 0 else count) + 1 &&
              (forall i :: 0 <= i < |events| - 1 ==> events[i] == Item(i)) &&
              events[|events| - 1] == End
  {
    var reader := StreamNumbers(count, delay);
    ghost var items, state := reader.buffer, reader.state;
    events := reader.ReadAll();
    ObservedOrder(items, state);
  }

  /** ErrorStreamMethod: "abc", then null, then the fault; the fault overtakes neither item. */
  method ObserveErrorStream() returns (events: seq<StreamEvent<Option<string>>>)
    ensures events == [Item(Some("abc")), Item(None), EndWithError(StreamingError)]
  {
    var reader := ErrorStreamMethod();
    events := reader.ReadAll();
    ObservedOrder([Some("abc"), None], Faulted(StreamingError));
  }

  /** StreamManyArgs: the given items unchanged, same count, same order, then one normal end. */
  method ObserveStreamManyArgs<T>(items: seq<T>) returns (events: seq<StreamEvent<T>>)
    ensures |events| == |items| + 1
    ensures forall i :: 0 <= i < |items| ==> events[i] == Item(items[i])
    ensures events[|items|] == End
  {
    var reader := StreamManyArgs(items);
    events := reader.ReadAll();
    ObservedOrder(items, Completed);
  }

  /**
   * The bidirectional stream: one output per input, out[i] = v[i] * m[i mod |m|]
   * in 32 bits, then one normal end. With no modifiers a non-empty input yields
   * no message at all, not even a terminal one.
   */
  method ObserveBidirectional(stream: seq<Int32>, modifiers: seq<Int32>)
    returns (events: seq<StreamEvent<Int32>>)
    ensures |modifiers| == 0 && stream != [] ==> events == []
    ensures |modifiers| > 0 || stream == [] ==>
              |events| == |stream| + 1 && events[|stream|] == End &&
              forall i :: 0 <= i < |stream| ==>
                events[i] == Item(Wrap32((stream[i] as int) * (modifiers[i % |modifiers|] as int)))
  {
    var reader := StreamWithManyArgsWithClientStream(stream, modifiers);
    ghost var items, state := reader.buffer, reader.state;
    events := reader.ReadAll();
    ObservedOrder(items, state);
  }

  /**
   * Feeding the bidirectional outputs back through the arity-0 client stream
   * (a plain `int` sum) gives the client-stream fold of the original input.
   */
  method SumOfBidirectionalOutputs(stream: seq<Int32>, modifiers: seq<Int32>)
    returns (piped: Result<Int32, Fault>, direct: Result<Int32, Fault>)
    requires |modifiers| > 0
    ensures direct.Ok? && piped == direct
  {
    var reader := StreamWithManyArgsWithClientStream(stream, modifiers);
    var events := reader.ReadAll();
    ObservedRoundTrip(CyclicProducts(stream, modifiers), Completed);
    piped := InvokeWithArgs0WithClientStream(ItemsOf(events));
    direct := InvokeWithManyArgsWithClientStream(stream, modifiers);
    ProductsSumToFold(stream, modifiers);
  }
}
