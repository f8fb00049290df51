/**
 * The hub's server-to-client and bidirectional streaming methods. Each creates
 * an unbounded channel, fills it from a background task and completes it; the
 * model runs that task until it finishes or stops for good (a wait that never
 * returns, an exception nobody observes) before returning the reader, which
 * leaves the items and the completion exactly as the task leaves them.
 */
module ServerStreams {
  import opened Results
  import opened Int32Arith
  import opened Channels
  import opened Modifiers

  /**
   * `StreamNumbers(count, delay)`: writes 0, 1, ..., count - 1, waiting
   * `delay` ms after each, and completes. A negative delay stops the task
   * after the first write: `Task.Delay(-1)` never returns and any smaller
   * value throws ArgumentOutOfRangeException inside the discarded task, so
   * the channel holds [0] and is never completed.
   */
  method StreamNumbers(count: Int32, delay: Int32) returns (reader: Channel<Int32>)
    ensures fresh(reader) && reader.Valid() && !reader.ended && reader.consumed == []
    ensures count > 0 && delay < 0 ==> reader.buffer == [0] && reader.state == Open
    ensures count <= 0 || delay >= 0 ==>
              |reader.buffer| == (if count <= 0 then 0 else count) &&
              (forall i :: 0 <= i < |reader.buffer| ==> reader.buffer[i] == i) &&
              reader.state == Completed
  {
    var channel := new Channel<Int32>();
    reader := channel;
    var i: Int32 := 0;
    while i < count
      invariant 0 <= i && (count > 0 ==> i <= count) && (count <= 0 ==> i == 0)
      invariant delay < 0 ==> i == 0
      invariant |channel.buffer| == i
      invariant forall j :: 0 <= j < i ==> channel.buffer[j] == j
      invariant channel.Valid() && !channel.ended
      invariant channel.state == Open && channel.consumed == []
    {
      var accepted := channel.Write(i);
      if delay < 0 {
        return;
      }
      i := i + 1;
    }
    var completed := channel.TryComplete(None);
  }

  /** The fault `ErrorStreamMethod` completes its channel with. */
  const StreamingError: Fault := InvalidOperation("Error occurred while streaming.")

  /** `ErrorStreamMethod`: writes "abc", then null, then completes with a fault. */
  method ErrorStreamMethod() returns (reader: Channel<Option<string>>)
    ensures fresh(reader) && reader.Valid() && !reader.ended
    ensures reader.buffer == [Some("abc"), None]
    ensures reader.state == Faulted(StreamingError) && reader.consumed == []
  {
    var channel := new Channel<Option<string>>();
    var first := channel.Write(Some("abc"));
    var second := channel.Write(None);
    var completed := channel.TryComplete(Some(StreamingError));
    reader := channel;
  }

  /** `StreamManyArgs(items)`: writes the items unchanged, in order, and completes. */
  method StreamManyArgs<T>(items: seq<T>) returns (reader: Channel<T>)
    ensures fresh(reader) && reader.Valid() && !reader.ended
    ensures reader.buffer == items
    ensures reader.state == Completed && reader.consumed == []
  {
    var channel := new Channel<T>();
    for i := 0 to |items|
      invariant channel.buffer == items[..i]
      invariant channel.Valid() && !channel.ended
      invariant channel.state == Open && channel.consumed == []
    {
      var accepted := channel.Write(items[i]);
      assert items[..i + 1] == items[..i] + [items[i]];
    }
    assert items[..|items|] == items;
    var completed := channel.TryComplete(None);
    reader := channel;
  }

  /** `StreamManyArgs0`: the fixed items 1, 2, ..., 10. */
  method StreamManyArgs0() returns (reader: Channel<int>)
    ensures fresh(reader) && reader.Valid() && !reader.ended
    ensures reader.buffer == [1, 2, 3, 4, 5, 6, 7, 8, 9, 10]
    ensures reader.state == Completed
  {
    reader := StreamManyArgs([1, 2, 3, 4, 5, 6, 7, 8, 9, 10]);
  }

  /** `StreamManyArgs1` .. `StreamManyArgs8`: their arguments, in positional order. */
  method StreamManyArgs1<T>(n1: T) returns (reader: Channel<T>)
    ensures fresh(reader) && reader.Valid() && !reader.ended
    ensures reader.buffer == [n1] && reader.state == Completed
  {
    reader := StreamManyArgs([n1]);
  }

  method StreamManyArgs2<T>(n1: T, n2: T) returns (reader: Channel<T>)
    ensures fresh(reader) && reader.Valid() && !reader.ended
    ensures reader.buffer == [n1, n2] && reader.state == Completed
  {
    reader := StreamManyArgs([n1, n2]);
  }

  method StreamManyArgs3<T>(n1: T, n2: T, n3: T) returns (reader: Channel<T>)
    ensures fresh(reader) && reader.Valid() && !reader.ended
    ensures reader.buffer == [n1, n2, n3] && reader.state == Completed
  {
    reader := StreamManyArgs([n1, n2, n3]);
  }

  method StreamManyArgs4<T>(n1: T, n2: T, n3: T, n4: T) returns (reader: Channel<T>)
    ensures fresh(reader) && reader.Valid() && !reader.ended
    ensures reader.buffer == [n1, n2, n3, n4] && reader.state == Completed
  {
    reader := StreamManyArgs([n1, n2, n3, n4]);
  }

  method StreamManyArgs5<T>(n1: T, n2: T, n3: T, n4: T, n5: T) returns (reader: Channel<T>)
    ensures fresh(reader) && reader.Valid() && !reader.ended
    ensures reader.buffer == [n1, n2, n3, n4, n5] && reader.state == Completed
  {
    reader := StreamManyArgs([n1, n2, n3, n4, n5]);
  }

  method StreamManyArgs6<T>(n1: T, n2: T, n3: T, n4: T, n5: T, n6: T) returns (reader: Channel<T>)
    ensures fresh(reader) && reader.Valid() && !reader.ended
    ensures reader.buffer == [n1, n2, n3, n4, n5, n6] && reader.state == Completed
  {
    reader := StreamManyArgs([n1, n2, n3, n4, n5, n6]);
  }

  method StreamManyArgs7<T>(n1: T, n2: T, n3: T, n4: T, n5: T, n6: T, n7: T) returns (reader: Channel<T>)
    ensures fresh(reader) && reader.Valid() && !reader.ended
    ensures reader.buffer == [n1, n2, n3, n4, n5, n6, n7] && reader.state == Completed
  {
    reader := StreamManyArgs([n1, n2, n3, n4, n5, n6, n7]);
  }

  method StreamManyArgs8<T>(n1: T, n2: T, n3: T, n4: T, n5: T, n6: T, n7: T, n8: T) returns (reader: Channel<T>)
    ensures fresh(reader) && reader.Valid() && !reader.ended
    ensures reader.buffer == [n1, n2, n3, n4, n5, n6, n7, n8] && reader.state == Completed
  {
    reader := StreamManyArgs([n1, n2, n3, n4, n5, n6, n7, n8]);
  }

  /**
   * `StreamWithManyArgsWithClientStream`: for each input item, in order,
   * writes value * modifiers[idx] (32-bit) and advances idx cyclically, then
   * completes. With no modifiers and a non-empty input, `modifiers[0]` throws
   * inside the discarded background task: nothing is written and the channel
   * is never completed.
   */
  method StreamWithManyArgsWithClientStream(stream: seq<Int32>, modifiers: seq<Int32>)
    returns (reader: Channel<Int32>)
    ensures fresh(reader) && reader.Valid() && !reader.ended && reader.consumed == []
    ensures |modifiers| > 0 || stream == [] ==>
              reader.buffer == CyclicProducts(stream, modifiers) && reader.state == Completed
    ensures |modifiers| == 0 && stream != [] ==> reader.buffer == [] && reader.state == Open
  {
    var channel := new Channel<Int32>();
    reader := channel;
    if |modifiers| == 0 && stream != [] {
      // The first item reads `modifiers[0]`, which throws.
      return;
    }
    var idx := 0;
    var k := 0;
    while k < |stream|
      invariant 0 <= k <= |stream| && 0 <= idx
      invariant |modifiers| > 0 ==> idx == k % |modifiers|
      invariant channel.buffer == CyclicProducts(stream[..k], modifiers)
      invariant channel.Valid() && !channel.ended
      invariant channel.state == Open && channel.consumed == []
    {
      var product := Wrap32((stream[k] as int) * (modifiers[idx] as int));
      var accepted := channel.Write(product);
      CyclicProductsStep(stream, modifiers, k);
      idx := (idx + 1) % |modifiers|;
      NextIndex(k, |modifiers|);
      k := k + 1;
    }
    assert stream[..k] == stream;
    var completed := channel.TryComplete(None);
  }

  /** `StreamManyArgs0WithClientStream`: modifiers [1], so the input items unchanged. */
  method StreamManyArgs0WithClientStream(stream: seq<Int32>) returns (reader: Channel<Int32>)
    ensures fresh(reader) && reader.Valid() && !reader.ended
    ensures reader.buffer == stream && reader.state == Completed
  {
    reader := StreamWithManyArgsWithClientStream(stream, [1]);
    assert CyclicProducts(stream, [1]) == stream;
  }

  /** `StreamManyArgs1WithClientStream` .. `StreamManyArgs4WithClientStream`: modifiers [n1, ..., nk]. */
  method StreamManyArgs1WithClientStream(stream: seq<Int32>, n1: Int32) returns (reader: Channel<Int32>)
    ensures fresh(reader) && reader.Valid() && !reader.ended
    ensures reader.buffer == CyclicProducts(stream, [n1]) && reader.state == Completed
  {
    reader := StreamWithManyArgsWithClientStream(stream, [n1]);
  }

  method StreamManyArgs2WithClientStream(stream: seq<Int32>, n1: Int32, n2: Int32)
    returns (reader: Channel<Int32>)
    ensures fresh(reader) && reader.Valid() && !reader.ended
    ensures reader.buffer == CyclicProducts(stream, [n1, n2]) && reader.state == Completed
  {
    reader := StreamWithManyArgsWithClientStream(stream, [n1, n2]);
  }

  method StreamManyArgs3WithClientStream(stream: seq<Int32>, n1: Int32, n2: Int32, n3: Int32)
    returns (reader: Channel<Int32>)
    ensures fresh(reader) && reader.Valid() && !reader.ended
    ensures reader.buffer == CyclicProducts(stream, [n1, n2, n3]) && reader.state == Completed
  {
    reader := StreamWithManyArgsWithClientStream(stream, [n1, n2, n3]);
  }

  method StreamManyArgs4WithClientStream(stream: seq<Int32>, n1: Int32, n2: Int32, n3: Int32, n4: Int32)
    returns (reader: Channel<Int32>)
    ensures fresh(reader) && reader.Valid() && !reader.ended
    ensures reader.buffer == CyclicProducts(stream, [n1, n2, n3, n4]) && reader.state == Completed
  {
    reader := StreamWithManyArgsWithClientStream(stream, [n1, n2, n3, n4]);
  }
}
