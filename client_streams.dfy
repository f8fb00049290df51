/**
 * The hub's client-to-server streaming methods: they consume a finite input
 * stream of `int`s and fold it with a cyclic array of modifiers. The input
 * stream is the sequence of items the caller delivers, read once, in order.
 */
module ClientStreams {
  import opened Results
  import opened Int32Arith
  import opened Channels
  import opened Modifiers

  /** `Clients.All.SendAsync(target, arg)`: the message broadcast to every caller. */
  datatype Broadcast = SendToAll(target: string, arg: Int32)

  /**
   * `InvokeWithManyArgsWithClientStream`: accumulates value * modifiers[idx]
   * in 32-bit arithmetic, advancing idx cyclically. With no modifiers, the
   * first item makes `modifiers[0]` throw IndexOutOfRangeException.
   */
  method InvokeWithManyArgsWithClientStream(stream: seq<Int32>, modifiers: seq<Int32>)
    returns (r: Result<Int32, Fault>)
    ensures r.Err? <==> |modifiers| == 0 && |stream| > 0
    ensures r.Err? ==> r.error == IndexOutOfRange
    ensures r.Ok? ==> r.value == Wrap32(CyclicSum(stream, modifiers))
    ensures stream == [] ==> r == Ok(0)
  {
    var result: Int32 := 0;
    var idx := 0;
    var k := 0;
    while k < |stream|
      invariant 0 <= k <= |stream|
      invariant |modifiers| == 0 ==> k == 0
      invariant 0 <= idx
      invariant |modifiers| > 0 ==> idx == k % |modifiers|
      invariant result == Wrap32(CyclicSum(stream[..k], modifiers))
    {
      var value := stream[k];
      if idx >= |modifiers| {
        return Err(IndexOutOfRange);
      }
      var product := (value as int) * (modifiers[idx] as int);
      ghost var partial := CyclicSum(stream[..k], modifiers);
      result := Wrap32(result + Wrap32(product));
      idx := (idx + 1) % |modifiers|;
      NextIndex(k, |modifiers|);
      CyclicSumStep(stream, modifiers, k);
      WrapAdd(Wrap32(partial), product);
      WrapAdd(product, partial);
      k := k + 1;
    }
    assert stream[..k] == stream;
    r := Ok(result);
  }

  /**
   * `InvokeWithManyArgsVoidWithClientStream`: the same fold (the hub repeats
   * the loop verbatim), whose result is broadcast as "ClientStreamResult"
   * instead of returned. A fault means nothing is broadcast.
   */
  method InvokeWithManyArgsVoidWithClientStream(stream: seq<Int32>, modifiers: seq<Int32>)
    returns (sent: Result<Broadcast, Fault>)
    ensures sent.Err? <==> |modifiers| == 0 && |stream| > 0
    ensures sent.Err? ==> sent.error == IndexOutOfRange
    ensures sent.Ok? ==> sent.value == SendToAll("ClientStreamResult", Wrap32(CyclicSum(stream, modifiers)))
  {
    var result := InvokeWithManyArgsWithClientStream(stream, modifiers);
    match result
    case Ok(v) => sent := Ok(SendToAll("ClientStreamResult", v));
    case Err(e) => sent := Err(e);
  }

  /** `InvokeWithArgs0WithClientStream`: modifiers [1], so the plain 32-bit sum of the items. */
  method InvokeWithArgs0WithClientStream(stream: seq<Int32>) returns (r: Result<Int32, Fault>)
    ensures r == Ok(Wrap32(Sum(stream)))
  {
    r := InvokeWithManyArgsWithClientStream(stream, [1]);
    CyclicSumOfOne(stream);
  }

  /** `InvokeWithArgs1WithClientStream`: modifiers [arg1]; never faults. */
  method InvokeWithArgs1WithClientStream(stream: seq<Int32>, arg1: Int32) returns (r: Result<Int32, Fault>)
    ensures r == Ok(Wrap32(CyclicSum(stream, [arg1])))
  {
    r := InvokeWithManyArgsWithClientStream(stream, [arg1]);
  }

  /** `InvokeWithArgs2WithClientStream`: modifiers [arg1, arg2]; never faults. */
  method InvokeWithArgs2WithClientStream(stream: seq<Int32>, arg1: Int32, arg2: Int32)
    returns (r: Result<Int32, Fault>)
    ensures r == Ok(Wrap32(CyclicSum(stream, [arg1, arg2])))
  {
    r := InvokeWithManyArgsWithClientStream(stream, [arg1, arg2]);
  }

  /** `InvokeWithArgs3WithClientStream`: modifiers [arg1, arg2, arg3]; never faults. */
  method InvokeWithArgs3WithClientStream(stream: seq<Int32>, arg1: Int32, arg2: Int32, arg3: Int32)
    returns (r: Result<Int32, Fault>)
    ensures r == Ok(Wrap32(CyclicSum(stream, [arg1, arg2, arg3])))
  {
    r := InvokeWithManyArgsWithClientStream(stream, [arg1, arg2, arg3]);
  }

  /** `InvokeWithArgs4WithClientStream`: modifiers [arg1, arg2, arg3, arg4]; never faults. */
  method InvokeWithArgs4WithClientStream(stream: seq<Int32>, arg1: Int32, arg2: Int32, arg3: Int32, arg4: Int32)
    returns (r: Result<Int32, Fault>)
    ensures r == Ok(Wrap32(CyclicSum(stream, [arg1, arg2, arg3, arg4])))
  {
    r := InvokeWithManyArgsWithClientStream(stream, [arg1, arg2, arg3, arg4]);
  }

  /** `InvokeWithArgs0VoidWithClientStream`: broadcasts the plain 32-bit sum of the items. */
  method InvokeWithArgs0VoidWithClientStream(stream: seq<Int32>) returns (sent: Result<Broadcast, Fault>)
    ensures sent == Ok(SendToAll("ClientStreamResult", Wrap32(Sum(stream))))
  {
    sent := InvokeWithManyArgsVoidWithClientStream(stream, [1]);
    CyclicSumOfOne(stream);
  }

  /** `InvokeWithArgs1VoidWithClientStream`: broadcasts the fold with modifiers [arg1]. */
  method InvokeWithArgs1VoidWithClientStream(stream: seq<Int32>, arg1: Int32)
    returns (sent: Result<Broadcast, Fault>)
    ensures sent == Ok(SendToAll("ClientStreamResult", Wrap32(CyclicSum(stream, [arg1]))))
  {
    sent := InvokeWithManyArgsVoidWithClientStream(stream, [arg1]);
  }

  /** `InvokeWithArgs2VoidWithClientStream`: broadcasts the fold with modifiers [arg1, arg2]. */
  method InvokeWithArgs2VoidWithClientStream(stream: seq<Int32>, arg1: Int32, arg2: Int32)
    returns (sent: Result<Broadcast, Fault>)
    ensures sent == Ok(SendToAll("ClientStreamResult", Wrap32(CyclicSum(stream, [arg1, arg2]))))
  {
    sent := InvokeWithManyArgsVoidWithClientStream(stream, [arg1, arg2]);
  }

  /** `InvokeWithArgs3VoidWithClientStream`: broadcasts the fold with modifiers [arg1, arg2, arg3]. */
  method InvokeWithArgs3VoidWithClientStream(stream: seq<Int32>, arg1: Int32, arg2: Int32, arg3: Int32)
    returns (sent: Result<Broadcast, Fault>)
    ensures sent == Ok(SendToAll("ClientStreamResult", Wrap32(CyclicSum(stream, [arg1, arg2, arg3]))))
  {
    sent := InvokeWithManyArgsVoidWithClientStream(stream, [arg1, arg2, arg3]);
  }

  /** `InvokeWithArgs4VoidWithClientStream`: broadcasts the fold with modifiers [arg1, arg2, arg3, arg4]. */
  method InvokeWithArgs4VoidWithClientStream(stream: seq<Int32>, arg1: Int32, arg2: Int32, arg3: Int32, arg4: Int32)
    returns (sent: Result<Broadcast, Fault>)
    ensures sent == Ok(SendToAll("ClientStreamResult", Wrap32(CyclicSum(stream, [arg1, arg2, arg3, arg4]))))
  {
    sent := InvokeWithManyArgsVoidWithClientStream(stream, [arg1, arg2, arg3, arg4]);
  }

  /** Example: modifiers [m0, m1] over three items reuse m0 for the third item. */
  method FoldOfThreeWithTwoModifiers(v0: Int32, v1: Int32, v2: Int32, m0: Int32, m1: Int32)
    returns (r: Result<Int32, Fault>)
    ensures r == Ok(Wrap32((v0 as int) * m0 + (v1 as int) * m1 + (v2 as int) * m0))
  {
    r := InvokeWithArgs2WithClientStream([v0, v1, v2], m0, m1);
    CyclicSumOfThree(v0, v1, v2, m0, m1);
  }
}
