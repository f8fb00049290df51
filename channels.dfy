/**
 * The unbounded channel (`Channel.CreateUnbounded<T>()`) that the hub's
 * streaming methods write into and the hub framework drains: a FIFO buffer of
 * items plus a one-time completion, either normal or with a fault.
 */
module Channels {
  import opened Results

  /** The exceptions the hub's streaming code raises or completes a channel with. */
  datatype Fault = InvalidOperation(message: string) | IndexOutOfRange

  /** The writer side's completion state: `TryComplete()` / `TryComplete(ex)`. */
  datatype Completion = Open | Completed | Faulted(fault: Fault)

  /** One message a consumer of a stream receives. */
  datatype StreamEvent<T> = Item(value: T) | End | EndWithError(fault: Fault)

  function ItemEvents<T>(items: seq<T>): (r: seq<StreamEvent<T>>)
  {
    seq(|items|, i requires 0 <= i < |items| => Item(items[i]))
  }

  function TerminalEvents<T>(state: Completion): (r: seq<StreamEvent<T>>)
  {
    match state
    case Open => []
    case Completed => [End]
    case Faulted(f) => [EndWithError(f)]
  }

  /** The one terminal message a completed channel ends with. */
  function TerminalEvent<T>(state: Completion): StreamEvent<T>
    requires !state.Open?
  {
    if state.Faulted? then EndWithError(state.fault) else End
  }

  /**
   * What a consumer that reads a channel to the end receives: every buffered
   * item, in order, and then the terminal signal if the writer has completed.
   */
  function Observed<T>(items: seq<T>, state: Completion): (r: seq<StreamEvent<T>>)
  {
    ItemEvents(items) + TerminalEvents(state)
  }

  /** A stream in which a terminal signal, if any, is the last message. */
  predicate WellFormed<T>(events: seq<StreamEvent<T>>)
  {
    forall i :: 0 <= i < |events| && !events[i].Item? ==> i == |events| - 1
  }

  /**
   * Items and the terminal signal never overtake each other: the first |items|
   * messages are the items in FIFO order, and exactly one terminal message
   * follows them once the channel is completed (none while it is open).
   */
  lemma ObservedOrder<T>(items: seq<T>, state: Completion)
    ensures |Observed(items, state)| == |items| + (if state.Open? then 0 else 1)
    ensures forall i :: 0 <= i < |items| ==> Observed(items, state)[i] == Item(items[i])
    ensures state == Completed ==> Observed(items, state)[|items|] == End
    ensures state.Faulted? ==> Observed(items, state)[|items|] == EndWithError(state.fault)
    ensures WellFormed(Observed(items, state))
  {
  }

  /** Items of a stream before its terminal signal. */
  function ItemsOf<T>(events: seq<StreamEvent<T>>): (r: seq<T>)
  {
    if events == [] then []
    else if events[0].Item? then [events[0].value] + ItemsOf(events[1..])
    else []
  }

  /** The completion a stream ends with; `Open` when it has no terminal signal. */
  function CompletionOf<T>(events: seq<StreamEvent<T>>): Completion
  {
    if events == [] then Open
    else match events[|events| - 1]
      case Item(_) => Open
      case End => Completed
      case EndWithError(f) => Faulted(f)
  }

  /** A channel's items and completion can be read back from what a consumer observes. */
  lemma {:induction false} ObservedRoundTrip<T>(items: seq<T>, state: Completion)
    ensures ItemsOf(Observed(items, state)) == items
    ensures CompletionOf(Observed(items, state)) == state
  {
    var events := Observed(items, state);
    if items != [] {
      ObservedRoundTrip(items[1..], state);
      assert events[1..] == Observed(items[1..], state);
      var n := |events| - 1;
      assert state.Open? ==> events[n] == Item(items[|items| - 1]);
    }
  }

  /** Conversely, every well-formed stream is what some channel yields. */
  lemma {:induction false} WellFormedIsObserved<T>(events: seq<StreamEvent<T>>)
    requires WellFormed(events)
    ensures events == Observed(ItemsOf(events), CompletionOf(events))
  {
    if events == [] {
    } else if events[0].Item? {
      var rest := events[1..];
      assert WellFormed(rest) by {
        forall i | 0 <= i < |rest| && !rest[i].Item? ensures i == |rest| - 1 {
          assert events[i + 1] == rest[i];
        }
      }
      WellFormedIsObserved(rest);
      assert CompletionOf(events) == CompletionOf(rest) by {
        if rest == [] {
          assert events == [events[0]];
        } else {
          assert events[|events| - 1] == rest[|rest| - 1];
        }
      }
      assert events == [events[0]] + rest;
    } else {
      assert |events| == 1;
      assert events == [events[0]];
    }
  }

  /**
   * The reader side's one rule: the terminal signal is taken only once the
   * buffer is empty and the writer has completed.
   */
  predicate ReaderInvariant<T>(buffer: seq<T>, state: Completion, ended: bool)
  {
    ended ==> buffer == [] && !state.Open?
  }

  /** What the reader has received: the items it took, then the terminal signal once taken. */
  function Delivered<T>(consumed: seq<T>, state: Completion, ended: bool): seq<StreamEvent<T>>
    requires ended ==> !state.Open?
  {
    ItemEvents(consumed) + (if ended then [TerminalEvent(state)] else [])
  }

  /**
   * Whatever writes and completions come between reads, the reader has
   * received a prefix of what the channel yields, and all of it once it has
   * taken the terminal signal.
   */
  lemma DeliveredIsPrefix<T>(consumed: seq<T>, buffer: seq<T>, state: Completion, ended: bool)
    requires ReaderInvariant(buffer, state, ended)
    ensures Delivered(consumed, state, ended) <= Observed(consumed + buffer, state)
    ensures ended ==> Delivered(consumed, state, ended) == Observed(consumed + buffer, state)
  {
    assert ItemEvents(consumed + buffer) == ItemEvents(consumed) + ItemEvents(buffer);
    if ended {
      assert consumed + buffer == consumed;
    }
  }

  /**
   * An unbounded channel. `buffer` holds what has been written and not yet
   * read; `consumed` (ghost) what the reader has already taken out; `ended`
   * whether the reader has taken the terminal signal and stopped.
   */
  class Channel<T> {
    var buffer: seq<T>
    var state: Completion
    ghost var consumed: seq<T>
    var ended: bool

    ghost predicate Valid()
      reads this
    {
      ReaderInvariant(buffer, state, ended)
    }

    /** Everything the writer has put into the channel, in order. */
    ghost function Written(): seq<T>
      reads this
    {
      consumed + buffer
    }

    /** Everything the reader has received so far. */
    ghost function Received(): seq<StreamEvent<T>>
      reads this
      requires Valid()
    {
      Delivered(consumed, state, ended)
    }

    /** `Channel.CreateUnbounded<T>()`: an empty, open channel. */
    constructor ()
      ensures Valid() && buffer == [] && state == Open && consumed == [] && !ended
    {
      buffer := [];
      state := Open;
      consumed := [];
      ended := false;
    }

    /**
     * `Writer.WriteAsync(x)`: the item joins the end of the queue while the
     * channel is open; once completed, the write is refused (the library
     * throws ChannelClosedException) and nothing changes.
     */
    method Write(x: T) returns (accepted: bool)
      requires Valid()
      modifies this
      ensures Valid()
      ensures accepted == old(state).Open?
      ensures buffer == if accepted then old(buffer) + [x] else old(buffer)
      ensures Written() == if accepted then old(Written()) + [x] else old(Written())
      ensures state == old(state) && consumed == old(consumed) && ended == old(ended)
    {
      accepted := state.Open?;
      if accepted {
        buffer := buffer + [x];
      }
    }

    /**
     * `Writer.TryComplete(fault)`: the first call completes the channel,
     * normally or with the fault; later calls are refused and change nothing.
     */
    method TryComplete(fault: Option<Fault>) returns (completed: bool)
      requires Valid()
      modifies this
      ensures Valid()
      ensures completed == old(state).Open?
      ensures state == if !completed then old(state)
                       else if fault.None? then Completed
                       else Faulted(fault.value)
      ensures buffer == old(buffer) && consumed == old(consumed) && ended == old(ended)
    {
      completed := state.Open?;
      if completed {
        state := if fault.None? then Completed else Faulted(fault.value);
      }
    }

    /** `Reader.TryRead`: takes the oldest buffered item, if there is one. */
    method TryRead() returns (item: Option<T>)
      requires Valid()
      modifies this
      ensures Valid()
      ensures old(buffer) == [] ==> item == None && buffer == []
      ensures old(buffer) != [] ==> item == Some(old(buffer)[0]) && buffer == old(buffer)[1..]
      ensures consumed == if item.None? then old(consumed) else old(consumed) + [item.value]
      ensures Written() == old(Written()) && state == old(state) && ended == old(ended)
    {
      if buffer == [] {
        item := None;
      } else {
        item := Some(buffer[0]);
        consumed := consumed + [buffer[0]];
        buffer := buffer[1..];
      }
    }

    /**
     * `Reader.Completion`, as the library defines it: the terminal state is
     * visible only once the writer has completed and every item was read.
     */
    function Terminal(): Option<Completion>
      reads this
    {
      if buffer == [] && !state.Open? then Some(state) else None
    }

    /**
     * One step of the framework's streaming loop: forward the terminal signal
     * if the completion is visible (once), otherwise the oldest item, if any.
     * The reader keeps holding a prefix of what the channel yields.
     */
    method ReadNext() returns (e: Option<StreamEvent<T>>)
      requires Valid()
      modifies this
      ensures Valid() && Written() == old(Written()) && state == old(state)
      ensures old(buffer) != [] ==>
                e == Some(Item(old(buffer)[0])) && buffer == old(buffer)[1..] &&
                consumed == old(consumed) + [old(buffer)[0]] && ended == old(ended)
      ensures old(buffer) == [] ==>
                buffer == [] && consumed == old(consumed) &&
                e == (if old(state).Open? || old(ended) then None else Some(TerminalEvent(old(state))))
      ensures Received() == old(Received()) + (if e.Some? then [e.value] else [])
      ensures Received() <= Observed(Written(), state)
    {
      var t := Terminal();
      if t.Some? {
        if ended {
          e := None;
        } else {
          ended := true;
          e := Some(TerminalEvent(t.value));
        }
      } else if buffer != [] {
        var item := TryRead();
        e := Some(Item(item.value));
        assert ItemEvents(consumed) == ItemEvents(old(consumed)) + [e.value];
      } else {
        e := None;
      }
      DeliveredIsPrefix(consumed, buffer, state, ended);
    }

    /**
     * The framework's streaming loop run to its end on a channel the reader
     * has not finished: every buffered item, then the terminal signal if the
     * channel is completed.
     */
    method ReadAll() returns (events: seq<StreamEvent<T>>)
      requires Valid() && !ended
      modifies this
      ensures Valid()
      ensures events == Observed(old(buffer), old(state))
      ensures buffer == [] && state == old(state) && ended == !old(state).Open?
      ensures consumed == old(consumed) + old(buffer)
    {
      ghost var pending := buffer;
      ghost var k := 0;
      events := [];
      while buffer != []
        invariant Valid() && !ended
        invariant 0 <= k <= |pending| && buffer == pending[k..]
        invariant events == ItemEvents(pending[..k])
        invariant consumed == old(consumed) + pending[..k]
        invariant state == old(state)
        decreases |buffer|
      {
        var e := ReadNext();
        assert pending[..k + 1] == pending[..k] + [pending[k]];
        assert ItemEvents(pending[..k + 1]) == ItemEvents(pending[..k]) + [Item(pending[k])];
        events := events + [e.value];
        k := k + 1;
      }
      assert pending[..k] == pending;
      var last := ReadNext();
      if last.Some? {
        events := events + [last.value];
      }
    }
  }
}
