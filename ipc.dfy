/**
 * The kernel's static inter-task message queue: an 8-slot ring buffer with a
 * head index (next message to receive) and a tail index (next free slot).
 * One slot is always left empty so that "full" and "empty" can be told
 * apart, so the queue holds at most 7 messages. The atomic counters of the
 * source are modelled as ordinary fields (single-threaded semantics).
 */
module Ipc {
  import opened Prelude

  const MESSAGE_DATA_SIZE: nat := 64
  const QUEUE_DEPTH: nat := 8

  type Payload = s: seq<Byte> | |s| == MESSAGE_DATA_SIZE witness seq(MESSAGE_DATA_SIZE, _ => 0)

  datatype IpcMessage = IpcMessage(senderId: Byte, messageType: Byte, payload: Payload, payloadSize: Byte)

  /** The all-zero message every slot starts with. */
  const DefaultMessage: IpcMessage := IpcMessage(0, 0, seq(MESSAGE_DATA_SIZE, _ => 0), 0)

  /** The slot after `i`, wrapping at the end of the buffer. */
  function Next(i: nat): (r: nat)
    requires i < QUEUE_DEPTH
    ensures r < QUEUE_DEPTH
    ensures r == 0 <==> i == QUEUE_DEPTH - 1
  {
    (i + 1) % QUEUE_DEPTH
  }

  /** Number of slots from `head` (inclusive) to `tail` (exclusive) going forward around the ring. */
  function Occupied(head: nat, tail: nat): nat
    requires head < QUEUE_DEPTH && tail < QUEUE_DEPTH
  {
    (tail + QUEUE_DEPTH - head) % QUEUE_DEPTH
  }

  /** The messages waiting in a ring buffer, oldest first. */
  ghost function Pending(buf: seq<IpcMessage>, head: nat, tail: nat): (r: seq<IpcMessage>)
    requires |buf| == QUEUE_DEPTH && head < QUEUE_DEPTH && tail < QUEUE_DEPTH
    ensures |r| < QUEUE_DEPTH
    ensures |r| == 0 <==> head == tail
  {
    seq(Occupied(head, tail), k requires 0 <= k < Occupied(head, tail) => buf[(head + k) % QUEUE_DEPTH])
  }

  /** Writing a message at `tail` and advancing `tail` appends that message, unless the ring is full. */
  lemma PendingPush(buf: seq<IpcMessage>, head: nat, tail: nat, m: IpcMessage)
    requires |buf| == QUEUE_DEPTH && head < QUEUE_DEPTH && tail < QUEUE_DEPTH
    requires Next(tail) != head
    ensures Pending(buf[tail := m], head, Next(tail)) == Pending(buf, head, tail) + [m]
  {
    var n := Occupied(head, tail);
    OccupiedGrows(head, tail);
    var before := Pending(buf, head, tail);
    var after := Pending(buf[tail := m], head, Next(tail));
    forall k | 0 <= k < n
      ensures after[k] == before[k]
    {
      SlotBeforeTail(head, tail, k);
    }
    SlotBeforeTail(head, tail, n);
  }

  /** Advancing `head` drops exactly the oldest message, which sits at slot `head`. */
  lemma PendingPop(buf: seq<IpcMessage>, head: nat, tail: nat)
    requires |buf| == QUEUE_DEPTH && head < QUEUE_DEPTH && tail < QUEUE_DEPTH
    requires head != tail
    ensures Pending(buf, head, tail)[0] == buf[head]
    ensures Pending(buf, Next(head), tail) == Pending(buf, head, tail)[1..]
  {
    var n := Occupied(head, tail);
    OccupiedShrinks(head, tail);
    var before := Pending(buf, head, tail);
    var after := Pending(buf, Next(head), tail);
    forall k | 0 <= k < n - 1
      ensures after[k] == before[1..][k]
    {
      SlotAfterNext(head, k);
    }
    assert after == before[1..];
    SlotBeforeTail(head, tail, 0);
  }

  /** Advancing `tail` past a free slot adds one occupied slot. */
  lemma OccupiedGrows(head: nat, tail: nat)
    requires head < QUEUE_DEPTH && tail < QUEUE_DEPTH && Next(tail) != head
    ensures Occupied(head, Next(tail)) == Occupied(head, tail) + 1
  {
  }

  /** Going forward from `head`, the `k`-th slot is `tail` exactly when `k` is the number of occupied slots. */
  lemma SlotBeforeTail(head: nat, tail: nat, k: nat)
    requires head < QUEUE_DEPTH && tail < QUEUE_DEPTH && k <= Occupied(head, tail)
    ensures (head + k) % QUEUE_DEPTH == tail <==> k == Occupied(head, tail)
  {
  }

  /** Advancing `head` past an occupied slot removes one occupied slot. */
  lemma OccupiedShrinks(head: nat, tail: nat)
    requires head < QUEUE_DEPTH && tail < QUEUE_DEPTH && head != tail
    ensures Occupied(Next(head), tail) == Occupied(head, tail) - 1
  {
  }

  /** The slot `k` places after `Next(head)` is the slot `k + 1` places after `head`. */
  lemma SlotAfterNext(head: nat, k: nat)
    requires head < QUEUE_DEPTH
    ensures (Next(head) + k) % QUEUE_DEPTH == (head + (k + 1)) % QUEUE_DEPTH
  {
  }

  /** FIFO on an empty ring: a message written and then read back is the same message. */
  lemma SendThenReceiveOnEmpty(buf: seq<IpcMessage>, i: nat, m: IpcMessage)
    requires |buf| == QUEUE_DEPTH && i < QUEUE_DEPTH
    ensures Pending(buf[i := m], i, Next(i)) == [m]
    ensures Pending(buf[i := m], Next(i), Next(i)) == []
  {
    PendingPush(buf, i, i, m);
  }

  class IpcQueue {
    var messages: array<IpcMessage>
    var head: nat
    var tail: nat

    ghost predicate Valid()
      reads this
    {
      messages.Length == QUEUE_DEPTH && head < QUEUE_DEPTH && tail < QUEUE_DEPTH
    }

    /** The abstract queue: the messages waiting to be received, oldest first. */
    ghost function Contents(): seq<IpcMessage>
      reads this, messages
      requires Valid()
    {
      Pending(messages[..], head, tail)
    }

    constructor ()
      ensures Valid() && fresh(messages)
      ensures head == 0 && tail == 0
      ensures forall i :: 0 <= i < messages.Length ==> messages[i] == DefaultMessage
      ensures Contents() == []
    {
      messages := new IpcMessage[QUEUE_DEPTH](_ => DefaultMessage);
      head := 0;
      tail := 0;
    }

    /** Full means 7 messages are waiting: one more would make tail catch up with head. */
    function IsFull(): (r: bool)
      reads this, messages
      requires Valid()
      ensures r <==> |Contents()| == QUEUE_DEPTH - 1
    {
      Next(tail) == head
    }

    function IsEmpty(): (r: bool)
      reads this, messages
      requires Valid()
      ensures r <==> Contents() == []
    {
      head == tail
    }

    method Send(message: IpcMessage) returns (r: Result<(), IpcMessage>)
      requires Valid()
      modifies this, messages
      ensures Valid() && messages == old(messages)
      ensures old(IsFull()) ==> r == Err(message) && head == old(head) && tail == old(tail)
                                && messages[..] == old(messages[..])
      ensures !old(IsFull()) ==> r == Ok(()) && head == old(head) && tail == Next(old(tail))
                                 && messages[..] == old(messages[..])[old(tail) := message]
      ensures !old(IsFull()) ==> Contents() == old(Contents()) + [message]
      ensures old(IsFull()) ==> Contents() == old(Contents())
    {
      if IsFull() {
        return Err(message);
      }
      PendingPush(messages[..], head, tail, message);
      messages[tail] := message;
      tail := Next(tail);
      r := Ok(());
    }

    method Receive() returns (r: Option<IpcMessage>)
      requires Valid()
      modifies this
      ensures Valid() && messages == old(messages) && tail == old(tail)
      ensures old(IsEmpty()) ==> r == None && head == old(head)
      ensures !old(IsEmpty()) ==> r == Some(old(messages[head])) && head == Next(old(head))
      ensures !old(IsEmpty()) ==> r == Some(old(Contents())[0]) && Contents() == old(Contents())[1..]
      ensures old(IsEmpty()) ==> Contents() == old(Contents())
    {
      if IsEmpty() {
        return None;
      }
      PendingPop(messages[..], head, tail);
      var message := messages[head];
      head := Next(head);
      r := Some(message);
    }
  }
}
