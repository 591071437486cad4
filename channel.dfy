/** The channel kernel object: two endpoints built from two FIFO message
    queues that both endpoints share, cross-wired so that what one endpoint
    sends is what the other receives. Each queue sits behind a lock in the
    system; here every locked `push_back` or `pop_front` is one atomic step
    on a shared `MessageQueue` object, and the shared ownership is plain
    aliasing of that object by the two endpoints. */
module Ipc {
  import opened Object
  import Queue

  type Option<T> = Queue.Option<T>

  /** A message: a byte payload and the handles it carries. Its contents
      are opaque to the channel. */
  datatype MessagePacket = MessagePacket(data: seq<bv8>, handles: seq<Handle<Channel>>)

  /** One direction of a channel: the queue of packets sent by one endpoint
      and not yet read by the other, oldest first. */
  class MessageQueue {
    var packets: seq<MessagePacket>

    constructor ()
      ensures packets == []
    {
      packets := [];
    }

    /** `push_back` under the queue's lock. */
    method PushBack(msg: MessagePacket)
      modifies this
      ensures packets == Queue.PushBack(old(packets), msg)
    {
      packets := packets + [msg];
    }

    /** `pop_front` under the queue's lock. */
    method PopFront() returns (msg: Option<MessagePacket>)
      modifies this
      ensures (msg, packets) == Queue.PopFront(old(packets))
    {
      if packets == [] {
        msg := Queue.None;
      } else {
        msg := Queue.Some(packets[0]);
        packets := packets[1..];
      }
    }
  }

  /** One endpoint of a channel: its kernel-object base, the queue it writes
      into and the queue it reads from. None of the three changes after
      construction. */
  class Channel {
    const base: KObjectBase
    const sendQueue: MessageQueue
    const recvQueue: MessageQueue

    constructor (base: KObjectBase, sendQueue: MessageQueue, recvQueue: MessageQueue)
      ensures this.base == base
      ensures this.sendQueue == sendQueue && this.recvQueue == recvQueue
    {
      this.base := base;
      this.sendQueue := sendQueue;
      this.recvQueue := recvQueue;
    }

    /** The kernel-object id of this endpoint. */
    function Id(): nat
    {
      base.id
    }

    /** Builds a connected pair of endpoints on two new, empty queues and
        returns a handle with `DUPLICATE` rights to each. Endpoint 0 is
        built first and receives the older id. */
    static method Create(koids: KoidAllocator) returns (handle0: Handle<Channel>, handle1: Handle<Channel>)
      requires koids.Valid()
      modifies koids
      ensures koids.Valid()
      ensures fresh(handle0.kobject) && fresh(handle1.kobject)
      ensures handle0.kobject != handle1.kobject
      ensures handle0.rights == DUPLICATE && handle1.rights == DUPLICATE
      ensures Connected(handle0.kobject, handle1.kobject)
      ensures fresh(handle0.kobject.sendQueue) && fresh(handle0.kobject.recvQueue)
      ensures handle0.kobject.sendQueue.packets == [] && handle0.kobject.recvQueue.packets == []
      ensures handle0.kobject.Id() == old(koids.next) && handle1.kobject.Id() == old(koids.next) + 1
      ensures handle0.kobject.Id() !in old(koids.Issued) && handle1.kobject.Id() !in old(koids.Issued)
      ensures koids.next == old(koids.next) + 2
      ensures koids.Issued == old(koids.Issued) + {handle0.kobject.Id(), handle1.kobject.Id()}
    {
      var queue0 := new MessageQueue();
      var queue1 := new MessageQueue();
      var base0 := koids.NewBase();
      var end0 := new Channel(base0, queue0, queue1);
      var base1 := koids.NewBase();
      var end1 := new Channel(base1, queue1, queue0);
      handle0 := Handle(end0, DUPLICATE);
      handle1 := Handle(end1, DUPLICATE);
    }

    /** Takes the oldest packet off this endpoint's receive queue, or
        returns `None` when that queue is empty. The send queue is left
        alone unless it is the same queue. */
    method Read() returns (msg: Option<MessagePacket>)
      modifies recvQueue
      ensures (msg, recvQueue.packets) == Queue.PopFront(old(recvQueue.packets))
      ensures sendQueue != recvQueue ==> sendQueue.packets == old(sendQueue.packets)
    {
      msg := recvQueue.PopFront();
    }

    /** Appends a packet to this endpoint's send queue. It cannot fail. The
        receive queue is left alone unless it is the same queue. */
    method Write(msg: MessagePacket)
      modifies sendQueue
      ensures sendQueue.packets == Queue.PushBack(old(sendQueue.packets), msg)
      ensures recvQueue != sendQueue ==> recvQueue.packets == old(recvQueue.packets)
    {
      sendQueue.PushBack(msg);
    }
  }

  /** `a` and `b` are the two ends of one channel: each sends into the
      queue the other reads from, and the two directions are different
      queues, so neither end ever reads what it wrote itself. */
  ghost predicate Connected(a: Channel, b: Channel)
  {
    a.sendQueue == b.recvQueue && b.sendQueue == a.recvQueue && a.sendQueue != a.recvQueue
  }

  /** The ids the first channel built from a fresh counter gets: 0 for
      endpoint 0 and 1 for endpoint 1. */
  method IsWork() returns (id0: nat, id1: nat)
    ensures id0 == 0 && id1 == 1
  {
    var koids := new KoidAllocator();
    var handle0, handle1 := Channel.Create(koids);
    id0 := handle0.kobject.Id();
    id1 := handle1.kobject.Id();
  }

  /** On a connected pair whose receiving end has nothing queued, the packet
      one end writes is the next packet the other end reads, after which
      that queue is empty again; the writer's own receive queue is not
      touched. */
  method WriteThenPeerRead(sender: Channel, receiver: Channel, msg: MessagePacket)
    returns (got: Option<MessagePacket>)
    requires Connected(sender, receiver)
    requires receiver.recvQueue.packets == []
    modifies sender.sendQueue
    ensures got == Queue.Some(msg)
    ensures receiver.recvQueue.packets == []
    ensures sender.recvQueue.packets == old(sender.recvQueue.packets)
  {
    sender.Write(msg);
    got := receiver.Read();
  }

  /** A fresh pair: a packet written on endpoint 0 is read on endpoint 1,
      a second read there finds nothing, and endpoint 0 never reads its own
      packet. */
  method PingPong(koids: KoidAllocator, msg: MessagePacket)
    returns (got: Option<MessagePacket>, again: Option<MessagePacket>, own: Option<MessagePacket>)
    requires koids.Valid()
    modifies koids
    ensures got == Queue.Some(msg) && again == Queue.None && own == Queue.None
  {
    var handle0, handle1 := Channel.Create(koids);
    handle0.kobject.Write(msg);
    got := handle1.kobject.Read();
    again := handle1.kobject.Read();
    own := handle0.kobject.Read();
  }

  /** A handle sent through one channel arrives unchanged at the peer: the
      packet read out holds exactly the handle that was written, so it names
      the same endpoint, still connected to its own peer `other`, with the
      rights it was sent with. */
  method PassHandle(koids: KoidAllocator, data: seq<bv8>)
    returns (sent: Handle<Channel>, other: Channel, got: Option<MessagePacket>)
    requires koids.Valid()
    modifies koids
    ensures got == Queue.Some(MessagePacket(data, [sent]))
    ensures Connected(other, sent.kobject) && sent.rights == DUPLICATE
  {
    var a0, a1 := Channel.Create(koids);
    var b0, b1 := Channel.Create(koids);
    sent, other := b1, b0.kobject;
    a0.kobject.Write(MessagePacket(data, [sent]));
    got := a1.kobject.Read();
  }
}
