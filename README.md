# Channel: the message-passing object of a capability microkernel

This project models the channel kernel object of `src/ipc/channel.rs`. A
channel is a pair of endpoints built over two FIFO message queues. Endpoint 0
sends into the first queue and reads from the second. Endpoint 1 is the mirror
image. Both queues are shared by the two endpoints. `create` builds the pair,
gives each endpoint its own kernel-object id and wraps each in a handle with the
DUPLICATE right. `write` appends a packet to the endpoint's send queue and cannot
fail. `read` takes the oldest packet off the endpoint's receive queue, or returns
nothing when that queue is empty. A message packet is a byte payload plus a list
of handles.

Files:

- `queue.dfy` (module `Queue`): the queue as a value. `push_back` and `pop_front`
  are functions on sequences. Runs of writes (`PushAll`) and runs of reads
  (`ReadN`) are iterations of them. The FIFO lemmas are stated over these.
- `object.dfy` (module `Object`): the kernel-object id counter behind
  `KObjectBase::new()`, the rights set and the handle.
- `channel.dfy` (module `Ipc`): `MessagePacket`, the shared `MessageQueue` class,
  the `Channel` endpoint class with `Create`, `Read` and `Write`, and the
  `Connected` predicate. Endpoints hold their queues by reference, so the
  cross-wiring is aliasing that `Connected` states outright. The module also
  holds the `is_work` test and three client methods that derive the channel's
  end-to-end guarantees from the endpoint contracts alone.

The kernel-object id counter is an explicit `KoidAllocator` object passed to
`Create`, because Dafny has no global mutable state. A fresh counter starts at 0,
as the test at `src/ipc/channel.rs:65-66` requires.

The code is followed where a design description of the system says more than
it does. Such a description has `write` fail with a peer-closed error once the
other endpoint is gone, and `read` tell "temporarily empty" from "closed". The
code has neither: `write` returns `()`, and `read` returns an `Option`. The model
does the same.

## Model

| member | source | states |
|---|---|---|
| `Queue.PushBack` | src/ipc/channel.rs:45 | `push_back` keeps every queued packet in place and order, and adds the new packet as the newest one |
| `Queue.PopFront` | src/ipc/channel.rs:40 | `pop_front` returns `None` exactly when the queue is empty, and then leaves it unchanged; otherwise it returns the oldest packet and removes exactly that one |
| `Queue.PushAll` | src/ipc/channel.rs:44-46 | a run of writes leaves the old contents followed by the written packets, in write order |
| `Queue.ReadN` | src/ipc/channel.rs:39-41 | the i-th of n reads returns the i-th oldest packet, or `None` once the queue has run dry; what is left is the unread suffix |
| `Queue.FifoOrder` | src/ipc/channel.rs:39-46 | first in, first out: after packets are written behind the ones already queued, as many reads return the old packets and then the written ones in write order, leave the queue empty, and a further read returns `None` |
| `Queue.PushKeepsFront` | src/ipc/channel.rs:39-46 | a write never changes which packet the next read returns from a non-empty queue |
| `Object.KoidAllocator.constructor` | src/ipc/channel.rs:65-66 | a fresh id counter is at 0 and has issued no id |
| `Object.KoidAllocator.NewBase` | src/ipc/channel.rs:24 | a new kernel-object base gets the counter's value as its id; no earlier base had that id, and the counter moves one past it |
| `Ipc.MessageQueue.constructor` | src/ipc/channel.rs:21-22 | a new queue is empty |
| `Ipc.MessageQueue.PushBack` | src/ipc/channel.rs:45 | the locked `push_back` changes the shared queue exactly as `Queue.PushBack` does |
| `Ipc.MessageQueue.PopFront` | src/ipc/channel.rs:40 | the locked `pop_front` returns and removes exactly as `Queue.PopFront` does |
| `Ipc.Channel.constructor` | src/ipc/channel.rs:23-32 | an endpoint holds the base and the two queue references it is built with |
| `Ipc.Channel.Create` | src/ipc/channel.rs:20-36 | two distinct new endpoints over two distinct new empty queues; endpoint 0's send queue is endpoint 1's receive queue and the other way round; both handles carry exactly DUPLICATE; the endpoints get the next two ids in creation order, neither issued before, and both are recorded as issued |
| `Ipc.Channel.Read` | src/ipc/channel.rs:39-41 | `read` takes the oldest packet off the receive queue, or returns `None` and changes nothing when it is empty; the endpoint's send queue is untouched |
| `Ipc.Channel.Write` | src/ipc/channel.rs:44-46 | `write` appends the packet to the send queue and never fails; the endpoint's own receive queue is untouched |
| `Ipc.IsWork` | src/ipc/channel.rs:60-67 | the first channel built from a fresh counter has endpoint ids 0 and 1 |
| `Ipc.WriteThenPeerRead` | src/ipc/channel.rs:20-46 | on connected endpoints whose receiving side is empty, a packet written on one end is the next packet read on the other; the writer's own receive queue does not change |
| `Ipc.PingPong` | src/ipc/channel.rs:20-46 | on a new channel, a packet written on endpoint 0 is read on endpoint 1, a second read there returns `None`, and endpoint 0 does not receive its own packet |
| `Ipc.PassHandle` | src/ipc/channel.rs:44-52 | a packet carrying a handle to another channel's endpoint is read at the peer with the same payload and exactly that handle: same endpoint object, still connected to its own peer, same DUPLICATE rights |

## Left out

- Locking (`spin::Mutex`) and shared ownership (`Arc`): each locked `push_back` or `pop_front` is one atomic step on a shared object, and sharing is aliasing. Concurrent interleavings and freeing on the last reference are not modelled.
- Peer-closed detection: the code has none. `write` is infallible and `read` only returns an `Option`, and the model does the same.
- `downcast_ref` and `core::any::Any`: every handle in the model refers to a channel endpoint, so the downcast in the test always succeeds and is not modelled.
- `KObjectBase`, `Handle`, `Rights` and `impl_kobject!` come from `crate::object`, which is not part of this model. The id counter is an unbounded `nat` passed explicitly, so the width of the real counter and any overflow are not modelled. Rights are a set holding only `Duplicate`, the one right the channel grants.
- `MessagePacket` contents are opaque: the payload is a byte sequence, and its handles can only name channel endpoints. Moving handles out of a sender's handle table is not part of this code and is not modelled.
- `src/task/mod.rs`: it declares only the `Task` trait (kill, suspend, exception channel, resume) with no bodies. Its meaning depends on scheduling and exceptions, which are not part of this model.
