/**
 The App Server client: callers register requests, one reader thread per process answers them, and a process that
 dies or is discarded fails whoever still waits. `Client` holds the fields the threads share, one method per lock
 region; `RpcRuns` interleaves those regions.
 */
module RpcClient {
  import opened Wrappers

  type Proc = nat
  type RequestId = nat
  type QueueId = nat

  /** What is put to a waiter: the answer to the message with this id, or an error. */
  datatype Delivery = Answer(about: RequestId) | Failure

  /** The queue a caller waits on, and the process its request was registered under. */
  datatype Waiter = Waiter(queue: QueueId, process: Proc)

  /** `owner` remembers for which request a queue was made; `puts` lists every put to it. A queue has room for one. */
  datatype Shared = Shared(
    current: Option<Proc>,
    lastId: RequestId,
    pending: map<RequestId, Waiter>,
    made: nat,
    owner: map<QueueId, RequestId>,
    puts: map<QueueId, seq<Delivery>>)

  const IDLE := Shared(None, 0, map[], 0, map[], map[])

  function Registered(s: Shared): Shared {
    match s.current
    case None => s
    case Some(p) =>
      var id := s.lastId + 1;
      s.(lastId := id, pending := s.pending[id := Waiter(s.made, p)], made := s.made + 1,
         owner := s.owner[s.made := id], puts := s.puts[s.made := []])
  }

  function Dropped(s: Shared, id: RequestId): Shared {
    s.(pending := s.pending - {id})
  }

  function Detached(s: Shared, p: Proc): Shared {
    if s.current == Some(p) then s.(current := None) else s
  }

  function Cleared(s: Shared): Shared {
    s.(pending := map[])
  }

  /** The queues of everyone who waits. */
  function Queues(pending: map<RequestId, Waiter>): set<QueueId> {
    set id | id in pending :: pending[id].queue
  }

  predicate HasRoom(s: Shared, q: QueueId) {
    q in s.puts && s.puts[q] == []
  }

  function Put(s: Shared, q: QueueId, d: Delivery): Shared {
    if q in s.puts then s.(puts := s.puts[q := s.puts[q] + [d]]) else s
  }

  class Client {
    var process: Option<Proc>
    var requestId: RequestId
    var pending: map<RequestId, Waiter>
    var made: nat
    var owner: map<QueueId, RequestId>
    var puts: map<QueueId, seq<Delivery>>

    function View(): Shared
      reads this
    {
      Shared(process, requestId, pending, made, owner, puts)
    }

    constructor ()
      ensures View() == IDLE
    {
      process, requestId, pending, made, owner, puts := None, 0, map[], 0, map[], map[];
    }

    method Install(p: Proc)
      modifies this
      ensures View() == old(View()).(current := Some(p))
    {
      process := Some(p);
    }

    /** The id is new even after a restart: the counter belongs to the client, not to the process. */
    method Register() returns (id: Option<RequestId>)
      modifies this
      ensures View() == Registered(old(View()))
      ensures id == if old(process).Some? then Some(old(requestId) + 1) else None
      ensures process == old(process) && (id.None? ==> pending == old(pending) && requestId == old(requestId))
      ensures id.Some? ==>
                && requestId == id.value
                && pending == old(pending)[id.value := Waiter(old(made), old(process).value)]
                && puts == old(puts)[old(made) := []] && owner == old(owner)[old(made) := id.value]
    {
      if process.None? { return None; }
      requestId := requestId + 1;
      owner, puts := owner[made := requestId], puts[made := []];
      pending := pending[requestId := Waiter(made, process.value)];
      made := made + 1;
      id := Some(requestId);
    }

    /** After a write error or a timeout the caller withdraws its request. */
    method Withdraw(id: RequestId)
      modifies this
      ensures View() == Dropped(old(View()), id)
      ensures pending == old(pending) - {id} && process == old(process) && puts == old(puts)
    {
      pending := pending - {id};
    }

    /** The reader takes the waiter out before it delivers, so nobody else can. */
    method TakeWaiter(id: RequestId) returns (waiter: Option<QueueId>)
      modifies this
      ensures View() == Dropped(old(View()), id)
      ensures waiter == if id in old(pending) then Some(old(pending)[id].queue) else None
      ensures pending == old(pending) - {id} && process == old(process) && puts == old(puts)
    {
      waiter := if id in pending then Some(pending[id].queue) else None;
      pending := pending - {id};
    }

    method Detach(p: Proc) returns (wasCurrent: bool)
      modifies this
      ensures View() == Detached(old(View()), p)
      ensures wasCurrent == (old(process) == Some(p))
      ensures process == if old(process) == Some(p) then None else old(process)
      ensures pending == old(pending) && puts == old(puts)
    {
      wasCurrent := process == Some(p);
      if wasCurrent {
        process := None;
      }
    }

    method TakeAll() returns (waiters: set<QueueId>)
      modifies this
      ensures View() == Cleared(old(View()))
      ensures waiters == set id | id in old(pending) :: old(pending)[id].queue
      ensures pending == map[] && process == old(process) && puts == old(puts)
    {
      waiters := Queues(pending);
      pending := map[];
    }

    /** `full` is where a blocking put would hang and a non-blocking one gives up. */
    method Deliver(q: QueueId, d: Delivery) returns (full: bool)
      requires q in puts
      modifies this
      ensures View() == Put(old(View()), q, d)
      ensures full <==> old(puts)[q] != []
      ensures puts == old(puts)[q := old(puts)[q] + [d]] && pending == old(pending) && process == old(process)
    {
      full := puts[q] != [];
      puts := puts[q := puts[q] + [d]];
    }
  }
}
