/**
 Every interleaving of callers, readers, timeouts, process death and restart. A step is one lock region, or one put
 to a waiter's queue; what a thread carries from one region to the next is part of the state.
 */
module RpcRuns {
  import opened Wrappers
  import opened RpcClient

  /** A reader that has taken a waiter holds its queue and the message to answer it with. */
  datatype Reader = Reading | Holding(queue: QueueId, about: RequestId) | Ended

  type Task = nat

  /** A `_fail_pending` between detaching the process and taking the waiters, and while it puts to them. */
  datatype Failing = Outstanding | Putting(waiters: set<QueueId>)

  datatype State = State(
    shared: Shared,
    readers: map<Proc, Reader>,
    failing: map<Task, Failing>,
    withdrawn: set<RequestId>)

  datatype Event =
    | Start(process: Proc)
    | Request
    | GiveUp(id: RequestId)
    | Answered(process: Proc, about: RequestId)
    | PutAnswer(process: Proc)
    | ReaderFails(process: Proc, task: Task)
    | Discard(process: Proc, task: Task)
    | TakePending(task: Task)
    | PutFailure(task: Task, queue: QueueId)

  const INITIAL := State(IDLE, map[], map[], {})

  function Next(s: State, e: Event): State {
    var sh := s.shared;
    match e
    // Only `start` installs a process; it holds the lifecycle lock and has seen the last one gone.
    case Start(p) =>
      if sh.current.Some? || p in s.readers then s
      else s.(shared := sh.(current := Some(p)), readers := s.readers[p := Reading])
    case Request => s.(shared := Registered(sh))
    case GiveUp(id) =>
      if !(1 <= id <= sh.lastId) then s else s.(shared := Dropped(sh, id), withdrawn := s.withdrawn + {id})
    // A reader may see a message with any id at all; it looks the waiter up under that id, and drops unknown ones.
    case Answered(p, m) =>
      if p !in s.readers || !s.readers[p].Reading? || m !in sh.pending then s
      else s.(shared := Dropped(sh, m), readers := s.readers[p := Holding(sh.pending[m].queue, m)])
    case PutAnswer(p) =>
      if p !in s.readers || !s.readers[p].Holding? then s
      else s.(shared := Put(sh, s.readers[p].queue, Answer(s.readers[p].about)), readers := s.readers[p := Reading])
    // End of stream, an oversized or malformed line: the last thing a reader does.
    case ReaderFails(p, k) =>
      if p !in s.readers || !s.readers[p].Reading? || k in s.failing then s
      else
        var ended := s.(shared := Detached(sh, p), readers := s.readers[p := Ended]);
        if sh.current == Some(p) then ended.(failing := s.failing[k := Outstanding]) else ended
    case Discard(p, k) =>
      if k in s.failing then s
      else s.(shared := Detached(sh, p), failing := s.failing[k := Outstanding])
    case TakePending(k) =>
      if k !in s.failing || !s.failing[k].Outstanding? then s
      else s.(shared := Cleared(sh), failing := s.failing[k := Putting(Queues(sh.pending))])
    case PutFailure(k, q) =>
      if k !in s.failing || !s.failing[k].Putting? || q !in s.failing[k].waiters then s
      else s.(shared := Put(sh, q, Failure), failing := s.failing[k := Putting(s.failing[k].waiters - {q})])
  }

  function After(events: seq<Event>): State {
    if events == [] then INITIAL else Next(After(events[..|events| - 1]), events[|events| - 1])
  }

  // ---- who may still put to a queue ----

  predicate HeldBy(s: State, p: Proc, q: QueueId) {
    p in s.readers && s.readers[p].Holding? && s.readers[p].queue == q
  }

  predicate OwedBy(s: State, k: Task, q: QueueId) {
    k in s.failing && s.failing[k].Putting? && q in s.failing[k].waiters
  }

  predicate Waits(s: State, q: QueueId) {
    q in s.shared.owner && s.shared.owner[q] in s.shared.pending && s.shared.pending[s.shared.owner[q]].queue == q
  }

  /** Queues are made one for each request, and a pending request is found under the id its queue was made for. */
  ghost predicate QueuesOwned(s: Shared) {
    && (forall q: QueueId :: q in s.owner <==> q < s.made)
    && (forall q: QueueId :: q in s.puts <==> q < s.made)
    && (forall q :: q in s.owner ==> 1 <= s.owner[q] <= s.lastId)
    && (forall id :: id in s.pending ==> s.pending[id].queue in s.owner && s.owner[s.pending[id].queue] == id)
  }

  /** What a thread holds or owes is a queue that was made, and a reader answers it with the id it was made for. */
  ghost predicate HandsOwned(s: State) {
    && (forall p, q :: HeldBy(s, p, q) ==> q in s.shared.owner && s.shared.owner[q] == s.readers[p].about)
    && (forall k, q :: OwedBy(s, k, q) ==> q in s.shared.owner)
  }

  ghost predicate Owned(s: State) {
    QueuesOwned(s.shared) && HandsOwned(s)
  }

  /** One party at most is entitled to put to a queue, and only while nothing has been put yet. */
  ghost predicate SolePutter(s: State) {
    && (forall q :: Waits(s, q) ==> HasRoom(s.shared, q))
    && (forall p, q :: HeldBy(s, p, q) ==> HasRoom(s.shared, q) && !Waits(s, q))
    && (forall k, q :: OwedBy(s, k, q) ==> HasRoom(s.shared, q) && !Waits(s, q))
    && (forall p, r, q :: HeldBy(s, p, q) && HeldBy(s, r, q) ==> p == r)
    && (forall k, m, q :: OwedBy(s, k, q) && OwedBy(s, m, q) ==> k == m)
    && (forall p, k, q :: HeldBy(s, p, q) ==> !OwedBy(s, k, q))
  }

  /** At most one put to each queue, and an answer only with the id its queue was made for. */
  ghost predicate DeliveredOnce(s: State) {
    forall q :: q in s.shared.puts && q in s.shared.owner ==>
      s.shared.puts[q] == [] || s.shared.puts[q] == [Answer(s.shared.owner[q])] || s.shared.puts[q] == [Failure]
  }

  /** A request is answered, withdrawn, or in somebody's hands. */
  ghost predicate NoneForgotten(s: State) {
    forall q :: q in s.shared.owner && HasRoom(s.shared, q) && s.shared.owner[q] !in s.withdrawn ==>
      Waits(s, q) || (exists p :: HeldBy(s, p, q)) || (exists k :: OwedBy(s, k, q))
  }

  predicate SomeoneWillFail(s: State) {
    exists k :: k in s.failing && s.failing[k].Outstanding?
  }

  predicate Served(s: State, p: Proc) {
    s.shared.current == Some(p) && p in s.readers && !s.readers[p].Ended?
  }

  /** Whoever waits has its own process, still read from, or a `_fail_pending` that has yet to take the waiters. */
  ghost predicate Attended(s: State) {
    && (s.shared.current.Some? ==> Served(s, s.shared.current.value))
    && (forall id :: id in s.shared.pending ==> Served(s, s.shared.pending[id].process) || SomeoneWillFail(s))
  }

  ghost predicate Inv(s: State) {
    Owned(s) && SolePutter(s) && DeliveredOnce(s) && NoneForgotten(s) && Attended(s)
  }

  lemma RequestOwns(s: Shared)
    requires QueuesOwned(s)
    ensures QueuesOwned(Registered(s))
    ensures forall q :: q in s.owner ==> q in Registered(s).owner && Registered(s).owner[q] == s.owner[q]
  {
  }

  lemma QueuesOwnedKept(s: State, e: Event)
    requires QueuesOwned(s.shared)
    ensures QueuesOwned(Next(s, e).shared)
    ensures forall q :: q in s.shared.owner ==>
              q in Next(s, e).shared.owner && Next(s, e).shared.owner[q] == s.shared.owner[q]
  {
    hide Registered;
    if e.Request? { RequestOwns(s.shared); }
  }

  lemma HandsOwnedKept(s: State, e: Event)
    requires Owned(s)
    ensures HandsOwned(Next(s, e))
  {
    QueuesOwnedKept(s, e);
    HandsAfter(s, e);
    AnswerIsKept(s, e);
    hide QueuesOwned, Next;
    forall p, q | HeldBy(Next(s, e), p, q)
      ensures q in Next(s, e).shared.owner && Next(s, e).shared.owner[q] == Next(s, e).readers[p].about
    {
      assert HeldBy(s, p, q) || Waits(s, q);
    }
  }

  /** A reader that holds a queue keeps its message; one that takes a waiter takes it under the message's id. */
  lemma AnswerIsKept(s: State, e: Event)
    ensures forall p, q :: HeldBy(Next(s, e), p, q) ==>
              Next(s, e).readers[p].about == if HeldBy(s, p, q) then s.readers[p].about else if e.Answered? then e.about else 0
  {
  }

  /** Whose hands a queue is in changes only by the steps that take it up or let it go. */
  lemma HandsAfter(s: State, e: Event)
    requires QueuesOwned(s.shared)
    ensures forall p, q :: HeldBy(Next(s, e), p, q) ==>
              HeldBy(s, p, q) || (e.Answered? && e.process == p && s.shared.owner[q] == e.about && Waits(s, q))
    ensures forall k, q :: OwedBy(Next(s, e), k, q) ==>
              OwedBy(s, k, q) || (e == TakePending(k) && Waits(s, q))
    ensures forall q :: Waits(Next(s, e), q) ==>
              Waits(s, q) || (e.Request? && s.shared.current.Some? && q == s.shared.made)
    ensures e.TakePending? ==> Next(s, e) == s || forall q :: !Waits(Next(s, e), q)
    ensures e.Answered? ==> Next(s, e) == s || forall q :: Waits(Next(s, e), q) ==> s.shared.owner[q] != e.about
  {
  }

  /** Only a put takes the room away, and then nobody holds the queue any more. */
  lemma RoomAfter(s: State, e: Event)
    requires Owned(s) && SolePutter(s)
    ensures forall q :: HasRoom(s.shared, q) && !HasRoom(Next(s, e).shared, q) ==>
              && (forall p :: !HeldBy(Next(s, e), p, q))
              && (forall k :: !OwedBy(Next(s, e), k, q))
              && !Waits(Next(s, e), q)
    ensures forall q :: Waits(Next(s, e), q) && !Waits(s, q) ==> HasRoom(Next(s, e).shared, q)
  {
    var n := Next(s, e);
    HandsAfter(s, e);
    RoomTakenBy(s, e);
    forall q | HasRoom(s.shared, q) && !HasRoom(n.shared, q)
      ensures (forall p :: !HeldBy(n, p, q)) && (forall k :: !OwedBy(n, k, q)) && !Waits(n, q)
    {
      PutterLetsGo(s, e, q);
    }
  }

  lemma RoomTakenBy(s: State, e: Event)
    requires Owned(s)
    ensures forall q :: HasRoom(s.shared, q) && !HasRoom(Next(s, e).shared, q) ==>
              || (e.PutAnswer? && HeldBy(s, e.process, q))
              || (e.PutFailure? && e.queue == q && OwedBy(s, e.task, q))
    ensures forall q :: Waits(Next(s, e), q) && !Waits(s, q) ==> HasRoom(Next(s, e).shared, q)
  {
  }

  lemma PutterLetsGo(s: State, e: Event, q: QueueId)
    requires Owned(s) && SolePutter(s)
    requires (e.PutAnswer? && HeldBy(s, e.process, q)) || (e.PutFailure? && e.queue == q && OwedBy(s, e.task, q))
    ensures forall p :: !HeldBy(Next(s, e), p, q)
    ensures forall k :: !OwedBy(Next(s, e), k, q)
    ensures !Waits(Next(s, e), q)
  {
    var n := Next(s, e);
    HandsAfter(s, e);
    forall p ensures !HeldBy(n, p, q) {
      assert HeldBy(n, p, q) ==> HeldBy(s, p, q);
    }
    forall k ensures !OwedBy(n, k, q) {
      assert OwedBy(n, k, q) ==> OwedBy(s, k, q);
    }
  }

  lemma SolePutterKept(s: State, e: Event)
    requires Owned(s) && SolePutter(s)
    ensures SolePutter(Next(s, e))
  {
    HandsAfter(s, e);
    RoomAfter(s, e);
    FreshQueue(s);
    hide Next, HasRoom, Owned, QueuesOwned, HandsOwned;
  }

  /** Nobody has to do with the queue the next request will make. */
  lemma FreshQueue(s: State)
    requires Owned(s)
    ensures forall p :: !HeldBy(s, p, s.shared.made)
    ensures forall k :: !OwedBy(s, k, s.shared.made)
  {
  }

  /** Putting is once and to the right queue because of who may put: the put itself does not look. */
  lemma DeliveredOnceKept(s: State, e: Event)
    requires Owned(s) && SolePutter(s) && DeliveredOnce(s)
    ensures DeliveredOnce(Next(s, e))
  {
    match e
    case PutAnswer(p) =>
      if Next(s, e) != s {
        assert HeldBy(s, p, s.readers[p].queue);
      }
    case PutFailure(k, q) =>
      if Next(s, e) != s {
        assert OwedBy(s, k, q);
      }
    case _ =>
  }

  /** A queue with room stays in somebody's hands: it is passed on, withdrawn, or served. */
  lemma StaysInHands(s: State, e: Event, q: QueueId)
    requires Owned(s) && SolePutter(s)
    requires q in s.shared.owner && HasRoom(Next(s, e).shared, q) && s.shared.owner[q] !in Next(s, e).withdrawn
    requires Waits(s, q) || (exists p :: HeldBy(s, p, q)) || (exists k :: OwedBy(s, k, q))
    ensures Waits(Next(s, e), q) || (exists p :: HeldBy(Next(s, e), p, q)) || (exists k :: OwedBy(Next(s, e), k, q))
  {
    var n := Next(s, e);
    if p :| HeldBy(s, p, q) {
      HeldUntilPut(s, e, p, q);
    } else if k :| OwedBy(s, k, q) {
      OwedUntilPut(s, e, k, q);
    } else {
      WaitsUntilTaken(s, e, q);
    }
  }

  lemma HeldUntilPut(s: State, e: Event, p: Proc, q: QueueId)
    requires Owned(s) && HeldBy(s, p, q)
    ensures HeldBy(Next(s, e), p, q) || !HasRoom(Next(s, e).shared, q)
  {
  }

  lemma OwedUntilPut(s: State, e: Event, k: Task, q: QueueId)
    requires Owned(s) && (OwedBy(s, k, q) || (q in s.shared.puts && s.shared.puts[q] != []))
    ensures OwedBy(Next(s, e), k, q) || (q in Next(s, e).shared.puts && Next(s, e).shared.puts[q] != [])
  {
  }

  lemma WaitsUntilTaken(s: State, e: Event, q: QueueId)
    requires Owned(s) && Waits(s, q) && s.shared.owner[q] !in Next(s, e).withdrawn
    ensures var n := Next(s, e);
            Waits(n, q) || (e.Answered? && HeldBy(n, e.process, q)) || (e.TakePending? && OwedBy(n, e.task, q))
  {
  }

  /** What an earlier queue had or was it still has or is, and a new one waits. */
  lemma NewQueueWaits(s: State, e: Event, q: QueueId)
    requires Owned(s) && q in Next(s, e).shared.owner
    ensures q !in s.shared.owner ==> Waits(Next(s, e), q)
    ensures q in s.shared.owner ==> Next(s, e).shared.owner[q] == s.shared.owner[q]
    ensures q in s.shared.owner && HasRoom(Next(s, e).shared, q) ==> HasRoom(s.shared, q)
    ensures s.withdrawn <= Next(s, e).withdrawn
  {
  }

  lemma NoneForgottenKept(s: State, e: Event)
    requires Owned(s) && SolePutter(s) && NoneForgotten(s)
    ensures NoneForgotten(Next(s, e))
  {
    var n := Next(s, e);
    hide Next, HeldBy, OwedBy, Waits, Owned, SolePutter, HasRoom;
    forall q | q in n.shared.owner && HasRoom(n.shared, q) && n.shared.owner[q] !in n.withdrawn
      ensures Waits(n, q) || (exists p :: HeldBy(n, p, q)) || (exists k :: OwedBy(n, k, q))
    {
      NewQueueWaits(s, e, q);
      if q in s.shared.owner {
        StaysInHands(s, e, q);
      }
    }
  }

  /** An outstanding `_fail_pending` stays so until it takes the waiters, and then nobody waits. */
  lemma StaysOutstanding(s: State, e: Event)
    requires SomeoneWillFail(s)
    ensures SomeoneWillFail(Next(s, e)) || Next(s, e).shared.pending == map[]
  {
    var k :| k in s.failing && s.failing[k].Outstanding?;
    var n := Next(s, e);
    assert k in n.failing;
  }

  /** A process stops being served only by a step that leaves a `_fail_pending` outstanding. */
  lemma ServedUntilFailed(s: State, e: Event, p: Proc)
    requires Served(s, p)
    ensures Served(Next(s, e), p) || SomeoneWillFail(Next(s, e))
  {
    var n := Next(s, e);
    if e.ReaderFails? || e.Discard? {
      assert n != s ==> s.shared.current != n.shared.current ==> e.task in n.failing && n.failing[e.task].Outstanding?;
    }
  }

  lemma AttendedKept(s: State, e: Event)
    requires Attended(s)
    ensures Attended(Next(s, e))
  {
    var n := Next(s, e);
    if SomeoneWillFail(s) { StaysOutstanding(s, e); }
    forall id | id in n.shared.pending ensures Served(n, n.shared.pending[id].process) || SomeoneWillFail(n) {
      if id in s.shared.pending && n.shared.pending[id] == s.shared.pending[id]
         && Served(s, s.shared.pending[id].process) {
        ServedUntilFailed(s, e, s.shared.pending[id].process);
      }
    }
  }

  lemma {:induction false} Reachable(events: seq<Event>)
    ensures Inv(After(events))
  {
    hide Next, QueuesOwned, HandsOwned, SolePutter, DeliveredOnce, NoneForgotten, Attended;
    if events == [] {
      InitialInv();
    } else {
      var s, e := After(events[..|events| - 1]), events[|events| - 1];
      Reachable(events[..|events| - 1]);
      QueuesOwnedKept(s, e);
      HandsOwnedKept(s, e);
      SolePutterKept(s, e);
      DeliveredOnceKept(s, e);
      NoneForgottenKept(s, e);
      AttendedKept(s, e);
    }
  }

  lemma InitialInv()
    ensures Inv(INITIAL)
  {
  }

  // ---- main results ----

  /** Whoever is about to put finds room: the reader's blocking put never hangs, the other never meets a full queue. */
  lemma PutsNeverBlock(events: seq<Event>, p: Proc, k: Task, q: QueueId)
    ensures HeldBy(After(events), p, q) || OwedBy(After(events), k, q) ==> HasRoom(After(events).shared, q)
  {
    Reachable(events);
  }

  /** A queue is put to once at most over a whole run, and an answer put to it carries the id it was made for. */
  lemma OwnAnswerAtMostOnce(events: seq<Event>, q: QueueId)
    requires q in After(events).shared.puts
    ensures q in After(events).shared.owner && |After(events).shared.puts[q]| <= 1
    ensures forall d :: d in After(events).shared.puts[q] && d.Answer? ==> d.about == After(events).shared.owner[q]
  {
    Reachable(events);
  }

  /** Who waits is never left alone: its process is current and read from, or a `_fail_pending` is under way. */
  lemma WaitersAreAttended(events: seq<Event>, id: RequestId)
    requires id in After(events).shared.pending
    ensures var s := After(events); Served(s, s.shared.pending[id].process) || SomeoneWillFail(s)
  {
    Reachable(events);
  }

  lemma CounterGrows(s: State, e: Event)
    ensures s.shared.lastId <= Next(s, e).shared.lastId
  {
  }

  lemma {:induction false} CounterOverRun(events: seq<Event>, n: nat)
    requires n <= |events|
    ensures After(events[..n]).shared.lastId <= After(events).shared.lastId
  {
    hide Next;
    var m := |events| - 1;
    if n == |events| {
      assert events[..n] == events;
    } else {
      assert events[..m][..n] == events[..n];
      CounterOverRun(events[..m], n);
      CounterGrows(After(events[..m]), events[m]);
    }
  }

  /** The id a request gets was never given before, whatever processes came and went in between. */
  lemma IdsAreNeverReused(events: seq<Event>, i: nat, j: nat)
    requires i < j < |events| && events[i].Request? && events[j].Request?
    requires After(events[..i]).shared.current.Some? && After(events[..j]).shared.current.Some?
    ensures var first, second := After(events[..i + 1]).shared.lastId, After(events[..j + 1]).shared.lastId;
            && first < second && second in After(events[..j + 1]).shared.pending
            && forall q :: q in After(events[..j]).shared.owner ==> After(events[..j]).shared.owner[q] != second
  {
    hide Next, SolePutter, NoneForgotten, Attended;
    assert events[..i + 1][..i] == events[..i] && events[..j + 1][..j] == events[..j];
    assert events[..j][..i + 1] == events[..i + 1];
    CounterOverRun(events[..j], i + 1);
    Reachable(events[..j]);
    RequestTakesNext(After(events[..j]));
  }

  lemma RequestTakesNext(s: State)
    requires s.shared.current.Some?
    ensures var n := Next(s, Request);
            n.shared.lastId == s.shared.lastId + 1 && n.shared.lastId in n.shared.pending
  {
  }

  lemma {:induction false} OwedOverRun(events: seq<Event>, n: nat, k: Task, q: QueueId)
    requires n <= |events| && OwedBy(After(events[..n]), k, q)
    ensures var s := After(events); OwedBy(s, k, q) || (q in s.shared.puts && s.shared.puts[q] != [])
  {
    hide Next, Owned, SolePutter, DeliveredOnce, OwedBy;
    var m := |events| - 1;
    if n == |events| {
      assert events[..n] == events;
    } else {
      assert events[..m][..n] == events[..n];
      OwedOverRun(events[..m], n, k, q);
      Reachable(events[..m]);
      OwedUntilPut(After(events[..m]), events[m], k, q);
    }
  }

  /**
   Nobody is left hanging by a process that went away: whoever waits when a `_fail_pending` takes the waiters has a
   delivery by the time that call has finished.
   */
  lemma FailPendingTellsEveryone(events: seq<Event>, n: nat, k: Task, q: QueueId)
    requires n < |events| && events[n] == TakePending(k)
    requires k in After(events[..n]).failing && After(events[..n]).failing[k].Outstanding?
    requires Waits(After(events[..n]), q)
    requires k in After(events).failing && After(events).failing[k] == Putting({})
    ensures q in After(events).shared.puts && After(events).shared.puts[q] != []
  {
    assert events[..n + 1][..n] == events[..n];
    assert OwedBy(After(events[..n + 1]), k, q);
    OwedOverRun(events, n + 1, k, q);
  }

  lemma GoneStaysGone(s: State, e: Event, id: RequestId)
    requires id <= s.shared.lastId && id !in s.shared.pending
    ensures id <= Next(s, e).shared.lastId && id !in Next(s, e).shared.pending
  {
  }

  lemma {:induction false} GoneOverRun(events: seq<Event>, n: nat, id: RequestId)
    requires n <= |events| && id <= After(events[..n]).shared.lastId && id !in After(events[..n]).shared.pending
    ensures id <= After(events).shared.lastId && id !in After(events).shared.pending
  {
    hide Next;
    var m := |events| - 1;
    if n == |events| {
      assert events[..n] == events;
    } else {
      assert events[..m][..n] == events[..n];
      GoneOverRun(events[..m], n, id);
      GoneStaysGone(After(events[..m]), events[m], id);
    }
  }

  lemma GivenUp(events: seq<Event>, n: nat, id: RequestId)
    requires n < |events| && events[n] == GiveUp(id) && 1 <= id <= After(events[..n]).shared.lastId
    ensures id <= After(events[..n + 1]).shared.lastId && id !in After(events[..n + 1]).shared.pending
  {
    assert events[..n + 1][..n] == events[..n];
  }

  lemma UnknownAnswerIsDropped(s: State, p: Proc, id: RequestId)
    requires id !in s.shared.pending
    ensures Next(s, Answered(p, id)) == s
  {
  }

  /** A withdrawn request never waits again, so a late answer to it finds no waiter and no later failure reaches it. */
  lemma WithdrawnNeverWaitsAgain(events: seq<Event>, n: nat, id: RequestId)
    requires n < |events| && events[n] == GiveUp(id) && 1 <= id <= After(events[..n]).shared.lastId
    ensures id !in After(events).shared.pending
    ensures forall p: Proc :: Next(After(events), Answered(p, id)) == After(events)
  {
    GivenUp(events, n, id);
    hide After, Next;
    GoneOverRun(events, n + 1, id);
    forall p: Proc ensures Next(After(events), Answered(p, id)) == After(events) {
      UnknownAnswerIsDropped(After(events), p, id);
    }
  }

  // ---- the threads on the client object ----

  /** The threads, each between two of its lock regions; `events` logs the order in which they entered them. */
  class Threads {
    const client: Client
    var readers: map<Proc, Reader>
    var failing: map<Task, Failing>
    ghost var withdrawn: set<RequestId>
    ghost var events: seq<Event>

    ghost function View(): State
      reads this, client
    {
      State(client.View(), readers, failing, withdrawn)
    }

    ghost predicate Valid()
      reads this, client
    {
      View() == After(events)
    }

    constructor ()
      ensures Valid() && fresh(client) && events == []
    {
      client := new Client();
      readers, failing, withdrawn, events := map[], map[], {}, [];
    }

    /** Logging a step that the fields have taken. */
    ghost method Log(e: Event)
      requires View() == Next(After(events), e)
      modifies this`events
      ensures Valid() && events == old(events) + [e]
    {
      assert (events + [e])[..|events|] == events;
      events := events + [e];
    }

    method Start(p: Proc)
      requires Valid() && client.process.None? && p !in readers
      modifies this, client
      ensures Valid() && events == old(events) + [Event.Start(p)]
      ensures client.process == Some(p) && readers == old(readers)[p := Reading] && client.pending == old(client.pending)
    {
      client.Install(p);
      readers := readers[p := Reading];
      Log(Event.Start(p));
    }

    method Request() returns (id: Option<RequestId>)
      requires Valid()
      modifies this, client
      ensures Valid() && events == old(events) + [Event.Request]
      ensures id.Some? <==> old(client.process).Some?
      ensures id.Some? ==>
                && id.value == client.requestId == old(client.requestId) + 1
                && id.value in client.pending && client.pending[id.value].process == client.process.value
                && client.pending - {id.value} == old(client.pending) - {id.value}
      ensures id.None? ==> client.pending == old(client.pending)
    {
      id := client.Register();
      Log(Event.Request);
    }

    method GiveUp(id: RequestId)
      requires Valid() && 1 <= id <= client.requestId
      modifies this, client
      ensures Valid() && events == old(events) + [Event.GiveUp(id)]
      ensures client.pending == old(client.pending) - {id}
    {
      client.Withdraw(id);
      withdrawn := withdrawn + {id};
      Log(Event.GiveUp(id));
    }

    /** The reader of `p` dispatches an answer with the id of the message it read. */
    method Answered(p: Proc, about: RequestId)
      requires Valid() && p in readers && readers[p].Reading?
      modifies this, client
      ensures Valid() && events == old(events) + [Event.Answered(p, about)]
      ensures client.pending == old(client.pending) - {about}
      ensures readers == if about in old(client.pending)
                         then old(readers)[p := Holding(old(client.pending)[about].queue, about)] else old(readers)
    {
      var waiter := client.TakeWaiter(about);
      if waiter.Some? {
        readers := readers[p := Holding(waiter.value, about)];
      } else {
        assert client.pending == old(client.pending);
      }
      Log(Event.Answered(p, about));
    }

    /** The put of the reader never blocks. */
    method PutAnswer(p: Proc) returns (full: bool)
      requires Valid() && p in readers && readers[p].Holding?
      modifies this, client
      ensures Valid() && events == old(events) + [Event.PutAnswer(p)]
      ensures !full
      ensures readers == old(readers)[p := Reading]
      ensures var q := old(readers)[p].queue;
              q in old(client.puts) && client.puts == old(client.puts)[q := [Answer(old(readers)[p].about)]]
    {
      assert HeldBy(View(), p, readers[p].queue);
      PutsNeverBlock(events, p, 0, readers[p].queue);
      assert client.puts[readers[p].queue] + [Answer(readers[p].about)] == [Answer(readers[p].about)];
      full := client.Deliver(readers[p].queue, Answer(readers[p].about));
      readers := readers[p := Reading];
      Log(Event.PutAnswer(p));
    }

    method ReaderFails(p: Proc, k: Task)
      requires Valid() && p in readers && readers[p].Reading? && k !in failing
      modifies this, client
      ensures Valid() && events == old(events) + [Event.ReaderFails(p, k)]
      ensures readers == old(readers)[p := Ended]
      ensures if old(client.process) == Some(p) then client.process.None? && failing == old(failing)[k := Outstanding]
              else client.process == old(client.process) && failing == old(failing)
    {
      var wasCurrent := client.Detach(p);
      readers := readers[p := Ended];
      if wasCurrent {
        failing := failing[k := Outstanding];
      }
      Log(Event.ReaderFails(p, k));
    }

    method Discard(p: Proc, k: Task)
      requires Valid() && k !in failing
      modifies this, client
      ensures Valid() && events == old(events) + [Event.Discard(p, k)]
      ensures client.process == (if old(client.process) == Some(p) then None else old(client.process))
      ensures failing == old(failing)[k := Outstanding]
    {
      var _ := client.Detach(p);
      failing := failing[k := Outstanding];
      Log(Event.Discard(p, k));
    }

    method TakePending(k: Task)
      requires Valid() && k in failing && failing[k].Outstanding?
      modifies this, client
      ensures Valid() && events == old(events) + [Event.TakePending(k)]
      ensures client.pending == map[]
      ensures failing == old(failing)[k := Putting(set id | id in old(client.pending) :: old(client.pending)[id].queue)]
    {
      var waiters := client.TakeAll();
      failing := failing[k := Putting(waiters)];
      Log(Event.TakePending(k));
    }

    /** The put of a failure never meets a full queue. */
    method PutFailure(k: Task, q: QueueId) returns (full: bool)
      requires Valid() && k in failing && failing[k].Putting? && q in failing[k].waiters
      modifies this, client
      ensures Valid() && events == old(events) + [Event.PutFailure(k, q)]
      ensures !full
      ensures q in old(client.puts) && client.puts == old(client.puts)[q := [Failure]]
      ensures failing == old(failing)[k := Putting(old(failing)[k].waiters - {q})]
    {
      assert OwedBy(View(), k, q);
      PutsNeverBlock(events, 0, k, q);
      assert client.puts[q] + [Failure] == [Failure];
      full := client.Deliver(q, Failure);
      failing := failing[k := Putting(failing[k].waiters - {q})];
      Log(Event.PutFailure(k, q));
    }
  }
}
