/** The byte and size arrays of a partition hold, at every point of a run, the rings of its buffers. */
module StoredBuffers {
  import opened Apex
  import opened Sequences
  import opened Services
  import opened Invariant
  import opened Protocol
  import opened Exact
  import opened Runs
  import opened Conservation
  import Arrays = BufferStore

  /** find_buffer_by_id: the position of a buffer, or -1. */
  function Find(ids: seq<int>, id: int): (i: int)
    ensures i == -1 <==> id !in ids
    ensures i != -1 ==> 0 <= i < |ids| && ids[i] == id
  {
    if ids == [] then -1
    else if ids[0] == id then 0
    else
      var i := Find(ids[1..], id);
      if i == -1 then -1 else i + 1
  }

  /** Buffer number `i` of the arrays is `b`: same limits, same messages in the same order. */
  ghost predicate Mirrors(a: Arrays.Store, i: int, b: Buffer)
    requires Arrays.Valid(a) && 0 <= i < |a.buffers|
  {
    var c := a.buffers[i];
    c.maxCount == b.maxMessages && c.maxSize == b.maxSize && Arrays.Ring(a, i) == b.ring
  }

  ghost predicate Holds(a: Arrays.Store, ids: seq<int>, buffers: map<int, Buffer>) {
    && Arrays.Valid(a) && |ids| == |a.buffers| && NoDup(ids)
    && (forall id :: id in buffers ==> id in ids)
    && (forall i :: 0 <= i < |ids| ==> ids[i] in buffers && Mirrors(a, i, buffers[ids[i]]))
  }

  /** Every message ever accepted fits its buffer's slots. */
  ghost predicate Sized(s: State) {
    forall id, m :: id in s.buffers && m in s.buffers[id].sent ==> 0 < |m| < s.buffers[id].maxSize
  }

  // ---------------------------------------------------------------- what the services do to the arrays

  /** SEND_BUFFER stores its message unless it hands it over, refuses it or blocks. */
  predicate Stores(s: State, e: Event)
    requires Enabled(s, e)
  {
    && e.Send? && s.Queue(Waiters(Obj(BufferKind, e.id))) == []
    && SendBuffer(s, e.id, e.message, e.timeout).1 == NoError
  }

  predicate Fetches(s: State, e: Event)
    requires Enabled(s, e)
  {
    e.Receive? && ReceiveBuffer(s, e.id, e.timeout).1 == NoError
  }

  /** The stores and fetches of one event, the refill by an unblocked sender included. */
  function After(a: Arrays.Store, ids: seq<int>, s: State, e: Event): Arrays.Store
    requires Enabled(s, e)
  {
    if Stores(s, e) then Arrays.Put(a, Find(ids, e.id), e.message)
    else if Fetches(s, e) then Refilled(a, Find(ids, e.id), s, s.Queue(Writers(Obj(BufferKind, e.id))))
    else a
  }

  function Refilled(a: Arrays.Store, i: int, s: State, senders: seq<Pid>): Arrays.Store {
    if senders == [] then Arrays.Take(a, i) else Arrays.Put(Arrays.Take(a, i), i, s.At(senders[0]).message)
  }

  /** A blocked sender's message was accepted when it was sent. */
  lemma {:induction false} PendingSized(s: State, id: int)
    requires Traffic(s) && Sized(s) && id in s.buffers && s.Queue(Writers(Obj(BufferKind, id))) != []
    ensures 0 < |s.At(s.Queue(Writers(Obj(BufferKind, id)))[0]).message| < s.buffers[id].maxSize
  {
    var b, m := s.buffers[id], s.At(s.Queue(Writers(Obj(BufferKind, id)))[0]).message;
    assert LedgerOk(b, Pending(s, id));
    assert Pending(s, id)[0] == m;
    assert m in multiset(Pending(s, id));
    assert m in multiset(b.sent);
  }

  /** Replacing one ring on both sides keeps the mirror. */
  lemma {:induction false} OneRing(
    a: Arrays.Store, c: Arrays.Store, ids: seq<int>, was: map<int, Buffer>, now: map<int, Buffer>, i: int, b: Buffer)
    requires Holds(a, ids, was) && 0 <= i < |ids| && now == was[ids[i] := b]
    requires Arrays.Valid(c) && Arrays.SameLimits(a, c) && Mirrors(c, i, b)
    requires forall j :: 0 <= j < |ids| && j != i ==> Arrays.Ring(c, j) == Arrays.Ring(a, j)
    ensures Holds(c, ids, now)
  {
    forall j | 0 <= j < |ids| ensures ids[j] in now && Mirrors(c, j, now[ids[j]]) {
      if j != i {
        StillMirrors(a, c, j, was[ids[j]]);
      }
    }
  }

  lemma {:induction false} StillMirrors(a: Arrays.Store, c: Arrays.Store, j: int, b: Buffer)
    requires Arrays.Valid(a) && Arrays.Valid(c) && Arrays.SameLimits(a, c) && 0 <= j < |a.buffers|
    requires Mirrors(a, j, b) && Arrays.Ring(c, j) == Arrays.Ring(a, j)
    ensures Mirrors(c, j, b)
  {
  }

  /** A store on both sides. */
  lemma {:induction false} PutMirrors(
    a: Arrays.Store, ids: seq<int>, was: map<int, Buffer>, now: map<int, Buffer>, i: int, m: Message)
    requires Holds(a, ids, was) && 0 <= i < |ids| && 0 < |m| < was[ids[i]].maxSize
    requires |was[ids[i]].ring| < was[ids[i]].maxMessages
    requires var b := was[ids[i]]; now == was[ids[i] := b.(ring := b.ring + [m], sent := b.sent + [m])]
    ensures Holds(Arrays.Put(a, i, m), ids, now)
  {
    assert Mirrors(a, i, was[ids[i]]);
    Arrays.PutRing(a, i, m);
    OneRing(a, Arrays.Put(a, i, m), ids, was, now, i, now[ids[i]]);
  }

  /** A fetch on both sides, with or without a refill. */
  lemma {:induction false} TakeMirrors(
    a: Arrays.Store, c: Arrays.Store, ids: seq<int>, was: map<int, Buffer>, now: map<int, Buffer>, i: int,
    refill: seq<Message>)
    requires Holds(a, ids, was) && 0 <= i < |ids| && was[ids[i]].ring != [] && |refill| <= 1
    requires forall m :: m in refill ==> 0 < |m| < was[ids[i]].maxSize
    requires c == if refill == [] then Arrays.Take(a, i) else Arrays.Put(Arrays.Take(a, i), i, refill[0])
    requires ids[i] in now && now == was[ids[i] := now[ids[i]]] && SameLimits(was[ids[i]], now[ids[i]])
    requires now[ids[i]].ring == was[ids[i]].ring[1..] + refill
    ensures Holds(c, ids, now)
    ensures Arrays.SlotOk(a, i, a.buffers[i].read) && Arrays.Slot(a, i, a.buffers[i].read) == was[ids[i]].ring[0]
  {
    assert Mirrors(a, i, was[ids[i]]);
    Arrays.TakeRing(a, i);
    if refill != [] {
      assert refill == [refill[0]] && refill[0] in refill;
      Arrays.PutRing(Arrays.Take(a, i), i, refill[0]);
    }
    OneRing(a, c, ids, was, now, i, now[ids[i]]);
  }

  predicate SameLimits(b: Buffer, c: Buffer) {
    c.maxMessages == b.maxMessages && c.maxSize == b.maxSize
  }

  /** What SEND_BUFFER does to the buffers when it stores. */
  ghost predicate StoredIn(was: map<int, Buffer>, now: map<int, Buffer>, id: int, m: Message) {
    && id in was && 0 < |m| < was[id].maxSize && |was[id].ring| < was[id].maxMessages
    && now == was[id := was[id].(ring := was[id].ring + [m], sent := was[id].sent + [m])]
  }

  lemma {:induction false} StoredRing(s: State, id: int, m: Message, n: int)
    requires s.current.Some? && SendBuffer(s, id, m, n).1 == NoError && s.Queue(Waiters(Obj(BufferKind, id))) == []
    ensures StoredIn(s.buffers, SendBuffer(s, id, m, n).0.buffers, id, m)
  {
    var r := SendBuffer(s, id, m, n);
    SentBuffers(s, id, m, n, r.0, r.1);
  }

  lemma {:induction false} StoreHolds(
    a: Arrays.Store, ids: seq<int>, was: map<int, Buffer>, now: map<int, Buffer>, id: int, m: Message)
    requires Holds(a, ids, was) && StoredIn(was, now, id, m)
    ensures Holds(Arrays.Put(a, Find(ids, id), m), ids, now)
  {
    PutMirrors(a, ids, was, now, Find(ids, id), m);
  }

  /** What the first blocked sender adds after a fetch. */
  function Refill(s: State, id: int): seq<Message> {
    var q := s.Queue(Writers(Obj(BufferKind, id)));
    if q == [] then [] else [s.At(q[0]).message]
  }

  ghost predicate Fetched(s: State, now: map<int, Buffer>, id: int) {
    && id in s.buffers && id in now && s.buffers[id].ring != [] && now == s.buffers[id := now[id]]
    && SameLimits(s.buffers[id], now[id]) && now[id].ring == s.buffers[id].ring[1..] + Refill(s, id)
  }

  lemma {:induction false} FetchedRing(s: State, id: int, n: int)
    requires s.current.Some? && ReceiveBuffer(s, id, n).1 == NoError
    ensures var r := ReceiveBuffer(s, id, n); Fetched(s, r.0.buffers, id) && r.2 == s.buffers[id].ring[0]
  {
    var r := ReceiveBuffer(s, id, n);
    ReceivedBuffers(s, id, n, r.0, r.1, r.2);
  }

  /** The bytes fetched are the message RECEIVE_BUFFER returns. */
  lemma {:induction false} FetchHolds(a: Arrays.Store, ids: seq<int>, s: State, now: map<int, Buffer>, i: int)
    requires Traffic(s) && Sized(s) && Holds(a, ids, s.buffers) && 0 <= i < |ids| && Fetched(s, now, ids[i])
    ensures Holds(Refilled(a, i, s, s.Queue(Writers(Obj(BufferKind, ids[i])))), ids, now)
    ensures Arrays.SlotOk(a, i, a.buffers[i].read)
    ensures Arrays.Slot(a, i, a.buffers[i].read) == s.buffers[ids[i]].ring[0]
  {
    var q := s.Queue(Writers(Obj(BufferKind, ids[i])));
    if q != [] {
      PendingSized(s, ids[i]);
    }
    TakeMirrors(a, Refilled(a, i, s, q), ids, s.buffers, now, i, Refill(s, ids[i]));
  }

  /** Every other event leaves rings and limits alone. */
  lemma {:induction false} OtherHolds(a: Arrays.Store, ids: seq<int>, s: State, e: Event)
    requires Enabled(s, e) && Holds(a, ids, s.buffers) && !Stores(s, e) && !Fetches(s, e)
    ensures Holds(a, ids, Next(s, e).buffers)
  {
    var now := Next(s, e).buffers;
    forall id ensures id in now <==> id in s.buffers {
      SameRings(s, e, id);
    }
    forall i | 0 <= i < |ids| ensures ids[i] in now && Mirrors(a, i, now[ids[i]]) {
      assert Mirrors(a, i, s.buffers[ids[i]]);
      SameRings(s, e, ids[i]);
    }
  }

  lemma {:induction false} SameRings(s: State, e: Event, id: int)
    requires Enabled(s, e) && !Stores(s, e) && !Fetches(s, e)
    ensures id in Next(s, e).buffers <==> id in s.buffers
    ensures id in s.buffers ==>
              var b, c := s.buffers[id], Next(s, e).buffers[id];
              c.ring == b.ring && SameLimits(b, c)
  {
    if e.Send? {
      var r := SendBuffer(s, e.id, e.message, e.timeout);
      SentBuffers(s, e.id, e.message, e.timeout, r.0, r.1);
    } else if e.Receive? {
      var r := ReceiveBuffer(s, e.id, e.timeout);
      ReceivedBuffers(s, e.id, e.timeout, r.0, r.1, r.2);
    } else if e.Quit? {
      StopHistory(s, e.pid, id);
    } else {
      QuietEvent(s, e);
    }
  }

  // ---------------------------------------------------------------- whole runs

  lemma {:induction false} SizedStep(s: State, e: Event)
    requires Enabled(s, e) && Sized(s)
    ensures Sized(Next(s, e))
  {
    var t := Next(s, e);
    forall id, m | id in t.buffers && m in t.buffers[id].sent ensures 0 < |m| < t.buffers[id].maxSize {
      SentStep(s, e, id);
    }
  }

  lemma {:induction false} SentStep(s: State, e: Event, id: int)
    requires Enabled(s, e) && id in Next(s, e).buffers
    ensures id in s.buffers && Next(s, e).buffers[id].maxSize == s.buffers[id].maxSize
    ensures Next(s, e).buffers[id].sent == s.buffers[id].sent + Accepts(s, e, id)
    ensures forall m :: m in Accepts(s, e, id) ==> 0 < |m| < s.buffers[id].maxSize
  {
    if e.Send? {
      var r := SendBuffer(s, e.id, e.message, e.timeout);
      SentBuffers(s, e.id, e.message, e.timeout, r.0, r.1);
    } else if e.Receive? {
      var r := ReceiveBuffer(s, e.id, e.timeout);
      ReceivedBuffers(s, e.id, e.timeout, r.0, r.1, r.2);
    } else if e.Quit? {
      StopHistory(s, e.pid, id);
    } else {
      QuietEvent(s, e);
    }
  }

  lemma {:induction false} StoreStep(a: Arrays.Store, ids: seq<int>, s: State, id: int, m: Message, n: int)
    requires s.current.Some? && SendBuffer(s, id, m, n).1 == NoError && s.Queue(Waiters(Obj(BufferKind, id))) == []
    requires Holds(a, ids, s.buffers)
    ensures Holds(Arrays.Put(a, Find(ids, id), m), ids, SendBuffer(s, id, m, n).0.buffers)
  {
    StoredRing(s, id, m, n);
    StoreHolds(a, ids, s.buffers, SendBuffer(s, id, m, n).0.buffers, id, m);
  }

  lemma {:induction false} FetchStep(a: Arrays.Store, ids: seq<int>, s: State, id: int, n: int)
    requires s.current.Some? && ReceiveBuffer(s, id, n).1 == NoError
    requires Traffic(s) && Sized(s) && Holds(a, ids, s.buffers)
    ensures Holds(Refilled(a, Find(ids, id), s, s.Queue(Writers(Obj(BufferKind, id)))), ids,
                  ReceiveBuffer(s, id, n).0.buffers)
  {
    FetchedRing(s, id, n);
    FetchHolds(a, ids, s, ReceiveBuffer(s, id, n).0.buffers, Find(ids, id));
  }

  /** One event: what it does to the arrays is what it does to the rings. */
  lemma {:induction false} HoldsStep(a: Arrays.Store, ids: seq<int>, s: State, e: Event)
    requires Enabled(s, e) && Inv(s) && Traffic(s) && Sized(s) && Holds(a, ids, s.buffers)
    ensures Holds(After(a, ids, s, e), ids, Next(s, e).buffers)
  {
    if Stores(s, e) {
      StoreStep(a, ids, s, e.id, e.message, e.timeout);
    } else if Fetches(s, e) {
      FetchStep(a, ids, s, e.id, e.timeout);
    } else {
      OtherHolds(a, ids, s, e);
    }
  }

  /** The arrays after a run. */
  function ArraysAfter(a: Arrays.Store, ids: seq<int>, s: State, run: seq<Event>): Arrays.Store
    requires Feasible(s, run)
    decreases |run|
  {
    if run == [] then a else ArraysAfter(After(a, ids, s, run[0]), ids, Next(s, run[0]), run[1..])
  }

  lemma {:induction false} HoldsOverRun(a: Arrays.Store, ids: seq<int>, s: State, run: seq<Event>)
    requires Inv(s) && Traffic(s) && Sized(s) && Holds(a, ids, s.buffers) && Feasible(s, run) && AllSafe(s, run)
    ensures Holds(ArraysAfter(a, ids, s, run), ids, Exec(s, run).buffers)
    decreases |run|
  {
    if run != [] {
      StepExact(s, run[0]);
      TrafficStep(s, run[0]);
      SizedStep(s, run[0]);
      HoldsStep(a, ids, s, run[0]);
      HoldsOverRun(After(a, ids, s, run[0]), ids, Next(s, run[0]), run[1..]);
    }
  }

  /** Over every safe run, wrap-around of the indices included: the messages handed to the readers of
      a FIFO buffer, then those in its slots of the arrays, then those of its blocked senders are the
      messages accepted, in order; and whatever the discipline none is lost or invented. */
  lemma {:induction false} ArraysConserve(a: Arrays.Store, ids: seq<int>, s: State, run: seq<Event>, i: int)
    requires Initial(s) && Holds(a, ids, s.buffers) && Feasible(s, run) && AllSafe(s, run) && 0 <= i < |ids|
    ensures var c, t := ArraysAfter(a, ids, s, run), Exec(s, run);
            && Holds(c, ids, t.buffers) && ids[i] in t.buffers
            && multiset(t.buffers[ids[i]].delivered) + multiset(Arrays.Ring(c, i)) + multiset(Pending(t, ids[i]))
               + t.buffers[ids[i]].withdrawn == multiset(t.buffers[ids[i]].sent)
            && (t.buffers[ids[i]].discipline == Fifo && t.buffers[ids[i]].withdrawn == multiset{} ==>
                  AllHanded(s, run, ids[i]) + Arrays.Ring(c, i) + Pending(t, ids[i]) == AllAccepted(s, run, ids[i]))
  {
    InitialInv(s);
    InitialTraffic(s);
    HoldsOverRun(a, ids, s, run);
    BufferConservation(s, run, ids[i]);
    FifoDelivery(s, run, ids[i]);
    assert Mirrors(ArraysAfter(a, ids, s, run), i, Exec(s, run).buffers[ids[i]]);
  }
}
