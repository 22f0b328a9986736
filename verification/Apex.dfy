/** The state of one ARINC 653 partition in NORMAL mode: its processes and the objects they wait on. */
module Apex {

  const INFINITE: int := -1
  const MAX_SYSTEM_TIME: int := 0x7fff_ffff_ffff_ffff
  const MIN_PRIORITY: int := 1
  const MAX_PRIORITY: int := 239
  const MAX_LOCK_LEVEL: int := 16
  const PREEMPTION_LOCK: int := 1

  type Pid = int
  type Message = seq<int>

  datatype Option<+T> = None | Some(value: T)

  datatype Code =
    | NoError | NoAction | NotAvailable | InvalidParam | InvalidConfig | InvalidMode | TimedOut
    | Parked  // the caller is blocked inside the service; `WakeCode` gives the code it will return

  datatype ProcState = Dormant | Ready | Running | Waiting | Faulted

  datatype Discipline = Fifo | ByPriority

  datatype Kind = BlackboardKind | BufferKind | SemaphoreKind | EventKind | MutexKind

  datatype Obj = Obj(kind: Kind, id: int)

  /** Every object has one wait queue; a buffer has a second one for blocked senders. */
  datatype QueueId = Waiters(obj: Obj) | Writers(obj: Obj)

  /** The waiting_* pointers of a process, one per kind of object. */
  datatype Pointers = Pointers(
    blackboard: Option<int>, buffer: Option<int>, semaphore: Option<int>, event: Option<int>, mutex: Option<int>)
  {
    function Get(k: Kind): Option<int> {
      match k
      case BlackboardKind => blackboard
      case BufferKind => buffer
      case SemaphoreKind => semaphore
      case EventKind => event
      case MutexKind => mutex
    }

    function Set(k: Kind, v: Option<int>): Pointers {
      match k
      case BlackboardKind => this.(blackboard := v)
      case BufferKind => this.(buffer := v)
      case SemaphoreKind => this.(semaphore := v)
      case EventKind => this.(event := v)
      case MutexKind => this.(mutex := v)
    }
  }

  const NO_POINTERS := Pointers(None, None, None, None, None)

  datatype Proc = Proc(
    state: ProcState,
    priority: int,             // CURRENT_PRIORITY
    base: int,                 // BASE_PRIORITY
    period: int,
    capacity: int,             // TIME_CAPACITY
    deadline: int,
    release: int,              // release_point_time
    owned: Option<int>,        // owned_mutex_id
    waitingOn: Pointers,
    suspended: bool,
    timer: int,                // time_counter
    initDelay: int,            // saved_init_delay
    message: Message)          // waiting_message_addr, waiting_message_size

  const NO_PROC := Proc(Dormant, 0, 0, INFINITE, INFINITE, INFINITE, 0, None, NO_POINTERS, false, 0, 0, [])

  datatype Mutex = Mutex(
    owned: bool, owner: Pid, locks: int, ceiling: int, saved: int, discipline: Discipline)

  const NO_MUTEX := Mutex(false, 0, 0, 0, 0, Fifo)

  /** `initial`, `signals` and `grants` are history: the value at creation, and how many signals
      were accepted and waits granted since. */
  datatype Semaphore = Semaphore(
    value: int, maximum: int, discipline: Discipline, initial: int, signals: int, grants: int)

  datatype Blackboard = Blackboard(occupied: bool, message: Message, maxSize: int)

  /** `sent`, `delivered` and `withdrawn` are history: messages accepted or left blocked by
      SEND_BUFFER in call order, messages handed to readers, and messages of stopped senders. */
  datatype Buffer = Buffer(
    ring: seq<Message>, maxMessages: int, maxSize: int, discipline: Discipline,
    sent: seq<Message>, delivered: seq<Message>, withdrawn: multiset<Message>)

  /** The partition's objects by identifier. */
  datatype Objects = Objects(
    mutexes: map<int, Mutex>,
    semaphores: map<int, Semaphore>,
    events: map<int, bool>,           // true is UP
    blackboards: map<int, Blackboard>,
    buffers: map<int, Buffer>)

  /** The wait queues of all objects, and their WAITING_PROCESSES counters. */
  datatype Waits = Waits(queues: map<QueueId, seq<Pid>>, counts: map<Obj, int>)

  datatype State = State(
    procs: map<Pid, Proc>,
    order: seq<Pid>,                  // the partition's process list
    current: Option<Pid>,             // process_current
    yielded: bool,                    // control is in the partition scheduler
    waits: Waits,
    objects: Objects,
    lockLevel: int,
    now: int)
  {
    const queues := waits.queues
    const counts := waits.counts
    const mutexes := objects.mutexes
    const semaphores := objects.semaphores
    const events := objects.events
    const blackboards := objects.blackboards
    const buffers := objects.buffers

    function At(p: Pid): Proc {
      if p in procs then procs[p] else NO_PROC
    }

    function Queue(q: QueueId): seq<Pid> {
      if q in queues then queues[q] else []
    }

    function Count(o: Obj): int {
      if o in counts then counts[o] else 0
    }

    function MutexAt(id: int): Mutex {
      if id in mutexes then mutexes[id] else NO_MUTEX
    }

    function With(p: Pid, x: Proc): State {
      this.(procs := procs[p := x])
    }

    /** Replaces a wait queue and adds `delta` to its object's WAITING_PROCESSES. */
    function WithQueue(q: QueueId, s: seq<Pid>, delta: int): State {
      this.(waits := Waits(queues[q := s], counts[q.obj := Count(q.obj) + delta]))
    }

    function PutMutex(id: int, m: Mutex): State {
      this.(objects := objects.(mutexes := mutexes[id := m]))
    }

    function PutSemaphore(id: int, m: Semaphore): State {
      this.(objects := objects.(semaphores := semaphores[id := m]))
    }

    function PutEvent(id: int, up: bool): State {
      this.(objects := objects.(events := events[id := up]))
    }

    function PutBlackboard(id: int, b: Blackboard): State {
      this.(objects := objects.(blackboards := blackboards[id := b]))
    }

    function PutBuffer(id: int, b: Buffer): State {
      this.(objects := objects.(buffers := buffers[id := b]))
    }
  }

  function Overflow(t: int): bool {
    t > MAX_SYSTEM_TIME
  }

  /** The check every blocking service makes on its time-out. */
  predicate BadTimeout(now: int, timeout: int) {
    timeout < INFINITE || (timeout >= 0 && Overflow(now + timeout))
  }

  function DeadlineFrom(p: Proc, base: int): int {
    if p.capacity == INFINITE then INFINITE else base + p.capacity
  }

  /** The code a parked caller returns once it runs again. */
  function WakeCode(p: Proc, timeout: int): Code {
    if timeout != INFINITE && p.timer == 0 then TimedOut else NoError
  }
}
