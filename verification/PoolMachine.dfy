/**
 The thread pool as a step machine: n workers, any number of callers of execute, at most one
 caller of wait at a time, and one stop. The task queue is the FIFO that the queue machine refines.
 */
module PoolMachine {

  /** A task of a user, or a barrier task that wait() queued in the given round. */
  datatype Task = User | Gate(round: nat)

  datatype Fate = Queued | Running(worker: nat) | Done | Deleted

  datatype WorkerPc =
    | Top                          // about to test _stop_all
    | Look                         // about to pop the queue
    | Run(task: nat)               // popped, not finished; a barrier task has not arrived yet
    | InBarrier(held: nat, gen: nat) // inside Barrier::Wait
    | Sleep                        // about to wait, or waiting, on the semaphore
    | Stopped

  /** woken (history): left the semaphore and has not looked at the queue since. */
  datatype Worker = Worker(pc: WorkerPc, woken: bool)

  datatype WaiterPc =
    | NotWaiting
    | PushGate(done: nat)   // done gates pushed and posted so far
    | PostGate(done: nat)   // one more gate pushed, its post outstanding
    | Blocked(round: nat)   // inside Barrier::Wait

  datatype StopPc = NotStopping | Clearing | Flagging | Posting(left: nat)

  datatype Pool = Pool(
    workers: seq<Worker>,
    tasks: seq<Task>,      // every task ever queued, in queue order
    popped: nat,           // the queue is tasks[popped..]
    fate: seq<Fate>,       // history: what became of each task
    sem: nat,
    pushing: nat,          // calls of execute between push and Post, other than wait's
    arrived: nat,          // barrier: parties in the current generation
    gen: nat,              // barrier: generations completed
    waiter: WaiterPc,
    lastGate: nat,         // history: position behind the last gate the waiter pushed
    stopper: StopPc,
    stopAll: bool)

  function Size(p: Pool): nat {
    |p.workers|
  }

  datatype Event =
    | ExecutePush | ExecutePost
    | TestStop(w: nat)        // while(!_stop_all)
    | PopTask(w: nat)         // bq.pop(r), either result
    | FinishUser(w: nat)      // r->run() of a user task returns or throws
    | ArriveWorker(w: nat)    // a barrier task enters Barrier::Wait
    | LeaveWorker(w: nat)     // and leaves it
    | WakeUp(w: nat)          // _sem.Wait() returns with a unit of the semaphore
    | Interrupt(w: nat)       // sem_wait fails (a signal came in); Wait() ignores that and returns
    | BeginWait | WaiterPush | WaiterPost | ArriveWaiter | ReturnFromWait
    | BeginStop | ClearOne | ClearDone | SetFlag | StopPost

  /** The worker that takes the event, or -1. */
  function WorkerOf(e: Event): int {
    match e
    case TestStop(w) => w
    case PopTask(w) => w
    case FinishUser(w) => w
    case ArriveWorker(w) => w
    case LeaveWorker(w) => w
    case WakeUp(w) => w
    case Interrupt(w) => w
    case _ => -1
  }

  /** Party number count + 1 of size + 1 arrives: the last one releases the generation. */
  function Arrive(p: Pool): Pool {
    if p.arrived == Size(p) then p.(arrived := 0, gen := p.gen + 1) else p.(arrived := p.arrived + 1)
  }

  predicate Enabled(p: Pool, e: Event) {
    match e
    case ExecutePush => true
    case ExecutePost => p.pushing > 0
    case TestStop(w) => w < Size(p) && p.workers[w].pc.Top?
    case PopTask(w) => w < Size(p) && p.workers[w].pc.Look? && |p.fate| == |p.tasks|
    case FinishUser(w) => w < Size(p) && p.workers[w].pc.Run?
      && p.workers[w].pc.task < |p.tasks| == |p.fate| && p.tasks[p.workers[w].pc.task].User?
    case ArriveWorker(w) => w < Size(p) && p.workers[w].pc.Run?
      && p.workers[w].pc.task < |p.tasks| && p.tasks[p.workers[w].pc.task].Gate?
    case LeaveWorker(w) => w < Size(p) && p.workers[w].pc.InBarrier? && p.workers[w].pc.gen < p.gen
      && p.workers[w].pc.held < |p.fate|
    case WakeUp(w) => w < Size(p) && p.workers[w].pc.Sleep? && p.sem > 0
    case Interrupt(w) => w < Size(p) && p.workers[w].pc.Sleep?
    case BeginWait => p.waiter.NotWaiting? && p.stopper.NotStopping?
    case WaiterPush => p.waiter.PushGate? && p.waiter.done < Size(p)
    case WaiterPost => p.waiter.PostGate?
    case ArriveWaiter => p.waiter.PushGate? && p.waiter.done == Size(p)
    case ReturnFromWait => p.waiter.Blocked? && p.waiter.round < p.gen
    case BeginStop => p.stopper.NotStopping? && p.waiter.NotWaiting?
    case ClearOne => p.stopper.Clearing? && p.popped < |p.tasks| == |p.fate|
    case ClearDone => p.stopper.Clearing? && p.popped == |p.tasks|
    case SetFlag => p.stopper.Flagging?
    case StopPost => p.stopper.Posting? && p.stopper.left > 0
  }

  function SetWorker(p: Pool, w: nat, x: Worker): Pool
    requires w < Size(p)
  {
    p.(workers := p.workers[w := x])
  }

  function PushTask(p: Pool, t: Task): Pool {
    p.(tasks := p.tasks + [t], fate := p.fate + [Queued])
  }

  function Apply(p: Pool, e: Event): Pool
    requires Enabled(p, e)
  {
    match e
    case ExecutePush => PushTask(p, User).(pushing := p.pushing + 1)
    case ExecutePost => p.(pushing := p.pushing - 1, sem := p.sem + 1)
    case TestStop(w) =>
      if p.stopAll then SetWorker(p, w, Worker(Stopped, false))
      else SetWorker(p, w, p.workers[w].(pc := Look))
    case PopTask(w) =>
      if p.popped < |p.tasks| then
        SetWorker(p, w, Worker(Run(p.popped), false)).(popped := p.popped + 1, fate := p.fate[p.popped := Running(w)])
      else SetWorker(p, w, Worker(Sleep, false))
    case FinishUser(w) =>
      SetWorker(p, w, Worker(Top, false)).(fate := p.fate[p.workers[w].pc.task := Done])
    case ArriveWorker(w) =>
      Arrive(SetWorker(p, w, Worker(InBarrier(p.workers[w].pc.task, p.gen), false)))
    case LeaveWorker(w) =>
      SetWorker(p, w, Worker(Top, false)).(fate := p.fate[p.workers[w].pc.held := Done])
    case WakeUp(w) => SetWorker(p, w, Worker(Top, true)).(sem := p.sem - 1)
    case Interrupt(w) => SetWorker(p, w, Worker(Top, false))
    case BeginWait => p.(waiter := PushGate(0))
    case WaiterPush =>
      PushTask(p, Gate(p.gen)).(waiter := PostGate(p.waiter.done), lastGate := |p.tasks| + 1)
    case WaiterPost => p.(waiter := PushGate(p.waiter.done + 1), sem := p.sem + 1)
    case ArriveWaiter => Arrive(p.(waiter := Blocked(p.gen)))
    case ReturnFromWait => p.(waiter := NotWaiting)
    case BeginStop => p.(stopper := Clearing)
    case ClearOne => p.(popped := p.popped + 1, fate := p.fate[p.popped := Deleted])
    case ClearDone => p.(stopper := Flagging)
    case SetFlag => p.(stopper := Posting(Size(p)), stopAll := true)
    case StopPost => p.(stopper := Posting(p.stopper.left - 1), sem := p.sem + 1)
  }

  predicate Step(p: Pool, p': Pool, e: Event) {
    Enabled(p, e) && p' == Apply(p, e)
  }

  /** start_impl has run; tasks may have been queued before, each with its post done or outstanding. */
  predicate Init(p: Pool) {
    && (forall w :: 0 <= w < Size(p) ==> p.workers[w] == Worker(Top, false))
    && (forall i :: 0 <= i < |p.tasks| ==> p.tasks[i].User?)
    && |p.fate| == |p.tasks| && (forall i :: 0 <= i < |p.fate| ==> p.fate[i] == Queued)
    && p.popped == 0 && |p.tasks| <= p.sem + p.pushing
    && p.arrived == 0 && p.gen == 0 && p.lastGate == 0
    && p.waiter.NotWaiting? && p.stopper.NotStopping? && !p.stopAll
  }
}
