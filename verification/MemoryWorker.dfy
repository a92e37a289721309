/**
  The background memory worker of one project key: coalesced wake-ups, the delayed restart
  timer, and the heartbeats of active turns.  Each step is one critical section or one
  unlocked action; a run is any interleaving.
 */
module MemoryWorker {
  import opened Wrappers

  type SessionId = string

  /** Where a worker thread stands: at the top of its loop, draining, at the wake-up check,
      or about to leave. */
  datatype Pc = AtTop | Draining | AtCheck | Leaving

  /** The entry of `_timers`: a fired timer stays there until a start call removes it. */
  datatype TimerEntry = Armed | Fired

  /** `startCalls` counts calls of `_start_service_worker` that are due but have not taken
      the lock yet; `beatCalls` the same for `_heartbeat`.  `jobs` counts the durable tasks
      that `_schedule` finds. */
  datatype State = State(
    clients: set<SessionId>,
    running: Option<bool>,
    workers: map<nat, Pc>,
    nextWorker: nat,
    timer: Option<TimerEntry>,
    startCalls: nat,
    jobs: nat,
    active: set<SessionId>,
    heartbeats: map<SessionId, TimerEntry>,
    beatCalls: multiset<SessionId>)

  function Initial(jobs: nat): State {
    State({}, None, map[], 0, None, 0, jobs, {}, map[], multiset{})
  }

  datatype Op =
    | OpenSession(id: SessionId)
    | BeginTurn(id: SessionId)
    | Heartbeat(id: SessionId, stored: bool)
    | FireHeartbeat(id: SessionId)
    | FinishTurn(id: SessionId)
    | Enqueue(added: nat)
    | CloseSession(id: SessionId)
    | StartWorker
    | FireTimer
    | Look(worker: nat)
    | Drain(worker: nat, left: nat, raises: bool)
    | Check(worker: nat)
    | Leave(worker: nat, readable: bool)

  /** `_start_service_worker` */
  function StartStep(s: State): State {
    if s.startCalls == 0 then s
    else
      var called := s.(startCalls := s.startCalls - 1);
      if s.clients == {} then called
      else if s.running.Some? then called.(running := Some(true))
      else
        called.(timer := None, running := Some(false),
                workers := s.workers[s.nextWorker := AtTop], nextWorker := s.nextWorker + 1)
  }

  /** The `finally` part of `_run`, with `_schedule`, which raises when it cannot read the
      durable tasks. */
  function LeaveStep(s: State, worker: nat, readable: bool): State {
    if worker !in s.workers || s.workers[worker] != Leaving then s
    else
      var gone := s.(running := None, workers := s.workers - {worker});
      if s.clients != {} && readable && s.jobs > 0 then gone.(timer := Some(Armed)) else gone
  }

  function At(s: State, worker: nat, pc: Pc): State {
    s.(workers := s.workers[worker := pc])
  }

  /** The check after a drain; the flag is read from `_running`. */
  function CheckStep(s: State, worker: nat): State {
    if worker !in s.workers || s.workers[worker] != AtCheck then s
    else if s.running == Some(true) then At(s, worker, AtTop).(running := Some(false))
    else At(s, worker, Leaving)
  }

  /** `_heartbeat`: storing the activity may raise, and then no timer is started. */
  function HeartbeatStep(s: State, id: SessionId, stored: bool): State {
    if id !in s.beatCalls then s
    else
      var called := s.(beatCalls := s.beatCalls - multiset{id});
      if id !in s.active || !stored then called else called.(heartbeats := s.heartbeats[id := Armed])
  }

  function CloseStep(s: State, id: SessionId): State {
    var left := s.(active := s.active - {id}, heartbeats := s.heartbeats - {id}, clients := s.clients - {id});
    if left.clients == {} then left.(timer := None) else left
  }

  function Next(s: State, op: Op): State {
    match op
    case OpenSession(id) => s.(clients := s.clients + {id}, startCalls := s.startCalls + 1)
    case BeginTurn(id) => s.(active := s.active + {id}, beatCalls := s.beatCalls + multiset{id})
    case Heartbeat(id, stored) => HeartbeatStep(s, id, stored)
    case FireHeartbeat(id) =>
      if id in s.heartbeats && s.heartbeats[id] == Armed then
        s.(heartbeats := s.heartbeats[id := Fired], beatCalls := s.beatCalls + multiset{id})
      else s
    case FinishTurn(id) => s.(active := s.active - {id}, heartbeats := s.heartbeats - {id})
    case Enqueue(added) => s.(jobs := s.jobs + added, startCalls := s.startCalls + 1)
    case CloseSession(id) => CloseStep(s, id)
    case StartWorker => StartStep(s)
    case FireTimer =>
      if s.timer == Some(Armed) then s.(timer := Some(Fired), startCalls := s.startCalls + 1) else s
    case Look(worker) =>
      if worker in s.workers && s.workers[worker] == AtTop then
        At(s, worker, if s.clients == {} then Leaving else Draining)
      else s
    case Drain(worker, left, raises) =>
      if worker in s.workers && s.workers[worker] == Draining then
        At(s, worker, if raises then Leaving else AtCheck).(jobs := left)
      else s
    case Check(worker) => CheckStep(s, worker)
    case Leave(worker, readable) => LeaveStep(s, worker, readable)
  }

  // ---------------------------------------------------------------------------------
  // What every step keeps
  // ---------------------------------------------------------------------------------

  /** `_running` has the key exactly while its one worker is alive. */
  predicate WorkersOk(s: State) {
    && (forall w :: w in s.workers ==> w < s.nextWorker && s.running.Some?)
    && (forall v, w :: v in s.workers && w in s.workers ==> v == w)
    && (s.running.Some? ==> HasWorker(s))
  }

  predicate HasWorker(s: State) {
    exists w :: w in s.workers
  }

  /** A timer is kept only with clients and without a worker, and one that has fired has its
      start call still due. */
  predicate TimerOk(s: State) {
    s.timer.Some? ==> s.clients != {} && s.running.None? && (s.timer == Some(Fired) ==> s.startCalls > 0)
  }

  /** No schedulable job of a key with clients is forgotten. */
  predicate JobsOk(s: State) {
    s.jobs > 0 && s.clients != {} ==> s.running.Some? || s.timer.Some? || s.startCalls > 0
  }

  /** Every active turn has its heartbeat armed or a heartbeat call due. */
  predicate BeatsOk(s: State) {
    forall id :: id in s.active ==> (id in s.heartbeats && s.heartbeats[id] == Armed) || id in s.beatCalls
  }

  predicate Inv(s: State) {
    WorkersOk(s) && TimerOk(s) && s.heartbeats.Keys <= s.active
  }

  lemma StartKeeps(s: State)
    requires WorkersOk(s)
    ensures WorkersOk(StartStep(s))
  {
    var t := StartStep(s);
    if t.nextWorker != s.nextWorker {
      assert s.workers == map[] by {
        assert forall w :: w in s.workers ==> s.running.Some?;
      }
      assert s.nextWorker in t.workers;
    }
  }

  /** A worker's move within its loop. */
  lemma MoveKeeps(s: State, worker: nat, pc: Pc)
    requires WorkersOk(s) && worker in s.workers
    ensures WorkersOk(At(s, worker, pc))
  {
    assert worker in At(s, worker, pc).workers;
  }

  lemma LeaveKeeps(s: State, worker: nat, readable: bool)
    requires WorkersOk(s)
    ensures WorkersOk(LeaveStep(s, worker, readable))
  {
  }

  lemma SameWorkers(s: State, t: State)
    requires WorkersOk(s) && t.workers == s.workers && t.running.Some? == s.running.Some? && t.nextWorker == s.nextWorker
    ensures WorkersOk(t)
  {
    assert HasWorker(s) ==> HasWorker(t);
  }

  lemma LookKeeps(s: State, w: nat)
    requires WorkersOk(s)
    ensures WorkersOk(Next(s, Look(w)))
  {
    hide WorkersOk;
    if w in s.workers && s.workers[w] == AtTop {
      MoveKeeps(s, w, if s.clients == {} then Leaving else Draining);
    }
  }

  lemma DrainKeeps(s: State, w: nat, left: nat, raises: bool)
    requires WorkersOk(s)
    ensures WorkersOk(Next(s, Drain(w, left, raises)))
  {
    hide WorkersOk;
    if w in s.workers && s.workers[w] == Draining {
      var moved := At(s, w, if raises then Leaving else AtCheck);
      MoveKeeps(s, w, if raises then Leaving else AtCheck);
      SameWorkers(moved, moved.(jobs := left));
    }
  }

  lemma CheckKeeps(s: State, w: nat)
    requires WorkersOk(s)
    ensures WorkersOk(CheckStep(s, w))
  {
    hide WorkersOk;
    if w in s.workers && s.workers[w] == AtCheck {
      MoveKeeps(s, w, AtTop);
      MoveKeeps(s, w, Leaving);
      if s.running == Some(true) {
        SameWorkers(At(s, w, AtTop), At(s, w, AtTop).(running := Some(false)));
      }
    }
  }

  lemma OthersKeep(s: State, op: Op)
    requires WorkersOk(s) && !op.StartWorker? && !op.Leave? && !op.Look? && !op.Drain? && !op.Check?
    ensures WorkersOk(Next(s, op))
  {
    hide WorkersOk;
    SameWorkers(s, Next(s, op));
  }

  lemma WorkersKeep(s: State, op: Op)
    requires WorkersOk(s)
    ensures WorkersOk(Next(s, op))
  {
    hide WorkersOk, StartStep, LeaveStep, CheckStep;
    match op
    case StartWorker => StartKeeps(s);
    case Leave(w, readable) => LeaveKeeps(s, w, readable);
    case Look(w) => LookKeeps(s, w);
    case Drain(w, left, raises) => DrainKeeps(s, w, left, raises);
    case Check(w) => CheckKeeps(s, w);
    case _ => OthersKeep(s, op);
  }

  lemma TimerKeeps(s: State, op: Op)
    requires WorkersOk(s) && TimerOk(s)
    ensures TimerOk(Next(s, op))
  {
    match op
    case CloseSession(id) => assert s.clients - {id} != {} ==> s.clients != {};
    case OpenSession(id) => assert id in s.clients + {id};
    case _ =>
  }

  lemma NextKeeps(s: State, op: Op)
    requires Inv(s)
    ensures Inv(Next(s, op))
  {
    WorkersKeep(s, op);
    TimerKeeps(s, op);
    hide WorkersOk, TimerOk;
  }

  // ---------------------------------------------------------------------------------
  // What a step can lose
  // ---------------------------------------------------------------------------------

  /** The last worker goes with a job left, nothing due, and the durable tasks unreadable. */
  predicate Forgets(s: State, op: Op) {
    && op.Leave? && !op.readable && op.worker in s.workers && s.workers[op.worker] == Leaving
    && s.jobs > 0 && s.clients != {} && s.startCalls == 0
  }

  lemma JobsStep(s: State, op: Op)
    requires Inv(s) && JobsOk(s)
    ensures JobsOk(Next(s, op)) <==> !Forgets(s, op)
  {
    match op
    case CloseSession(id) => assert s.clients - {id} != {} ==> s.clients != {};
    case _ =>
  }

  /** The only heartbeat call that is due fails, and no heartbeat is armed. */
  predicate Misses(s: State, op: Op) {
    && op.Heartbeat? && !op.stored && op.id in s.active && s.beatCalls[op.id] == 1
    && !(op.id in s.heartbeats && s.heartbeats[op.id] == Armed)
  }

  lemma BeatStep(s: State, id: SessionId, stored: bool)
    requires BeatsOk(s)
    ensures BeatsOk(HeartbeatStep(s, id, stored)) <==> !Misses(s, Heartbeat(id, stored))
  {
    var t := HeartbeatStep(s, id, stored);
    assert forall other :: other != id ==> (other in t.beatCalls <==> other in s.beatCalls);
    assert id in s.beatCalls ==> (id in t.beatCalls <==> s.beatCalls[id] > 1);
  }

  lemma BeatsStep(s: State, op: Op)
    requires BeatsOk(s)
    ensures BeatsOk(Next(s, op)) <==> !Misses(s, op)
  {
    match op
    case Heartbeat(id, stored) =>
      BeatStep(s, id, stored);
      hide *;
    case _ => hide StartStep, LeaveStep, CheckStep, HeartbeatStep;
  }

  function Run(s: State, ops: seq<Op>): State
    decreases |ops|
  {
    if ops == [] then s else Run(Next(s, ops[0]), ops[1..])
  }

  lemma {:induction false} RunKeeps(s: State, ops: seq<Op>)
    requires Inv(s)
    ensures Inv(Run(s, ops))
    decreases |ops|
  {
    hide Inv;
    if ops != [] {
      NextKeeps(s, ops[0]);
      RunKeeps(Next(s, ops[0]), ops[1..]);
    }
  }

  /** In every run there is at most one worker, there are timers only for keys with clients,
      and heartbeats only for active turns. */
  lemma OneWorkerPerKey(jobs: nat, ops: seq<Op>, v: nat, w: nat)
    ensures var s := Run(Initial(jobs), ops);
            && (v in s.workers && w in s.workers ==> v == w)
            && (s.running.Some? <==> HasWorker(s))
            && (s.timer.Some? ==> s.clients != {} && !HasWorker(s))
            && s.heartbeats.Keys <= s.active
  {
    RunKeeps(Initial(jobs), ops);
  }

  /** `holds` in every state of a run. */
  predicate Always(holds: State -> bool, s: State, ops: seq<Op>)
    decreases |ops|
  {
    holds(s) && (ops == [] || Always(holds, Next(s, ops[0]), ops[1..]))
  }

  /** No step of a run is one that `loses`. */
  predicate Never(loses: (State, Op) -> bool, s: State, ops: seq<Op>)
    decreases |ops|
  {
    ops == [] || (!loses(s, ops[0]) && Never(loses, Next(s, ops[0]), ops[1..]))
  }

  lemma {:induction false} JobsAlways(s: State, ops: seq<Op>)
    requires Inv(s) && JobsOk(s)
    ensures Always(JobsOk, s, ops) <==> Never(Forgets, s, ops)
    decreases |ops|
  {
    hide Inv, JobsOk, Forgets, Next;
    if ops != [] {
      NextKeeps(s, ops[0]);
      JobsStep(s, ops[0]);
      if !Forgets(s, ops[0]) {
        JobsAlways(Next(s, ops[0]), ops[1..]);
      }
    }
  }

  lemma {:induction false} BeatsAlways(s: State, ops: seq<Op>)
    requires BeatsOk(s)
    ensures Always(BeatsOk, s, ops) <==> Never(Misses, s, ops)
    decreases |ops|
  {
    hide BeatsOk, Misses, Next;
    if ops != [] {
      BeatsStep(s, ops[0]);
      if !Misses(s, ops[0]) {
        BeatsAlways(Next(s, ops[0]), ops[1..]);
      }
    }
  }

  lemma {:induction false} AtTheEnd(holds: State -> bool, s: State, ops: seq<Op>)
    requires Always(holds, s, ops)
    ensures holds(Run(s, ops))
    decreases |ops|
  {
    if ops != [] {
      AtTheEnd(holds, Next(s, ops[0]), ops[1..]);
    }
  }

  /** In every run: all along, a schedulable job of a key with clients has a worker, a timer
      or a start call due, exactly when no last worker leaves while the durable tasks cannot
      be read. Once no start call is due, that means a worker that will look again or an
      armed timer. */
  lemma NoJobForgotten(jobs: nat, ops: seq<Op>)
    ensures Always(JobsOk, Initial(jobs), ops) <==> Never(Forgets, Initial(jobs), ops)
    ensures var s := Run(Initial(jobs), ops);
            Never(Forgets, Initial(jobs), ops) && s.startCalls == 0 && s.jobs > 0 && s.clients != {} ==>
              HasWorker(s) || s.timer == Some(Armed)
  {
    JobsAlways(Initial(jobs), ops);
    RunKeeps(Initial(jobs), ops);
    var s := Run(Initial(jobs), ops);
    if Never(Forgets, Initial(jobs), ops) {
      AtTheEnd(JobsOk, Initial(jobs), ops);
      if s.timer.Some? {
        match s.timer.value
        case Armed =>
        case Fired =>
      }
    }
  }

  /** A wake-up between the worker's last check and its exit is not lost: the exit itself
      arms the timer when a job is left and can be read. */
  lemma LateWakeUp(s: State, worker: nat, readable: bool)
    requires Inv(s) && worker in s.workers && s.workers[worker] == Leaving
    requires s.startCalls > 0 && s.jobs > 0 && s.clients != {}
    ensures var woken := StartStep(s);
            var left := LeaveStep(woken, worker, readable);
            && woken.workers == s.workers && woken.running == Some(true)
            && !HasWorker(left) && (left.timer == Some(Armed) <==> readable)
  {
  }

  /** A wake-up while a worker drains makes it drain once more. */
  lemma WakeDrainsAgain(s: State, worker: nat, left: nat)
    requires Inv(s) && worker in s.workers && s.workers[worker] == Draining && s.startCalls > 0 && s.clients != {}
    ensures var t := Next(Next(Next(Next(s, StartWorker), Drain(worker, left, false)), Check(worker)), Look(worker));
            worker in t.workers && t.workers[worker] == Draining && t.running == Some(false)
  {
  }

  /** A fired timer brings a worker back, which drains. */
  lemma TimerBringsWorker(s: State)
    requires Inv(s) && s.timer == Some(Armed) && s.startCalls == 0
    ensures var t := Next(Next(Next(s, FireTimer), StartWorker), Look(s.nextWorker));
            s.nextWorker in t.workers && t.workers[s.nextWorker] == Draining && t.timer == None
  {
  }

  /** In every run: all along, every active turn has a heartbeat armed or due, exactly when
      no due heartbeat that is the last one fails to be stored. */
  lemma ActiveTurnsBeat(jobs: nat, ops: seq<Op>, id: SessionId)
    ensures Always(BeatsOk, Initial(jobs), ops) <==> Never(Misses, Initial(jobs), ops)
    ensures var s := Run(Initial(jobs), ops);
            Never(Misses, Initial(jobs), ops) && id in s.active && id !in s.beatCalls ==>
              id in s.heartbeats && s.heartbeats[id] == Armed
  {
    BeatsAlways(Initial(jobs), ops);
    if Never(Misses, Initial(jobs), ops) {
      AtTheEnd(BeatsOk, Initial(jobs), ops);
    }
  }

  // ---------------------------------------------------------------------------------
  // The module's dictionaries
  // ---------------------------------------------------------------------------------

  /** The entries of one key; every method is one critical section. */
  class WorkerRegistry {
    var clients: set<SessionId>
    var running: Option<bool>
    var workers: map<nat, Pc>
    var nextWorker: nat
    var timer: Option<TimerEntry>
    var startCalls: nat
    var jobs: nat
    var active: set<SessionId>
    var heartbeats: map<SessionId, TimerEntry>
    var beatCalls: multiset<SessionId>

    constructor (jobs: nat)
      ensures Now() == Initial(jobs)
    {
      clients, running, workers, nextWorker := {}, None, map[], 0;
      timer, startCalls, this.jobs := None, 0, jobs;
      active, heartbeats, beatCalls := {}, map[], multiset{};
    }

    function Now(): State
      reads this
    {
      State(clients, running, workers, nextWorker, timer, startCalls, jobs, active, heartbeats, beatCalls)
    }

    /** `_start_service_worker` */
    method StartServiceWorker() returns (started: Option<nat>)
      requires startCalls > 0
      modifies this
      ensures Now() == Next(old(Now()), StartWorker)
      ensures startCalls == old(startCalls) - 1 && (started.Some? <==> clients != {} && old(running).None?)
      ensures started.Some? ==>
                && workers == old(workers)[started.value := AtTop] && started.value == old(nextWorker)
                && running == Some(false) && timer == None
      ensures clients != {} && old(running).Some? ==> running == Some(true) && workers == old(workers) && timer == old(timer)
      ensures clients == {} ==> running == old(running) && workers == old(workers) && timer == old(timer)
    {
      startCalls := startCalls - 1;
      if |clients| == 0 {
        return None;
      }
      if running.Some? {
        running := Some(true);
        return None;
      }
      timer := None;
      running := Some(false);
      workers := workers[nextWorker := AtTop];
      nextWorker := nextWorker + 1;
      return Some(nextWorker - 1);
    }

    /** `open_memory_session`: one client more, and a start call due. */
    method Open(id: SessionId)
      modifies this`clients, this`startCalls
      ensures Now() == Next(old(Now()), OpenSession(id))
      ensures clients == old(clients) + {id} && startCalls == old(startCalls) + 1
    {
      clients := clients + {id};
      startCalls := startCalls + 1;
    }

    /** `begin_memory_turn`: the turn is active, and its heartbeat is due. */
    method Begin(id: SessionId)
      modifies this`active, this`beatCalls
      ensures Now() == Next(old(Now()), BeginTurn(id))
      ensures active == old(active) + {id} && beatCalls == old(beatCalls) + multiset{id}
    {
      active := active + {id};
      beatCalls := beatCalls + multiset{id};
    }

    /** The wake-up check of `_run`; the worker goes on or leaves. */
    method CheckWakeUp(worker: nat) returns (again: bool)
      requires worker in workers && workers[worker] == AtCheck
      modifies this`running, this`workers
      ensures Now() == Next(old(Now()), Check(worker)) && again == (old(running) == Some(true))
      ensures running == if again then Some(false) else old(running)
      ensures workers == old(workers)[worker := if again then AtTop else Leaving]
    {
      again := running == Some(true);
      if again {
        running := Some(false);
        workers := workers[worker := AtTop];
      } else {
        workers := workers[worker := Leaving];
      }
    }

    /** The `finally` of `_run`, with `_schedule`. */
    method LeaveRun(worker: nat, readable: bool) returns (raised: bool)
      requires worker in workers && workers[worker] == Leaving
      modifies this`running, this`workers, this`timer
      ensures Now() == Next(old(Now()), Leave(worker, readable))
      ensures raised == (clients != {} && !readable)
      ensures running == None && workers == old(workers) - {worker}
      ensures timer == if clients != {} && readable && jobs > 0 then Some(Armed) else old(timer)
    {
      running := None;
      workers := workers - {worker};
      raised := false;
      if |clients| > 0 {
        if !readable {
          return true;
        }
        if jobs > 0 {
          timer := Some(Armed);
        }
      }
    }

    /** `_heartbeat` */
    method Beat(id: SessionId, stored: bool) returns (raised: bool)
      requires id in beatCalls
      modifies this`beatCalls, this`heartbeats
      ensures Now() == Next(old(Now()), Heartbeat(id, stored))
      ensures raised == (id in active && !stored)
      ensures beatCalls == old(beatCalls) - multiset{id}
      ensures heartbeats == if id in active && stored then old(heartbeats)[id := Armed] else old(heartbeats)
    {
      beatCalls := beatCalls - multiset{id};
      raised := false;
      if id in active {
        if !stored {
          return true;
        }
        heartbeats := heartbeats[id := Armed];
      }
    }

    /** `close_memory_session` */
    method Close(id: SessionId)
      modifies this
      ensures Now() == Next(old(Now()), CloseSession(id))
      ensures clients == old(clients) - {id} && active == old(active) - {id} && heartbeats == old(heartbeats) - {id}
      ensures timer == if clients == {} then None else old(timer)
    {
      active := active - {id};
      heartbeats := heartbeats - {id};
      clients := clients - {id};
      if clients == {} {
        timer := None;
      }
    }

    /** `finish_memory_turn`: the activity ends, then the journal is queued and a start call
        is due. */
    method Finish(id: SessionId, added: nat)
      modifies this
      ensures Now() == Next(Next(old(Now()), FinishTurn(id)), Enqueue(added))
      ensures active == old(active) - {id} && heartbeats == old(heartbeats) - {id} && clients == old(clients)
      ensures jobs == old(jobs) + added && startCalls == old(startCalls) + 1
    {
      active := active - {id};
      heartbeats := heartbeats - {id};
      jobs := jobs + added;
      startCalls := startCalls + 1;
    }
  }
}
