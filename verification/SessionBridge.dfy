/**
  `SessionBridge`: waking, using, suspending and closing one session's runtime.  Each step
  is one critical section or one unlocked action of the source; any interleaving of the
  requests, the worker and its queue, the construction threads, one maintenance thread and
  `close` is a run.
 */
module SessionBridge {
  import opened Wrappers

  type Session = nat
  type ThreadId = nat
  type RequestId = nat

  /** A construction thread; it is alive until it has ended. */
  datatype Construction =
    | Building(generation: nat)
    | Built(generation: nat, session: Session)
    | Finishing(session: Session)
    | Discarding(session: Session)
    | Ended

  /** A request inside `_require_session`: waiting for a suspension to end, joining a
      construction, or holding the session it was given. */
  datatype Phase = Waiting | Joining(thread: ThreadId) | Holding(session: Session)

  /** How a call of `_require_session` is protected: by a reservation of `_runtime_use`, by
      the worker task it is made from, which counts as unfinished until it ends, or not. */
  datatype Standing = Reserved | InTask | Bare

  datatype Request = Request(standing: Standing, phase: Phase)

  datatype Maintenance = Resting | Closing(session: Session) | Closed(session: Session) | Releasing

  datatype Shutdown = Open | Flagged | Bumped(captured: Option<Session>) | Done

  datatype State = State(
    generation: nat,
    session: Option<Session>,
    sessionThread: Option<ThreadId>,
    threads: seq<Construction>,
    users: nat,
    tasks: nat,
    working: bool,
    notSuspending: bool,
    maintenance: Maintenance,
    shutdown: Shutdown,
    requests: map<RequestId, Request>,
    built: nat,
    installed: map<Session, nat>,
    suspended: set<Session>,
    discarded: set<Session>,
    closed: set<Session>)

  function Fresh(): State {
    State(0, None, None, [], 0, 0, false, true, Resting, Open, map[], 0, map[], {}, {}, {})
  }

  predicate IsClosing(s: State) {
    s.shutdown != Open
  }

  predicate Alive(s: State, thread: ThreadId) {
    thread < |s.threads| && s.threads[thread] != Ended
  }

  predicate Constructing(s: State) {
    s.sessionThread.Some? && Alive(s, s.sessionThread.value)
  }

  datatype Op =
    | Enter(request: RequestId, wake: bool)
    | Enqueue
    | StartTask
    | DiscardTask
    | EnterTask(request: RequestId)
    | TaskDone
    | EnterBare(request: RequestId)
    | Require(request: RequestId)
    | RequireLate(request: RequestId)
    | Take(request: RequestId)
    | Leave(request: RequestId)
    | Build(thread: ThreadId)
    | Fail(thread: ThreadId)
    | Install(thread: ThreadId)
    | Finish(thread: ThreadId)
    | BeginSuspend
    | CloseSession(ok: bool)
    | CommitSuspend
    | EndSuspend
    | BeginShutdown
    | BumpGeneration
    | FinishShutdown

  function WithPhase(s: State, request: RequestId, phase: Phase): State
    requires request in s.requests
  {
    s.(requests := s.requests[request := s.requests[request].(phase := phase)])
  }

  function WithThread(s: State, thread: ThreadId, construction: Construction): State
    requires thread < |s.threads|
  {
    s.(threads := s.threads[thread := construction])
  }

  /** The first critical section of `_runtime_use`. */
  function EnterStep(s: State, request: RequestId, wake: bool): State {
    if request in s.requests || IsClosing(s) then s
    else if wake || (s.session.Some? && !Constructing(s) && s.notSuspending) then
      s.(users := s.users + 1, requests := s.requests[request := Request(Reserved, Waiting)])
    else s
  }

  /** The critical section in the loop of `_require_session`, behind its look at the closing
      flag, which `close` may raise right after. */
  function RequireStep(s: State, request: RequestId): State {
    if request !in s.requests || !s.requests[request].phase.Waiting? || !s.notSuspending then s
    else if s.session.Some? && !Constructing(s) then WithPhase(s, request, Holding(s.session.value))
    else if !Constructing(s) then
      var thread := |s.threads|;
      var started := s.(generation := s.generation + 1, sessionThread := Some(thread),
                        threads := s.threads + [Building(s.generation + 1)]);
      WithPhase(started, request, Joining(thread))
    else WithPhase(s, request, Joining(s.sessionThread.value))
  }

  /** Its last critical section, after the join or its deadline; here the suspension flag
      is not looked at again. */
  function TakeStep(s: State, request: RequestId): State {
    if request !in s.requests || !s.requests[request].phase.Joining? then s
    else if IsClosing(s) || Alive(s, s.requests[request].phase.thread) || s.session.None? then LeaveStep(s, request)
    else WithPhase(s, request, Holding(s.session.value))
  }

  /** A request is done, refused, cancelled or failed. */
  function LeaveStep(s: State, request: RequestId): State {
    if request !in s.requests then s
    else
      var gone := s.(requests := s.requests - {request});
      if s.requests[request].standing.Reserved? && s.users > 0 then gone.(users := s.users - 1) else gone
  }

  /** `_enqueue_task` */
  function EnqueueStep(s: State): State {
    if IsClosing(s) then s else s.(tasks := s.tasks + 1)
  }

  /** The worker takes the next task, which stays unfinished; it may have looked at the
      closing flag just before that was raised. */
  function StartTaskStep(s: State): State {
    if s.working || s.tasks == 0 then s else s.(working := true)
  }

  function Queued(s: State): int {
    s.tasks - if s.working then 1 else 0
  }

  /** `close` takes a task off the queue that was not started. */
  function DiscardTaskStep(s: State): State {
    if !IsClosing(s) || Queued(s) <= 0 then s else s.(tasks := s.tasks - 1)
  }

  /** The running task asks for the session. */
  function EnterTaskStep(s: State, request: RequestId): State {
    if request in s.requests || !s.working then s
    else s.(requests := s.requests[request := Request(InTask, Waiting)])
  }

  function WithoutTask(requests: map<RequestId, Request>): map<RequestId, Request> {
    map r | r in requests && !requests[r].standing.InTask? :: requests[r]
  }

  /** The running task ends, and with it what it did with the session. */
  function TaskDoneStep(s: State): State {
    if !s.working then s
    else s.(working := false, tasks := if s.tasks > 0 then s.tasks - 1 else 0, requests := WithoutTask(s.requests))
  }

  function InstallStep(s: State, thread: ThreadId): State {
    if thread >= |s.threads| || !s.threads[thread].Built? then s
    else
      var session := s.threads[thread].session;
      if s.threads[thread].generation == s.generation && !IsClosing(s) then
        WithThread(s, thread, Finishing(session)).(
          session := Some(session), installed := s.installed[session := s.generation])
      else WithThread(s, thread, Discarding(session))
  }

  function FinishStep(s: State, thread: ThreadId): State {
    if thread >= |s.threads| then s
    else match s.threads[thread]
      case Finishing(_) => WithThread(s, thread, Ended)
      case Discarding(session) => WithThread(s, thread, Ended).(discarded := s.discarded + {session})
      case _ => s
  }

  /** `suspend_if_idle` up to the release of the lock: no reservation and no unfinished task;
      other activity may keep it from starting, which is no step. */
  function BeginSuspendStep(s: State): State {
    if s.maintenance.Resting? && s.session.Some? && !Constructing(s) && s.users == 0 && s.tasks == 0 then
      s.(notSuspending := false, maintenance := Closing(s.session.value))
    else s
  }

  function CommitSuspendStep(s: State): State {
    if s.maintenance.Closed? then
      s.(generation := s.generation + 1, session := None, sessionThread := None, maintenance := Releasing)
    else s
  }

  /** What `close` closes: the session it saw when it bumped the generation, else the one
      that is there after the join. */
  function ToClose(captured: Option<Session>, session: Option<Session>): set<Session> {
    match if captured.Some? then captured else session
    case Some(x) => {x}
    case None => {}
  }

  function Next(s: State, op: Op): State {
    match op
    case Enter(request, wake) => EnterStep(s, request, wake)
    case Enqueue => EnqueueStep(s)
    case StartTask => StartTaskStep(s)
    case DiscardTask => DiscardTaskStep(s)
    case EnterTask(request) => EnterTaskStep(s, request)
    case TaskDone => TaskDoneStep(s)
    case EnterBare(request) =>
      if request in s.requests then s else s.(requests := s.requests[request := Request(Bare, Waiting)])
    case Require(request) => if IsClosing(s) then s else RequireStep(s, request)
    case RequireLate(request) => RequireStep(s, request)
    case Take(request) => TakeStep(s, request)
    case Leave(request) => LeaveStep(s, request)
    case Build(thread) =>
      if thread < |s.threads| && s.threads[thread].Building? then
        WithThread(s, thread, Built(s.threads[thread].generation, s.built)).(built := s.built + 1)
      else s
    case Fail(thread) =>
      if thread < |s.threads| && s.threads[thread].Building? then WithThread(s, thread, Ended) else s
    case Install(thread) => InstallStep(s, thread)
    case Finish(thread) => FinishStep(s, thread)
    case BeginSuspend => BeginSuspendStep(s)
    case CloseSession(ok) =>
      if !s.maintenance.Closing? then s
      else if ok then
        s.(maintenance := Closed(s.maintenance.session), suspended := s.suspended + {s.maintenance.session})
      else s.(maintenance := Releasing)
    case CommitSuspend => CommitSuspendStep(s)
    case EndSuspend =>
      if s.maintenance.Releasing? then s.(notSuspending := true, maintenance := Resting) else s
    case BeginShutdown => if s.shutdown == Open then s.(shutdown := Flagged) else s
    case BumpGeneration =>
      if s.shutdown == Flagged then s.(generation := s.generation + 1, shutdown := Bumped(s.session)) else s
    case FinishShutdown =>
      if s.shutdown.Bumped? && !Constructing(s) then
        s.(shutdown := Done, closed := s.closed + ToClose(s.shutdown.captured, s.session))
      else s
  }

  // ---------------------------------------------------------------------------------
  // What every step keeps
  // ---------------------------------------------------------------------------------

  function Reservations(requests: map<RequestId, Request>): set<RequestId> {
    set r | r in requests && requests[r].standing.Reserved?
  }

  /** The suspension flag is down exactly while the maintenance thread is at work, and then
      it works on the installed session. */
  predicate FlagOk(s: State) {
    && s.notSuspending == s.maintenance.Resting?
    && (s.maintenance.Closing? || s.maintenance.Closed? ==> s.session == Some(s.maintenance.session))
    && (s.maintenance.Closed? ==> s.maintenance.session in s.suspended)
  }

  /** At most one construction is alive: the one `_session_thread` names; none while the
      maintenance thread is at work. */
  predicate ThreadsOk(s: State) {
    && (forall t :: 0 <= t < |s.threads| && s.threads[t] != Ended ==> s.sessionThread == Some(t))
    && (s.sessionThread.Some? ==> s.sessionThread.value < |s.threads|)
    && (!s.maintenance.Resting? ==> !Constructing(s))
  }

  /** A construction of the current generation finds no session to overwrite; an installed
      session is the one that construction installed. */
  predicate GenerationsOk(s: State) {
    && (forall t :: 0 <= t < |s.threads| && (s.threads[t].Building? || s.threads[t].Built?) ==>
         s.session.None? && (s.threads[t].generation == s.generation || IsClosing(s)))
    && (forall t :: 0 <= t < |s.threads| && s.threads[t].Discarding? ==> IsClosing(s))
    && (s.session.Some? ==>
         && s.session.value in s.installed
         && (s.installed[s.session.value] == s.generation || IsClosing(s)))
  }

  /** Every session ever built is with its thread, or was installed, or was discarded, and
      only one of these; an installed one is current or was closed by a suspension. */
  predicate SessionsOk(s: State) {
    && (forall x :: x in s.installed ==> x < s.built && x !in s.discarded)
    && (forall x :: x in s.discarded ==> x < s.built)
    && (forall x :: 0 <= x < s.built ==> x in s.installed || x in s.discarded || StillWithThread(s, x))
    && (forall t :: 0 <= t < |s.threads| && (s.threads[t].Built? || s.threads[t].Discarding?) ==>
         s.threads[t].session < s.built && s.threads[t].session !in s.installed && s.threads[t].session !in s.discarded)
    && (forall x :: x in s.installed ==> s.session == Some(x) || x in s.suspended)
    && (forall x :: x in s.suspended ==> x in s.installed && (s.session != Some(x) || s.maintenance == Closed(x)))
  }

  predicate StillWithThread(s: State, x: Session) {
    exists t :: 0 <= t < |s.threads| && (s.threads[t].Built? || s.threads[t].Discarding?) && s.threads[t].session == x
  }

  /** A request of the running task has its task unfinished. */
  predicate TasksOk(s: State) {
    && (s.working ==> s.tasks > 0)
    && (forall r :: r in s.requests && s.requests[r].standing.InTask? ==> s.working)
  }

  /** A reserved or queued request that joins or holds keeps the suspension away, and what it
      holds is the installed session. */
  predicate RequestsOk(s: State) {
    && s.users == |Reservations(s.requests)| && TasksOk(s)
    && (forall r :: r in s.requests && !s.requests[r].standing.Bare? && !s.requests[r].phase.Waiting? ==> s.notSuspending)
    && (forall r :: r in s.requests && !s.requests[r].standing.Bare? && s.requests[r].phase.Holding? ==>
         s.session == Some(s.requests[r].phase.session))
  }

  predicate RuntimeOk(s: State) {
    FlagOk(s) && ThreadsOk(s) && GenerationsOk(s) && SessionsOk(s)
  }

  predicate Inv(s: State) {
    RuntimeOk(s) && RequestsOk(s)
  }

  lemma ReservedGrows(requests: map<RequestId, Request>, r: RequestId, request: Request)
    ensures r !in requests && request.standing.Reserved? ==>
              |Reservations(requests[r := request])| == |Reservations(requests)| + 1
    ensures r !in requests && !request.standing.Reserved? ==> Reservations(requests[r := request]) == Reservations(requests)
    ensures r in requests && requests[r].standing == request.standing ==>
              Reservations(requests[r := request]) == Reservations(requests)
  {
    if r !in requests && request.standing.Reserved? {
      assert Reservations(requests[r := request]) == Reservations(requests) + {r};
    }
  }

  lemma ReservedShrinks(requests: map<RequestId, Request>, r: RequestId)
    requires r in requests
    ensures |Reservations(requests - {r})| == |Reservations(requests)| - if requests[r].standing.Reserved? then 1 else 0
  {
    assert Reservations(requests - {r}) == Reservations(requests) - {r};
  }

  /** What only concerns requests and tasks leaves the rest alone. */
  lemma RuntimeSame(s: State, requests: map<RequestId, Request>, users: nat, tasks: nat, working: bool)
    requires RuntimeOk(s)
    ensures RuntimeOk(s.(requests := requests, users := users, tasks := tasks, working := working))
  {
    var t := s.(requests := requests, users := users, tasks := tasks, working := working);
    assert forall x :: StillWithThread(s, x) ==> StillWithThread(t, x);
  }

  lemma LeaveKeeps(s: State, request: RequestId)
    requires Inv(s)
    ensures Inv(LeaveStep(s, request))
  {
    if request in s.requests {
      var t := LeaveStep(s, request);
      ReservedShrinks(s.requests, request);
      RuntimeSame(s, t.requests, t.users, s.tasks, s.working);
      hide RuntimeOk;
      assert t == s.(requests := t.requests, users := t.users, tasks := s.tasks, working := s.working);
    }
  }

  lemma EnterKeeps(s: State, r: RequestId, request: Request)
    requires Inv(s) && r !in s.requests && request.phase.Waiting? && (request.standing.InTask? ==> s.working)
    ensures Inv(s.(requests := s.requests[r := request], users := s.users + if request.standing.Reserved? then 1 else 0))
  {
    var (requests, users) := (s.requests[r := request], s.users + if request.standing.Reserved? then 1 else 0);
    RuntimeSame(s, requests, users, s.tasks, s.working);
    ReservedGrows(s.requests, r, request);
    hide RuntimeOk;
    assert s.(requests := requests, users := users) ==
           s.(requests := requests, users := users, tasks := s.tasks, working := s.working);
  }

  lemma TaskKeeps(s: State, op: Op)
    requires Inv(s) && (op.Enqueue? || op.StartTask? || op.DiscardTask? || op.TaskDone?)
    ensures Inv(Next(s, op))
  {
    hide RuntimeOk;
    var t := Next(s, op);
    RuntimeSame(s, t.requests, t.users, t.tasks, t.working);
    assert t == s.(requests := t.requests, users := t.users, tasks := t.tasks, working := t.working);
    assert Reservations(t.requests) == Reservations(s.requests);
  }

  /** A request may take the installed session, or join, while no suspension is at work. */
  lemma PhaseKeeps(s: State, r: RequestId, phase: Phase)
    requires Inv(s) && r in s.requests && (s.requests[r].standing.Bare? || s.notSuspending)
    requires phase.Holding? ==> s.session == Some(phase.session)
    ensures Inv(WithPhase(s, r, phase))
  {
    var requests := s.requests[r := s.requests[r].(phase := phase)];
    RuntimeSame(s, requests, s.users, s.tasks, s.working);
    ReservedGrows(s.requests, r, requests[r]);
    hide RuntimeOk;
    assert WithPhase(s, r, phase) == s.(requests := requests, users := s.users, tasks := s.tasks, working := s.working);
  }

  lemma TakeKeeps(s: State, r: RequestId)
    requires Inv(s)
    ensures Inv(TakeStep(s, r))
  {
    LeaveKeeps(s, r);
    hide RuntimeOk;
    if r in s.requests && s.requests[r].phase.Joining? && s.session.Some? {
      PhaseKeeps(s, r, Holding(s.session.value));
    }
  }

  lemma StartKeeps(s: State)
    requires RuntimeOk(s) && s.session.None? && !Constructing(s) && s.notSuspending
    ensures RuntimeOk(s.(generation := s.generation + 1, sessionThread := Some(|s.threads|),
                        threads := s.threads + [Building(s.generation + 1)]))
  {
    var t := s.(generation := s.generation + 1, sessionThread := Some(|s.threads|),
                threads := s.threads + [Building(s.generation + 1)]);
    assert forall k :: 0 <= k < |s.threads| ==> s.threads[k] == Ended;
    assert forall k :: 0 <= k < |s.threads| ==> t.threads[k] == Ended;
  }

  lemma RequireKeeps(s: State, r: RequestId)
    requires Inv(s)
    ensures Inv(RequireStep(s, r))
  {
    if r in s.requests && s.requests[r].phase.Waiting? && s.notSuspending {
      if s.session.Some? && !Constructing(s) {
        PhaseKeeps(s, r, Holding(s.session.value));
      } else if !Constructing(s) {
        StartKeeps(s);
        hide RuntimeOk;
        var t := s.(generation := s.generation + 1, sessionThread := Some(|s.threads|),
                    threads := s.threads + [Building(s.generation + 1)]);
        assert RequestsOk(t);
        PhaseKeeps(t, r, Joining(|s.threads|));
      } else {
        PhaseKeeps(s, r, Joining(s.sessionThread.value));
      }
    }
  }

  lemma BuildKeeps(s: State, thread: ThreadId)
    requires Inv(s)
    ensures Inv(Next(s, Build(thread)))
  {
    if thread < |s.threads| && s.threads[thread].Building? {
      var t := Next(s, Build(thread));
      assert t.threads[thread].session == s.built && StillWithThread(t, s.built);
      ThreadMoves(s, t, thread);
    }
  }

  lemma FailKeeps(s: State, thread: ThreadId)
    requires Inv(s)
    ensures Inv(Next(s, Fail(thread)))
  {
    if thread < |s.threads| && s.threads[thread].Building? {
      ThreadMoves(s, Next(s, Fail(thread)), thread);
    }
  }

  /** A session stays with its thread when another thread moves. */
  lemma ThreadMoves(s: State, t: State, thread: ThreadId)
    requires thread < |s.threads| == |t.threads|
    requires forall k :: 0 <= k < |s.threads| && k != thread ==> t.threads[k] == s.threads[k]
    requires !s.threads[thread].Built? && !s.threads[thread].Discarding?
    ensures forall x :: StillWithThread(s, x) ==> StillWithThread(t, x)
  {
    forall x | StillWithThread(s, x) ensures StillWithThread(t, x) {
      var k :| 0 <= k < |s.threads| && (s.threads[k].Built? || s.threads[k].Discarding?) && s.threads[k].session == x;
      assert t.threads[k] == s.threads[k];
    }
  }

  lemma OneWithThread(s: State, thread: ThreadId)
    requires ThreadsOk(s) && Alive(s, thread)
    ensures forall x :: StillWithThread(s, x) ==>
              (s.threads[thread].Built? || s.threads[thread].Discarding?) && x == s.threads[thread].session
  {
  }

  lemma InvMade(s: State)
    requires FlagOk(s) && ThreadsOk(s) && GenerationsOk(s) && SessionsOk(s) && RequestsOk(s)
    ensures Inv(s)
  {
  }

  lemma InvParts(s: State)
    requires Inv(s)
    ensures FlagOk(s) && ThreadsOk(s) && GenerationsOk(s) && SessionsOk(s) && RequestsOk(s)
  {
  }

  lemma InstallSessions(s: State, thread: ThreadId)
    requires FlagOk(s) && ThreadsOk(s) && GenerationsOk(s) && SessionsOk(s)
    ensures SessionsOk(InstallStep(s, thread))
  {
    if thread < |s.threads| && s.threads[thread].Built? {
      OneWithThread(s, thread);
      var t := InstallStep(s, thread);
      if t.threads[thread].Discarding? {
        assert StillWithThread(t, s.threads[thread].session);
      }
    }
  }

  lemma InstallRuntime(s: State, thread: ThreadId)
    requires FlagOk(s) && ThreadsOk(s) && GenerationsOk(s)
    ensures var t := InstallStep(s, thread);
            FlagOk(t) && ThreadsOk(t) && GenerationsOk(t)
  {
  }

  lemma InstallRequests(s: State, thread: ThreadId)
    requires FlagOk(s) && ThreadsOk(s) && GenerationsOk(s) && RequestsOk(s)
    ensures RequestsOk(InstallStep(s, thread))
  {
  }

  lemma InstallKeeps(s: State, thread: ThreadId)
    requires Inv(s)
    ensures Inv(InstallStep(s, thread))
  {
    hide *;
    InvParts(s);
    InstallSessions(s, thread);
    InstallRuntime(s, thread);
    InstallRequests(s, thread);
    InvMade(InstallStep(s, thread));
  }

  lemma FinishSessions(s: State, thread: ThreadId)
    requires ThreadsOk(s) && SessionsOk(s)
    ensures SessionsOk(FinishStep(s, thread))
  {
    if thread < |s.threads| && (s.threads[thread].Finishing? || s.threads[thread].Discarding?) {
      OneWithThread(s, thread);
    }
  }

  lemma FinishRuntime(s: State, thread: ThreadId)
    requires FlagOk(s) && ThreadsOk(s) && GenerationsOk(s) && RequestsOk(s)
    ensures var t := FinishStep(s, thread);
            FlagOk(t) && ThreadsOk(t) && GenerationsOk(t) && RequestsOk(t)
  {
  }

  lemma FinishKeeps(s: State, thread: ThreadId)
    requires Inv(s)
    ensures Inv(FinishStep(s, thread))
  {
    hide *;
    InvParts(s);
    FinishSessions(s, thread);
    FinishRuntime(s, thread);
    InvMade(FinishStep(s, thread));
  }

  lemma BeginSuspendKeeps(s: State)
    requires Inv(s)
    ensures Inv(BeginSuspendStep(s))
  {
    var t := BeginSuspendStep(s);
    if t != s {
      assert t.threads == s.threads && forall x :: StillWithThread(s, x) ==> StillWithThread(t, x);
      assert Reservations(s.requests) == {};
      forall r | r in s.requests ensures s.requests[r].standing.Bare? {
        assert r !in Reservations(s.requests);
      }
    }
  }

  lemma CloseKeeps(s: State, ok: bool)
    requires Inv(s)
    ensures Inv(Next(s, CloseSession(ok)))
  {
    var t := Next(s, CloseSession(ok));
    assert t.threads == s.threads && forall x :: StillWithThread(s, x) ==> StillWithThread(t, x);
  }

  lemma CommitKeeps(s: State)
    requires Inv(s)
    ensures Inv(CommitSuspendStep(s))
  {
    var t := CommitSuspendStep(s);
    assert t.threads == s.threads && forall x :: StillWithThread(s, x) ==> StillWithThread(t, x);
  }

  lemma EndKeeps(s: State)
    requires Inv(s)
    ensures Inv(Next(s, EndSuspend))
  {
    var t := Next(s, EndSuspend);
    assert t.threads == s.threads && forall x :: StillWithThread(s, x) ==> StillWithThread(t, x);
  }

  /** Closing moves the generation and the shutdown, and no session. */
  lemma ShutdownSessions(s: State, generation: nat, shutdown: Shutdown, closed: set<Session>)
    requires SessionsOk(s)
    ensures SessionsOk(s.(generation := generation, shutdown := shutdown, closed := closed))
  {
    var t := s.(generation := generation, shutdown := shutdown, closed := closed);
    assert forall x :: StillWithThread(s, x) ==> StillWithThread(t, x);
  }

  lemma ShutdownRuntime(s: State, generation: nat, shutdown: Shutdown, closed: set<Session>)
    requires FlagOk(s) && ThreadsOk(s) && GenerationsOk(s) && RequestsOk(s) && shutdown != Open
    requires generation == s.generation || IsClosing(s)
    ensures var t := s.(generation := generation, shutdown := shutdown, closed := closed);
            FlagOk(t) && ThreadsOk(t) && GenerationsOk(t) && RequestsOk(t)
  {
  }

  lemma ShutdownKeeps(s: State, op: Op)
    requires Inv(s) && (op.BeginShutdown? || op.BumpGeneration? || op.FinishShutdown?)
    ensures Inv(Next(s, op))
  {
    var t := Next(s, op);
    hide SessionsOk, FlagOk, ThreadsOk, GenerationsOk, RequestsOk, Constructing;
    assert t == s || (t == s.(generation := t.generation, shutdown := t.shutdown, closed := t.closed) && t.shutdown != Open
                      && (t.generation == s.generation || IsClosing(s)));
    hide *;
    if t != s {
      InvParts(s);
      ShutdownSessions(s, t.generation, t.shutdown, t.closed);
      ShutdownRuntime(s, t.generation, t.shutdown, t.closed);
      InvMade(t);
    }
  }

  lemma NextKeeps(s: State, op: Op)
    requires Inv(s)
    ensures Inv(Next(s, op))
  {
    match op
    case Enter(r, _) => if r !in s.requests { EnterKeeps(s, r, Request(Reserved, Waiting)); }
    case EnterTask(r) => if r !in s.requests && s.working { EnterKeeps(s, r, Request(InTask, Waiting)); }
    case EnterBare(r) => if r !in s.requests { EnterKeeps(s, r, Request(Bare, Waiting)); }
    case Enqueue | StartTask | DiscardTask | TaskDone => TaskKeeps(s, op);
    case Require(r) => RequireKeeps(s, r);
    case RequireLate(r) => RequireKeeps(s, r);
    case Take(r) => TakeKeeps(s, r);
    case Leave(r) => LeaveKeeps(s, r);
    case Build(t) => BuildKeeps(s, t);
    case Fail(t) => FailKeeps(s, t);
    case Install(t) => InstallKeeps(s, t);
    case Finish(t) => FinishKeeps(s, t);
    case BeginShutdown | BumpGeneration | FinishShutdown => ShutdownKeeps(s, op);
    case BeginSuspend => BeginSuspendKeeps(s);
    case CloseSession(ok) => CloseKeeps(s, ok);
    case CommitSuspend => CommitKeeps(s);
    case EndSuspend => EndKeeps(s);
  }

  // ---------------------------------------------------------------------------------
  // Whole runs
  // ---------------------------------------------------------------------------------

  function Run(s: State, ops: seq<Op>): State
    decreases |ops|
  {
    if ops == [] then s else Run(Next(s, ops[0]), ops[1..])
  }

  lemma {:induction false} RunKeeps(s: State, ops: seq<Op>)
    requires Inv(s)
    ensures Inv(Run(s, ops))
    decreases |ops|
  {
    hide Inv;
    if ops != [] {
      NextKeeps(s, ops[0]);
      RunKeeps(Next(s, ops[0]), ops[1..]);
    }
  }

  /** In every run: two live constructions are the same one, none is alive while a session
      is being suspended, and no live construction can overwrite a session. */
  lemma ConstructionsExclusive(ops: seq<Op>, a: ThreadId, b: ThreadId)
    requires Alive(Run(Fresh(), ops), a) && Alive(Run(Fresh(), ops), b)
    ensures a == b && Run(Fresh(), ops).maintenance.Resting? && Run(Fresh(), ops).notSuspending
    ensures var c := Run(Fresh(), ops).threads[a];
            c.Building? || c.Built? ==> Run(Fresh(), ops).session.None?
  {
    RunKeeps(Fresh(), ops);
  }

  /** In every run, every built session has been installed, discarded or is still with its
      thread, and only one of these; only a bridge that is closing discards one; an
      installed session is the current one or was closed by a suspension. */
  lemma SessionsAccounted(ops: seq<Op>, x: Session)
    requires x < Run(Fresh(), ops).built
    ensures var s := Run(Fresh(), ops);
            && (x in s.installed || x in s.discarded || StillWithThread(s, x))
            && !(x in s.installed && x in s.discarded)
            && (StillWithThread(s, x) ==> x !in s.installed && x !in s.discarded)
            && (x in s.installed ==> s.session == Some(x) || x in s.suspended)
            && (s.session == Some(x) && !IsClosing(s) ==> x in s.installed && s.installed[x] == s.generation)
  {
    RunKeeps(Fresh(), ops);
  }

  // ---------------------------------------------------------------------------------
  // What the steps achieve
  // ---------------------------------------------------------------------------------

  /** A waking request of an open runtime that is not being suspended is reserved, and is
      given the installed session or joins a live construction. */
  lemma WakeIsHeard(s: State, r: RequestId)
    requires Inv(s) && !IsClosing(s) && s.notSuspending && r !in s.requests
    ensures
      var t := Next(Next(s, Enter(r, true)), Require(r));
      && r in t.requests && t.requests[r].standing == Reserved && t.users == s.users + 1
      && match t.requests[r].phase
         case Holding(x) => t.session == Some(x) && s.session == Some(x)
         case Joining(thread) => Alive(t, thread) && t.sessionThread == Some(thread)
         case Waiting => false
  {
  }

  /** A dormant runtime is woken: a new session is built and installed for the request. */
  lemma WakeCompletes(s: State, r: RequestId)
    requires Inv(s) && !IsClosing(s) && s.notSuspending && r !in s.requests && s.session.None? && !Constructing(s)
    ensures
      var thread := |s.threads|;
      var t := Run(s, [Enter(r, true), Require(r), Build(thread), Install(thread), Finish(thread), Take(r)]);
      && r in t.requests && t.requests[r] == Request(Reserved, Holding(s.built)) && t.session == Some(s.built)
      && s.built in t.installed && !Constructing(t)
  {
    var thread := |s.threads|;
    WakeBuilds(s, r);
    var built := Next(Next(Next(s, Enter(r, true)), Require(r)), Build(thread));
    WakeInstalls(built, r, thread, s.built);
    hide Next, Run, Constructing;
    RunSix(s, Enter(r, true), Require(r), Build(thread), Install(thread), Finish(thread), Take(r));
  }

  lemma WakeBuilds(s: State, r: RequestId)
    requires !IsClosing(s) && s.notSuspending && r !in s.requests && s.session.None? && !Constructing(s)
    ensures
      var t := Next(Next(Next(s, Enter(r, true)), Require(r)), Build(|s.threads|));
      && !IsClosing(t) && |s.threads| < |t.threads| && t.threads[|s.threads|] == Built(t.generation, s.built)
      && t.sessionThread == Some(|s.threads|) && r in t.requests && t.requests[r] == Request(Reserved, Joining(|s.threads|))
  {
    var waiting := Next(s, Enter(r, true));
    var joining := Next(waiting, Require(r));
    assert waiting.requests[r] == Request(Reserved, Waiting);
    assert joining.threads == s.threads + [Building(s.generation + 1)];
    assert joining.threads[|s.threads|] == Building(s.generation + 1);
  }

  lemma WakeInstalls(s: State, r: RequestId, thread: ThreadId, x: Session)
    requires !IsClosing(s) && thread < |s.threads| && s.threads[thread] == Built(s.generation, x) && s.sessionThread == Some(thread)
    requires r in s.requests && s.requests[r] == Request(Reserved, Joining(thread))
    ensures
      var t := Next(Next(Next(s, Install(thread)), Finish(thread)), Take(r));
      && r in t.requests && t.requests[r] == Request(Reserved, Holding(x)) && t.session == Some(x)
      && x in t.installed && !Constructing(t)
  {
    var installed := Next(s, Install(thread));
    assert installed.threads[thread] == Finishing(x) && installed.session == Some(x);
    var finished := Next(installed, Finish(thread));
    assert finished.threads[thread] == Ended;
  }

  /** An idle runtime is suspended: its session is closed and gone, and requests go on. */
  lemma SuspensionCompletes(s: State)
    requires Inv(s) && s.session.Some? && s.maintenance.Resting? && !Constructing(s) && s.users == 0 && s.tasks == 0
    ensures
      var t := Next(Next(Next(Next(s, BeginSuspend), CloseSession(true)), CommitSuspend), EndSuspend);
      && t.session == None && s.session.value in t.suspended && t.notSuspending && t.maintenance.Resting?
      && t.generation == s.generation + 1 && t.requests == s.requests
  {
  }

  /** When closing it fails, the session stays, and requests go on as well. */
  lemma SuspensionFails(s: State)
    requires Inv(s) && s.session.Some? && s.maintenance.Resting? && !Constructing(s) && s.users == 0 && s.tasks == 0
    ensures Next(Next(Next(s, BeginSuspend), CloseSession(false)), EndSuspend) == s
  {
  }

  lemma RunSix(s: State, a: Op, b: Op, c: Op, d: Op, e: Op, f: Op)
    ensures Run(s, [a, b, c, d, e, f]) == Next(Next(Next(Next(Next(Next(s, a), b), c), d), e), f)
  {
    hide Next;
    assert [a, b, c, d, e, f] == [a, b, c, d, e] + [f];
    RunAppend(s, [a, b, c, d, e], [f]);
    RunFive(s, a, b, c, d, e);
    var t := Run(s, [a, b, c, d, e]);
    assert [f][1..] == [];
    assert Run(t, [f]) == Run(Next(t, f), []);
  }

  /** After the generation was bumped, an installed session is the one `close` saw then;
      after it is done, it is closed. */
  predicate ShutdownOk(s: State) {
    && (s.shutdown.Bumped? && s.session.Some? ==> s.shutdown.captured == s.session)
    && (s.shutdown.Done? && s.session.Some? ==> s.session.value in s.closed)
  }

  lemma ShutdownStep(s: State, op: Op)
    requires ShutdownOk(s)
    ensures ShutdownOk(Next(s, op))
  {
  }

  lemma {:induction false} ShutdownRun(s: State, ops: seq<Op>)
    requires ShutdownOk(s)
    ensures ShutdownOk(Run(s, ops))
    decreases |ops|
  {
    hide Next, ShutdownOk;
    if ops != [] {
      ShutdownStep(s, ops[0]);
      ShutdownRun(Next(s, ops[0]), ops[1..]);
    }
  }

  /** In every run: when `close` has come to its end, every session ever built was closed, by
      `close` itself, by a suspension, or by its construction thread, which may still have to
      do so. */
  lemma ShutdownClosesAll(ops: seq<Op>, x: Session)
    requires Run(Fresh(), ops).shutdown.Done? && x < Run(Fresh(), ops).built
    ensures var s := Run(Fresh(), ops);
            x in s.closed || x in s.suspended || x in s.discarded || StillWithThread(s, x)
  {
    RunKeeps(Fresh(), ops);
    ShutdownRun(Fresh(), ops);
  }

  /** A closing bridge installs nothing: what a thread still has then, it closes. */
  lemma ClosingDiscards(s: State, thread: ThreadId)
    requires thread < |s.threads| && IsClosing(s)
    requires s.threads[thread].Built? || s.threads[thread].Discarding?
    ensures var t := Next(Next(s, Install(thread)), Finish(thread));
            t.threads[thread].Ended? && s.threads[thread].session in t.discarded
            && t.session == s.session && t.installed == s.installed
  {
  }

  /** A request that entered through `_runtime_use`, or from a worker task, and was given a
      session. */
  predicate Uses(s: State, r: RequestId, x: Session) {
    r in s.requests && !s.requests[r].standing.Bare? && s.requests[r].phase == Holding(x)
  }

  /** In every run: while a reserved request or a worker task holds a session, that session
      is the installed one, it has not been suspended, and no suspension is at work. */
  lemma SuspensionSafe(ops: seq<Op>, r: RequestId, x: Session)
    requires Uses(Run(Fresh(), ops), r, x)
    ensures var s := Run(Fresh(), ops);
            s.session == Some(x) && x !in s.suspended && s.maintenance.Resting?
  {
    RunKeeps(Fresh(), ops);
  }

  /** What ends the use of a session: the request leaves, or the task it belongs to is done. */
  predicate Releases(s: State, r: RequestId, op: Op) {
    op == Leave(r) || (op == TaskDone && r in s.requests && s.requests[r].standing.InTask?)
  }

  /** And it stays so, whatever happens, until the request leaves or its task is done. */
  lemma {:induction false} HeldUntilReleased(s: State, ops: seq<Op>, r: RequestId, x: Session)
    requires Inv(s) && Uses(s, r, x) && forall op :: op in ops ==> !Releases(s, r, op)
    ensures Uses(Run(s, ops), r, x) && x !in Run(s, ops).suspended && Run(s, ops).session == Some(x)
    decreases |ops|
  {
    if ops != [] {
      var t := Next(s, ops[0]);
      assert ops[0] in ops;
      StillUses(s, ops[0], r, x);
      NextKeeps(s, ops[0]);
      hide Inv, Next;
      assert forall op :: op in ops[1..] ==> op in ops;
      HeldUntilReleased(t, ops[1..], r, x);
    }
  }

  lemma StillUses(s: State, op: Op, r: RequestId, x: Session)
    requires Uses(s, r, x) && !Releases(s, r, op)
    ensures Uses(Next(s, op), r, x) && Next(s, op).requests[r].standing == s.requests[r].standing
  {
  }

  predicate HoldsDuringSuspension(s: State, r: RequestId) {
    r in s.requests && s.requests[r].phase.Holding? && !s.maintenance.Resting?
  }

  /** A session is handed out by the last critical section although a suspension has begun
      exactly when the request is neither reserved nor part of a worker task. */
  lemma TakenDuringSuspension(s: State, r: RequestId)
    requires Inv(s) && r in s.requests && s.requests[r].phase.Joining? && s.requests[r].phase.thread < |s.threads|
    ensures HoldsDuringSuspension(TakeStep(s, r), r)
       <==> s.requests[r].standing.Bare? && !s.maintenance.Resting? && s.session.Some? && !IsClosing(s)
  {
    assert !s.maintenance.Resting? ==> !Alive(s, s.requests[r].phase.thread);
  }

  /** A bare call joins a construction, which ends. */
  const BARE_START := [EnterBare(0), Require(0), Build(0), Install(0), Finish(0)]

  function Joined(): State {
    State(1, Some(0), Some(0), [Ended], 0, 0, false, true, Resting, Open,
          map[0 := Request(Bare, Joining(0))], 1, map[0 := 1], {}, {}, {})
  }

  lemma JoinedIsReached()
    ensures Run(Fresh(), BARE_START) == Joined()
  {
    var bare := map[0 := Request(Bare, Joining(0))];
    var s1 := Next(Fresh(), EnterBare(0));
    var s2 := State(1, None, Some(0), [Building(1)], 0, 0, false, true, Resting, Open, bare, 0, map[], {}, {}, {});
    assert s1.requests[0] == Request(Bare, Waiting);
    assert s2 == Next(s1, Require(0));
    var s3 := Next(s2, Build(0));
    assert s3.threads == [Built(1, 0)] && s3.requests == bare;
    var s4 := Next(s3, Install(0));
    assert s4.threads == [Finishing(0)];
    assert Next(s4, Finish(0)) == Joined();
    RunFive(Fresh(), EnterBare(0), Require(0), Build(0), Install(0), Finish(0));
  }

  /** From the start: the runtime is idle long enough to be suspended before a bare call looks
      again, and the call is given the session that is just being closed. */
  lemma BareCallMayTakeClosing()
    ensures HoldsDuringSuspension(Run(Fresh(), BARE_START + [BeginSuspend, Take(0)]), 0)
  {
    JoinedIsReached();
    RunAppend(Fresh(), BARE_START, [BeginSuspend, Take(0)]);
    hide Run;
    RunTwo(Joined(), BeginSuspend, Take(0));
    assert !Constructing(Joined());
    assert BeginSuspendStep(Joined()).maintenance == Closing(0);
  }

  lemma {:induction false} RunAppend(s: State, ops: seq<Op>, more: seq<Op>)
    ensures Run(s, ops + more) == Run(Run(s, ops), more)
    decreases |ops|
  {
    hide Next;
    if ops == [] {
      assert ops + more == more;
    } else {
      assert (ops + more)[0] == ops[0] && (ops + more)[1..] == ops[1..] + more;
      RunAppend(Next(s, ops[0]), ops[1..], more);
    }
  }

  lemma RunFive(s: State, a: Op, b: Op, c: Op, d: Op, e: Op)
    ensures Run(s, [a, b, c, d, e]) == Next(Next(Next(Next(Next(s, a), b), c), d), e)
  {
    hide Next;
    assert [a, b, c, d, e][1..] == [b, c, d, e] && [b, c, d, e][1..] == [c, d, e];
    assert [c, d, e][1..] == [d, e] && [d, e][1..] == [e];
    assert Run(s, [a, b, c, d, e]) == Run(Next(s, a), [b, c, d, e]);
    assert Run(Next(s, a), [b, c, d, e]) == Run(Next(Next(s, a), b), [c, d, e]);
    assert Run(Next(Next(s, a), b), [c, d, e]) == Run(Next(Next(Next(s, a), b), c), [d, e]);
    RunTwo(Next(Next(Next(s, a), b), c), d, e);
  }

  lemma RunTwo(s: State, d: Op, e: Op)
    ensures Run(s, [d, e]) == Next(Next(s, d), e)
  {
    hide Next;
    assert [d, e][1..] == [e] && [e][1..] == [];
    assert Run(Next(s, d), [e]) == Run(Next(Next(s, d), e), []);
  }

  lemma CommitThenEnd(s: State)
    requires s.maintenance.Closed?
    ensures Next(Next(s, CommitSuspend), EndSuspend) ==
            s.(generation := s.generation + 1, session := None, sessionThread := None,
               notSuspending := true, maintenance := Resting)
  {
  }

  // ---------------------------------------------------------------------------------
  // The critical sections
  // ---------------------------------------------------------------------------------

  /** The fields the locks protect.  `threads`, `requests`, `maintenance` and `shutdown` stand
      for where each thread of control is. */
  class Runtime {
    var generation: nat
    var session: Option<Session>
    var sessionThread: Option<ThreadId>
    var threads: seq<Construction>
    var users: nat
    /** `_tasks.unfinished_tasks` */
    var tasks: nat
    var working: bool
    var notSuspending: bool
    var maintenance: Maintenance
    var shutdown: Shutdown
    var requests: map<RequestId, Request>
    var built: nat
    var installed: map<Session, nat>
    var suspended: set<Session>
    var discarded: set<Session>
    var closed: set<Session>

    constructor ()
      ensures Now() == Fresh()
    {
      generation, session, sessionThread, threads, users := 0, None, None, [], 0;
      tasks, working := 0, false;
      notSuspending, maintenance, shutdown, requests := true, Resting, Open, map[];
      built, installed, suspended, discarded, closed := 0, map[], {}, {}, {};
    }

    function Now(): State
      reads this
    {
      State(generation, session, sessionThread, threads, users, tasks, working, notSuspending, maintenance, shutdown,
            requests, built, installed, suspended, discarded, closed)
    }

    predicate ConstructionAlive()
      reads this
    {
      sessionThread.Some? && sessionThread.value < |threads| && threads[sessionThread.value] != Ended
    }

    /** `_runtime_use`, first section. */
    method EnterRuntimeUse(r: RequestId, wake: bool) returns (reserved: bool)
      requires r !in requests
      modifies this`users, this`requests
      ensures Now() == Next(old(Now()), Enter(r, wake)) && reserved == (r in requests)
      ensures reserved <==> shutdown == Open && (wake || (session.Some? && !ConstructionAlive() && notSuspending))
      ensures users == old(users) + (if reserved then 1 else 0)
      ensures requests == if reserved then old(requests)[r := Request(Reserved, Waiting)] else old(requests)
    {
      reserved := false;
      if shutdown != Open {
        return;
      }
      if wake || (session.Some? && !ConstructionAlive() && notSuspending) {
        users := users + 1;
        requests := requests[r := Request(Reserved, Waiting)];
        reserved := true;
      }
    }

    /** `_start_session_construction` */
    method StartConstruction() returns (thread: ThreadId)
      modifies this`generation, this`threads, this`sessionThread
      ensures thread == |old(threads)| && sessionThread == Some(thread)
      ensures generation == old(generation) + 1 && threads == old(threads) + [Building(generation)]
    {
      generation := generation + 1;
      thread := |threads|;
      threads := threads + [Building(generation)];
      sessionThread := Some(thread);
    }

    /** `_require_session`, the section in its loop. */
    method RequireSession(r: RequestId)
      requires r in requests && requests[r].phase == Waiting
      modifies this
      ensures Now() == Next(old(Now()), Require(r))
      ensures (requests[r].phase == Waiting <==> !notSuspending || shutdown != Open) && session == old(session)
      ensures requests == old(requests)[r := requests[r]] && requests[r].standing == old(requests)[r].standing
      ensures requests[r].phase.Holding? ==> session == Some(requests[r].phase.session) && !old(ConstructionAlive()) && threads == old(threads)
      ensures requests[r].phase.Joining? ==>
                if old(ConstructionAlive()) then threads == old(threads) && Some(requests[r].phase.thread) == sessionThread == old(sessionThread)
                else old(session).None? && threads == old(threads) + [Building(generation)] && generation == old(generation) + 1
                     && requests[r].phase.thread == |old(threads)|
    {
      if !notSuspending || shutdown != Open {
        return;
      }
      if session.Some? && !ConstructionAlive() {
        requests := requests[r := requests[r].(phase := Holding(session.value))];
        return;
      }
      if !ConstructionAlive() {
        var _ := StartConstruction();
      }
      requests := requests[r := requests[r].(phase := Joining(sessionThread.value))];
    }

    /** `_require_session`, its last section, for a request that has joined: after the join,
        or after its deadline, the session that is there is handed out, else it raises. */
    method TakeSession(r: RequestId) returns (given: Option<Session>)
      requires r in requests && requests[r].phase.Joining? && (requests[r].standing.Reserved? ==> users > 0)
      modifies this`users, this`requests
      ensures Now() == Next(old(Now()), Take(r))
      ensures given == if shutdown == Open && !LiveThread(old(requests)[r].phase.thread) then session else None
      ensures given.Some? ==> r in requests && requests[r] == old(requests)[r].(phase := Holding(given.value))
      ensures given.None? ==> r !in requests
    {
      given := None;
      if shutdown == Open && !LiveThread(requests[r].phase.thread) && session.Some? {
        given := session;
        requests := requests[r := requests[r].(phase := Holding(session.value))];
      } else {
        LeaveRuntimeUse(r);
      }
    }

    predicate LiveThread(thread: ThreadId)
      reads this
    {
      thread < |threads| && threads[thread] != Ended
    }

    /** The end of `_runtime_use`. */
    method LeaveRuntimeUse(r: RequestId)
      requires r in requests && (requests[r].standing.Reserved? ==> users > 0)
      modifies this`users, this`requests
      ensures Now() == Next(old(Now()), Leave(r))
      ensures requests == old(requests) - {r}
      ensures users == if old(requests)[r].standing.Reserved? then old(users) - 1 else old(users)
    {
      if requests[r].standing.Reserved? {
        users := users - 1;
      }
      requests := requests - {r};
    }

    /** `_enqueue_task` */
    method EnqueueTask() returns (queued: bool)
      modifies this`tasks
      ensures Now() == Next(old(Now()), Enqueue) && queued == (shutdown == Open)
      ensures tasks == old(tasks) + if queued then 1 else 0
    {
      queued := shutdown == Open;
      if queued {
        tasks := tasks + 1;
      }
    }

    /** `_worker_loop`: taking the next task. */
    method TakeTask() returns (taken: bool)
      modifies this`working
      ensures Now() == Next(old(Now()), StartTask) && working == (old(working) || tasks > 0)
      ensures taken <==> working && !old(working)
    {
      taken := !working && tasks > 0;
      if taken {
        working := true;
      }
    }

    /** `_discard_queued_tasks`: one task less in the queue, or none was left. */
    method DiscardTask() returns (found: bool)
      requires shutdown != Open
      modifies this`tasks
      ensures Now() == Next(old(Now()), Op.DiscardTask) && tasks == old(tasks) - if found then 1 else 0
      ensures found <==> old(tasks) > if working then 1 else 0
    {
      found := tasks > if working then 1 else 0;
      if found {
        tasks := tasks - 1;
      }
    }

    /** `_worker_loop`: `task_done`, after the task has returned or raised. */
    method FinishTask()
      requires working && tasks > 0
      modifies this`tasks, this`working, this`requests
      ensures Now() == Next(old(Now()), TaskDone) && !working && tasks == old(tasks) - 1
      ensures forall r :: r in requests <==> r in old(requests) && !old(requests)[r].standing.InTask?
      ensures forall r :: r in requests ==> requests[r] == old(requests)[r]
    {
      working := false;
      tasks := tasks - 1;
      requests := WithoutTask(requests);
    }

    /** `_construct_session`, the section that installs. */
    method InstallSession(thread: ThreadId) returns (stale: bool)
      requires thread < |threads| && threads[thread].Built?
      modifies this`session, this`threads, this`installed
      ensures Now() == Next(old(Now()), Install(thread)) && stale == threads[thread].Discarding?
      ensures stale <==> old(threads)[thread].generation != generation || shutdown != Open
      ensures !stale ==> session == Some(old(threads)[thread].session) && threads[thread] == Finishing(old(threads)[thread].session)
      ensures stale ==> session == old(session) && threads[thread] == Discarding(old(threads)[thread].session)
    {
      var made := threads[thread].session;
      stale := threads[thread].generation != generation || shutdown != Open;
      if stale {
        threads := threads[thread := Discarding(made)];
      } else {
        session := Some(made);
        installed := installed[made := generation];
        threads := threads[thread := Finishing(made)];
      }
    }

    /** `close` raises the flag; from then on nothing is enqueued, woken or installed. */
    method RaiseClosing()
      modifies this`shutdown
      ensures Now() == Next(old(Now()), BeginShutdown)
      ensures shutdown == if old(shutdown) == Open then Flagged else old(shutdown)
    {
      if shutdown == Open {
        shutdown := Flagged;
      }
    }

    /** `close`, under the session lock. */
    method CaptureSession()
      requires shutdown == Flagged
      modifies this`generation, this`shutdown
      ensures Now() == Next(old(Now()), Op.BumpGeneration)
      ensures generation == old(generation) + 1 && shutdown == Bumped(session)
    {
      generation := generation + 1;
      shutdown := Bumped(session);
    }

    /** `close` after the join: refused while a construction is alive, else the session goes. */
    method CloseCaptured() returns (done: bool)
      requires shutdown.Bumped?
      modifies this`shutdown, this`closed
      ensures Now() == Next(old(Now()), Op.FinishShutdown) && done == shutdown.Done?
      ensures done <==> !ConstructionAlive()
      ensures !done ==> shutdown == old(shutdown) && closed == old(closed)
      ensures done && old(shutdown).captured.Some? ==> closed == old(closed) + {old(shutdown).captured.value}
      ensures done && old(shutdown).captured.None? && session.Some? ==> closed == old(closed) + {session.value}
    {
      done := !ConstructionAlive();
      if done {
        var last := if shutdown.captured.Some? then shutdown.captured else session;
        if last.Some? {
          closed := closed + {last.value};
        }
        shutdown := Done;
      }
    }

    /** `suspend_if_idle`, first section. */
    method StartSuspension(idle: bool) returns (begun: bool)
      modifies this`notSuspending, this`maintenance
      ensures Now() == if idle then Next(old(Now()), BeginSuspend) else old(Now())
      ensures begun <==> idle && old(maintenance).Resting? && session.Some? && !ConstructionAlive() && users == 0 && tasks == 0
      ensures begun ==> maintenance == Closing(session.value) && !notSuspending
      ensures !begun ==> maintenance == old(maintenance) && notSuspending == old(notSuspending)
    {
      begun := idle && maintenance.Resting? && session.Some? && !ConstructionAlive() && users == 0 && tasks == 0;
      if begun {
        notSuspending := false;
        maintenance := Closing(session.value);
      }
    }

    /** `suspend_if_idle`, last section, after the session closed. */
    method FinishSuspension()
      requires maintenance.Closed?
      modifies this
      ensures Now() == Next(Next(old(Now()), CommitSuspend), EndSuspend)
      ensures session == None && sessionThread == None && generation == old(generation) + 1 && notSuspending && maintenance.Resting?
      ensures requests == old(requests) && users == old(users) && tasks == old(tasks) && suspended == old(suspended)
    {
      CommitThenEnd(Now());
      hide Next;
      generation := generation + 1;
      session, sessionThread := None, None;
      notSuspending := true;
      maintenance := Resting;
    }
  }
}
