/**
 The worker's lifecycle, poll chain, job settlement and shutdown (src/worker.ts), for one run from start to
 stop.

 Each step is the code between two awaits. The server, the handlers, the timers and the order of steps are
 the environment: `Event` says what happens next, `Enabled` what the environment may do. The class holds the
 source's fields, and in `chain`, `books` and `halt` the JavaScript runtime's side: what is armed, in flight or
 suspended.
 */
module Worker {
  import opened Prelude

  datatype Lifecycle = Running | Quiet | Terminate | Terminated

  type Id = string

  // ---- Jobs ----

  datatype Request = Ack(ok: bool) | Nack(ok: bool)

  /** Where the continuation of a delivered job stands; `failed` counts the tries of its current request. */
  datatype Stage =
    | Executing
    | Acking(failed: nat)
    | Nacking(failed: nat, registered: bool)
    | Settled(registered: bool)

  predicate HasHandler(stage: Stage) {
    match stage
    case Executing => true
    case Acking(_) => true
    case Nacking(_, registered) => registered
    case Settled(registered) => registered
  }

  predicate AwaitsReply(stage: Stage) {
    stage.Acking? || stage.Nacking?
  }

  datatype Job = Job(stage: Stage, requests: seq<Request>)

  const MAX_TRIES := 3

  datatype Delivery = Delivery(id: Id, registered: bool)

  // ---- State ----

  datatype Fetch = InFlight(count: nat) | Returned(jobs: nat) | Failed

  datatype StopState = NotStopped | Waiting | Woken | Stopped

  /** The poll loop: `delay` is what the poll timer was last armed with, `failures` the number of fetches that
      failed since the last one that did not, and `lateStart` whether the start went on after a stop. */
  datatype Chain = Chain(
    started: bool,
    starting: bool,
    lateStart: bool,
    armed: set<nat>,
    nextTimer: nat,
    delay: nat,
    fetches: seq<Fetch>,
    failures: nat)

  /** The jobs being processed, and what became of all others. */
  datatype Books = Books(
    jobs: map<Id, Job>,
    finished: seq<seq<Request>>,
    delivered: nat,
    acked: nat,
    nacked: nat,
    abandoned: nat)

  datatype Halt = Halt(graceArmed: bool, stop: StopState)

  /** `active` maps the ids in activeJobs to whether their controller has been aborted. */
  datatype State = State(
    state: Lifecycle,
    active: map<Id, bool>,
    pollTimer: Option<nat>,
    jobsCompleted: nat,
    pollErrors: nat,
    shutdownResolve: bool,
    graceTimer: bool,
    heartbeatTimer: bool,
    signalHandler: bool,
    chain: Chain,
    books: Books,
    halt: Halt)

  datatype Config = Config(concurrency: int, pollInterval: nat, handleSignals: bool)

  const FRESH := State(Terminated, map[], None, 0, 0, false, false, false, false,
                       Chain(false, false, false, {}, 0, 0, [], 0), Books(map[], [], 0, 0, 0, 0),
                       Halt(false, NotStopped))

  const MAX_FETCH := 10
  const MAX_BACKOFF_MS := 30000

  // ---- What each segment of code does ----

  function Begin(s: State): State {
    s.(state := Running, jobsCompleted := 0, pollErrors := 0,
       chain := s.chain.(started := true, starting := true))
  }

  function Arm(s: State, delay: nat): State {
    s.(pollTimer := Some(s.chain.nextTimer),
       chain := s.chain.(armed := s.chain.armed + {s.chain.nextTimer}, nextTimer := s.chain.nextTimer + 1,
                         delay := delay))
  }

  function ClearPoll(s: State): State {
    if s.pollTimer.None? then s
    else s.(pollTimer := None, chain := s.chain.(armed := s.chain.armed - {s.pollTimer.value}))
  }

  function Poll(c: Config, s: State): State {
    if s.state != Running then s
    else if |s.active| >= c.concurrency then Arm(s, c.pollInterval)
    else s.(chain := s.chain.(fetches := s.chain.fetches + [InFlight(Min(c.concurrency - |s.active|, MAX_FETCH))]))
  }

  /** `start` after its first wait: heartbeats, signal handlers, the first poll. */
  function StartOn(c: Config, s: State): State {
    Poll(c, Begun(c, s))
  }

  function Begun(c: Config, s: State): State {
    s.(heartbeatTimer := true, signalHandler := s.signalHandler || c.handleSignals,
       chain := s.chain.(starting := false, lateStart := s.state == Terminate || s.state == Terminated))
  }

  function Ids(ds: seq<Delivery>): set<Id> {
    if ds == [] then {} else Ids(Front(ds)) + {Last(ds).id}
  }

  /** Distinct ids, none of them being processed. */
  predicate NewIds(known: set<Id>, ds: seq<Delivery>) {
    ds == [] || (NewIds(known, Front(ds)) && Last(ds).id !in known + Ids(Front(ds)))
  }

  function NewJob(d: Delivery): Job {
    Job(if d.registered then Executing else Nacking(0, false), [])
  }

  function With<T>(m: map<Id, T>, ds: seq<Delivery>, value: Delivery -> T): map<Id, T> {
    if ds == [] then m else With(m, Front(ds), value)[Last(ds).id := value(Last(ds))]
  }

  function ProcessJobs(s: State, ds: seq<Delivery>): State {
    s.(active := With(s.active, ds, d => false),
       books := s.books.(jobs := With(s.books.jobs, ds, NewJob), delivered := s.books.delivered + |ds|))
  }

  function OnFetched(c: Config, s: State, n: nat): State {
    if s.state != Running then s
    else Arm(s.(pollErrors := 0), if n > 0 then 0 else c.pollInterval)
  }

  function OnFetchError(c: Config, s: State): State {
    if s.state != Running then s
    else Arm(s.(pollErrors := s.pollErrors + 1), Min(c.pollInterval * Pow2(s.pollErrors + 1), MAX_BACKOFF_MS))
  }

  function AbortAll(active: map<Id, bool>): map<Id, bool> {
    map id | id in active :: true
  }

  function FinishStop(s: State): State {
    s.(graceTimer := false, active := AbortAll(s.active), state := Terminated,
       halt := s.halt.(graceArmed := s.halt.graceArmed && !s.graceTimer, stop := Stopped))
  }

  function Stopping(s: State): State {
    s.(state := Terminate, heartbeatTimer := false, signalHandler := false)
  }

  function Stop(s: State): State {
    if s.state == Terminated then s else
      var t := ClearPoll(Stopping(s));
      if |t.active| > 0 then
        t.(shutdownResolve := true, graceTimer := true, halt := t.halt.(graceArmed := true, stop := Waiting))
      else FinishStop(t)
  }

  function OnHeartbeat(s: State, directive: Option<Lifecycle>): State {
    if directive == Some(Quiet) && s.state == Running then ClearPoll(s.(state := Quiet))
    else if directive == Some(Terminate) && s.state != Terminate then Stop(s)
    else s
  }

  function ResolveShutdownIfIdle(s: State): (t: State)
    ensures t.state == s.state && t.active == s.active && t.chain == s.chain && t.books == s.books
  {
    if |s.active| == 0 && s.shutdownResolve && (s.state == Terminate || s.state == Quiet) then
      s.(graceTimer := false, shutdownResolve := false,
         halt := s.halt.(graceArmed := s.halt.graceArmed && !s.graceTimer,
                         stop := if s.halt.stop == Waiting then Woken else s.halt.stop))
    else s
  }

  /** The `finally` of a job: only a job with a handler looks for a waiting stop. */
  function Finally(s: State, id: Id, job: Job): (t: State)
    requires job.stage.Settled?
    ensures t.state == s.state && t.active == s.active - {id} && t.chain == s.chain
    ensures t.books.jobs == s.books.jobs - {id}
  {
    var t := s.(active := s.active - {id},
                books := s.books.(jobs := s.books.jobs - {id}, finished := s.books.finished + [job.requests]));
    if job.stage.registered then ResolveShutdownIfIdle(t) else t
  }

  function SetJob(s: State, id: Id, job: Job): State {
    s.(books := s.books.(jobs := s.books.jobs[id := job]))
  }

  /** The reply to one try of an ack or nack request, in `requestWithRetry`; a given-up ack turns into a nack. */
  function AfterReply(job: Job, ok: bool): Job
    requires AwaitsReply(job.stage)
  {
    var failed := job.stage.failed + 1;
    match job.stage
    case Acking(_) =>
      Job(if ok then Settled(true) else if failed == MAX_TRIES then Nacking(0, true) else Acking(failed),
          job.requests + [Ack(ok)])
    case Nacking(_, r) =>
      Job(if ok || failed == MAX_TRIES then Settled(r) else Nacking(failed, r), job.requests + [Nack(ok)])
  }

  function OnReply(s: State, id: Id, job: Job, ok: bool): State
    requires AwaitsReply(job.stage)
  {
    var after := AfterReply(job, ok);
    var t := SetJob(s, id, after);
    if !after.stage.Settled? then t
    else if job.stage.Acking? then
      t.(jobsCompleted := s.jobsCompleted + 1, books := t.books.(acked := s.books.acked + 1))
    else if ok then t.(books := t.books.(nacked := s.books.nacked + 1))
    else t.(books := t.books.(abandoned := s.books.abandoned + 1))
  }

  function RemoveAt<T>(xs: seq<T>, i: nat): seq<T>
    requires i < |xs|
  {
    xs[..i] + xs[i + 1..]
  }

  lemma {:induction false} WithAt<T>(m: map<Id, T>, ds: seq<Delivery>, value: Delivery -> T)
    requires NewIds(m.Keys, ds)
    ensures forall d <- ds :: d.id in With(m, ds, value) && With(m, ds, value)[d.id] == value(d)
    ensures forall id <- m :: id in With(m, ds, value) && With(m, ds, value)[id] == m[id]
    ensures With(m, ds, value).Keys == m.Keys + Ids(ds)
  {
    if ds != [] {
      WithAt(m, Front(ds), value);
      IdsAre(Front(ds));
    }
  }

  lemma {:induction false} IdsAre(ds: seq<Delivery>)
    ensures forall id :: id in Ids(ds) <==> exists d <- ds :: d.id == id
  {
    if ds != [] {
      IdsAre(Front(ds));
      assert ds == Front(ds) + [Last(ds)];
    }
  }

  /** After a fetch reply every delivered job with a handler is being executed, and every other one is about to
      be nacked; no request has been sent for any of them, and all other jobs are as they were. */
  lemma {:induction false} DeliveredJobs(s: State, ds: seq<Delivery>)
    requires NewIds(s.books.jobs.Keys, ds)
    ensures var t := ProcessJobs(s, ds);
            && (forall d <- ds :: d.id in t.active && !t.active[d.id] && d.id in t.books.jobs
                  && t.books.jobs[d.id] == Job(if d.registered then Executing else Nacking(0, false), []))
            && (forall id <- s.books.jobs :: id in t.books.jobs && t.books.jobs[id] == s.books.jobs[id])
            && (forall id <- t.books.jobs :: id in s.books.jobs || exists d <- ds :: d.id == id)
  {
    WithAt(s.books.jobs, ds, NewJob);
    IdsAre(ds);
    ActiveAfter(s.active, ds);
  }

  lemma {:induction false} ActiveAfter(active: map<Id, bool>, ds: seq<Delivery>)
    ensures forall d <- ds :: d.id in With(active, ds, d => false) && !With(active, ds, d => false)[d.id]
  {
    if ds != [] {
      ActiveAfter(active, Front(ds));
      assert ds == Front(ds) + [Last(ds)];
    }
  }

  // ---- The worker object ----

  /** The source's fields; each method is one segment of its code between two awaits. */
  class OjsWorker {
    const config: Config
    var state: Lifecycle
    var active: map<Id, bool>
    var pollTimer: Option<nat>
    var jobsCompleted: nat
    var pollErrors: nat
    var shutdownResolve: bool
    var graceTimer: bool
    var heartbeatTimer: bool
    var signalHandler: bool
    var chain: Chain
    var books: Books
    var halt: Halt

    function View(): State
      reads this
    {
      State(state, active, pollTimer, jobsCompleted, pollErrors, shutdownResolve, graceTimer, heartbeatTimer,
            signalHandler, chain, books, halt)
    }

    constructor (config: Config)
      ensures this.config == config && View() == FRESH
    {
      this.config := config;
      state, active, pollTimer, jobsCompleted, pollErrors := Terminated, map[], None, 0, 0;
      shutdownResolve, graceTimer, heartbeatTimer, signalHandler := false, false, false, false;
      chain, books, halt := FRESH.chain, FRESH.books, FRESH.halt;
    }

    /** setTimeout(() => this.poll(), delay). */
    method SetPollTimer(delay: nat)
      modifies this`pollTimer, this`chain
      ensures View() == Arm(old(View()), delay)
    {
      pollTimer := Some(chain.nextTimer);
      chain := chain.(armed := chain.armed + {chain.nextTimer}, nextTimer := chain.nextTimer + 1, delay := delay);
    }

    method ClearPollTimer()
      modifies this`pollTimer, this`chain
      ensures View() == ClearPoll(old(View()))
    {
      if pollTimer.Some? {
        chain := chain.(armed := chain.armed - {pollTimer.value});
        pollTimer := None;
      }
    }

    method Start() returns (ok: bool)
      modifies this
      ensures ok == !(old(state) == Running || old(state) == Quiet)
      ensures View() == if ok then Begin(old(View())) else old(View())
      ensures ok ==> state == Running && jobsCompleted == 0 && pollErrors == 0 && chain.started && chain.starting
    {
      if state == Running || state == Quiet {
        return false;
      }
      state, jobsCompleted, pollErrors := Running, 0, 0;
      chain := chain.(started := true, starting := true);
      ok := true;
    }

    method PollForJobs()
      modifies this
      ensures View() == Poll(config, old(View()))
      ensures state != Running ==> chain == old(chain)
      ensures state == Running && |active| >= config.concurrency ==>
                && pollTimer == Some(old(chain.nextTimer)) && chain.armed == old(chain.armed) + {old(chain.nextTimer)}
                && chain.delay == config.pollInterval && chain.fetches == old(chain.fetches)
      ensures state == Running && |active| < config.concurrency ==>
                && chain.armed == old(chain.armed)
                && chain.fetches == old(chain.fetches) + [InFlight(Min(config.concurrency - |active|, 10))]
      ensures state == old(state) && active == old(active)
    {
      if state != Running {
        return;
      }
      if |active| >= config.concurrency {
        SetPollTimer(config.pollInterval);
        return;
      }
      var slotsAvailable := config.concurrency - |active|;
      chain := chain.(fetches := chain.fetches + [InFlight(Min(slotsAvailable, MAX_FETCH))]);
    }

    method StartContinues()
      modifies this
      ensures View() == StartOn(config, old(View()))
      ensures heartbeatTimer && signalHandler == (old(signalHandler) || config.handleSignals) && !chain.starting
    {
      chain := chain.(starting := false, lateStart := state == Terminate || state == Terminated);
      heartbeatTimer := true;
      if config.handleSignals {
        signalHandler := true;
      }
      PollForJobs();
    }

    /** The loop over the jobs of a fetch response. */
    method ProcessFetched(ds: seq<Delivery>)
      modifies this`active, this`books
      ensures View() == ProcessJobs(old(View()), ds)
      ensures NewIds(old(books.jobs.Keys), ds) ==> forall d <- ds ::
                && d.id in active && !active[d.id] && d.id in books.jobs
                && books.jobs[d.id] == Job(if d.registered then Executing else Nacking(0, false), [])
    {
      for i := 0 to |ds|
        invariant View() == ProcessJobs(old(View()), ds[..i])
      {
        assert Front(ds[..i + 1]) == ds[..i];
        var d := ds[i];
        active := active[d.id := false];
        books := books.(jobs := books.jobs[d.id := NewJob(d)], delivered := books.delivered + 1);
      }
      assert ds[..|ds|] == ds;
      if NewIds(old(books.jobs.Keys), ds) {
        DeliveredJobs(old(View()), ds);
      }
    }

    method FetchResolved(fetched: nat)
      modifies this
      ensures View() == OnFetched(config, old(View()), fetched)
      ensures state != Running ==> View() == old(View())
      ensures state == Running ==>
                && pollErrors == 0 && pollTimer == Some(old(chain.nextTimer)) && pollTimer.value in chain.armed
                && chain.delay == if fetched > 0 then 0 else config.pollInterval
    {
      if state != Running {
        return;
      }
      pollErrors := 0;
      SetPollTimer(if fetched > 0 then 0 else config.pollInterval);
    }

    method FetchRejected()
      modifies this
      ensures View() == OnFetchError(config, old(View()))
      ensures state != Running ==> View() == old(View())
      ensures state == Running ==>
                && pollErrors == old(pollErrors) + 1
                && pollTimer == Some(old(chain.nextTimer)) && pollTimer.value in chain.armed
                && chain.delay == Min(config.pollInterval * Pow2(pollErrors), 30000)
    {
      if state == Running {
        pollErrors := pollErrors + 1;
        SetPollTimer(Min(config.pollInterval * Pow2(pollErrors), MAX_BACKOFF_MS));
      }
    }

    /** The timers and handlers that `stop` removes at once. */
    method Unhook()
      modifies this
      ensures View() == ClearPoll(Stopping(old(View())))
    {
      state := Terminate;
      ClearPollTimer();
      if heartbeatTimer {
        heartbeatTimer := false;
      }
      if signalHandler {
        signalHandler := false;
      }
    }

    /** `stop` up to its wait, or to its end when nothing is active. */
    method StopWorker()
      modifies this
      ensures View() == Stop(old(View()))
      ensures old(state) == Terminated ==> View() == old(View())
      ensures old(state) != Terminated ==> pollTimer == None && !heartbeatTimer && !signalHandler
      ensures old(state) != Terminated && |old(active)| > 0 ==>
                && state == Terminate && active == old(active) && shutdownResolve && graceTimer
                && halt == Halt(true, Waiting)
      ensures old(state) != Terminated && |old(active)| == 0 ==> state == Terminated && halt.stop == Stopped
    {
      if state == Terminated {
        return;
      }
      if state == Running {
        state := Quiet;
      }
      Unhook();
      assert View() == ClearPoll(Stopping(old(View())));
      if |active| > 0 {
        shutdownResolve, graceTimer := true, true;
        halt := halt.(graceArmed := true, stop := Waiting);
      } else {
        StopContinues();
      }
    }

    /** `stop` after its wait. */
    method StopContinues()
      modifies this
      ensures View() == FinishStop(old(View()))
      ensures state == Terminated && halt.stop == Stopped && !graceTimer
      ensures active.Keys == old(active.Keys) && forall id <- active :: active[id]
    {
      if graceTimer {
        halt := halt.(graceArmed := false);
        graceTimer := false;
      }
      active := AbortAll(active);
      state := Terminated;
      halt := halt.(stop := Stopped);
    }

    method HeartbeatReplied(directive: Option<Lifecycle>)
      modifies this
      ensures View() == OnHeartbeat(old(View()), directive)
      ensures directive == Some(Quiet) && old(state) == Running ==> state == Quiet && pollTimer == None
      ensures directive == Some(Terminate) && (old(state) == Running || old(state) == Quiet) ==>
                state == (if |old(active)| > 0 then Terminate else Terminated) && pollTimer == None && !heartbeatTimer
      ensures directive != Some(Terminate) && !(directive == Some(Quiet) && old(state) == Running) ==>
                View() == old(View())
    {
      if directive.Some? && directive.value != state {
        if directive.value == Quiet && state == Running {
          state := Quiet;
          ClearPollTimer();
        } else if directive.value == Terminate {
          StopWorker();
        }
      }
    }

    method ResolveIfIdle()
      modifies this
      ensures View() == ResolveShutdownIfIdle(old(View()))
      ensures |active| == 0 && old(shutdownResolve) && (state == Terminate || state == Quiet) ==>
                !graceTimer && !shutdownResolve && (old(halt.stop) == Waiting ==> halt.stop == Woken)
      ensures !(|active| == 0 && old(shutdownResolve) && (state == Terminate || state == Quiet)) ==>
                View() == old(View())
      ensures state == old(state) && active == old(active)
    {
      if |active| == 0 && shutdownResolve && (state == Terminate || state == Quiet) {
        if graceTimer {
          halt := halt.(graceArmed := false);
          graceTimer := false;
        }
        halt := halt.(stop := if halt.stop == Waiting then Woken else halt.stop);
        shutdownResolve := false;
      }
    }

    /** The continuation of one try of an ack or nack. */
    method RequestSettled(id: Id, job: Job, ok: bool)
      requires AwaitsReply(job.stage)
      modifies this
      ensures View() == OnReply(old(View()), id, job, ok)
      ensures id in books.jobs
      ensures books.jobs[id].requests == job.requests + [if job.stage.Acking? then Ack(ok) else Nack(ok)]
      ensures books.jobs[id].stage
           == if job.stage.Acking? then
                if ok then Settled(true) else if job.stage.failed == 2 then Nacking(0, true)
                else Acking(job.stage.failed + 1)
              else if ok || job.stage.failed == 2 then Settled(job.stage.registered)
              else Nacking(job.stage.failed + 1, job.stage.registered)
      ensures jobsCompleted == old(jobsCompleted) + if job.stage.Acking? && ok then 1 else 0
    {
      var after := AfterReply(job, ok);
      books := books.(jobs := books.jobs[id := after]);
      if job.stage.Acking? {
        if ok {
          jobsCompleted := jobsCompleted + 1;
          books := books.(acked := books.acked + 1);
        }
      } else if ok {
        books := books.(nacked := books.nacked + 1);
      } else if after.stage.Settled? {
        books := books.(abandoned := books.abandoned + 1);
      }
    }

    method FinishJob(id: Id, job: Job)
      requires job.stage.Settled?
      modifies this
      ensures View() == Finally(old(View()), id, job)
      ensures active == old(active) - {id} && books.jobs == old(books.jobs) - {id}
      ensures books.finished == old(books.finished) + [job.requests]
      ensures halt.stop == Woken && old(halt.stop) == Waiting ==>
                |active| == 0 && job.stage.registered && old(shutdownResolve)
    {
      active := active - {id};
      books := books.(jobs := books.jobs - {id}, finished := books.finished + [job.requests]);
      if job.stage.registered {
        ResolveIfIdle();
      }
    }
  }

  // ---- Events ----

  datatype Event =
    | StartCalled
    | StartContinues
    | PollTimerFires(timer: nat)
    | FetchReplies(i: nat, jobs: seq<Delivery>)
    | FetchFails(i: nat)
    | FetchSettles(i: nat)
    | HandlerSettles(id: Id, ok: bool)
    | RequestSettles(id: Id, ok: bool)
    | JobFinishes(id: Id)
    | JobTimesOut(id: Id)
    | HeartbeatReplies(directive: Option<Lifecycle>)
    | StopCalled
    | GraceFires
    | StopResumes

  /** What the environment may do next. One start, one stop at a time, jobs no more than asked for and with
      ids not being processed; everything else is free. */
  ghost predicate Enabled(s: State, e: Event) {
    match e
    case StartCalled => !s.chain.started
    case StartContinues => s.chain.starting
    case PollTimerFires(timer) => timer in s.chain.armed
    case FetchReplies(i, jobs) =>
      && i < |s.chain.fetches| && s.chain.fetches[i].InFlight?
      && |jobs| <= s.chain.fetches[i].count
      && NewIds(s.active.Keys, jobs)
    case FetchFails(i) => i < |s.chain.fetches| && s.chain.fetches[i].InFlight?
    case FetchSettles(i) => i < |s.chain.fetches| && !s.chain.fetches[i].InFlight?
    case HandlerSettles(id, _) => id in s.books.jobs && s.books.jobs[id].stage.Executing?
    case RequestSettles(id, _) => id in s.books.jobs && AwaitsReply(s.books.jobs[id].stage)
    case JobFinishes(id) => id in s.books.jobs && s.books.jobs[id].stage.Settled?
    case JobTimesOut(id) => id in s.active && id in s.books.jobs && HasHandler(s.books.jobs[id].stage)
    case HeartbeatReplies(_) => s.chain.started
    case StopCalled => s.chain.started && s.state != Terminate
    case GraceFires => s.halt.graceArmed
    case StopResumes => s.halt.stop == Woken
  }

  function SetFetch(s: State, i: nat, f: Fetch): State
    requires i < |s.chain.fetches|
  {
    s.(chain := s.chain.(fetches := s.chain.fetches[i := f], failures := if f.Failed? then s.chain.failures + 1 else 0))
  }

  ghost function Step(c: Config, s: State, e: Event): State
    requires Enabled(s, e)
  {
    match e
    case StartCalled => Begin(s)
    case StartContinues => StartOn(c, s)
    case PollTimerFires(timer) => Poll(c, s.(chain := s.chain.(armed := s.chain.armed - {timer})))
    case FetchReplies(i, jobs) => ProcessJobs(SetFetch(s, i, Returned(|jobs|)), jobs)
    case FetchFails(i) => SetFetch(s, i, Failed)
    case FetchSettles(i) =>
      var t := s.(chain := s.chain.(fetches := RemoveAt(s.chain.fetches, i)));
      if s.chain.fetches[i].Returned? then OnFetched(c, t, s.chain.fetches[i].jobs) else OnFetchError(c, t)
    case HandlerSettles(id, ok) =>
      SetJob(s, id, s.books.jobs[id].(stage := if ok then Acking(0) else Nacking(0, true)))
    case RequestSettles(id, ok) => OnReply(s, id, s.books.jobs[id], ok)
    case JobFinishes(id) => Finally(s, id, s.books.jobs[id])
    case JobTimesOut(id) => s.(active := s.active[id := true])
    case HeartbeatReplies(directive) => OnHeartbeat(s, directive)
    case StopCalled => Stop(s)
    case GraceFires =>
      s.(halt := s.halt.(graceArmed := false, stop := if s.halt.stop == Waiting then Woken else s.halt.stop))
    case StopResumes => FinishStop(s)
  }

  // ---- Invariants ----

  function Requested(fetches: seq<Fetch>): nat {
    if fetches == [] then 0
    else (if fetches[0].InFlight? then fetches[0].count else 0) + Requested(fetches[1..])
  }

  function Links(s: State): nat {
    (if s.chain.starting then 1 else 0) + |s.chain.armed| + |s.chain.fetches|
  }

  /** There is one poll chain: a pending start, an armed poll timer or a fetch, never two of them, and while
      the worker runs never none. */
  ghost predicate OneChain(s: State) {
    && Links(s) <= 1
    && (s.state == Running ==> Links(s) == 1)
    && (forall t <- s.chain.armed :: s.pollTimer == Some(t))
    && (s.state != Running ==> s.chain.armed == {})
    && (forall f <- s.chain.fetches :: f.InFlight? ==> 1 <= f.count <= MAX_FETCH)
    && (!s.chain.started ==> s.state == Terminated && Links(s) == 0)
  }

  ghost predicate WithinCapacity(c: Config, s: State) {
    |s.active| + Requested(s.chain.fetches) <= Max(c.concurrency, 0)
  }

  ghost predicate StopCompletes(s: State) {
    && (s.halt.graceArmed <==> s.halt.stop == Waiting)
    && (s.halt.graceArmed ==> s.graceTimer)
    && (s.halt.stop == Waiting ==> s.shutdownResolve)
    && (s.state == Terminate <==> s.halt.stop == Waiting || s.halt.stop == Woken)
    && (s.halt.stop == Stopped ==> s.state == Terminated)
    && (s.halt.stop == NotStopped ==> !s.shutdownResolve && !s.graceTimer)
    && (s.state == Terminated && s.chain.started ==> s.halt.stop == Stopped)
    && (!s.chain.started ==> s == FRESH)
  }

  // ---- Settlement ----

  function Fails(r: Request, n: nat): seq<Request> {
    seq(n, i => r)
  }

  /** The requests a job has sent by the time it reaches a stage. */
  ghost predicate Sent(stage: Stage, w: seq<Request>) {
    match stage
    case Executing => w == []
    case Acking(k) => k < MAX_TRIES && w == Fails(Ack(false), k)
    case Nacking(k, registered) => k < MAX_TRIES && Refused(w, k) && (!registered ==> w == Fails(Nack(false), k))
    case Settled(_) => Final(w)
  }

  /** No ack or three failed acks, then k failed nacks. */
  ghost predicate Refused(w: seq<Request>, k: nat) {
    w == Fails(Nack(false), k) || w == Fails(Ack(false), MAX_TRIES) + Fails(Nack(false), k)
  }

  ghost predicate Acked(w: seq<Request>) {
    w != [] && Last(w) == Ack(true) && |w| <= MAX_TRIES && Front(w) == Fails(Ack(false), |w| - 1)
  }

  ghost predicate Nacked(w: seq<Request>) {
    w != [] && Last(w) == Nack(true) && exists k: nat | k < MAX_TRIES :: Refused(Front(w), k)
  }

  ghost predicate Abandoned(w: seq<Request>) {
    Refused(w, MAX_TRIES)
  }

  ghost predicate Final(w: seq<Request>) {
    Acked(w) || Nacked(w) || Abandoned(w)
  }

  /** The ids whose job has not been settled yet. */
  function Unsettled(jobs: map<Id, Job>): set<Id> {
    set id | id in jobs && !jobs[id].stage.Settled?
  }

  /** Every delivered job is unsettled, acked, nacked or given up. */
  ghost predicate Balanced(s: State) {
    && s.active.Keys == s.books.jobs.Keys
    && s.books.delivered == |Unsettled(s.books.jobs)| + s.books.acked + s.books.nacked + s.books.abandoned
    && s.books.delivered == |s.books.jobs| + |s.books.finished|
    && s.jobsCompleted == s.books.acked
  }

  ghost predicate AllSent(jobs: map<Id, Job>) {
    forall id <- jobs :: Sent(jobs[id].stage, jobs[id].requests)
  }

  ghost predicate WellSent(b: Books) {
    && AllSent(b.jobs)
    && (forall w <- b.finished :: Final(w))
  }

  ghost predicate Inv(c: Config, s: State) {
    OneChain(s) && WithinCapacity(c, s) && StopCompletes(s) && Balanced(s) && WellSent(s.books)
  }

  lemma {:induction false} InvInit(c: Config)
    ensures Inv(c, FRESH)
  {
    assert Unsettled(FRESH.books.jobs) == {};
  }

  // ---- Each segment keeps the invariants ----

  lemma {:induction false} ArmInv(c: Config, s: State, delay: nat)
    requires WithinCapacity(c, s) && StopCompletes(s) && Balanced(s) && WellSent(s.books)
    requires Links(s) == 0 && s.chain.started && s.state == Running
    ensures Inv(c, Arm(s, delay))
  {
    assert s.chain.fetches == [] && s.chain.armed == {};
  }

  lemma {:induction false} ClearPollDisarms(s: State)
    requires forall t <- s.chain.armed :: s.pollTimer == Some(t)
    ensures ClearPoll(s).chain.armed == {}
    ensures ClearPoll(s) == s.(pollTimer := None, chain := s.chain.(armed := {}))
  {
    if s.pollTimer.None? {
      assert s.chain.armed == {};
    } else {
      assert s.chain.armed - {s.pollTimer.value} == {};
    }
  }

  lemma {:induction false} ClearPollInv(c: Config, s: State)
    requires Inv(c, s) && s.state == Running
    ensures Inv(c, ClearPoll(s.(state := Quiet)))
  {
    ClearPollDisarms(s.(state := Quiet));
  }

  lemma {:induction false} AbortAllKeys(active: map<Id, bool>)
    ensures AbortAll(active).Keys == active.Keys && |AbortAll(active)| == |active|
  {
    assert AbortAll(active).Keys == active.Keys;
  }

  lemma {:induction false} FinishStopInv(c: Config, s: State)
    requires OneChain(s) && WithinCapacity(c, s) && Balanced(s) && WellSent(s.books)
    requires s.chain.armed == {} && s.chain.started && (s.halt.graceArmed ==> s.graceTimer)
    ensures Inv(c, FinishStop(s))
  {
    AbortAllKeys(s.active);
  }

  lemma {:induction false} StopInv(c: Config, s: State)
    requires Inv(c, s) && s.chain.started && s.state != Terminate
    ensures Inv(c, Stop(s))
  {
    if s.state != Terminated {
      var t := ClearPoll(Stopping(s));
      ClearPollDisarms(Stopping(s));
      if |t.active| == 0 {
        FinishStopInv(c, t);
      }
    }
  }

  lemma {:induction false} ResolveInv(c: Config, s: State)
    requires Inv(c, s)
    ensures Inv(c, ResolveShutdownIfIdle(s))
  {
  }

  lemma {:induction false} FinallyInv(c: Config, s: State, id: Id)
    requires Inv(c, s) && id in s.books.jobs && s.books.jobs[id].stage.Settled?
    ensures Inv(c, Finally(s, id, s.books.jobs[id]))
  {
    var job := s.books.jobs[id];
    var t := s.(active := s.active - {id},
                books := s.books.(jobs := s.books.jobs - {id}, finished := s.books.finished + [job.requests]));
    assert t.active.Keys == s.active.Keys - {id} && t.books.jobs.Keys == s.books.jobs.Keys - {id};
    assert |t.active| == |t.active.Keys| && |s.active| == |s.active.Keys|;
    assert Unsettled(t.books.jobs) == Unsettled(s.books.jobs);
    ResolveInv(c, t);
  }

  lemma {:induction false} MoreFails(r: Request, k: nat)
    ensures Fails(r, k) + [r] == Fails(r, k + 1)
  {
  }

  lemma {:induction false} AfterReplySent(job: Job, ok: bool)
    requires AwaitsReply(job.stage) && Sent(job.stage, job.requests)
    ensures Sent(AfterReply(job, ok).stage, AfterReply(job, ok).requests)
  {
    var k, w, r := job.stage.failed, job.requests, Last(AfterReply(job, ok).requests);
    assert Front(w + [r]) == w;
    if job.stage.Acking? {
      MoreFails(Ack(false), k);
      assert Fails(Ack(false), MAX_TRIES) + Fails(Nack(false), 0) == Fails(Ack(false), MAX_TRIES);
    } else {
      MoreFails(Nack(false), k);
      if w == Fails(Ack(false), MAX_TRIES) + Fails(Nack(false), k) {
        assert w + [r] == Fails(Ack(false), MAX_TRIES) + (Fails(Nack(false), k) + [r]);
      }
    }
  }

  lemma {:induction false} SetJobInv(c: Config, s: State, id: Id, job: Job)
    requires Inv(c, s) && id in s.books.jobs && !s.books.jobs[id].stage.Settled? && Sent(job.stage, job.requests)
    ensures var t := SetJob(s, id, job);
            && OneChain(t) && WithinCapacity(c, t) && StopCompletes(t) && WellSent(t.books)
            && t.active.Keys == t.books.jobs.Keys
            && |Unsettled(t.books.jobs)| + (if job.stage.Settled? then 1 else 0) == |Unsettled(s.books.jobs)|
            && |t.books.jobs| == |s.books.jobs|
  {
    var t := SetJob(s, id, job);
    assert t.books.jobs.Keys == s.books.jobs.Keys;
    SetJobUnsettled(s.books.jobs, id, job);
  }

  lemma {:induction false} SetJobUnsettled(jobs: map<Id, Job>, id: Id, job: Job)
    requires id in jobs && !jobs[id].stage.Settled?
    ensures |Unsettled(jobs[id := job])| + (if job.stage.Settled? then 1 else 0) == |Unsettled(jobs)|
    ensures |jobs[id := job]| == |jobs|
  {
    var before := Unsettled(jobs);
    assert jobs[id := job].Keys == jobs.Keys;
    assert Unsettled(jobs[id := job]) == if job.stage.Settled? then before - {id} else before;
  }

  /** A settled job moves from the unsettled ones into one of the three counters. */
  lemma {:induction false} ReplyCounts(s: State, id: Id, ok: bool)
    requires id in s.books.jobs && AwaitsReply(s.books.jobs[id].stage)
    ensures var job := s.books.jobs[id];
            var t, u := SetJob(s, id, AfterReply(job, ok)), OnReply(s, id, job, ok);
            && u == t.(jobsCompleted := u.jobsCompleted, books := u.books)
            && u.books == t.books.(acked := u.books.acked, nacked := u.books.nacked, abandoned := u.books.abandoned)
            && u.books.acked + u.books.nacked + u.books.abandoned
               == s.books.acked + s.books.nacked + s.books.abandoned
                  + (if AfterReply(job, ok).stage.Settled? then 1 else 0)
            && u.jobsCompleted - s.jobsCompleted == u.books.acked - s.books.acked
  {
  }

  lemma {:induction false} OnReplyInv(c: Config, s: State, id: Id, ok: bool)
    requires Inv(c, s) && id in s.books.jobs && AwaitsReply(s.books.jobs[id].stage)
    ensures Inv(c, OnReply(s, id, s.books.jobs[id], ok))
  {
    var job := s.books.jobs[id];
    AfterReplySent(job, ok);
    SetJobInv(c, s, id, AfterReply(job, ok));
    ReplyCounts(s, id, ok);
    assert s != FRESH;
  }

  lemma {:induction false} HandlerSettlesInv(c: Config, s: State, id: Id, ok: bool)
    requires Inv(c, s) && id in s.books.jobs && s.books.jobs[id].stage.Executing?
    ensures Inv(c, SetJob(s, id, s.books.jobs[id].(stage := if ok then Acking(0) else Nacking(0, true))))
  {
    var job := s.books.jobs[id].(stage := if ok then Acking(0) else Nacking(0, true));
    assert job.requests == Fails(Ack(false), 0) == Fails(Nack(false), 0);
    SetJobInv(c, s, id, job);
  }

  lemma {:induction false} KeyAdded<T>(m: map<Id, T>, id: Id, v: T)
    requires id !in m
    ensures m[id := v].Keys == m.Keys + {id} && |m[id := v]| == |m| + 1
  {
    assert m[id := v].Keys == m.Keys + {id};
  }

  lemma {:induction false} WithKeys<T>(m: map<Id, T>, ds: seq<Delivery>, value: Delivery -> T)
    requires NewIds(m.Keys, ds)
    ensures With(m, ds, value).Keys == m.Keys + Ids(ds)
    ensures |With(m, ds, value)| == |m| + |ds|
  {
    if ds != [] {
      var before, d := With(m, Front(ds), value), Last(ds);
      WithKeys(m, Front(ds), value);
      assert before.Keys == m.Keys + Ids(Front(ds));
      KeyAdded(before, d.id, value(d));
    }
  }

  lemma {:induction false} UnsettledAdded(jobs: map<Id, Job>, id: Id, job: Job)
    requires id !in jobs && !job.stage.Settled?
    ensures |Unsettled(jobs[id := job])| == |Unsettled(jobs)| + 1
  {
    assert Unsettled(jobs[id := job]) == Unsettled(jobs) + {id};
  }

  lemma {:induction false} WithJobsUnsettled(jobs: map<Id, Job>, ds: seq<Delivery>)
    requires NewIds(jobs.Keys, ds)
    ensures |Unsettled(With(jobs, ds, NewJob))| == |Unsettled(jobs)| + |ds|
  {
    if ds != [] {
      WithJobsUnsettled(jobs, Front(ds));
      WithKeys(jobs, Front(ds), NewJob);
      UnsettledAdded(With(jobs, Front(ds), NewJob), Last(ds).id, NewJob(Last(ds)));
    }
  }

  lemma {:induction false} WithJobsSent(jobs: map<Id, Job>, ds: seq<Delivery>)
    requires AllSent(jobs)
    ensures AllSent(With(jobs, ds, NewJob))
  {
    if ds != [] {
      WithJobsSent(jobs, Front(ds));
      assert [] == Fails(Nack(false), 0);
      assert Sent(NewJob(Last(ds)).stage, NewJob(Last(ds)).requests);
    }
  }

  lemma {:induction false} Delivered(s: State, ds: seq<Delivery>)
    requires Balanced(s) && WellSent(s.books) && NewIds(s.active.Keys, ds)
    ensures var t := ProcessJobs(s, ds);
            Balanced(t) && WellSent(t.books) && |t.active| == |s.active| + |ds|
  {
    WithKeys(s.active, ds, d => false);
    WithKeys(s.books.jobs, ds, NewJob);
    WithJobsUnsettled(s.books.jobs, ds);
    WithJobsSent(s.books.jobs, ds);
  }

  lemma {:induction false} FetchRepliesInv(c: Config, s: State, i: nat, ds: seq<Delivery>)
    requires Inv(c, s) && i < |s.chain.fetches| && s.chain.fetches[i].InFlight?
    requires |ds| <= s.chain.fetches[i].count && NewIds(s.active.Keys, ds)
    ensures Inv(c, ProcessJobs(SetFetch(s, i, Returned(|ds|)), ds))
  {
    var t := SetFetch(s, i, Returned(|ds|));
    assert s.chain.fetches == [s.chain.fetches[0]] && t.chain.fetches == [Returned(|ds|)];
    Delivered(t, ds);
  }

  lemma {:induction false} NoLinkInv(c: Config, s: State)
    requires WithinCapacity(c, s) && StopCompletes(s) && Balanced(s) && WellSent(s.books)
    requires Links(s) == 0 && s.chain.started && s.state != Running
    ensures Inv(c, s)
  {
    assert s.chain.fetches == [] && s.chain.armed == {};
  }

  lemma {:induction false} FetchInv(c: Config, s: State, count: nat)
    requires WithinCapacity(c, s) && StopCompletes(s) && Balanced(s) && WellSent(s.books)
    requires Links(s) == 0 && s.chain.started && s.state == Running
    requires 1 <= count <= MAX_FETCH && |s.active| + count <= c.concurrency
    ensures Inv(c, s.(chain := s.chain.(fetches := s.chain.fetches + [InFlight(count)])))
  {
    assert s.chain.fetches == [] && s.chain.armed == {};
    assert [] + [InFlight(count)] == [InFlight(count)];
  }

  lemma {:induction false} PollInv(c: Config, s: State)
    requires WithinCapacity(c, s) && StopCompletes(s) && Balanced(s) && WellSent(s.books)
    requires Links(s) == 0 && s.chain.started
    ensures Inv(c, Poll(c, s))
  {
    if s.state != Running {
      NoLinkInv(c, s);
    } else if |s.active| >= c.concurrency {
      ArmInv(c, s, c.pollInterval);
    } else {
      FetchInv(c, s, Min(c.concurrency - |s.active|, MAX_FETCH));
    }
  }

  lemma {:induction false} FetchedInv(c: Config, s: State, n: nat)
    requires WithinCapacity(c, s) && StopCompletes(s) && Balanced(s) && WellSent(s.books)
    requires Links(s) == 0 && s.chain.started
    ensures Inv(c, OnFetched(c, s, n))
  {
    if s.state == Running {
      ArmInv(c, s.(pollErrors := 0), if n > 0 then 0 else c.pollInterval);
    } else {
      NoLinkInv(c, s);
    }
  }

  lemma {:induction false} FetchErrorInv(c: Config, s: State)
    requires WithinCapacity(c, s) && StopCompletes(s) && Balanced(s) && WellSent(s.books)
    requires Links(s) == 0 && s.chain.started
    ensures Inv(c, OnFetchError(c, s))
  {
    if s.state == Running {
      ArmInv(c, s.(pollErrors := s.pollErrors + 1), Min(c.pollInterval * Pow2(s.pollErrors + 1), MAX_BACKOFF_MS));
    } else {
      NoLinkInv(c, s);
    }
  }

  lemma {:induction false} FetchSettlesInv(c: Config, s: State, i: nat)
    requires Inv(c, s) && i < |s.chain.fetches| && !s.chain.fetches[i].InFlight?
    ensures Inv(c, Step(c, s, FetchSettles(i)))
  {
    var f, t := s.chain.fetches[i], s.(chain := s.chain.(fetches := RemoveAt(s.chain.fetches, i)));
    assert s.chain.fetches == [f] && t.chain.fetches == [];
    if f.Returned? {
      FetchedInv(c, t, f.jobs);
    } else {
      FetchErrorInv(c, t);
    }
  }

  lemma {:induction false} TimerFiresInv(c: Config, s: State, e: Event)
    requires Inv(c, s) && Enabled(s, e) && (e.StartContinues? || e.PollTimerFires?)
    ensures Inv(c, Step(c, s, e))
  {
    if e.StartContinues? {
      PollInv(c, Begun(c, s));
    } else {
      PollInv(c, s.(chain := s.chain.(armed := s.chain.armed - {e.timer})));
    }
  }

  lemma {:induction false} PlainStepInv(c: Config, s: State, e: Event)
    requires Inv(c, s) && Enabled(s, e)
    requires e.StartCalled? || e.JobTimesOut? || e.GraceFires?
    ensures Inv(c, Step(c, s, e))
  {
    if e.StartCalled? {
      assert s.chain.armed == {} && s.chain.fetches == [];
    } else if e.JobTimesOut? {
      assert s.active[e.id := true].Keys == s.active.Keys;
    }
  }

  lemma {:induction false} FetchFailsInv(c: Config, s: State, i: nat)
    requires Inv(c, s) && i < |s.chain.fetches| && s.chain.fetches[i].InFlight?
    ensures Inv(c, SetFetch(s, i, Failed))
  {
    assert s.chain.fetches == [s.chain.fetches[0]] && s.chain.fetches[i := Failed] == [Failed];
  }

  lemma {:induction false} HeartbeatInv(c: Config, s: State, directive: Option<Lifecycle>)
    requires Inv(c, s) && s.chain.started
    ensures Inv(c, OnHeartbeat(s, directive))
  {
    if s.state == Running && directive == Some(Quiet) {
      ClearPollInv(c, s);
    } else if directive == Some(Terminate) && s.state != Terminate {
      StopInv(c, s);
    }
  }

  lemma {:induction false} InvStep(c: Config, s: State, e: Event)
    requires Inv(c, s) && Enabled(s, e)
    ensures Inv(c, Step(c, s, e))
  {
    match e
    case StartContinues => TimerFiresInv(c, s, e);
    case PollTimerFires(_) => TimerFiresInv(c, s, e);
    case FetchReplies(i, ds) => FetchRepliesInv(c, s, i, ds);
    case FetchFails(i) => FetchFailsInv(c, s, i);
    case FetchSettles(i) => FetchSettlesInv(c, s, i);
    case HandlerSettles(id, ok) => HandlerSettlesInv(c, s, id, ok);
    case RequestSettles(id, ok) => OnReplyInv(c, s, id, ok);
    case JobFinishes(id) => FinallyInv(c, s, id);
    case HeartbeatReplies(d) => HeartbeatInv(c, s, d);
    case StopCalled => StopInv(c, s);
    case StopResumes => FinishStopInv(c, s);
    case _ => PlainStepInv(c, s, e);
  }

  // ---- What the settlement counters count ----

  /** The settled jobs still active whose last request was `r`. */
  function SettledBy(jobs: map<Id, Job>, r: Request): set<Id> {
    set id | id in jobs && jobs[id].stage.Settled? && jobs[id].requests != [] && Last(jobs[id].requests) == r
  }

  /** The number of finished jobs whose last request was `r`. */
  function EndedBy(finished: seq<seq<Request>>, r: Request): nat {
    if finished == [] then 0
    else EndedBy(Front(finished), r) + if Last(finished) != [] && Last(Last(finished)) == r then 1 else 0
  }

  function Tally(b: Books, r: Request): nat {
    |SettledBy(b.jobs, r)| + EndedBy(b.finished, r)
  }

  /** Each counter is the number of deliveries whose last request was a successful ack, a successful nack, or a
      failed nack. */
  ghost predicate Tallied(b: Books) {
    b.acked == Tally(b, Ack(true)) && b.nacked == Tally(b, Nack(true)) && b.abandoned == Tally(b, Nack(false))
  }

  lemma {:induction false} SetJobTally(jobs: map<Id, Job>, id: Id, job: Job, r: Request)
    requires id in jobs && !jobs[id].stage.Settled?
    ensures |SettledBy(jobs[id := job], r)|
         == |SettledBy(jobs, r)| + if job.stage.Settled? && job.requests != [] && Last(job.requests) == r then 1 else 0
  {
    if job.stage.Settled? && job.requests != [] && Last(job.requests) == r {
      assert SettledBy(jobs[id := job], r) == SettledBy(jobs, r) + {id};
    } else {
      assert SettledBy(jobs[id := job], r) == SettledBy(jobs, r);
    }
  }

  lemma {:induction false} ReplyTallied(s: State, id: Id, ok: bool)
    requires Tallied(s.books) && id in s.books.jobs && AwaitsReply(s.books.jobs[id].stage)
    ensures Tallied(OnReply(s, id, s.books.jobs[id], ok).books)
  {
    var after := AfterReply(s.books.jobs[id], ok);
    SetJobTally(s.books.jobs, id, after, Ack(true));
    SetJobTally(s.books.jobs, id, after, Nack(true));
    SetJobTally(s.books.jobs, id, after, Nack(false));
    ReplyBooks(s, id, ok);
  }

  lemma {:induction false} ReplyBooks(s: State, id: Id, ok: bool)
    requires id in s.books.jobs && AwaitsReply(s.books.jobs[id].stage)
    ensures var job := s.books.jobs[id];
            var l, after := OnReply(s, id, job, ok).books, AfterReply(job, ok);
            var last := if after.stage.Settled? then Some(Last(after.requests)) else None;
            && l.jobs == s.books.jobs[id := after] && l.finished == s.books.finished
            && l.acked == s.books.acked + (if last == Some(Ack(true)) then 1 else 0)
            && l.nacked == s.books.nacked + (if last == Some(Nack(true)) then 1 else 0)
            && l.abandoned == s.books.abandoned + (if last == Some(Nack(false)) then 1 else 0)
  {
  }

  lemma {:induction false} FinishTally(jobs: map<Id, Job>, finished: seq<seq<Request>>, id: Id, r: Request)
    requires id in jobs && jobs[id].stage.Settled?
    ensures |SettledBy(jobs - {id}, r)| + EndedBy(finished + [jobs[id].requests], r)
         == |SettledBy(jobs, r)| + EndedBy(finished, r)
  {
    assert Front(finished + [jobs[id].requests]) == finished;
    assert SettledBy(jobs - {id}, r) == SettledBy(jobs, r) - {id};
  }

  lemma {:induction false} FinishTallied(s: State, id: Id)
    requires Tallied(s.books) && id in s.books.jobs && s.books.jobs[id].stage.Settled?
    ensures Tallied(Finally(s, id, s.books.jobs[id]).books)
  {
    FinishTally(s.books.jobs, s.books.finished, id, Ack(true));
    FinishTally(s.books.jobs, s.books.finished, id, Nack(true));
    FinishTally(s.books.jobs, s.books.finished, id, Nack(false));
  }

  lemma {:induction false} AddedTally(jobs: map<Id, Job>, id: Id, job: Job, r: Request)
    requires id !in jobs && !job.stage.Settled?
    ensures SettledBy(jobs[id := job], r) == SettledBy(jobs, r)
  {
  }

  lemma {:induction false} NewJobsTally(jobs: map<Id, Job>, ds: seq<Delivery>, r: Request)
    requires NewIds(jobs.Keys, ds)
    ensures SettledBy(With(jobs, ds, NewJob), r) == SettledBy(jobs, r)
  {
    if ds != [] {
      NewJobsTally(jobs, Front(ds), r);
      WithKeys(jobs, Front(ds), NewJob);
      AddedTally(With(jobs, Front(ds), NewJob), Last(ds).id, NewJob(Last(ds)), r);
    }
  }

  predicate IsJobStep(e: Event) {
    e.FetchReplies? || e.HandlerSettles? || e.RequestSettles? || e.JobFinishes?
  }

  lemma {:induction false} PollKeepsBooks(c: Config, s: State, n: nat)
    ensures Poll(c, s).books == s.books
    ensures OnFetched(c, s, n).books == s.books && OnFetchError(c, s).books == s.books
  {
  }

  lemma {:induction false} StopKeepsBooks(s: State, directive: Option<Lifecycle>)
    ensures Stop(s).books == s.books && OnHeartbeat(s, directive).books == s.books
  {
  }

  lemma {:induction false} OtherStepsKeepBooks(c: Config, s: State, e: Event)
    requires Enabled(s, e) && !IsJobStep(e)
    ensures Step(c, s, e).books == s.books
  {
    match e
    case StartContinues => PollKeepsBooks(c, Begun(c, s), 0);
    case PollTimerFires(t) => PollKeepsBooks(c, s.(chain := s.chain.(armed := s.chain.armed - {t})), 0);
    case FetchSettles(i) =>
      PollKeepsBooks(c, s.(chain := s.chain.(fetches := RemoveAt(s.chain.fetches, i))),
                     if s.chain.fetches[i].Returned? then s.chain.fetches[i].jobs else 0);
    case HeartbeatReplies(d) => StopKeepsBooks(s, d);
    case StopCalled => StopKeepsBooks(s, None);
    case _ =>
  }

  lemma {:induction false} TalliedStep(c: Config, s: State, e: Event)
    requires Balanced(s) && Tallied(s.books) && Enabled(s, e)
    ensures Tallied(Step(c, s, e).books)
  {
    match e
    case FetchReplies(i, ds) =>
      NewJobsTally(s.books.jobs, ds, Ack(true));
      NewJobsTally(s.books.jobs, ds, Nack(true));
      NewJobsTally(s.books.jobs, ds, Nack(false));
    case HandlerSettles(id, ok) =>
      var job := s.books.jobs[id].(stage := if ok then Acking(0) else Nacking(0, true));
      SetJobTally(s.books.jobs, id, job, Ack(true));
      SetJobTally(s.books.jobs, id, job, Nack(true));
      SetJobTally(s.books.jobs, id, job, Nack(false));
    case RequestSettles(id, ok) => ReplyTallied(s, id, ok);
    case JobFinishes(id) => FinishTallied(s, id);
    case _ => OtherStepsKeepBooks(c, s, e);
  }

  /** Only these steps touch the lifecycle. */
  predicate IsControl(e: Event) {
    e.StartCalled? || e.HeartbeatReplies? || e.StopCalled? || e.GraceFires? || e.StopResumes? || e.JobFinishes?
  }

  // ---- How long the poll timer waits ----

  /** The consecutive failures the worker knows of, or is about to be told of. */
  function Counted(s: State): nat {
    if s.chain.fetches == [] || s.chain.fetches[0].InFlight? then s.pollErrors
    else if s.chain.fetches[0].Failed? then s.pollErrors + 1
    else 0
  }

  /** After k > 0 consecutive failures the poll interval is doubled k times, within the cap. */
  predicate Due(c: Config, delay: nat, failures: nat) {
    if failures > 0 then delay == Min(c.pollInterval * Pow2(failures), MAX_BACKOFF_MS)
    else delay == 0 || delay == c.pollInterval
  }

  ghost predicate Paced(c: Config, s: State) {
    && (s.state == Running ==> s.chain.failures == Counted(s) && (Counted(s) > 0 ==> |s.active| < c.concurrency))
    && (s.chain.armed != {} ==> Due(c, s.chain.delay, s.chain.failures))
  }

  lemma {:induction false} PollPaced(c: Config, s: State)
    requires Paced(c, s) && Links(s) == 0
    ensures Paced(c, Poll(c, s))
  {
    assert s.chain.armed == {} && s.chain.fetches == [];
    assert Poll(c, s).chain.fetches != [] ==> Poll(c, s).chain.fetches[0].InFlight?;
  }

  lemma {:induction false} TimerFiresPaced(c: Config, s: State, e: Event)
    requires Inv(c, s) && Paced(c, s) && Enabled(s, e) && (e.StartContinues? || e.PollTimerFires?)
    ensures Paced(c, Step(c, s, e))
  {
    if e.StartContinues? {
      assert s.chain.armed == {} && s.chain.fetches == [];
      PollPaced(c, Begun(c, s));
    } else {
      var t := s.(chain := s.chain.(armed := s.chain.armed - {e.timer}));
      assert t.chain.armed == {} by {
        assert |s.chain.armed| == 1 && |t.chain.armed| == 0;
      }
      PollPaced(c, t);
    }
  }

  lemma {:induction false} FetchReplyPaced(c: Config, s: State, i: nat, f: Fetch)
    requires Inv(c, s) && Paced(c, s) && i < |s.chain.fetches| && s.chain.fetches[i].InFlight? && !f.InFlight?
    ensures SetFetch(s, i, f).chain.armed == {}
    ensures Paced(c, SetFetch(s, i, f))
  {
    var count := s.chain.fetches[0].count;
    assert s.chain.armed == {} && s.chain.fetches == [InFlight(count)];
    assert SetFetch(s, i, f).chain.fetches == [f];
    assert Requested([InFlight(count)]) == count + Requested([]);
  }

  lemma {:induction false} ArmPaced(c: Config, s: State, delay: nat)
    requires s.chain.fetches == [] && Due(c, delay, s.chain.failures)
    requires s.chain.failures == s.pollErrors && (s.pollErrors > 0 ==> |s.active| < c.concurrency)
    ensures Paced(c, Arm(s, delay))
  {
  }

  lemma {:induction false} FetchSettlesPaced(c: Config, s: State, i: nat)
    requires Inv(c, s) && Paced(c, s) && Enabled(s, FetchSettles(i))
    ensures Paced(c, Step(c, s, FetchSettles(i)))
  {
    var f := s.chain.fetches[i];
    assert s.chain.armed == {} && s.chain.fetches == [f] && RemoveAt(s.chain.fetches, 0) == [];
    var t := s.(chain := s.chain.(fetches := []));
    if s.state == Running {
      if f.Returned? {
        ArmPaced(c, t.(pollErrors := 0), if f.jobs > 0 then 0 else c.pollInterval);
      } else {
        ArmPaced(c, t.(pollErrors := s.pollErrors + 1),
                 Min(c.pollInterval * Pow2(s.pollErrors + 1), MAX_BACKOFF_MS));
      }
    }
  }

  /** A step that leaves the poll loop alone, and adds no job to it. */
  ghost predicate SamePace(s: State, t: State) {
    t.state == s.state && t.chain == s.chain && t.pollErrors == s.pollErrors && |t.active| <= |s.active|
  }

  lemma {:induction false} SamePacePaced(c: Config, s: State, t: State)
    requires Paced(c, s) && SamePace(s, t)
    ensures Paced(c, t)
  {
  }

  lemma {:induction false} FinallyKeepsPace(s: State, id: Id, job: Job)
    requires job.stage.Settled?
    ensures SamePace(s, Finally(s, id, job))
  {
    var left := s.active - {id};
    assert left.Keys == s.active.Keys - {id};
    assert |left| == |left.Keys| && |s.active| == |s.active.Keys|;
  }

  lemma {:induction false} TimeOutKeepsPace(s: State, id: Id)
    requires id in s.active
    ensures SamePace(s, s.(active := s.active[id := true]))
  {
    var after := s.active[id := true];
    assert after.Keys == s.active.Keys && |after| == |after.Keys| && |s.active| == |s.active.Keys|;
  }

  lemma {:induction false} JobStepPaced(c: Config, s: State, e: Event)
    requires Paced(c, s) && Enabled(s, e)
    requires e.HandlerSettles? || e.RequestSettles? || e.JobFinishes? || e.JobTimesOut?
    ensures Paced(c, Step(c, s, e))
  {
    match e {
      case JobFinishes(id) => FinallyKeepsPace(s, id, s.books.jobs[id]);
      case JobTimesOut(id) => TimeOutKeepsPace(s, id);
      case _ =>
    }
    SamePacePaced(c, s, Step(c, s, e));
  }

  lemma {:induction false} ControlPaced(c: Config, s: State, e: Event)
    requires Inv(c, s) && Paced(c, s) && Enabled(s, e) && IsControl(e) && !e.JobFinishes?
    ensures Paced(c, Step(c, s, e))
  {
    InvStep(c, s, e);
    if Step(c, s, e).state == Running && !e.StartCalled? {
      assert Step(c, s, e) == s;
    }
  }

  lemma {:induction false} PacedStep(c: Config, s: State, e: Event)
    requires Inv(c, s) && Paced(c, s) && Enabled(s, e)
    ensures Paced(c, Step(c, s, e))
  {
    match e
    case StartContinues => TimerFiresPaced(c, s, e);
    case PollTimerFires(_) => TimerFiresPaced(c, s, e);
    case FetchReplies(i, ds) => FetchReplyPaced(c, s, i, Returned(|ds|));
    case FetchFails(i) => FetchReplyPaced(c, s, i, Failed);
    case FetchSettles(i) => FetchSettlesPaced(c, s, i);
    case HandlerSettles(_, _) => JobStepPaced(c, s, e);
    case RequestSettles(_, _) => JobStepPaced(c, s, e);
    case JobFinishes(_) => JobStepPaced(c, s, e);
    case JobTimesOut(_) => JobStepPaced(c, s, e);
    case _ => ControlPaced(c, s, e);
  }

  // ---- Heartbeat timer and signal handlers ----

  /** They are in place once the start has gone on, until a stop; but a start that goes on after the stop
      leaves them behind. */
  ghost predicate Hooked(c: Config, s: State) {
    && (s.heartbeatTimer <==>
          s.chain.started && !s.chain.starting && (s.state == Running || s.state == Quiet || s.chain.lateStart))
    && (s.signalHandler <==> s.heartbeatTimer && c.handleSignals)
    && (s.chain.lateStart ==> !s.chain.starting && (s.state == Terminate || s.state == Terminated))
  }

  ghost predicate SameHooks(s: State, t: State) {
    && t.state == s.state && t.heartbeatTimer == s.heartbeatTimer && t.signalHandler == s.signalHandler
    && t.chain.started == s.chain.started && t.chain.starting == s.chain.starting
    && t.chain.lateStart == s.chain.lateStart
  }

  lemma {:induction false} PollKeepsHooks(c: Config, s: State)
    ensures SameHooks(s, Poll(c, s))
  {
  }

  lemma {:induction false} FetchKeepsHooks(c: Config, s: State, i: nat)
    requires i < |s.chain.fetches| && !s.chain.fetches[i].InFlight?
    ensures SameHooks(s, Step(c, s, FetchSettles(i)))
  {
    var t := s.(chain := s.chain.(fetches := RemoveAt(s.chain.fetches, i)));
    if s.chain.fetches[i].Returned? {
      assert SameHooks(t, OnFetched(c, t, s.chain.fetches[i].jobs));
    } else {
      assert SameHooks(t, OnFetchError(c, t));
    }
  }

  lemma {:induction false} StopHooked(c: Config, s: State, directive: Option<Lifecycle>)
    requires Inv(c, s) && Hooked(c, s) && s.chain.started && s.state != Terminate
    ensures Hooked(c, Stop(s)) && Hooked(c, OnHeartbeat(s, directive))
  {
  }

  lemma {:induction false} ReplyKeepsHooks(s: State, id: Id, job: Job, ok: bool)
    requires AwaitsReply(job.stage)
    ensures SameHooks(s, OnReply(s, id, job, ok))
  {
  }

  lemma {:induction false} SameHooksHooked(c: Config, s: State, t: State)
    requires Hooked(c, s) && SameHooks(s, t)
    ensures Hooked(c, t)
  {
  }

  lemma {:induction false} BegunHooked(c: Config, s: State)
    requires Inv(c, s) && Hooked(c, s) && s.chain.starting
    ensures Hooked(c, Begun(c, s))
  {
  }

  lemma {:induction false} HookedStep(c: Config, s: State, e: Event)
    requires Inv(c, s) && Hooked(c, s) && Enabled(s, e)
    ensures Hooked(c, Step(c, s, e))
  {
    if e.StartContinues? {
      BegunHooked(c, s);
      PollKeepsHooks(c, Begun(c, s));
      SameHooksHooked(c, Begun(c, s), Step(c, s, e));
    } else if IsControl(e) {
      ControlHooked(c, s, e);
    } else {
      OtherStepsKeepHooks(c, s, e);
      SameHooksHooked(c, s, Step(c, s, e));
    }
  }

  lemma {:induction false} ControlHooked(c: Config, s: State, e: Event)
    requires Inv(c, s) && Hooked(c, s) && Enabled(s, e) && IsControl(e)
    ensures Hooked(c, Step(c, s, e))
  {
    match e
    case HeartbeatReplies(d) =>
      if s.state != Terminate {
        StopHooked(c, s, d);
      }
    case StopCalled => StopHooked(c, s, None);
    case StopResumes => assert SameHooks(s.(state := Terminated), Step(c, s, e));
    case _ =>
  }

  lemma {:induction false} OtherStepsKeepHooks(c: Config, s: State, e: Event)
    requires Enabled(s, e) && !IsControl(e) && !e.StartContinues?
    ensures SameHooks(s, Step(c, s, e))
  {
    match e
    case PollTimerFires(t) => PollKeepsHooks(c, s.(chain := s.chain.(armed := s.chain.armed - {t})));
    case FetchSettles(i) => FetchKeepsHooks(c, s, i);
    case RequestSettles(id, ok) => ReplyKeepsHooks(s, id, s.books.jobs[id], ok);
    case _ =>
  }

  // ---- Whole runs ----

  ghost predicate IsRun(c: Config, s: State, es: seq<Event>)
    decreases |es|
  {
    es == [] || (Enabled(s, es[0]) && IsRun(c, Step(c, s, es[0]), es[1..]))
  }

  ghost function End(c: Config, s: State, es: seq<Event>): State
    requires IsRun(c, s, es)
    decreases |es|
  {
    if es == [] then s else End(c, Step(c, s, es[0]), es[1..])
  }

  ghost predicate AllInv(c: Config, s: State) {
    Inv(c, s) && Tallied(s.books) && Paced(c, s) && Hooked(c, s)
  }

  lemma {:induction false} AllInvInit(c: Config)
    ensures AllInv(c, FRESH)
  {
    InvInit(c);
    assert SettledBy(FRESH.books.jobs, Ack(true)) == SettledBy(FRESH.books.jobs, Nack(true))
        == SettledBy(FRESH.books.jobs, Nack(false)) == {};
  }

  lemma {:induction false} InvRun(c: Config, s: State, es: seq<Event>)
    requires AllInv(c, s) && IsRun(c, s, es)
    ensures AllInv(c, End(c, s, es))
    decreases |es|
  {
    if es != [] {
      InvStep(c, s, es[0]);
      TalliedStep(c, s, es[0]);
      PacedStep(c, s, es[0]);
      HookedStep(c, s, es[0]);
      InvRun(c, Step(c, s, es[0]), es[1..]);
    }
  }

  /** In every reachable state: one poll chain, alive while the worker runs; active jobs and requested slots
      within the concurrency; every delivery accounted for; as many completed jobs as deliveries that ended in a
      successful ack; the poll timer armed with the interval doubled once per consecutive failure, within the
      cap; and heartbeats exactly from the start's continuation to the stop, unless the stop came first. */
  lemma {:induction false} EveryReachableState(c: Config, es: seq<Event>)
    requires IsRun(c, FRESH, es)
    ensures var s := End(c, FRESH, es);
            && |s.chain.armed| + |s.chain.fetches| <= 1
            && (s.state == Running && !s.chain.starting ==> |s.chain.armed| + |s.chain.fetches| == 1)
            && (forall f <- s.chain.fetches :: f.InFlight? ==> 1 <= f.count <= MAX_FETCH)
            && |s.active| + Requested(s.chain.fetches) <= Max(c.concurrency, 0)
            && s.books.delivered == |Unsettled(s.books.jobs)|
                 + Tally(s.books, Ack(true)) + Tally(s.books, Nack(true)) + Tally(s.books, Nack(false))
            && s.books.delivered == |s.active| + |s.books.finished|
            && s.jobsCompleted == Tally(s.books, Ack(true))
            && (s.chain.armed != {} ==> Due(c, s.chain.delay, s.chain.failures))
            && Hooked(c, s) && Inv(c, s)
  {
    AllInvInit(c);
    InvRun(c, FRESH, es);
    var s := End(c, FRESH, es);
    assert |s.active| == |s.active.Keys| && |s.books.jobs| == |s.books.jobs.Keys|;
  }

  // ---- What a job sends follows what happened to it ----

  /** What a run tells of a job since its last delivery: whether it had a handler, how the handler ended, and how
      its requests were answered. */
  datatype Tale = Untold | Told(registered: bool, handler: Option<bool>, replies: seq<bool>)

  function Handed(ds: seq<Delivery>, id: Id): Option<bool> {
    if ds == [] then None else if Last(ds).id == id then Some(Last(ds).registered) else Handed(Front(ds), id)
  }

  function Hear(t: Tale, id: Id, e: Event): Tale {
    match e
    case FetchReplies(_, ds) => if Handed(ds, id).Some? then Told(Handed(ds, id).value, None, []) else t
    case HandlerSettles(x, ok) => if x == id && t.Told? then t.(handler := Some(ok)) else t
    case RequestSettles(x, ok) => if x == id && t.Told? then t.(replies := t.replies + [ok]) else t
    case _ => t
  }

  function TaleOf(past: seq<Event>, id: Id): Tale {
    if past == [] then Untold else Hear(TaleOf(Front(past), id), id, Last(past))
  }

  /** A job with a handler is executed, and sends nothing before its handler has ended; then it sends up to three
      acks if the handler returned, and nacks otherwise or after them. A job without one sends nacks only. */
  ghost predicate FollowsTale(t: Tale, job: Job) {
    && t.Told?
    && (job.stage.Executing? <==> t.registered && t.handler == None)
    && (job.stage.Executing? ==> job.requests == [])
    && (!t.registered ==> t.handler == None)
    && |job.requests| == |t.replies|
    && (forall i | 0 <= i < |t.replies| ::
          job.requests[i] == if t.handler == Some(true) && i < 3 then Ack(t.replies[i]) else Nack(t.replies[i]))
  }

  ghost predicate StageFits(t: Tale, job: Job)
    requires t.Told?
  {
    match job.stage
    case Executing => true
    case Acking(k) => t.handler == Some(true) && t.registered && |job.requests| == k < 3
    case Nacking(k, r) => r == t.registered && |job.requests| == k + if t.handler == Some(true) then 3 else 0
    case Settled(r) => r == t.registered
  }

  ghost predicate Follows(t: Tale, job: Job) {
    FollowsTale(t, job) && StageFits(t, job)
  }

  ghost predicate AllFollow(past: seq<Event>, s: State) {
    forall id <- s.books.jobs :: Follows(TaleOf(past, id), s.books.jobs[id])
  }

  lemma {:induction false} HandedIs(ds: seq<Delivery>, id: Id)
    ensures Handed(ds, id).Some? ==> Delivery(id, Handed(ds, id).value) in ds
    ensures Handed(ds, id).None? ==> forall d <- ds :: d.id != id
  {
    if ds != [] {
      HandedIs(Front(ds), id);
      assert ds == Front(ds) + [Last(ds)];
    }
  }

  lemma {:induction false} HandlerFollows(t: Tale, id: Id, job: Job, ok: bool)
    requires Follows(t, job) && job.stage.Executing?
    ensures Follows(Hear(t, id, HandlerSettles(id, ok)), job.(stage := if ok then Acking(0) else Nacking(0, true)))
  {
  }

  lemma {:induction false} ReplyFollows(t: Tale, id: Id, job: Job, ok: bool)
    requires Follows(t, job) && AwaitsReply(job.stage)
    ensures Follows(Hear(t, id, RequestSettles(id, ok)), AfterReply(job, ok))
  {
  }

  lemma {:induction false} DeliveryFollows(
    c: Config, past: seq<Event>, s: State, i: nat, ds: seq<Delivery>, id: Id)
    requires Balanced(s) && AllFollow(past, s) && Enabled(s, FetchReplies(i, ds))
    requires id in Step(c, s, FetchReplies(i, ds)).books.jobs
    ensures Follows(Hear(TaleOf(past, id), id, FetchReplies(i, ds)), Step(c, s, FetchReplies(i, ds)).books.jobs[id])
  {
    DeliveredJobs(SetFetch(s, i, Returned(|ds|)), ds);
    HandedIs(ds, id);
    if Handed(ds, id).None? {
      assert id in s.books.jobs;
    }
  }

  lemma {:induction false} HandlerEndFollows(c: Config, past: seq<Event>, s: State, x: Id, ok: bool, id: Id)
    requires AllFollow(past, s) && Enabled(s, HandlerSettles(x, ok)) && id in s.books.jobs
    ensures Follows(Hear(TaleOf(past, id), id, HandlerSettles(x, ok)), Step(c, s, HandlerSettles(x, ok)).books.jobs[id])
  {
    if x == id {
      HandlerFollows(TaleOf(past, id), id, s.books.jobs[id], ok);
    }
  }

  lemma {:induction false} ReplyStepFollows(c: Config, past: seq<Event>, s: State, x: Id, ok: bool, id: Id)
    requires AllFollow(past, s) && Enabled(s, RequestSettles(x, ok)) && id in s.books.jobs
    ensures Step(c, s, RequestSettles(x, ok)).books.jobs.Keys == s.books.jobs.Keys
    ensures Follows(Hear(TaleOf(past, id), id, RequestSettles(x, ok)), Step(c, s, RequestSettles(x, ok)).books.jobs[id])
  {
    ReplyBooks(s, x, ok);
    if x == id {
      ReplyFollows(TaleOf(past, id), id, s.books.jobs[id], ok);
    }
  }

  lemma {:induction false} FollowStep(c: Config, past: seq<Event>, s: State, e: Event, id: Id)
    requires Inv(c, s) && AllFollow(past, s) && Enabled(s, e) && id in Step(c, s, e).books.jobs
    ensures Follows(Hear(TaleOf(past, id), id, e), Step(c, s, e).books.jobs[id])
  {
    if e.FetchReplies? {
      DeliveryFollows(c, past, s, e.i, e.jobs, id);
    } else if e.HandlerSettles? {
      HandlerEndFollows(c, past, s, e.id, e.ok, id);
    } else if e.RequestSettles? {
      ReplyBooks(s, e.id, e.ok);
      ReplyStepFollows(c, past, s, e.id, e.ok, id);
    } else if e.JobFinishes? {
      assert Step(c, s, e) == Finally(s, e.id, s.books.jobs[e.id]);
    } else {
      OtherStepsKeepBooks(c, s, e);
    }
  }

  lemma {:induction false} RunFollows(c: Config, past: seq<Event>, s: State, es: seq<Event>)
    requires Inv(c, s) && AllFollow(past, s) && IsRun(c, s, es)
    ensures AllFollow(past + es, End(c, s, es))
    decreases |es|
  {
    if es == [] {
      assert past + es == past;
    } else {
      var e, more := es[0], past + [es[0]];
      InvStep(c, s, e);
      assert Front(more) == past;
      forall id <- Step(c, s, e).books.jobs
        ensures Follows(TaleOf(more, id), Step(c, s, e).books.jobs[id])
      {
        FollowStep(c, past, s, e, id);
      }
      RunFollows(c, more, Step(c, s, e), es[1..]);
      assert more + es[1..] == past + es;
    }
  }

  /** In every run, what a job being processed has sent is told by its handler's end and the replies; so only a
      job whose handler returned is acked, and a job with a handler sends nothing before its handler has ended. */
  lemma {:induction false} RequestsFollowHandler(c: Config, es: seq<Event>, id: Id)
    requires IsRun(c, FRESH, es) && id in End(c, FRESH, es).books.jobs
    ensures var t, job := TaleOf(es, id), End(c, FRESH, es).books.jobs[id];
            && FollowsTale(t, job)
            && (t.registered && t.handler == None ==> job == Job(Executing, []))
            && (forall r <- job.requests :: r.Ack? ==> t.handler == Some(true))
  {
    InvInit(c);
    RunFollows(c, [], FRESH, es);
    assert [] + es == es;
  }

  // ---- Delays and directives, step by step ----

  lemma {:induction false} ArmSets(s: State, delay: nat)
    ensures var t := Arm(s, delay);
            t.chain.armed != {} && t.chain.fetches == s.chain.fetches && t.chain.delay == delay
            && t.pollErrors == s.pollErrors && t.active == s.active
  {
    assert s.chain.nextTimer in Arm(s, delay).chain.armed;
  }

  /** The poll timer after each kind of fetch. */
  lemma {:induction false} ArmedAfterFetch(c: Config, s: State, i: nat)
    requires Inv(c, s) && Enabled(s, FetchSettles(i)) && s.state == Running
    ensures var t := Step(c, s, FetchSettles(i));
            && t.chain.armed != {} && t.chain.fetches == []
            && (s.chain.fetches[i].Returned? ==>
                  t.chain.delay == (if s.chain.fetches[i].jobs > 0 then 0 else c.pollInterval) && t.pollErrors == 0)
            && (s.chain.fetches[i].Failed? ==>
                  && t.chain.delay == Min(c.pollInterval * Pow2(s.pollErrors + 1), 30000)
                  && t.pollErrors == s.pollErrors + 1)
  {
    var f, t := s.chain.fetches[i], s.(chain := s.chain.(fetches := RemoveAt(s.chain.fetches, i)));
    assert s.chain.fetches == [f] && t.chain.fetches == [];
    if f.Returned? {
      ArmSets(t.(pollErrors := 0), if f.jobs > 0 then 0 else c.pollInterval);
    } else {
      ArmSets(t.(pollErrors := s.pollErrors + 1), Min(c.pollInterval * Pow2(s.pollErrors + 1), 30000));
    }
  }

  lemma {:induction false} PolledNext(c: Config, s: State)
    requires s.state == Running && s.chain.armed == {} && s.chain.fetches == []
    ensures var t := Poll(c, s);
            if |s.active| >= c.concurrency then
              t.chain.armed != {} && t.chain.delay == c.pollInterval && t.chain.fetches == []
            else t.chain.armed == {} && t.chain.fetches == [InFlight(Min(c.concurrency - |s.active|, 10))]
  {
    ArmSets(s, c.pollInterval);
  }

  /** What a poll does: a timer at capacity, and a fetch for the free slots otherwise. */
  lemma {:induction false} NextPoll(c: Config, s: State, e: Event)
    requires Inv(c, s) && Enabled(s, e) && s.state == Running && (e.PollTimerFires? || e.StartContinues?)
    ensures var t := Step(c, s, e);
            if |s.active| >= c.concurrency then
              t.chain.armed != {} && t.chain.delay == c.pollInterval && t.chain.fetches == []
            else t.chain.armed == {} && t.chain.fetches == [InFlight(Min(c.concurrency - |s.active|, 10))]
  {
    assert s.chain.fetches == [];
    if e.PollTimerFires? {
      ArmedAlone(s, e.timer);
      PolledNext(c, s.(chain := s.chain.(armed := s.chain.armed - {e.timer})));
    } else {
      assert s.chain.armed == {};
      PolledNext(c, Begun(c, s));
    }
  }

  lemma {:induction false} ArmedAlone(s: State, timer: nat)
    requires OneChain(s) && timer in s.chain.armed
    ensures s.chain.armed - {timer} == {}
  {
    assert |s.chain.armed| == 1;
    assert |s.chain.armed - {timer}| == 0;
  }

  lemma {:induction false} StopDirective(s: State)
    requires (forall t <- s.chain.armed :: s.pollTimer == Some(t)) && s.state != Terminate && s.state != Terminated
    ensures var t := Stop(s);
            && t.chain.armed == {} && !t.heartbeatTimer && !t.signalHandler && t.books == s.books
            && (if s.active == map[] then t.state == Terminated && t.halt.stop == Stopped
                else t.state == Terminate && t.halt == Halt(true, Waiting) && t.active == s.active)
  {
    ClearPollDisarms(Stopping(s));
    assert |s.active| == 0 <==> s.active == map[];
  }

  /** A quiet directive makes a running worker quiet and disarms its poll timer; a terminate directive stops a
      running or quiet one; every other directive changes nothing. */
  lemma {:induction false} HeartbeatDirectives(c: Config, s: State, directive: Option<Lifecycle>)
    requires Inv(c, s) && s.chain.started
    ensures var t := Step(c, s, HeartbeatReplies(directive));
            if directive == Some(Quiet) && s.state == Running then
              t == s.(state := Quiet, pollTimer := None, chain := s.chain.(armed := {}))
            else if directive == Some(Terminate) && (s.state == Running || s.state == Quiet) then
              && t.chain.armed == {} && !t.heartbeatTimer && !t.signalHandler && t.books == s.books
              && (if s.active == map[] then t.state == Terminated && t.halt.stop == Stopped
                  else t.state == Terminate && t.halt == Halt(true, Waiting) && t.active == s.active)
            else t == s
  {
    if directive == Some(Quiet) && s.state == Running {
      ClearPollDisarms(s.(state := Quiet));
    }
    if directive == Some(Terminate) && (s.state == Running || s.state == Quiet) {
      StopDirective(s);
    }
  }

  /** The poll timer never waits longer than the interval or the cap, whichever is longer. */
  lemma {:induction false} PollDelayBounded(c: Config, es: seq<Event>)
    requires IsRun(c, FRESH, es) && End(c, FRESH, es).chain.armed != {}
    ensures End(c, FRESH, es).chain.delay <= Max(c.pollInterval, MAX_BACKOFF_MS)
  {
    EveryReachableState(c, es);
  }

  /** A start that goes on after a stop sets its heartbeat timer and signal handlers for ever. */
  lemma {:induction false} LateStartStays(c: Config, s: State, es: seq<Event>)
    requires AllInv(c, s) && IsRun(c, s, es) && s.chain.lateStart
    ensures var t := End(c, s, es); t.heartbeatTimer && (c.handleSignals ==> t.signalHandler)
    decreases |es|
  {
    if es != [] {
      var t := Step(c, s, es[0]);
      InvStep(c, s, es[0]);
      TalliedStep(c, s, es[0]);
      PacedStep(c, s, es[0]);
      HookedStep(c, s, es[0]);
      LateStartStep(c, s, es[0]);
      LateStartStays(c, t, es[1..]);
    }
  }

  lemma {:induction false} LateStartStep(c: Config, s: State, e: Event)
    requires Inv(c, s) && Hooked(c, s) && Enabled(s, e) && s.chain.lateStart
    ensures Step(c, s, e).chain.lateStart
  {
    if !IsControl(e) && !e.StartContinues? {
      OtherStepsKeepHooks(c, s, e);
    }
  }

  lemma {:induction false} RunOn(c: Config, s: State, e: Event, es: seq<Event>)
    requires Enabled(s, e) && IsRun(c, Step(c, s, e), es)
    ensures IsRun(c, s, [e] + es) && End(c, s, [e] + es) == End(c, Step(c, s, e), es)
  {
    assert ([e] + es)[1..] == es;
  }

  /** It happens: stop the worker while its start still waits for the listeners of its first event. */
  lemma {:induction false} LateStartHappens(c: Config)
    ensures var es := [StartCalled, StopCalled, StartContinues];
            IsRun(c, FRESH, es) && End(c, FRESH, es).chain.lateStart && End(c, FRESH, es).state == Terminated
  {
  }

  const UNHANDLED := [Delivery("a", false)]

  /** Started, at its first fetch. */
  lemma {:induction false} Fetching(c: Config) returns (s: State)
    requires c.concurrency >= 1
    ensures forall es :: IsRun(c, s, es) ==>
              var all := [StartCalled, StartContinues] + es; IsRun(c, FRESH, all) && End(c, FRESH, all) == End(c, s, es)
    ensures s.state == Running && s.chain.started && s.active == map[] && s.books.jobs == map[]
    ensures s.chain.fetches == [InFlight(Min(c.concurrency, MAX_FETCH))]
  {
    var t := Step(c, FRESH, StartCalled);
    s := Step(c, t, StartContinues);
    assert |t.active| == 0;
    forall es | IsRun(c, s, es)
      ensures var all := [StartCalled, StartContinues] + es;
              IsRun(c, FRESH, all) && End(c, FRESH, all) == End(c, s, es)
    {
      RunOn(c, t, StartContinues, es);
      RunOn(c, FRESH, StartCalled, [StartContinues] + es);
      assert [StartCalled] + ([StartContinues] + es) == [StartCalled, StartContinues] + es;
    }
  }

  lemma {:induction false} WithOne<T>(m: map<Id, T>, d: Delivery, value: Delivery -> T)
    ensures With(m, [d], value) == m[d.id := value(d)]
  {
    assert Front([d]) == [];
  }

  lemma {:induction false} HandedUnhandled(c: Config, s: State)
    requires c.concurrency >= 1 && s.active == map[] && s.books.jobs == map[]
    requires s.chain.fetches == [InFlight(Min(c.concurrency, MAX_FETCH))]
    ensures Enabled(s, FetchReplies(0, UNHANDLED))
    ensures var t := Step(c, s, FetchReplies(0, UNHANDLED));
            && t.active == map["a" := false] && t.books.jobs == map["a" := Job(Nacking(0, false), [])]
            && t.state == s.state && t.chain.started == s.chain.started
  {
    assert Front(UNHANDLED) == [] && Last(UNHANDLED).id == "a" && s.active.Keys == {};
    assert NewIds(s.active.Keys, []) && Ids([]) == {};
    WithOne(s.active, UNHANDLED[0], d => false);
    WithOne(s.books.jobs, UNHANDLED[0], NewJob);
  }

  lemma {:induction false} StopWaits(s: State, id: Id)
    requires s.state == Running && s.active == map[id := false]
    ensures Stop(s).halt.stop == Waiting && Stop(s).active == s.active && Stop(s).books == s.books
  {
    assert |s.active| == 1;
  }

  /** A job without a handler, delivered before a stop and nacked after it, ends without waking the stop. */
  lemma {:induction false} LostWakeUpHappens(c: Config)
    requires c.concurrency >= 1
    ensures var es := [StartCalled, StartContinues]
                + [FetchReplies(0, UNHANDLED), StopCalled, RequestSettles("a", true), JobFinishes("a")];
            IsRun(c, FRESH, es) && End(c, FRESH, es).halt.stop == Waiting && End(c, FRESH, es).active == map[]
  {
    var s1 := Fetching(c);
    HandedUnhandled(c, s1);
    var s2 := Step(c, s1, FetchReplies(0, UNHANDLED));
    StopWaits(s2, "a");
    var s3 := Step(c, s2, StopCalled);
    UnhandledEnds(c, s3);
    RunOn(c, s2, StopCalled, [RequestSettles("a", true), JobFinishes("a")]);
    RunOn(c, s1, FetchReplies(0, UNHANDLED), [StopCalled] + [RequestSettles("a", true), JobFinishes("a")]);
    assert [FetchReplies(0, UNHANDLED)] + ([StopCalled] + [RequestSettles("a", true), JobFinishes("a")])
        == [FetchReplies(0, UNHANDLED), StopCalled, RequestSettles("a", true), JobFinishes("a")];
  }

  lemma {:induction false} UnhandledEnds(c: Config, s: State)
    requires s.active == map["a" := false] && s.books.jobs == map["a" := Job(Nacking(0, false), [])]
    requires s.halt.stop == Waiting
    ensures var es := [RequestSettles("a", true), JobFinishes("a")];
            IsRun(c, s, es) && End(c, s, es).halt.stop == Waiting && End(c, s, es).active == map[]
  {
  }

  /** A job's requests never go on after one succeeded, nacks follow acks only when all acks failed, and there
      are at most six of them. */
  lemma {:induction false} NothingAfterSuccess(stage: Stage, w: seq<Request>)
    requires Sent(stage, w)
    ensures |w| <= 2 * MAX_TRIES
    ensures forall i, j | 0 <= i < j < |w| :: !w[i].ok && (w[j].Ack? ==> w[i].Ack?)
    ensures forall j | 0 <= j < |w| && w[j].Nack? ::
              w[0].Nack? || (j >= MAX_TRIES && forall i | 0 <= i < MAX_TRIES :: w[i] == Ack(false))
  {
    if stage.Settled? && Nacked(w) && !Acked(w) {
      var k: nat :| k < MAX_TRIES && Refused(Front(w), k);
      assert w == Front(w) + [Last(w)];
    } else if stage.Settled? && Acked(w) {
      assert w == Front(w) + [Last(w)];
    }
  }

  function Rank(state: Lifecycle): nat {
    match state
    case Running => 0
    case Quiet => 1
    case Terminate => 2
    case Terminated => 3
  }

  ghost predicate SameControl(s: State, t: State) {
    t.state == s.state && t.halt.stop == s.halt.stop && t.chain.started == s.chain.started
  }

  lemma {:induction false} PollKeepsControl(c: Config, s: State, n: nat)
    ensures SameControl(s, Poll(c, s)) && SameControl(s, OnFetched(c, s, n)) && SameControl(s, OnFetchError(c, s))
  {
  }

  lemma {:induction false} OtherStepsKeepControl(c: Config, s: State, e: Event)
    requires Enabled(s, e) && !IsControl(e)
    ensures SameControl(s, Step(c, s, e))
  {
    match e
    case StartContinues => PollKeepsControl(c, Begun(c, s), 0);
    case PollTimerFires(t) => PollKeepsControl(c, s.(chain := s.chain.(armed := s.chain.armed - {t})), 0);
    case FetchSettles(i) =>
      PollKeepsControl(c, s.(chain := s.chain.(fetches := RemoveAt(s.chain.fetches, i))),
                       if s.chain.fetches[i].Returned? then s.chain.fetches[i].jobs else 0);
    case _ =>
  }

  lemma {:induction false} RankStep(c: Config, s: State, e: Event)
    requires Enabled(s, e) && s.chain.started
    ensures Rank(Step(c, s, e).state) >= Rank(s.state) && Step(c, s, e).chain.started
  {
    if !IsControl(e) {
      OtherStepsKeepControl(c, s, e);
    } else {
      ControlRank(c, s, e);
    }
  }

  lemma {:induction false} StopsRank(s: State, directive: Option<Lifecycle>)
    ensures Rank(Stop(s).state) >= Rank(s.state) && Stop(s).chain.started == s.chain.started
    ensures var t := OnHeartbeat(s, directive);
            Rank(t.state) >= Rank(s.state) && t.chain.started == s.chain.started
  {
  }

  lemma {:induction false} ControlRank(c: Config, s: State, e: Event)
    requires Enabled(s, e) && s.chain.started && IsControl(e)
    ensures Rank(Step(c, s, e).state) >= Rank(s.state) && Step(c, s, e).chain.started
  {
    match e
    case StopCalled => StopsRank(s, None);
    case HeartbeatReplies(d) => StopsRank(s, d);
    case _ =>
  }

  /** Once the worker has left the running state it never fetches again; only what is in flight can still
      deliver, and no more than it asked for. */
  lemma {:induction false} LateArrivalsBounded(c: Config, s: State, es: seq<Event>)
    requires Inv(c, s) && IsRun(c, s, es) && s.chain.started && s.state != Running
    ensures var t := End(c, s, es);
            && t.books.delivered + Requested(t.chain.fetches) <= s.books.delivered + Requested(s.chain.fetches)
            && |t.chain.fetches| <= |s.chain.fetches| <= 1
            && Rank(t.state) >= Rank(s.state)
    decreases |es|
  {
    if es != [] {
      InvStep(c, s, es[0]);
      RankStep(c, s, es[0]);
      LateStep(c, s, es[0]);
      LateArrivalsBounded(c, Step(c, s, es[0]), es[1..]);
    }
  }

  lemma {:induction false} LateStep(c: Config, s: State, e: Event)
    requires Inv(c, s) && Enabled(s, e) && s.chain.started && s.state != Running
    ensures var t := Step(c, s, e);
            && t.books.delivered + Requested(t.chain.fetches) <= s.books.delivered + Requested(s.chain.fetches)
            && |t.chain.fetches| <= |s.chain.fetches|
  {
    if e.FetchReplies? || e.FetchFails? || e.FetchSettles? {
      LateFetchStep(c, s, e);
    } else {
      OtherStepsDeliverNothing(c, s, e);
    }
  }

  lemma {:induction false} LateFetchStep(c: Config, s: State, e: Event)
    requires OneChain(s) && Enabled(s, e) && s.chain.started && s.state != Running
    requires e.FetchReplies? || e.FetchFails? || e.FetchSettles?
    ensures var t := Step(c, s, e);
            && t.books.delivered + Requested(t.chain.fetches) <= s.books.delivered + Requested(s.chain.fetches)
            && |t.chain.fetches| <= |s.chain.fetches|
  {
  }

  ghost predicate SameDeliveries(s: State, t: State) {
    t.books.delivered == s.books.delivered && t.chain.fetches == s.chain.fetches
  }

  lemma {:induction false} StopDeliversNothing(s: State, directive: Option<Lifecycle>)
    ensures SameDeliveries(s, Stop(s)) && SameDeliveries(s, OnHeartbeat(s, directive))
  {
  }

  lemma {:induction false} JobStepDeliversNothing(c: Config, s: State, e: Event)
    requires Enabled(s, e) && (e.HandlerSettles? || e.RequestSettles? || e.JobFinishes? || e.JobTimesOut?)
    ensures SameDeliveries(s, Step(c, s, e))
  {
  }

  lemma {:induction false} OtherStepsDeliverNothing(c: Config, s: State, e: Event)
    requires Enabled(s, e) && s.chain.started && s.state != Running
    requires !e.FetchReplies? && !e.FetchFails? && !e.FetchSettles?
    ensures SameDeliveries(s, Step(c, s, e))
  {
    match e
    case HeartbeatReplies(d) => StopDeliversNothing(s, d);
    case StopCalled => StopDeliversNothing(s, None);
    case HandlerSettles(_, _) => JobStepDeliversNothing(c, s, e);
    case RequestSettles(_, _) => JobStepDeliversNothing(c, s, e);
    case JobFinishes(_) => JobStepDeliversNothing(c, s, e);
    case JobTimesOut(_) => JobStepDeliversNothing(c, s, e);
    case _ =>
  }

  /** The step that terminates the worker has aborted every job still active. */
  lemma {:induction false} TerminationAborts(c: Config, s: State, e: Event)
    requires Enabled(s, e) && s.state != Terminated && Step(c, s, e).state == Terminated
    ensures forall id <- Step(c, s, e).active :: Step(c, s, e).active[id]
    ensures e.StopResumes? || s.active == map[]
  {
    if !IsControl(e) {
      OtherStepsKeepControl(c, s, e);
    }
  }

  /** What wakes a waiting stop: the end of the last active job, if that job had a handler; the end of a job
      without one leaves the stop to its grace timer. */
  lemma {:induction false} FinishWakesIff(c: Config, s: State, id: Id)
    requires Inv(c, s) && s.halt.stop == Waiting && Enabled(s, JobFinishes(id))
    ensures Step(c, s, JobFinishes(id)).halt.stop == Woken <==>
            s.active.Keys == {id} && HasHandler(s.books.jobs[id].stage)
  {
    var left := s.active - {id};
    assert left.Keys == s.active.Keys - {id};
    assert |left| == 0 <==> left.Keys == {};
  }

  // ---- A waiting stop completes ----

  ghost predicate IsInfiniteRun(c: Config, run: nat -> State, sched: nat -> Event) {
    && run(0) == FRESH
    && forall i: nat :: Enabled(run(i), sched(i)) && run(i + 1) == Step(c, run(i), sched(i))
  }

  ghost predicate Taken(run: nat -> State, sched: nat -> Event, e: Event, j: nat) {
    sched(j) == e || !Enabled(run(j), e)
  }

  ghost predicate TakenAfter(run: nat -> State, sched: nat -> Event, e: Event, i: nat) {
    exists j: nat :: i <= j && Taken(run, sched, e, j)
  }

  /** A timer or a resolved promise that stays ready is not passed over for ever. */
  ghost predicate Fair(run: nat -> State, sched: nat -> Event, e: Event) {
    forall i: nat :: TakenAfter(run, sched, e, i)
  }

  lemma {:induction false} InvAlways(c: Config, run: nat -> State, sched: nat -> Event, i: nat)
    requires IsInfiniteRun(c, run, sched)
    ensures Inv(c, run(i))
  {
    if i == 0 {
      InvInit(c);
    } else {
      InvAlways(c, run, sched, i - 1);
      InvStep(c, run(i - 1), sched(i - 1));
      assert run((i - 1) + 1) == Step(c, run(i - 1), sched(i - 1));
    }
  }

  function StopRank(stop: StopState): nat {
    match stop
    case NotStopped => 0
    case Waiting => 1
    case Woken => 2
    case Stopped => 3
  }

  lemma {:induction false} StopRankStep(c: Config, s: State, e: Event)
    requires StopCompletes(s) && Enabled(s, e)
    ensures StopRank(Step(c, s, e).halt.stop) >= StopRank(s.halt.stop)
  {
    if !IsControl(e) {
      OtherStepsKeepControl(c, s, e);
    }
  }

  lemma {:induction false} StopRankGrows(c: Config, run: nat -> State, sched: nat -> Event, i: nat, j: nat)
    requires IsInfiniteRun(c, run, sched) && i <= j
    ensures StopRank(run(i).halt.stop) <= StopRank(run(j).halt.stop)
  {
    if i < j {
      StopRankGrows(c, run, sched, i, j - 1);
      InvAlways(c, run, sched, j - 1);
      StopRankStep(c, run(j - 1), sched(j - 1));
      assert run((j - 1) + 1) == Step(c, run(j - 1), sched(j - 1));
    }
  }

  /** Where a stop stands, once the step at j has been taken. */
  lemma {:induction false} StopAt(c: Config, run: nat -> State, sched: nat -> Event, e: Event, j: nat)
    requires IsInfiniteRun(c, run, sched) && Taken(run, sched, e, j) && (e == GraceFires || e == StopResumes)
    ensures e == GraceFires && run(j).halt.stop == Waiting ==> run(j + 1).halt.stop == Woken
    ensures e == StopResumes && run(j).halt.stop == Woken ==> run(j + 1).halt.stop == Stopped
    ensures run(j).halt.stop == Stopped ==> run(j).state == Terminated
  {
    InvAlways(c, run, sched, j);
    assert run(j + 1) == Step(c, run(j), sched(j));
  }

  lemma {:induction false} GraceWakes(c: Config, run: nat -> State, sched: nat -> Event, i: nat) returns (j: nat)
    requires IsInfiniteRun(c, run, sched) && Fair(run, sched, GraceFires) && run(i).halt.stop == Waiting
    ensures i <= j && StopRank(run(j).halt.stop) >= 2
  {
    assert TakenAfter(run, sched, GraceFires, i);
    j :| i <= j && Taken(run, sched, GraceFires, j);
    StopRankGrows(c, run, sched, i, j);
    StopRankGrows(c, run, sched, j, j + 1);
    StopAt(c, run, sched, GraceFires, j);
    j := j + 1;
  }

  lemma {:induction false} WokenStops(c: Config, run: nat -> State, sched: nat -> Event, i: nat) returns (k: nat)
    requires IsInfiniteRun(c, run, sched) && Fair(run, sched, StopResumes) && StopRank(run(i).halt.stop) >= 2
    ensures i <= k && run(k).halt.stop == Stopped
  {
    assert TakenAfter(run, sched, StopResumes, i);
    k :| i <= k && Taken(run, sched, StopResumes, k);
    StopRankGrows(c, run, sched, i, k);
    StopAt(c, run, sched, StopResumes, k);
    k := if run(k).halt.stop == Stopped then k else k + 1;
  }

  /** No lost wake-up: in every fair run a stop that waits gets to the terminated state. */
  lemma {:induction false} WaitingStopCompletes(c: Config, run: nat -> State, sched: nat -> Event, i: nat)
    returns (k: nat)
    requires IsInfiniteRun(c, run, sched) && Fair(run, sched, GraceFires) && Fair(run, sched, StopResumes)
    requires run(i).halt.stop == Waiting
    ensures i <= k && run(k).state == Terminated
  {
    var j := GraceWakes(c, run, sched, i);
    k := WokenStops(c, run, sched, j);
    InvAlways(c, run, sched, k);
  }
}
