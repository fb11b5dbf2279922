/**
 The life of one transaction, from InitTransaction to CloseTransaction and beyond, as a transition system:
 the host, the callPlugins goroutines, the local Process goroutines, the handlers of the NATS results and
 the waiters of the async model plugins interleave in every possible way.

 The host calls Init, then a script of Analyze and Check, then Close, one after the other, with at most one
 Analyze per plugin type. The plugins are functions; a published request yields at most one result, which
 may be lost; a timer may fire at any time if it is configured.
 */
module Transaction {
  import opened Common
  import opened Payload
  import opened Dispatch

  /** ModelResults. */
  datatype ModelResults = ModelResults(probAttack: real, data: string)

  type Outcome = Result<ModelResults, ()>

  datatype HostOp =
    | Analyze(t: int, payload: HttpPayload, models: seq<ModelId>)
    | Check

  /**
   What stays fixed while the transaction is open: the configuration, the host's script, the plugins and the network.
   */
  datatype Env = Env(
    conf: Config,
    fold: Fold,
    script: seq<HostOp>,
    loaded: map<ModelId, int>,                      // the type of each loaded model plugin
    process: (ModelId, HttpPayload) -> Outcome,     // ModelPlugin.Process
    remote: (ModelId, HttpPayload) -> Outcome,      // the answer of an async or remote model plugin
    sends: (nat, nat) -> bool)                      // whether call i of script operation r can be encoded and published

  /** A status sent by the call at position job. */
  datatype Status = Status(job: nat, out: Outcome)

  datatype Wait = NotWaiting | Waiting | Done

  /** A status channel with its wait loop: got is what the loop has received, timeouts what it has recorded as late. */
  datatype Chan = Chan(cap: nat, buf: seq<Status>, got: seq<Status>, timeouts: nat, wait: Wait)

  /** How far a call is. */
  datatype Phase =
    | Pending                  // not dispatched yet
    | Running                  // its goroutine runs the plugin
    | Published                // its request is in the queue
    | Replied(out: Outcome)    // its result message is in the results queue
    | Computed(out: Outcome)   // Process succeeded, the transaction is not looked up yet
    | Found(out: Outcome)      // the transaction was found, the result is not stored yet
    | Ready(out: Outcome)      // the status is about to be sent
    | Finished(out: Outcome)   // the status has been sent
    | Silent                   // it will never send a status

  datatype RunPc = Scheduled | Counted | AsyncAdded | Dispatching(next: nat) | Awaiting | Returned

  /** One callPlugins goroutine and everything it started. */
  datatype Run = Run(
    jobs: seq<Job>,
    pc: RunPc,
    phases: seq<Phase>,
    sync: Chan,
    async: Chan,
    syncAdded: bool,     // the sync channel is in the transaction's channels
    asyncAdded: bool,    // the async channel is in the registry
    expired: bool,       // the deadline of the sync context has passed
    asyncExpired: bool,  // the deadline of the async context has passed
    cut: set<nat>)       // calls whose own plugin context ended before they did

  datatype HostPc =
    | Start | HalfInit
    | At(k: nat)       // about to run operation k of the script
    | Waited(k: nat)   // in operation k, a Check, after the wait
    | Closing          // in Close, after the wait
    | Removed          // the plugin manager has dropped the transaction
    | Closed

  datatype State = State(
    host: HostPc,
    wg: int,                                            // the counter of the transaction's wait group
    analysis: bool,                                     // the transaction is in analysisMap
    present: bool,                                      // the transaction is in syncTxs
    results: map<ModelId, ModelResults>,
    runs: map<nat, Run>,                                // by the position of their Analyze in the script
    checks: map<nat, Option<map<ModelId, ModelResults>>>) // what each Check handed to the decision plugins

  datatype Step =
    | HostStep
    | RunStep(r: nat)
    | JobStep(r: nat, i: nat)
    | Receive(r: nat, k: Kind)       // the wait loop receives a status
    | GiveUp(r: nat, k: Kind)        // the wait loop sees its context expired
    | Expire(r: nat, k: Kind)        // the deadline of a wait loop passes
    | Unregister(r: nat)             // the async waiter, after its loop, removes the channel from the registry
    | Abort(r: nat, i: nat)          // the plugin returns an error because its context ended
    | Lose(r: nat, i: nat)           // a request or a result is lost in NATS

  // --------------------------------------------------------------------------------------------
  // Steps of a run
  // --------------------------------------------------------------------------------------------

  function ChanOf(run: Run, k: Kind): Chan {
    if k == AsyncKind then run.async else run.sync
  }

  function WithChan(run: Run, k: Kind, c: Chan): Run {
    if k == AsyncKind then run.(async := c) else run.(sync := c)
  }

  function ExpiredOf(run: Run, k: Kind): bool {
    if k == AsyncKind then run.asyncExpired else run.expired
  }

  function KindAt(run: Run, i: nat): Kind
    requires i < |run.jobs|
  {
    KindOf(run.jobs[i].mode)
  }

  predicate HasRoom(c: Chan) {
    |c.buf| < c.cap
  }

  /** The result a call computes if nothing interrupts it. */
  function OutcomeOf(env: Env, t: int, job: Job): Outcome {
    if job.mode.Local? then
      if job.id in env.loaded && env.loaded[job.id] == t then env.process(job.id, job.payload) else Err(())
    else env.remote(job.id, job.payload)
  }

  function Send(run: Run, i: nat, out: Outcome): Run
    requires i < |run.jobs| && i < |run.phases|
  {
    var k := KindAt(run, i);
    var c := ChanOf(run, k);
    WithChan(run, k, c.(buf := c.buf + [Status(i, out)])).(phases := run.phases[i := Finished(out)])
  }

  /** One iteration of the dispatch pass. A failed sendToQueue sends its status at once, and needs room for it. */
  predicate CanDispatch(env: Env, r: nat, run: Run, i: nat)
    requires i < |run.jobs|
  {
    (run.jobs[i].mode.Async? || run.jobs[i].mode.Remote?) && !env.sends(r, i) ==> HasRoom(ChanOf(run, KindAt(run, i)))
  }

  function Dispatched(env: Env, r: nat, run: Run, i: nat): Run
    requires i < |run.jobs| && |run.phases| == |run.jobs|
  {
    match run.jobs[i].mode
    case Local => run.(phases := run.phases[i := Running])
    case Training => run.(phases := run.phases[i := Running])
    case _ => if env.sends(r, i) then run.(phases := run.phases[i := Published]) else Send(run, i, Err(()))
  }

  /** callPlugins, one step at a time; t is the type of its Analyze, present whether syncTxs has the transaction. */
  ghost function RunNext(env: Env, r: nat, run: Run, present: bool): Run
    requires |run.phases| == |run.jobs|
    requires run.pc.Dispatching? && run.pc.next < |run.jobs| ==> CanDispatch(env, r, run, run.pc.next)
  {
    match run.pc
    case Scheduled =>
      // the counting pass makes the channels
      run.(pc := Counted,
           async := run.async.(cap := |Reporters(run.jobs, AsyncKind)|),
           sync := run.sync.(cap := |Reporters(run.jobs, SyncKind)|))
    case Counted => run.(pc := AsyncAdded, asyncAdded := run.async.cap > 0)
    case AsyncAdded => run.(pc := Dispatching(0), syncAdded := run.sync.cap > 0 && present)
    case Dispatching(i) =>
      if i < |run.jobs| then Dispatched(env, r, run, i).(pc := Dispatching(i + 1))
      else
        // start the waiter of the async model plugins, if any, and then wait for the sync ones
        run.(pc := Awaiting,
             async := run.async.(wait := if run.async.cap > 0 then Waiting else Done),
             sync := run.sync.(wait := Waiting))
    case Awaiting => run.(pc := Returned)
    case Returned => run
  }

  ghost predicate RunCanStep(env: Env, r: nat, run: Run) {
    && |run.phases| == |run.jobs|
    && !run.pc.Returned?
    && (run.pc.Dispatching? && run.pc.next < |run.jobs| ==> CanDispatch(env, r, run, run.pc.next))
    && (run.pc.Awaiting? ==> run.sync.wait.Done?)
  }

  /** The next phase of a call, and the result it stores, if any. */
  function JobNext(env: Env, t: int, run: Run, i: nat, present: bool): (Phase, Option<ModelResults>)
    requires i < |run.jobs| && i < |run.phases|
  {
    var job := run.jobs[i];
    match run.phases[i]
    case Running =>
      if job.mode.Training? then (Silent, None)
      else
        var out := OutcomeOf(env, t, job);
        (if out.Ok? then Computed(out) else Ready(out), None)
    case Published => (Replied(OutcomeOf(env, t, job)), None)
    case Replied(out) =>
      // handleModelResult finds the channel of the model's type, in the registry or in the transaction
      if job.mode.Async? then (if run.asyncAdded then Ready(out) else Silent, None)
      else if !present || !run.syncAdded then (Silent, None)
      else (if out.Ok? then Found(out) else Ready(out), None)
    case Computed(out) => (if present then Found(out) else Ready(Err(())), None)
    case Found(out) => (Ready(out), if out.Ok? then Some(out.value) else None)
    case p => (p, None)
  }

  /** A local Process blocks until its status fits in the channel; a handler drops a status that does not fit. */
  predicate JobCanStep(run: Run, i: nat) {
    && i < |run.jobs| && |run.phases| == |run.jobs|
    && match run.phases[i]
       case Pending => false
       case Finished(_) => false
       case Silent => false
       case Ready(_) => run.jobs[i].mode.Local? ==> HasRoom(ChanOf(run, KindAt(run, i)))
       case _ => true
  }

  function AfterJobStep(env: Env, t: int, run: Run, i: nat, present: bool): Run
    requires JobCanStep(run, i)
  {
    match run.phases[i]
    case Ready(out) =>
      if HasRoom(ChanOf(run, KindAt(run, i))) then Send(run, i, out) else run.(phases := run.phases[i := Silent])
    case _ => run.(phases := run.phases[i := JobNext(env, t, run, i, present).0])
  }

  predicate CanReceive(run: Run, k: Kind) {
    !k.NoKind? && ChanOf(run, k).wait.Waiting? && |ChanOf(run, k).got| < ChanOf(run, k).cap && ChanOf(run, k).buf != []
  }

  function Received(run: Run, k: Kind): Run
    requires CanReceive(run, k)
  {
    var c := ChanOf(run, k);
    WithChan(run, k, c.(buf := c.buf[1..], got := c.got + [c.buf[0]]))
  }

  /** The loop ends once it has received every status, or when its context has expired and it takes that branch. */
  predicate CanGiveUp(run: Run, k: Kind) {
    var c := ChanOf(run, k);
    !k.NoKind? && c.wait.Waiting? && (|c.got| == c.cap || ExpiredOf(run, k))
  }

  function GivenUp(run: Run, k: Kind): Run
    requires CanGiveUp(run, k)
  {
    var c := ChanOf(run, k);
    WithChan(run, k, c.(wait := Done, timeouts := if |c.got| < c.cap then c.cap - |c.got| else 0))
  }

  predicate CanExpire(env: Env, k: Kind) {
    (k.SyncKind? && env.conf.modelTimeout > 0) || (k.AsyncKind? && env.conf.asyncModelTimeout > 0)
  }

  function Expired(run: Run, k: Kind): Run {
    if k.AsyncKind? then run.(asyncExpired := true) else run.(expired := true)
  }

  /** A plugin call ends early only because the sync deadline passed or its own timeout did. */
  predicate CanAbort(env: Env, run: Run, i: nat) {
    && i < |run.jobs| && |run.phases| == |run.jobs|
    && ((run.jobs[i].mode.Local? && run.phases[i].Running?) || run.phases[i].Published?)
    && ((run.jobs[i].mode.Local? && run.expired)
        || (run.jobs[i].id in env.conf.models && env.conf.models[run.jobs[i].id].timeout > 0))
  }

  function Aborted(run: Run, i: nat): Run
    requires i < |run.jobs| && |run.phases| == |run.jobs|
  {
    run.(phases := run.phases[i := if run.phases[i].Published? then Replied(Err(())) else Ready(Err(()))],
        cut := run.cut + {i})
  }

  predicate CanLose(run: Run, i: nat) {
    i < |run.jobs| && |run.phases| == |run.jobs| && (run.phases[i].Published? || run.phases[i].Replied?)
  }

  // --------------------------------------------------------------------------------------------
  // Steps of the whole system
  // --------------------------------------------------------------------------------------------

  /** Operation r of the script starts a callPlugins goroutine. */
  predicate StartsRun(env: Env, r: nat) {
    r < |env.script| && env.script[r].Analyze? && env.script[r].models != [] && ValidType(env.script[r].t)
  }

  /** The host analyzes each type at most once. */
  ghost predicate OneAnalyzePerType(env: Env) {
    forall r: nat, q: nat | StartsRun(env, r) && StartsRun(env, q) && env.script[r].t == env.script[q].t :: r == q
  }

  ghost function PlanOf(env: Env, r: nat): seq<Job>
    requires StartsRun(env, r)
  {
    Plan(env.conf, env.fold, env.script[r].models, env.script[r].t, env.script[r].payload)
  }

  const NO_CHAN: Chan := Chan(0, [], [], 0, NotWaiting)

  ghost function NewRun(env: Env, r: nat): Run
    requires StartsRun(env, r)
  {
    var jobs := PlanOf(env, r);
    Run(jobs, Scheduled, seq(|jobs|, i => Pending), NO_CHAN, NO_CHAN, false, false, false, false, {})
  }

  ghost predicate HostCanStep(env: Env, s: State) {
    match s.host
    case At(k) => (k < |env.script| && !env.script[k].Check?) || s.wg == 0
    case Closed => false
    case _ => true
  }

  ghost function HostNext(env: Env, s: State): State {
    match s.host
    case Start => s.(host := HalfInit, analysis := true)
    case HalfInit => s.(host := At(0), present := true, results := map[])
    case At(k) =>
      if k >= |env.script| then s.(host := Closing)
      else if env.script[k].Check? then s.(host := Waited(k))
      else if StartsRun(env, k) then
        s.(host := At(k + 1), analysis := true, wg := s.wg + 1, runs := s.runs[k := NewRun(env, k)])
      else s.(host := At(k + 1))
    case Waited(k) =>
      s.(host := At(k + 1), checks := s.checks[k := if s.present then Some(s.results) else None])
    case Closing => s.(host := Removed, present := false)
    case Removed => s.(host := Closed, analysis := false)
    case Closed => s
  }

  function SetRun(s: State, r: nat, run: Run): State {
    s.(runs := s.runs[r := run])
  }

  ghost predicate CanStep(env: Env, s: State, step: Step) {
    match step
    case HostStep => HostCanStep(env, s)
    case RunStep(r) => r in s.runs && RunCanStep(env, r, s.runs[r])
    case JobStep(r, i) => r in s.runs && JobCanStep(s.runs[r], i)
    case Receive(r, k) => r in s.runs && CanReceive(s.runs[r], k)
    case GiveUp(r, k) => r in s.runs && CanGiveUp(s.runs[r], k)
    case Expire(r, k) => r in s.runs && CanExpire(env, k)
    case Unregister(r) => r in s.runs && s.runs[r].async.wait.Done?
    case Abort(r, i) => r in s.runs && CanAbort(env, s.runs[r], i)
    case Lose(r, i) => r in s.runs && CanLose(s.runs[r], i)
  }

  /** The type of the Analyze that started run r. */
  function TypeOf(env: Env, r: nat): int {
    if r < |env.script| && env.script[r].Analyze? then env.script[r].t else 0
  }

  ghost function Next(env: Env, s: State, step: Step): State
    requires CanStep(env, s, step)
  {
    match step
    case HostStep => HostNext(env, s)
    case RunStep(r) =>
      var run := s.runs[r];
      if run.pc.Scheduled? && !s.analysis then SetRun(s, r, run.(pc := Returned))  // not found in analysisMap: no Done
      else
        var done := SetRun(s, r, RunNext(env, r, run, s.present));
        if run.pc.Awaiting? then done.(wg := s.wg - 1) else done
    case JobStep(r, i) =>
      var run := s.runs[r];
      var stored := JobNext(env, TypeOf(env, r), run, i, s.present).1;
      var moved := SetRun(s, r, AfterJobStep(env, TypeOf(env, r), run, i, s.present));
      if stored.Some? then moved.(results := s.results[run.jobs[i].id := stored.value]) else moved
    case Receive(r, k) => SetRun(s, r, Received(s.runs[r], k))
    case GiveUp(r, k) => SetRun(s, r, GivenUp(s.runs[r], k))
    case Expire(r, k) => SetRun(s, r, Expired(s.runs[r], k))
    case Unregister(r) => SetRun(s, r, s.runs[r].(asyncAdded := false))
    case Abort(r, i) => SetRun(s, r, Aborted(s.runs[r], i))
    case Lose(r, i) => SetRun(s, r, s.runs[r].(phases := s.runs[r].phases[i := Silent]))
  }

  ghost predicate Init(s: State) {
    s == State(Start, 0, false, false, map[], map[], map[])
  }

  // --------------------------------------------------------------------------------------------
  // The invariant of one run
  // --------------------------------------------------------------------------------------------

  /** The result call i of operation r contributes to the transaction if its status arrives. */
  function Delivers(env: Env, r: nat, t: int, job: Job, i: nat): Option<ModelResults> {
    var out := OutcomeOf(env, t, job);
    if out.Ok? && (job.mode.Local? || env.sends(r, i)) then Some(out.value) else None
  }

  /** An outcome on its way is the call's own; it may be an error instead if its context ended. */
  predicate OutcomeOk(env: Env, r: nat, t: int, run: Run, i: nat, out: Outcome)
    requires i < |run.jobs|
  {
    match out
    case Ok(v) => Delivers(env, r, t, run.jobs[i], i) == Some(v)
    case Err(_) => Delivers(env, r, t, run.jobs[i], i).None? || i in run.cut || run.expired
  }

  predicate PhaseOk(env: Env, r: nat, t: int, run: Run, i: nat)
    requires i < |run.jobs| && i < |run.phases|
  {
    var mode := run.jobs[i].mode;
    match run.phases[i]
    case Pending => true
    case Running => mode.Local? || mode.Training?
    case Published => (mode.Async? || mode.Remote?) && env.sends(r, i)
    case Replied(out) => (mode.Async? || mode.Remote?) && env.sends(r, i) && OutcomeOk(env, r, t, run, i, out)
    case Computed(out) => mode.Local? && out.Ok? && OutcomeOk(env, r, t, run, i, out)
    case Found(out) => (mode.Local? || mode.Remote?) && out.Ok? && OutcomeOk(env, r, t, run, i, out)
    case Ready(out) => !mode.Training? && OutcomeOk(env, r, t, run, i, out)
    case Finished(out) => !mode.Training? && OutcomeOk(env, r, t, run, i, out)
    case Silent => mode.Training? || (!mode.Local? && env.sends(r, i))
  }

  /** The calls that report on the channel of kind k and have sent their status. */
  ghost function FinishedJobs(run: Run, k: Kind): set<nat> {
    set i: nat | i < |run.jobs| && i < |run.phases| && KindAt(run, i) == k && run.phases[i].Finished?
  }

  /** The statuses of a channel, received or not, are those of its finished calls, each exactly once. */
  ghost predicate StatusesOk(run: Run, k: Kind) {
    var all := ChanOf(run, k).got + ChanOf(run, k).buf;
    && |all| == |FinishedJobs(run, k)|
    && (forall a | 0 <= a < |all| ::
          all[a].job in FinishedJobs(run, k) && run.phases[all[a].job] == Finished(all[a].out))
    && (forall a, b | 0 <= a < b < |all| :: all[a].job != all[b].job)
  }

  predicate Dispatches(pc: RunPc) {
    pc.Dispatching? || pc.Awaiting? || pc.Returned?
  }

  ghost predicate ChanOk(run: Run, k: Kind) {
    var c := ChanOf(run, k);
    && (run.pc.Scheduled? ==> c == NO_CHAN)
    && (!run.pc.Scheduled? ==> c.cap == |Reporters(run.jobs, k)|)
    && StatusesOk(run, k)
    && (c.wait.NotWaiting? <==> !run.pc.Awaiting? && !run.pc.Returned?)
    && (!c.wait.Done? ==> c.timeouts == 0)
    && (c.wait.Done? ==> |c.got| + c.timeouts == c.cap)
    && (c.timeouts > 0 ==> ExpiredOf(run, k))
  }

  ghost predicate PcOk(run: Run) {
    && |run.phases| == |run.jobs|
    && (forall i | 0 <= i < |run.jobs| && run.phases[i].Pending? ::
          run.pc.Scheduled? || run.pc.Counted? || run.pc.AsyncAdded? || (run.pc.Dispatching? && run.pc.next <= i))
    && (forall i | 0 <= i < |run.jobs| && !run.phases[i].Pending? ::
          Dispatches(run.pc) && (run.pc.Dispatching? ==> i < run.pc.next))
    && (run.pc.Dispatching? ==> run.pc.next <= |run.jobs|)
    && (run.pc.Returned? ==> run.sync.wait.Done?)
    && (Dispatches(run.pc) ==> run.syncAdded == (run.sync.cap > 0))
    && (run.pc.AsyncAdded? || run.pc.Dispatching? || run.async.wait.Waiting? ==> run.asyncAdded == (run.async.cap > 0))
  }

  ghost predicate RunOk(env: Env, r: nat, run: Run) {
    && StartsRun(env, r)
    && run.jobs == PlanOf(env, r)
    && PcOk(run)
    && (forall i | 0 <= i < |run.jobs| :: PhaseOk(env, r, TypeOf(env, r), run, i))
    && ChanOk(run, SyncKind)
    && ChanOk(run, AsyncKind)
  }

  /** A successful status that is about to be sent, or has been, belongs to a stored result. */
  ghost predicate StoredOk(run: Run, results: map<ModelId, ModelResults>) {
    forall i | 0 <= i < |run.jobs| && i < |run.phases| && KindAt(run, i) == SyncKind &&
               (run.phases[i].Ready? || run.phases[i].Finished?) && run.phases[i].out.Ok? ::
      run.jobs[i].id in results && results[run.jobs[i].id] == run.phases[i].out.value
  }

  // --------------------------------------------------------------------------------------------
  // Steps of one run keep its invariant
  // --------------------------------------------------------------------------------------------

  /** Changes that leave a channel and its finished calls alone. */
  lemma ChanFrame(run: Run, run': Run, k: Kind)
    requires ChanOk(run, k)
    requires run'.jobs == run.jobs && |run'.phases| == |run.phases|
    requires forall i | 0 <= i < |run.phases| && (run.phases[i].Finished? || run'.phases[i].Finished?) ::
        run'.phases[i] == run.phases[i]
    requires ChanOf(run', k) == ChanOf(run, k)
    requires run'.pc.Scheduled? == run.pc.Scheduled?
    requires (run'.pc.Awaiting? || run'.pc.Returned?) == (run.pc.Awaiting? || run.pc.Returned?)
    requires ExpiredOf(run, k) ==> ExpiredOf(run', k)
    ensures ChanOk(run', k)
  {
    hide KindOf, ChanOf, ExpiredOf, Reporters;
    assert FinishedJobs(run', k) == FinishedJobs(run, k);
  }

  /** No blocked sender: while a call has not sent its status, its channel has room for it. */
  lemma RoomToSend(run: Run, i: nat)
    requires PcOk(run) && i < |run.jobs| && !run.phases[i].Finished?
    requires !KindAt(run, i).NoKind? && ChanOk(run, KindAt(run, i)) && !run.pc.Scheduled?
    ensures HasRoom(ChanOf(run, KindAt(run, i)))
  {
    hide KindOf, ChanOf;
    var k := KindAt(run, i);
    var done, all := FinishedJobs(run, k), Reporters(run.jobs, k);
    assert done <= all - {i} && i in all;
    Smaller(done, all, i);
  }

  lemma {:induction false} SubsetSize(a: set<nat>, b: set<nat>)
    requires a <= b
    ensures |a| <= |b|
    decreases |a|
  {
    if x :| x in a {
      SubsetSize(a - {x}, b - {x});
    } else {
      assert a == {};
    }
  }

  lemma Smaller(a: set<nat>, b: set<nat>, i: nat)
    requires a <= b - {i} && i in b
    ensures |a| < |b|
  {
    SubsetSize(a, b - {i});
  }

  /** The statuses stay those of the finished calls when no call moves and none is sent. */
  lemma SameStatuses(run: Run, run': Run, k: Kind)
    requires StatusesOk(run, k) && run'.jobs == run.jobs && run'.phases == run.phases
    requires ChanOf(run', k).got + ChanOf(run', k).buf == ChanOf(run, k).got + ChanOf(run, k).buf
    ensures StatusesOk(run', k)
  {
    hide KindOf, ChanOf;
    assert FinishedJobs(run', k) == FinishedJobs(run, k);
  }

  lemma SentFinished(run: Run, i: nat, out: Outcome, k: Kind)
    requires |run.phases| == |run.jobs| && i < |run.jobs| && !run.phases[i].Finished? && k == KindAt(run, i)
    ensures FinishedJobs(Send(run, i, out), k) == FinishedJobs(run, k) + {i} && i !in FinishedJobs(run, k)
  {
    hide KindOf, ChanOf, WithChan, Send;
    SentChan(run, i, out);
  }

  lemma SendStatuses(run: Run, i: nat, out: Outcome)
    requires |run.phases| == |run.jobs| && i < |run.jobs| && !run.phases[i].Finished?
    requires StatusesOk(run, KindAt(run, i))
    ensures StatusesOk(Send(run, i, out), KindAt(run, i))
  {
    hide KindOf, ChanOf, WithChan, Send;
    var k, run' := KindAt(run, i), Send(run, i, out);
    SentChan(run, i, out);
    SentFinished(run, i, out, k);
    var all, all' := ChanOf(run, k).got + ChanOf(run, k).buf, ChanOf(run', k).got + ChanOf(run', k).buf;
    assert forall a | 0 <= a < |all| :: all'[a] == all[a] && all[a].job != i;
  }

  lemma SentChan(run: Run, i: nat, out: Outcome)
    requires |run.phases| == |run.jobs| && i < |run.jobs|
    ensures var k, run' := KindAt(run, i), Send(run, i, out);
            && ChanOf(run', k).got + ChanOf(run', k).buf == ChanOf(run, k).got + ChanOf(run, k).buf + [Status(i, out)]
            && run'.jobs == run.jobs && run'.phases == run.phases[i := Finished(out)]
  {
  }

  /** A call sends its status. */
  lemma SendKeepsChans(run: Run, i: nat, out: Outcome)
    requires PcOk(run) && i < |run.jobs| && !run.phases[i].Finished? && Dispatches(run.pc)
    requires !KindAt(run, i).NoKind?
    requires ChanOk(run, SyncKind) && ChanOk(run, AsyncKind)
    ensures ChanOk(Send(run, i, out), SyncKind) && ChanOk(Send(run, i, out), AsyncKind)
  {
    hide KindOf;
    var k, run' := KindAt(run, i), Send(run, i, out);
    SendStatuses(run, i, out);
    OtherStatuses(run, run', i, if k.AsyncKind? then SyncKind else AsyncKind);
  }

  /** A call of another kind leaves the statuses alone. */
  lemma OtherStatuses(run: Run, run': Run, i: nat, k: Kind)
    requires StatusesOk(run, k) && |run.phases| == |run.jobs| && i < |run.jobs| && KindAt(run, i) != k
    requires run'.jobs == run.jobs && ChanOf(run', k) == ChanOf(run, k)
    requires |run'.phases| == |run.phases| && forall j | 0 <= j < |run.phases| && j != i ::
        run'.phases[j] == run.phases[j]
    ensures StatusesOk(run', k)
  {
    hide KindOf, ChanOf;
    assert FinishedJobs(run', k) == FinishedJobs(run, k);
  }

  /** Whether a call's phase is acceptable depends on the call, its phase and the deadlines only. */
  lemma PhaseFrame(env: Env, r: nat, run: Run, run': Run, j: nat)
    requires j < |run.jobs| && j < |run.phases| && PhaseOk(env, r, TypeOf(env, r), run, j)
    requires run'.jobs == run.jobs && j < |run'.phases| && run'.phases[j] == run.phases[j]
    requires run.cut <= run'.cut && (run.expired ==> run'.expired)
    ensures PhaseOk(env, r, TypeOf(env, r), run', j)
  {
  }

  lemma SamePhases(env: Env, r: nat, run: Run, run': Run)
    requires forall i | 0 <= i < |run.jobs| && i < |run.phases| :: PhaseOk(env, r, TypeOf(env, r), run, i)
    requires run'.jobs == run.jobs && run'.phases == run.phases && run'.cut == run.cut && (run.expired ==> run'.expired)
    ensures forall i | 0 <= i < |run.jobs| && i < |run.phases| :: PhaseOk(env, r, TypeOf(env, r), run', i)
  {
    hide PhaseOk;
    forall i | 0 <= i < |run.jobs| && i < |run.phases|
      ensures PhaseOk(env, r, TypeOf(env, r), run', i)
    {
      PhaseFrame(env, r, run, run', i);
    }
  }

  /** A dispatched call moves on without sending its status. */
  lemma MoveKeepsRun(env: Env, r: nat, run: Run, run': Run, i: nat)
    requires RunOk(env, r, run) && i < |run.jobs| && !run.phases[i].Finished? && !run.phases[i].Pending?
    requires run' == run.(phases := run'.phases, cut := run'.cut) && |run'.phases| == |run.phases|
    requires forall j | 0 <= j < |run.jobs| && j != i :: run'.phases[j] == run.phases[j]
    requires run.cut <= run'.cut
    requires PhaseOk(env, r, TypeOf(env, r), run', i) && !run'.phases[i].Finished? && !run'.phases[i].Pending?
    ensures RunOk(env, r, run')
  {
    hide KindOf, ChanOk, Delivers, PlanOf, StartsRun;
    ChanFrame(run, run', SyncKind);
    ChanFrame(run, run', AsyncKind);
    forall j | 0 <= j < |run.jobs| && j != i
      ensures PhaseOk(env, r, TypeOf(env, r), run', j)
    {
      PhaseFrame(env, r, run, run', j);
    }
  }

  /** A dispatched call sends its status. */
  lemma SendKeepsRun(env: Env, r: nat, run: Run, i: nat, out: Outcome)
    requires RunOk(env, r, run) && i < |run.jobs| && !run.phases[i].Finished? && !run.phases[i].Pending?
    requires !run.jobs[i].mode.Training? && OutcomeOk(env, r, TypeOf(env, r), run, i, out)
    ensures RunOk(env, r, Send(run, i, out))
  {
    hide ChanOk, Delivers, PlanOf, StartsRun, Send;
    var run' := Send(run, i, out);
    SendShape(run, i, out);
    SendKeepsChans(run, i, out);
    forall j | 0 <= j < |run.jobs| && j != i
      ensures PhaseOk(env, r, TypeOf(env, r), run', j)
    {
      PhaseFrame(env, r, run, run', j);
    }
  }

  /** A sync call that has not sent its status when callPlugins returns has been given up after the deadline. */
  lemma UnfinishedMeansExpired(run: Run, i: nat)
    requires PcOk(run) && ChanOk(run, SyncKind) && run.pc.Returned?
    requires i < |run.jobs| && KindAt(run, i) == SyncKind && !run.phases[i].Finished?
    ensures run.expired
  {
    hide KindOf;
    var done, all := FinishedJobs(run, SyncKind), Reporters(run.jobs, SyncKind);
    assert done <= all - {i} && i in all;
    Smaller(done, all, i);
  }

  /** A step of a worker or of a handler. */
  lemma JobStepKeepsRun(env: Env, r: nat, run: Run, i: nat, present: bool)
    requires RunOk(env, r, run) && JobCanStep(run, i)
    requires present || run.pc.Returned?
    ensures RunOk(env, r, AfterJobStep(env, TypeOf(env, r), run, i, present))
  {
    hide ChanOk, PlanOf, StartsRun;
    var t := TypeOf(env, r);
    var run' := AfterJobStep(env, t, run, i, present);
    assert PhaseOk(env, r, t, run, i);
    if run.phases[i].Ready? {
      RoomToSend(run, i);
      SendKeepsRun(env, r, run, i, run.phases[i].out);
    } else {
      if run.phases[i].Computed? && !present {
        UnfinishedMeansExpired(run, i);
      }
      MoveKeepsRun(env, r, run, run', i);
    }
  }

  lemma AbortKeepsRun(env: Env, r: nat, run: Run, i: nat)
    requires RunOk(env, r, run) && CanAbort(env, run, i)
    ensures RunOk(env, r, Aborted(run, i))
  {
    hide ChanOk, PlanOf, StartsRun;
    assert PhaseOk(env, r, TypeOf(env, r), run, i);
    MoveKeepsRun(env, r, run, Aborted(run, i), i);
  }

  lemma LoseKeepsRun(env: Env, r: nat, run: Run, i: nat)
    requires RunOk(env, r, run) && CanLose(run, i)
    ensures RunOk(env, r, run.(phases := run.phases[i := Silent]))
  {
    hide ChanOk, PlanOf, StartsRun;
    assert PhaseOk(env, r, TypeOf(env, r), run, i);
    MoveKeepsRun(env, r, run, run.(phases := run.phases[i := Silent]), i);
  }

  /** The wait loop receives the oldest status. */
  lemma ReceiveKeepsRun(env: Env, r: nat, run: Run, k: Kind)
    requires RunOk(env, r, run) && CanReceive(run, k)
    ensures RunOk(env, r, Received(run, k))
  {
    hide PlanOf, StartsRun, KindOf, Delivers, StatusesOk;
    var run' := Received(run, k);
    var c, c' := ChanOf(run, k), ChanOf(run', k);
    assert c'.got + c'.buf == c.got + c.buf;
    SameStatuses(run, run', k);
    SamePhases(env, r, run, run');
    OtherChan(run, run', k);
  }

  lemma OtherChan(run: Run, run': Run, k: Kind)
    requires !k.NoKind? && ChanOk(run, if k.AsyncKind? then SyncKind else AsyncKind)
    requires run' == WithChan(run, k, ChanOf(run', k))
    ensures ChanOk(run', if k.AsyncKind? then SyncKind else AsyncKind)
  {
    ChanFrame(run, run', if k.AsyncKind? then SyncKind else AsyncKind);
  }

  lemma GiveUpKeepsRun(env: Env, r: nat, run: Run, k: Kind)
    requires RunOk(env, r, run) && CanGiveUp(run, k)
    ensures RunOk(env, r, GivenUp(run, k))
  {
    hide PlanOf, StartsRun, KindOf, Delivers, StatusesOk;
    var run' := GivenUp(run, k);
    SamePhases(env, r, run, run');
    OtherChan(run, run', k);
    ReceivedAtMostCap(run, k);
    SameStatuses(run, run', k);
  }

  /** Never more statuses than the channel was made for. */
  lemma ReceivedAtMostCap(run: Run, k: Kind)
    requires PcOk(run) && ChanOk(run, k)
    ensures |ChanOf(run, k).got| + |ChanOf(run, k).buf| <= ChanOf(run, k).cap
  {
    hide KindOf;
    if run.pc.Scheduled? {
    } else {
      SubsetSize(FinishedJobs(run, k), Reporters(run.jobs, k));
    }
  }

  lemma ExpireKeepsRun(env: Env, r: nat, run: Run, k: Kind)
    requires RunOk(env, r, run)
    ensures RunOk(env, r, Expired(run, k))
  {
    hide PlanOf, StartsRun, KindOf, Delivers, ChanOk;
    SamePhases(env, r, run, Expired(run, k));
    ChanFrame(run, Expired(run, k), SyncKind);
    ChanFrame(run, Expired(run, k), AsyncKind);
  }

  lemma UnregisterKeepsRun(env: Env, r: nat, run: Run)
    requires RunOk(env, r, run) && run.async.wait.Done?
    ensures RunOk(env, r, run.(asyncAdded := false))
  {
    hide PlanOf, StartsRun, KindOf, Delivers, StatusesOk;
    SamePhases(env, r, run, run.(asyncAdded := false));
    ChanFrame(run, run.(asyncAdded := false), SyncKind);
    ChanFrame(run, run.(asyncAdded := false), AsyncKind);
  }

  /** The steps of callPlugins. */
  lemma CountKeepsRun(env: Env, r: nat, run: Run)
    requires RunOk(env, r, run) && run.pc.Scheduled?
    ensures RunOk(env, r, RunNext(env, r, run, true))
  {
    hide PlanOf, StartsRun, Delivers, KindOf, PhaseOk;
    SamePhases(env, r, run, RunNext(env, r, run, true));
  }

  lemma AddKeepsRun(env: Env, r: nat, run: Run)
    requires RunOk(env, r, run) && (run.pc.Counted? || run.pc.AsyncAdded?)
    ensures RunOk(env, r, RunNext(env, r, run, true))
  {
    hide PlanOf, StartsRun, PhaseOk, ChanOk;
    var run' := RunNext(env, r, run, true);
    SamePhases(env, r, run, run');
    ChanFrame(run, run', SyncKind);
    ChanFrame(run, run', AsyncKind);
    assert run'.sync == run.sync && run'.async == run.async;
  }

  lemma AwaitKeepsRun(env: Env, r: nat, run: Run)
    requires RunOk(env, r, run) && run.pc.Dispatching? && run.pc.next == |run.jobs|
    ensures RunOk(env, r, RunNext(env, r, run, true))
  {
    hide PlanOf, StartsRun, KindOf, Delivers, StatusesOk;
    var run' := RunNext(env, r, run, true);
    SamePhases(env, r, run, run');
    ReceivedAtMostCap(run, AsyncKind);
    SameStatuses(run, run', SyncKind);
    SameStatuses(run, run', AsyncKind);
  }

  lemma ReturnKeepsRun(env: Env, r: nat, run: Run)
    requires RunOk(env, r, run) && run.pc.Awaiting? && run.sync.wait.Done?
    ensures RunOk(env, r, RunNext(env, r, run, true))
  {
    hide PlanOf, StartsRun, KindOf, Delivers, ChanOk;
    var run' := RunNext(env, r, run, true);
    SamePhases(env, r, run, run');
    ChanFrame(run, run', SyncKind);
    ChanFrame(run, run', AsyncKind);
  }

  /** A call is dispatched without a status: its goroutine starts or its request is published. */
  lemma StartKeepsRun(env: Env, r: nat, run: Run, p: Phase)
    requires RunOk(env, r, run) && run.pc.Dispatching? && run.pc.next < |run.jobs|
    requires !p.Finished? && !p.Pending?
    requires var i := run.pc.next;
             PhaseOk(env, r, TypeOf(env, r), run.(phases := run.phases[i := p]), i)
    ensures RunOk(env, r, run.(phases := run.phases[run.pc.next := p], pc := Dispatching(run.pc.next + 1)))
  {
    hide PlanOf, StartsRun, KindOf, Delivers, ChanOk;
    var i := run.pc.next;
    var run' := run.(phases := run.phases[i := p], pc := Dispatching(i + 1));
    assert run.phases[i].Pending?;
    ChanFrame(run, run', SyncKind);
    ChanFrame(run, run', AsyncKind);
    forall j | 0 <= j < |run.jobs| && j != i
      ensures PhaseOk(env, r, TypeOf(env, r), run', j)
    {
      PhaseFrame(env, r, run, run', j);
    }
  }

  /** A call whose request cannot be sent reports it from the dispatch pass. */
  lemma FailedSendKeepsRun(env: Env, r: nat, run: Run)
    requires RunOk(env, r, run) && run.pc.Dispatching? && run.pc.next < |run.jobs|
    requires !env.sends(r, run.pc.next) && !run.jobs[run.pc.next].mode.Local? && !run.jobs[run.pc.next].mode.Training?
    ensures RunOk(env, r, Send(run, run.pc.next, Err(())).(pc := Dispatching(run.pc.next + 1)))
  {
    hide PlanOf, StartsRun, ChanOk, PhaseOk, Delivers, Send;
    var i := run.pc.next;
    var sent := Send(run, i, Err(()));
    SendShape(run, i, Err(()));
    var run' := sent.(pc := Dispatching(i + 1));
    assert run.phases[i].Pending?;
    SendKeepsChans(run, i, Err(()));
    ChanFrame(sent, run', SyncKind);
    ChanFrame(sent, run', AsyncKind);
    FailedPhase(env, r, run', i);
    forall j | 0 <= j < |run.jobs| && j != i
      ensures PhaseOk(env, r, TypeOf(env, r), run', j)
    {
      PhaseFrame(env, r, run, run', j);
    }
  }

  lemma FailedPhase(env: Env, r: nat, run: Run, i: nat)
    requires i < |run.jobs| && i < |run.phases| && run.phases[i] == Finished(Err(()))
    requires !env.sends(r, i) && !run.jobs[i].mode.Local? && !run.jobs[i].mode.Training?
    ensures PhaseOk(env, r, TypeOf(env, r), run, i)
  {
  }

  lemma DispatchKeepsRun(env: Env, r: nat, run: Run)
    requires RunOk(env, r, run) && run.pc.Dispatching? && run.pc.next < |run.jobs|
    requires CanDispatch(env, r, run, run.pc.next)
    ensures RunOk(env, r, RunNext(env, r, run, true))
  {
    hide RunOk, Send, HasRoom, Delivers;
    var i := run.pc.next;
    DispatchedAll(env, r, run);
    match run.jobs[i].mode
    case Local => StartKeepsRun(env, r, run, Running);
    case Training => StartKeepsRun(env, r, run, Running);
    case _ =>
      if env.sends(r, i) {
        StartKeepsRun(env, r, run, Published);
      } else {
        FailedSendKeepsRun(env, r, run);
      }
  }

  lemma DispatchedAll(env: Env, r: nat, run: Run)
    requires RunOk(env, r, run) && run.pc.Dispatching?
    ensures run.pc.next <= |run.jobs| && |run.phases| == |run.jobs|
  {
  }

  lemma RunStepKeepsRun(env: Env, r: nat, run: Run)
    requires RunOk(env, r, run) && RunCanStep(env, r, run)
    ensures RunOk(env, r, RunNext(env, r, run, true))
  {
    hide RunOk;
    match run.pc
    case Scheduled => CountKeepsRun(env, r, run);
    case Counted => AddKeepsRun(env, r, run);
    case AsyncAdded => AddKeepsRun(env, r, run);
    case Dispatching(i) =>
      if i < |run.jobs| {
        DispatchKeepsRun(env, r, run);
      } else {
        DispatchedAll(env, r, run);
        AwaitKeepsRun(env, r, run);
      }
    case Awaiting => ReturnKeepsRun(env, r, run);
  }

  // --------------------------------------------------------------------------------------------
  // The invariant of the system
  // --------------------------------------------------------------------------------------------

  /** Call i of operation r contributes v as the result of model id, if nothing interrupts it. */
  ghost predicate Contributes(env: Env, r: nat, i: nat, id: ModelId, v: ModelResults) {
    && StartsRun(env, r)
    && i < |PlanOf(env, r)|
    && KindOf(PlanOf(env, r)[i].mode) == SyncKind
    && PlanOf(env, r)[i].id == id
    && Delivers(env, r, TypeOf(env, r), PlanOf(env, r)[i], i) == Some(v)
  }

  /** Every result of m comes from a call of one of the operations. */
  ghost predicate Sound(env: Env, ops: set<nat>, m: map<ModelId, ModelResults>) {
    forall id | id in m :: exists r, i :: r in ops && Contributes(env, r, i, id, m[id])
  }

  /** m has the result of every contributing call of run r that ran to its end. */
  ghost predicate Complete(env: Env, r: nat, run: Run, m: map<ModelId, ModelResults>) {
    forall i, id, v | Contributes(env, r, i, id, v) && i !in run.cut && !run.expired :: id in m && m[id] == v
  }

  /** The operations before k that start a callPlugins goroutine. */
  ghost function Started(env: Env, k: nat): set<nat> {
    set r: nat | r < k && StartsRun(env, r)
  }

  ghost predicate AllReturned(s: State) {
    forall r | r in s.runs :: s.runs[r].pc.Returned?
  }

  ghost function LiveRuns(s: State): set<nat> {
    set r | r in s.runs && !s.runs[r].pc.Returned?
  }

  /** How many operations of the script the host has run. */
  function Progress(env: Env, host: HostPc): nat {
    match host
    case Start => 0
    case HalfInit => 0
    case At(k) => k
    case Waited(k) => k
    case _ => |env.script|
  }

  ghost predicate HostOk(env: Env, s: State) {
    && s.runs.Keys == Started(env, Progress(env, s.host))
    && Progress(env, s.host) <= |env.script|
    && (forall k | k in s.checks :: k < Progress(env, s.host))
    && match s.host
       case Start => s.results == map[]
       case HalfInit => s.analysis && s.results == map[]
       case At(_) => s.analysis && s.present
       case Waited(k) => s.analysis && s.present && AllReturned(s) && k < |env.script| && env.script[k].Check?
       case Closing => s.analysis && s.present && AllReturned(s)
       case Removed => s.analysis && !s.present && AllReturned(s)
       case Closed => AllReturned(s)
  }

  /** What a Check at position k handed over: sound, and complete up to the calls of its runs that were cut short. */
  ghost predicate CheckOk(env: Env, s: State, k: nat)
    requires k in s.checks
  {
    && s.checks[k].Some?
    && Sound(env, Started(env, k), s.checks[k].value)
    && (forall r | r in s.runs && r < k :: Complete(env, r, s.runs[r], s.checks[k].value))
  }

  ghost predicate Inv(env: Env, s: State) {
    && HostOk(env, s)
    && s.wg == |LiveRuns(s)|
    && (forall r | r in s.runs :: RunOk(env, r, s.runs[r]) && StoredOk(s.runs[r], s.results))
    && Sound(env, s.runs.Keys, s.results)
    && (forall k | k in s.checks :: CheckOk(env, s, k))
  }

  lemma InitInv(env: Env, s: State)
    requires Init(s)
    ensures Inv(env, s)
  {
  }

  /** A goroutine that has not returned finds the transaction in both maps. */
  lemma LiveRunFindsTransaction(env: Env, s: State, r: nat)
    requires HostOk(env, s) && r in s.runs && !s.runs[r].pc.Returned?
    ensures s.analysis && s.present
  {
  }

  /** Two calls of the same model contribute the same result: a model has one type, and a type one Analyze. */
  lemma SameContribution(env: Env, r: nat, i: nat, q: nat, j: nat, id: ModelId, v: ModelResults, w: ModelResults)
    requires OneAnalyzePerType(env)
    requires Contributes(env, r, i, id, v) && Contributes(env, q, j, id, w)
    ensures r == q && v == w
  {
    hide OutcomeOf, PayloadFor;
    PlanIds(env, r, i);
    PlanIds(env, q, j);
  }

  lemma PlanIds(env: Env, r: nat, i: nat)
    requires StartsRun(env, r) && i < |PlanOf(env, r)|
    ensures var id := PlanOf(env, r)[i].id;
            && id in env.conf.models && env.conf.models[id].ptype == env.script[r].t
            && PlanOf(env, r)[i] == JobFor(env.conf, env.fold, id, env.script[r].payload)
  {
    var ids := Kept(env.conf, env.script[r].models, env.script[r].t);
    assert ids[i] in ids;
  }

  /** A new result that a call contributes agrees with every stored one. */
  lemma StoreKeepsStored(env: Env, s: State, r: nat, i: nat, id: ModelId, v: ModelResults, q: nat)
    requires OneAnalyzePerType(env) && Inv(env, s) && q in s.runs
    requires Contributes(env, r, i, id, v)
    ensures StoredOk(s.runs[q], s.results[id := v])
  {
    hide Contributes, Delivers, PlanOf, PhaseOk;
    var run := s.runs[q];
    forall j | 0 <= j < |run.jobs| && j < |run.phases| && KindAt(run, j) == SyncKind &&
               (run.phases[j].Ready? || run.phases[j].Finished?) && run.phases[j].out.Ok?
      ensures run.jobs[j].id in s.results[id := v] && s.results[id := v][run.jobs[j].id] == run.phases[j].out.value
    {
      if run.jobs[j].id == id {
        SuccessContributes(env, q, run, j);
        SameContribution(env, r, i, q, j, id, v, run.phases[j].out.value);
      }
    }
  }

  lemma SuccessContributes(env: Env, r: nat, run: Run, i: nat)
    requires RunOk(env, r, run) && i < |run.jobs| && KindAt(run, i) == SyncKind
    requires (run.phases[i].Found? || run.phases[i].Ready? || run.phases[i].Finished?) && run.phases[i].out.Ok?
    ensures Contributes(env, r, i, run.jobs[i].id, run.phases[i].out.value)
  {
    hide Delivers, ChanOk;
    assert PhaseOk(env, r, TypeOf(env, r), run, i);
  }

  lemma ChecksFrame(env: Env, s: State, s': State, k: nat)
    requires k in s.checks && k in s'.checks && s'.checks[k] == s.checks[k] && CheckOk(env, s, k)
    requires forall r | r in s'.runs && r < k ::
               r in s.runs && s.runs[r].cut <= s'.runs[r].cut && (s.runs[r].expired ==> s'.runs[r].expired)
    ensures CheckOk(env, s', k)
  {
  }

  /** A step of one run that keeps that run's invariant and only adds sound results. */
  lemma RunUpdateKeepsInv(env: Env, s: State, r: nat, run': Run, results': map<ModelId, ModelResults>)
    requires Inv(env, s) && r in s.runs
    requires RunOk(env, r, run') && StoredOk(run', results')
    requires run'.pc.Returned? == s.runs[r].pc.Returned?
    requires s.runs[r].cut <= run'.cut && (s.runs[r].expired ==> run'.expired)
    requires forall q | q in s.runs && q != r :: StoredOk(s.runs[q], results')
    requires Sound(env, s.runs.Keys, results') && (s.host.Start? || s.host.HalfInit? ==> results' == s.results)
    ensures Inv(env, SetRun(s, r, run').(results := results'))
  {
    hide RunOk, StoredOk, Sound, CheckOk, Contributes;
    var s' := SetRun(s, r, run').(results := results');
    assert s'.runs.Keys == s.runs.Keys;
    assert LiveRuns(s') == LiveRuns(s);
    forall k | k in s'.checks
      ensures CheckOk(env, s', k)
    {
      ChecksFrame(env, s, s', k);
    }
  }

  /** What a run has stored does not depend on anything but its calls and their phases. */
  lemma StoredFrame(run: Run, run': Run, results: map<ModelId, ModelResults>)
    requires StoredOk(run, results) && run'.jobs == run.jobs && |run'.phases| == |run.phases|
    requires forall i | 0 <= i < |run.phases| && (run'.phases[i].Ready? || run'.phases[i].Finished?)
        && run'.phases[i].out.Ok? :: run'.phases[i] == run.phases[i]
    ensures StoredOk(run', results)
  {
  }

  /** Steps of a run that neither store a result nor make a call succeed. */
  lemma QuietStepKeepsInv(env: Env, s: State, r: nat, run': Run)
    requires Inv(env, s) && r in s.runs && RunOk(env, r, run')
    requires run'.pc.Returned? == s.runs[r].pc.Returned?
    requires s.runs[r].cut <= run'.cut && (s.runs[r].expired ==> run'.expired)
    requires run'.jobs == s.runs[r].jobs && |run'.phases| == |s.runs[r].phases|
    requires forall i | 0 <= i < |run'.phases| && (run'.phases[i].Ready? || run'.phases[i].Finished?)
        && run'.phases[i].out.Ok? :: run'.phases[i] == s.runs[r].phases[i]
    ensures Inv(env, SetRun(s, r, run'))
  {
    hide RunOk, Sound, CheckOk, StoredOk;
    StoredFrame(s.runs[r], run', s.results);
    RunUpdateKeepsInv(env, s, r, run', s.results);
    assert SetRun(s, r, run').(results := s.results) == SetRun(s, r, run');
  }

  /** The status of a stored result is sent; the phase of any other call stays. */
  lemma JobStepStored(env: Env, t: int, run: Run, i: nat, present: bool, results: map<ModelId, ModelResults>)
    requires JobCanStep(run, i) && StoredOk(run, results) && (run.phases[i].Computed? ==> run.phases[i].out.Ok?)
    requires run.phases[i].Replied? ==> KindAt(run, i) != NoKind
    requires var v := JobNext(env, t, run, i, present).1;
             v.Some? ==> run.jobs[i].id in results && results[run.jobs[i].id] == v.value
    ensures StoredOk(AfterJobStep(env, t, run, i, present), results)
  {
    hide HasRoom, OutcomeOf;
    var run' := AfterJobStep(env, t, run, i, present);
    JobPhase(env, t, run, i, present);
    forall j | 0 <= j < |run'.jobs| && j < |run'.phases| && KindAt(run', j) == SyncKind &&
               (run'.phases[j].Ready? || run'.phases[j].Finished?) && run'.phases[j].out.Ok?
      ensures run'.jobs[j].id in results && results[run'.jobs[j].id] == run'.phases[j].out.value
    {
      assert run'.phases[j] == run.phases[j] || j == i;
    }
  }

  /** Where a worker's step takes its call. */
  lemma JobPhase(env: Env, t: int, run: Run, i: nat, present: bool)
    requires JobCanStep(run, i)
    ensures var run' := AfterJobStep(env, t, run, i, present);
            && run'.jobs == run.jobs
            && run'.phases == run.phases[i := run'.phases[i]]
            && (!run.phases[i].Ready? ==> run'.phases[i] == JobNext(env, t, run, i, present).0)
            && (run.phases[i].Ready? ==> run'.phases[i] == Silent || run'.phases[i] == Finished(run.phases[i].out))
  {
    hide HasRoom, KindOf, JobNext;
  }

  lemma JobStepKeepsInv(env: Env, s: State, r: nat, i: nat)
    requires OneAnalyzePerType(env) && Inv(env, s) && CanStep(env, s, JobStep(r, i))
    ensures Inv(env, Next(env, s, JobStep(r, i)))
  {
    hide RunOk, StoredOk, Sound, CheckOk, Contributes, OutcomeOf, PhaseOk, AfterJobStep;
    var run, t := s.runs[r], TypeOf(env, r);
    var run' := AfterJobStep(env, t, run, i, s.present);
    if !run.pc.Returned? {
      LiveRunFindsTransaction(env, s, r);
    }
    JobStepKeepsRun(env, r, run, i, s.present);
    JobFrame(env, r, run, i, s.present);
    var stored := JobNext(env, t, run, i, s.present).1;
    var results' := if stored.Some? then s.results[run.jobs[i].id := stored.value] else s.results;
    if stored.Some? {
      FoundIsSync(env, r, run, i);
      SuccessContributes(env, r, run, i);
      forall q | q in s.runs
        ensures StoredOk(s.runs[q], results')
      {
        StoreKeepsStored(env, s, r, i, run.jobs[i].id, stored.value, q);
      }
      SoundStore(env, s.runs.Keys, s.results, r, i, run.jobs[i].id, stored.value);
      RunsNeedHost(env, s, r);
    }
    JobStepStored(env, t, run, i, s.present, results');
    RunUpdateKeepsInv(env, s, r, run', results');
    assert SetRun(s, r, run').(results := s.results) == SetRun(s, r, run');
  }

  lemma FoundIsSync(env: Env, r: nat, run: Run, i: nat)
    requires RunOk(env, r, run) && i < |run.jobs| && run.phases[i].Found?
    ensures KindAt(run, i) == SyncKind && run.phases[i].out.Ok?
  {
    hide ChanOk;
    assert PhaseOk(env, r, TypeOf(env, r), run, i);
  }

  /** What a worker's step leaves as it was, and the shape of the phase it starts from. */
  lemma JobFrame(env: Env, r: nat, run: Run, i: nat, present: bool)
    requires RunOk(env, r, run) && JobCanStep(run, i)
    ensures var run' := AfterJobStep(env, TypeOf(env, r), run, i, present);
            run'.pc == run.pc && run'.cut == run.cut && run'.expired == run.expired
    ensures run.phases[i].Computed? ==> run.phases[i].out.Ok?
    ensures run.phases[i].Replied? ==> KindAt(run, i) != NoKind
  {
    hide ChanOk;
    assert PhaseOk(env, r, TypeOf(env, r), run, i);
  }

  lemma SoundStore(env: Env, ops: set<nat>, m: map<ModelId, ModelResults>, r: nat, i: nat, id: ModelId, v: ModelResults)
    requires Sound(env, ops, m) && r in ops && Contributes(env, r, i, id, v)
    ensures Sound(env, ops, m[id := v])
  {
  }

  lemma RunsNeedHost(env: Env, s: State, r: nat)
    requires HostOk(env, s) && r in s.runs
    ensures !s.host.Start? && !s.host.HalfInit?
  {
  }

  // --------------------------------------------------------------------------------------------
  // Steps of callPlugins and of the host keep the invariant
  // --------------------------------------------------------------------------------------------

  /** What a step of callPlugins leaves as it was. */
  lemma RunFrame(env: Env, r: nat, run: Run)
    requires RunOk(env, r, run) && RunCanStep(env, r, run)
    ensures var run' := RunNext(env, r, run, true);
            && run'.jobs == run.jobs && run'.cut == run.cut && run'.expired == run.expired
            && |run'.phases| == |run.phases|
            && (run'.pc.Returned? <==> run.pc.Awaiting?)
            && forall i | 0 <= i < |run'.phases| && (run'.phases[i].Ready? || run'.phases[i].Finished?)
                && run'.phases[i].out.Ok? ::
                 run'.phases[i] == run.phases[i]
  {
    hide ChanOk, PhaseOk, Delivers, KindOf, PlanOf, StartsRun, HasRoom, ChanOf;
    if run.pc.Dispatching? && run.pc.next < |run.jobs| {
      DispatchFrame(env, r, run, run.pc.next);
    }
  }

  lemma DispatchFrame(env: Env, r: nat, run: Run, i: nat)
    requires |run.phases| == |run.jobs| && i < |run.jobs| && run.phases[i].Pending?
    ensures var run' := Dispatched(env, r, run, i);
            && run'.jobs == run.jobs && run'.cut == run.cut && run'.expired == run.expired && run'.pc == run.pc
            && |run'.phases| == |run.phases|
            && (forall j | 0 <= j < |run.phases| && j != i :: run'.phases[j] == run.phases[j])
            && !run'.phases[i].Ready? && (run'.phases[i].Finished? ==> run'.phases[i].out.Err?)
  {
    hide KindOf;
  }

  /** wg.Done */
  lemma ReturnKeepsInv(env: Env, s: State, r: nat)
    requires Inv(env, s) && r in s.runs && s.runs[r].pc.Awaiting? && RunCanStep(env, r, s.runs[r])
    ensures Inv(env, SetRun(s, r, RunNext(env, r, s.runs[r], true)).(wg := s.wg - 1))
  {
    hide RunOk, Sound, CheckOk, StoredOk, RunNext;
    var run, run' := s.runs[r], RunNext(env, r, s.runs[r], true);
    RunStepKeepsRun(env, r, run);
    RunFrame(env, r, run);
    StoredFrame(run, run', s.results);
    var s' := SetRun(s, r, run').(wg := s.wg - 1);
    assert s'.runs.Keys == s.runs.Keys;
    assert LiveRuns(s') == LiveRuns(s) - {r};
    forall k | k in s'.checks
      ensures CheckOk(env, s', k)
    {
      ChecksFrame(env, s, s', k);
    }
  }

  lemma RunStepKeepsInv(env: Env, s: State, r: nat)
    requires Inv(env, s) && CanStep(env, s, RunStep(r))
    ensures Inv(env, Next(env, s, RunStep(r)))
  {
    hide RunOk, Sound, CheckOk, StoredOk, RunNext;
    LiveRunFindsTransaction(env, s, r);
    if s.runs[r].pc.Awaiting? {
      ReturnKeepsInv(env, s, r);
    } else {
      RunStepKeepsRun(env, r, s.runs[r]);
      RunFrame(env, r, s.runs[r]);
      QuietStepKeepsInv(env, s, r, RunNext(env, r, s.runs[r], true));
    }
  }

  /** Steps of the wait loops and of their timers. */
  lemma LoopStepKeepsInv(env: Env, s: State, step: Step)
    requires Inv(env, s) && CanStep(env, s, step)
    requires step.Receive? || step.GiveUp? || step.Expire? || step.Unregister?
    ensures Inv(env, Next(env, s, step))
  {
    hide Inv, RunOk, KindAt, ChanOf, CanExpire;
    var run := s.runs[step.r];
    RunOkOf(env, s, step.r);
    match step
    case Receive(r, k) => ReceiveKeepsRun(env, r, run, k); QuietStepKeepsInv(env, s, r, Received(run, k));
    case GiveUp(r, k) => GiveUpKeepsRun(env, r, run, k); QuietStepKeepsInv(env, s, r, GivenUp(run, k));
    case Expire(r, k) => ExpireKeepsRun(env, r, run, k); QuietStepKeepsInv(env, s, r, Expired(run, k));
    case Unregister(r) => UnregisterKeepsRun(env, r, run); QuietStepKeepsInv(env, s, r, run.(asyncAdded := false));
  }

  /** Plugin calls cut short, and messages lost by the network. */
  lemma CallStepKeepsInv(env: Env, s: State, step: Step)
    requires Inv(env, s) && CanStep(env, s, step) && (step.Abort? || step.Lose?)
    ensures Inv(env, Next(env, s, step))
  {
    hide Inv, RunOk, KindOf;
    var run := s.runs[step.r];
    RunOkOf(env, s, step.r);
    match step
    case Abort(r, i) => AbortKeepsRun(env, r, run, i); QuietStepKeepsInv(env, s, r, Aborted(run, i));
    case Lose(r, i) =>
      LoseKeepsRun(env, r, run, i);
      QuietStepKeepsInv(env, s, r, run.(phases := run.phases[i := Silent]));
  }

  lemma RunOkOf(env: Env, s: State, r: nat)
    requires Inv(env, s) && r in s.runs
    ensures RunOk(env, r, s.runs[r])
  {
  }

  lemma NewRunOk(env: Env, r: nat)
    requires StartsRun(env, r)
    ensures RunOk(env, r, NewRun(env, r))
  {
  }

  /** A check is not affected by runs of later operations. */
  lemma NewRunKeepsCheck(env: Env, s: State, r: nat, k: nat)
    requires StartsRun(env, r) && k in s.checks && CheckOk(env, s, k) && k <= r
    requires forall q | q in s.runs :: q < r
    ensures var runs := s.runs[r := NewRun(env, r)];
            CheckOk(env, s.(host := At(r + 1), analysis := true, wg := s.wg + 1, runs := runs), k)
  {
  }

  lemma AnalyzeKeepsInv(env: Env, s: State, k: nat)
    requires Inv(env, s) && s.host == At(k) && StartsRun(env, k)
    ensures Inv(env, s.(host := At(k + 1), analysis := true, wg := s.wg + 1, runs := s.runs[k := NewRun(env, k)]))
  {
    hide RunOk, Sound, CheckOk, StoredOk, Complete, StartsRun, PlanOf, NewRun;
    var s' := s.(host := At(k + 1), analysis := true, wg := s.wg + 1, runs := s.runs[k := NewRun(env, k)]);
    NewRunOk(env, k);
    NewRunIsPending(env, k, s.results);
    AnalyzeCounts(env, s, k, NewRun(env, k));
    SoundFrame(env, s.runs.Keys, s'.runs.Keys, s.results);
    forall c | c in s'.checks
      ensures CheckOk(env, s', c)
    {
      NewRunKeepsCheck(env, s, k, c);
    }
  }

  /** wg.Add */
  lemma AnalyzeCounts(env: Env, s: State, k: nat, run: Run)
    requires HostOk(env, s) && s.host == At(k) && StartsRun(env, k) && !run.pc.Returned?
    ensures k !in s.runs && (forall q | q in s.runs :: q < k)
    ensures s.runs[k := run].Keys == Started(env, k + 1)
    ensures |LiveRuns(s.(runs := s.runs[k := run]))| == |LiveRuns(s)| + 1
  {
    hide StartsRun;
    var s' := s.(runs := s.runs[k := run]);
    assert forall q | q in s.runs :: q in Started(env, k);
    assert Started(env, k + 1) == Started(env, k) + {k};
    assert LiveRuns(s') == LiveRuns(s) + {k};
  }

  lemma NewRunIsPending(env: Env, r: nat, results: map<ModelId, ModelResults>)
    requires StartsRun(env, r)
    ensures StoredOk(NewRun(env, r), results) && !NewRun(env, r).pc.Returned? && r < |env.script|
        && env.script[r].Analyze?
  {
  }

  lemma SoundFrame(env: Env, ops: set<nat>, ops': set<nat>, m: map<ModelId, ModelResults>)
    requires Sound(env, ops, m) && ops <= ops'
    ensures Sound(env, ops', m)
  {
  }

  /** The results of a run that has returned are complete. */
  lemma ReturnedIsComplete(env: Env, r: nat, run: Run, results: map<ModelId, ModelResults>)
    requires RunOk(env, r, run) && StoredOk(run, results) && run.pc.Returned?
    ensures Complete(env, r, run, results)
  {
    hide Delivers, PlanOf, StartsRun;
    forall i: nat, id, v | Contributes(env, r, i, id, v) && i !in run.cut && !run.expired
      ensures id in results && results[id] == v
    {
      assert PhaseOk(env, r, TypeOf(env, r), run, i);
      if !run.phases[i].Finished? {
        UnfinishedMeansExpired(run, i);
      }
    }
  }

  /** The snapshot of a Check. */
  lemma SnapshotKeepsInv(env: Env, s: State, k: nat)
    requires Inv(env, s) && s.host == Waited(k)
    ensures Inv(env, HostNext(env, s))
  {
    hide RunOk, Sound, StoredOk, Complete, StartsRun, PlanOf;
    var s' := HostNext(env, s);
    CheckStartsNoRun(env, k);
    assert Started(env, k + 1) == Started(env, k);
    assert LiveRuns(s') == LiveRuns(s);
    forall r | r in s.runs
      ensures Complete(env, r, s.runs[r], s.results)
    {
      ReturnedIsComplete(env, r, s.runs[r], s.results);
    }
    forall c | c in s'.checks
      ensures CheckOk(env, s', c)
    {
      if c != k {
        ChecksFrame(env, s, s', c);
      }
    }
  }

  lemma CheckStartsNoRun(env: Env, k: nat)
    requires k < |env.script| && env.script[k].Check?
    ensures !StartsRun(env, k)
  {
  }

  /** Waiting for the wait group means waiting for every run. */
  lemma ZeroMeansReturned(env: Env, s: State)
    requires s.wg == |LiveRuns(s)| && s.wg == 0
    ensures AllReturned(s)
  {
    assert LiveRuns(s) == {};
    forall r | r in s.runs
      ensures s.runs[r].pc.Returned?
    {
      assert r !in LiveRuns(s);
    }
  }

  /** Steps of the host that only move it. */
  lemma HostMoveFrame(env: Env, s: State)
    requires HostOk(env, s) && CanStep(env, s, HostStep) && !s.host.Waited?
    requires !(s.host.At? && StartsRun(env, s.host.k)) && (s.wg == 0 ==> AllReturned(s))
    ensures var s' := HostNext(env, s);
            && HostOk(env, s') && Started(env, Progress(env, s'.host)) == Started(env, Progress(env, s.host))
            && s'.runs == s.runs && s'.results == s.results && s'.wg == s.wg && s'.checks == s.checks
  {
    hide StartsRun, NewRun;
    var s' := HostNext(env, s);
    assert Started(env, Progress(env, s'.host)) == Started(env, Progress(env, s.host));
  }

  lemma HostMoveKeepsInv(env: Env, s: State)
    requires Inv(env, s) && CanStep(env, s, HostStep) && !s.host.Waited?
    requires !(s.host.At? && StartsRun(env, s.host.k))
    ensures Inv(env, HostNext(env, s))
  {
    hide RunOk, Sound, StoredOk, CheckOk, StartsRun, HostOk, HostNext;
    var s' := HostNext(env, s);
    if s.wg == 0 {
      ZeroMeansReturned(env, s);
    }
    HostMoveFrame(env, s);
    assert LiveRuns(s') == LiveRuns(s);
    forall c | c in s'.checks
      ensures CheckOk(env, s', c)
    {
      ChecksFrame(env, s, s', c);
    }
  }

  lemma HostStepKeepsInv(env: Env, s: State)
    requires Inv(env, s) && CanStep(env, s, HostStep)
    ensures Inv(env, Next(env, s, HostStep))
  {
    hide Inv, StartsRun;
    HostInScript(env, s);
    if s.host.Waited? {
      SnapshotKeepsInv(env, s, s.host.k);
    } else if s.host.At? && StartsRun(env, s.host.k) {
      AnalyzeKeepsInv(env, s, s.host.k);
    } else {
      HostMoveKeepsInv(env, s);
    }
  }

  lemma HostInScript(env: Env, s: State)
    requires Inv(env, s)
    ensures s.host.At? && StartsRun(env, s.host.k) ==> s.host.k < |env.script| && env.script[s.host.k].Analyze?
  {
  }

  /** Every step of every goroutine keeps the invariant. */
  lemma NextInv(env: Env, s: State, step: Step)
    requires OneAnalyzePerType(env) && Inv(env, s) && CanStep(env, s, step)
    ensures Inv(env, Next(env, s, step))
  {
    hide Inv, Next, CanStep, OneAnalyzePerType;
    match step
    case HostStep => HostStepKeepsInv(env, s);
    case RunStep(r) => RunStepKeepsInv(env, s, r);
    case JobStep(r, i) => JobStepKeepsInv(env, s, r, i);
    case Abort(r, i) => CallStepKeepsInv(env, s, step);
    case Lose(r, i) => CallStepKeepsInv(env, s, step);
    case _ => LoopStepKeepsInv(env, s, step);
  }

  // --------------------------------------------------------------------------------------------
  // Runs of the system
  // --------------------------------------------------------------------------------------------

  ghost predicate Possible(env: Env, s: State, steps: seq<Step>)
    decreases |steps|
  {
    steps != [] ==> CanStep(env, s, steps[0]) && Possible(env, Next(env, s, steps[0]), steps[1..])
  }

  ghost function After(env: Env, s: State, steps: seq<Step>): State
    requires Possible(env, s, steps)
    decreases |steps|
  {
    if steps == [] then s else After(env, Next(env, s, steps[0]), steps[1..])
  }

  /** e is reached by some interleaving. */
  ghost predicate Reachable(env: Env, e: State) {
    exists s, steps :: Init(s) && Possible(env, s, steps) && After(env, s, steps) == e
  }

  lemma {:induction false} AfterInv(env: Env, s: State, steps: seq<Step>)
    requires OneAnalyzePerType(env) && Inv(env, s) && Possible(env, s, steps)
    ensures Inv(env, After(env, s, steps))
    decreases |steps|
  {
    hide Inv, Next, CanStep, OneAnalyzePerType;
    if steps != [] {
      NextInv(env, s, steps[0]);
      AfterInv(env, Next(env, s, steps[0]), steps[1..]);
    }
  }

  lemma ReachableInv(env: Env, e: State)
    requires OneAnalyzePerType(env) && Reachable(env, e)
    ensures Inv(env, e)
  {
    hide Inv, Possible, After, OneAnalyzePerType;
    var s, steps :| Init(s) && Possible(env, s, steps) && After(env, s, steps) == e;
    InitInv(env, s);
    AfterInv(env, s, steps);
  }

  // --------------------------------------------------------------------------------------------
  // What a check hands to the decision plugins
  // --------------------------------------------------------------------------------------------

  /** The results of the first n calls of operation r, run one after the other. */
  ghost function CallResults(env: Env, r: nat, n: nat): map<ModelId, ModelResults>
    requires StartsRun(env, r) && n <= |PlanOf(env, r)|
  {
    if n == 0 then map[]
    else
      var job := PlanOf(env, r)[n - 1];
      var v := Delivers(env, r, TypeOf(env, r), job, n - 1);
      if KindOf(job.mode) == SyncKind && v.Some? then CallResults(env, r, n - 1)[job.id := v.value]
      else CallResults(env, r, n - 1)
  }

  /** The results of the first k operations, run one after the other without any concurrency. */
  ghost function Sequential(env: Env, k: nat): map<ModelId, ModelResults> {
    if k == 0 then map[]
    else if StartsRun(env, k - 1) then Sequential(env, k - 1) + CallResults(env, k - 1, |PlanOf(env, k - 1)|)
    else Sequential(env, k - 1)
  }

  /** m is what the first n calls of operation r contribute. */
  ghost predicate Collects(env: Env, r: nat, n: nat, m: map<ModelId, ModelResults>) {
    && (forall id | id in m :: exists i: nat :: i < n && Contributes(env, r, i, id, m[id]))
    && (forall i: nat, id, v | i < n && Contributes(env, r, i, id, v) :: id in m && m[id] == v)
  }

  lemma {:induction false} CallResultsAre(env: Env, r: nat, n: nat)
    requires OneAnalyzePerType(env) && StartsRun(env, r) && n <= |PlanOf(env, r)|
    ensures Collects(env, r, n, CallResults(env, r, n))
    decreases n
  {
    hide OneAnalyzePerType, Delivers, PlanOf, StartsRun, TypeOf;
    if n > 0 {
      CallResultsAre(env, r, n - 1);
      var m, m' := CallResults(env, r, n - 1), CallResults(env, r, n);
      var job := PlanOf(env, r)[n - 1];
      forall id | id in m'
        ensures exists i: nat :: i < n && Contributes(env, r, i, id, m'[id])
      {
        if id in m && m'[id] == m[id] {
          var i: nat :| i < n - 1 && Contributes(env, r, i, id, m[id]);
        } else {
          assert Contributes(env, r, n - 1, id, m'[id]);
        }
      }
      forall i: nat, id, v | i < n && Contributes(env, r, i, id, v)
        ensures id in m' && m'[id] == v
      {
        if id == job.id && m' != m {
          assert Contributes(env, r, n - 1, id, m'[id]);
          SameContribution(env, r, i, r, n - 1, id, v, m'[id]);
        }
      }
    }
  }

  /** The sequential results are exactly what the calls of the first k operations contribute. */
  lemma {:induction false} SequentialIs(env: Env, k: nat)
    requires OneAnalyzePerType(env)
    ensures Sound(env, Started(env, k), Sequential(env, k))
    ensures forall r: nat, i: nat, id, v | r < k && Contributes(env, r, i, id, v) ::
        id in Sequential(env, k) && Sequential(env, k)[id] == v
    decreases k
  {
    hide OneAnalyzePerType, Contributes, PlanOf, StartsRun, CallResults;
    if k > 0 {
      SequentialIs(env, k - 1);
      if StartsRun(env, k - 1) {
        CallResultsAre(env, k - 1, |PlanOf(env, k - 1)|);
        SequentialStep(env, k - 1, Sequential(env, k - 1), CallResults(env, k - 1, |PlanOf(env, k - 1)|));
      } else {
        assert Started(env, k) == Started(env, k - 1);
        forall r: nat, i: nat, id, v | r < k && Contributes(env, r, i, id, v)
          ensures r < k - 1
        {
          ContributorStarts(env, r, i, id, v);
        }
      }
    }
  }

  lemma ContributorStarts(env: Env, r: nat, i: nat, id: ModelId, v: ModelResults)
    requires Contributes(env, r, i, id, v)
    ensures StartsRun(env, r) && i < |PlanOf(env, r)|
  {
  }

  lemma SequentialStep(env: Env, q: nat, before: map<ModelId, ModelResults>, m: map<ModelId, ModelResults>)
    requires OneAnalyzePerType(env) && StartsRun(env, q) && Collects(env, q, |PlanOf(env, q)|, m)
    requires Sound(env, Started(env, q), before)
    requires forall r: nat, i: nat, id, v | r < q && Contributes(env, r, i, id, v) :: id in before && before[id] == v
    ensures Sound(env, Started(env, q + 1), before + m)
    ensures forall r: nat, i: nat, id, v | r < q + 1 && Contributes(env, r, i, id, v) ::
        id in before + m && (before + m)[id] == v
  {
    hide OneAnalyzePerType, Contributes, PlanOf, StartsRun;
    var n, all := |PlanOf(env, q)|, before + m;
    assert q in Started(env, q + 1) && Started(env, q) <= Started(env, q + 1);
    forall id | id in all
      ensures exists r, i :: r in Started(env, q + 1) && Contributes(env, r, i, id, all[id])
    {
      if id in m {
        var i: nat :| i < n && Contributes(env, q, i, id, m[id]);
        assert Contributes(env, q, i, id, all[id]);
      } else {
        var r, i :| r in Started(env, q) && Contributes(env, r, i, id, before[id]);
        assert Contributes(env, r, i, id, all[id]);
      }
    }
    forall r: nat, i: nat, id, v | r < q + 1 && Contributes(env, r, i, id, v)
      ensures id in all && all[id] == v
    {
      ContributorStarts(env, r, i, id, v);
      if id in m {
        var j: nat :| j < n && Contributes(env, q, j, id, m[id]);
        SameContribution(env, r, i, q, j, id, v, m[id]);
      }
    }
  }

  /** Sound and complete results are the sequential ones. */
  lemma SoundCompleteIsSequential(env: Env, k: nat, m: map<ModelId, ModelResults>)
    requires OneAnalyzePerType(env) && Sound(env, Started(env, k), m)
    requires forall r: nat, i: nat, id, v | r < k && Contributes(env, r, i, id, v) :: id in m && m[id] == v
    ensures m == Sequential(env, k)
  {
    hide OneAnalyzePerType, Contributes, StartsRun, Sequential;
    SequentialIs(env, k);
    var q := Sequential(env, k);
    forall id | id in m
      ensures id in q && q[id] == m[id]
    {
      var r, i :| r in Started(env, k) && Contributes(env, r, i, id, m[id]);
    }
    forall id | id in q
      ensures id in m
    {
      var r, i :| r in Started(env, k) && Contributes(env, r, i, id, q[id]);
    }
  }

  /** Nothing interrupted the calls of the operations before k. */
  ghost predicate Uncut(s: State, k: nat) {
    forall r | r in s.runs && r < k :: !s.runs[r].expired && s.runs[r].cut == {}
  }

  /**
   Interleaving independence: if no deadline passed for the operations before a Check, what the check
   hands to the decision plugins is what running their model plugins one after the other gives,
   whatever the interleaving was. Async and training results are never part of it.
   */
  lemma CheckIsSequential(env: Env, e: State, k: nat)
    requires OneAnalyzePerType(env) && Reachable(env, e)
    requires k in e.checks && Uncut(e, k)
    ensures e.checks[k] == Some(Sequential(env, k))
  {
    hide OneAnalyzePerType, Reachable, Contributes, RunOk, StoredOk, PlanOf, StartsRun;
    ReachableInv(env, e);
    assert CheckOk(env, e, k);
    var m := e.checks[k].value;
    forall r: nat, i: nat, id, v | r < k && Contributes(env, r, i, id, v)
      ensures id in m && m[id] == v
    {
      ContributorStarts(env, r, i, id, v);
      assert r in Started(env, Progress(env, e.host));
      assert Complete(env, r, e.runs[r], m);
    }
    SoundCompleteIsSequential(env, k, m);
  }

  /** Two interleavings without timeouts show the decision plugins the same results. */
  lemma ChecksAgree(env: Env, a: State, b: State, k: nat)
    requires OneAnalyzePerType(env) && Reachable(env, a) && Reachable(env, b)
    requires k in a.checks && k in b.checks && Uncut(a, k) && Uncut(b, k)
    ensures a.checks[k] == b.checks[k]
  {
    hide OneAnalyzePerType, Reachable, Uncut, Sequential;
    CheckIsSequential(env, a, k);
    CheckIsSequential(env, b, k);
  }

  /** Whatever times out, a check never shows a result that the sequential execution does not have. */
  lemma CheckIsSound(env: Env, e: State, k: nat, id: ModelId)
    requires OneAnalyzePerType(env) && Reachable(env, e) && k in e.checks
    ensures e.checks[k].Some?
    ensures id in e.checks[k].value ==> id in Sequential(env, k) && Sequential(env, k)[id] == e.checks[k].value[id]
  {
    hide OneAnalyzePerType, Reachable, Contributes, RunOk, StoredOk, PlanOf, StartsRun, Sequential;
    ReachableInv(env, e);
    assert CheckOk(env, e, k);
    SequentialIs(env, k);
    var m := e.checks[k].value;
    if id in m {
      var r, i :| r in Started(env, k) && Contributes(env, r, i, id, m[id]);
    }
  }

  /** A check misses a result only if every call that contributes it was cut short. */
  lemma MissingMeansCut(env: Env, e: State, k: nat, r: nat, i: nat, id: ModelId, v: ModelResults)
    requires OneAnalyzePerType(env) && Reachable(env, e)
    requires k in e.checks && e.checks[k].Some? && r < k && Contributes(env, r, i, id, v)
    requires id !in e.checks[k].value
    ensures r in e.runs && (e.runs[r].expired || i in e.runs[r].cut)
  {
    hide OneAnalyzePerType, Reachable, Contributes, RunOk, StoredOk, PlanOf, StartsRun;
    ReachableInv(env, e);
    assert CheckOk(env, e, k);
    ContributorStarts(env, r, i, id, v);
    assert r in Started(env, Progress(env, e.host));
    assert Complete(env, r, e.runs[r], e.checks[k].value);
  }

  /** No timeout is configured for the sync model plugins. */
  ghost predicate NoTimers(env: Env) {
    && env.conf.modelTimeout <= 0
    && (forall id | id in env.conf.models :: env.conf.models[id].timeout <= 0)
  }

  ghost predicate NothingCut(s: State) {
    forall r | r in s.runs :: !s.runs[r].expired && s.runs[r].cut == {}
  }

  lemma RunNextCutsNothing(env: Env, r: nat, run: Run, present: bool)
    requires RunCanStep(env, r, run)
    ensures RunNext(env, r, run, present).expired == run.expired && RunNext(env, r, run, present).cut == run.cut
  {
    hide KindOf, HasRoom, Reporters;
  }

  lemma JobStepCutsNothing(env: Env, t: int, run: Run, i: nat, present: bool)
    requires JobCanStep(run, i)
    ensures AfterJobStep(env, t, run, i, present).expired == run.expired
        && AfterJobStep(env, t, run, i, present).cut == run.cut
  {
  }

  lemma HostCutsNothing(env: Env, s: State)
    requires NothingCut(s)
    ensures NothingCut(HostNext(env, s))
  {
    hide PlanOf, StartsRun, NewRun;
    if s.host.At? && StartsRun(env, s.host.k) {
      NewRunIsUncut(env, s.host.k);
    }
  }

  lemma NewRunIsUncut(env: Env, r: nat)
    requires StartsRun(env, r)
    ensures !NewRun(env, r).expired && NewRun(env, r).cut == {}
  {
  }

  lemma WithoutTimers(env: Env, run: Run, i: nat, k: Kind)
    requires NoTimers(env) && !run.expired
    ensures !CanAbort(env, run, i) && (CanExpire(env, k) ==> k.AsyncKind?)
  {
  }

  /** Steps of the wait loops, of the timers and of the network. */
  lemma SideCutsNothing(env: Env, s: State, step: Step)
    requires NoTimers(env) && NothingCut(s) && CanStep(env, s, step)
    requires !step.HostStep? && !step.RunStep? && !step.JobStep?
    ensures NothingCut(Next(env, s, step))
  {
    hide CanAbort, CanExpire, NoTimers, CanLose;
    match step
    case Expire(r, k) => WithoutTimers(env, s.runs[r], 0, k);
    case Abort(r, i) => WithoutTimers(env, s.runs[r], i, SyncKind);
    case _ =>
  }

  lemma CallCutsNothing(env: Env, s: State, step: Step)
    requires NothingCut(s) && CanStep(env, s, step) && (step.RunStep? || step.JobStep?)
    ensures NothingCut(Next(env, s, step))
  {
    hide RunNext, AfterJobStep, JobNext, RunCanStep, JobCanStep;
    if step.RunStep? {
      RunNextCutsNothing(env, step.r, s.runs[step.r], s.present);
    } else {
      JobStepCutsNothing(env, TypeOf(env, step.r), s.runs[step.r], step.i, s.present);
    }
  }

  lemma NextNothingCut(env: Env, s: State, step: Step)
    requires NoTimers(env) && NothingCut(s) && CanStep(env, s, step)
    ensures NothingCut(Next(env, s, step))
  {
    hide NothingCut, NoTimers, CanStep, HostNext;
    match step
    case HostStep => HostCutsNothing(env, s);
    case RunStep(_) => CallCutsNothing(env, s, step);
    case JobStep(_, _) => CallCutsNothing(env, s, step);
    case _ => SideCutsNothing(env, s, step);
  }

  lemma {:induction false} AfterNothingCut(env: Env, s: State, steps: seq<Step>)
    requires NoTimers(env) && NothingCut(s) && Possible(env, s, steps)
    ensures NothingCut(After(env, s, steps))
    decreases |steps|
  {
    hide NoTimers, NothingCut, Next, CanStep;
    if steps != [] {
      NextNothingCut(env, s, steps[0]);
      AfterNothingCut(env, Next(env, s, steps[0]), steps[1..]);
    }
  }

  /**
   With a zero model_timeout and no plugin timeouts, every check of every interleaving shows the sequential results.
   */
  lemma CheckWithoutTimers(env: Env, e: State, k: nat)
    requires OneAnalyzePerType(env) && NoTimers(env) && Reachable(env, e) && k in e.checks
    ensures e.checks[k] == Some(Sequential(env, k))
  {
    hide OneAnalyzePerType, NoTimers, Possible, After, Sequential;
    var s, steps :| Init(s) && Possible(env, s, steps) && After(env, s, steps) == e;
    AfterNothingCut(env, s, steps);
    CheckIsSequential(env, e, k);
  }

  // --------------------------------------------------------------------------------------------
  // The same, written out from the configuration, the plugins and the network
  // --------------------------------------------------------------------------------------------

  /** Operation r of the script is an accepted Analyze whose i-th kept model is id. */
  ghost predicate Calls(env: Env, r: nat, i: nat, id: ModelId) {
    && r < |env.script| && env.script[r].Analyze? && env.script[r].models != []
    && 0 <= env.script[r].t < 7
    && var kept := Kept(env.conf, env.script[r].models, env.script[r].t);
       i < |kept| && kept[i] == id && id in env.conf.models && env.conf.models[id].ptype == env.script[r].t
  }

  /** The payload call i of operation r gets. */
  ghost function PayloadOf(env: Env, r: nat, id: ModelId): HttpPayload
    requires r < |env.script| && env.script[r].Analyze? && id in env.conf.models
  {
    var p := env.script[r].payload;
    if env.conf.models[id].sanitize then SanitizedPayload(p, env.conf.credentialHeaders, env.fold) else p
  }

  /** That call succeeds with v: through the queue, or in this process on a plugin loaded with the right type. */
  ghost predicate Yields(env: Env, r: nat, i: nat, id: ModelId, v: ModelResults) {
    && Calls(env, r, i, id)
    && var c, q := env.conf.models[id], PayloadOf(env, r, id);
       if c.isAsync then env.sends(r, i) && env.remote(id, q) == Ok(v)
       else if c.training then false
       else if c.remote then env.sends(r, i) && env.remote(id, q) == Ok(v)
       else id in env.loaded && env.loaded[id] == env.script[r].t && env.process(id, q) == Ok(v)
  }

  /** It is a call whose result the decision plugins see. */
  ghost predicate Shows(env: Env, r: nat, i: nat, id: ModelId, v: ModelResults) {
    Yields(env, r, i, id, v) && !env.conf.models[id].isAsync
  }

  lemma CallsAre(env: Env, r: nat, i: nat)
    requires StartsRun(env, r) && i < |PlanOf(env, r)|
    ensures Calls(env, r, i, PlanOf(env, r)[i].id)
    ensures PlanOf(env, r)[i].payload == PayloadOf(env, r, PlanOf(env, r)[i].id)
    ensures var c := env.conf.models[PlanOf(env, r)[i].id];
            PlanOf(env, r)[i].mode
            == if c.isAsync then Mode.Async
               else if c.training then Mode.Training
               else if c.remote then Mode.Remote
               else Mode.Local
  {
    var kept := Kept(env.conf, env.script[r].models, env.script[r].t);
    assert kept[i] in kept;
  }

  lemma DeliversIs(env: Env, r: nat, i: nat, v: ModelResults)
    requires StartsRun(env, r) && i < |PlanOf(env, r)| && !PlanOf(env, r)[i].mode.Training?
    ensures var job := PlanOf(env, r)[i];
            Delivers(env, r, TypeOf(env, r), job, i) == Some(v) <==> Yields(env, r, i, job.id, v)
  {
    hide Kept, PlanOf, PayloadOf, Calls;
    CallsAre(env, r, i);
    PlanCalls(env, r, i, PlanOf(env, r)[i].id);
  }

  lemma PlanCalls(env: Env, r: nat, i: nat, id: ModelId)
    ensures Calls(env, r, i, id) <==> StartsRun(env, r) && i < |PlanOf(env, r)| && PlanOf(env, r)[i].id == id
    ensures Calls(env, r, i, id) ==> r < |env.script| && env.script[r].Analyze? && id in env.conf.models
  {
    if StartsRun(env, r) {
      var kept := Kept(env.conf, env.script[r].models, env.script[r].t);
      if i < |kept| {
        assert kept[i] in kept;
      }
    }
  }

  lemma ContributesIs(env: Env, r: nat, i: nat, id: ModelId, v: ModelResults)
    ensures Contributes(env, r, i, id, v) <==> Shows(env, r, i, id, v)
  {
    hide Kept, PlanOf, PayloadOf, Calls, Delivers;
    PlanCalls(env, r, i, id);
    if Calls(env, r, i, id) {
      CallsAre(env, r, i);
      if !PlanOf(env, r)[i].mode.Training? {
        DeliversIs(env, r, i, v);
      }
    }
  }

  /**
   What a check shows, call by call: without timeouts a model is mapped to a result exactly when an earlier
   Analyze calls it, it is not async and not in training, and its own call succeeds with that result.
   */
  lemma SnapshotIs(env: Env, e: State, k: nat, id: ModelId, v: ModelResults)
    requires OneAnalyzePerType(env) && Reachable(env, e) && k in e.checks && Uncut(e, k)
    ensures e.checks[k].Some?
    ensures var m := e.checks[k].value;
            (id in m && m[id] == v)
            <==> exists r: nat, i: nat :: r < k && Shows(env, r, i, id, v)
  {
    hide OneAnalyzePerType, Reachable, Uncut, Shows, Contributes, Sequential, StartsRun;
    CheckIsSequential(env, e, k);
    SequentialIs(env, k);
    var m := Sequential(env, k);
    if id in m && m[id] == v {
      var r, i :| r in Started(env, k) && Contributes(env, r, i, id, m[id]);
      ContributesIs(env, r, i, id, v);
    }
    if r: nat, i: nat :| r < k && Shows(env, r, i, id, v) {
      ContributesIs(env, r, i, id, v);
    }
  }

  /**
   Every status that reaches a wait loop, sync or async, tells the truth: a success carries the result of its
   own call, and an error means that the call does not succeed or that its context ended.
   */
  lemma StatusesAreTrue(env: Env, e: State, r: nat, k: Kind, st: Status)
    requires OneAnalyzePerType(env) && Reachable(env, e) && r in e.runs && !k.NoKind?
    requires st in ChanOf(e.runs[r], k).got + ChanOf(e.runs[r], k).buf
    ensures var run := e.runs[r];
            && st.job < |run.jobs|
            && var id := run.jobs[st.job].id;
               match st.out
               case Ok(v) => Yields(env, r, st.job, id, v)
               case Err(_) => (forall v :: !Yields(env, r, st.job, id, v)) || st.job in run.cut || run.expired
  {
    hide OneAnalyzePerType, Reachable, RunOk, Yields, StartsRun, PlanOf, CheckOk, Sound, HostOk, StoredOk;
    ReachableInv(env, e);
    StatusIsTrue(env, r, e.runs[r], k, st);
  }

  /** A status in a channel is that of a finished call, and consistent with what the call delivers. */
  lemma StatusIsFinished(env: Env, r: nat, run: Run, k: Kind, st: Status)
    requires RunOk(env, r, run) && !k.NoKind? && st in ChanOf(run, k).got + ChanOf(run, k).buf
    ensures st.job < |run.jobs| && !run.jobs[st.job].mode.Training? && StartsRun(env, r) && run.jobs == PlanOf(env, r)
    ensures OutcomeOk(env, r, TypeOf(env, r), run, st.job, st.out)
  {
    hide StartsRun, PlanOf, OutcomeOk, ChanOf, Reporters;
    assert StatusesOk(run, k);
    assert PhaseOk(env, r, TypeOf(env, r), run, st.job);
  }

  lemma StatusIsTrue(env: Env, r: nat, run: Run, k: Kind, st: Status)
    requires RunOk(env, r, run) && !k.NoKind? && st in ChanOf(run, k).got + ChanOf(run, k).buf
    ensures st.job < |run.jobs|
    ensures var id := run.jobs[st.job].id;
            match st.out
            case Ok(v) => Yields(env, r, st.job, id, v)
            case Err(_) => (forall v :: !Yields(env, r, st.job, id, v)) || st.job in run.cut || run.expired
  {
    hide RunOk, Yields, Delivers, StartsRun, PlanOf, ChanOf;
    StatusIsFinished(env, r, run, k, st);
    var i, job := st.job, run.jobs[st.job];
    forall v
      ensures Delivers(env, r, TypeOf(env, r), job, i) == Some(v) <==> Yields(env, r, i, job.id, v)
    {
      DeliversIs(env, r, i, v);
    }
    DeliversOrNot(env, r, TypeOf(env, r), job, i);
  }

  lemma DeliversOrNot(env: Env, r: nat, t: int, job: Job, i: nat)
    ensures Delivers(env, r, t, job, i).None? || exists v :: Delivers(env, r, t, job, i) == Some(v)
  {
    hide Delivers;
    if Delivers(env, r, t, job, i).Some? {
      assert Delivers(env, r, t, job, i) == Some(Delivers(env, r, t, job, i).value);
    }
  }

  /**
   A sync call that will never report is one whose request was published, so its answer was lost: local
   calls and requests that could not be sent always report.
   */
  lemma SilentWasPublished(env: Env, e: State, r: nat, i: nat)
    requires OneAnalyzePerType(env) && Reachable(env, e) && r in e.runs
    requires i < |e.runs[r].jobs| && i < |e.runs[r].phases|
    requires KindAt(e.runs[r], i) == SyncKind && e.runs[r].phases[i].Silent?
    ensures var id := e.runs[r].jobs[i].id;
            id in env.conf.models && env.conf.models[id].remote && env.sends(r, i)
  {
    hide OneAnalyzePerType, Reachable, PlanOf, StartsRun, CheckOk, Sound, HostOk, ChanOk;
    ReachableInv(env, e);
    assert RunOk(env, r, e.runs[r]);
    assert PhaseOk(env, r, TypeOf(env, r), e.runs[r], i);
    CallsAre(env, r, i);
    PlanCalls(env, r, i, e.runs[r].jobs[i].id);
  }

  // --------------------------------------------------------------------------------------------
  // Statuses, channels and the wait group
  // --------------------------------------------------------------------------------------------

  /** Store before notify: a success in the sync channel, or received from it, is the status of a stored result. */
  lemma StoredBeforeNotified(env: Env, e: State, r: nat, st: Status)
    requires OneAnalyzePerType(env) && Reachable(env, e) && r in e.runs
    requires st in e.runs[r].sync.got + e.runs[r].sync.buf && st.out.Ok?
    ensures st.job < |e.runs[r].jobs|
    ensures var id := e.runs[r].jobs[st.job].id;
            id in e.results && e.results[id] == st.out.value
  {
    hide OneAnalyzePerType, Reachable, PlanOf, StartsRun, KindOf, PhaseOk;
    ReachableInv(env, e);
    var run := e.runs[r];
    assert RunOk(env, r, run) && StoredOk(run, e.results);
    assert ChanOk(run, SyncKind);
    var a :| 0 <= a < |run.sync.got + run.sync.buf| && (run.sync.got + run.sync.buf)[a] == st;
    assert run.phases[st.job] == Finished(st.out);
  }

  /** The wait group counts the runs in flight; each finds the transaction; it is dropped only when there are none. */
  lemma WaitGroupIsExact(env: Env, e: State)
    requires OneAnalyzePerType(env) && Reachable(env, e)
    ensures e.wg == |LiveRuns(e)|
    ensures forall r | r in LiveRuns(e) :: e.analysis && e.present
    ensures e.host.Removed? || e.host.Closed? ==> e.wg == 0
  {
    hide OneAnalyzePerType, Reachable, RunOk, StoredOk, Sound, CheckOk;
    ReachableInv(env, e);
    forall r | r in LiveRuns(e)
      ensures e.analysis && e.present
    {
      LiveRunFindsTransaction(env, e, r);
    }
    if e.host.Removed? || e.host.Closed? {
      assert LiveRuns(e) == {};
    }
  }

  /**
   No blocked sender: every worker and every handler that is about to send a status, and the dispatch
   pass when it reports a failed request, finds room in the channel, even after a timeout or a Close.
   */
  lemma NoBlockedSender(env: Env, e: State, r: nat)
    requires OneAnalyzePerType(env) && Reachable(env, e) && r in e.runs
    ensures var run := e.runs[r];
            && |run.phases| == |run.jobs|
            && (forall i | 0 <= i < |run.jobs| && run.phases[i].Ready? ::
                JobCanStep(run, i) && HasRoom(ChanOf(run, KindAt(run, i))))
            && (run.pc.Dispatching? && run.pc.next < |run.jobs| ==> RunCanStep(env, r, run))
  {
    hide OneAnalyzePerType, Reachable, PlanOf, StartsRun, KindOf, Delivers, ChanOk, StoredOk, Sound, CheckOk, HostOk;
    ReachableInv(env, e);
    var run := e.runs[r];
    assert RunOk(env, r, run);
    forall i | 0 <= i < |run.jobs| && run.phases[i].Ready?
      ensures JobCanStep(run, i) && HasRoom(ChanOf(run, KindAt(run, i)))
    {
      ReadyHasRoom(env, r, run, i);
    }
    if run.pc.Dispatching? && run.pc.next < |run.jobs| {
      DispatchHasRoom(env, r, run);
    }
  }

  lemma ReadyHasRoom(env: Env, r: nat, run: Run, i: nat)
    requires RunOk(env, r, run) && i < |run.jobs| && run.phases[i].Ready?
    ensures HasRoom(ChanOf(run, KindAt(run, i)))
  {
    hide PlanOf, StartsRun, Delivers, ChanOk;
    assert PhaseOk(env, r, TypeOf(env, r), run, i);
    RoomToSend(run, i);
  }

  lemma DispatchHasRoom(env: Env, r: nat, run: Run)
    requires RunOk(env, r, run) && run.pc.Dispatching? && run.pc.next < |run.jobs|
    ensures CanDispatch(env, r, run, run.pc.next)
  {
    hide PlanOf, StartsRun, Delivers, ChanOk;
    assert run.phases[run.pc.next].Pending?;
    if !run.jobs[run.pc.next].mode.Training? {
      RoomToSend(run, run.pc.next);
    }
  }

  /** Each wait loop accounts for every call it waits for: what it received plus what it recorded as late. */
  lemma StatusesAreAccounted(env: Env, e: State, r: nat, k: Kind)
    requires OneAnalyzePerType(env) && Reachable(env, e) && r in e.runs && !k.NoKind?
    ensures var run, c := e.runs[r], ChanOf(e.runs[r], k);
            && (c.wait.Done? ==> |c.got| + c.timeouts == |Reporters(run.jobs, k)|)
            && (c.timeouts > 0 ==> ExpiredOf(run, k))
            && (forall a, b | 0 <= a < b < |c.got| :: c.got[a].job != c.got[b].job)
  {
    hide OneAnalyzePerType, Reachable, PlanOf, StartsRun, Delivers, StoredOk, Sound, CheckOk, HostOk, KindOf;
    ReachableInv(env, e);
    var run, c := e.runs[r], ChanOf(e.runs[r], k);
    assert RunOk(env, r, run);
    assert ChanOk(run, k);
    assert forall a | 0 <= a < |c.got| :: (c.got + c.buf)[a] == c.got[a];
  }

  /**
   callPlugins waits for ever only for a lost answer: while it has not returned and no answer to one of
   its sync calls is lost, one of its own steps, of its wait loop or of its sync calls can be taken.
   */
  lemma LiveRunCanStep(env: Env, e: State, r: nat)
    requires OneAnalyzePerType(env) && Reachable(env, e) && r in e.runs && !e.runs[r].pc.Returned?
    requires forall i | 0 <= i < |e.runs[r].jobs| && i < |e.runs[r].phases| && KindAt(e.runs[r], i) == SyncKind ::
        !e.runs[r].phases[i].Silent?
    ensures || CanStep(env, e, RunStep(r))
            || CanStep(env, e, Receive(r, SyncKind))
            || CanStep(env, e, GiveUp(r, SyncKind))
            || exists i: nat :: i < |e.runs[r].jobs| && KindAt(e.runs[r], i) == SyncKind
                && CanStep(env, e, JobStep(r, i))
  {
    hide OneAnalyzePerType, Reachable, PlanOf, StartsRun, Delivers, StoredOk, Sound, CheckOk, HostOk, ChanOk, KindOf;
    ReachableInv(env, e);
    var run := e.runs[r];
    assert RunOk(env, r, run);
    if run.pc.Dispatching? && run.pc.next < |run.jobs| {
      DispatchHasRoom(env, r, run);
    } else if run.pc.Awaiting? && !run.sync.wait.Done? {
      AwaitingCanStep(env, r, run);
      if i: nat :| i < |run.jobs| && KindAt(run, i) == SyncKind && JobCanStep(run, i) {
        assert CanStep(env, e, JobStep(r, i));
      }
    }
  }

  lemma AwaitingCanStep(env: Env, r: nat, run: Run)
    requires RunOk(env, r, run) && run.pc.Awaiting? && !run.sync.wait.Done?
    requires forall i | 0 <= i < |run.jobs| && KindAt(run, i) == SyncKind :: !run.phases[i].Silent?
    ensures || CanReceive(run, SyncKind)
            || CanGiveUp(run, SyncKind)
            || exists i: nat :: i < |run.jobs| && KindAt(run, i) == SyncKind && JobCanStep(run, i)
  {
    hide PlanOf, StartsRun, Delivers, PhaseOk;
    var done, all := FinishedJobs(run, SyncKind), Reporters(run.jobs, SyncKind);
    ReceivedAtMostCap(run, SyncKind);
    if run.sync.buf == [] && |run.sync.got| < run.sync.cap {
      if all <= done {
        SubsetSize(all, done);
      } else {
        var i :| i in all && i !in done;
        if run.phases[i].Ready? {
          RoomToSend(run, i);
        }
        assert JobCanStep(run, i);
      }
    }
  }

  // --------------------------------------------------------------------------------------------
  // How long callPlugins can take
  // --------------------------------------------------------------------------------------------

  /** How many steps a call may still take. */
  function PhaseRank(p: Phase): nat {
    match p
    case Pending => 5
    case Running => 4
    case Published => 4
    case Replied(_) => 3
    case Computed(_) => 3
    case Found(_) => 2
    case Ready(_) => 1
    case Finished(_) => 0
    case Silent => 0
  }

  /** The same for the first n calls, as far as they are sync ones. */
  function SyncRank(run: Run, n: nat): nat
    requires n <= |run.jobs| == |run.phases|
  {
    if n == 0 then 0
    else SyncRank(run, n - 1) + if KindAt(run, n - 1) == SyncKind then PhaseRank(run.phases[n - 1]) else 0
  }

  function PcRank(run: Run): nat {
    match run.pc
    case Scheduled => |run.jobs| + 5
    case Counted => |run.jobs| + 4
    case AsyncAdded => |run.jobs| + 3
    case Dispatching(i) => if i < |run.jobs| then |run.jobs| - i + 2 else 2
    case Awaiting => 1
    case Returned => 0
  }

  /** How many statuses the sync loop may still receive, and whether it has to end. */
  ghost function LoopRank(run: Run): nat {
    var all := |Reporters(run.jobs, SyncKind)|;
    (if |run.sync.got| < all then all - |run.sync.got| else 0) + if run.sync.wait.Done? then 0 else 1
  }

  /** How many steps a run may still take before it returns. */
  ghost function Measure(run: Run): nat
    requires |run.phases| == |run.jobs|
  {
    PcRank(run) + LoopRank(run) + SyncRank(run, |run.jobs|)
  }

  /** A step of run r itself, of its wait loop or of one of its sync calls. */
  predicate Own(jobs: seq<Job>, step: Step, r: nat) {
    || step == RunStep(r)
    || step == Receive(r, SyncKind)
    || step == GiveUp(r, SyncKind)
    || (step.JobStep? && step.r == r && step.i < |jobs| && KindOf(jobs[step.i].mode) == SyncKind)
  }

  lemma {:induction false} SyncRankChange(run: Run, run': Run, i: nat, n: nat)
    requires run.jobs == run'.jobs && i < |run.jobs| && n <= |run.jobs| == |run.phases| == |run'.phases|
    requires forall j | 0 <= j < |run.jobs| && j != i :: run'.phases[j] == run.phases[j]
    ensures var change := PhaseRank(run'.phases[i]) - PhaseRank(run.phases[i]);
            SyncRank(run', n) == SyncRank(run, n) + if i < n && KindAt(run, i) == SyncKind then change else 0
    decreases n
  {
    if n > 0 {
      SyncRankChange(run, run', i, n - 1);
    }
  }

  lemma {:induction false} SyncRankSame(run: Run, run': Run, n: nat)
    requires run.jobs == run'.jobs && run.phases == run'.phases && n <= |run.jobs| == |run.phases|
    ensures SyncRank(run', n) == SyncRank(run, n)
    decreases n
  {
    if n > 0 {
      SyncRankSame(run, run', n - 1);
    }
  }

  lemma {:induction false} SyncRankAtMost(run: Run, n: nat)
    requires n <= |run.jobs| == |run.phases|
    ensures SyncRank(run, n) <= 5 * n
    decreases n
  {
    if n > 0 {
      SyncRankAtMost(run, n - 1);
    }
  }

  lemma MeasureAtMost(run: Run)
    requires |run.phases| == |run.jobs|
    ensures Measure(run) <= 7 * |run.jobs| + 6
  {
    hide KindOf;
    SyncRankAtMost(run, |run.jobs|);
    ReportersAtMost(run.jobs);
  }

  lemma {:induction false} ReportersAtMost(jobs: seq<Job>)
    ensures |Reporters(jobs, SyncKind)| <= |jobs|
    decreases |jobs|
  {
    hide KindOf;
    if jobs == [] {
      assert Reporters(jobs, SyncKind) == {};
    } else {
      var front := jobs[..|jobs| - 1];
      ReportersAtMost(front);
      SubsetSize(Reporters(jobs, SyncKind), Reporters(front, SyncKind) + {|front|});
    }
  }

  /** A step that changes one call lowers its rank, and leaves the rest of the measure alone. */
  lemma PhaseMeasure(run: Run, run': Run, i: nat)
    requires i < |run.jobs| == |run.phases| && run'.jobs == run.jobs && |run'.phases| == |run.phases|
    requires run'.phases == run.phases[i := run'.phases[i]] && PhaseRank(run'.phases[i]) < PhaseRank(run.phases[i])
    requires PcRank(run') <= PcRank(run) && run'.sync.got == run.sync.got && run'.sync.wait == run.sync.wait
    ensures Measure(run') <= Measure(run)
    ensures KindAt(run, i) == SyncKind || PcRank(run') < PcRank(run) ==> Measure(run') < Measure(run)
  {
    hide KindOf, PhaseRank, PcRank;
    SyncRankChange(run, run', i, |run.jobs|);
  }

  lemma LoopMeasure(run: Run, run': Run)
    requires |run.jobs| == |run.phases| && run'.jobs == run.jobs && run'.phases == run.phases
    requires PcRank(run') + LoopRank(run') <= PcRank(run) + LoopRank(run)
    ensures Measure(run') <= Measure(run)
    ensures PcRank(run') + LoopRank(run') < PcRank(run) + LoopRank(run) ==> Measure(run') < Measure(run)
  {
    SyncRankSame(run, run', |run.jobs|);
  }

  lemma SendShape(run: Run, i: nat, out: Outcome)
    requires i < |run.jobs| == |run.phases|
    ensures var run' := Send(run, i, out);
            && run'.jobs == run.jobs && run'.pc == run.pc && run'.phases == run.phases[i := Finished(out)]
            && run'.sync.got == run.sync.got && run'.sync.wait == run.sync.wait && run'.sync.cap == run.sync.cap
            && run'.async.wait == run.async.wait && run'.async.cap == run.async.cap
            && run'.syncAdded == run.syncAdded && run'.asyncAdded == run.asyncAdded
            && run'.cut == run.cut && run'.expired == run.expired && run'.asyncExpired == run.asyncExpired
  {
    hide KindOf;
  }

  lemma JobRank(env: Env, t: int, run: Run, i: nat, present: bool)
    requires JobCanStep(run, i) && !run.phases[i].Ready?
    ensures PhaseRank(JobNext(env, t, run, i, present).0) < PhaseRank(run.phases[i])
  {
    hide OutcomeOf;
  }

  lemma JobStepMeasure(env: Env, t: int, run: Run, i: nat, present: bool)
    requires JobCanStep(run, i)
    ensures var run' := AfterJobStep(env, t, run, i, present);
            && run'.jobs == run.jobs && |run'.phases| == |run.phases| && Measure(run') <= Measure(run)
            && (KindAt(run, i) == SyncKind ==> Measure(run') < Measure(run))
  {
    hide JobNext, KindAt, Measure, Send, HasRoom, JobCanStep, ChanOf, PhaseRank;
    JobStepCanStep(run, i);
    match run.phases[i]
    case Ready(out) =>
      if HasRoom(ChanOf(run, KindAt(run, i))) {
        SentMeasure(run, i, out);
      } else {
        PhaseUpdateMeasure(run, i, Silent);
      }
    case _ =>
      JobRank(env, t, run, i, present);
      PhaseUpdateMeasure(run, i, JobNext(env, t, run, i, present).0);
  }

  lemma JobStepCanStep(run: Run, i: nat)
    requires JobCanStep(run, i)
    ensures i < |run.jobs| == |run.phases|
    ensures run.phases[i].Ready? ==> PhaseRank(run.phases[i]) == 1 && PhaseRank(Silent) == 0
  {
    hide HasRoom, KindAt, ChanOf;
  }

  lemma SentMeasure(run: Run, i: nat, out: Outcome)
    requires i < |run.jobs| == |run.phases| && run.phases[i] == Ready(out)
    ensures var run' := Send(run, i, out);
            && run'.jobs == run.jobs && |run'.phases| == |run.phases| && Measure(run') <= Measure(run)
            && (KindAt(run, i) == SyncKind ==> Measure(run') < Measure(run))
  {
    hide KindAt, Measure, Send;
    SendShape(run, i, out);
    PhaseMeasure(run, Send(run, i, out), i);
  }

  lemma PhaseUpdateMeasure(run: Run, i: nat, p: Phase)
    requires i < |run.jobs| == |run.phases| && PhaseRank(p) < PhaseRank(run.phases[i])
    ensures var run' := run.(phases := run.phases[i := p]);
            Measure(run') <= Measure(run) && (KindAt(run, i) == SyncKind ==> Measure(run') < Measure(run))
  {
    hide KindAt, Measure, PhaseRank;
    PhaseMeasure(run, run.(phases := run.phases[i := p]), i);
  }

  lemma DispatchMeasure(env: Env, r: nat, run: Run, i: nat)
    requires i < |run.jobs| == |run.phases| && run.pc == Dispatching(i) && run.phases[i].Pending?
    ensures var run' := Dispatched(env, r, run, i).(pc := Dispatching(i + 1));
            run'.jobs == run.jobs && |run'.phases| == |run.phases| && Measure(run') < Measure(run)
  {
    hide KindAt, Measure, Send;
    SendShape(run, i, Err(()));
    PhaseMeasure(run, Dispatched(env, r, run, i).(pc := Dispatching(i + 1)), i);
  }

  lemma RunStepRanks(env: Env, r: nat, run: Run, present: bool)
    requires RunCanStep(env, r, run) && !(run.pc.Dispatching? && run.pc.next < |run.jobs|)
    requires run.sync.wait.NotWaiting? <==> !run.pc.Awaiting? && !run.pc.Returned?
    ensures var run' := RunNext(env, r, run, present);
            && run'.jobs == run.jobs && run'.phases == run.phases
            && PcRank(run') + LoopRank(run') < PcRank(run) + LoopRank(run)
  {
    hide Reporters, Dispatched, CanDispatch;
  }

  lemma RunStepMeasure(env: Env, r: nat, run: Run, present: bool)
    requires RunCanStep(env, r, run) && PcOk(run)
    requires run.sync.wait.NotWaiting? <==> !run.pc.Awaiting? && !run.pc.Returned?
    ensures var run' := RunNext(env, r, run, present);
            run'.jobs == run.jobs && |run'.phases| == |run.phases| && Measure(run') < Measure(run)
  {
    hide Measure, PcRank, LoopRank, Dispatched, CanDispatch;
    if run.pc.Dispatching? && run.pc.next < |run.jobs| {
      DispatchMeasure(env, r, run, run.pc.next);
    } else {
      RunStepRanks(env, r, run, present);
      LoopMeasure(run, RunNext(env, r, run, present));
    }
  }

  lemma ReceiveMeasure(env: Env, r: nat, run: Run, k: Kind)
    requires RunOk(env, r, run) && CanReceive(run, k)
    ensures Received(run, k).jobs == run.jobs && Received(run, k).phases == run.phases
    ensures Measure(Received(run, k)) <= Measure(run)
    ensures k == SyncKind ==> Measure(Received(run, k)) < Measure(run)
  {
    hide KindOf, Measure, Reporters, StatusesOk, PhaseOk, PlanOf;
    LoopMeasure(run, Received(run, k));
  }

  lemma SamePcRank(run: Run, run': Run)
    requires run'.jobs == run.jobs && run'.pc == run.pc
    ensures PcRank(run') == PcRank(run)
  {
  }

  lemma GiveUpMeasure(run: Run, k: Kind)
    requires |run.jobs| == |run.phases| && CanGiveUp(run, k)
    ensures GivenUp(run, k).jobs == run.jobs && GivenUp(run, k).phases == run.phases
    ensures Measure(GivenUp(run, k)) <= Measure(run)
    ensures k == SyncKind ==> Measure(GivenUp(run, k)) < Measure(run)
  {
    hide KindOf, Measure, Reporters, PcRank;
    assert PcRank(GivenUp(run, k)) == PcRank(run) by { SamePcRank(run, GivenUp(run, k)); }
    LoopMeasure(run, GivenUp(run, k));
  }

  /** What NextMeasure says of one run. */
  ghost predicate UsesMeasure(run: Run, run': Run, own: bool) {
    && run'.jobs == run.jobs
    && |run'.phases| == |run.phases| == |run.jobs|
    && Measure(run') <= Measure(run)
    && (own ==> Measure(run') < Measure(run))
  }

  /** Steps of a run, of its loop and of its sync calls use its measure up, and no other step gives it back. */
  lemma NextMeasure(env: Env, s: State, step: Step, r: nat)
    requires Inv(env, s) && CanStep(env, s, step) && r in s.runs
    ensures var s' := Next(env, s, step);
            r in s'.runs && UsesMeasure(s.runs[r], s'.runs[r], Own(s.runs[r].jobs, step, r))
  {
    hide Measure, RunOk, RunNext, AfterJobStep, JobNext, Received, GivenUp, HostNext, CanReceive, CanGiveUp, KindAt,
      RunCanStep, JobCanStep, HostCanStep, CanExpire, CanAbort, CanLose, Aborted, HostOk, StoredOk, Sound, CheckOk,
      LiveRuns;
    var run := s.runs[r];
    RunPhases(env, r, run);
    if step.HostStep? {
      HostKeepsRun(env, s, r);
    } else if step.r != r {
      OtherStepKeepsRun(env, s, step, r);
    } else {
      match step
      case RunStep(_) => OwnStepMeasure(env, s, r);
      case JobStep(_, i) =>
        SameKind(run, i);
        JobStepMeasure(env, TypeOf(env, r), run, i, s.present);
      case Receive(_, k) => ReceiveMeasure(env, r, run, k);
      case GiveUp(_, k) => GiveUpMeasure(run, k);
      case _ => SideMeasure(env, s, step, r);
    }
  }

  lemma SameKind(run: Run, i: nat)
    requires JobCanStep(run, i)
    ensures i < |run.jobs| == |run.phases| && KindAt(run, i) == KindOf(run.jobs[i].mode)
  {
    hide KindOf, HasRoom;
  }

  lemma OtherStepKeepsRun(env: Env, s: State, step: Step, r: nat)
    requires CanStep(env, s, step) && r in s.runs && !step.HostStep? && step.r != r
    ensures r in Next(env, s, step).runs && Next(env, s, step).runs[r] == s.runs[r]
  {
    hide RunNext, AfterJobStep, JobNext, Received, GivenUp, CanReceive, CanGiveUp, KindAt,
      RunCanStep, JobCanStep, CanExpire, CanAbort, CanLose, Aborted;
  }

  lemma RunPhases(env: Env, r: nat, run: Run)
    requires RunOk(env, r, run)
    ensures |run.phases| == |run.jobs|
  {
  }

  lemma HostKeepsRun(env: Env, s: State, r: nat)
    requires Inv(env, s) && CanStep(env, s, HostStep) && r in s.runs
    ensures r in HostNext(env, s).runs && HostNext(env, s).runs[r] == s.runs[r]
  {
    hide RunOk, StoredOk, Sound, CheckOk, StartsRun, NewRun;
  }

  lemma OwnStepMeasure(env: Env, s: State, r: nat)
    requires r in s.runs && CanStep(env, s, RunStep(r)) && RunOk(env, r, s.runs[r])
    ensures var s' := Next(env, s, RunStep(r));
            && r in s'.runs && s'.runs[r].jobs == s.runs[r].jobs
                && |s'.runs[r].phases| == |s.runs[r].phases| == |s.runs[r].jobs|
            && Measure(s'.runs[r]) < Measure(s.runs[r])
  {
    hide Measure, RunNext, PhaseOk, PlanOf, StatusesOk, Reporters;
    var run := s.runs[r];
    if run.pc.Scheduled? && !s.analysis {
      MissingMeasure(run);
    } else {
      RunStepMeasure(env, r, run, s.present);
    }
  }

  lemma MissingMeasure(run: Run)
    requires |run.phases| == |run.jobs| && run.pc.Scheduled?
    ensures Measure(run.(pc := Returned)) < Measure(run)
  {
    hide KindOf, Measure, Reporters;
    LoopMeasure(run, run.(pc := Returned));
  }

  lemma SameRanks(run: Run, run': Run)
    requires run'.jobs == run.jobs && run'.pc == run.pc && run'.sync == run.sync
    ensures PcRank(run') == PcRank(run) && LoopRank(run') == LoopRank(run)
  {
  }

  lemma SideMeasure(env: Env, s: State, step: Step, r: nat)
    requires CanStep(env, s, step) && r in s.runs && |s.runs[r].phases| == |s.runs[r].jobs|
    requires step.Expire? || step.Unregister? || step.Abort? || step.Lose?
    ensures var s' := Next(env, s, step);
            && r in s'.runs && s'.runs[r].jobs == s.runs[r].jobs && |s'.runs[r].phases| == |s.runs[r].phases|
            && Measure(s'.runs[r]) <= Measure(s.runs[r])
  {
    hide Measure, CanExpire, KindAt;
    var run, run' := s.runs[r], Next(env, s, step).runs[r];
    match step
    case Abort(q, i) => if q == r { PhaseMeasure(run, run', i); }
    case Lose(q, i) => if q == r { PhaseMeasure(run, run', i); }
    case _ =>
      SameRanks(run, run');
      LoopMeasure(run, run');
  }

  /** How many of the steps belong to run r. */
  function OwnSteps(jobs: seq<Job>, steps: seq<Step>, r: nat): nat {
    if steps == [] then 0 else (if Own(jobs, steps[0], r) then 1 else 0) + OwnSteps(jobs, steps[1..], r)
  }

  lemma {:induction false} OwnStepsUseMeasure(env: Env, s: State, steps: seq<Step>, r: nat)
    requires OneAnalyzePerType(env) && Inv(env, s) && Possible(env, s, steps) && r in s.runs
    requires |s.runs[r].phases| == |s.runs[r].jobs|
    ensures OwnSteps(s.runs[r].jobs, steps, r) <= Measure(s.runs[r])
    decreases |steps|
  {
    hide Inv, OneAnalyzePerType, Measure, Own, Next, CanStep;
    if steps != [] {
      NextMeasure(env, s, steps[0], r);
      NextInv(env, s, steps[0]);
      OwnStepsUseMeasure(env, Next(env, s, steps[0]), steps[1..], r);
    }
  }

  /**
   From any reachable state on, whatever happens and in whatever order, a callPlugins with n calls, its wait
   loop and its sync calls take at most 7n + 6 more steps.
   */
  lemma RunStepsAreBounded(env: Env, e: State, steps: seq<Step>, r: nat)
    requires OneAnalyzePerType(env) && Reachable(env, e) && r in e.runs && Possible(env, e, steps)
    ensures OwnSteps(e.runs[r].jobs, steps, r) <= 7 * |e.runs[r].jobs| + 6
  {
    hide OneAnalyzePerType, Reachable, Possible, RunOk, Measure;
    ReachableInv(env, e);
    RunPhases(env, r, e.runs[r]);
    OwnStepsUseMeasure(env, e, steps, r);
    MeasureAtMost(e.runs[r]);
  }

  // --------------------------------------------------------------------------------------------
  // Every call reports
  // --------------------------------------------------------------------------------------------

  /** The call has been started, is not lost, and its status will be wanted: somebody can still receive it. */
  predicate WillReport(run: Run, i: nat) {
    && i < |run.jobs| == |run.phases|
    && !run.jobs[i].mode.Training? && !run.phases[i].Pending? && !run.phases[i].Silent?
    && (if KindAt(run, i) == AsyncKind then run.pc.Dispatching? || run.async.wait.Waiting? else !run.pc.Returned?)
  }

  lemma ReportStep(env: Env, s: State, r: nat, i: nat)
    requires Inv(env, s) && r in s.runs && WillReport(s.runs[r], i) && !s.runs[r].phases[i].Finished?
    ensures CanStep(env, s, JobStep(r, i))
    ensures r in Next(env, s, JobStep(r, i)).runs && WillReport(Next(env, s, JobStep(r, i)).runs[r], i)
    ensures i < |s.runs[r].phases| && i < |Next(env, s, JobStep(r, i)).runs[r].phases|
    ensures PhaseRank(Next(env, s, JobStep(r, i)).runs[r].phases[i]) < PhaseRank(s.runs[r].phases[i])
  {
    hide RunOk, StoredOk, Sound, CheckOk, HostOk, JobNext, AfterJobStep;
    var run := s.runs[r];
    assert RunOk(env, r, run);
    CallCanStep(env, r, run, i);
    if !run.pc.Returned? {
      LiveRunFindsTransaction(env, s, r);
    }
    CallMoves(env, r, run, i, s.present);
  }

  lemma CallCanStep(env: Env, r: nat, run: Run, i: nat)
    requires RunOk(env, r, run) && WillReport(run, i) && !run.phases[i].Finished?
    ensures JobCanStep(run, i)
  {
    hide RunOk, KindAt;
    RunPhases(env, r, run);
    if run.phases[i].Ready? {
      ReadyHasRoom(env, r, run, i);
    }
  }

  lemma CallMoves(env: Env, r: nat, run: Run, i: nat, present: bool)
    requires RunOk(env, r, run) && WillReport(run, i) && JobCanStep(run, i) && (!run.pc.Returned? ==> present)
    ensures var run' := AfterJobStep(env, TypeOf(env, r), run, i, present);
            WillReport(run', i) && PhaseRank(run'.phases[i]) < PhaseRank(run.phases[i])
  {
    hide PlanOf, StartsRun, Delivers, OutcomeOk, StatusesOk, OutcomeOf;
    assert PhaseOk(env, r, TypeOf(env, r), run, i);
    if run.phases[i].Ready? {
      ReadyHasRoom(env, r, run, i);
      SendShape(run, i, run.phases[i].out);
    } else {
      assert i in Reporters(run.jobs, KindAt(run, i));
    }
  }

  /**
   Nothing but a loss in NATS keeps a call from reporting: left to itself, a call that has been started ends with
   its status in the channel, for a sync call as long as callPlugins has not returned and for an async one as long
   as the async waiter waits for it.
   */
  lemma {:induction false} CallReports(env: Env, s: State, r: nat, i: nat) returns (steps: seq<Step>)
    requires OneAnalyzePerType(env) && Inv(env, s) && r in s.runs && i < |s.runs[r].phases| && WillReport(s.runs[r], i)
    ensures Possible(env, s, steps) && |steps| <= PhaseRank(s.runs[r].phases[i])
    ensures forall step | step in steps :: step == JobStep(r, i)
    ensures var e := After(env, s, steps);
            && r in e.runs && i < |e.runs[r].jobs|
            && var c := ChanOf(e.runs[r], KindAt(e.runs[r], i));
            exists a :: 0 <= a < |c.got + c.buf| && (c.got + c.buf)[a].job == i
    decreases PhaseRank(s.runs[r].phases[i])
  {
    hide Inv, OneAnalyzePerType, WillReport, Next, CanStep;
    if s.runs[r].phases[i].Finished? {
      steps := [];
      FinishedIsThere(env, s, r, i);
    } else {
      ReportStep(env, s, r, i);
      NextInv(env, s, JobStep(r, i));
      var rest := CallReports(env, Next(env, s, JobStep(r, i)), r, i);
      steps := [JobStep(r, i)] + rest;
      assert steps[1..] == rest;
    }
  }

  /** The calls a list of statuses is about. */
  function JobsOf(all: seq<Status>): set<nat> {
    set a | 0 <= a < |all| :: all[a].job
  }

  lemma {:induction false} DistinctJobs(all: seq<Status>)
    requires forall a, b | 0 <= a < b < |all| :: all[a].job != all[b].job
    ensures |JobsOf(all)| == |all|
    decreases |all|
  {
    if all != [] {
      var front, last := all[..|all| - 1], all[|all| - 1];
      DistinctJobs(front);
      assert last.job !in JobsOf(front);
      assert all[|all| - 1] == last;
      assert JobsOf(all) == JobsOf(front) + {last.job};
    }
  }

  lemma FinishedIsThere(env: Env, s: State, r: nat, i: nat)
    requires Inv(env, s) && r in s.runs && WillReport(s.runs[r], i) && s.runs[r].phases[i].Finished?
    ensures i < |s.runs[r].jobs|
    ensures var c := ChanOf(s.runs[r], KindAt(s.runs[r], i));
            exists a :: 0 <= a < |c.got + c.buf| && (c.got + c.buf)[a].job == i
  {
    hide StoredOk, Sound, CheckOk, HostOk, PhaseOk, PcOk, PlanOf, StartsRun, ChanOf;
    var run := s.runs[r];
    var k := KindAt(run, i);
    assert RunOk(env, r, run) && StatusesOk(run, k);
    var all := ChanOf(run, k).got + ChanOf(run, k).buf;
    DistinctJobs(all);
    if i !in JobsOf(all) {
      Smaller(JobsOf(all), FinishedJobs(run, k), i);
    }
  }
}
