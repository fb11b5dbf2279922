/**
 The training collector: handleTraining as a transition system over two durable files, the result file and
 the status file, that survives crashes between any two file operations; and the function itself, proved to
 perform only steps of that system.
 */
module Collector {
  import opened Common
  import opened Config

  datatype Label = Collecting | Ready | Finished | Failed

  /** TrainingStatus, without its dates. */
  datatype Status = Status(collected: int, mark: Label)

  /** What is on disk: the lines of the result file, and the content of the status file if there is one. */
  datatype Disk = Disk(lines: seq<string>, status: Option<Status>)

  /** Where the collector is. */
  datatype Pc =
    | Down                              // no collector is running
    | Loading                           // about to read the status file
    | Opening                           // about to open and count the result file
    | Resumed(count: int)               // counted; about to write the first status
    | Head(count: int, mark: Label)    // at the head of the loop, waiting for a sample
    | Appended(count: int, mark: Label) // a sample has been appended; the status file may have to be written
    | Broken(count: int)                // a sample could not be appended; about to write the error status

  datatype State = State(disk: Disk, pc: Pc)

  datatype Event =
    | Start                 // the plugin manager starts a collector
    | Load(ok: bool)        // read the status file
    | Open(ok: bool)        // open the result file and count its lines
    | Write(ok: bool)       // writeStatus: all or nothing, the file is renamed into place
    | Sample(data: string, ok: bool) // a sample arrives and is appended, or not
    | Cancel                // the training context is cancelled
    | Crash                 // the process stops

  /** An empty path means no status file. */
  predicate HasStatusFile(td: TrainingData) {
    td.statusPath != ""
  }

  /** The label of a number of collected samples. */
  function LabelFor(td: TrainingData, count: int): Label {
    if count >= td.maxSamples then Finished else if count >= td.minSamples then Ready else Collecting
  }

  /** The switch of the loop, which only tests for equality. */
  function Relabel(td: TrainingData, count: int, mark: Label): Label {
    if count == td.maxSamples then Finished else if count == td.minSamples then Ready else mark
  }

  /** The status is written after these samples; Go's remainder, here of a positive divisor. */
  predicate Due(td: TrainingData, count: int) {
    count == td.minSamples || count == td.maxSamples || (td.interval > 0 && count % td.interval == 0)
  }

  function Written(td: TrainingData, d: Disk, s: Status, ok: bool): Disk {
    if ok && HasStatusFile(td) then d.(status := Some(s)) else d
  }

  /** The write at the end of an iteration, if it is due. */
  function Recorded(td: TrainingData, d: Disk, status: Status, ok: bool): Disk {
    if Due(td, status.collected) then Written(td, d, status, ok) else d
  }

  function LoopOrEnd(td: TrainingData, count: int, mark: Label): Pc {
    if count < td.maxSamples then Head(count, mark) else Down
  }

  predicate CanStep(s: State, e: Event) {
    match e
    case Start => s.pc.Down?
    case Load(_) => s.pc.Loading?
    case Open(_) => s.pc.Opening?
    case Write(_) => s.pc.Resumed? || s.pc.Appended? || s.pc.Broken?
    case Sample(_, _) => s.pc.Head?
    case Cancel => s.pc.Head?
    case Crash => true
  }

  function Next(td: TrainingData, s: State, e: Event): State
    requires CanStep(s, e)
  {
    match e
    case Start => s.(pc := Loading)
    case Load(ok) =>
      if ok && HasStatusFile(td) && s.disk.status.Some?
          && (s.disk.status.value.mark.Finished? || s.disk.status.value.mark.Failed?)
      then s.(pc := Down)
      else s.(pc := Opening)
    case Open(ok) => if ok then s.(pc := Resumed(|s.disk.lines|)) else s.(pc := Down)
    case Write(ok) => (
      match s.pc
      case Resumed(c) => State(Written(td, s.disk, Status(c, LabelFor(td, c)), ok), LoopOrEnd(td, c, LabelFor(td, c)))
      case Appended(c, l) => State(Recorded(td, s.disk, Status(c, l), ok), LoopOrEnd(td, c, l))
      case Broken(c) => State(Written(td, s.disk, Status(c, Failed), ok), Down)
      case _ => s)
    case Sample(data, ok) =>
      if ok then State(s.disk.(lines := s.disk.lines + [data]),
          Appended(s.pc.count + 1, Relabel(td, s.pc.count + 1, s.pc.mark)))
      else s.(pc := Broken(s.pc.count))
    case Cancel => s.(pc := Down)
    case Crash => s.(pc := Down)
  }

  /** The events can happen one after the other from s. */
  predicate Possible(td: TrainingData, s: State, events: seq<Event>)
    decreases |events|
  {
    events != [] ==> CanStep(s, events[0]) && Possible(td, Next(td, s, events[0]), events[1..])
  }

  function After(td: TrainingData, s: State, events: seq<Event>): State
    requires Possible(td, s, events)
    decreases |events|
  {
    if events == [] then s else After(td, Next(td, s, events[0]), events[1..])
  }

  lemma Prepend(td: TrainingData, s: State, e: Event, events: seq<Event>)
    requires CanStep(s, e) && Possible(td, Next(td, s, e), events)
    ensures Possible(td, s, [e] + events) && After(td, s, [e] + events) == After(td, Next(td, s, e), events)
  {
  }

  // --------------------------------------------------------------------------------------------
  // Exactness across crashes and restarts
  // --------------------------------------------------------------------------------------------

  /**
   The collector's count is the number of lines, its label is exact, and a finished status is not written too early.
   */
  predicate Inv(td: TrainingData, most: nat, s: State) {
    && |s.disk.lines| <= (if most > td.maxSamples then most else td.maxSamples)
    && (s.disk.status.Some? && s.disk.status.value.mark.Finished? ==> |s.disk.lines| >= td.maxSamples)
    && match s.pc
       case Resumed(c) => c == |s.disk.lines|
       case Head(c, l) => c == |s.disk.lines| && c < td.maxSamples && l == LabelFor(td, c)
       case Appended(c, l) => c == |s.disk.lines| && c <= td.maxSamples && l == LabelFor(td, c)
       case Broken(c) => c == |s.disk.lines|
       case _ => true
  }

  lemma NextInv(td: TrainingData, most: nat, s: State, e: Event)
    requires TrainingReady(td) && Inv(td, most, s) && CanStep(s, e)
    ensures Inv(td, most, Next(td, s, e))
  {
  }

  lemma {:induction false} AfterInv(td: TrainingData, most: nat, s: State, events: seq<Event>)
    requires TrainingReady(td) && Inv(td, most, s) && Possible(td, s, events)
    ensures Inv(td, most, After(td, s, events))
    decreases |events|
  {
    if events != [] {
      NextInv(td, most, s, events[0]);
      AfterInv(td, most, Next(td, s, events[0]), events[1..]);
    }
  }

  /**
   Whatever crashes, restarts, cancellations and failing operations happen: the result file never grows past
   the maximum (or its initial length), a finished status on disk implies that the maximum was reached, and a
   running collector knows the exact number of samples and their label.
   */
  lemma CollectionIsExact(td: TrainingData, d: Disk, events: seq<Event>)
    requires TrainingReady(td) && Possible(td, State(d, Down), events)
    requires d.status.Some? && d.status.value.mark.Finished? ==> |d.lines| >= td.maxSamples
    ensures var e := After(td, State(d, Down), events);
            && |e.disk.lines| <= (if |d.lines| > td.maxSamples then |d.lines| else td.maxSamples)
            && (e.disk.status.Some? && e.disk.status.value.mark.Finished? ==> |e.disk.lines| >= td.maxSamples)
            && (e.pc.Head? ==> e.pc.count == |e.disk.lines| && e.pc.mark == LabelFor(td, |e.disk.lines|))
  {
    AfterInv(td, |d.lines|, State(d, Down), events);
  }

  /** The data of the samples that were appended, in order. */
  function AppendedBy(events: seq<Event>): seq<string> {
    if events == [] then []
    else (if events[0].Sample? && events[0].ok then [events[0].data] else []) + AppendedBy(events[1..])
  }

  /**
   Nothing is lost, repeated or reordered: the file is what it was followed by every sample appended since, across
   restarts.
   */
  lemma {:induction false} FileIsConserved(td: TrainingData, s: State, events: seq<Event>)
    requires Possible(td, s, events)
    ensures After(td, s, events).disk.lines == s.disk.lines + AppendedBy(events)
    decreases |events|
  {
    if events != [] {
      FileIsConserved(td, Next(td, s, events[0]), events[1..]);
    }
  }

  // --------------------------------------------------------------------------------------------
  // A finished collection stays finished
  // --------------------------------------------------------------------------------------------

  predicate Terminal(status: Option<Status>) {
    status.Some? && (status.value.mark.Finished? || status.value.mark.Failed?)
  }

  predicate LoadsSucceed(events: seq<Event>) {
    forall i | 0 <= i < |events| :: events[i] != Load(false)
  }

  /**
   While the status file can be read, a terminal status on disk is never overwritten and nothing is collected any more.
   */
  lemma {:induction false} TerminalIsAbsorbing(td: TrainingData, s: State, events: seq<Event>)
    requires HasStatusFile(td) && Terminal(s.disk.status) && (s.pc.Down? || s.pc.Loading?)
    requires Possible(td, s, events) && LoadsSucceed(events)
    ensures After(td, s, events).disk == s.disk
    decreases |events|
  {
    if events != [] {
      var s' := Next(td, s, events[0]);
      assert events[0] != Load(false);
      TerminalIsAbsorbing(td, s', events[1..]);
    }
  }

  /** A terminal status is only on disk when the collector has stopped, as long as the status file can be read. */
  lemma {:induction false} TerminalMeansStopped(td: TrainingData, s: State, events: seq<Event>)
    requires TrainingReady(td) && HasStatusFile(td) && Possible(td, s, events) && LoadsSucceed(events)
    requires Inv(td, |s.disk.lines|, s) && (Terminal(s.disk.status) ==> s.pc.Down? || s.pc.Loading?)
    ensures Terminal(After(td, s, events).disk.status)
        ==> After(td, s, events).pc.Down? || After(td, s, events).pc.Loading?
    decreases |events|
  {
    if events != [] {
      var s' := Next(td, s, events[0]);
      assert events[0] != Load(false);
      NextInv(td, |s.disk.lines|, s, events[0]);
      TerminalMeansStopped(td, s', events[1..]);
    }
  }

  /**
   With a full result file a terminal status is never lost, even if the status file cannot be read: the lines
   it stands for are still there.
   */
  lemma {:induction false} FullIsAbsorbing(td: TrainingData, s: State, events: seq<Event>)
    requires Possible(td, s, events) && Terminal(s.disk.status) && |s.disk.lines| >= td.maxSamples
    requires s.pc.Down? || s.pc.Loading? || s.pc.Opening? || s.pc == Resumed(|s.disk.lines|)
    ensures var e := After(td, s, events).disk;
            && e.lines == s.disk.lines && Terminal(e.status)
            && (s.disk.status.value.mark.Finished? ==> e.status.value.mark.Finished?)
    decreases |events|
  {
    if events != [] {
      FullIsAbsorbing(td, Next(td, s, events[0]), events[1..]);
    }
  }

  /** If the status file cannot be read once, the next collector writes over it. */
  lemma UnreadableIsOverwritten(td: TrainingData, d: Disk)
    requires HasStatusFile(td)
    ensures var s := State(d, Down);
            var events := [Start, Load(false), Open(true), Write(true)];
            && Possible(td, s, events)
            && After(td, s, events).disk.status == Some(Status(|d.lines|, LabelFor(td, |d.lines|)))
  {
  }

  /** Every continuation keeps a terminal status; the status file may be unreadable now and then, or not. */
  ghost predicate StaysTerminal(td: TrainingData, d: Disk, readable: bool) {
    forall events | Possible(td, State(d, Down), events) && (readable ==> LoadsSucceed(events)) ::
      Terminal(After(td, State(d, Down), events).disk.status)
  }

  /** A terminal status is final exactly when the status file stays readable or the result file is full. */
  lemma TerminalIsFinalIff(td: TrainingData, d: Disk, readable: bool)
    requires HasStatusFile(td) && Terminal(d.status)
    ensures StaysTerminal(td, d, readable) <==> readable || |d.lines| >= td.maxSamples
  {
    var s := State(d, Down);
    if readable || |d.lines| >= td.maxSamples {
      forall events | Possible(td, s, events) && (readable ==> LoadsSucceed(events))
        ensures Terminal(After(td, s, events).disk.status)
      {
        if readable {
          TerminalIsAbsorbing(td, s, events);
        } else {
          FullIsAbsorbing(td, s, events);
        }
      }
    } else {
      UnreadableIsOverwritten(td, d);
      var events := [Start, Load(false), Open(true), Write(true)];
      assert Possible(td, s, events) && !Terminal(After(td, s, events).disk.status);
    }
  }

  // --------------------------------------------------------------------------------------------
  // How stale the status file can be
  // --------------------------------------------------------------------------------------------

  predicate WritesSucceed(events: seq<Event>) {
    forall i | 0 <= i < |events| :: events[i] != Write(false)
  }

  /** No sample in (from, to] made the status due. */
  predicate NothingDue(td: TrainingData, from: int, to: int) {
    forall x | from < x <= to :: !Due(td, x)
  }

  /** The status on disk counts the samples up to the last one that was due, or up to the last restart. */
  predicate LastDueIsOnDisk(td: TrainingData, d: Disk, to: int) {
    && d.status.Some?
    && 0 <= d.status.value.collected <= to
    && d.status.value.mark == LabelFor(td, d.status.value.collected)
    && NothingDue(td, d.status.value.collected, to)
  }

  predicate FreshInv(td: TrainingData, s: State) {
    match s.pc
    case Resumed(c) => c >= 0
    case Head(c, l) => LastDueIsOnDisk(td, s.disk, c) && l == LabelFor(td, c) && c < td.maxSamples
    case Appended(c, l) => LastDueIsOnDisk(td, s.disk, c - 1) && l == LabelFor(td, c) && c <= td.maxSamples
    case _ => true
  }

  lemma NextFresh(td: TrainingData, s: State, e: Event)
    requires TrainingReady(td) && HasStatusFile(td) && FreshInv(td, s) && CanStep(s, e) && e != Write(false)
    ensures FreshInv(td, Next(td, s, e))
  {
  }

  lemma {:induction false} AfterFresh(td: TrainingData, s: State, events: seq<Event>)
    requires TrainingReady(td) && HasStatusFile(td) && FreshInv(td, s)
    requires Possible(td, s, events) && WritesSucceed(events)
    ensures FreshInv(td, After(td, s, events))
    decreases |events|
  {
    if events != [] {
      assert events[0] != Write(false);
      NextFresh(td, s, events[0]);
      AfterFresh(td, Next(td, s, events[0]), events[1..]);
    }
  }

  /** Among any interval consecutive numbers one is a multiple of the interval. */
  lemma StaleLessThanInterval(td: TrainingData, from: int, to: int)
    requires td.interval > 0 && from <= to && NothingDue(td, from, to)
    ensures to - from < td.interval
  {
    if to - from >= td.interval {
      var x := to - to % td.interval;
      MultipleBelow(to, td.interval);
      var due := Due(td, x);
    }
  }

  lemma MultipleBelow(n: int, k: int)
    requires k > 0
    ensures (n - n % k) % k == 0 && n - k < n - n % k <= n
  {
    assert n == k * (n / k) + n % k;
    assert n - n % k == k * (n / k);
    MultipleHasNoRest(n / k, k);
  }

  lemma MultipleHasNoRest(q: int, k: int)
    requires k > 0
    ensures (k * q) % k == 0
  {
    var n := k * q;
    var z := q - n / k;
    assert n == k * (n / k) + n % k;
    assert k * z == n % k;
    if z != 0 {
      FactorExceeds(z, k);
    }
  }

  lemma FactorExceeds(z: int, k: int)
    requires k > 0 && z != 0
    ensures k * z >= k || k * z <= -k
  {
  }

  /** The label changes only at samples that are due. */
  lemma LabelIsCurrent(td: TrainingData, from: int, to: int)
    requires td.minSamples <= td.maxSamples && from <= to && NothingDue(td, from, to)
    ensures LabelFor(td, from) == LabelFor(td, to)
  {
    if from < td.minSamples <= to {
      var due := Due(td, td.minSamples);
    }
    if from < td.maxSamples <= to {
      var due := Due(td, td.maxSamples);
    }
  }

  /**
   Bounded staleness: with a positive interval and successful status writes, whenever the collector waits for a
   sample the label on disk is that of the true number of samples, and the count on disk lags by less than the
   interval, whatever crashes and restarts came before.
   */
  lemma StatusIsFresh(td: TrainingData, d: Disk, events: seq<Event>)
    requires TrainingReady(td) && HasStatusFile(td) && td.interval > 0
    requires Possible(td, State(d, Down), events) && WritesSucceed(events)
    requires After(td, State(d, Down), events).pc.Head?
    ensures var e := After(td, State(d, Down), events);
            && e.disk.status.Some?
            && e.disk.status.value.mark == LabelFor(td, e.pc.count)
            && 0 <= e.pc.count - e.disk.status.value.collected < td.interval
  {
    AfterFresh(td, State(d, Down), events);
    var e := After(td, State(d, Down), events);
    StaleLessThanInterval(td, e.disk.status.value.collected, e.pc.count);
    LabelIsCurrent(td, e.disk.status.value.collected, e.pc.count);
  }

  /**
   An accepted configuration is enough for both: a stored training model collects exactly and, unless its file
   gives a negative interval, keeps a fresh status.
   */
  lemma StoredModelCollectsSafely(f: ConfigFile, paths: Paths, id: string, d: Disk, events: seq<Event>)
    requires Accepted(f, paths) && id in StoreOf(f).models && StoreOf(f).models[id].conf.training
    requires Possible(StoreOf(f).models[id].trainingData, State(d, Down), events)
    requires After(StoreOf(f).models[id].trainingData, State(d, Down), events).pc.Head?
    requires d.status.Some? && d.status.value.mark.Finished?
        ==> |d.lines| >= StoreOf(f).models[id].trainingData.maxSamples
    ensures var td := StoreOf(f).models[id].trainingData;
            var e := After(td, State(d, Down), events);
            && e.pc.count == |e.disk.lines| && e.pc.mark == LabelFor(td, |e.disk.lines|)
            && (td.interval > 0 && HasStatusFile(td) && WritesSucceed(events) ==>
                  && e.disk.status.Some?
                  && e.disk.status.value.mark == LabelFor(td, |e.disk.lines|)
                  && 0 <= |e.disk.lines| - e.disk.status.value.collected < td.interval)
  {
    var td := StoreOf(f).models[id].trainingData;
    StoredModelsAreSafe(f, paths, id);
    CollectionIsExact(td, d, events);
    if td.interval > 0 && HasStatusFile(td) && WritesSucceed(events) {
      StatusIsFresh(td, d, events);
    }
  }

  // --------------------------------------------------------------------------------------------
  // The exact bound
  // --------------------------------------------------------------------------------------------

  /** A restart in which nothing fails. */
  const RESUME: seq<Event> := [Start, Load(true), Open(true), Write(true)]

  /** n samples that are all appended and, where due, recorded. */
  function Feed(n: nat, data: string): seq<Event> {
    if n == 0 then [] else [Sample(data, true)] + ([Write(true)] + Feed(n - 1, data))
  }

  /** The state after a restart on a disk without status. */
  function Restarted(td: TrainingData, d: Disk): State {
    var mark := LabelFor(td, |d.lines|);
    State(Written(td, d, Status(|d.lines|, mark), true), LoopOrEnd(td, |d.lines|, mark))
  }

  lemma ConcatWrites(a: seq<Event>, b: seq<Event>)
    requires WritesSucceed(b) && a == RESUME
    ensures WritesSucceed(a + b)
  {
  }

  lemma RestartThen(td: TrainingData, d: Disk, events: seq<Event>)
    requires d.status.None? && Possible(td, Restarted(td, d), events) && WritesSucceed(events)
    ensures Possible(td, State(d, Down), RESUME + events) && WritesSucceed(RESUME + events)
    ensures After(td, State(d, Down), RESUME + events) == After(td, Restarted(td, d), events)
  {
    hide Possible, After, WritesSucceed, LabelFor;
    var e3 := [Write(true)] + events;
    var e2 := [Open(true)] + e3;
    var e1 := [Load(true)] + e2;
    Prepend(td, State(d, Resumed(|d.lines|)), Write(true), events);
    Prepend(td, State(d, Opening), Open(true), e3);
    Prepend(td, State(d, Loading), Load(true), e2);
    Prepend(td, State(d, Down), Start, e1);
    assert RESUME + events == [Start] + e1;
    ConcatWrites(RESUME, events);
  }

  lemma FeedStep(td: TrainingData, s: State, n: nat, data: string)
    requires s.pc.Head? && n > 0
    requires var s2 := Next(td, Next(td, s, Sample(data, true)), Write(true)); Possible(td, s2, Feed(n - 1, data))
    ensures var s2 := Next(td, Next(td, s, Sample(data, true)), Write(true));
            Possible(td, s, Feed(n, data)) && After(td, s, Feed(n, data)) == After(td, s2, Feed(n - 1, data))
  {
    hide Possible, After;
    var s1 := Next(td, s, Sample(data, true));
    Prepend(td, s1, Write(true), Feed(n - 1, data));
    Prepend(td, s, Sample(data, true), [Write(true)] + Feed(n - 1, data));
  }

  /** While nothing is due the status on disk stays as it is. */
  lemma {:induction false} FeedQuietly(td: TrainingData, s: State, n: nat, data: string)
    requires s.pc.Head? && s.pc.count + n < td.maxSamples && NothingDue(td, s.pc.count, s.pc.count + n)
    ensures Possible(td, s, Feed(n, data)) && WritesSucceed(Feed(n, data))
    ensures var e := After(td, s, Feed(n, data));
            e.pc == Head(s.pc.count + n, s.pc.mark) && e.disk.status == s.disk.status
    decreases n
  {
    hide Possible, After;
    if n > 0 {
      var s2 := Next(td, Next(td, s, Sample(data, true)), Write(true));
      assert !Due(td, s.pc.count + 1);
      FeedQuietly(td, s2, n - 1, data);
      FeedStep(td, s, n, data);
    } else {
      NoEvents(td, s);
    }
  }

  lemma NoEvents(td: TrainingData, s: State)
    ensures Possible(td, s, []) && After(td, s, []) == s
  {
  }

  /** At every loop head a run with successful writes reaches, the count on disk lags by less than b. */
  ghost predicate LagBelow(td: TrainingData, b: int) {
    forall d, events | Possible(td, State(d, Down), events) && WritesSucceed(events) ::
      StaleBelow(After(td, State(d, Down), events), b)
  }

  predicate StaleBelow(s: State, b: int) {
    s.pc.Head? ==> s.disk.status.Some? && s.pc.count - s.disk.status.value.collected < b
  }

  /** Every stretch of samples below the maximum without one that is due is shorter than b. */
  ghost predicate QuietBelow(td: TrainingData, b: int) {
    forall c: nat, n: nat | c <= n < td.maxSamples && NothingDue(td, c, n) :: n - c < b
  }

  /** The exact bound on the lag, for any interval: the longest stretch of samples without one that is due. */
  lemma LagBelowIff(td: TrainingData, b: int)
    requires TrainingReady(td) && HasStatusFile(td)
    ensures LagBelow(td, b) <==> QuietBelow(td, b)
  {
    if QuietBelow(td, b) {
      forall d, events | Possible(td, State(d, Down), events) && WritesSucceed(events)
        ensures StaleBelow(After(td, State(d, Down), events), b)
      {
        AfterFresh(td, State(d, Down), events);
      }
    }
    if LagBelow(td, b) {
      forall c: nat, n: nat | c <= n < td.maxSamples && NothingDue(td, c, n)
        ensures n - c < b
      {
        QuietLag(td, c, n);
        assert StaleBelow(After(td, State(Disk(Lines(c), None), Down), RESUME + Feed(n - c, "")), b);
      }
    }
  }

  function Lines(n: nat): seq<string> {
    seq(n, i => "")
  }

  lemma QuietLag(td: TrainingData, c: nat, n: nat)
    requires HasStatusFile(td) && c <= n < td.maxSamples && NothingDue(td, c, n)
    ensures var s, events := State(Disk(Lines(c), None), Down), RESUME + Feed(n - c, "");
            && Possible(td, s, events) && WritesSucceed(events)
            && After(td, s, events).pc == Head(n, LabelFor(td, c))
            && After(td, s, events).disk.status == Some(Status(c, LabelFor(td, c)))
  {
    hide Possible, After;
    var d := Disk(Lines(c), None);
    FeedQuietly(td, Restarted(td, d), n - c, "");
    RestartThen(td, d, Feed(n - c, ""));
  }

  /** With a positive interval the interval is such a bound. */
  lemma IntervalBoundsLag(td: TrainingData)
    requires TrainingReady(td) && HasStatusFile(td) && td.interval > 0
    ensures LagBelow(td, td.interval)
  {
    forall c: nat, n: nat | c <= n < td.maxSamples && NothingDue(td, c, n)
      ensures n - c < td.interval
    {
      StaleLessThanInterval(td, c, n);
    }
    LagBelowIff(td, td.interval);
  }

  /**
   With a negative interval, which checkConfig accepts, the status is only written at the minimum and the
   maximum: the bounds on the lag are exactly those from the longer of the two stretches on.
   */
  lemma LagWithNegativeInterval(td: TrainingData, b: int)
    requires TrainingReady(td) && HasStatusFile(td) && td.interval < 0
    ensures LagBelow(td, b) <==> b >= td.minSamples && b >= td.maxSamples - td.minSamples
  {
    LagBelowIff(td, b);
    if QuietBelow(td, b) {
      if td.minSamples > 0 {
        assert NothingDue(td, 0, td.minSamples - 1);
      }
      if td.minSamples < td.maxSamples {
        assert NothingDue(td, td.minSamples, td.maxSamples - 1);
      }
    }
    if b >= td.minSamples && b >= td.maxSamples - td.minSamples {
      forall c: nat, n: nat | c <= n < td.maxSamples && NothingDue(td, c, n)
        ensures n - c < b
      {
        var due := Due(td, td.minSamples);
      }
    }
  }

  lemma RestIsUnique(q: int, r: int, k: int)
    requires 0 <= r < k
    ensures (k * q + r) % k == r
  {
    var n := k * q + r;
    var z := q - n / k;
    assert n == k * (n / k) + n % k;
    assert k * z == n % k - r;
    if z != 0 {
      FactorExceeds(z, k);
    }
  }

  lemma NextRest(n: int, k: int)
    requires k > 0
    ensures (n + 1) % k == 0 || (n + 1) % k == n % k + 1
  {
    assert n == k * (n / k) + n % k;
    if n % k + 1 < k {
      RestIsUnique(n / k, n % k + 1, k);
    } else {
      assert n + 1 == k * (n / k + 1) + 0 by { assert k * (n / k + 1) == k * (n / k) + k; }
      RestIsUnique(n / k + 1, 0, k);
    }
  }

  /** The count on disk after count samples, the first from of which were there at the restart. */
  function LastWritten(td: TrainingData, from: nat, count: nat): nat
    requires td.interval > 0 && td.minSamples >= 0
  {
    var multiple := count - count % td.interval;
    var minimum := if count >= td.minSamples then td.minSamples else 0;
    var due := if minimum > multiple then minimum else multiple;
    if due > from then due else from
  }

  lemma LastWrittenStep(td: TrainingData, from: nat, count: nat)
    requires TrainingReady(td) && td.interval > 0 && from <= count && count + 1 < td.maxSamples
    ensures LastWritten(td, from, count + 1) == if Due(td, count + 1) then count + 1 else LastWritten(td, from, count)
    ensures Relabel(td, count + 1, LabelFor(td, count)) == LabelFor(td, count + 1)
  {
    NextRest(count, td.interval);
  }

  lemma LastWrittenStart(td: TrainingData, from: nat)
    requires TrainingReady(td) && td.interval > 0
    ensures LastWritten(td, from, from) == from
  {
  }

  lemma {:induction false} FeedRecords(td: TrainingData, s: State, from: nat, n: nat, data: string)
    requires TrainingReady(td) && HasStatusFile(td) && td.interval > 0
    requires s.pc.Head? && from <= s.pc.count && s.pc.count + n < td.maxSamples && s.pc.mark == LabelFor(td, s.pc.count)
    requires s.disk.status == Some(Status(LastWritten(td, from, s.pc.count), LabelFor(td, s.pc.count)))
    ensures Possible(td, s, Feed(n, data)) && WritesSucceed(Feed(n, data))
    ensures var e, count := After(td, s, Feed(n, data)), s.pc.count + n;
            && e.pc == Head(count, LabelFor(td, count))
            && e.disk.status == Some(Status(LastWritten(td, from, count), LabelFor(td, count)))
    decreases n
  {
    hide Possible, After, LastWritten;
    if n > 0 {
      LastWrittenStep(td, from, s.pc.count);
      if !Due(td, s.pc.count + 1) {
        NotDueNoChange(td, s.pc.count);
      }
      FeedRecords(td, Next(td, Next(td, s, Sample(data, true)), Write(true)), from, n - 1, data);
      FeedStep(td, s, n, data);
    } else {
      NoEvents(td, s);
    }
  }

  lemma NotDueNoChange(td: TrainingData, count: int)
    requires TrainingReady(td) && !Due(td, count + 1)
    ensures LabelFor(td, count + 1) == LabelFor(td, count)
  {
  }

  /** m is the largest of the three. */
  predicate Largest(m: int, a: int, b: int, c: int) {
    m >= a && m >= b && m >= c && (m == a || m == b || m == c)
  }

  /**
   What the status says with a positive interval, after a restart on a disk of any number of samples and as many
   more as one likes below the maximum, all recorded where due: its count is the last multiple of the interval,
   the minimum if reached, or the number at the restart, whichever is larger; its label is that of the true count.
   */
  lemma StatusWithInterval(td: TrainingData, d: Disk, count: nat, data: string)
    requires TrainingReady(td) && HasStatusFile(td) && td.interval > 0
    requires d.status.None? && |d.lines| <= count < td.maxSamples
    ensures var s, events := State(d, Down), RESUME + Feed(count - |d.lines|, data);
            && Possible(td, s, events) && WritesSucceed(events)
            && var mark := if count < td.minSamples then Collecting else Ready;
            && After(td, s, events).pc == Head(count, mark)
            && var status := After(td, s, events).disk.status;
            && status.Some? && status.value.mark == mark
            && Largest(status.value.collected, |d.lines|, count - count % td.interval,
                       if count >= td.minSamples then td.minSamples else 0)
  {
    hide Possible, After;
    var from := |d.lines|;
    LastWrittenStart(td, from);
    FeedRecords(td, Restarted(td, d), from, count - from, data);
    RestartThen(td, d, Feed(count - from, data));
  }

  /** The last number of samples at which a status was written, when there is no interval. */
  function LastRecorded(td: TrainingData, count: nat): int {
    if count >= td.minSamples then td.minSamples else 0
  }

  /** What the status says of a fresh collection of any length, with a negative interval. */
  lemma StatusLagsWithoutInterval(td: TrainingData, count: nat, data: string)
    requires TrainingReady(td) && HasStatusFile(td) && td.interval < 0 && count < td.maxSamples
    ensures var s := State(Disk([], None), Down);
            var events := RESUME + Feed(count, data);
            && Possible(td, s, events) && WritesSucceed(events)
            && After(td, s, events).pc == Head(count, LabelFor(td, count))
            && After(td, s, events).disk.status == Some(Status(LastRecorded(td, count), LabelFor(td, count)))
  {
    hide Possible, After;
    FeedLags(td, Restarted(td, Disk([], None)), count, data);
    RestartThen(td, Disk([], None), Feed(count, data));
  }

  lemma {:induction false} FeedLags(td: TrainingData, s: State, n: nat, data: string)
    requires TrainingReady(td) && HasStatusFile(td) && td.interval < 0
    requires s.pc.Head? && s.pc.count >= 0 && s.pc.count + n < td.maxSamples && s.pc.mark == LabelFor(td, s.pc.count)
    requires s.disk.status == Some(Status(LastRecorded(td, s.pc.count), LabelFor(td, s.pc.count)))
    ensures Possible(td, s, Feed(n, data)) && WritesSucceed(Feed(n, data))
    ensures var e := After(td, s, Feed(n, data));
            && e.pc == Head(s.pc.count + n, LabelFor(td, s.pc.count + n))
            && e.disk.status == Some(Status(LastRecorded(td, s.pc.count + n), LabelFor(td, s.pc.count + n)))
    decreases n
  {
    hide Possible, After;
    if n > 0 {
      FeedLags(td, Next(td, Next(td, s, Sample(data, true)), Write(true)), n - 1, data);
      FeedStep(td, s, n, data);
    } else {
      NoEvents(td, s);
    }
  }

  // --------------------------------------------------------------------------------------------
  // handleTraining
  // --------------------------------------------------------------------------------------------

  /**
   What one collector meets: whether the status file can be read and the result file opened, the samples it
   receives before it is cancelled (and whether each can be appended), and how far each status write gets. No
   status is written twice by one collector, so writes gives every write an outcome of its own.
   */
  datatype Inputs = Inputs(loadOk: bool, openOk: bool, received: seq<(string, bool)>, writes: Status -> Progress)

  /** How far writeStatus gets before it fails, or before the process stops. */
  datatype Progress =
    | Unwritten    // the temporary file could not be opened
    | Partial      // it is truncated, and incomplete
    | Complete     // it is complete, and not renamed
    | Renamed

  /** The status the next write is about. */
  function ToWrite(td: TrainingData, pc: Pc): Status
    requires pc.Resumed? || pc.Appended? || pc.Broken?
  {
    match pc
    case Resumed(c) => Status(c, LabelFor(td, c))
    case Appended(c, l) => Status(c, l)
    case Broken(c) => Status(c, Failed)
  }

  /** The next event of a collector that is running. */
  function Choice(td: TrainingData, pc: Pc, io: Inputs): Event
    requires !pc.Down?
  {
    match pc
    case Loading => Load(io.loadOk)
    case Opening => Open(io.openOk)
    case Head(_, _) => if io.received == [] then Cancel else Sample(io.received[0].0, io.received[0].1)
    case Resumed(_) => Write(io.writes(ToWrite(td, pc)).Renamed?)
    case Appended(_, _) => Write(io.writes(ToWrite(td, pc)).Renamed?)
    case Broken(_) => Write(io.writes(ToWrite(td, pc)).Renamed?)
  }

  function Remaining(pc: Pc, io: Inputs): Inputs {
    if pc.Head? && io.received != [] then io.(received := io.received[1..]) else io
  }

  function Rank(pc: Pc): nat {
    match pc
    case Down => 0
    case Broken(_) => 1
    case Head(_, _) => 2
    case Appended(_, _) => 3
    case Resumed(_) => 3
    case Opening => 4
    case Loading => 5
  }

  /** The events of a collector until it stops. */
  function Run(td: TrainingData, s: State, io: Inputs): seq<Event>
    decreases |io.received|, Rank(s.pc)
  {
    if s.pc.Down? then []
    else
      var e := Choice(td, s.pc, io);
      [e] + Run(td, Next(td, s, e), Remaining(s.pc, io))
  }

  predicate NoCrash(events: seq<Event>) {
    forall i | 0 <= i < |events| :: events[i] != Crash
  }

  /** Those events are a run of the transition system, without a crash, at whose end the collector is down. */
  lemma {:induction false} RunStops(td: TrainingData, s: State, io: Inputs)
    ensures Possible(td, s, Run(td, s, io)) && After(td, s, Run(td, s, io)).pc.Down? && NoCrash(Run(td, s, io))
    decreases |io.received|, Rank(s.pc)
  {
    if !s.pc.Down? {
      var e := Choice(td, s.pc, io);
      RunStops(td, Next(td, s, e), Remaining(s.pc, io));
      Prepend(td, s, e, Run(td, Next(td, s, e), Remaining(s.pc, io)));
    }
  }

  /** What a collector leaves on disk. */
  function Left(td: TrainingData, s: State, io: Inputs): Disk {
    RunStops(td, s, io);
    After(td, s, Run(td, s, io)).disk
  }

  lemma LeftUnfolds(td: TrainingData, s: State, io: Inputs)
    requires !s.pc.Down?
    ensures Left(td, s, io) == Left(td, Next(td, s, Choice(td, s.pc, io)), Remaining(s.pc, io))
  {
  }

  lemma LeftDown(td: TrainingData, d: Disk, io: Inputs)
    ensures Left(td, State(d, Down), io) == d
  {
  }

  /** One iteration of the loop, seen from what is left at the end. */
  lemma LeftAfterSample(td: TrainingData, d: Disk, s: Status, io: Inputs)
    requires io.received != [] && io.received[0].1
    ensures var next := Status(s.collected + 1, Relabel(td, s.collected + 1, s.mark));
            var d' := Recorded(td, d.(lines := d.lines + [io.received[0].0]), next, io.writes(next).Renamed?);
            Left(td, State(d, Head(s.collected, s.mark)), io)
            == Left(td, State(d', LoopOrEnd(td, next.collected, next.mark)), io.(received := io.received[1..]))
  {
    hide Left, Relabel, Due, LoopOrEnd;
    var next := Status(s.collected + 1, Relabel(td, s.collected + 1, s.mark));
    LeftUnfolds(td, State(d, Head(s.collected, s.mark)), io);
    LeftUnfolds(td, State(d.(lines := d.lines + [io.received[0].0]), Appended(next.collected, next.mark)),
                io.(received := io.received[1..]));
  }

  lemma LeftAfterFailure(td: TrainingData, d: Disk, s: Status, io: Inputs)
    requires io.received != [] && !io.received[0].1
    ensures var error := s.(mark := Failed);
            Left(td, State(d, Head(s.collected, s.mark)), io) == Written(td, d, error, io.writes(error).Renamed?)
  {
    hide Left;
    var rest := io.(received := io.received[1..]);
    LeftUnfolds(td, State(d, Head(s.collected, s.mark)), io);
    LeftUnfolds(td, State(d, Broken(s.collected)), rest);
    LeftDown(td, Written(td, d, s.(mark := Failed), io.writes(s.(mark := Failed)).Renamed?), rest);
  }

  lemma LeftAfterCancel(td: TrainingData, d: Disk, s: Status, io: Inputs)
    requires io.received == []
    ensures Left(td, State(d, Head(s.collected, s.mark)), io) == d
  {
    hide Left;
    LeftUnfolds(td, State(d, Head(s.collected, s.mark)), io);
    LeftDown(td, d, io);
  }

  /** A collector that gets past its first status write. */
  lemma LeftAfterResume(td: TrainingData, d: Disk, io: Inputs)
    requires io.openOk && !(io.loadOk && HasStatusFile(td) && Terminal(d.status))
    ensures var c := |d.lines|;
            var first := Status(c, LabelFor(td, c));
            Left(td, State(d, Loading), io)
            == Left(td, State(Written(td, d, first, io.writes(first).Renamed?), LoopOrEnd(td, c, first.mark)), io)
  {
    hide Left;
    LeftUnfolds(td, State(d, Loading), io);
    LeftUnfolds(td, State(d, Opening), io);
    LeftUnfolds(td, State(d, Resumed(|d.lines|)), io);
  }

  lemma LeftWithoutResume(td: TrainingData, d: Disk, io: Inputs)
    requires !io.openOk || (io.loadOk && HasStatusFile(td) && Terminal(d.status))
    ensures Left(td, State(d, Loading), io) == d
  {
    hide Left;
    LeftUnfolds(td, State(d, Loading), io);
    if !(io.loadOk && HasStatusFile(td) && Terminal(d.status)) {
      LeftUnfolds(td, State(d, Opening), io);
    }
    LeftDown(td, d, io);
  }

  /** A status file, or the temporary file next to it. */
  datatype File = NoFile | Torn | Whole(content: Status)

  /** The files of a collector. */
  class Files {
    var lines: seq<string>
    var status: File
    var tmp: File

    constructor ()
      ensures lines == [] && status == tmp == NoFile
    {
      lines, status, tmp := [], NoFile, NoFile;
    }

    function Contents(): Disk
      reads this
    {
      Disk(lines, if status.Whole? then Some(status.content) else None)
    }

    /** loadStatus: a file that cannot be read or parsed gives nothing, like a missing one. */
    method LoadStatus(td: TrainingData, ok: bool) returns (existing: Option<Status>)
      ensures existing == if ok && HasStatusFile(td) then Contents().status else None
    {
      if td.statusPath == "" {
        return None;
      }
      return if ok && status.Whole? then Some(status.content) else None;
    }

    /**
     writeStatus: a temporary file renamed into place. Wherever it stops, the status file is the one it was or
     the new one, whole: only the temporary file is ever torn.
     */
    method WriteStatus(td: TrainingData, s: Status, progress: Progress)
      modifies this`status, this`tmp
      ensures Contents() == Written(td, old(Contents()), s, progress.Renamed?)
      ensures status == if HasStatusFile(td) && progress.Renamed? then Whole(s) else old(status)
      ensures tmp.Torn? && !old(tmp.Torn?) ==> progress.Partial?
    {
      if td.statusPath == "" || progress.Unwritten? {
        return;
      }
      tmp := Torn;
      if progress.Partial? {
        return;
      }
      tmp := Whole(s);
      if progress.Complete? {
        return;
      }
      status, tmp := tmp, NoFile;
    }

    /** handleTraining leaves exactly what the transition system leaves. */
    method HandleTraining(td: TrainingData, io: Inputs)
      modifies this
      ensures Contents() == Left(td, State(old(Contents()), Loading), io)
    {
      hide Left;
      var existing := LoadStatus(td, io.loadOk);
      if existing.Some? && (existing.value.mark == Finished || existing.value.mark == Failed) {
        LeftWithoutResume(td, Contents(), io);
        return;
      }
      if !io.openOk {
        LeftWithoutResume(td, Contents(), io);
        return;
      }
      LeftAfterResume(td, Contents(), io);
      var collected := |lines|;
      if collected >= td.maxSamples {
        WriteStatus(td, Status(collected, Finished), io.writes(Status(collected, Finished)));
        LeftDown(td, Contents(), io);
        return;
      }
      var current := Status(collected, if collected >= td.minSamples then Ready else Collecting);
      WriteStatus(td, current, io.writes(current));
      Collect(td, current, io);
    }

    /** The loop of handleTraining. */
    method Collect(td: TrainingData, start: Status, io: Inputs)
      requires start.collected < td.maxSamples
      modifies this
      ensures Contents() == Left(td, State(old(Contents()), Head(start.collected, start.mark)), io)
    {
      hide Left, Relabel, Recorded, Due, Written;
      var current, i := start, 0;
      ghost var rest := io;
      while current.collected < td.maxSamples
        invariant 0 <= i <= |io.received| && rest == io.(received := io.received[i..])
        invariant Left(td, State(Contents(), LoopOrEnd(td, current.collected, current.mark)), rest)
                  == Left(td, State(old(Contents()), Head(start.collected, start.mark)), io)
        decreases td.maxSamples - current.collected
      {
        if i == |io.received| {
          LeftAfterCancel(td, Contents(), current, rest);
          return;
        }
        var (data, ok) := io.received[i];
        i := i + 1;
        if !ok {
          LeftAfterFailure(td, Contents(), current, rest);
          current := current.(mark := Failed);
          WriteStatus(td, current, io.writes(current));
          return;
        }
        LeftAfterSample(td, Contents(), current, rest);
        assert rest.received[1..] == io.received[i..];
        rest := io.(received := io.received[i..]);
        current := Record(td, current, data, io);
      }
      LeftDown(td, Contents(), rest);
    }

    /** The rest of an iteration, once a sample has been received and can be appended. */
    method Record(td: TrainingData, current: Status, data: string, io: Inputs) returns (next: Status)
      modifies this
      ensures next == Status(current.collected + 1, Relabel(td, current.collected + 1, current.mark))
      ensures var before := old(Contents());
              Contents() == Recorded(td, before.(lines := before.lines + [data]), next, io.writes(next).Renamed?)
    {
      hide Written;
      lines := lines + [data];
      next := current.(collected := current.collected + 1);
      if next.collected == td.maxSamples {
        next := next.(mark := Finished);
      } else if next.collected == td.minSamples {
        next := next.(mark := Ready);
      }
      if next.collected == td.minSamples || next.collected == td.maxSamples
         || (td.interval > 0 && next.collected % td.interval == 0) {
        WriteStatus(td, next, io.writes(next));
      }
    }
  }

  /** The data of the samples received. */
  function DataOf(received: seq<(string, bool)>): seq<string> {
    seq(|received|, i requires 0 <= i < |received| => received[i].0)
  }

  predicate AllAppended(received: seq<(string, bool)>) {
    forall i | 0 <= i < |received| :: received[i].1
  }

  /** How many samples are missing. */
  function Missing(td: TrainingData, d: Disk): nat {
    if |d.lines| < td.maxSamples then td.maxSamples - |d.lines| else 0
  }

  lemma {:induction false} HeadCompletes(td: TrainingData, d: Disk, s: Status, io: Inputs)
    requires TrainingReady(td) && HasStatusFile(td) && s.collected == |d.lines| < td.maxSamples
    requires AllAppended(io.received) && |io.received| >= Missing(td, d)
    requires io.writes(Status(td.maxSamples, Finished)).Renamed?
    ensures var left := Left(td, State(d, Head(s.collected, s.mark)), io);
            && left.lines == d.lines + DataOf(io.received[..Missing(td, d)])
            && left.status == Some(Status(td.maxSamples, Finished))
    decreases Missing(td, d)
  {
    hide Left;
    var data, k := io.received[0].0, Missing(td, d);
    var next := Status(s.collected + 1, Relabel(td, s.collected + 1, s.mark));
    var d' := Recorded(td, d.(lines := d.lines + [data]), next, io.writes(next).Renamed?);
    var rest := io.(received := io.received[1..]);
    LeftAfterSample(td, d, s, io);
    assert DataOf(io.received[..k]) == [data] + DataOf(rest.received[..k - 1]);
    if next.collected == td.maxSamples {
      LeftDown(td, d', rest);
    } else {
      HeadCompletes(td, d', next, rest);
      Regroup(d.lines, [data], DataOf(rest.received[..k - 1]));
    }
  }

  lemma Regroup(a: seq<string>, b: seq<string>, c: seq<string>)
    ensures a + b + c == a + (b + c)
  {
  }

  /**
   A collector that starts, is not cancelled early and meets no failure completes: it appends the samples that
   were missing, the first ones received and no others, and leaves the finished status.
   */
  lemma CompletesWhenFed(td: TrainingData, d: Disk, io: Inputs)
    requires TrainingReady(td) && HasStatusFile(td) && io.openOk && !(io.loadOk && Terminal(d.status))
    requires AllAppended(io.received) && |io.received| >= Missing(td, d)
    requires forall status :: io.writes(status).Renamed?
    ensures var left := Left(td, State(d, Loading), io);
            && left.lines == d.lines + DataOf(io.received[..Missing(td, d)])
            && left.status == Some(Status(|left.lines|, Finished))
  {
    hide Left;
    var first := Status(|d.lines|, LabelFor(td, |d.lines|));
    var d' := Written(td, d, first, true);
    LeftAfterResume(td, d, io);
    if |d.lines| >= td.maxSamples {
      LeftDown(td, d', io);
      assert DataOf(io.received[..0]) == [];
    } else {
      HeadCompletes(td, d', first, io);
    }
  }

  /** How many of the samples received can be appended before the first that cannot. */
  function Appendable(received: seq<(string, bool)>): (n: nat)
    ensures n <= |received| && (n < |received| ==> !received[n].1) && forall i | 0 <= i < n :: received[i].1
  {
    if received == [] || !received[0].1 then 0 else 1 + Appendable(received[1..])
  }

  /** How many samples a collector takes: until one fails, or none is missing any more. */
  function Taken(td: TrainingData, d: Disk, received: seq<(string, bool)>): (n: nat)
    ensures n <= |received|
  {
    if Appendable(received) < Missing(td, d) then Appendable(received) else Missing(td, d)
  }

  /** What a collector leaves, written out. */
  predicate LeftAsPromised(td: TrainingData, d: Disk, from: nat, received: seq<(string, bool)>, left: Disk)
    requires td.interval > 0
  {
    var taken := Taken(td, d, received);
    var n := |d.lines| + taken;
    && left.lines == d.lines + DataOf(received[..taken])
    && left.status.Some?
    && (n >= td.maxSamples ==> left.status.value == Status(n, Finished))
    && (n < td.maxSamples && taken < |received| ==> left.status.value == Status(n, Failed))
    && (n < td.maxSamples && taken == |received| ==>
          && left.status.value.mark == (if n < td.minSamples then Collecting else Ready)
          && Largest(left.status.value.collected, from, n - n % td.interval,
                     if n >= td.minSamples then td.minSamples else 0))
  }

  lemma {:induction false} HeadLeaves(td: TrainingData, d: Disk, s: Status, from: nat, io: Inputs)
    requires TrainingReady(td) && HasStatusFile(td) && td.interval > 0 && forall status :: io.writes(status).Renamed?
    requires from <= s.collected == |d.lines| < td.maxSamples && s.mark == LabelFor(td, s.collected)
    requires d.status == Some(Status(LastWritten(td, from, s.collected), s.mark))
    ensures LeftAsPromised(td, d, from, io.received, Left(td, State(d, Head(s.collected, s.mark)), io))
    decreases |io.received|
  {
    hide Left, LastWritten, LeftAsPromised;
    if io.received == [] {
      LeftAfterCancel(td, d, s, io);
      PromisedAfterCancel(td, d, from);
    } else if !io.received[0].1 {
      LeftAfterFailure(td, d, s, io);
      PromisedAfterFailure(td, d, s, from, io.received);
    } else {
      var next := Status(s.collected + 1, Relabel(td, s.collected + 1, s.mark));
      var d' := Recorded(td, d.(lines := d.lines + [io.received[0].0]), next, true);
      var rest := io.(received := io.received[1..]);
      LeftAfterSample(td, d, s, io);
      if next.collected == td.maxSamples {
        LeftDown(td, d', rest);
        PromisedAtMaximum(td, d, from, io.received);
      } else {
        LastWrittenStep(td, from, s.collected);
        if !Due(td, next.collected) {
          NotDueNoChange(td, s.collected);
        }
        HeadLeaves(td, d', next, from, rest);
        PromisedStep(td, d, d', from, io.received, Left(td, State(d', Head(next.collected, next.mark)), rest));
      }
    }
  }

  lemma PromisedAfterCancel(td: TrainingData, d: Disk, from: nat)
    requires TrainingReady(td) && td.interval > 0 && from <= |d.lines| < td.maxSamples
    requires d.status == Some(Status(LastWritten(td, from, |d.lines|), LabelFor(td, |d.lines|)))
    ensures LeftAsPromised(td, d, from, [], d)
  {
    assert DataOf([]) == [];
  }

  lemma PromisedAfterFailure(td: TrainingData, d: Disk, s: Status, from: nat, received: seq<(string, bool)>)
    requires td.interval > 0 && s.collected == |d.lines| < td.maxSamples && received != [] && !received[0].1
    ensures LeftAsPromised(td, d, from, received, d.(status := Some(s.(mark := Failed))))
  {
    assert DataOf(received[..0]) == [];
  }

  lemma PromisedAtMaximum(td: TrainingData, d: Disk, from: nat, received: seq<(string, bool)>)
    requires td.interval > 0 && |d.lines| + 1 == td.maxSamples && received != [] && received[0].1
    ensures LeftAsPromised(td, d, from, received,
        Disk(d.lines + [received[0].0], Some(Status(td.maxSamples, Finished))))
  {
    assert Appendable(received) >= 1;
    assert DataOf(received[..1]) == [received[0].0];
  }

  lemma PromisedStep(td: TrainingData, d: Disk, d': Disk, from: nat, received: seq<(string, bool)>, left: Disk)
    requires td.interval > 0 && received != [] && received[0].1 && |d.lines| + 1 < td.maxSamples
    requires d'.lines == d.lines + [received[0].0] && LeftAsPromised(td, d', from, received[1..], left)
    ensures LeftAsPromised(td, d, from, received, left)
  {
    var rest := received[1..];
    assert Appendable(received) == 1 + Appendable(rest);
    var taken := Taken(td, d', rest);
    assert Taken(td, d, received) == taken + 1;
    assert DataOf(received[..taken + 1]) == [received[0].0] + DataOf(rest[..taken]);
    Regroup(d.lines, [received[0].0], DataOf(rest[..taken]));
  }

  /**
   What handleTraining leaves, in closed form. It leaves the files alone if the result file cannot be opened or a
   readable status says that the collection is over. Otherwise, if every status write succeeds, it appends the
   samples received up to the first that fails and no more than are missing, and the status says which of the three
   ends it came to: the maximum, a failure, or a cancellation, and then how far it was last recorded.
   */
  lemma CollectorLeaves(td: TrainingData, d: Disk, io: Inputs)
    requires TrainingReady(td) && HasStatusFile(td) && td.interval > 0
    ensures var over := d.status.Some? && (d.status.value.mark == Finished || d.status.value.mark == Failed);
            var left := Left(td, State(d, Loading), io);
            if !io.openOk || (io.loadOk && over) then left == d
            else (forall status :: io.writes(status).Renamed?) ==> LeftAsPromised(td, d, |d.lines|, io.received, left)
  {
    hide Left, LastWritten, LeftAsPromised;
    if !io.openOk || (io.loadOk && Terminal(d.status)) {
      LeftWithoutResume(td, d, io);
    } else if forall status :: io.writes(status).Renamed? {
      var first := Status(|d.lines|, LabelFor(td, |d.lines|));
      var d' := Written(td, d, first, true);
      LeftAfterResume(td, d, io);
      if |d.lines| >= td.maxSamples {
        LeftDown(td, d', io);
        PromisedWhenFull(td, d, io.received);
      } else {
        LastWrittenStart(td, |d.lines|);
        HeadLeaves(td, d', first, |d.lines|, io);
        PromisedAnyStatus(td, d, d', |d.lines|, io.received, Left(td, State(d', Head(|d.lines|, first.mark)), io));
      }
    }
  }

  lemma PromisedWhenFull(td: TrainingData, d: Disk, received: seq<(string, bool)>)
    requires td.interval > 0 && |d.lines| >= td.maxSamples
    ensures LeftAsPromised(td, d, |d.lines|, received, d.(status := Some(Status(|d.lines|, Finished))))
  {
    assert DataOf(received[..0]) == [];
  }

  lemma PromisedAnyStatus(td: TrainingData, d: Disk, d': Disk, from: nat, received: seq<(string, bool)>, left: Disk)
    requires td.interval > 0 && d'.lines == d.lines && LeftAsPromised(td, d', from, received, left)
    ensures LeftAsPromised(td, d, from, received, left)
  {
  }
}
