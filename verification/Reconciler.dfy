/**
 The reload reconciler: loadModelPlugins and loadDecisionPlugins drive the loaded plugins, their NATS
 handlers and their training collectors towards the configuration, while any plugin operation may fail.
 */
module Reconciler {
  import opened Common
  import opened Dispatch

  type Id = string

  /**
   What is done to the plugins of one id, in order. An instance and a collector are named by their position in the log.
   */
  datatype Event =
    | Opened(instance: nat)
    | Reloaded(instance: nat, ok: bool)
    | ProcessStarted
    | ProcessStopped
    | ResultsStarted
    | ResultsStopped
    | CollectorStarted(collector: nat)
    | CollectorCancelled(collector: nat)
    | Cleaned(instance: nat)

  /** modelPluginData, or decisionPluginData when it has no handlers. */
  datatype PluginData = PluginData(ptype: int, instance: nat, process: bool, results: bool, collector: Option<nat>)

  /** Which operations on the plugins of an id fail during one reload. */
  datatype Faults = Faults(open: bool, process: bool, results: bool, reload: bool)

  predicate UsesNats(c: ModelConf) {
    c.isAsync || c.remote
  }

  /** A decision plugin is configured like a local model plugin. */
  function AsModel(training: bool): ModelConf {
    ModelConf(0, false, false, training, false, 0)
  }

  /** The plugin of one id: what is loaded, and what has been done so far. */
  datatype Slot = Slot(entry: Option<PluginData>, log: seq<Event>)

  // --------------------------------------------------------------------------------------------
  // One reload, seen from one id
  // --------------------------------------------------------------------------------------------

  /** startHandlers */
  function HandlersStarted(d: PluginData, f: Faults): (r: (PluginData, seq<Event>)) {
    if f.process then (d, [])
    else if f.results then (d, [ProcessStarted, ProcessStopped])
    else (d.(process := true, results := true), [ProcessStarted, ResultsStarted])
  }

  /** stopHandlers */
  function HandlersStopped(d: PluginData): (PluginData, seq<Event>) {
    (d.(process := false, results := false),
     (if d.process then [ProcessStopped] else []) + (if d.results then [ResultsStopped] else []))
  }

  function WithHandlers(d: PluginData, log: seq<Event>, c: ModelConf, f: Faults): (PluginData, seq<Event>) {
    if UsesNats(c) && !d.process then
      var (d', events) := HandlersStarted(d, f);
      (d', log + events)
    else if !UsesNats(c) && d.process then
      var (d', events) := HandlersStopped(d);
      (d', log + events)
    else (d, log)
  }

  function WithCollector(d: PluginData, log: seq<Event>, c: ModelConf): (PluginData, seq<Event>) {
    if !c.training && d.collector.Some? then (d.(collector := None), log + [CollectorCancelled(d.collector.value)])
    else if c.training && d.collector.None? then (d.(collector := Some(|log|)), log + [CollectorStarted(|log|)])
    else (d, log)
  }

  /** A configured id that is not loaded. */
  function Load(c: ModelConf, f: Faults, log: seq<Event>): Slot {
    if f.open then Slot(None, log)
    else
      var d := PluginData(c.ptype, |log|, false, false, None);
      var (d1, log1) := WithHandlers(d, log + [Opened(|log|)], c, f);
      if UsesNats(c) && !d1.process then Slot(None, log1 + [Cleaned(|log|)])
      else
        var (d2, log2) := WithCollector(d1, log1, c);
        Slot(Some(d2), log2)
  }

  /** A configured id that is loaded. */
  function Update(c: ModelConf, f: Faults, d: PluginData, log: seq<Event>): Slot {
    if f.reload then Slot(Some(d), log + [Reloaded(d.instance, false)])
    else
      var (d1, log1) := WithHandlers(d.(ptype := c.ptype), log + [Reloaded(d.instance, true)], c, f);
      var (d2, log2) := WithCollector(d1, log1, c);
      Slot(Some(d2), log2)
  }

  /** A loaded id that is no longer configured. */
  function Unload(d: PluginData, log: seq<Event>): Slot {
    Slot(None,
         log + (if d.collector.Some? then [CollectorCancelled(d.collector.value)] else [])
             + HandlersStopped(d).1
             + [Cleaned(d.instance)])
  }

  /** One reload; conf is missing if the id is not configured. */
  function Visit(conf: Option<ModelConf>, f: Faults, s: Slot): Slot {
    match (conf, s.entry)
    case (Some(c), None) => Load(c, f, s.log)
    case (Some(c), Some(d)) => Update(c, f, d, s.log)
    case (None, Some(d)) => Unload(d, s.log)
    case (None, None) => s
  }

  // --------------------------------------------------------------------------------------------
  // The plugin manager
  // --------------------------------------------------------------------------------------------

  function Get<T>(m: map<Id, T>, id: Id): Option<T> {
    if id in m then Some(m[id]) else None
  }

  function LogOf(log: map<Id, seq<Event>>, id: Id): seq<Event> {
    if id in log then log[id] else []
  }

  /** One call of LoadPlugins: the configuration it finds, and the operations that fail. */
  datatype Attempt = Attempt(conf: map<Id, ModelConf>, faults: Id -> Faults)

  function RoundsOf(history: seq<Attempt>, id: Id): seq<Round> {
    seq(|history|, i requires 0 <= i < |history| => Round(Get(history[i].conf, id), history[i].faults(id)))
  }

  lemma RoundsOfAppend(history: seq<Attempt>, a: Attempt, id: Id)
    ensures Rounds(RoundsOf(history + [a], id)) == Visit(Get(a.conf, id), a.faults(id), Rounds(RoundsOf(history, id)))
  {
    hide Visit, Rounds;
    assert RoundsOf(history + [a], id) == RoundsOf(history, id) + [Round(Get(a.conf, id), a.faults(id))];
    RoundsAppend(RoundsOf(history, id), Round(Get(a.conf, id), a.faults(id)));
  }

  /**
   What one reload makes of an entry, field by field. An id that is not configured leaves. A new id enters unless
   it cannot be opened or its handlers cannot be started. A loaded id stays: as it is if the plugin refuses to
   reload, and otherwise on the same instance with the configured type, the handlers it needs as far as they
   could be started, and a collector iff it is in training, the same one if it had one.
   */
  predicate Reconciled(conf: Option<ModelConf>, f: Faults, before: Option<PluginData>, after: Option<PluginData>) {
    if conf.None? then after.None?
    else
      var c := conf.value;
      var nats := c.isAsync || c.remote;
      if before.None? then
        && (after.None? <==> f.open || (nats && (f.process || f.results)))
        && (after.Some? ==>
              && after.value.ptype == c.ptype && (after.value.collector.Some? <==> c.training)
              && after.value.process == after.value.results == nats)
      else if f.reload then after == before
      else
        && after.Some? && after.value.instance == before.value.instance && after.value.ptype == c.ptype
        && after.value.process == after.value.results
        && (after.value.process <==> nats && (before.value.process || (!f.process && !f.results)))
        && (after.value.collector.Some? <==> c.training)
        && (c.training && before.value.collector.Some? ==> after.value.collector == before.value.collector)
  }

  lemma VisitReconciles(conf: Option<ModelConf>, f: Faults, s: Slot)
    requires SlotOk(s)
    ensures Reconciled(conf, f, s.entry, Visit(conf, f, s).entry)
  {
    hide Replay;
  }

  /** The same for a decision plugin, which is configured by whether it is in training, and has no handlers. */
  predicate DecisionReconciled(training: Option<bool>, f: Faults, before: Option<PluginData>,
                               after: Option<PluginData>) {
    if training.None? then after.None?
    else if before.Some? && f.reload then after == before
    else if before.None? && f.open then after.None?
    else
      && after.Some? && (after.value.collector.Some? <==> training.value) && !after.value.process
          && !after.value.results
      && (before.Some? ==> after.value.instance == before.value.instance)
      && (training.value && before.Some? && before.value.collector.Some? ==>
            after.value.collector == before.value.collector)
  }

  lemma DecisionIs(training: Option<bool>, f: Faults, before: Option<PluginData>, after: Option<PluginData>)
    requires Reconciled(if training.Some? then Some(AsModel(training.value)) else None, f, before, after)
    ensures DecisionReconciled(training, f, before, after)
  {
  }

  /** The loaded plugins of one kind, with everything that has been done to them. */
  class PluginTable {
    var plugins: map<Id, PluginData>
    var log: map<Id, seq<Event>>
    ghost var history: seq<Attempt>

    /** The table is what its history of calls has made of it. */
    ghost predicate Valid()
      reads this
    {
      forall id: Id :: SlotOf(id) == Rounds(RoundsOf(history, id))
    }

    function SlotOf(id: Id): Slot
      reads this
    {
      Slot(Get(plugins, id), LogOf(log, id))
    }

    constructor ()
      ensures Valid() && history == [] && plugins == map[]
    {
      plugins, log, history := map[], map[], [];
    }

    method Record(id: Id, e: Event)
      modifies this`log
      ensures LogOf(log, id) == LogOf(old(log), id) + [e]
      ensures forall x: Id | x != id :: LogOf(log, x) == LogOf(old(log), x)
    {
      log := log[id := LogOf(log, id) + [e]];
    }

    /** startHandlers: the results handler is started second, and the process handler is stopped if that fails. */
    method StartHandlers(id: Id, data: PluginData, f: Faults) returns (data': PluginData, ok: bool)
      modifies this`log
      ensures var (d, events) := HandlersStarted(data, f);
              data' == d && LogOf(log, id) == LogOf(old(log), id) + events
      ensures ok <==> !f.process && !f.results
      ensures data' == if ok then data.(process := true, results := true) else data
      ensures forall x: Id | x != id :: LogOf(log, x) == LogOf(old(log), x)
    {
      data' := data;
      if f.process {
        return data', false;
      }
      Record(id, ProcessStarted);
      if f.results {
        Record(id, ProcessStopped);
        return data', false;
      }
      Record(id, ResultsStarted);
      data' := data.(process := true, results := true);
      return data', true;
    }

    /** stopHandlers */
    method StopHandlers(id: Id, data: PluginData) returns (data': PluginData)
      modifies this`log
      ensures var (d, events) := HandlersStopped(data);
              data' == d && LogOf(log, id) == LogOf(old(log), id) + events
      ensures data' == data.(process := false, results := false)
      ensures forall x: Id | x != id :: LogOf(log, x) == LogOf(old(log), x)
    {
      data' := data;
      if data'.process {
        Record(id, ProcessStopped);
        data' := data'.(process := false);
      }
      if data'.results {
        Record(id, ResultsStopped);
        data' := data'.(results := false);
      }
    }

    /** One iteration of the first loop of loadModelPlugins, for an id that is not loaded. */
    method LoadOne(id: Id, c: ModelConf, f: Faults)
      requires id !in plugins
      modifies this`plugins, this`log
      ensures SlotOf(id) == Load(c, f, LogOf(old(log), id))
      ensures forall x: Id | x != id :: SlotOf(x) == old(SlotOf(x))
    {
      if f.open {
        return;
      }
      var instance := |LogOf(log, id)|;
      Record(id, Opened(instance));
      var data := PluginData(c.ptype, instance, false, false, None);
      if c.isAsync || c.remote {
        var ok;
        data, ok := StartHandlers(id, data, f);
        if !ok {
          Record(id, Cleaned(instance));
          return;
        }
      }
      if c.training {
        var collector := |LogOf(log, id)|;
        Record(id, CollectorStarted(collector));
        data := data.(collector := Some(collector));
      }
      plugins := plugins[id := data];
    }

    /**
     One iteration of the first loop of loadModelPlugins, for a loaded id: the entry is written only if it changed.
     */
    method UpdateOne(id: Id, c: ModelConf, f: Faults)
      requires id in plugins
      modifies this`plugins, this`log
      ensures SlotOf(id) == Update(c, f, old(plugins)[id], LogOf(old(log), id))
      ensures f.reload ==> plugins == old(plugins)
      ensures forall x: Id | x != id :: SlotOf(x) == old(SlotOf(x))
    {
      var data := plugins[id];
      Record(id, Reloaded(data.instance, !f.reload));
      if f.reload {
        return;
      }
      var changed := data.ptype != c.ptype;
      data := data.(ptype := c.ptype);
      var usesNats := c.isAsync || c.remote;
      if usesNats && !data.process {
        var ok;
        data, ok := StartHandlers(id, data, f);
        changed := true;
      } else if !usesNats && data.process {
        data := StopHandlers(id, data);
        changed := true;
      }
      if !c.training && data.collector.Some? {
        Record(id, CollectorCancelled(data.collector.value));
        data := data.(collector := None);
        changed := true;
      } else if c.training && data.collector.None? {
        var collector := |LogOf(log, id)|;
        Record(id, CollectorStarted(collector));
        data := data.(collector := Some(collector));
        changed := true;
      }
      if !changed {
        return;
      }
      plugins := plugins[id := data];
    }

    /** One iteration of the second loop of loadModelPlugins. */
    method UnloadOne(id: Id)
      requires id in plugins
      modifies this`plugins, this`log
      ensures SlotOf(id) == Unload(old(plugins)[id], LogOf(old(log), id))
      ensures forall x: Id | x != id :: SlotOf(x) == old(SlotOf(x))
    {
      var data := plugins[id];
      plugins := plugins - {id};
      if data.collector.Some? {
        Record(id, CollectorCancelled(data.collector.value));
      }
      var stopped := StopHandlers(id, data);
      Record(id, Cleaned(data.instance));
    }

    /** The first loop of loadModelPlugins: the configured ids, in any order. */
    method VisitConfigured(conf: map<Id, ModelConf>, faults: Id -> Faults)
      modifies this`plugins, this`log
      ensures forall id: Id | id in conf :: SlotOf(id) == Visit(Some(conf[id]), faults(id), old(SlotOf(id)))
      ensures forall id: Id | id !in conf :: SlotOf(id) == old(SlotOf(id))
    {
      hide Visit;
      var todo := conf.Keys;
      while exists id :: id in todo
        invariant todo <= conf.Keys
        invariant forall id: Id | id in conf && id !in todo ::
            SlotOf(id) == Visit(Some(conf[id]), faults(id), old(SlotOf(id)))
        invariant forall id: Id | id !in conf || id in todo :: SlotOf(id) == old(SlotOf(id))
        decreases |todo|
      {
        var id :| id in todo;
        assert SlotOf(id) == old(SlotOf(id));
        VisitOne(id, conf[id], faults(id));
        todo := todo - {id};
      }
    }

    /** One iteration of the first loop. */
    method VisitOne(id: Id, c: ModelConf, f: Faults)
      modifies this`plugins, this`log
      ensures SlotOf(id) == Visit(Some(c), f, old(SlotOf(id)))
      ensures forall x: Id | x != id :: SlotOf(x) == old(SlotOf(x))
    {
      hide Load, Update;
      if id in plugins {
        UpdateOne(id, c, f);
      } else {
        LoadOne(id, c, f);
      }
    }

    /** The second loop of loadModelPlugins: the loaded ids that are not configured, in any order. */
    method UnloadRest(conf: map<Id, ModelConf>)
      modifies this`plugins, this`log
      ensures forall id: Id | id in conf || id !in old(plugins) :: SlotOf(id) == old(SlotOf(id))
      ensures forall id: Id | id !in conf && id in old(plugins) ::
                SlotOf(id) == Unload(old(plugins)[id], LogOf(old(log), id))
    {
      hide Unload;
      var rest := plugins.Keys - conf.Keys;
      while exists id :: id in rest
        invariant rest <= old(plugins).Keys - conf.Keys
        invariant forall id: Id | id in conf || id !in old(plugins) || id in rest :: SlotOf(id) == old(SlotOf(id))
        invariant forall id: Id | id !in conf && id in old(plugins) && id !in rest ::
                    SlotOf(id) == Unload(old(plugins)[id], LogOf(old(log), id))
        decreases |rest|
      {
        var id :| id in rest;
        assert SlotOf(id) == old(SlotOf(id));
        UnloadOne(id);
        rest := rest - {id};
      }
    }

    /** The two loops of loadModelPlugins: whatever the order of the maps, every id is visited once. */
    method VisitAll(conf: map<Id, ModelConf>, faults: Id -> Faults)
      modifies this`plugins, this`log
      ensures forall id: Id :: SlotOf(id) == Visit(Get(conf, id), faults(id), old(SlotOf(id)))
    {
      hide Load, Update, Unload;
      VisitConfigured(conf, faults);
      label visited:
      UnloadRest(conf);
      forall id: Id
        ensures SlotOf(id) == Visit(Get(conf, id), faults(id), old(SlotOf(id)))
      {
        if id !in conf {
          assert old@visited(SlotOf(id)) == old(SlotOf(id));
        }
      }
    }

    /**
     loadModelPlugins, and loadDecisionPlugins on a table without handlers. After any sequence of calls the life
     cycle of every plugin holds, and every id whose operations succeed in the last one is as it configures:
     if all do, the loaded ids are the configured ones.
     */
    method LoadPlugins(conf: map<Id, ModelConf>, faults: Id -> Faults)
      requires Valid()
      modifies this
      ensures Valid() && history == old(history) + [Attempt(conf, faults)]
      ensures forall id: Id :: SlotOf(id) == Visit(Get(conf, id), faults(id), old(SlotOf(id)))
      ensures forall id: Id :: SlotOk(SlotOf(id))
      ensures forall id: Id :: Reconciled(Get(conf, id), faults(id), Get(old(plugins), id), Get(plugins, id))
      ensures forall id: Id | Clear(Get(conf, id), faults(id), old(SlotOf(id))) ::
          ShapeOf(SlotOf(id).entry) == Configured(Get(conf, id))
      ensures (forall id: Id :: Clear(Get(conf, id), faults(id), old(SlotOf(id)))) ==> plugins.Keys == conf.Keys
    {
      hide Visit, Rounds, RoundsOf, SlotOk, Clear, Reconciled;
      VisitAll(conf, faults);
      history := history + [Attempt(conf, faults)];
      forall id: Id
        ensures SlotOf(id) == Rounds(RoundsOf(history, id)) && SlotOk(SlotOf(id))
        ensures Clear(Get(conf, id), faults(id), old(SlotOf(id)))
            ==> ShapeOf(SlotOf(id).entry) == Configured(Get(conf, id))
        ensures Reconciled(Get(conf, id), faults(id), Get(old(plugins), id), Get(plugins, id))
      {
        RoundsOfAppend(old(history), Attempt(conf, faults), id);
        LifecycleHolds(RoundsOf(old(history), id));
        LifecycleHolds(RoundsOf(history, id));
        VisitReconciles(Get(conf, id), faults(id), old(SlotOf(id)));
        if Clear(Get(conf, id), faults(id), old(SlotOf(id))) {
          VisitShape(Get(conf, id), faults(id), old(SlotOf(id)));
        }
      }
      if forall id: Id :: Clear(Get(conf, id), faults(id), old(SlotOf(id))) {
        forall id: Id
          ensures id in plugins <==> id in conf
        {
          assert Clear(Get(conf, id), faults(id), old(SlotOf(id)));
          assert SlotOf(id).entry == Get(plugins, id);
        }
      }
    }
  }

  /** The configuration of the decision plugins, each configured like a local model plugin. */
  function AsModels(conf: map<Id, bool>): map<Id, ModelConf> {
    map id | id in conf :: AsModel(conf[id])
  }

  /** The model and decision plugins of the process. */
  class PluginManager {
    const models: PluginTable
    const decisions: PluginTable

    ghost predicate Valid()
      reads this, models, decisions
    {
      models != decisions && models.Valid() && decisions.Valid()
    }

    constructor ()
      ensures Valid() && fresh(models) && fresh(decisions)
      ensures models.plugins == map[] && decisions.plugins == map[]
    {
      models := new PluginTable();
      decisions := new PluginTable();
    }

    /** Reload: the model plugins and then the decision plugins. */
    method Reload(conf: map<Id, ModelConf>, decisionConf: map<Id, bool>, faults: Id -> Faults,
        decisionFaults: Id -> Faults)
      requires Valid()
      modifies models, decisions
      ensures Valid()
      ensures models.history == old(models.history) + [Attempt(conf, faults)]
      ensures decisions.history == old(decisions.history) + [Attempt(AsModels(decisionConf), decisionFaults)]
      ensures forall id: Id :: models.SlotOf(id) == Visit(Get(conf, id), faults(id), old(models.SlotOf(id)))
      ensures forall id: Id ::
                decisions.SlotOf(id)
                == Visit(Get(AsModels(decisionConf), id), decisionFaults(id), old(decisions.SlotOf(id)))
      ensures forall id: Id :: SlotOk(models.SlotOf(id)) && SlotOk(decisions.SlotOf(id))
      ensures forall id: Id ::
                Reconciled(Get(conf, id), faults(id), Get(old(models.plugins), id), Get(models.plugins, id))
      ensures forall id: Id ::
                DecisionReconciled(Get(decisionConf, id), decisionFaults(id), Get(old(decisions.plugins), id),
                                   Get(decisions.plugins, id))
      ensures (forall id: Id :: Clear(Get(conf, id), faults(id), old(models.SlotOf(id))))
          ==> models.plugins.Keys == conf.Keys
      ensures (forall id: Id ::
                 Clear(Get(AsModels(decisionConf), id), decisionFaults(id), old(decisions.SlotOf(id))))
              ==> decisions.plugins.Keys == decisionConf.Keys
    {
      hide Visit, Rounds, RoundsOf, SlotOk, Clear, ShapeOf, Configured, Reconciled;
      models.LoadPlugins(conf, faults);
      decisions.LoadPlugins(AsModels(decisionConf), decisionFaults);
      forall id: Id
        ensures DecisionReconciled(Get(decisionConf, id), decisionFaults(id), Get(old(decisions.plugins), id),
            Get(decisions.plugins, id))
      {
        assert Get(AsModels(decisionConf), id) == if id in decisionConf then Some(AsModel(decisionConf[id])) else None;
        DecisionIs(Get(decisionConf, id), decisionFaults(id), Get(old(decisions.plugins), id),
            Get(decisions.plugins, id));
      }
    }
  }

  // --------------------------------------------------------------------------------------------
  // The life of the instances over any sequence of reloads and failures
  // --------------------------------------------------------------------------------------------

  /** One reload for one id: its configuration, if any, and the operations that fail. */
  datatype Round = Round(conf: Option<ModelConf>, faults: Faults)

  function Rounds(rounds: seq<Round>): Slot {
    if rounds == [] then Slot(None, [])
    else
      var last := rounds[|rounds| - 1];
      Visit(last.conf, last.faults, Rounds(rounds[..|rounds| - 1]))
  }

  /** What an observer of the events knows: the live instance, its handlers and its uncancelled collector. */
  datatype Monitor = Monitor(live: Option<nat>, process: bool, results: bool, collector: Option<nat>)

  /**
   The order of events a plugin may rely on: an instance is used only between its opening and its clean,
   handlers start and stop in pairs on a live instance, at most one collector runs, and an instance is
   cleaned once its handlers are stopped and its collector is cancelled. None marks a violation.
   */
  function Observe(m: Monitor, position: nat, e: Event): Option<Monitor> {
    match e
    case Opened(i) => if m.live.None? && i == position then Some(m.(live := Some(i))) else None
    case Reloaded(i, _) => if m.live == Some(i) then Some(m) else None
    case ProcessStarted => if m.live.Some? && !m.process && !m.results then Some(m.(process := true)) else None
    case ProcessStopped => if m.process then Some(m.(process := false)) else None
    case ResultsStarted => if m.live.Some? && m.process && !m.results then Some(m.(results := true)) else None
    case ResultsStopped => if m.results && !m.process then Some(m.(results := false)) else None
    case CollectorStarted(c) =>
      if m.live.Some? && m.collector.None? && c == position then Some(m.(collector := Some(c))) else None
    case CollectorCancelled(c) => if m.collector == Some(c) then Some(m.(collector := None)) else None
    case Cleaned(i) =>
      if m.live == Some(i) && !m.process && !m.results && m.collector.None? then Some(m.(live := None)) else None
  }

  function Replay(log: seq<Event>): Option<Monitor> {
    if log == [] then Some(Monitor(None, false, false, None))
    else
      var n := |log| - 1;
      match Replay(log[..n])
      case None => None
      case Some(m) => Observe(m, n, log[n])
  }

  function MonitorOf(entry: Option<PluginData>): Monitor {
    match entry
    case None => Monitor(None, false, false, None)
    case Some(d) => Monitor(Some(d.instance), d.process, d.results, d.collector)
  }

  /** The events respect the life cycle and end where the entry says; the handlers are both there or both absent. */
  predicate SlotOk(s: Slot) {
    && Replay(s.log) == Some(MonitorOf(s.entry))
    && (s.entry.Some? ==> s.entry.value.process == s.entry.value.results)
  }

  predicate Follows(d: PluginData, log: seq<Event>) {
    Replay(log) == Some(MonitorOf(Some(d))) && d.process == d.results
  }

  lemma ReplayOne(log: seq<Event>, e: Event)
    ensures Replay(log + [e]) == match Replay(log) case None => None case Some(m) => Observe(m, |log|, e)
  {
  }

  lemma HandlersFollow(d: PluginData, log: seq<Event>, c: ModelConf, f: Faults)
    requires Follows(d, log)
    ensures Follows(WithHandlers(d, log, c, f).0, WithHandlers(d, log, c, f).1)
  {
    hide Replay;
    ReplayOne(log, ProcessStarted);
    ReplayOne(log + [ProcessStarted], ProcessStopped);
    ReplayOne(log + [ProcessStarted], ResultsStarted);
    ReplayOne(log, ProcessStopped);
    ReplayOne(log + [ProcessStopped], ResultsStopped);
    assert log + [ProcessStarted, ProcessStopped] == log + [ProcessStarted] + [ProcessStopped];
    assert log + [ProcessStarted, ResultsStarted] == log + [ProcessStarted] + [ResultsStarted];
    assert log + ([ProcessStopped] + [ResultsStopped]) == log + [ProcessStopped] + [ResultsStopped];
    assert log + [] == log;
  }

  lemma CollectorFollows(d: PluginData, log: seq<Event>, c: ModelConf)
    requires Follows(d, log)
    ensures Follows(WithCollector(d, log, c).0, WithCollector(d, log, c).1)
  {
  }

  lemma LoadOk(c: ModelConf, f: Faults, log: seq<Event>)
    requires SlotOk(Slot(None, log))
    ensures SlotOk(Load(c, f, log))
  {
    hide Replay, WithHandlers, WithCollector;
    ReplayOne(log, Opened(|log|));
    var d := PluginData(c.ptype, |log|, false, false, None);
    var (d1, log1) := WithHandlers(d, log + [Opened(|log|)], c, f);
    HandlersFollow(d, log + [Opened(|log|)], c, f);
    HandlersKeep(d, log + [Opened(|log|)], c, f);
    CollectorFollows(d1, log1, c);
    ReplayOne(log1, Cleaned(|log|));
  }

  /** Starting or stopping the handlers changes neither the instance, nor the type, nor the collector. */
  lemma HandlersKeep(d: PluginData, log: seq<Event>, c: ModelConf, f: Faults)
    ensures var d' := WithHandlers(d, log, c, f).0;
            d'.instance == d.instance && d'.ptype == d.ptype && d'.collector == d.collector
  {
  }

  lemma UpdateOk(c: ModelConf, f: Faults, d: PluginData, log: seq<Event>)
    requires SlotOk(Slot(Some(d), log))
    ensures SlotOk(Update(c, f, d, log))
  {
    hide Replay, WithHandlers, WithCollector;
    ReplayOne(log, Reloaded(d.instance, !f.reload));
    if !f.reload {
      var d0, log0 := d.(ptype := c.ptype), log + [Reloaded(d.instance, true)];
      var (d1, log1) := WithHandlers(d0, log0, c, f);
      HandlersFollow(d0, log0, c, f);
      CollectorFollows(d1, log1, c);
    }
  }

  lemma UnloadOk(d: PluginData, log: seq<Event>)
    requires SlotOk(Slot(Some(d), log))
    ensures SlotOk(Unload(d, log))
  {
    hide Replay;
    var cancelled := log + if d.collector.Some? then [CollectorCancelled(d.collector.value)] else [];
    if d.collector.Some? {
      ReplayOne(log, CollectorCancelled(d.collector.value));
    } else {
      assert cancelled == log;
    }
    var stopped := cancelled + HandlersStopped(d).1;
    ReplayOne(cancelled, ProcessStopped);
    ReplayOne(cancelled + [ProcessStopped], ResultsStopped);
    if d.process {
      assert stopped == cancelled + [ProcessStopped] + [ResultsStopped];
    } else {
      assert stopped == cancelled;
    }
    ReplayOne(stopped, Cleaned(d.instance));
  }

  /** Every reload, whatever fails, keeps the life cycle. */
  lemma VisitOk(conf: Option<ModelConf>, f: Faults, s: Slot)
    requires SlotOk(s)
    ensures SlotOk(Visit(conf, f, s))
  {
    hide Load, Update, Unload, SlotOk;
    match (conf, s.entry)
    case (Some(c), None) => assert s == Slot(None, s.log); LoadOk(c, f, s.log);
    case (Some(c), Some(d)) => assert s == Slot(Some(d), s.log); UpdateOk(c, f, d, s.log);
    case (None, Some(d)) => assert s == Slot(Some(d), s.log); UnloadOk(d, s.log);
    case (None, None) =>
  }

  /** The life cycle holds over every sequence of configurations and failures. */
  lemma {:induction false} LifecycleHolds(rounds: seq<Round>)
    ensures SlotOk(Rounds(rounds))
    decreases |rounds|
  {
    hide Visit, SlotOk;
    if rounds == [] {
      EmptyOk();
    } else {
      var last := rounds[|rounds| - 1];
      LifecycleHolds(rounds[..|rounds| - 1]);
      VisitOk(last.conf, last.faults, Rounds(rounds[..|rounds| - 1]));
    }
  }

  lemma EmptyOk()
    ensures SlotOk(Slot(None, []))
  {
  }

  /**
   What the life cycle means for one instance: it is opened at most once, and cleaned exactly when it is no longer
   live.
   */
  ghost predicate InstanceCounts(log: seq<Event>, i: nat)
    requires Replay(log).Some?
  {
    && multiset(log)[Cleaned(i)] + (if Replay(log).value.live == Some(i) then 1 else 0) == multiset(log)[Opened(i)]
    && multiset(log)[Opened(i)] <= (if i < |log| then 1 else 0)
  }

  lemma OneMoreEvent(log: seq<Event>, e: Event)
    requires log != []
    ensures var n := |log| - 1; multiset(log)[e] == multiset(log[..n])[e] + if log[n] == e then 1 else 0
  {
    assert log == log[..|log| - 1] + [log[|log| - 1]];
  }

  /** An event accounts for every change of the live instance. */
  lemma ObserveInstance(m: Monitor, n: nat, e: Event, i: nat)
    requires Observe(m, n, e).Some?
    ensures var m' := Observe(m, n, e).value;
            && (if m'.live == Some(i) then 1 else 0) + (if e == Cleaned(i) then 1 else 0)
               == (if m.live == Some(i) then 1 else 0) + (if e == Opened(i) then 1 else 0)
            && (e == Opened(i) ==> i == n)
  {
  }

  /** The same for the current collector. */
  lemma ObserveCollector(m: Monitor, n: nat, e: Event, c: nat)
    requires Observe(m, n, e).Some?
    ensures var m' := Observe(m, n, e).value;
            && (if m'.collector == Some(c) then 1 else 0) + (if e == CollectorCancelled(c) then 1 else 0)
               == (if m.collector == Some(c) then 1 else 0) + (if e == CollectorStarted(c) then 1 else 0)
            && (e == CollectorStarted(c) ==> c == n)
  {
  }

  lemma {:induction false} InstancesAreCleanedOnce(log: seq<Event>, i: nat)
    requires Replay(log).Some?
    ensures InstanceCounts(log, i)
    decreases |log|
  {
    hide Observe;
    if log != [] {
      var n := |log| - 1;
      InstancesAreCleanedOnce(log[..n], i);
      ObserveInstance(Replay(log[..n]).value, n, log[n], i);
      OneMoreEvent(log, Cleaned(i));
      OneMoreEvent(log, Opened(i));
    }
  }

  /**
   The same for a collector: it is started at most once, and cancelled exactly when it is no longer the current one.
   */
  ghost predicate CollectorCounts(log: seq<Event>, c: nat)
    requires Replay(log).Some?
  {
    && multiset(log)[CollectorCancelled(c)] + (if Replay(log).value.collector == Some(c) then 1 else 0)
       == multiset(log)[CollectorStarted(c)]
    && multiset(log)[CollectorStarted(c)] <= (if c < |log| then 1 else 0)
  }

  lemma {:induction false} CollectorsAreCancelledOnce(log: seq<Event>, c: nat)
    requires Replay(log).Some?
    ensures CollectorCounts(log, c)
    decreases |log|
  {
    hide Observe;
    if log != [] {
      var n := |log| - 1;
      CollectorsAreCancelledOnce(log[..n], c);
      ObserveCollector(Replay(log[..n]).value, n, log[n], c);
      OneMoreEvent(log, CollectorCancelled(c));
      OneMoreEvent(log, CollectorStarted(c));
    }
  }

  lemma {:induction false} PrefixReplays(log: seq<Event>, n: nat)
    requires Replay(log).Some? && n <= |log|
    ensures Replay(log[..n]).Some?
    decreases |log| - n
  {
    if n == |log| {
      assert log[..n] == log;
    } else {
      PrefixReplays(log, n + 1);
      assert log[..n + 1][..n] == log[..n];
    }
  }

  /**
   Over any sequence of reloads and failures: when an instance is cleaned no handler runs on it and its
   collector is cancelled, and nothing is done to it afterwards.
   */
  lemma CleanIsLast(rounds: seq<Round>, a: nat, b: nat, i: nat)
    requires var log := Rounds(rounds).log; a < b < |log| && log[a] == Cleaned(i)
    ensures var log := Rounds(rounds).log;
            && Replay(log[..a]) == Some(Monitor(Some(i), false, false, None))
            && log[b] != Cleaned(i) && log[b] != Opened(i)
            && (log[b].Reloaded? ==> log[b].instance != i)
            && Replay(log[..b]).Some? && Replay(log[..b]).value.live != Some(i)
  {
    hide Rounds, Replay;
    LifecycleHolds(rounds);
    var log := Rounds(rounds).log;
    CleanState(log, a, i);
    StateBefore(log, b);
    AfterClean(log[..b], a, i);
    InstancesAreCleanedOnce(log[..b] + [log[b]], i);
    OnceMore(log[..b], log[b], i);
  }

  /** The events before position n replay, and the event at n is accepted after them. */
  lemma StateBefore(log: seq<Event>, n: nat)
    requires Replay(log).Some? && n < |log|
    ensures Replay(log[..n]).Some? && Observe(Replay(log[..n]).value, n, log[n]).Some?
    ensures Replay(log[..n] + [log[n]]).Some?
  {
    PrefixReplays(log, n);
    PrefixReplays(log, n + 1);
    ReplayOne(log[..n], log[n]);
    assert log[..n + 1] == log[..n] + [log[n]];
  }

  lemma CleanState(log: seq<Event>, a: nat, i: nat)
    requires Replay(log).Some? && a < |log| && log[a] == Cleaned(i)
    ensures Replay(log[..a]) == Some(Monitor(Some(i), false, false, None))
  {
    hide Replay;
    StateBefore(log, a);
  }

  lemma AfterClean(log: seq<Event>, a: nat, i: nat)
    requires Replay(log).Some? && a < |log| && log[a] == Cleaned(i)
    ensures Replay(log).value.live != Some(i) && multiset(log)[Opened(i)] == 1
  {
    InstancesAreCleanedOnce(log, i);
    assert Cleaned(i) in multiset(log);
  }

  /** An instance that was opened once already is not opened again. */
  lemma OnceMore(log: seq<Event>, e: Event, i: nat)
    requires multiset(log)[Opened(i)] == 1
    requires Replay(log + [e]).Some? && InstanceCounts(log + [e], i)
    ensures e != Opened(i)
  {
  }

  /** Every opened instance is either the loaded one or has been cleaned, exactly once, over any sequence of reloads. */
  lemma EveryInstanceIsAccounted(rounds: seq<Round>, i: nat)
    ensures var s := Rounds(rounds);
            && multiset(s.log)[Cleaned(i)] + (if s.entry.Some? && s.entry.value.instance == i then 1 else 0)
                == multiset(s.log)[Opened(i)]
            && multiset(s.log)[Opened(i)] <= 1
  {
    hide Rounds;
    LifecycleHolds(rounds);
    InstancesAreCleanedOnce(Rounds(rounds).log, i);
  }

  /** Every started collector is either the current one or has been cancelled, exactly once. */
  lemma EveryCollectorIsAccounted(rounds: seq<Round>, c: nat)
    ensures var s := Rounds(rounds);
            && multiset(s.log)[CollectorCancelled(c)]
                + (if s.entry.Some? && s.entry.value.collector == Some(c) then 1 else 0)
               == multiset(s.log)[CollectorStarted(c)]
            && multiset(s.log)[CollectorStarted(c)] <= 1
  {
    hide Rounds;
    LifecycleHolds(rounds);
    CollectorsAreCancelledOnce(Rounds(rounds).log, c);
  }

  // --------------------------------------------------------------------------------------------
  // The loaded plugins do not depend on the history
  // --------------------------------------------------------------------------------------------

  /** What matters of an entry: the type, whether both handlers run, whether a collector runs. */
  datatype Shape = Shape(ptype: int, handlers: bool, training: bool)

  function ShapeOf(entry: Option<PluginData>): Option<Shape> {
    match entry
    case None => None
    case Some(d) => Some(Shape(d.ptype, d.process && d.results, d.collector.Some?))
  }

  /** What the configuration asks for. */
  function Configured(conf: Option<ModelConf>): Option<Shape> {
    match conf
    case None => None
    case Some(c) => Some(Shape(c.ptype, UsesNats(c), c.training))
  }

  const NO_FAULTS: Faults := Faults(false, false, false, false)

  /** The operations one reload performs on the plugins of an id succeed. */
  predicate Clear(conf: Option<ModelConf>, f: Faults, s: Slot) {
    conf.Some? ==>
      && (s.entry.None? ==> !f.open)
      && (s.entry.Some? ==> !f.reload)
      && (UsesNats(conf.value) && (s.entry.None? || !s.entry.value.process) ==> !f.process && !f.results)
  }

  /**
   Reconciliation is path independent, id by id: after any sequence of reloads and failures, a reload whose
   operations on an id succeed leaves it exactly as the configuration asks, that is, as a fresh load would.
   */
  lemma LastReloadDecides(rounds: seq<Round>, conf: Option<ModelConf>, f: Faults)
    requires Clear(conf, f, Rounds(rounds))
    ensures ShapeOf(Rounds(rounds + [Round(conf, f)]).entry) == Configured(conf)
    ensures ShapeOf(Rounds(rounds + [Round(conf, f)]).entry) == ShapeOf(Rounds([Round(conf, NO_FAULTS)]).entry)
  {
    hide Rounds, Replay;
    RoundsAppend(rounds, Round(conf, f));
    RoundsAppend([], Round(conf, NO_FAULTS));
    assert [] + [Round(conf, NO_FAULTS)] == [Round(conf, NO_FAULTS)];
    LifecycleHolds(rounds);
    LifecycleHolds([]);
    NothingLoaded();
    VisitShape(conf, f, Rounds(rounds));
    VisitShape(conf, NO_FAULTS, Rounds([]));
  }

  lemma NothingLoaded()
    ensures Rounds([]) == Slot(None, [])
  {
  }

  lemma RoundsAppend(rounds: seq<Round>, r: Round)
    ensures Rounds(rounds + [r]) == Visit(r.conf, r.faults, Rounds(rounds))
  {
  }

  lemma VisitShape(conf: Option<ModelConf>, f: Faults, s: Slot)
    requires SlotOk(s) && Clear(conf, f, s)
    ensures ShapeOf(Visit(conf, f, s).entry) == Configured(conf)
  {
  }

  /**
   A handler runs for an id only on an entry, and both do or none: in particular never on an instance being discarded.
   */
  lemma HandlersComeInPairs(rounds: seq<Round>)
    ensures var s := Rounds(rounds);
            && (s.entry.Some? ==> s.entry.value.process == s.entry.value.results)
            && multiset(s.log)[ProcessStarted] == multiset(s.log)[ProcessStopped]
                + (if s.entry.Some? && s.entry.value.process then 1 else 0)
            && multiset(s.log)[ResultsStarted] == multiset(s.log)[ResultsStopped]
                + (if s.entry.Some? && s.entry.value.results then 1 else 0)
  {
    hide Rounds;
    LifecycleHolds(rounds);
    HandlerCounts(Rounds(rounds).log);
  }

  lemma {:induction false} HandlerCounts(log: seq<Event>)
    requires Replay(log).Some?
    ensures multiset(log)[ProcessStarted] == multiset(log)[ProcessStopped] + if Replay(log).value.process then 1 else 0
    ensures multiset(log)[ResultsStarted] == multiset(log)[ResultsStopped] + if Replay(log).value.results then 1 else 0
    decreases |log|
  {
    hide Replay, Observe;
    if log == [] {
      EmptyReplay();
    } else {
      var n := |log| - 1;
      StateBefore(log, n);
      HandlerCounts(log[..n]);
      assert log == log[..n] + [log[n]];
      ReplayOne(log[..n], log[n]);
      HandlerChange(Replay(log[..n]).value, n, log[n]);
    }
  }

  lemma EmptyReplay()
    ensures Replay([]) == Some(Monitor(None, false, false, None))
  {
  }

  lemma HandlerChange(m: Monitor, position: nat, e: Event)
    requires Observe(m, position, e).Some?
    ensures var m' := Observe(m, position, e).value;
            && (m'.process != m.process <==> e.ProcessStarted? || e.ProcessStopped?)
            && (e.ProcessStarted? ==> m'.process) && (e.ProcessStopped? ==> m.process)
            && (m'.results != m.results <==> e.ResultsStarted? || e.ResultsStopped?)
            && (e.ResultsStarted? ==> m'.results) && (e.ResultsStopped? ==> m.results)
  {
  }

  /** Repeating a reload that succeeded starts and stops nothing: it only reloads the loaded instance. */
  lemma RepeatedReloadIsQuiet(rounds: seq<Round>, conf: Option<ModelConf>, f: Faults, g: Faults)
    requires Clear(conf, f, Rounds(rounds)) && Clear(conf, g, Rounds(rounds + [Round(conf, f)]))
    ensures var once, twice := Rounds(rounds + [Round(conf, f)]), Rounds(rounds + [Round(conf, f)] + [Round(conf, g)]);
            && twice.entry == once.entry
            && twice.log == once.log + (if once.entry.Some? then [Reloaded(once.entry.value.instance, true)] else [])
  {
    hide Rounds, Replay;
    LifecycleHolds(rounds + [Round(conf, f)]);
    LastReloadDecides(rounds, conf, f);
    RoundsAppend(rounds + [Round(conf, f)], Round(conf, g));
    VisitAgain(conf, g, Rounds(rounds + [Round(conf, f)]));
  }

  lemma VisitAgain(conf: Option<ModelConf>, f: Faults, s: Slot)
    requires SlotOk(s) && Clear(conf, f, s) && ShapeOf(s.entry) == Configured(conf)
    ensures var events := if s.entry.Some? then [Reloaded(s.entry.value.instance, true)] else [];
            Visit(conf, f, s) == Slot(s.entry, s.log + events)
  {
  }
}
