/** Checking and storing the configuration: the training bounds and the mode exclusions the other components rely on. */
module Config {
  import opened Common
  import opened Dispatch

  datatype TrainingData = TrainingData(minSamples: int, maxSamples: int, interval: int, resultPath: string,
      statusPath: string)

  datatype FileModel = FileModel(
    id: string, path: string, pluginType: string, isAsync: bool, remote: bool,
    training: bool, trainingData: TrainingData, sanitize: bool, timeout: int)

  datatype FileDecision = FileDecision(id: string, path: string, training: bool, trainingData: TrainingData,
      timeout: int)

  /** ConfigFileData; a missing timeout means its default. */
  datatype ConfigFile = ConfigFile(
    models: seq<FileModel>, decisions: seq<FileDecision>, natsUrl: string,
    credentialHeaders: Option<seq<string>>, modelTimeout: Option<int>, asyncModelTimeout: Option<int>)

  datatype StoredModel = StoredModel(conf: ModelConf, path: string, trainingData: TrainingData)

  datatype StoredDecision = StoredDecision(path: string, training: bool, trainingData: TrainingData, timeout: int)

  datatype Store = Store(
    models: map<string, StoredModel>, decisions: map<string, StoredDecision>, natsUrl: string,
    credentialHeaders: seq<string>, modelTimeout: int, asyncModelTimeout: int)

  /** In nanoseconds. */
  const DEFAULT_MODEL_TIMEOUT: int := 200_000_000
  const DEFAULT_ASYNC_MODEL_TIMEOUT: int := 60_000_000_000

  const DEFAULT_CREDENTIAL_HEADERS: seq<string> := ["authorization", "cookie", "set-cookie"]

  const PLUGIN_TYPES: seq<string> :=
    ["RequestHeaders", "RequestBody", "AllRequest", "ResponseHeaders", "ResponseBody", "AllResponse", "Everything"]

  /** StringToPluginType: the position of the name, or -1. */
  function TypeFrom(name: string, i: nat): int
    requires i <= |PLUGIN_TYPES|
    decreases |PLUGIN_TYPES| - i
  {
    if i == |PLUGIN_TYPES| then -1 else if PLUGIN_TYPES[i] == name then i else TypeFrom(name, i + 1)
  }

  /** os.Stat of a plugin path. */
  type Paths = string -> bool

  predicate BoundsOk(td: TrainingData) {
    0 < td.maxSamples && 0 <= td.minSamples <= td.maxSamples && td.interval <= td.maxSamples
  }

  predicate ModelOk(m: FileModel, natsUrl: string, paths: Paths) {
    && m.path != "" && paths(m.path)
    && m.pluginType != ""
    && m.timeout >= 0
    && !(m.training && (m.isAsync || m.remote))
    && (m.isAsync || m.remote ==> natsUrl != "")
    && (m.training ==> BoundsOk(m.trainingData))
  }

  predicate DecisionOk(d: FileDecision, paths: Paths) {
    d.path != "" && paths(d.path) && d.timeout >= 0 && (d.training ==> BoundsOk(d.trainingData))
  }

  predicate FileOk(f: ConfigFile, paths: Paths) {
    && (f.modelTimeout.Some? ==> f.modelTimeout.value >= 0)
    && (f.asyncModelTimeout.Some? ==> f.asyncModelTimeout.value >= 0)
    && (forall i | 0 <= i < |f.models| :: ModelOk(f.models[i], f.natsUrl, paths))
    && (forall i | 0 <= i < |f.decisions| :: DecisionOk(f.decisions[i], paths))
  }

  /** checkConfig */
  method CheckConfig(f: ConfigFile, paths: Paths) returns (ok: bool)
    ensures ok <==> FileOk(f, paths)
  {
    if f.modelTimeout.Some? && f.modelTimeout.value < 0 {
      return false;
    }
    if f.asyncModelTimeout.Some? && f.asyncModelTimeout.value < 0 {
      return false;
    }
    for i := 0 to |f.models|
      invariant forall j | 0 <= j < i :: ModelOk(f.models[j], f.natsUrl, paths)
    {
      var m := f.models[i];
      if m.path != "" {
        if !paths(m.path) {
          return false;
        }
      } else {
        return false;
      }
      if m.pluginType == "" || m.timeout < 0 {
        return false;
      }
      if m.training && m.isAsync {
        return false;
      }
      if m.training && m.remote {
        return false;
      }
      if (m.isAsync || m.remote) && f.natsUrl == "" {
        return false;
      }
      if m.training && (m.trainingData.maxSamples <= 0 || m.trainingData.minSamples < 0 ||
                        m.trainingData.maxSamples < m.trainingData.minSamples
                            || m.trainingData.maxSamples < m.trainingData.interval) {
        return false;
      }
    }
    for i := 0 to |f.decisions|
      invariant forall j | 0 <= j < i :: DecisionOk(f.decisions[j], paths)
    {
      var d := f.decisions[i];
      if d.path == "" || !paths(d.path) || d.timeout < 0 {
        return false;
      }
      if d.training && (d.trainingData.maxSamples <= 0 || d.trainingData.minSamples < 0 ||
                        d.trainingData.maxSamples < d.trainingData.minSamples
                            || d.trainingData.maxSamples < d.trainingData.interval) {
        return false;
      }
    }
    return true;
  }

  /** The reasons to reject the training data of a plugin that is in training. */
  predicate BadBounds(td: TrainingData) {
    td.maxSamples <= 0 || td.minSamples < 0 || td.maxSamples < td.minSamples || td.maxSamples < td.interval
  }

  /** The reasons to reject a model. */
  predicate BadModel(m: FileModel, natsUrl: string, paths: Paths) {
    || m.path == "" || !paths(m.path) || m.pluginType == "" || m.timeout < 0
    || (m.training && m.isAsync) || (m.training && m.remote)
    || (m.isAsync && natsUrl == "") || (m.remote && natsUrl == "")
    || (m.training && BadBounds(m.trainingData))
  }

  predicate BadDecision(d: FileDecision, paths: Paths) {
    d.path == "" || !paths(d.path) || d.timeout < 0 || (d.training && BadBounds(d.trainingData))
  }

  /** A file is rejected exactly for one of those reasons, or for a negative timeout of its own. */
  lemma RejectedIff(f: ConfigFile, paths: Paths)
    ensures !FileOk(f, paths) <==>
            || (f.modelTimeout.Some? && f.modelTimeout.value < 0)
            || (f.asyncModelTimeout.Some? && f.asyncModelTimeout.value < 0)
            || (exists i :: 0 <= i < |f.models| && BadModel(f.models[i], f.natsUrl, paths))
            || (exists i :: 0 <= i < |f.decisions| && BadDecision(f.decisions[i], paths))
  {
    assert forall m: FileModel :: BadModel(m, f.natsUrl, paths) <==> !ModelOk(m, f.natsUrl, paths);
    assert forall d: FileDecision :: BadDecision(d, paths) <==> !DecisionOk(d, paths);
  }

  /** An interval of 0 stands for a tenth of the maximum, at least 1; Go's division truncates. */
  function WithInterval(td: TrainingData): TrainingData {
    if td.interval != 0 then td
    else
      var tenth := if td.maxSamples >= 0 then td.maxSamples / 10 else -(-td.maxSamples / 10);
      td.(interval := if tenth > 1 then tenth else 1)
  }

  function ModelEntry(m: FileModel): StoredModel {
    StoredModel(ModelConf(TypeFrom(m.pluginType, 0), m.isAsync, m.remote, m.training, m.sanitize, m.timeout),
                m.path, WithInterval(m.trainingData))
  }

  function DecisionEntry(d: FileDecision): StoredDecision {
    StoredDecision(d.path, d.training, WithInterval(d.trainingData), d.timeout)
  }

  /** The entries of a list by id: the last one of each id. */
  function Models(ms: seq<FileModel>): map<string, StoredModel> {
    if ms == [] then map[] else Models(ms[..|ms| - 1])[ms[|ms| - 1].id := ModelEntry(ms[|ms| - 1])]
  }

  function Decisions(ds: seq<FileDecision>): map<string, StoredDecision> {
    if ds == [] then map[] else Decisions(ds[..|ds| - 1])[ds[|ds| - 1].id := DecisionEntry(ds[|ds| - 1])]
  }

  predicate Accepted(f: ConfigFile, paths: Paths) {
    FileOk(f, paths) && forall i | 0 <= i < |f.models| :: TypeFrom(f.models[i].pluginType, 0) >= 0
  }

  function StoreOf(f: ConfigFile): Store {
    Store(Models(f.models), Decisions(f.decisions), f.natsUrl,
          if f.credentialHeaders.None? then DEFAULT_CREDENTIAL_HEADERS else f.credentialHeaders.value,
          if f.modelTimeout.None? then DEFAULT_MODEL_TIMEOUT else f.modelTimeout.value,
          if f.asyncModelTimeout.None? then DEFAULT_ASYNC_MODEL_TIMEOUT else f.asyncModelTimeout.value)
  }

  /** The process-wide configuration. */
  class ConfigStore {
    var current: Option<Store>

    constructor ()
      ensures current.None?
    {
      current := None;
    }

    /** SetConfig: the configuration is replaced when the whole file is accepted, and otherwise left as it was. */
    method SetConfig(f: ConfigFile, paths: Paths) returns (ok: bool)
      modifies this
      ensures ok <==> Accepted(f, paths)
      ensures current == if ok then Some(StoreOf(f)) else old(current)
    {
      hide FileOk, ModelEntry, DecisionEntry, TypeFrom;
      ok := CheckConfig(f, paths);
      if !ok {
        return;
      }
      var models: map<string, StoredModel> := map[];
      for i := 0 to |f.models|
        invariant models == Models(f.models[..i])
        invariant forall j | 0 <= j < i :: TypeFrom(f.models[j].pluginType, 0) >= 0
      {
        var m := f.models[i];
        assert f.models[..i + 1][..i] == f.models[..i];
        if TypeFrom(m.pluginType, 0) < 0 {
          return false;
        }
        models := models[m.id := ModelEntry(m)];
      }
      assert f.models[..|f.models|] == f.models;
      var decisions: map<string, StoredDecision> := map[];
      for i := 0 to |f.decisions|
        invariant decisions == Decisions(f.decisions[..i])
      {
        var d := f.decisions[i];
        assert f.decisions[..i + 1][..i] == f.decisions[..i];
        decisions := decisions[d.id := DecisionEntry(d)];
      }
      assert f.decisions[..|f.decisions|] == f.decisions;
      var asyncModelTimeout :=
        if f.asyncModelTimeout.None? then DEFAULT_ASYNC_MODEL_TIMEOUT else f.asyncModelTimeout.value;
      current := Some(Store(models, decisions, f.natsUrl,
                            if f.credentialHeaders.None? then DEFAULT_CREDENTIAL_HEADERS else f.credentialHeaders.value,
                            if f.modelTimeout.None? then DEFAULT_MODEL_TIMEOUT else f.modelTimeout.value,
                            asyncModelTimeout));
      return true;
    }
  }

  /** The training data of a line is stored as it is, with a tenth of the maximum for an interval of 0, at least 1. */
  predicate TrainingSettings(td: TrainingData, stored: TrainingData) {
    && stored.minSamples == td.minSamples && stored.maxSamples == td.maxSamples
    && stored.resultPath == td.resultPath && stored.statusPath == td.statusPath
    && (td.interval != 0 ==> stored.interval == td.interval)
    && (td.interval == 0 && td.maxSamples < 20 ==> stored.interval == 1)
    && (td.interval == 0 && td.maxSamples >= 20 ==> 10 * stored.interval <= td.maxSamples < 10 * stored.interval + 10)
  }

  /** A stored model has the settings of its line; the types are numbered in the order of their names. */
  predicate ModelSettings(m: FileModel, stored: StoredModel) {
    && stored.path == m.path && TrainingSettings(m.trainingData, stored.trainingData)
    && stored.conf.isAsync == m.isAsync && stored.conf.remote == m.remote && stored.conf.training == m.training
    && stored.conf.sanitize == m.sanitize && stored.conf.timeout == m.timeout
    && (m.pluginType in PLUGIN_TYPES ==>
          ValidType(stored.conf.ptype) && PLUGIN_TYPES[stored.conf.ptype] == m.pluginType)
    && (m.pluginType !in PLUGIN_TYPES ==> stored.conf.ptype == -1)
  }

  predicate DecisionSettings(d: FileDecision, stored: StoredDecision) {
    && stored.path == d.path && stored.training == d.training && stored.timeout == d.timeout
    && TrainingSettings(d.trainingData, stored.trainingData)
  }

  lemma IntervalIs(td: TrainingData)
    ensures TrainingSettings(td, WithInterval(td))
  {
  }

  lemma EntryHasSettings(m: FileModel)
    ensures ModelSettings(m, ModelEntry(m))
  {
    hide TypeFrom, WithInterval, TrainingSettings;
    TypeInRange(m.pluginType, 0);
    IntervalIs(m.trainingData);
  }

  /** Line i is the last one with this id. */
  predicate LastModel(ms: seq<FileModel>, i: nat, id: string) {
    i < |ms| && ms[i].id == id && forall j | i < j < |ms| :: ms[j].id != id
  }

  predicate LastDecision(ds: seq<FileDecision>, i: nat, id: string) {
    i < |ds| && ds[i].id == id && forall j | i < j < |ds| :: ds[j].id != id
  }

  /** The stored configuration, setting by setting: every plugin has those of the last line with its id. */
  lemma StoredAsWritten(f: ConfigFile, paths: Paths, id: string, i: nat)
    requires Accepted(f, paths)
    ensures LastModel(f.models, i, id) ==>
              id in StoreOf(f).models && ModelSettings(f.models[i], StoreOf(f).models[id])
    ensures LastDecision(f.decisions, i, id) ==>
              id in StoreOf(f).decisions && DecisionSettings(f.decisions[i], StoreOf(f).decisions[id])
    ensures var s := StoreOf(f);
            && s.natsUrl == f.natsUrl
            && (f.credentialHeaders.Some? ==> s.credentialHeaders == f.credentialHeaders.value)
            && (f.credentialHeaders.None? ==> s.credentialHeaders == ["authorization", "cookie", "set-cookie"])
            && (f.modelTimeout.Some? ==> s.modelTimeout == f.modelTimeout.value)
            && (f.modelTimeout.None? ==> s.modelTimeout == 200 * 1_000_000)
            && (f.asyncModelTimeout.Some? ==> s.asyncModelTimeout == f.asyncModelTimeout.value)
            && (f.asyncModelTimeout.None? ==> s.asyncModelTimeout == 60 * 1_000_000_000)
  {
    hide Models, Decisions, ModelEntry, ModelSettings, ModelOk, DecisionOk, WithInterval, TrainingSettings;
    LastEntryWins(f.models, id);
    StoredDecisionsAreSafe(f.decisions, paths, id);
    if LastModel(f.models, i, id) {
      EntryHasSettings(f.models[i]);
    }
    if LastDecision(f.decisions, i, id) {
      IntervalIs(f.decisions[i].trainingData);
    }
  }

  /** A stored entry is that of the last line of the file with its id. */
  lemma {:induction false} LastEntryWins(ms: seq<FileModel>, id: string)
    ensures id in Models(ms) <==> exists i | 0 <= i < |ms| :: ms[i].id == id
    ensures id in Models(ms) ==>
              exists i | 0 <= i < |ms| :: ms[i].id == id && Models(ms)[id] == ModelEntry(ms[i])
                  && forall j | i < j < |ms| :: ms[j].id != id
    decreases |ms|
  {
    if ms != [] {
      var n := |ms| - 1;
      var front := ms[..n];
      LastEntryWins(front, id);
      assert ms == front + [ms[n]];
      if ms[n].id != id && id in Models(front) {
        var i :| 0 <= i < |front| && front[i].id == id && Models(front)[id] == ModelEntry(front[i])
            && forall j | i < j < |front| :: front[j].id != id;
        assert ms[i].id == id && Models(ms)[id] == ModelEntry(ms[i]) && forall j | i < j < |ms| :: ms[j].id != id;
      }
    }
  }

  /** The bounds a training collector gets: the interval is positive unless the file gives a negative one. */
  predicate TrainingReady(td: TrainingData) {
    0 < td.maxSamples && 0 <= td.minSamples <= td.maxSamples && td.interval <= td.maxSamples && td.interval != 0
  }

  lemma IntervalKeepsBounds(td: TrainingData)
    requires BoundsOk(td)
    ensures TrainingReady(WithInterval(td))
    ensures WithInterval(td).interval > 0 <==> td.interval >= 0
    ensures WithInterval(td).minSamples == td.minSamples && WithInterval(td).maxSamples == td.maxSamples
  {
  }

  /**
   Every stored model of an accepted file: training excludes async and remote, which need NATS; its bounds are
   those the collector relies on; its type is one of the defined ones.
   */
  lemma StoredModelsAreSafe(f: ConfigFile, paths: Paths, id: string)
    requires Accepted(f, paths) && id in StoreOf(f).models
    ensures var m := StoreOf(f).models[id];
            && ValidType(m.conf.ptype)
            && m.conf.timeout >= 0
            && !(m.conf.training && (m.conf.isAsync || m.conf.remote))
            && (m.conf.isAsync || m.conf.remote ==> f.natsUrl != "")
            && (m.conf.training ==> TrainingReady(m.trainingData))
  {
    LastEntryWins(f.models, id);
    var i :| 0 <= i < |f.models| && f.models[i].id == id && Models(f.models)[id] == ModelEntry(f.models[i]);
    assert ModelOk(f.models[i], f.natsUrl, paths);
    if f.models[i].training {
      IntervalKeepsBounds(f.models[i].trainingData);
    }
    TypeInRange(f.models[i].pluginType, 0);
  }

  /** The same bounds hold for every stored decision plugin, which is that of the last line with its id. */
  lemma {:induction false} StoredDecisionsAreSafe(ds: seq<FileDecision>, paths: Paths, id: string)
    requires forall i | 0 <= i < |ds| :: DecisionOk(ds[i], paths)
    ensures id in Decisions(ds) <==> exists i | 0 <= i < |ds| :: ds[i].id == id
    ensures id in Decisions(ds) && Decisions(ds)[id].training ==> TrainingReady(Decisions(ds)[id].trainingData)
    ensures forall i | 0 <= i < |ds| ::
              (ds[i].id == id && (forall j | i < j < |ds| :: ds[j].id != id) ==>
                 id in Decisions(ds) && Decisions(ds)[id] == DecisionEntry(ds[i]))
    decreases |ds|
  {
    if ds != [] {
      var n := |ds| - 1;
      var front := ds[..n];
      assert ds == front + [ds[n]];
      StoredDecisionsAreSafe(front, paths, id);
      if ds[n].training {
        assert DecisionOk(ds[n], paths);
        IntervalKeepsBounds(ds[n].trainingData);
      }
      if ds[n].id != id {
        forall i | 0 <= i < |ds| && ds[i].id == id && forall j | i < j < |ds| :: ds[j].id != id
          ensures id in Decisions(ds) && Decisions(ds)[id] == DecisionEntry(ds[i])
        {
          assert front[i].id == id && forall j | i < j < |front| :: front[j].id != id;
        }
      }
    }
  }

  lemma {:induction false} TypeInRange(name: string, i: nat)
    requires i <= |PLUGIN_TYPES|
    ensures -1 <= TypeFrom(name, i) < |PLUGIN_TYPES|
    ensures TypeFrom(name, i) >= 0 ==> PLUGIN_TYPES[TypeFrom(name, i)] == name
    ensures TypeFrom(name, i) == -1 ==> forall j | i <= j < |PLUGIN_TYPES| :: PLUGIN_TYPES[j] != name
    decreases |PLUGIN_TYPES| - i
  {
    if i < |PLUGIN_TYPES| {
      TypeInRange(name, i + 1);
    }
  }
}
