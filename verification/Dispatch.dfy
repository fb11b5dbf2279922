/**
 callPlugins up to its wait loops: the counting pass, which sizes the status channels, and the dispatch
 pass, which starts the model plugins that will report on them.
 */
module Dispatch {
  import opened Common
  import opened Utf8
  import opened Sanitizer
  import opened Payload

  type ModelId = string

  datatype ModelConf = ModelConf(ptype: int, isAsync: bool, remote: bool, training: bool, sanitize: bool, timeout: int)

  datatype Config = Config(
    models: map<ModelId, ModelConf>,
    credentialHeaders: seq<Str>,
    modelTimeout: int,
    asyncModelTimeout: int)

  /** How the dispatch pass runs a model plugin: the order of its switch. */
  datatype Mode = Async | Training | Remote | Local

  /** The status channel a model plugin reports on. */
  datatype Kind = SyncKind | AsyncKind | NoKind

  function ModeOf(c: ModelConf): Mode {
    if c.isAsync then Async else if c.training then Training else if c.remote then Remote else Local
  }

  function KindOf(m: Mode): Kind {
    match m
    case Async => AsyncKind
    case Training => NoKind
    case Remote => SyncKind
    case Local => SyncKind
  }

  /** A model plugin call: what the dispatch pass decides for one entry of the filtered list. */
  datatype Job = Job(id: ModelId, mode: Mode, payload: HttpPayload)

  predicate Keeps(conf: Config, id: ModelId, t: int) {
    id in conf.models && conf.models[id].ptype == t
  }

  /** The configured models of type t, in order and with repetitions. */
  function Kept(conf: Config, models: seq<ModelId>, t: int): (r: seq<ModelId>)
    ensures forall id | id in r :: Keeps(conf, id, t)
  {
    if models == [] then []
    else
      var front := Kept(conf, models[..|models| - 1], t);
      if Keeps(conf, models[|models| - 1], t) then front + [models[|models| - 1]] else front
  }

  /** Filtering goes model by model, in order, and keeps exactly the configured ones of the type. */
  lemma {:induction false} KeptIs(conf: Config, a: seq<ModelId>, b: seq<ModelId>, id: ModelId, t: int)
    ensures Kept(conf, [], t) == []
    ensures Kept(conf, [id], t) == if id in conf.models && conf.models[id].ptype == t then [id] else []
    ensures Kept(conf, a + b, t) == Kept(conf, a, t) + Kept(conf, b, t)
    decreases |b|
  {
    if b == [] {
      assert a + b == a;
    } else {
      var front := b[..|b| - 1];
      KeptIs(conf, a, front, id, t);
      assert (a + b)[..|a + b| - 1] == a + front;
    }
  }

  /** The payload a model plugin must see. */
  ghost function PayloadFor(conf: Config, fold: Fold, id: ModelId, input: HttpPayload): HttpPayload
    requires id in conf.models
  {
    if conf.models[id].sanitize then SanitizedPayload(input, conf.credentialHeaders, fold) else input
  }

  ghost function JobFor(conf: Config, fold: Fold, id: ModelId, input: HttpPayload): Job
    requires id in conf.models
  {
    Job(id, ModeOf(conf.models[id]), PayloadFor(conf, fold, id, input))
  }

  ghost function Jobs(conf: Config, fold: Fold, ids: seq<ModelId>, input: HttpPayload): (r: seq<Job>)
    requires forall id | id in ids :: id in conf.models
    ensures |r| == |ids|
  {
    seq(|ids|, i requires 0 <= i < |ids| => JobFor(conf, fold, ids[i], input))
  }

  /** The calls of one Analyze. */
  ghost function Plan(conf: Config, fold: Fold, models: seq<ModelId>, t: int, input: HttpPayload): seq<Job> {
    Jobs(conf, fold, Kept(conf, models, t), input)
  }

  /** The positions of the calls that report on the channel of kind k. */
  ghost function Reporters(jobs: seq<Job>, k: Kind): set<nat> {
    set i: nat | i < |jobs| && KindOf(jobs[i].mode) == k
  }

  /** The same positions, from the configuration alone. */
  ghost function KindPositions(conf: Config, ids: seq<ModelId>, k: Kind): set<nat>
    requires forall id | id in ids :: id in conf.models
  {
    set i: nat | i < |ids| && KindOf(ModeOf(conf.models[ids[i]])) == k
  }

  lemma KindPositionsAppend(conf: Config, ids: seq<ModelId>, id: ModelId, k: Kind)
    requires id in conf.models && forall x | x in ids :: x in conf.models
    ensures |KindPositions(conf, ids + [id], k)|
            == |KindPositions(conf, ids, k)| + if KindOf(ModeOf(conf.models[id])) == k then 1 else 0
  {
    hide ModeOf, KindOf;
    var before, after := KindPositions(conf, ids, k), KindPositions(conf, ids + [id], k);
    assert forall i: nat | i < |ids| :: (ids + [id])[i] == ids[i];
    if KindOf(ModeOf(conf.models[id])) == k {
      assert after == before + {|ids|};
    } else {
      assert after == before;
    }
  }

  /**
   The counting pass. Its switch is not the one of the dispatch pass (it never tests IsRemote), yet its
   counters are the numbers of calls that the dispatch pass makes report on each channel.
   */
  method CountingPass(conf: Config, models: seq<ModelId>, t: int)
    returns (filtered: seq<ModelId>, syncCounter: nat, asyncCounter: nat, shouldSanitize: bool)
    ensures filtered == Kept(conf, models, t)
    ensures syncCounter == |KindPositions(conf, filtered, SyncKind)|
    ensures asyncCounter == |KindPositions(conf, filtered, AsyncKind)|
    ensures syncCounter
            == |set i: nat | i < |filtered| && !conf.models[filtered[i]].isAsync && !conf.models[filtered[i]].training|
    ensures asyncCounter == |set i: nat | i < |filtered| && conf.models[filtered[i]].isAsync|
    ensures shouldSanitize <==> exists id | id in filtered :: conf.models[id].sanitize
  {
    filtered, syncCounter, asyncCounter, shouldSanitize := [], 0, 0, false;
    for n := 0 to |models|
      invariant filtered == Kept(conf, models[..n], t)
      invariant syncCounter == |KindPositions(conf, filtered, SyncKind)|
      invariant asyncCounter == |KindPositions(conf, filtered, AsyncKind)|
      invariant shouldSanitize <==> exists id | id in filtered :: conf.models[id].sanitize
    {
      var id := models[n];
      assert models[..n + 1][..n] == models[..n];
      if id !in conf.models || conf.models[id].ptype != t {
        continue;
      }
      KindPositionsAppend(conf, filtered, id, SyncKind);
      KindPositionsAppend(conf, filtered, id, AsyncKind);
      if conf.models[id].isAsync {
        asyncCounter := asyncCounter + 1;
      } else if !conf.models[id].training {
        syncCounter := syncCounter + 1;
      }
      filtered := filtered + [id];
      if !shouldSanitize && conf.models[id].sanitize {
        shouldSanitize := true;
      }
    }
    assert models[..|models|] == models;
    assert forall i | 0 <= i < |filtered| :: filtered[i] in filtered && filtered[i] in conf.models;
    assert KindPositions(conf, filtered, SyncKind)
        == set i: nat | i < |filtered| && !conf.models[filtered[i]].isAsync && !conf.models[filtered[i]].training;
    assert KindPositions(conf, filtered, AsyncKind) == set i: nat | i < |filtered| && conf.models[filtered[i]].isAsync;
  }

  lemma ReportersOfPlan(conf: Config, fold: Fold, ids: seq<ModelId>, input: HttpPayload, k: Kind)
    requires forall id | id in ids :: id in conf.models
    ensures Reporters(Jobs(conf, fold, ids, input), k) == KindPositions(conf, ids, k)
  {
  }

  // --------------------------------------------------------------------------------------------
  // The queue of the async and remote model plugins
  // --------------------------------------------------------------------------------------------

  /** json.Marshal of the input and Publish are library calls: they are parameters. */
  type Encoder = HttpPayload -> Result<Str, string>
  type Publisher = (ModelId, Str) -> Result<(), string>

  /** queueInput: an input that is encoded at most once, the first time it is sent. */
  class QueueInput {
    const payload: HttpPayload
    var encoded: bool
    var data: Result<Str, string>
    ghost var encodings: nat

    ghost predicate Valid(encoder: Encoder)
      reads this
    {
      && encodings == (if encoded then 1 else 0)
      && (encoded ==> data == encoder(payload))
    }

    constructor (payload: HttpPayload)
      ensures this.payload == payload && !encoded && encodings == 0
    {
      this.payload := payload;
      encoded := false;
      data := Ok([]);
      encodings := 0;
    }

    method Encode(encoder: Encoder) returns (r: Result<Str, string>)
      requires Valid(encoder)
      modifies this
      ensures Valid(encoder) && encoded && r == encoder(payload)
    {
      if !encoded {
        data := encoder(payload);
        encodings := encodings + 1;
        encoded := true;
      }
      r := data;
    }
  }

  /** What the dispatch pass does for one call. */
  datatype Action =
    | StartProcess(id: ModelId, payload: HttpPayload)          // go pm.Process
    | StartTraining(id: ModelId, payload: HttpPayload)         // go pm.ProcessTraining
    | Publish(id: ModelId, data: Str)                          // a message in the model's queue
    | SendError(id: ModelId, kind: Kind)                       // a status on the channel of that kind

  /** A call that goes through the queue either is published or reports its failure, and never both. */
  ghost function QueueAction(id: ModelId, payload: HttpPayload, kind: Kind, encoder: Encoder,
      publisher: Publisher): Action {
    match encoder(payload)
    case Err(_) => SendError(id, kind)
    case Ok(data) => if publisher(id, data).Ok? then Publish(id, data) else SendError(id, kind)
  }

  ghost function ActionFor(job: Job, encoder: Encoder, publisher: Publisher): Action {
    match job.mode
    case Async => QueueAction(job.id, job.payload, AsyncKind, encoder, publisher)
    case Training => StartTraining(job.id, job.payload)
    case Remote => QueueAction(job.id, job.payload, SyncKind, encoder, publisher)
    case Local => StartProcess(job.id, job.payload)
  }

  /** sendToQueue */
  method SendToQueue(id: ModelId, input: QueueInput, kind: Kind, encoder: Encoder, publisher: Publisher)
      returns (a: Action)
    requires input.Valid(encoder)
    modifies input
    ensures input.Valid(encoder)
    ensures a == QueueAction(id, input.payload, kind, encoder, publisher)
    ensures var r := encoder(input.payload);
            a == if r.Ok? && publisher(id, r.value).Ok? then Publish(id, r.value) else SendError(id, kind)
  {
    var r := input.Encode(encoder);
    if r.Ok? {
      var p := publisher(id, r.value);
      if p.Ok? {
        return Publish(id, r.value);
      }
    }
    return SendError(id, kind);
  }

  /** sanitizeCredentials */
  method SanitizeCredentials(p: HttpPayload, names: seq<Str>, fold: Fold) returns (q: HttpPayload)
    ensures q == SanitizedPayload(p, names, fold)
    ensures q.uri == Sanitized(p.uri) && q.requestBody == Sanitized(p.requestBody)
    ensures HeadersMasked(p.requestHeaders, q.requestHeaders, names, fold)
    ensures HeadersMasked(p.responseHeaders, q.responseHeaders, names, fold)
    ensures p == q.(uri := p.uri, requestBody := p.requestBody, requestHeaders := p.requestHeaders,
                    responseHeaders := p.responseHeaders)
  {
    var uri := SanitizeFields(p.uri);
    var body := SanitizeFields(p.requestBody);
    var req := new Header[|p.requestHeaders|](i requires 0 <= i < |p.requestHeaders| => p.requestHeaders[i]);
    assert req[..] == p.requestHeaders;
    var resp := new Header[|p.responseHeaders|](i requires 0 <= i < |p.responseHeaders| => p.responseHeaders[i]);
    assert resp[..] == p.responseHeaders;
    var maskedReq := SanitizeHeaders(req, names, fold);
    var maskedResp := SanitizeHeaders(resp, names, fold);
    q := p.(uri := uri, requestBody := body, requestHeaders := maskedReq[..], responseHeaders := maskedResp[..]);
  }

  /** What is done for model id, from its line of the configuration. */
  ghost predicate Started(conf: Config, fold: Fold, id: ModelId, input: HttpPayload, a: Action, encoder: Encoder,
                          publisher: Publisher) {
    && id in conf.models
    && var c := conf.models[id];
       var q := if c.sanitize then SanitizedPayload(input, conf.credentialHeaders, fold) else input;
       && (c.isAsync ==> a == QueueAction(id, q, AsyncKind, encoder, publisher))
       && (!c.isAsync && c.training ==> a == StartTraining(id, q))
       && (!c.isAsync && !c.training && c.remote ==> a == QueueAction(id, q, SyncKind, encoder, publisher))
       && (!c.isAsync && !c.training && !c.remote ==> a == StartProcess(id, q))
  }

  lemma PlanStarts(conf: Config, fold: Fold, models: seq<ModelId>, t: int, input: HttpPayload, i: nat,
                   encoder: Encoder, publisher: Publisher)
    requires i < |Kept(conf, models, t)|
    ensures var a := ActionFor(Plan(conf, fold, models, t, input)[i], encoder, publisher);
            Started(conf, fold, Kept(conf, models, t)[i], input, a, encoder, publisher)
  {
    hide Kept, SanitizedPayload, QueueAction;
    var id := Kept(conf, models, t)[i];
    assert id in Kept(conf, models, t);
  }

  /**
   The dispatch pass after the counting pass: one action per kept model, each on the payload that model
   must see, although the sanitized payload is only built when the counting pass asked for it. However
   many models go through the queue, each payload is encoded at most once.
   */
  method DispatchPass(conf: Config, models: seq<ModelId>, t: int, input: HttpPayload, fold: Fold, zero: HttpPayload,
                      encoder: Encoder, publisher: Publisher)
    returns (actions: seq<Action>, syncCounter: nat, asyncCounter: nat, plain: QueueInput, clean: QueueInput)
    ensures var plan := Plan(conf, fold, models, t, input);
            && |actions| == |plan|
            && (forall i | 0 <= i < |plan| :: actions[i] == ActionFor(plan[i], encoder, publisher))
            && syncCounter == |Reporters(plan, SyncKind)|
            && asyncCounter == |Reporters(plan, AsyncKind)|
    ensures var kept := Kept(conf, models, t);
            |actions| == |kept| && forall i | 0 <= i < |kept| ::
                Started(conf, fold, kept[i], input, actions[i], encoder, publisher)
    ensures plain.encodings <= 1 && clean.encodings <= 1
  {
    hide Kept, KindPositions, Reporters, SanitizedPayload, QueueAction, Started;
    var filtered, shouldSanitize;
    filtered, syncCounter, asyncCounter, shouldSanitize := CountingPass(conf, models, t);
    ghost var plan := Plan(conf, fold, models, t, input);
    ReportersOfPlan(conf, fold, filtered, input, SyncKind);
    ReportersOfPlan(conf, fold, filtered, input, AsyncKind);
    var sanitized := zero;
    if shouldSanitize {
      sanitized := SanitizeCredentials(input, conf.credentialHeaders, fold);
    }
    plain := new QueueInput(input);
    clean := new QueueInput(sanitized);
    actions := [];
    for n := 0 to |filtered|
      invariant plain.Valid(encoder) && clean.Valid(encoder) && plain != clean && fresh(plain) && fresh(clean)
      invariant |actions| == n
      invariant forall i | 0 <= i < n :: actions[i] == ActionFor(plan[i], encoder, publisher)
    {
      var id := filtered[n];
      var payload := if conf.models[id].sanitize then sanitized else input;
      var queued := if conf.models[id].sanitize then clean else plain;
      assert plan[n] == Job(id, ModeOf(conf.models[id]), payload);
      var a;
      if conf.models[id].isAsync {
        a := SendToQueue(id, queued, AsyncKind, encoder, publisher);
      } else if conf.models[id].training {
        a := StartTraining(id, payload);
      } else if conf.models[id].remote {
        a := SendToQueue(id, queued, SyncKind, encoder, publisher);
      } else {
        a := StartProcess(id, payload);
      }
      actions := actions + [a];
    }
    forall i | 0 <= i < |filtered|
      ensures Started(conf, fold, filtered[i], input, actions[i], encoder, publisher)
    {
      PlanStarts(conf, fold, models, t, input, i, encoder, publisher);
    }
  }

  /**
   A model plugin that asks for sanitized input tells two payloads apart exactly when they differ in more than
   credentials.
   */
  lemma SanitizedJobsAreBlind(conf: Config, fold: Fold, models: seq<ModelId>, t: int, p: HttpPayload, q: HttpPayload,
      i: nat)
    requires i < |Kept(conf, models, t)|
    requires Kept(conf, models, t)[i] in conf.models && conf.models[Kept(conf, models, t)[i]].sanitize
    ensures Plan(conf, fold, models, t, p)[i] == Plan(conf, fold, models, t, q)[i]
            <==> SameButCredentials(p, q, conf.credentialHeaders, fold)
  {
    hide SameButCredentials, SanitizedPayload, Kept;
    CredentialsLeaveNoTrace(p, q, conf.credentialHeaders, fold);
  }
}
