/** CheckResult: how the decision plugins turn the results of a transaction into a verdict. */
module Decision {
  import opened Common
  import opened Dispatch
  import opened Transaction

  type PluginId = string

  type Results = map<ModelId, ModelResults>

  datatype Error = TransactionNotFound | PluginNotFound | MultipleEnabled | PluginFailed(message: string)

  /** (block, decided, err) */
  datatype Answer = Answer(block: bool, decided: bool, err: Option<Error>)

  /** The loaded decision plugins and their configuration; conf is missing if none was ever set. */
  datatype Plugins = Plugins(
    loaded: set<PluginId>,
    collecting: set<PluginId>,                                   // those with a training context
    conf: Option<map<PluginId, bool>>,                           // whether each configured plugin is in training
    verdict: (PluginId, Results) -> Result<bool, string>)        // DecisionPlugin.CheckResults

  /** A plugin that is not configured has the zero configuration: it is not in training. */
  predicate InTraining(p: Plugins, id: PluginId) {
    p.conf.Some? && id in p.conf.value && p.conf.value[id]
  }

  /** The production plugins of a list, in order and with repetitions. */
  function Production(p: Plugins, ids: seq<PluginId>): (r: seq<PluginId>)
    ensures forall id | id in r :: id in ids && !InTraining(p, id)
    ensures forall id | id in ids && !InTraining(p, id) :: id in r
  {
    if ids == [] then []
    else
      var front := Production(p, ids[..|ids| - 1]);
      if InTraining(p, ids[|ids| - 1]) then front else front + [ids[|ids| - 1]]
  }

  /** What the loop does with the next plugin of the list. */
  function Consider(p: Plugins, snap: Results, a: Answer, id: PluginId): Answer {
    if id !in p.loaded then Answer(false, false, Some(PluginNotFound))
    else if InTraining(p, id) then a
    else if a.decided then Answer(false, true, Some(MultipleEnabled))
    else match p.verdict(id, snap)
      case Err(m) => Answer(false, true, Some(PluginFailed(m)))
      case Ok(block) => Answer(block, true, None)
  }

  function Decide(p: Plugins, snap: Results, ids: seq<PluginId>): Answer {
    if ids == [] then Answer(false, false, None)
    else
      var a := Decide(p, snap, ids[..|ids| - 1]);
      if a.err.Some? then a else Consider(p, snap, a, ids[|ids| - 1])
  }

  /** The answer of a call, with the checks that precede the loop. */
  function CheckAnswer(p: Plugins, tx: Option<Results>, ids: seq<PluginId>): Answer {
    if tx.None? then Answer(false, false, Some(TransactionNotFound))
    else if p.conf.None? then Answer(false, false, None)
    else Decide(p, tx.value, ids)
  }

  /** The shadow checks a list starts, in order. */
  function Shadows(p: Plugins, ids: seq<PluginId>): seq<PluginId> {
    if ids == [] then []
    else
      var last := ids[|ids| - 1];
      Shadows(p, ids[..|ids| - 1]) + if InTraining(p, last) && last in p.collecting then [last] else []
  }

  lemma {:induction false} ErrorsStay(p: Plugins, snap: Results, ids: seq<PluginId>, n: nat)
    requires n <= |ids| && Decide(p, snap, ids[..n]).err.Some?
    ensures Decide(p, snap, ids) == Decide(p, snap, ids[..n])
    decreases |ids| - n
  {
    if n == |ids| {
      assert ids[..n] == ids;
    } else {
      assert ids[..n + 1][..n] == ids[..n];
      ErrorsStay(p, snap, ids, n + 1);
    }
  }

  /** The pass over the list ends at n: at its end, or at the first plugin that gives an error. */
  predicate StopsAt(p: Plugins, snap: Results, ids: seq<PluginId>, n: int) {
    && 0 <= n <= |ids|
    && Decide(p, snap, ids[..n]).err.None?
    && (n < |ids| ==> Decide(p, snap, ids[..n + 1]).err.Some?)
  }

  /**
   CheckResult: one pass over the list that returns at the first error. started lists the shadow checks it has
   launched, exactly those of the plugins before that point; they run on their own and never touch the answer.
   */
  method CheckResult(p: Plugins, tx: Option<Results>, ids: seq<PluginId>) returns (a: Answer, started: seq<PluginId>)
    ensures a == CheckAnswer(p, tx, ids)
    ensures tx.None? ==> a == Answer(false, false, Some(TransactionNotFound)) && started == []
    ensures tx.Some? && p.conf.None? ==> a == Answer(false, false, None) && started == []
    ensures tx.Some? && p.conf.Some? ==>
              exists n :: StopsAt(p, tx.value, ids, n) && started == Shadows(p, ids[..n])
  {
    started := [];
    if tx.None? {
      return Answer(false, false, Some(TransactionNotFound)), started;
    }
    if p.conf.None? {
      return Answer(false, false, None), started;
    }
    var enabledPluginFound, result := false, false;
    for n := 0 to |ids|
      invariant Decide(p, tx.value, ids[..n]) == Answer(result, enabledPluginFound, None)
      invariant started == Shadows(p, ids[..n])
    {
      var id := ids[n];
      assert ids[..n + 1][..n] == ids[..n];
      if id !in p.loaded {
        ErrorsStay(p, tx.value, ids, n + 1);
        assert StopsAt(p, tx.value, ids, n);
        return Answer(false, false, Some(PluginNotFound)), started;
      }
      if InTraining(p, id) {
        if id in p.collecting {
          started := started + [id];
        }
        continue;
      }
      if enabledPluginFound {
        ErrorsStay(p, tx.value, ids, n + 1);
        assert StopsAt(p, tx.value, ids, n);
        return Answer(false, true, Some(MultipleEnabled)), started;
      }
      enabledPluginFound := true;
      var res := p.verdict(id, tx.value);
      if res.Err? {
        ErrorsStay(p, tx.value, ids, n + 1);
        assert StopsAt(p, tx.value, ids, n);
        return Answer(false, true, Some(PluginFailed(res.error))), started;
      }
      result := res.value;
    }
    assert ids[..|ids|] == ids;
    assert StopsAt(p, tx.value, ids, |ids|);
    return Answer(result, enabledPluginFound, None), started;
  }

  /** A plugin is in training if its configuration says so. */
  predicate IsShadow(p: Plugins, id: PluginId) {
    p.conf.Some? && id in p.conf.value && p.conf.value[id] == true
  }

  lemma Regroup(a: seq<PluginId>, b: seq<PluginId>, c: seq<PluginId>)
    ensures a + b + c == a + (b + c)
  {
  }

  lemma NoShadows(p: Plugins)
    ensures Shadows(p, []) == []
  {
  }

  lemma ShadowsUnfold(p: Plugins, ids: seq<PluginId>)
    requires ids != []
    ensures var front, last := ids[..|ids| - 1], ids[|ids| - 1];
            Shadows(p, ids) == if IsShadow(p, last) && last in p.collecting then Shadows(p, front) + [last]
                else Shadows(p, front)
  {
  }

  lemma {:induction false} ShadowsAppend(p: Plugins, a: seq<PluginId>, b: seq<PluginId>)
    ensures Shadows(p, a + b) == Shadows(p, a) + Shadows(p, b)
    decreases |b|
  {
    hide Shadows, InTraining;
    if b == [] {
      NoShadows(p);
      assert a + b == a;
    } else {
      var front, last := b[..|b| - 1], b[|b| - 1];
      ShadowsAppend(p, a, front);
      ShadowsUnfold(p, b);
      ShadowsUnfold(p, a + b);
      assert (a + b)[..|a + b| - 1] == a + front && (a + b)[|a + b| - 1] == last;
      Regroup(Shadows(p, a), Shadows(p, front), [last]);
    }
  }

  /** The shadow checks of a list are started plugin by plugin, in order, for those that collect samples. */
  lemma ShadowsAre(p: Plugins, a: seq<PluginId>, b: seq<PluginId>, id: PluginId)
    ensures Shadows(p, []) == []
    ensures Shadows(p, [id]) == if IsShadow(p, id) && id in p.collecting then [id] else []
    ensures Shadows(p, a + b) == Shadows(p, a) + Shadows(p, b)
  {
    hide Shadows;
    NoShadows(p);
    ShadowsUnfold(p, [id]);
    assert [id][..0] == [];
    ShadowsAppend(p, a, b);
  }

  lemma NoProduction(p: Plugins)
    ensures Production(p, []) == []
  {
  }

  lemma {:induction false} ProductionAppend(p: Plugins, a: seq<PluginId>, b: seq<PluginId>)
    ensures Production(p, a + b) == Production(p, a) + Production(p, b)
    decreases |b|
  {
    hide Production, InTraining;
    if b == [] {
      NoProduction(p);
      assert a + b == a;
    } else {
      var front, last := b[..|b| - 1], b[|b| - 1];
      ProductionAppend(p, a, front);
      ProductionUnfolds(p, b);
      ProductionUnfolds(p, a + b);
      assert (a + b)[..|a + b| - 1] == a + front && (a + b)[|a + b| - 1] == last;
      Regroup(Production(p, a), Production(p, front), [last]);
    }
  }

  /** The production plugins of a list are the others, in order. */
  lemma ProductionIs(p: Plugins, a: seq<PluginId>, b: seq<PluginId>, id: PluginId)
    ensures Production(p, []) == []
    ensures Production(p, [id]) == if IsShadow(p, id) then [] else [id]
    ensures Production(p, a + b) == Production(p, a) + Production(p, b)
  {
    hide Production;
    NoProduction(p);
    ProductionUnfolds(p, [id]);
    assert [id][..0] == [];
    ProductionAppend(p, a, b);
  }

  /**
   The answer of a check that fails is that of the first plugin with an error: not loaded, a second production
   plugin, or a production plugin that fails. Only the last two count as decided, and none blocks.
   */
  lemma FirstErrorDecides(p: Plugins, snap: Results, ids: seq<PluginId>, n: nat)
    requires StopsAt(p, snap, ids, n) && n < |ids|
    ensures var a, id := Decide(p, snap, ids), ids[n];
            if id !in p.loaded then a == Answer(false, false, Some(PluginNotFound))
            else if exists j | 0 <= j < n :: !IsShadow(p, ids[j]) then
              !IsShadow(p, id) && a == Answer(false, true, Some(MultipleEnabled))
            else
              && !IsShadow(p, id) && p.verdict(id, snap).Err?
              && a == Answer(false, true, Some(PluginFailed(p.verdict(id, snap).error)))
  {
    hide Production, Shadows;
    assert ids[..n + 1][..n] == ids[..n];
    ErrorsStay(p, snap, ids, n + 1);
    SucceedsExactlyWhen(p, snap, ids[..n]);
    HasProduction(p, ids[..n]);
  }

  lemma HasProduction(p: Plugins, ids: seq<PluginId>)
    ensures Production(p, ids) != [] <==> exists j | 0 <= j < |ids| :: !IsShadow(p, ids[j])
  {
    hide Production;
    if Production(p, ids) != [] {
      assert Production(p, ids)[0] in Production(p, ids);
    }
    if j :| 0 <= j < |ids| && !IsShadow(p, ids[j]) {
      assert ids[j] in Production(p, ids);
    }
  }

  /** A list of loaded plugins is decided by its production plugins alone. */
  lemma {:induction false} OnlyProductionDecides(p: Plugins, snap: Results, ids: seq<PluginId>)
    requires forall id | id in ids :: id in p.loaded
    ensures Decide(p, snap, ids) == Decide(p, snap, Production(p, ids))
    decreases |ids|
  {
    if ids != [] {
      var front := ids[..|ids| - 1];
      OnlyProductionDecides(p, snap, front);
      var last := ids[|ids| - 1];
      if !InTraining(p, last) {
        assert (Production(p, front) + [last])[..|Production(p, front)|] == Production(p, front);
      }
    }
  }

  /** Shadow non-interference: plugins in training, added or removed anywhere, leave the answer as it is. */
  lemma ShadowsDoNotInterfere(p: Plugins, tx: Option<Results>, ids: seq<PluginId>, others: seq<PluginId>)
    requires forall id | id in ids || id in others :: id in p.loaded
    requires Production(p, ids) == Production(p, others)
    ensures CheckAnswer(p, tx, ids) == CheckAnswer(p, tx, others)
  {
    if tx.Some? {
      OnlyProductionDecides(p, tx.value, ids);
      OnlyProductionDecides(p, tx.value, others);
    }
  }

  lemma ProductionUnfolds(p: Plugins, ids: seq<PluginId>)
    requires ids != []
    ensures var front, last := ids[..|ids| - 1], ids[|ids| - 1];
            Production(p, ids) == if InTraining(p, last) then Production(p, front) else Production(p, front) + [last]
  {
  }

  /** Removing one plugin in training from a list removes no production plugin. */
  lemma {:induction false} ProductionWithout(p: Plugins, ids: seq<PluginId>, i: nat)
    requires i < |ids| && InTraining(p, ids[i])
    ensures Production(p, ids[..i] + ids[i + 1..]) == Production(p, ids)
    decreases |ids|
  {
    hide Production, InTraining;
    var n := |ids| - 1;
    var shorter := ids[..i] + ids[i + 1..];
    ProductionUnfolds(p, ids);
    if i == n {
      assert shorter == ids[..n];
    } else {
      ProductionUnfolds(p, shorter);
      assert shorter[..|shorter| - 1] == ids[..n][..i] + ids[..n][i + 1..];
      assert shorter[|shorter| - 1] == ids[n];
      ProductionWithout(p, ids[..n], i);
    }
  }

  /** The verdict of a list without errors: that of its production plugin, or "not decided" without one. */
  ghost predicate Succeeds(p: Plugins, snap: Results, ids: seq<PluginId>) {
    && (forall id | id in ids :: id in p.loaded)
    && |Production(p, ids)| <= 1
    && (Production(p, ids) != [] ==> p.verdict(Production(p, ids)[0], snap).Ok?)
  }

  ghost function Verdict(p: Plugins, snap: Results, ids: seq<PluginId>): Answer
    requires Succeeds(p, snap, ids)
  {
    if Production(p, ids) == [] then Answer(false, false, None)
    else Answer(p.verdict(Production(p, ids)[0], snap).value, true, None)
  }

  /**
   The check succeeds exactly when all plugins are loaded, at most one is in production and that one does not fail.
   */
  lemma {:induction false} SucceedsExactlyWhen(p: Plugins, snap: Results, ids: seq<PluginId>)
    ensures Decide(p, snap, ids).err.None? <==> Succeeds(p, snap, ids)
    ensures Decide(p, snap, ids).err.None? ==> Decide(p, snap, ids) == Verdict(p, snap, ids)
    decreases |ids|
  {
    if ids != [] {
      var n := |ids| - 1;
      SucceedsExactlyWhen(p, snap, ids[..n]);
      assert ids == ids[..n] + [ids[n]];
    }
  }

  /** The order of the list does not matter to a successful check, nor to whether it succeeds. */
  lemma OrderDoesNotMatter(p: Plugins, snap: Results, ids: seq<PluginId>, others: seq<PluginId>)
    requires multiset(ids) == multiset(others)
    ensures Decide(p, snap, ids).err.None? <==> Decide(p, snap, others).err.None?
    ensures Decide(p, snap, ids).err.None? ==> Decide(p, snap, ids) == Decide(p, snap, others)
  {
    hide Production, Decide, InTraining;
    SucceedsExactlyWhen(p, snap, ids);
    SucceedsExactlyWhen(p, snap, others);
    SameProduction(p, ids, others);
    SameMembers(ids, others);
    SingletonsAgree(Production(p, ids), Production(p, others));
  }

  lemma SameMembers(a: seq<PluginId>, b: seq<PluginId>)
    requires multiset(a) == multiset(b)
    ensures forall id :: id in a <==> id in b
  {
    assert forall id :: id in a <==> id in multiset(a);
    assert forall id :: id in b <==> id in multiset(b);
  }

  lemma SingletonsAgree(a: seq<PluginId>, b: seq<PluginId>)
    requires multiset(a) == multiset(b)
    ensures |a| == |b| && (|a| == 1 ==> a == b)
  {
    assert |a| == |multiset(a)| == |multiset(b)| == |b|;
    SameMembers(a, b);
    if |a| == 1 {
      assert a[0] in b;
    }
  }

  lemma SameProduction(p: Plugins, ids: seq<PluginId>, others: seq<PluginId>)
    requires multiset(ids) == multiset(others)
    ensures multiset(Production(p, ids)) == multiset(Production(p, others))
  {
    hide Production, InTraining;
    ProductionCounts(p, ids);
    ProductionCounts(p, others);
  }

  lemma {:induction false} ProductionCounts(p: Plugins, ids: seq<PluginId>)
    ensures forall id :: multiset(Production(p, ids))[id] == if InTraining(p, id) then 0 else multiset(ids)[id]
    decreases |ids|
  {
    if ids != [] {
      ProductionCounts(p, ids[..|ids| - 1]);
      assert ids == ids[..|ids| - 1] + [ids[|ids| - 1]];
    }
  }

  /**
   CheckTransaction end to end, without timeouts and in every interleaving: a Check succeeds exactly when its
   plugins are loaded, at most one is in production and that one does not fail on the sequential results, and
   then it answers that plugin's verdict on them.
   */
  lemma CheckTransactionIsDeterministic(env: Env, p: Plugins, ids: seq<PluginId>, e: State, k: nat)
    requires OneAnalyzePerType(env) && Reachable(env, e) && k in e.checks && Uncut(e, k) && p.conf.Some?
    ensures var a, snap := CheckAnswer(p, e.checks[k], ids), Sequential(env, k);
            && (a.err.None? <==> Succeeds(p, snap, ids))
            && (a.err.None? ==> a == Verdict(p, snap, ids))
  {
    hide OneAnalyzePerType, Reachable, Uncut, Sequential, Decide;
    CheckIsSequential(env, e, k);
    SucceedsExactlyWhen(p, Sequential(env, k), ids);
  }

  /**
   Two interleavings of the same transaction, asked with lists of loaded plugins that may differ in their
   shadow plugins and in their order, agree on whether the check succeeds and on the successful answer.
   */
  lemma ChecksAnswerAlike(env: Env, p: Plugins, ids: seq<PluginId>, others: seq<PluginId>, e: State, f: State, k: nat)
    requires OneAnalyzePerType(env) && Reachable(env, e) && Reachable(env, f) && p.conf.Some?
    requires k in e.checks && Uncut(e, k) && k in f.checks && Uncut(f, k)
    requires forall id | id in ids || id in others :: id in p.loaded
    requires multiset(Production(p, ids)) == multiset(Production(p, others))
    ensures var a, b := CheckAnswer(p, e.checks[k], ids), CheckAnswer(p, f.checks[k], others);
            (a.err.None? <==> b.err.None?) && (a.err.None? ==> a == b)
  {
    hide OneAnalyzePerType, Reachable, Uncut, Sequential, Decide, Production;
    CheckTransactionIsDeterministic(env, p, ids, e, k);
    CheckTransactionIsDeterministic(env, p, others, f, k);
    SingletonsAgree(Production(p, ids), Production(p, others));
  }
}
