/**
 The registry of async channels: AddModelChannel (async branch), RemoveAsyncModelChannel and the
 lookup of handleModelResult, as a transition system in which any number of goroutines interleave.

 One step is one atomic operation: an operation on the sync.Map, the acquisition or the release of an
 object's mutex, or one statement of a critical section. In particular "removed = true" and
 CompareAndDelete are two steps, and other goroutines run LoadOrStore and Load between them.
 */
module AsyncRegistry {
  import opened Common

  type TxId = string
  type Chan = nat
  type Tid = nat
  type ObjId = nat

  /** An asyncTx. A nil slot of its channels array is a key missing from the map; tx is the id it was stored under. */
  datatype Object = Object(tx: TxId, channels: map<int, Chan>, count: int, removed: bool, lock: Option<Tid>)

  datatype Op =
    | Add(tx: TxId, t: int, ch: Chan)
    | Remove(tx: TxId, t: int)
    | Lookup(tx: TxId, t: int)

  /** Where a goroutine is inside its current operation. */
  datatype Pc =
    | Begin                                       // before LoadOrStore or Load
    | Loaded(o: ObjId)                            // holds a pointer, waits for its lock
    | Entered(o: ObjId)                           // has just taken the lock
    | AddCounted(o: ObjId)                        // count is up to date, the slot is not written yet
    | RemCleared(o: ObjId)                        // the slot is nil, count is not decreased yet
    | RemChecking(o: ObjId)                       // about to test count == 0 && !removed
    | RemTombed(o: ObjId)                         // removed is set, CompareAndDelete has not run
    | Leaving(o: ObjId, retry: bool, res: Option<Chan>) // about to unlock
    | Returned(res: Option<Chan>)

  /** A goroutine: the operations it still has to run, the first one being in progress at pc. */
  datatype Thread = Thread(todo: seq<Op>, pc: Pc)

  datatype State = State(heap: seq<Object>, table: map<TxId, ObjId>, threads: map<Tid, Thread>)

  predicate HasObject(pc: Pc) {
    !pc.Begin? && !pc.Returned?
  }

  /** The goroutine holds the lock of its object. */
  predicate Inside(pc: Pc) {
    HasObject(pc) && !pc.Loaded?
  }

  /** The operation and the pc agree. */
  predicate ThreadShape(th: Thread) {
    && (!th.pc.Begin? ==> th.todo != [])
    && (th.pc.AddCounted? ==> th.todo[0].Add?)
    && (th.pc.RemCleared? || th.pc.RemChecking? || th.pc.RemTombed? ==> th.todo[0].Remove?)
    && (th.pc.Leaving? && th.pc.retry ==> th.todo[0].Add?)
    && (HasObject(th.pc) && th.todo[0].Add? ==> ValidType(th.todo[0].t))
  }

  /** A goroutine's pointer is allocated, and it points to an object of the transaction it works for. */
  ghost predicate PointerOk(s: State, th: Thread) {
    HasObject(th.pc) && th.todo != [] ==> th.pc.o < |s.heap| && s.heap[th.pc.o].tx == th.todo[0].tx
  }

  /** The steps of s are defined. */
  ghost predicate WellFormed(s: State) {
    && (forall tx | tx in s.table :: s.table[tx] < |s.heap| && s.heap[s.table[tx]].tx == tx)
    && (forall id | id in s.threads :: ThreadShape(s.threads[id]) && PointerOk(s, s.threads[id]))
  }

  /** Everything but acquiring a lock that is taken can be done at once. */
  ghost predicate CanStep(s: State, id: Tid)
    requires WellFormed(s)
  {
    && id in s.threads
    && s.threads[id].todo != []
    && (s.threads[id].pc.Loaded? ==> s.heap[s.threads[id].pc.o].lock.None?)
  }

  /** The effect on its object, and the next pc, of a step of goroutine id that has a pointer. */
  function Act(id: Tid, op: Op, pc: Pc, obj: Object): (r: (Object, Pc))
    requires HasObject(pc)
  {
    match pc
    case Loaded(o) => (obj.(lock := Some(id)), Entered(o))
    case Entered(o) => Enter(op, o, obj)
    case AddCounted(o) =>
      (if op.Add? then obj.(channels := obj.channels[op.t := op.ch]) else obj, Leaving(o, false, None))
    case RemCleared(o) => (obj.(count := obj.count - 1), RemChecking(o))
    case RemChecking(o) =>
      if obj.count == 0 && !obj.removed then (obj.(removed := true), RemTombed(o))
      else (obj, Leaving(o, false, None))
    case RemTombed(o) => (obj, Leaving(o, false, None))
    case Leaving(o, retry, res) => (obj.(lock := None), if retry then Begin else Returned(res))
  }

  /** The first statement of each critical section. */
  function Enter(op: Op, o: ObjId, obj: Object): (Object, Pc) {
    match op
    case Add(_, t, _) =>
      if obj.removed then (obj, Leaving(o, true, None))
      else if t !in obj.channels then (obj.(count := obj.count + 1), AddCounted(o))
      else (obj, AddCounted(o))
    case Remove(_, t) =>
      if ValidType(t) && t in obj.channels then (obj.(channels := obj.channels - {t}), RemCleared(o))
      else (obj, RemChecking(o))
    case Lookup(_, t) =>
      (obj, Leaving(o, false, if t in obj.channels then Some(obj.channels[t]) else None))
  }

  function CompareAndDelete(table: map<TxId, ObjId>, tx: TxId, o: ObjId): map<TxId, ObjId> {
    if tx in table && table[tx] == o then table - {tx} else table
  }

  function Goto(s: State, id: Tid, pc: Pc): State
    requires id in s.threads
  {
    s.(threads := s.threads[id := s.threads[id].(pc := pc)])
  }

  /** The state after LoadOrStore has stored a new object for tx, awaited by goroutine id. */
  function Created(s: State, id: Tid, tx: TxId): State
    requires id in s.threads
  {
    Goto(s.(heap := s.heap + [Object(tx, map[], 0, false, None)], table := s.table[tx := |s.heap|]), id,
        Loaded(|s.heap|))
  }

  /** The single operation on the sync.Map that starts an operation: LoadOrStore for an add, Load otherwise. */
  function BeginStep(s: State, id: Tid): State
    requires id in s.threads && s.threads[id].todo != []
  {
    var op := s.threads[id].todo[0];
    if op.Add? && !ValidType(op.t) then
      Goto(s, id, Returned(None))
    else if op.tx in s.table then
      Goto(s, id, Loaded(s.table[op.tx]))
    else if op.Add? then
      Created(s, id, op.tx)
    else
      Goto(s, id, Returned(None))
  }

  /** A step of goroutine id that has a pointer. */
  function ObjectStep(s: State, id: Tid): State
    requires WellFormed(s) && CanStep(s, id) && HasObject(s.threads[id].pc)
  {
    var th := s.threads[id];
    var o := th.pc.o;
    var (obj, pc) := Act(id, th.todo[0], th.pc, s.heap[o]);
    State(s.heap[o := obj],
          if th.pc.RemTombed? then CompareAndDelete(s.table, th.todo[0].tx, o) else s.table,
          s.threads[id := Thread(th.todo, pc)])
  }

  /** What goroutine id does next. */
  function Next(s: State, id: Tid): State
    requires WellFormed(s) && CanStep(s, id)
  {
    var th := s.threads[id];
    if th.pc.Begin? then BeginStep(s, id)
    else if th.pc.Returned? then s.(threads := s.threads[id := Thread(th.todo[1..], Begin)])
    else ObjectStep(s, id)
  }

  /** Nothing has been stored yet and no goroutine has taken a step. */
  ghost predicate Init(s: State) {
    && s.heap == []
    && s.table == map[]
    && (forall id | id in s.threads :: s.threads[id].pc == Begin)
  }

  // --------------------------------------------------------------------------------------------
  // The invariant, for any programs the goroutines run
  // --------------------------------------------------------------------------------------------

  /** A lock is held exactly by the goroutine inside that object's critical section. */
  ghost predicate LockInv(s: State)
    requires WellFormed(s)
  {
    && (forall id | id in s.threads && Inside(s.threads[id].pc) :: s.heap[s.threads[id].pc.o].lock == Some(id))
    && (forall o | 0 <= o < |s.heap| && s.heap[o].lock.Some? ::
          var h := s.heap[o].lock.value;
          h in s.threads && Inside(s.threads[h].pc) && s.threads[h].pc.o == o)
  }

  /** How far count is ahead of the number of channels, because of the goroutine inside the object. */
  function Ahead(obj: Object, holder: Option<Thread>): int {
    if holder.None? then 0
    else if holder.value.pc.RemCleared? then 1
    else if holder.value.pc.AddCounted? && holder.value.todo != [] && holder.value.todo[0].t !in obj.channels then 1
    else 0
  }

  /**
   What holds of an object, given the goroutine inside it and whether the table maps its id to it:
   a live object is the current one, and a tombstone that is still current is about to be deleted by
   the goroutine that holds its lock.
   */
  ghost predicate ObjectOk(obj: Object, holder: Option<Thread>, current: bool) {
    && obj.count == |obj.channels| + Ahead(obj, holder)
    && (!obj.removed ==> current)
    && (obj.removed ==> obj.channels == map[])
    && (obj.removed && current ==> holder.Some? && holder.value.pc.RemTombed?)
    && (holder.Some? && holder.value.pc.RemTombed? ==> obj.removed && current)
    && (holder.Some? && (holder.value.pc.AddCounted? || holder.value.pc.RemCleared?) ==> !obj.removed)
    && (holder.Some? && holder.value.pc.Leaving? && holder.value.pc.retry ==> obj.removed)
  }

  function Holder(s: State, o: ObjId): Option<Thread>
    requires o < |s.heap|
  {
    if s.heap[o].lock.Some? && s.heap[o].lock.value in s.threads then Some(s.threads[s.heap[o].lock.value]) else None
  }

  predicate Current(s: State, o: ObjId)
    requires o < |s.heap|
  {
    s.heap[o].tx in s.table && s.table[s.heap[o].tx] == o
  }

  /** The goroutine is going to give the live object o a channel, or to take it out of the table. */
  predicate Busy(th: Thread, o: ObjId) {
    && th.todo != []
    && (|| (th.todo[0].Add? && (th.pc == Loaded(o) || th.pc == Entered(o) || th.pc == AddCounted(o)))
        || th.pc == RemCleared(o)
        || th.pc == RemChecking(o))
  }

  /** A live object without channels is only met while some goroutine is busy with it. */
  ghost predicate NoIdleEmpty(s: State, o: ObjId)
    requires o < |s.heap|
  {
    !s.heap[o].removed && s.heap[o].channels == map[] ==> exists id | id in s.threads :: Busy(s.threads[id], o)
  }

  ghost predicate Inv(s: State) {
    && WellFormed(s)
    && LockInv(s)
    && (forall o | 0 <= o < |s.heap| :: ObjectOk(s.heap[o], Holder(s, o), Current(s, o)))
    && (forall o | 0 <= o < |s.heap| :: NoIdleEmpty(s, o))
  }

  lemma InitInv(s: State)
    requires Init(s)
    ensures Inv(s)
  {
  }

  /** The local half of every step with a pointer: the object, its lock and the goroutine inside it stay consistent. */
  lemma ActKeepsObject(id: Tid, th: Thread, obj: Object, current: bool)
    requires ThreadShape(th) && HasObject(th.pc) && th.todo[0].tx == obj.tx
    requires obj.lock == (if Inside(th.pc) then Some(id) else None)
    requires ObjectOk(obj, if Inside(th.pc) then Some(th) else None, current)
    ensures var (obj', pc') := Act(id, th.todo[0], th.pc, obj);
            var th' := Thread(th.todo, pc');
            && ThreadShape(th')
            && obj'.tx == obj.tx
            && (HasObject(pc') ==> pc'.o == th.pc.o)
            && obj'.lock == (if Inside(pc') then Some(id) else None)
            && ObjectOk(obj', if Inside(pc') then Some(th') else None, current && !th.pc.RemTombed?)
  {
  }

  /** A goroutine outside every critical section moves to another place outside them. */
  lemma OutsideMoveKeepsInv(s: State, id: Tid, th: Thread)
    requires Inv(s) && id in s.threads
    requires !HasObject(s.threads[id].pc) && !Inside(th.pc)
    requires ThreadShape(th) && PointerOk(s, th)
    ensures Inv(s.(threads := s.threads[id := th]))
  {
    var s' := s.(threads := s.threads[id := th]);
    assert WellFormed(s');
    assert LockInv(s');
    forall o | 0 <= o < |s.heap|
      ensures ObjectOk(s'.heap[o], Holder(s', o), Current(s', o)) && NoIdleEmpty(s', o)
    {
      assert ObjectOk(s.heap[o], Holder(s, o), Current(s, o));
      assert Holder(s', o) == Holder(s, o);
      BusyPersists(s, s', id, o);
    }
  }

  lemma CreateWellFormed(s: State, id: Tid, op: Op)
    requires Inv(s) && id in s.threads && s.threads[id].pc.Begin?
    requires s.threads[id].todo != [] && s.threads[id].todo[0] == op && op.Add? && ValidType(op.t) && op.tx !in s.table
    ensures WellFormed(Created(s, id, op.tx)) && LockInv(Created(s, id, op.tx))
  {
    hide ObjectOk, NoIdleEmpty;
    var s' := Created(s, id, op.tx);
    assert forall o | 0 <= o < |s.heap| :: s'.heap[o] == s.heap[o];
    assert forall x | x in s.threads && x != id :: s'.threads[x] == s.threads[x];
  }

  lemma CreateKeepsInv(s: State, id: Tid, op: Op)
    requires Inv(s) && id in s.threads && s.threads[id].pc.Begin?
    requires s.threads[id].todo != [] && s.threads[id].todo[0] == op && op.Add? && ValidType(op.t) && op.tx !in s.table
    ensures Inv(Created(s, id, op.tx))
  {
    CreateWellFormed(s, id, op);
    var s' := Created(s, id, op.tx);
    forall o | 0 <= o < |s'.heap|
      ensures ObjectOk(s'.heap[o], Holder(s', o), Current(s', o)) && NoIdleEmpty(s', o)
    {
      if o < |s.heap| {
        assert ObjectOk(s.heap[o], Holder(s, o), Current(s, o));
        assert Holder(s', o) == Holder(s, o) && Current(s', o) == Current(s, o);
        BusyPersists(s, s', id, o);
      } else {
        assert Busy(s'.threads[id], o);
      }
    }
  }

  lemma BeginKeepsInv(s: State, id: Tid)
    requires Inv(s) && CanStep(s, id) && s.threads[id].pc.Begin?
    ensures Inv(Next(s, id))
  {
    var op := s.threads[id].todo[0];
    if op.Add? && ValidType(op.t) && op.tx !in s.table {
      CreateKeepsInv(s, id, op);
    } else {
      OutsideMoveKeepsInv(s, id, Next(s, id).threads[id]);
    }
  }

  /** A goroutine other than id that is busy stays busy; id itself is not busy before its first step. */
  lemma BusyPersists(s: State, s': State, id: Tid, o: ObjId)
    requires o < |s.heap| && o < |s'.heap| && s'.heap[o] == s.heap[o]
    requires NoIdleEmpty(s, o)
    requires id in s.threads && (Busy(s.threads[id], o) ==> id in s'.threads && Busy(s'.threads[id], o))
    requires forall x | x in s.threads && x != id :: x in s'.threads && s'.threads[x] == s.threads[x]
    ensures NoIdleEmpty(s', o)
  {
  }

  /** A step changes no object but its goroutine's, and takes no entry out of the table but a tombstone's. */
  lemma NextFrame(s: State, id: Tid, o: ObjId)
    requires WellFormed(s) && CanStep(s, id) && o < |s.heap|
    ensures var th := s.threads[id];
            && o < |Next(s, id).heap|
            && (!(HasObject(th.pc) && th.pc.o == o) ==> Next(s, id).heap[o] == s.heap[o])
            && (HasObject(th.pc) && th.pc.o == o ==> Next(s, id).heap[o] == Act(id, th.todo[0], th.pc, s.heap[o]).0)
            && (Current(s, o) && th.pc != RemTombed(o) ==>
                  s.heap[o].tx in Next(s, id).table && Next(s, id).table[s.heap[o].tx] == o)
            && (!Current(s, o) ==> !(s.heap[o].tx in Next(s, id).table && Next(s, id).table[s.heap[o].tx] == o))
  {
  }

  /** ActKeepsObject, for the step of a goroutine of s. */
  lemma ActAt(s: State, id: Tid)
    requires Inv(s) && CanStep(s, id) && HasObject(s.threads[id].pc)
    ensures var th := s.threads[id];
            var obj := s.heap[th.pc.o];
            var (obj', pc') := Act(id, th.todo[0], th.pc, obj);
            var th' := Thread(th.todo, pc');
            && ThreadShape(th')
            && obj'.tx == obj.tx
            && (HasObject(pc') ==> pc'.o == th.pc.o)
            && obj'.lock == (if Inside(pc') then Some(id) else None)
            && ObjectOk(obj', if Inside(pc') then Some(th') else None, Current(s, th.pc.o) && !th.pc.RemTombed?)
  {
    hide Act, ObjectOk, NoIdleEmpty;
    ObjectForStep(s, id);
    ActKeepsObject(id, s.threads[id], s.heap[s.threads[id].pc.o], Current(s, s.threads[id].pc.o));
  }

  /** What a step with a pointer leaves of the heap, the table and the goroutines. */
  lemma ObjectStepFrame(s: State, id: Tid)
    requires WellFormed(s) && CanStep(s, id) && HasObject(s.threads[id].pc)
    requires Act(id, s.threads[id].todo[0], s.threads[id].pc, s.heap[s.threads[id].pc.o]).0.tx
        == s.heap[s.threads[id].pc.o].tx
    ensures var s', th := Next(s, id), s.threads[id];
            && |s'.heap| == |s.heap| && (forall p | 0 <= p < |s.heap| :: s'.heap[p].tx == s.heap[p].tx)
            && (forall tx | tx in s'.table :: tx in s.table && s'.table[tx] == s.table[tx])
            && s'.threads == s.threads[id := Thread(th.todo, Act(id, th.todo[0], th.pc, s.heap[th.pc.o]).1)]
  {
    hide Act, ThreadShape;
  }

  lemma ObjectStepTable(s: State, id: Tid)
    requires WellFormed(s) && CanStep(s, id) && HasObject(s.threads[id].pc)
    requires Act(id, s.threads[id].todo[0], s.threads[id].pc, s.heap[s.threads[id].pc.o]).0.tx
        == s.heap[s.threads[id].pc.o].tx
    ensures var s' := Next(s, id); forall tx | tx in s'.table ::
        s'.table[tx] < |s'.heap| && s'.heap[s'.table[tx]].tx == tx
  {
    hide Act, ThreadShape, PointerOk;
    ObjectStepFrame(s, id);
  }

  lemma ObjectStepPointers(s: State, id: Tid)
    requires WellFormed(s) && CanStep(s, id) && HasObject(s.threads[id].pc)
    requires var th := s.threads[id];
             var (obj', pc') := Act(id, th.todo[0], th.pc, s.heap[th.pc.o]);
             && ThreadShape(Thread(th.todo, pc')) && obj'.tx == s.heap[th.pc.o].tx
                 && (HasObject(pc') ==> pc'.o == th.pc.o)
    ensures var s' := Next(s, id); forall x | x in s'.threads ::
        ThreadShape(s'.threads[x]) && PointerOk(s', s'.threads[x])
  {
    hide Act, ThreadShape, Next;
    ObjectStepFrame(s, id);
    var s' := Next(s, id);
    forall x | x in s'.threads
      ensures ThreadShape(s'.threads[x]) && PointerOk(s', s'.threads[x])
    {
      assert x in s.threads && ThreadShape(s.threads[x]) && PointerOk(s, s.threads[x]);
    }
  }

  lemma ObjectStepWellFormed(s: State, id: Tid)
    requires Inv(s) && CanStep(s, id) && HasObject(s.threads[id].pc)
    ensures WellFormed(Next(s, id))
  {
    hide Act, ObjectOk, LockInv, NoIdleEmpty;
    ActAt(s, id);
    ObjectStepTable(s, id);
    ObjectStepPointers(s, id);
  }

  lemma ObjectStepLocks(s: State, id: Tid)
    requires Inv(s) && CanStep(s, id) && HasObject(s.threads[id].pc) && WellFormed(Next(s, id))
    ensures LockInv(Next(s, id))
  {
    hide Act, ObjectOk, NoIdleEmpty, Next;
    ActAt(s, id);
    ObjectStepFrame(s, id);
    var o := s.threads[id].pc.o;
    NextFrame(s, id, o);
    forall p | 0 <= p < |s.heap| && p != o
      ensures Next(s, id).heap[p] == s.heap[p]
    {
      NextFrame(s, id, p);
    }
    assert forall x | x in s.threads && x != id && Inside(s.threads[x].pc) ::
        s.threads[x].pc.o != o || s.threads[id].pc.Loaded?;
  }

  lemma ObjectStepObjects(s: State, id: Tid, p: ObjId)
    requires Inv(s) && CanStep(s, id) && HasObject(s.threads[id].pc)
    requires p < |s.heap|
    ensures ObjectOk(Next(s, id).heap[p], Holder(Next(s, id), p), Current(Next(s, id), p))
  {
    var s' := Next(s, id);
    var o := s.threads[id].pc.o;
    assert ObjectOk(s.heap[p], Holder(s, p), Current(s, p));
    if p == o {
      ActKeepsObject(id, s.threads[id], s.heap[o], Current(s, o));
    } else {
      NextFrame(s, id, p);
      assert Holder(s', p) == Holder(s, p);
    }
  }

  lemma ObjectStepIdle(s: State, id: Tid, p: ObjId)
    requires Inv(s) && CanStep(s, id) && HasObject(s.threads[id].pc)
    requires p < |s.heap|
    ensures NoIdleEmpty(Next(s, id), p)
  {
    var s' := Next(s, id);
    var th := s.threads[id];
    var o := th.pc.o;
    if p != o {
      BusyPersists(s, s', id, p);
    } else if !s'.heap[o].removed && s'.heap[o].channels == map[] {
      if !Busy(s'.threads[id], o) {
        assert s.heap[o].channels == map[];
        var w :| w in s.threads && Busy(s.threads[w], o);
        assert ObjectOk(s.heap[o], Holder(s, o), Current(s, o));
        assert w != id;
        assert Busy(s'.threads[w], o);
      }
    }
  }

  /** A step moves only its goroutine, which drops an operation when that has returned. */
  lemma NextThreads(s: State, id: Tid)
    requires WellFormed(s) && CanStep(s, id)
    ensures Next(s, id).threads.Keys == s.threads.Keys
    ensures forall x | x in s.threads && x != id :: Next(s, id).threads[x] == s.threads[x]
    ensures var th := s.threads[id];
            Next(s, id).threads[id].todo == if th.pc.Returned? then th.todo[1..] else th.todo
  {
  }

  /** Every step of every goroutine keeps the invariant. */
  lemma NextInv(s: State, id: Tid)
    requires Inv(s) && CanStep(s, id)
    ensures Inv(Next(s, id))
  {
    var s' := Next(s, id);
    if s.threads[id].pc.Begin? {
      BeginKeepsInv(s, id);
    } else if s.threads[id].pc.Returned? {
      OutsideMoveKeepsInv(s, id, Next(s, id).threads[id]);
    } else {
      ObjectStepWellFormed(s, id);
      ObjectStepLocks(s, id);
      forall p | 0 <= p < |s'.heap|
        ensures ObjectOk(s'.heap[p], Holder(s', p), Current(s', p)) && NoIdleEmpty(s', p)
      {
        ObjectStepObjects(s, id, p);
        ObjectStepIdle(s, id, p);
      }
    }
  }

  // --------------------------------------------------------------------------------------------
  // Runs
  // --------------------------------------------------------------------------------------------

  /** The goroutines of schedule can take their steps one after the other from s. */
  ghost predicate Schedulable(s: State, schedule: seq<Tid>)
    requires WellFormed(s)
    decreases |schedule|
  {
    schedule != [] ==>
      && CanStep(s, schedule[0])
      && WellFormed(Next(s, schedule[0]))
      && Schedulable(Next(s, schedule[0]), schedule[1..])
  }

  ghost function Run(s: State, schedule: seq<Tid>): (e: State)
    requires WellFormed(s) && Schedulable(s, schedule)
    ensures WellFormed(e)
    decreases |schedule|
  {
    if schedule == [] then s else Run(Next(s, schedule[0]), schedule[1..])
  }

  /** The invariant holds in every state every interleaving reaches. */
  lemma {:induction false} RunInv(s: State, schedule: seq<Tid>)
    requires Inv(s) && Schedulable(s, schedule)
    ensures Inv(Run(s, schedule))
    decreases |schedule|
  {
    if schedule != [] {
      NextInv(s, schedule[0]);
      RunInv(Next(s, schedule[0]), schedule[1..]);
    }
  }

  // --------------------------------------------------------------------------------------------
  // Safety, whatever the goroutines do
  // --------------------------------------------------------------------------------------------

  /** In every reachable state an id has at most one live object, and it is the one the table finds. */
  lemma LiveObjectIsCurrent(s: State, schedule: seq<Tid>, o: ObjId)
    requires Init(s) && Schedulable(s, schedule)
    requires o < |Run(s, schedule).heap| && !Run(s, schedule).heap[o].removed
    ensures var e := Run(s, schedule);
            && e.heap[o].tx in e.table && e.table[e.heap[o].tx] == o
            && forall p | 0 <= p < |e.heap| && !e.heap[p].removed && e.heap[p].tx == e.heap[o].tx :: p == o
  {
    InitInv(s);
    RunInv(s, schedule);
  }

  /** CompareAndDelete never fails: it always takes its own tombstone out of the table. */
  lemma CompareAndDeleteSucceeds(s: State, schedule: seq<Tid>, id: Tid)
    requires Init(s) && Schedulable(s, schedule)
    requires id in Run(s, schedule).threads && Run(s, schedule).threads[id].pc.RemTombed?
    ensures var e := Run(s, schedule);
            && e.threads[id].todo != []
            && var tx := e.threads[id].todo[0].tx;
            && tx in e.table && e.table[tx] == e.threads[id].pc.o
            && CanStep(e, id) && Next(e, id).table == e.table - {tx}
  {
    InitInv(s);
    RunInv(s, schedule);
    var e := Run(s, schedule);
    var o := e.threads[id].pc.o;
    assert ObjectOk(e.heap[o], Holder(e, o), Current(e, o));
  }

  /**
   Whenever an object's lock is free, its count is the number of its channels, and it is a tombstone iff unreachable.
   */
  lemma FreeObjectIsExact(s: State, schedule: seq<Tid>, o: ObjId)
    requires Init(s) && Schedulable(s, schedule)
    requires o < |Run(s, schedule).heap| && Run(s, schedule).heap[o].lock.None?
    ensures var e := Run(s, schedule);
            && e.heap[o].count == |e.heap[o].channels|
            && (e.heap[o].removed <==> !Current(e, o))
  {
    InitInv(s);
    RunInv(s, schedule);
    var e := Run(s, schedule);
    assert ObjectOk(e.heap[o], Holder(e, o), Current(e, o));
  }

  /**
   A live object nobody has locked is empty only while an add sits between its LoadOrStore and its critical section.
   */
  lemma EmptyObjectIsAwaited(s: State, schedule: seq<Tid>, o: ObjId)
    requires Init(s) && Schedulable(s, schedule)
    requires o < |Run(s, schedule).heap| && Run(s, schedule).heap[o].lock.None?
    requires !Run(s, schedule).heap[o].removed && Run(s, schedule).heap[o].count == 0
    ensures var e := Run(s, schedule);
            exists id | id in e.threads :: e.threads[id].todo != [] && e.threads[id].todo[0].Add?
                && e.threads[id].pc == Loaded(o)
  {
    InitInv(s);
    RunInv(s, schedule);
    FreeObjectIsExact(s, schedule, o);
    var id := IdleEmptyAdder(Run(s, schedule), o);
  }

  lemma IdleEmptyAdder(s: State, o: ObjId) returns (id: Tid)
    requires Inv(s) && o < |s.heap| && s.heap[o].lock.None? && !s.heap[o].removed && s.heap[o].channels == map[]
    ensures id in s.threads && s.threads[id].todo != [] && s.threads[id].todo[0].Add? && s.threads[id].pc == Loaded(o)
  {
    hide ObjectOk, Holder;
    assert NoIdleEmpty(s, o);
    id :| id in s.threads && Busy(s.threads[id], o);
    assert !Inside(s.threads[id].pc);
  }

  /** The goroutine is between two operations, or has not started one. */
  predicate Resting(th: Thread) {
    !HasObject(th.pc)
  }

  /** With no operation in progress, every entry of the table is a live object with at least one channel. */
  lemma QuiescentTableHasChannels(s: State, schedule: seq<Tid>, tx: TxId)
    requires Init(s) && Schedulable(s, schedule)
    requires forall id | id in Run(s, schedule).threads :: Resting(Run(s, schedule).threads[id])
    requires tx in Run(s, schedule).table
    ensures var e := Run(s, schedule);
            e.table[tx] < |e.heap| && !e.heap[e.table[tx]].removed && e.heap[e.table[tx]].count > 0
  {
    InitInv(s);
    RunInv(s, schedule);
    var e := Run(s, schedule);
    var o := e.table[tx];
    assert ObjectOk(e.heap[o], Holder(e, o), Current(e, o));
    assert NoIdleEmpty(e, o);
    assert e.heap[o].lock.None?;
    assert forall id | id in e.threads :: !Busy(e.threads[id], o);
  }

  /** The goroutines never deadlock: while one has work left, some goroutine's step extends the run. */
  lemma NeverStuck(s: State, schedule: seq<Tid>, id: Tid)
    requires Init(s) && Schedulable(s, schedule)
    requires id in Run(s, schedule).threads && Run(s, schedule).threads[id].todo != []
    ensures exists x :: Schedulable(s, schedule + [x])
  {
    InitInv(s);
    RunInv(s, schedule);
    var e := Run(s, schedule);
    var x := if CanStep(e, id) then id else e.heap[e.threads[id].pc.o].lock.value;
    assert CanStep(e, x);
    ExtendRun(s, schedule, x);
  }

  /** Whatever can step at the end of a run can be scheduled next. */
  lemma {:induction false} ExtendRun(s: State, schedule: seq<Tid>, x: Tid)
    requires Inv(s) && Schedulable(s, schedule) && CanStep(Run(s, schedule), x)
    ensures Schedulable(s, schedule + [x])
    decreases |schedule|
  {
    var longer := schedule + [x];
    NextInv(s, longer[0]);
    if schedule != [] {
      ExtendRun(Next(s, schedule[0]), schedule[1..], x);
      assert longer[1..] == schedule[1..] + [x];
    } else {
      assert longer[1..] == [];
    }
  }

  // --------------------------------------------------------------------------------------------
  // Reachability of a channel while its owner holds it
  // --------------------------------------------------------------------------------------------

  /** A lookup of (tx, t) that runs now finds ch. */
  ghost predicate Registered(s: State, tx: TxId, t: int, ch: Chan)
    requires WellFormed(s)
  {
    && tx in s.table
    && !s.heap[s.table[tx]].removed
    && t in s.heap[s.table[tx]].channels
    && s.heap[s.table[tx]].channels[t] == ch
  }

  /** The goroutine's next step writes the slot of (tx, t). */
  predicate Writes(th: Thread, tx: TxId, t: int) {
    && th.todo != []
    && th.todo[0].tx == tx && th.todo[0].t == t
    && (th.pc.AddCounted? || (th.todo[0].Remove? && th.pc.Entered?))
  }

  /** The local half of NextKeepsRegistered. */
  lemma ActKeepsSlot(id: Tid, th: Thread, obj: Object, t: int, current: bool)
    requires ThreadShape(th) && HasObject(th.pc) && th.todo[0].tx == obj.tx
    requires ObjectOk(obj, if Inside(th.pc) then Some(th) else None, current)
    requires !obj.removed && t in obj.channels && !Writes(th, obj.tx, t)
    ensures var obj' := Act(id, th.todo[0], th.pc, obj).0;
            !obj'.removed && t in obj'.channels && obj'.channels[t] == obj.channels[t]
    ensures !th.pc.RemTombed?
  {
  }

  /** Steps that do not write the slot, adds and removes of other types among them, leave it where lookups find it. */
  lemma NextKeepsRegistered(s: State, id: Tid, tx: TxId, t: int, ch: Chan)
    requires Inv(s) && CanStep(s, id)
    requires Registered(s, tx, t, ch) && !Writes(s.threads[id], tx, t)
    ensures Inv(Next(s, id)) && Registered(Next(s, id), tx, t, ch)
    ensures Next(s, id).table[tx] == s.table[tx]
  {
    NextInv(s, id);
    var o := s.table[tx];
    var th := s.threads[id];
    NextFrame(s, id, o);
    if HasObject(th.pc) && th.pc.o == o {
      ObjectForStep(s, id);
      ActKeepsSlot(id, th, s.heap[o], t, true);
    }
  }

  /** The object of the goroutine that steps, with that goroutine as the one inside it. */
  lemma ObjectForStep(s: State, id: Tid)
    requires Inv(s) && CanStep(s, id) && HasObject(s.threads[id].pc)
    ensures var th := s.threads[id];
            ObjectOk(s.heap[th.pc.o], if Inside(th.pc) then Some(th) else None, Current(s, th.pc.o))
  {
  }

  /** No step of the schedule writes the slot of (tx, t). */
  ghost predicate Undisturbed(s: State, schedule: seq<Tid>, tx: TxId, t: int)
    requires WellFormed(s) && Schedulable(s, schedule)
    decreases |schedule|
  {
    schedule != [] ==>
      && !Writes(s.threads[schedule[0]], tx, t)
      && Undisturbed(Next(s, schedule[0]), schedule[1..], tx, t)
  }

  /** How far a lookup of a registered slot can be: every answer it may give is the channel. */
  ghost predicate Reading(s: State, th: Thread, todo: seq<Op>, tx: TxId, ch: Chan)
    requires WellFormed(s) && tx in s.table
  {
    || |th.todo| < |todo|
    || (&& th.todo == todo
        && match th.pc
           case Begin => true
           case Loaded(o) => o == s.table[tx]
           case Entered(o) => o == s.table[tx]
           case Leaving(_, retry, res) => !retry && res == Some(ch)
           case Returned(res) => res == Some(ch)
           case _ => false)
  }

  lemma NextKeepsReading(s: State, id: Tid, reader: Tid, todo: seq<Op>, tx: TxId, t: int, ch: Chan)
    requires Inv(s) && CanStep(s, id)
    requires Registered(s, tx, t, ch) && !Writes(s.threads[id], tx, t)
    requires reader in s.threads && todo != [] && todo[0] == Lookup(tx, t)
    requires Reading(s, s.threads[reader], todo, tx, ch)
    ensures Inv(Next(s, id)) && Registered(Next(s, id), tx, t, ch)
    ensures reader in Next(s, id).threads && Reading(Next(s, id), Next(s, id).threads[reader], todo, tx, ch)
  {
    NextKeepsRegistered(s, id, tx, t, ch);
    NextThreads(s, id);
    if id == reader {
      ReaderStep(s, reader, todo, tx, t, ch);
    }
  }

  lemma ReaderStep(s: State, reader: Tid, todo: seq<Op>, tx: TxId, t: int, ch: Chan)
    requires WellFormed(s) && CanStep(s, reader) && WellFormed(Next(s, reader))
    requires Registered(s, tx, t, ch) && todo != [] && todo[0] == Lookup(tx, t)
    requires Reading(s, s.threads[reader], todo, tx, ch)
    requires tx in Next(s, reader).table && Next(s, reader).table[tx] == s.table[tx]
    ensures Reading(Next(s, reader), Next(s, reader).threads[reader], todo, tx, ch)
  {
  }

  /**
   A lookup that starts once (tx, t) is registered, and during which nobody writes that slot, answers
   exactly the registered channel, in every interleaving with adds and removes of other types.
   */
  lemma {:induction false} LookupFindsChannel(s: State, schedule: seq<Tid>, reader: Tid, todo: seq<Op>, tx: TxId,
      t: int, ch: Chan)
    requires Inv(s) && Schedulable(s, schedule) && Undisturbed(s, schedule, tx, t)
    requires Registered(s, tx, t, ch)
    requires reader in s.threads && todo != [] && todo[0] == Lookup(tx, t)
    requires Reading(s, s.threads[reader], todo, tx, ch)
    ensures var e := Run(s, schedule);
            && Inv(e) && Registered(e, tx, t, ch)
            && reader in e.threads && Reading(e, e.threads[reader], todo, tx, ch)
    decreases |schedule|
  {
    if schedule != [] {
      NextKeepsReading(s, schedule[0], reader, todo, tx, t, ch);
      LookupFindsChannel(Next(s, schedule[0]), schedule[1..], reader, todo, tx, t, ch);
    }
  }

  /** The answer of a lookup that ran while its slot was registered. */
  lemma LookupAnswersChannel(s: State, schedule: seq<Tid>, reader: Tid, tx: TxId, t: int, ch: Chan)
    requires Inv(s) && Schedulable(s, schedule) && Undisturbed(s, schedule, tx, t)
    requires Registered(s, tx, t, ch)
    requires reader in s.threads && s.threads[reader].todo != [] && s.threads[reader].todo[0] == Lookup(tx, t)
    requires s.threads[reader].pc.Begin?
    requires reader in Run(s, schedule).threads && Run(s, schedule).threads[reader].todo == s.threads[reader].todo
    requires Run(s, schedule).threads[reader].pc.Returned?
    ensures Run(s, schedule).threads[reader].pc.res == Some(ch)
  {
    LookupFindsChannel(s, schedule, reader, s.threads[reader].todo, tx, t, ch);
  }

  // --------------------------------------------------------------------------------------------
  // Lookups are atomic
  // --------------------------------------------------------------------------------------------

  /** What the registry holds for (tx, t). */
  ghost function Answer(s: State, tx: TxId, t: int): Option<Chan>
    requires WellFormed(s)
  {
    if tx in s.table && t in s.heap[s.table[tx]].channels then Some(s.heap[s.table[tx]].channels[t]) else None
  }

  /** The registry holds res for (tx, t) in some state of the run. */
  ghost predicate AnsweredIn(s: State, schedule: seq<Tid>, tx: TxId, t: int, res: Option<Chan>)
    requires WellFormed(s) && Schedulable(s, schedule)
    decreases |schedule|
  {
    Answer(s, tx, t) == res || (schedule != [] && AnsweredIn(Next(s, schedule[0]), schedule[1..], tx, t, res))
  }

  /** The goroutine has finished todo[0], or it is bound to answer res to it. */
  predicate Fixed(th: Thread, todo: seq<Op>, res: Option<Chan>) {
    || |th.todo| < |todo|
    || (th.todo == todo && (th.pc == Returned(res) || (th.pc.Leaving? && !th.pc.retry && th.pc.res == res)))
  }

  /** The same for a nil answer, which is what a removed object gives. */
  ghost predicate Stale(s: State, th: Thread, todo: seq<Op>)
    requires WellFormed(s)
  {
    || Fixed(th, todo, None)
    || (th.todo == todo && (th.pc.Loaded? || th.pc.Entered?) && th.pc.o < |s.heap| && s.heap[th.pc.o].removed)
  }

  lemma NextFixed(s: State, id: Tid, reader: Tid, todo: seq<Op>, res: Option<Chan>)
    requires WellFormed(s) && CanStep(s, id) && reader in s.threads
    requires Fixed(s.threads[reader], todo, res)
    ensures reader in Next(s, id).threads && Fixed(Next(s, id).threads[reader], todo, res)
  {
    hide WellFormed;
    NextThreads(s, id);
  }

  lemma {:induction false} RunFixed(s: State, schedule: seq<Tid>, reader: Tid, todo: seq<Op>, res: Option<Chan>)
    requires WellFormed(s) && Schedulable(s, schedule) && reader in s.threads
    requires Fixed(s.threads[reader], todo, res)
    ensures reader in Run(s, schedule).threads && Fixed(Run(s, schedule).threads[reader], todo, res)
    decreases |schedule|
  {
    hide Fixed;
    if schedule != [] {
      NextFixed(s, schedule[0], reader, todo, res);
      RunFixed(Next(s, schedule[0]), schedule[1..], reader, todo, res);
    }
  }

  /** A tombstone stays one, and has no channels. */
  lemma RemovedStays(s: State, id: Tid, o: ObjId)
    requires Inv(s) && CanStep(s, id) && o < |s.heap| && s.heap[o].removed
    ensures s.heap[o].channels == map[] && o < |Next(s, id).heap| && Next(s, id).heap[o].removed
  {
    hide NoIdleEmpty, LockInv;
    assert ObjectOk(s.heap[o], Holder(s, o), Current(s, o));
    NextFrame(s, id, o);
  }

  lemma NextStale(s: State, id: Tid, reader: Tid, todo: seq<Op>, tx: TxId, t: int)
    requires Inv(s) && CanStep(s, id) && WellFormed(Next(s, id)) && reader in s.threads
    requires todo != [] && todo[0] == Lookup(tx, t) && Stale(s, s.threads[reader], todo)
    ensures reader in Next(s, id).threads && Stale(Next(s, id), Next(s, id).threads[reader], todo)
  {
    hide ObjectOk, NoIdleEmpty, LockInv;
    var th := s.threads[reader];
    if Fixed(th, todo, None) {
      NextFixed(s, id, reader, todo, None);
    } else {
      RemovedStays(s, id, th.pc.o);
      NextThreads(s, id);
    }
  }

  lemma {:induction false} RunStale(s: State, schedule: seq<Tid>, reader: Tid, todo: seq<Op>, tx: TxId, t: int)
    requires Inv(s) && Schedulable(s, schedule) && reader in s.threads
    requires todo != [] && todo[0] == Lookup(tx, t) && Stale(s, s.threads[reader], todo)
    ensures reader in Run(s, schedule).threads && Stale(Run(s, schedule), Run(s, schedule).threads[reader], todo)
    decreases |schedule|
  {
    hide Stale, ObjectOk, NoIdleEmpty, LockInv, ThreadShape, PointerOk;
    if schedule != [] {
      NextInv(s, schedule[0]);
      NextStale(s, schedule[0], reader, todo, tx, t);
      RunStale(Next(s, schedule[0]), schedule[1..], reader, todo, tx, t);
    }
  }

  /** A lookup that has not read its slot yet, and can still read the current object. */
  ghost predicate MayRead(s: State, th: Thread, todo: seq<Op>)
    requires WellFormed(s)
  {
    && th.todo == todo
    && (th.pc.Begin? || ((th.pc.Loaded? || th.pc.Entered?) && th.pc.o < |s.heap| && Current(s, th.pc.o)))
  }

  /** A step of the lookup itself: it may still read, or it has just read what the registry holds. */
  lemma ReadStep(s: State, reader: Tid, todo: seq<Op>, tx: TxId, t: int)
    requires WellFormed(s) && CanStep(s, reader) && WellFormed(Next(s, reader))
    requires todo != [] && todo[0] == Lookup(tx, t) && MayRead(s, s.threads[reader], todo)
    ensures var th' := Next(s, reader).threads[reader];
            MayRead(Next(s, reader), th', todo) || Fixed(th', todo, Answer(s, tx, t))
  {
  }

  /** A step of another goroutine: the lookup may still read, or its object has just left the registry. */
  lemma OtherReadStep(s: State, id: Tid, reader: Tid, todo: seq<Op>, tx: TxId, t: int)
    requires Inv(s) && CanStep(s, id) && WellFormed(Next(s, id)) && reader in s.threads && id != reader
    requires todo != [] && todo[0] == Lookup(tx, t) && MayRead(s, s.threads[reader], todo)
    ensures reader in Next(s, id).threads
    ensures var th' := Next(s, id).threads[reader];
            MayRead(Next(s, id), th', todo) || (Stale(Next(s, id), th', todo) && Answer(Next(s, id), tx, t) == None)
  {
    hide NoIdleEmpty, ObjectOk, LockInv;
    NextThreads(s, id);
    var th := s.threads[reader];
    if !th.pc.Begin? {
      NextFrame(s, id, th.pc.o);
      if s.threads[id].pc == RemTombed(th.pc.o) {
        TombIsRemoved(s, id);
        RemovedStays(s, id, th.pc.o);
      }
    }
  }

  lemma TombIsRemoved(s: State, id: Tid)
    requires Inv(s) && CanStep(s, id) && s.threads[id].pc.RemTombed?
    ensures s.heap[s.threads[id].pc.o].removed
    ensures Next(s, id).table == CompareAndDelete(s.table, s.threads[id].todo[0].tx, s.threads[id].pc.o)
  {
    hide NoIdleEmpty, LockInv;
    ObjectForStep(s, id);
  }

  lemma {:induction false} ReadingIsAtomic(s: State, schedule: seq<Tid>, reader: Tid, todo: seq<Op>, tx: TxId, t: int)
    requires Inv(s) && Schedulable(s, schedule) && reader in s.threads
    requires todo != [] && todo[0] == Lookup(tx, t) && MayRead(s, s.threads[reader], todo)
    ensures var e := Run(s, schedule);
            && reader in e.threads
            && (e.threads[reader].todo == todo && e.threads[reader].pc.Returned? ==>
                  AnsweredIn(s, schedule, tx, t, e.threads[reader].pc.res))
    decreases |schedule|
  {
    hide ObjectOk, NoIdleEmpty, LockInv, ThreadShape, PointerOk, MayRead, Stale, Answer;
    if schedule == [] {
      NotReturned(s, reader, todo);
    } else {
      var s', rest := Next(s, schedule[0]), schedule[1..];
      NextInv(s, schedule[0]);
      NextThreads(s, schedule[0]);
      if schedule[0] == reader {
        ReadStep(s, reader, todo, tx, t);
      } else {
        OtherReadStep(s, schedule[0], reader, todo, tx, t);
      }
      if MayRead(s', s'.threads[reader], todo) {
        ReadingIsAtomic(s', rest, reader, todo, tx, t);
      } else if schedule[0] == reader {
        RunFixed(s', rest, reader, todo, Answer(s, tx, t));
      } else {
        RunStale(s', rest, reader, todo, tx, t);
        StaleReturnsNothing(Run(s', rest), Run(s', rest).threads[reader], todo);
      }
    }
  }

  lemma NotReturned(s: State, reader: Tid, todo: seq<Op>)
    requires WellFormed(s) && reader in s.threads && MayRead(s, s.threads[reader], todo)
    ensures !s.threads[reader].pc.Returned?
  {
  }

  lemma StaleReturnsNothing(s: State, th: Thread, todo: seq<Op>)
    requires WellFormed(s) && Stale(s, th, todo)
    ensures th.todo == todo && th.pc.Returned? ==> th.pc.res == None
  {
  }

  /** The lookup starts in s, and has returned after the schedule. */
  ghost predicate LooksUp(s: State, schedule: seq<Tid>, reader: Tid, tx: TxId, t: int)
    requires WellFormed(s) && Schedulable(s, schedule)
  {
    && reader in s.threads && s.threads[reader].todo != [] && s.threads[reader].todo[0] == Lookup(tx, t)
    && s.threads[reader].pc.Begin?
    && reader in Run(s, schedule).threads && Run(s, schedule).threads[reader].todo == s.threads[reader].todo
    && Run(s, schedule).threads[reader].pc.Returned?
  }

  /**
   Atomicity: although a lookup loads the object and reads its slot in separate steps, and the object may be
   removed and replaced in between, its answer is what the registry held for (tx, t) at one moment while it ran.
   */
  lemma LookupIsAtomic(s: State, schedule: seq<Tid>, reader: Tid, tx: TxId, t: int)
    requires Inv(s) && Schedulable(s, schedule) && LooksUp(s, schedule, reader, tx, t)
    ensures AnsweredIn(s, schedule, tx, t, Run(s, schedule).threads[reader].pc.res)
  {
    ReadingIsAtomic(s, schedule, reader, s.threads[reader].todo, tx, t);
  }

  /** No object of tx has a channel for t in any state of the run. */
  ghost predicate Unwritten(s: State, schedule: seq<Tid>, tx: TxId, t: int)
    requires WellFormed(s) && Schedulable(s, schedule)
    decreases |schedule|
  {
    && (forall o | 0 <= o < |s.heap| && s.heap[o].tx == tx :: t !in s.heap[o].channels)
    && (schedule != [] ==> Unwritten(Next(s, schedule[0]), schedule[1..], tx, t))
  }

  lemma {:induction false} UnwrittenAnswer(s: State, schedule: seq<Tid>, tx: TxId, t: int, res: Option<Chan>)
    requires WellFormed(s) && Schedulable(s, schedule) && Unwritten(s, schedule, tx, t)
    requires AnsweredIn(s, schedule, tx, t, res)
    ensures res == None
    decreases |schedule|
  {
    if Answer(s, tx, t) != res {
      UnwrittenAnswer(Next(s, schedule[0]), schedule[1..], tx, t, res);
    }
  }

  /** A lookup of a slot that nobody has written finds nothing, whatever other types have registered. */
  lemma LookupOfUnwrittenFindsNothing(s: State, schedule: seq<Tid>, reader: Tid, tx: TxId, t: int)
    requires Inv(s) && Schedulable(s, schedule) && LooksUp(s, schedule, reader, tx, t)
    requires Unwritten(s, schedule, tx, t)
    ensures Run(s, schedule).threads[reader].pc.res == None
  {
    LookupIsAtomic(s, schedule, reader, tx, t);
    UnwrittenAnswer(s, schedule, tx, t, Run(s, schedule).threads[reader].pc.res);
  }

  /** Some goroutine's initial program adds ch for (tx, t). */
  ghost predicate Adds(s0: State, tx: TxId, t: int, ch: Chan) {
    exists id | id in s0.threads :: Add(tx, t, ch) in s0.threads[id].todo
  }

  /** Every channel of every object comes from an add, and goroutines only run what their programs say. */
  ghost predicate Traced(s0: State, s: State) {
    && (forall o, t | 0 <= o < |s.heap| && t in s.heap[o].channels :: Adds(s0, s.heap[o].tx, t, s.heap[o].channels[t]))
    && (forall id | id in s.threads ::
          id in s0.threads && forall op | op in s.threads[id].todo :: op in s0.threads[id].todo)
  }

  lemma ActTraced(id: Tid, th: Thread, obj: Object, t: int)
    requires ThreadShape(th) && HasObject(th.pc) && th.todo[0].tx == obj.tx
    requires var obj' := Act(id, th.todo[0], th.pc, obj).0; t in obj'.channels
    ensures var obj' := Act(id, th.todo[0], th.pc, obj).0;
            && obj'.tx == obj.tx
            && (|| (t in obj.channels && obj'.channels[t] == obj.channels[t])
                || th.todo[0] == Add(obj.tx, t, obj'.channels[t]))
  {
  }

  lemma NextTraced(s0: State, s: State, id: Tid)
    requires WellFormed(s) && CanStep(s, id) && Traced(s0, s)
    ensures Traced(s0, Next(s, id))
  {
    hide Adds, Act, ThreadShape;
    var s', th := Next(s, id), s.threads[id];
    NextThreads(s, id);
    forall o, t | 0 <= o < |s'.heap| && t in s'.heap[o].channels
      ensures Adds(s0, s'.heap[o].tx, t, s'.heap[o].channels[t])
    {
      if o < |s.heap| {
        NextFrame(s, id, o);
        if HasObject(th.pc) && th.pc.o == o {
          ActTraced(id, th, s.heap[o], t);
          if th.todo[0] == Add(s.heap[o].tx, t, s'.heap[o].channels[t]) {
            FirstOpAdds(s0, s, id, s.heap[o].tx, t, s'.heap[o].channels[t]);
          }
        }
      } else {
        NewObjectIsEmpty(s, id, o);
      }
    }
  }

  lemma FirstOpAdds(s0: State, s: State, id: Tid, tx: TxId, t: int, ch: Chan)
    requires Traced(s0, s) && id in s.threads && s.threads[id].todo != [] && s.threads[id].todo[0] == Add(tx, t, ch)
    ensures Adds(s0, tx, t, ch)
  {
    assert Add(tx, t, ch) in s.threads[id].todo;
  }

  lemma NewObjectIsEmpty(s: State, id: Tid, o: ObjId)
    requires WellFormed(s) && CanStep(s, id) && |s.heap| <= o < |Next(s, id).heap|
    ensures Next(s, id).heap[o].channels == map[]
  {
  }

  lemma {:induction false} RunTraced(s0: State, s: State, schedule: seq<Tid>)
    requires WellFormed(s) && Schedulable(s, schedule) && Traced(s0, s)
    ensures Traced(s0, Run(s, schedule))
    decreases |schedule|
  {
    hide Traced;
    if schedule != [] {
      NextTraced(s0, s, schedule[0]);
      RunTraced(s0, Next(s, schedule[0]), schedule[1..]);
    }
  }

  lemma {:induction false} AnswerIsAdded(s0: State, s: State, schedule: seq<Tid>, tx: TxId, t: int, ch: Chan)
    requires WellFormed(s) && Schedulable(s, schedule) && Traced(s0, s)
    requires AnsweredIn(s, schedule, tx, t, Some(ch))
    ensures Adds(s0, tx, t, ch)
    decreases |schedule|
  {
    if Answer(s, tx, t) != Some(ch) {
      NextTraced(s0, s, schedule[0]);
      AnswerIsAdded(s0, Next(s, schedule[0]), schedule[1..], tx, t, ch);
    }
  }

  /** A lookup of (tx, t) only ever answers a channel that some goroutine's program adds for exactly tx and t. */
  lemma LookupFindsOnlyAdded(s0: State, before: seq<Tid>, schedule: seq<Tid>, reader: Tid, tx: TxId, t: int, ch: Chan)
    requires Init(s0) && Schedulable(s0, before) && Schedulable(Run(s0, before), schedule)
    requires LooksUp(Run(s0, before), schedule, reader, tx, t)
    requires Run(Run(s0, before), schedule).threads[reader].pc.res == Some(ch)
    ensures exists id | id in s0.threads :: Add(tx, t, ch) in s0.threads[id].todo
  {
    hide Inv, Traced;
    InitInv(s0);
    RunInv(s0, before);
    InitTraced(s0);
    RunTraced(s0, s0, before);
    LookupIsAtomic(Run(s0, before), schedule, reader, tx, t);
    AnswerIsAdded(s0, Run(s0, before), schedule, tx, t, ch);
  }

  lemma InitTraced(s0: State)
    requires Init(s0)
    ensures Traced(s0, s0)
  {
  }

  // --------------------------------------------------------------------------------------------
  // An add retries at most once per object deleted while it runs
  // --------------------------------------------------------------------------------------------

  /** The step of goroutine id takes an object of tx out of the table. */
  ghost predicate Deletes(s: State, id: Tid, tx: TxId)
    requires WellFormed(s) && CanStep(s, id)
  {
    s.threads[id].pc.RemTombed? && s.threads[id].todo[0].tx == tx
  }

  ghost function DeleteCount(s: State, schedule: seq<Tid>, tx: TxId): nat
    requires WellFormed(s) && Schedulable(s, schedule)
    decreases |schedule|
  {
    if schedule == [] then 0
    else (if Deletes(s, schedule[0], tx) then 1 else 0) + DeleteCount(Next(s, schedule[0]), schedule[1..], tx)
  }

  ghost function StepCount(schedule: seq<Tid>, id: Tid): nat {
    if schedule == [] then 0
    else (if schedule[0] == id then 1 else 0) + StepCount(schedule[1..], id)
  }

  /** Steps an add still has to take if no other object of its transaction is deleted meanwhile. */
  function AddRankAt(pc: Pc, current: bool): nat {
    match pc
    case Begin => 5
    case Loaded(_) => if current then 4 else 8
    case Entered(_) => if current then 3 else 7
    case AddCounted(_) => 2
    case Leaving(_, retry, _) => if retry then 6 else 1
    case _ => 0
  }

  ghost function AddRank(s: State, th: Thread): nat
    requires WellFormed(s)
  {
    AddRankAt(th.pc, HasObject(th.pc) && th.pc.o < |s.heap| && Current(s, th.pc.o))
  }

  lemma ActRank(id: Tid, th: Thread, obj: Object, current: bool)
    requires ThreadShape(th) && HasObject(th.pc) && th.todo[0].Add?
    requires ObjectOk(obj, if Inside(th.pc) then Some(th) else None, current)
    ensures !th.pc.RemTombed?
    ensures var pc' := Act(id, th.todo[0], th.pc, obj).1;
            1 + AddRankAt(pc', HasObject(pc') && current) <= AddRankAt(th.pc, current)
  {
  }

  /** The adder's own step, for the rank of its next place. */
  lemma OwnAddRank(s: State, adder: Tid)
    requires Inv(s) && CanStep(s, adder) && WellFormed(Next(s, adder))
    requires s.threads[adder].todo[0].Add? && !s.threads[adder].pc.Returned?
    ensures 1 + AddRank(Next(s, adder), Next(s, adder).threads[adder]) <= AddRank(s, s.threads[adder])
  {
    hide ObjectOk, NoIdleEmpty, LockInv;
    var th := s.threads[adder];
    if HasObject(th.pc) {
      ObjectForStep(s, adder);
      NextFrame(s, adder, th.pc.o);
      ActRank(adder, th, s.heap[th.pc.o], Current(s, th.pc.o));
    }
  }

  lemma NextAddRank(s: State, id: Tid, adder: Tid)
    requires Inv(s) && CanStep(s, id)
    requires adder in s.threads && s.threads[adder].todo != [] && s.threads[adder].todo[0].Add?
    requires !(id == adder && s.threads[adder].pc.Returned?)
    ensures Inv(Next(s, id))
    ensures adder in Next(s, id).threads && Next(s, id).threads[adder].todo == s.threads[adder].todo
    ensures (if id == adder then 1 else 0) + AddRank(Next(s, id), Next(s, id).threads[adder])
            <= AddRank(s, s.threads[adder]) + (if Deletes(s, id, s.threads[adder].todo[0].tx) then 4 else 0)
  {
    NextInv(s, id);
    var th := s.threads[adder];
    NextThreads(s, id);
    if id == adder {
      OwnAddRank(s, adder);
    } else {
      OtherAddRank(s, id, adder);
    }
  }

  /** Another goroutine's step raises the rank only by deleting the adder's object. */
  lemma OtherAddRank(s: State, id: Tid, adder: Tid)
    requires WellFormed(s) && CanStep(s, id) && WellFormed(Next(s, id))
    requires adder in s.threads && s.threads[adder].todo != [] && s.threads[adder].todo[0].Add? && id != adder
    ensures adder in Next(s, id).threads
    ensures AddRank(Next(s, id), Next(s, id).threads[adder])
            <= AddRank(s, s.threads[adder]) + (if Deletes(s, id, s.threads[adder].todo[0].tx) then 4 else 0)
  {
    var th := s.threads[adder];
    NextThreads(s, id);
    assert ThreadShape(th) && PointerOk(s, th) && PointerOk(s, s.threads[id]);
    if HasObject(th.pc) {
      NextFrame(s, id, th.pc.o);
    }
  }

  /**
   Progress of AddModelChannel: over any run during which it does not move on to its next operation,
   an add takes at most 5 steps plus 4 for each object of its transaction deleted meanwhile, so it
   goes round its retry loop at most once per deletion.
   */
  lemma {:induction false} AddStepsBounded(s: State, schedule: seq<Tid>, adder: Tid)
    requires Inv(s) && Schedulable(s, schedule)
    requires adder in s.threads && s.threads[adder].todo != [] && s.threads[adder].todo[0].Add?
    requires adder in Run(s, schedule).threads && Run(s, schedule).threads[adder].todo == s.threads[adder].todo
    ensures StepCount(schedule, adder) + AddRank(Run(s, schedule), Run(s, schedule).threads[adder])
            <= AddRank(s, s.threads[adder]) + 4 * DeleteCount(s, schedule, s.threads[adder].todo[0].tx)
    decreases |schedule|
  {
    if schedule != [] {
      var s' := Next(s, schedule[0]);
      TodoShrinks(s', schedule[1..], adder);
      NextAddRank(s, schedule[0], adder);
      AddStepsBounded(s', schedule[1..], adder);
    }
  }

  lemma {:induction false} TodoShrinks(s: State, schedule: seq<Tid>, id: Tid)
    requires WellFormed(s) && Schedulable(s, schedule)
    ensures id in s.threads <==> id in Run(s, schedule).threads
    ensures id in s.threads ==> |Run(s, schedule).threads[id].todo| <= |s.threads[id].todo|
    decreases |schedule|
  {
    if schedule != [] {
      NextThreads(s, schedule[0]);
      TodoShrinks(Next(s, schedule[0]), schedule[1..], id);
    }
  }

  // --------------------------------------------------------------------------------------------
  // Goroutines as callPlugins starts them: each (transaction, type) is added once and then removed
  // --------------------------------------------------------------------------------------------

  /** What is left to do of a program that adds a channel and later removes it, or that only looks channels up. */
  predicate OwnerOrReader(todo: seq<Op>) {
    || (|todo| == 2 && todo[0].Add? && ValidType(todo[0].t) && todo[1] == Remove(todo[0].tx, todo[0].t))
    || (|todo| == 1 && todo[0].Remove? && ValidType(todo[0].t))
    || (forall i | 0 <= i < |todo| :: todo[i].Lookup?)
  }

  predicate Owns(th: Thread, tx: TxId, t: int) {
    th.todo != [] && !th.todo[0].Lookup? && th.todo[0].tx == tx && th.todo[0].t == t
  }

  /** The channel the goroutine owns is in the registry: its add has written the slot, its remove has not cleared it. */
  predicate Holding(th: Thread) {
    && th.todo != []
    && (|| (th.todo[0].Add? && (th.pc.Returned? || (th.pc.Leaving? && !th.pc.retry)))
        || (th.todo[0].Remove? && (th.pc.Begin? || th.pc.Loaded? || th.pc.Entered?)))
  }

  /** Each goroutine runs an owner's or a reader's program, and no two own the same slot. */
  ghost predicate Disciplined(s: State) {
    && (forall id | id in s.threads :: OwnerOrReader(s.threads[id].todo))
    && (forall a, b, tx, t | a in s.threads && b in s.threads && Owns(s.threads[a], tx, t)
        && Owns(s.threads[b], tx, t) :: a == b)
  }

  /** A slot of an object is written iff the goroutine that owns it is holding it. */
  ghost predicate SlotsHeld(s: State)
    requires WellFormed(s)
  {
    && (forall o, t | 0 <= o < |s.heap| && t in s.heap[o].channels ::
          exists id | id in s.threads :: Owns(s.threads[id], s.heap[o].tx, t) && Holding(s.threads[id]))
    && (forall id | id in s.threads && Holding(s.threads[id]) :: SlotWritten(s, s.threads[id]))
  }

  /** The slot of the goroutine's operation is written in the live object of its transaction, the one it points to. */
  predicate SlotWritten(s: State, th: Thread)
    requires WellFormed(s) && th.todo != []
  {
    var op := th.todo[0];
    && op.tx in s.table
    && !s.heap[s.table[op.tx]].removed
    && op.t in s.heap[s.table[op.tx]].channels
    && (op.Add? ==> s.heap[s.table[op.tx]].channels[op.t] == op.ch)
    && (HasObject(th.pc) ==> th.pc.o == s.table[op.tx])
  }

  ghost predicate OwnersInv(s: State) {
    Inv(s) && Disciplined(s) && SlotsHeld(s)
  }

  /** The goroutines that start at the beginning of an owner's or a reader's program. */
  ghost predicate OwnersInit(s: State) {
    && Init(s)
    && Disciplined(s)
    && (forall id | id in s.threads :: s.threads[id].todo != [] ==> !s.threads[id].todo[0].Remove?)
  }

  lemma NextDisciplined(s: State, id: Tid)
    requires WellFormed(s) && CanStep(s, id) && Disciplined(s)
    ensures Disciplined(Next(s, id))
  {
    NextThreads(s, id);
    var threads, threads' := s.threads, Next(s, id).threads;
    forall x | x in threads'
      ensures OwnerOrReader(threads'[x].todo)
      ensures forall tx, t | Owns(threads'[x], tx, t) :: Owns(threads[x], tx, t)
    {
      assert OwnerOrReader(threads[x].todo);
    }
  }

  /** The goroutine that has just written its slot finds it written. */
  lemma WriterHolds(s: State, id: Tid)
    requires Inv(s) && CanStep(s, id) && s.threads[id].pc.AddCounted?
    ensures WellFormed(Next(s, id)) && Next(s, id).threads[id].todo == s.threads[id].todo
    ensures SlotWritten(Next(s, id), Next(s, id).threads[id])
  {
    NextInv(s, id);
    ObjectForStep(s, id);
    NextFrame(s, id, s.threads[id].pc.o);
  }

  /** The goroutine that starts or goes on holding its slot finds it written. */
  lemma NextHolds(s: State, id: Tid, x: Tid)
    requires OwnersInv(s) && CanStep(s, id)
    requires x in Next(s, id).threads && Holding(Next(s, id).threads[x])
    ensures WellFormed(Next(s, id))
    ensures SlotWritten(Next(s, id), Next(s, id).threads[x])
  {
    NextThreads(s, id);
    if x == id && s.threads[x].pc.AddCounted? {
      WriterHolds(s, id);
    } else {
      HoldingBefore(s, id, x);
      HolderKeepsSlot(s, id, x);
    }
  }

  /** A slot somebody holds is written by nobody else. */
  lemma HeldSlotIsNotWritten(s: State, id: Tid, x: Tid)
    requires OwnersInv(s) && CanStep(s, id)
    requires x in s.threads && Holding(s.threads[x])
    requires !(x == id && Writes(s.threads[x], s.threads[x].todo[0].tx, s.threads[x].todo[0].t))
    ensures !Writes(s.threads[id], s.threads[x].todo[0].tx, s.threads[x].todo[0].t)
  {
  }

  lemma HolderKeepsSlot(s: State, id: Tid, x: Tid)
    requires OwnersInv(s) && CanStep(s, id)
    requires x in s.threads && Holding(s.threads[x])
    requires x in Next(s, id).threads && Holding(Next(s, id).threads[x])
    requires Owns(s.threads[x], Next(s, id).threads[x].todo[0].tx, Next(s, id).threads[x].todo[0].t)
    requires !(x == id && Writes(s.threads[x], s.threads[x].todo[0].tx, s.threads[x].todo[0].t))
    ensures WellFormed(Next(s, id)) && SlotWritten(Next(s, id), Next(s, id).threads[x])
  {
    var op := s.threads[x].todo[0];
    var ch := s.heap[s.table[op.tx]].channels[op.t];
    HeldSlotIsNotWritten(s, id, x);
    NextKeepsRegistered(s, id, op.tx, op.t, ch);
    NextThreads(s, id);
  }

  /** Only the write of its slot makes a goroutine start holding it. */
  lemma HoldingBefore(s: State, id: Tid, x: Tid)
    requires OwnersInv(s) && CanStep(s, id)
    requires x in Next(s, id).threads && Holding(Next(s, id).threads[x])
    requires !(x == id && s.threads[x].pc.AddCounted?)
    ensures Holding(s.threads[x])
    ensures Owns(s.threads[x], Next(s, id).threads[x].todo[0].tx, Next(s, id).threads[x].todo[0].t)
    ensures !(x == id && Writes(s.threads[x], Next(s, id).threads[x].todo[0].tx, Next(s, id).threads[x].todo[0].t))
  {
    NextThreads(s, id);
    if x == id {
      assert OwnerOrReader(s.threads[id].todo);
      OwnHoldingBefore(s, id);
    }
  }

  lemma OwnHoldingBefore(s: State, id: Tid)
    requires WellFormed(s) && CanStep(s, id) && OwnerOrReader(s.threads[id].todo)
    requires Holding(Next(s, id).threads[id]) && !s.threads[id].pc.AddCounted?
    ensures Holding(s.threads[id])
    ensures var th, op := s.threads[id], Next(s, id).threads[id].todo[0];
            Owns(th, op.tx, op.t) && !Writes(th, op.tx, op.t)
  {
  }

  /** A slot that is written has an owner that holds it. */
  lemma NextSlotHasOwner(s: State, id: Tid, o: ObjId, t: int)
    requires OwnersInv(s) && CanStep(s, id)
    requires o < |Next(s, id).heap| && t in Next(s, id).heap[o].channels
    ensures exists x | x in Next(s, id).threads ::
              Owns(Next(s, id).threads[x], Next(s, id).heap[o].tx, t) && Holding(Next(s, id).threads[x])
  {
    var s' := Next(s, id);
    OldSlot(s, id, o, t);
    NextFrame(s, id, o);
    NextThreads(s, id);
    var th := s.threads[id];
    if th.pc == AddCounted(o) && th.todo[0].t == t {
      assert Owns(s'.threads[id], s'.heap[o].tx, t) && Holding(s'.threads[id]);
    } else {
      SlotBefore(s, id, o, t);
      var x :| x in s.threads && Owns(s.threads[x], s.heap[o].tx, t) && Holding(s.threads[x]);
      if x == id {
        HolderGoesOn(s, id, o, t);
      }
      assert Owns(s'.threads[x], s'.heap[o].tx, t) && Holding(s'.threads[x]);
    }
  }

  /** New objects have no channel. */
  lemma OldSlot(s: State, id: Tid, o: ObjId, t: int)
    requires WellFormed(s) && CanStep(s, id)
    requires o < |Next(s, id).heap| && t in Next(s, id).heap[o].channels
    ensures o < |s.heap| && Next(s, id).heap[o].tx == s.heap[o].tx
  {
  }

  lemma SlotBefore(s: State, id: Tid, o: ObjId, t: int)
    requires WellFormed(s) && CanStep(s, id) && o < |s.heap| && o < |Next(s, id).heap|
    requires t in Next(s, id).heap[o].channels
    requires !(s.threads[id].pc == AddCounted(o) && s.threads[id].todo[0].t == t)
    ensures t in s.heap[o].channels
  {
  }

  lemma SlotIsCurrent(s: State, o: ObjId, t: int)
    requires Inv(s) && o < |s.heap| && t in s.heap[o].channels
    ensures Current(s, o)
  {
    hide Holder, NoIdleEmpty, LockInv;
    assert ObjectOk(s.heap[o], Holder(s, o), Current(s, o));
  }

  /** The first statement of a remove clears the slot of its operation. */
  lemma EnteredRemoveClears(s: State, id: Tid, o: ObjId)
    requires WellFormed(s) && CanStep(s, id) && s.threads[id].pc == Entered(o) && s.threads[id].todo[0].Remove?
    requires OwnerOrReader(s.threads[id].todo)
    ensures o < |Next(s, id).heap| && s.threads[id].todo[0].t !in Next(s, id).heap[o].channels
  {
  }

  /** Every other step of a goroutine that holds its channel leaves it holding it. */
  lemma HolderStep(s: State, id: Tid)
    requires WellFormed(s) && CanStep(s, id) && OwnerOrReader(s.threads[id].todo)
    requires Holding(s.threads[id]) && SlotWritten(s, s.threads[id])
    requires !(s.threads[id].pc.Entered? && s.threads[id].todo[0].Remove?)
    ensures var op, th' := s.threads[id].todo[0], Next(s, id).threads[id];
            Owns(th', op.tx, op.t) && Holding(th')
  {
  }

  /** While its slot stays written, the goroutine that holds it goes on holding it. */
  lemma HolderGoesOn(s: State, id: Tid, o: ObjId, t: int)
    requires OwnersInv(s) && CanStep(s, id) && o < |s.heap| && o < |Next(s, id).heap|
    requires Owns(s.threads[id], s.heap[o].tx, t) && Holding(s.threads[id])
    requires t in s.heap[o].channels && t in Next(s, id).heap[o].channels
    ensures Owns(Next(s, id).threads[id], s.heap[o].tx, t) && Holding(Next(s, id).threads[id])
  {
    hide Next, Holding, OwnerOrReader, ObjectOk, LockInv, NoIdleEmpty;
    var th := s.threads[id];
    assert OwnerOrReader(th.todo) && SlotWritten(s, th);
    SlotIsCurrent(s, o, t);
    if th.pc.Entered? && th.todo[0].Remove? {
      EnteredRemoveClears(s, id, o);
    } else {
      HolderStep(s, id);
    }
  }

  lemma NextSlotsHeld(s: State, id: Tid)
    requires OwnersInv(s) && CanStep(s, id) && WellFormed(Next(s, id))
    ensures SlotsHeld(Next(s, id))
  {
    forall o, t | 0 <= o < |Next(s, id).heap| && t in Next(s, id).heap[o].channels
      ensures exists x | x in Next(s, id).threads ::
                Owns(Next(s, id).threads[x], Next(s, id).heap[o].tx, t) && Holding(Next(s, id).threads[x])
    {
      NextSlotHasOwner(s, id, o, t);
    }
    forall x | x in Next(s, id).threads && Holding(Next(s, id).threads[x])
      ensures SlotWritten(Next(s, id), Next(s, id).threads[x])
    {
      NextHolds(s, id, x);
    }
  }

  /** Every step keeps the ownership invariant. */
  lemma NextOwners(s: State, id: Tid)
    requires OwnersInv(s) && CanStep(s, id)
    ensures OwnersInv(Next(s, id))
  {
    NextInv(s, id);
    NextDisciplined(s, id);
    NextSlotsHeld(s, id);
  }

  lemma {:induction false} RunOwners(s: State, schedule: seq<Tid>)
    requires OwnersInv(s) && Schedulable(s, schedule)
    ensures OwnersInv(Run(s, schedule))
    decreases |schedule|
  {
    if schedule != [] {
      NextOwners(s, schedule[0]);
      RunOwners(Next(s, schedule[0]), schedule[1..]);
    }
  }

  lemma OwnersInitInv(s: State)
    requires OwnersInit(s)
    ensures OwnersInv(s)
  {
  }

  /** From the return of its add until its remove enters the critical section, an owner's channel is registered. */
  lemma HeldChannelIsRegistered(s: State, schedule: seq<Tid>, owner: Tid)
    requires OwnersInit(s) && Schedulable(s, schedule)
    requires owner in Run(s, schedule).threads && Holding(Run(s, schedule).threads[owner])
    ensures var e := Run(s, schedule);
            exists ch :: Registered(e, e.threads[owner].todo[0].tx, e.threads[owner].todo[0].t, ch)
  {
    OwnersInitInv(s);
    RunOwners(s, schedule);
    var e := Run(s, schedule);
    var op := e.threads[owner].todo[0];
    assert SlotWritten(e, e.threads[owner]);
    assert Registered(e, op.tx, op.t, e.heap[e.table[op.tx]].channels[op.t]);
  }

  /**
   The goroutine has no add and no remove of tx under way: it has not started, it has finished, or it works for another
   id.
   */
  predicate Settled(th: Thread, tx: TxId) {
    th.todo != [] && !th.todo[0].Lookup? && th.todo[0].tx == tx ==> th.todo[0].Add? && th.pc.Begin? 
  }

  /** No leak: once every add of a transaction has been matched by its remove, the table has no entry for it. */
  lemma NoLeak(s: State, schedule: seq<Tid>, tx: TxId)
    requires OwnersInit(s) && Schedulable(s, schedule)
    requires forall id | id in Run(s, schedule).threads :: Settled(Run(s, schedule).threads[id], tx)
    ensures tx !in Run(s, schedule).table
  {
    OwnersInitInv(s);
    RunOwners(s, schedule);
    var e := Run(s, schedule);
    if tx in e.table {
      EntryHasWorker(e, tx);
    }
  }

  /** An entry of the table always has a goroutine working on it: adding, holding or removing one of its channels. */
  lemma EntryHasWorker(s: State, tx: TxId)
    requires OwnersInv(s) && tx in s.table
    ensures exists id | id in s.threads :: !Settled(s.threads[id], tx)
  {
    var o := s.table[tx];
    if s.heap[o].removed {
      assert ObjectOk(s.heap[o], Holder(s, o), Current(s, o));
      var id := s.heap[o].lock.value;
      PointerWorksFor(s, id, o);
    } else if forall t :: t !in s.heap[o].channels {
      assert s.heap[o].channels == map[];
      assert NoIdleEmpty(s, o);
      var id :| id in s.threads && Busy(s.threads[id], o);
      PointerWorksFor(s, id, o);
    } else {
      var t :| t in s.heap[o].channels;
      var id := SlotOwner(s, o, t);
      assert !Settled(s.threads[id], tx);
    }
  }

  lemma SlotOwner(s: State, o: ObjId, t: int) returns (id: Tid)
    requires WellFormed(s) && SlotsHeld(s) && o < |s.heap| && t in s.heap[o].channels
    ensures id in s.threads && Owns(s.threads[id], s.heap[o].tx, t) && Holding(s.threads[id])
  {
    id :| id in s.threads && Owns(s.threads[id], s.heap[o].tx, t) && Holding(s.threads[id]);
  }

  lemma PointerWorksFor(s: State, id: Tid, o: ObjId)
    requires WellFormed(s) && id in s.threads && o < |s.heap|
    requires Busy(s.threads[id], o) || s.threads[id].pc == RemTombed(o)
    ensures !Settled(s.threads[id], s.heap[o].tx)
  {
  }

  /** The owner holds its channel in every state of the run. */
  ghost predicate HoldsThroughout(s: State, schedule: seq<Tid>, owner: Tid)
    requires WellFormed(s) && Schedulable(s, schedule)
    decreases |schedule|
  {
    && owner in s.threads && Holding(s.threads[owner])
    && (schedule != [] ==> HoldsThroughout(Next(s, schedule[0]), schedule[1..], owner))
  }

  /** While the owner holds its channel nobody writes its slot. */
  lemma {:induction false} HeldIsUndisturbed(s: State, schedule: seq<Tid>, owner: Tid, tx: TxId, t: int)
    requires OwnersInv(s) && Schedulable(s, schedule) && HoldsThroughout(s, schedule, owner)
    requires Owns(s.threads[owner], tx, t)
    ensures Undisturbed(s, schedule, tx, t)
    decreases |schedule|
  {
    if schedule != [] {
      var id := schedule[0];
      NextOwners(s, id);
      NextThreads(s, id);
      HoldingBefore(s, id, owner);
      HeldSlotIsNotWritten(s, id, owner);
      HeldIsUndisturbed(Next(s, id), schedule[1..], owner, tx, t);
    }
  }

  /**
   From the return of AddModelChannel for (tx, t, ch) and as long as its owner has not reached the
   critical section of its remove, a lookup of tx and t answers exactly ch, in every interleaving.
   */
  lemma LookupWhileHeld(s0: State, before: seq<Tid>, schedule: seq<Tid>, owner: Tid, reader: Tid)
    requires OwnersInit(s0) && Schedulable(s0, before)
    requires Schedulable(Run(s0, before), schedule)
    requires var s := Run(s0, before);
             && HoldsThroughout(s, schedule, owner)
             && s.threads[owner].todo[0].Add? && s.threads[owner].pc.Returned?
             && reader in s.threads && s.threads[reader].todo != []
             && s.threads[reader].todo[0] == Lookup(s.threads[owner].todo[0].tx, s.threads[owner].todo[0].t)
             && s.threads[reader].pc.Begin?
             && var e := Run(s, schedule);
                reader in e.threads && e.threads[reader].todo == s.threads[reader].todo
                    && e.threads[reader].pc.Returned?
    ensures Run(Run(s0, before), schedule).threads[reader].pc.res == Some(Run(s0, before).threads[owner].todo[0].ch)
  {
    OwnersInitInv(s0);
    RunOwners(s0, before);
    var s := Run(s0, before);
    var op := s.threads[owner].todo[0];
    assert SlotWritten(s, s.threads[owner]);
    HeldIsUndisturbed(s, schedule, owner, op.tx, op.t);
    LookupAnswersChannel(s, schedule, reader, op.tx, op.t, op.ch);
  }
}
