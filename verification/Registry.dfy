/**
  The realm registry of `WardenDaemon` under any number of client tasks.

  A realm is reached through a counted handle (an `Arc`). A task clones a handle under the
  warden lock, releases that lock, and uses the handle later; `destroy_realm` reads the count,
  waits for the realm lock, and then takes the handle apart, which panics if another handle
  exists. Every await point is a place where other tasks may run, so each action below is what
  one task does between two of them.
 */
module Registry {
  import opened Outcomes
  import opened Latches

  type Uuid = nat
  type Arc = nat
  type Client = nat

  /** The command a task brings to the warden lock. */
  datatype Errand = Get(id: Uuid) | Create(id: Uuid) | Destroy(id: Uuid) | View(id: Uuid)

  datatype Task =
    | Idle
    | InWarden(errand: Errand)             // has the warden lock
    | Cloned(arc: Arc)                     // has the warden lock and a realm handle
    | Handle(arc: Arc, app: bool)          // has a realm handle; app if also one of its applications
    | InRealm(arc: Arc, app: bool)         // has a realm handle and the realm lock
    | AppHandle(arc: Arc)                  // has an application handle only
    | AwaitRealm(id: Uuid, arc: Arc)       // destroy: the count was one; waits for the realm lock
    | Inspecting(id: Uuid, arc: Arc)       // destroy: has the realm lock
    | Removing(id: Uuid, arc: Arc)         // destroy: the realm was found halted
    | AwaitView(arc: Arc)                  // inspect or list: waits for the realm lock
    | Viewing(arc: Arc)                    // inspect or list: has the realm lock

  datatype System = System(
    realms: map<Uuid, Arc>,      // realms_managers
    strong: seq<nat>,            // the strong count of every handle ever allocated
    halted: set<Arc>,            // realms in state Halted
    tasks: map<Client, Task>,
    warden: Option<Client>,      // who has the warden lock
    realmLock: map<Arc, Client>, // who has each realm lock
    panicked: bool,              // Arc::into_inner found another handle
    removedActive: bool)         // a realm left the registry while not halted

  datatype Action =
    | LockWarden(c: Client, errand: Errand)
    | InWardenStep(c: Client, fabricOk: bool)
    | UnlockWarden(c: Client)
    | LockRealm(c: Client)
    | Operate(c: Client, halts: bool)
    | TakeApplication(c: Client)
    | UnlockRealm(c: Client)
    | DropHandle(c: Client)
    | DecideDestroy(c: Client, dataOk: bool)
    | Remove(c: Client)

  const Init := System(map[], [], {}, map[], None, map[], false, false)

  function TaskOf(s: System, c: Client): Task {
    if c in s.tasks then s.tasks[c] else Idle
  }

  function Move(s: System, c: Client, t: Task): System {
    s.(tasks := s.tasks[c := t])
  }

  /** The task ends its command and drops the warden guard. */
  function Return(s: System, c: Client): System {
    Move(s, c, Idle).(warden := None)
  }

  function DoInWarden(s: System, c: Client, e: Errand, fabricOk: bool): System {
    match e
    case Get(id) =>
      if id in s.realms && s.realms[id] < |s.strong|
      then Move(s, c, Cloned(s.realms[id])).(strong := s.strong[s.realms[id] := s.strong[s.realms[id]] + 1])
      else Return(s, c)
    case Create(id) =>
      if id in s.realms || !fabricOk then Return(s, c)
      else Return(s, c).(realms := s.realms[id := |s.strong|], strong := s.strong + [1], halted := s.halted + {|s.strong|})
    case Destroy(id) =>
      if id in s.realms && s.realms[id] < |s.strong| && s.strong[s.realms[id]] == 1
      then Move(s, c, AwaitRealm(id, s.realms[id]))
      else Return(s, c)
    case View(id) =>
      if id in s.realms then Move(s, c, AwaitView(s.realms[id])) else Return(s, c)
  }

  function DoLockRealm(s: System, c: Client): Option<System> {
    match TaskOf(s, c)
    case Handle(a, app) =>
      if a in s.realmLock then None else Some(Move(s, c, InRealm(a, app)).(realmLock := s.realmLock[a := c]))
    case AwaitRealm(id, a) =>
      if a in s.realmLock then None else Some(Move(s, c, Inspecting(id, a)).(realmLock := s.realmLock[a := c]))
    case AwaitView(a) =>
      if a in s.realmLock then None else Some(Move(s, c, Viewing(a)).(realmLock := s.realmLock[a := c]))
    case _ => None
  }

  function DoRemove(s: System, c: Client, id: Uuid, a: Arc): System {
    if id !in s.realms then Return(s, c)
    else
      var gone := Return(s, c).(realms := s.realms - {id}, removedActive := s.removedActive || a !in s.halted);
      if a < |s.strong| && s.strong[a] == 1 then gone.(strong := s.strong[a := 0]) else gone.(panicked := true)
  }

  function Next(s: System, action: Action): Option<System> {
    var c := action.c;
    var t := TaskOf(s, c);
    match action
    case LockWarden(_, e) =>
      if t.Idle? && s.warden.None? then Some(Move(s, c, InWarden(e)).(warden := Some(c))) else None
    case InWardenStep(_, fabricOk) =>
      if t.InWarden? then Some(DoInWarden(s, c, t.errand, fabricOk)) else None
    case UnlockWarden(_) =>
      if t.Cloned? then Some(Move(s, c, Handle(t.arc, false)).(warden := None)) else None
    case LockRealm(_) => DoLockRealm(s, c)
    case Operate(_, halts) =>
      if t.InRealm? then Some(s.(halted := if halts then s.halted + {t.arc} else s.halted - {t.arc})) else None
    case TakeApplication(_) =>
      if t.InRealm? && t.arc !in s.halted then Some(Move(s, c, InRealm(t.arc, true))) else None
    case UnlockRealm(_) =>
      if t.InRealm? then Some(Move(s, c, Handle(t.arc, t.app)).(realmLock := s.realmLock - {t.arc}))
      else if t.Viewing? then Some(Return(s, c).(realmLock := s.realmLock - {t.arc}))
      else None
    case DropHandle(_) =>
      if t.Handle? && t.arc < |s.strong| && s.strong[t.arc] > 0
      then Some(Move(s, c, if t.app then AppHandle(t.arc) else Idle).(strong := s.strong[t.arc := s.strong[t.arc] - 1]))
      else if t.AppHandle? then Some(Move(s, c, Idle))
      else None
    case DecideDestroy(_, dataOk) =>
      if !t.Inspecting? then None
      else
        var unlocked := s.(realmLock := s.realmLock - {t.arc});
        if dataOk && t.arc in s.halted then Some(Move(unlocked, c, Removing(t.id, t.arc))) else Some(Return(unlocked, c))
    case Remove(_) => if t.Removing? then Some(DoRemove(s, c, t.id, t.arc)) else None
  }

  function Run(s: System, actions: seq<Action>): Option<System>
    decreases |actions|
  {
    if actions == [] then Some(s)
    else
      var next := Next(s, actions[0]);
      if next.None? then None else Run(next.value, actions[1..])
  }

  // ----- the invariant -----

  predicate Holds(t: Task, a: Arc) {
    (t.Cloned? || t.Handle? || t.InRealm?) && t.arc == a
  }

  function Holders(tasks: map<Client, Task>, a: Arc): set<Client> {
    set c | c in tasks && Holds(tasks[c], a)
  }

  predicate HasWarden(t: Task) {
    t.InWarden? || t.Cloned? || Deleting(t) || t.AwaitView? || t.Viewing?
  }

  predicate Deleting(t: Task) {
    t.AwaitRealm? || t.Inspecting? || t.Removing?
  }

  predicate HasRealm(t: Task, a: Arc) {
    (t.InRealm? || t.Inspecting? || t.Viewing?) && t.arc == a
  }

  function RegistryShare(s: System, a: Arc): nat {
    if a in s.realms.Values then 1 else 0
  }

  /** The strong count of a handle is the number of handles that exist. */
  predicate CountsOk(s: System) {
    forall a :: 0 <= a < |s.strong| ==> s.strong[a] == |Holders(s.tasks, a)| + RegistryShare(s, a)
  }

  predicate RealmsOk(s: System) {
    && (forall u :: u in s.realms ==> s.realms[u] < |s.strong|)
    && (forall u, v :: u in s.realms && v in s.realms && u != v ==> s.realms[u] != s.realms[v])
  }

  ghost predicate TaskOk(s: System, c: Client)
    requires c in s.tasks
  {
    var t := s.tasks[c];
    && (HasWarden(t) <==> s.warden == Some(c))
    && (forall a :: Holds(t, a) ==> a in s.realms.Values)
    && (forall a :: HasRealm(t, a) ==> a in s.realmLock && s.realmLock[a] == c)
    && (Deleting(t) ==>
          t.id in s.realms && s.realms[t.id] == t.arc && Holders(s.tasks, t.arc) == {})
    && (t.Removing? ==> t.arc in s.halted)
    && (t.AppHandle? ==> t.arc < |s.strong|)
  }

  predicate LocksOk(s: System) {
    && (s.warden.Some? ==> s.warden.value in s.tasks && HasWarden(s.tasks[s.warden.value]))
    && (forall a :: a in s.realmLock ==> s.realmLock[a] in s.tasks && HasRealm(s.tasks[s.realmLock[a]], a))
  }

  ghost predicate Inv(s: System) {
    && CountsOk(s) && RealmsOk(s) && LocksOk(s)
    && (forall c :: c in s.tasks ==> TaskOk(s, c))
    && !s.panicked && !s.removedActive
  }

  // ----- every action keeps the invariant -----

  lemma HoldersMove(tasks: map<Client, Task>, c: Client, t: Task, a: Arc)
    ensures Holders(tasks[c := t], a) ==
            if Holds(t, a) then Holders(tasks, a) + {c} else Holders(tasks, a) - {c}
  {
  }

  lemma MoveKeepsHolders(tasks: map<Client, Task>, c: Client, t: Task)
    requires forall a :: Holds(t, a) <==> c in Holders(tasks, a)
    ensures forall a :: Holders(tasks[c := t], a) == Holders(tasks, a)
  {
    forall a ensures Holders(tasks[c := t], a) == Holders(tasks, a) {
      HoldersMove(tasks, c, t, a);
    }
  }

  lemma CloneCounts(s: System, c: Client, id: Uuid)
    requires Inv(s) && TaskOf(s, c) == InWarden(Get(id)) && id in s.realms
    ensures CountsOk(DoInWarden(s, c, Get(id), true))
  {
    var t := DoInWarden(s, c, Get(id), true);
    forall b | 0 <= b < |t.strong| ensures t.strong[b] == |Holders(t.tasks, b)| + RegistryShare(t, b) {
      HoldersMove(s.tasks, c, Cloned(s.realms[id]), b);
    }
  }

  lemma CloneKeeps(s: System, c: Client, id: Uuid)
    requires Inv(s) && TaskOf(s, c) == InWarden(Get(id)) && id in s.realms
    ensures Inv(DoInWarden(s, c, Get(id), true))
  {
    var t := DoInWarden(s, c, Get(id), true);
    CloneCounts(s, c, id);
    assert TaskOk(s, c) && s.warden == Some(c);
    forall d | d in t.tasks ensures TaskOk(t, d) {
      if d != c { assert TaskOk(s, d) && !HasWarden(s.tasks[d]); }
    }
  }

  lemma DropCounts(s: System, c: Client)
    requires Inv(s) && TaskOf(s, c).Handle? && Next(s, DropHandle(c)).Some?
    ensures CountsOk(Next(s, DropHandle(c)).value)
  {
    var t := Next(s, DropHandle(c)).value;
    forall b | 0 <= b < |t.strong| ensures t.strong[b] == |Holders(t.tasks, b)| + RegistryShare(t, b) {
      HoldersMove(s.tasks, c, t.tasks[c], b);
    }
  }

  lemma DropOther(s: System, c: Client, d: Client)
    requires Inv(s) && TaskOf(s, c).Handle? && Next(s, DropHandle(c)).Some? && d in s.tasks && d != c
    ensures TaskOk(Next(s, DropHandle(c)).value, d)
  {
    var t := Next(s, DropHandle(c)).value;
    assert TaskOk(s, d) && t.tasks[d] == s.tasks[d];
    assert t.realms == s.realms && t.realmLock == s.realmLock && t.warden == s.warden && t.halted == s.halted;
    if Deleting(s.tasks[d]) { HoldersMove(s.tasks, c, t.tasks[c], t.tasks[d].arc); }
  }

  lemma DropOwn(s: System, c: Client)
    requires Inv(s) && TaskOf(s, c).Handle? && Next(s, DropHandle(c)).Some?
    ensures TaskOk(Next(s, DropHandle(c)).value, c)
  {
    assert TaskOk(s, c);
  }

  lemma DropKeeps(s: System, c: Client)
    requires Inv(s) && TaskOf(s, c).Handle? && Next(s, DropHandle(c)).Some?
    ensures Inv(Next(s, DropHandle(c)).value)
  {
    var t := Next(s, DropHandle(c)).value;
    DropCounts(s, c);
    forall d | d in t.tasks ensures TaskOk(t, d) {
      if d == c { DropOwn(s, c); } else { DropOther(s, c, d); }
    }
    assert TaskOk(s, c);
  }

  lemma CreateKeeps(s: System, c: Client, id: Uuid)
    requires Inv(s) && TaskOf(s, c) == InWarden(Create(id)) && id !in s.realms
    ensures Inv(DoInWarden(s, c, Create(id), true))
  {
    var t := DoInWarden(s, c, Create(id), true);
    var newest := |s.strong|;
    assert TaskOk(s, c);
    MoveKeepsHolders(s.tasks, c, Idle);
    assert newest in t.realms.Values by { assert t.realms[id] == newest; }
    forall b | b in s.realms.Values ensures b in t.realms.Values && b < newest {
      var u :| u in s.realms && s.realms[u] == b;
      assert t.realms[u] == b;
    }
    forall b | b in t.realms.Values && b != newest ensures b in s.realms.Values {
      var u :| u in t.realms && t.realms[u] == b;
      assert s.realms[u] == b;
    }
    assert Holders(s.tasks, newest) == {} by {
      forall d | d in s.tasks ensures !Holds(s.tasks[d], newest) { assert TaskOk(s, d); }
    }
    forall b | 0 <= b < |t.strong| ensures t.strong[b] == |Holders(t.tasks, b)| + RegistryShare(t, b) {
    }
    forall d | d in t.tasks ensures TaskOk(t, d) {
      if d != c { assert TaskOk(s, d); }
    }
  }

  lemma RemoveKeeps(s: System, c: Client, id: Uuid, a: Arc)
    requires Inv(s) && TaskOf(s, c) == Removing(id, a)
    ensures Inv(DoRemove(s, c, id, a))
  {
    var t := DoRemove(s, c, id, a);
    assert TaskOk(s, c);
    assert RegistryShare(s, a) == 1;
    MoveKeepsHolders(s.tasks, c, Idle);
    forall b ensures b in t.realms.Values <==> b in s.realms.Values && b != a {
      if b in s.realms.Values && b != a {
        var u :| u in s.realms && s.realms[u] == b;
        assert t.realms[u] == b;
      }
    }
    forall d | d in t.tasks ensures TaskOk(t, d) {
      if d != c {
        assert TaskOk(s, d);
        assert !Holds(t.tasks[d], a) by { assert d !in Holders(s.tasks, a); }
      }
    }
  }

  /** An action of task c that moves no handle, and leaves the registry and the counts as they were. */
  lemma QuietKeeps(s: System, c: Client, t: System)
    requires Inv(s) && c in t.tasks && t.tasks == s.tasks[c := t.tasks[c]]
    requires forall a :: Holds(t.tasks[c], a) <==> Holds(TaskOf(s, c), a)
    requires t.realms == s.realms && t.strong == s.strong && !t.panicked && !t.removedActive
    requires LocksOk(t) && (HasWarden(t.tasks[c]) <==> t.warden == Some(c))
    requires forall a :: HasRealm(t.tasks[c], a) ==> a in t.realmLock && t.realmLock[a] == c
    requires forall d :: d != c ==> (s.warden == Some(d) <==> t.warden == Some(d))
    requires forall a :: a in s.realmLock && s.realmLock[a] != c ==> a in t.realmLock && t.realmLock[a] == s.realmLock[a]
    requires forall d :: d in t.tasks && t.tasks[d].Removing? ==> t.tasks[d].arc in t.halted
    requires Deleting(t.tasks[c]) ==>
      var task := t.tasks[c];
      task.id in s.realms && s.realms[task.id] == task.arc && Holders(s.tasks, task.arc) == {}
    requires t.tasks[c].AppHandle? ==> t.tasks[c].arc < |s.strong|
    ensures Inv(t)
  {
    forall a | Holds(TaskOf(s, c), a) ensures a in s.realms.Values { assert TaskOk(s, c); }
    MoveKeepsHolders(s.tasks, c, t.tasks[c]);
    forall d | d in t.tasks ensures TaskOk(t, d) {
      if d != c { assert TaskOk(s, d); }
    }
  }

  lemma WardenKeeps(s: System, action: Action)
    requires Inv(s) && (action.LockWarden? || action.UnlockWarden?) && Next(s, action).Some?
    ensures Inv(Next(s, action).value)
  {
    var c, t := action.c, Next(s, action).value;
    if c in s.tasks { assert TaskOk(s, c); }
    forall d | d in t.tasks ensures t.tasks[d].Removing? ==> t.tasks[d].arc in t.halted {
      if d in s.tasks { assert TaskOk(s, d); }
    }
    QuietKeeps(s, c, t);
  }

  /** A task that leaves the warden lock with the registry unchanged, or goes on to wait for a realm lock. */
  lemma InWardenKeeps(s: System, c: Client, task: Task)
    requires Inv(s) && TaskOf(s, c).InWarden? && (task.Idle? || task.AwaitView? || task.AwaitRealm?)
    requires task.AwaitRealm? ==> task.id in s.realms && s.realms[task.id] == task.arc && s.strong[task.arc] == 1
    ensures Inv(Move(s, c, task).(warden := if task.Idle? then None else s.warden))
  {
    var t := Move(s, c, task).(warden := if task.Idle? then None else s.warden);
    assert TaskOk(s, c);
    if task.AwaitRealm? {
      assert task.arc in s.realms.Values && |Holders(s.tasks, task.arc)| == 0;
    }
    forall d | d in t.tasks ensures t.tasks[d].Removing? ==> t.tasks[d].arc in t.halted {
      if d in s.tasks { assert TaskOk(s, d); }
    }
    QuietKeeps(s, c, t);
  }

  lemma LockRealmKeeps(s: System, c: Client)
    requires Inv(s) && Next(s, LockRealm(c)).Some?
    ensures Inv(Next(s, LockRealm(c)).value)
  {
    var t := Next(s, LockRealm(c)).value;
    assert TaskOk(s, c);
    forall d | d in t.tasks ensures t.tasks[d].Removing? ==> t.tasks[d].arc in t.halted {
      if d in s.tasks { assert TaskOk(s, d); }
    }
    QuietKeeps(s, c, t);
  }

  lemma UnlockKeeps(s: System, c: Client)
    requires Inv(s) && Next(s, UnlockRealm(c)).Some?
    ensures Inv(Next(s, UnlockRealm(c)).value)
  {
    var t := Next(s, UnlockRealm(c)).value;
    assert TaskOk(s, c);
    forall d | d in t.tasks ensures t.tasks[d].Removing? ==> t.tasks[d].arc in t.halted {
      if d != c { assert TaskOk(s, d); }
    }
    QuietKeeps(s, c, t);
  }

  lemma DecideKeeps(s: System, c: Client, dataOk: bool)
    requires Inv(s) && Next(s, DecideDestroy(c, dataOk)).Some?
    ensures Inv(Next(s, DecideDestroy(c, dataOk)).value)
  {
    var t := Next(s, DecideDestroy(c, dataOk)).value;
    assert TaskOk(s, c);
    forall d | d in t.tasks ensures t.tasks[d].Removing? ==> t.tasks[d].arc in t.halted {
      if d != c { assert TaskOk(s, d); }
    }
    QuietKeeps(s, c, t);
  }

  lemma InRealmKeeps(s: System, action: Action)
    requires Inv(s) && (action.Operate? || action.TakeApplication?) && Next(s, action).Some?
    ensures Inv(Next(s, action).value)
  {
    var c, t := action.c, Next(s, action).value;
    assert TaskOk(s, c);
    assert c in Holders(s.tasks, TaskOf(s, c).arc);
    forall d | d in t.tasks ensures t.tasks[d].Removing? ==> t.tasks[d].arc in t.halted {
      if d != c { assert TaskOk(s, d); }
    }
    assert t.tasks == s.tasks[c := t.tasks[c]];
    QuietKeeps(s, c, t);
  }

  lemma NextKeeps(s: System, action: Action)
    requires Inv(s) && Next(s, action).Some?
    ensures Inv(Next(s, action).value)
  {
    var c := action.c;
    var task := TaskOf(s, c);
    var t := Next(s, action).value;
    match action
    case InWardenStep(_, _) =>
      if task.errand.Get? && task.errand.id in s.realms {
        CloneKeeps(s, c, task.errand.id);
      } else if task.errand.Create? && t.strong != s.strong {
        CreateKeeps(s, c, task.errand.id);
      } else {
        InWardenKeeps(s, c, t.tasks[c]);
      }
    case LockWarden(_, _) => WardenKeeps(s, action);
    case UnlockWarden(_) => WardenKeeps(s, action);
    case LockRealm(_) => LockRealmKeeps(s, c);
    case UnlockRealm(_) => UnlockKeeps(s, c);
    case DecideDestroy(_, dataOk) => DecideKeeps(s, c, dataOk);
    case Operate(_, _) => InRealmKeeps(s, action);
    case TakeApplication(_) => InRealmKeeps(s, action);
    case Remove(_) => RemoveKeeps(s, c, task.id, task.arc);
    case DropHandle(_) =>
      if task.Handle? { DropKeeps(s, c); } else { DropApplicationKeeps(s, c); }
  }

  lemma DropApplicationKeeps(s: System, c: Client)
    requires Inv(s) && TaskOf(s, c).AppHandle?
    ensures Inv(Next(s, DropHandle(c)).value)
  {
    var t := Next(s, DropHandle(c)).value;
    assert TaskOk(s, c);
    forall d | d in t.tasks ensures t.tasks[d].Removing? ==> t.tasks[d].arc in t.halted {
      if d in s.tasks { assert TaskOk(s, d); }
    }
    QuietKeeps(s, c, t);
  }

  lemma {:induction false} RunKeepsFrom(s: System, actions: seq<Action>)
    requires Inv(s) && Run(s, actions).Some?
    ensures Inv(Run(s, actions).value)
    decreases |actions|
  {
    if actions != [] {
      NextKeeps(s, actions[0]);
      RunKeepsFrom(Next(s, actions[0]).value, actions[1..]);
    }
  }

  lemma RunKeeps(actions: seq<Action>)
    requires Run(Init, actions).Some?
    ensures Inv(Run(Init, actions).value)
  {
    RunKeepsFrom(Init, actions);
  }

  // ----- what every run guarantees -----

  /** The strong count is exact, so `Arc::into_inner` never finds a second handle, and only halted realms are removed. */
  lemma DestroyNeverPanics(actions: seq<Action>)
    requires Run(Init, actions).Some?
    ensures var s := Run(Init, actions).value;
      && !s.panicked
      && !s.removedActive
      && forall a :: 0 <= a < |s.strong| ==> s.strong[a] == |Holders(s.tasks, a)| + RegistryShare(s, a)
  {
    RunKeeps(actions);
  }

  /** No task ever holds a handle to a realm that is not, or no longer, in the registry. */
  lemma HandlesStayRegistered(actions: seq<Action>, a: Arc)
    requires Run(Init, actions).Some? && a !in Run(Init, actions).value.realms.Values
    ensures Holders(Run(Init, actions).value.tasks, a) == {}
  {
    RunKeeps(actions);
    var s := Run(Init, actions).value;
    forall c | c in s.tasks ensures !Holds(s.tasks[c], a) {
      assert TaskOk(s, c);
    }
  }

  lemma {:induction false} RunConcat(s: System, first: seq<Action>, second: seq<Action>)
    requires Run(s, first).Some?
    ensures Run(s, first + second) == Run(Run(s, first).value, second)
    decreases |first|
  {
    if first == [] {
      assert first + second == second;
    } else {
      assert (first + second)[0] == first[0] && (first + second)[1..] == first[1..] + second;
      RunConcat(Next(s, first[0]).value, first[1..], second);
    }
  }

  /** A run is found by giving the states it passes through. */
  lemma {:induction false} RunThrough(states: seq<System>, actions: seq<Action>)
    requires |states| == |actions| + 1
    requires forall i :: 0 <= i < |actions| ==> Next(states[i], actions[i]) == Some(states[i + 1])
    ensures Run(states[0], actions) == Some(states[|actions|])
    decreases |actions|
  {
    if actions != [] {
      RunThrough(states[1..], actions[1..]);
    }
  }

  /** What a client finds under the warden lock: a handle or a view exactly of a registered realm, a destruction exactly if nobody has a handle. */
  lemma ErrandsMean(s: System, c: Client, e: Errand, fabricOk: bool)
    requires Inv(s)
    ensures var t := DoInWarden(s, c, e, fabricOk);
      match e
      case Get(id) => t.tasks[c].Cloned? <==> id in s.realms
      case View(id) => t.tasks[c].AwaitView? <==> id in s.realms
      case Create(id) =>
        && t.realms.Keys == s.realms.Keys + (if fabricOk then {id} else {})
        && (forall u :: u in s.realms ==> t.realms[u] == s.realms[u])
        && (fabricOk && id !in s.realms ==> t.realms[id] !in s.realms.Values && t.realms[id] in t.halted)
      case Destroy(id) => t.tasks[c].AwaitRealm? <==> id in s.realms && Holders(s.tasks, s.realms[id]) == {}
  {
    if e.Destroy? && e.id in s.realms {
      var a := s.realms[e.id];
      assert a in s.realms.Values && s.strong[a] == |Holders(s.tasks, a)| + 1;
    }
  }

  /** A destruction that has looked at the realm goes on to remove it exactly if its data could be read and it is halted. */
  lemma RemovalFollowsIff(s: System, c: Client, dataOk: bool)
    requires TaskOf(s, c).Inspecting?
    ensures Next(s, DecideDestroy(c, dataOk)).Some?
    ensures Next(Next(s, DecideDestroy(c, dataOk)).value, Remove(c)).Some? <==> dataOk && TaskOf(s, c).arc in s.halted
  {
  }

  // ----- application handles -----

  predicate HasApplication(t: Task) {
    t.AppHandle? || ((t.Handle? || t.InRealm?) && t.app)
  }

  /** An application is handed out only by an active realm, to the client that has its lock. */
  lemma TakenFromActiveRealm(s: System, action: Action, c: Client)
    requires Next(s, action).Some? && HasApplication(TaskOf(Next(s, action).value, c)) && !HasApplication(TaskOf(s, c))
    ensures TaskOf(s, c).InRealm? && TaskOf(s, c).arc !in s.halted && action == TakeApplication(c)
  {
    if c != action.c { OthersKeepTheirTask(s, action, c); }
  }

  /** The client has an application of a realm that is no longer registered. */
  predicate Orphaned(s: System, c: Client) {
    TaskOf(s, c).AppHandle? && TaskOf(s, c).arc !in s.realms.Values
  }

  /** The realm whose application the client has is taken out of the registry. */
  predicate Orphans(s: System, action: Action, c: Client) {
    action.Remove? && TaskOf(s, action.c).Removing? && TaskOf(s, c) == AppHandle(TaskOf(s, action.c).arc)
  }

  lemma RealmsOrOneMore(s: System, action: Action)
    requires Next(s, action).Some? && !action.Remove?
    ensures var t := Next(s, action).value;
      t.realms == s.realms || (action.InWardenStep? && exists u: Uuid :: u !in s.realms && t.realms == s.realms[u := |s.strong|])
  {
    if action.InWardenStep? && TaskOf(s, action.c).errand.Create? {
      assert TaskOf(s, action.c).errand.id !in s.realms || Next(s, action).value.realms == s.realms;
    }
  }

  lemma SameRealms(s: System, action: Action)
    requires Next(s, action).Some? && !action.Remove?
    ensures var t := Next(s, action).value;
      && (forall a :: a in s.realms.Values ==> a in t.realms.Values)
      && (forall a :: a in t.realms.Values ==> a in s.realms.Values || a >= |s.strong|)
  {
    RealmsOrOneMore(s, action);
    var t := Next(s, action).value;
    if t.realms != s.realms {
      var v: Uuid :| v !in s.realms && t.realms == s.realms[v := |s.strong|];
      OneMoreRealm(s.realms, v, |s.strong|);
    }
  }

  lemma OneMoreRealm(realms: map<Uuid, Arc>, v: Uuid, newest: Arc)
    requires v !in realms
    ensures forall a :: a in realms.Values ==> a in realms[v := newest].Values
    ensures forall a :: a in realms[v := newest].Values ==> a in realms.Values || a == newest
  {
    forall a | a in realms.Values ensures a in realms[v := newest].Values {
      var u :| u in realms && realms[u] == a;
      assert realms[v := newest][u] == a;
    }
  }

  lemma OtherRealmsStay(s: System, action: Action)
    requires Inv(s) && action.Remove? && Next(s, action).Some?
    ensures forall a :: a in Next(s, action).value.realms.Values <==> a in s.realms.Values && a != TaskOf(s, action.c).arc
  {
    var t, task := Next(s, action).value, TaskOf(s, action.c);
    assert TaskOk(s, action.c);
    forall a | a in s.realms.Values && a != task.arc ensures a in t.realms.Values {
      var u :| u in s.realms && s.realms[u] == a;
      assert u in t.realms && t.realms[u] == a;
    }
  }

  lemma OthersKeepTheirTask(s: System, action: Action, d: Client)
    requires Next(s, action).Some? && d != action.c
    ensures TaskOf(Next(s, action).value, d) == TaskOf(s, d)
  {
    match action
    case InWardenStep(c, fabricOk) => OthersInWarden(s, c, TaskOf(s, c).errand, fabricOk, d);
    case LockRealm(c) => OthersAtRealm(s, c, d);
    case Remove(c) => OthersAtRemoval(s, c, TaskOf(s, c).id, TaskOf(s, c).arc, d);
    case _ => OthersElsewhere(s, action, d);
  }

  lemma OthersElsewhere(s: System, action: Action, d: Client)
    requires Next(s, action).Some? && d != action.c && !action.InWardenStep? && !action.LockRealm? && !action.Remove?
    ensures TaskOf(Next(s, action).value, d) == TaskOf(s, d)
  {}

  lemma OthersAtRealm(s: System, c: Client, d: Client)
    requires d != c && DoLockRealm(s, c).Some?
    ensures TaskOf(DoLockRealm(s, c).value, d) == TaskOf(s, d)
  {}

  lemma OthersAtRemoval(s: System, c: Client, id: Uuid, a: Arc, d: Client)
    requires d != c
    ensures TaskOf(DoRemove(s, c, id, a), d) == TaskOf(s, d)
  {}

  lemma OthersInWarden(s: System, c: Client, e: Errand, fabricOk: bool, d: Client)
    requires d != c
    ensures TaskOf(DoInWarden(s, c, e, fabricOk), d) == TaskOf(s, d)
  {}

  lemma OwnApplicationHandle(s: System, action: Action)
    requires Next(s, action).Some?
    ensures TaskOf(Next(s, action).value, action.c).AppHandle? <==>
      action.DropHandle? && TaskOf(s, action.c).Handle? && TaskOf(s, action.c).app
    ensures TaskOf(Next(s, action).value, action.c).AppHandle? ==> TaskOf(Next(s, action).value, action.c).arc == TaskOf(s, action.c).arc
  {}

  lemma OrphanedIff(s: System, action: Action, c: Client)
    requires Inv(s) && Next(s, action).Some?
    ensures Orphaned(Next(s, action).value, c) <==> Orphans(s, action, c) || (Orphaned(s, c) && action != DropHandle(c))
  {
    if c in s.tasks { assert TaskOk(s, c); }
    if action.Remove? { OtherRealmsStay(s, action); } else { SameRealms(s, action); }
    if c == action.c {
      OwnApplicationHandle(s, action);
      assert TaskOf(s, c).Handle? ==> Holds(TaskOf(s, c), TaskOf(s, c).arc);
      if TaskOf(s, c).AppHandle? { OnlyDropIsLeft(s, action); }
    } else {
      OthersKeepTheirTask(s, action, c);
    }
  }

  lemma OnlyDropIsLeft(s: System, action: Action)
    requires Next(s, action).Some? && TaskOf(s, action.c).AppHandle?
    ensures action.DropHandle?
  {}

  ghost predicate IsTrace(trace: seq<System>, actions: seq<Action>) {
    && |trace| == |actions| + 1 && trace[0] == Init
    && forall i :: 0 <= i < |actions| ==> Next(trace[i], actions[i]) == Some(trace[i + 1])
  }

  lemma {:induction false} TraceKeeps(trace: seq<System>, actions: seq<Action>, n: nat)
    requires IsTrace(trace, actions) && n < |trace|
    ensures Inv(trace[n])
    decreases n
  {
    if n > 0 {
      TraceKeeps(trace, actions, n - 1);
      NextKeeps(trace[n - 1], actions[n - 1]);
    }
  }

  function Sets(trace: seq<System>, actions: seq<Action>, c: Client): seq<bool>
    requires |trace| == |actions| + 1
  {
    seq(|actions|, i requires 0 <= i < |actions| => Orphans(trace[i], actions[i], c))
  }

  function Drops(actions: seq<Action>, c: Client): seq<bool> {
    seq(|actions|, i requires 0 <= i < |actions| => actions[i] == DropHandle(c))
  }

  /** A client has an application of an unregistered realm exactly if it had it when the realm was removed, and has not dropped it since. */
  lemma OrphanAccount(trace: seq<System>, actions: seq<Action>, n: nat, c: Client)
    requires IsTrace(trace, actions) && n <= |actions|
    ensures Orphaned(trace[n], c) <==> SetBefore(Sets(trace, actions, c), Drops(actions, c), n)
  {
    var holds := seq(|trace|, i requires 0 <= i < |trace| => Orphaned(trace[i], c));
    var on, off := Sets(trace, actions, c), Drops(actions, c);
    forall k | 0 <= k < |actions| ensures holds[k + 1] == (on[k] || (holds[k] && !off[k])) {
      TraceKeeps(trace, actions, k);
      assert Next(trace[k], actions[k]) == Some(trace[k + 1]);
      OrphanedIff(trace[k], actions[k], c);
    }
    Latch(holds, on, off, n);
  }

  // ----- a run in which it happens -----

  /** A client visits a realm: it takes a handle, locks the realm, acts, and lets go of both. */
  function Visit(c: Client, act: Action): seq<Action> {
    [LockWarden(c, Get(7)), InWardenStep(c, true)] + [UnlockWarden(c), LockRealm(c)] + ([act] + [UnlockRealm(c), DropHandle(c)])
  }

  /** One registered realm that nobody uses. */
  predicate Quiet(s: System) {
    s.realms == map[7 := 0] && s.strong == [1] && s.warden.None? && s.realmLock == map[]
  }

  lemma MoveTwice(s: System, c: Client, t: Task, u: Task)
    ensures Move(s, c, t).tasks[c := u] == Move(s, c, u).tasks
  {}

  lemma GetWorks(s: System, c: Client)
    requires Quiet(s) && TaskOf(s, c).Idle?
    ensures Run(s, [LockWarden(c, Get(7)), InWardenStep(c, true)])
         == Some(Move(s, c, Cloned(0)).(strong := [2], warden := Some(c)))
  {
    assert s.strong[0 := 2] == [2];
    MoveTwice(s, c, InWarden(Get(7)), Cloned(0));
    var s1 := Move(s, c, InWarden(Get(7))).(warden := Some(c));
    var s2 := Move(s, c, Cloned(0)).(strong := [2], warden := Some(c));
    RunThrough([s, s1, s2], [LockWarden(c, Get(7)), InWardenStep(c, true)]);
  }

  lemma EnterWorks(s: System, c: Client)
    requires Quiet(s)
    ensures Run(Move(s, c, Cloned(0)).(strong := [2], warden := Some(c)), [UnlockWarden(c), LockRealm(c)])
         == Some(Move(s, c, InRealm(0, false)).(strong := [2], realmLock := map[0 := c]))
  {
    var s2 := Move(s, c, Cloned(0)).(strong := [2], warden := Some(c));
    MoveTwice(s, c, Cloned(0), Handle(0, false));
    var s3 := Move(s, c, Handle(0, false)).(strong := [2]);
    MoveTwice(s, c, Handle(0, false), InRealm(0, false));
    var s4 := Move(s, c, InRealm(0, false)).(strong := [2], realmLock := map[0 := c]);
    RunThrough([s2, s3, s4], [UnlockWarden(c), LockRealm(c)]);
  }

  lemma UnlockWorks(s: System, c: Client, app: bool)
    requires Quiet(s)
    ensures Next(Move(s, c, InRealm(0, app)).(strong := [2], realmLock := map[0 := c]), UnlockRealm(c))
         == Some(Move(s, c, Handle(0, app)).(strong := [2]))
  {
    MoveTwice(s, c, InRealm(0, app), Handle(0, app));
    assert map[0 := c] - {0} == map[];
  }

  lemma DropWorks(s: System, c: Client, app: bool)
    requires Quiet(s)
    ensures Next(Move(s, c, Handle(0, app)).(strong := [2]), DropHandle(c)) == Some(Move(s, c, if app then AppHandle(0) else Idle))
  {
    MoveTwice(s, c, Handle(0, app), if app then AppHandle(0) else Idle);
    assert [2][0 := 1] == [1];
  }

  lemma LeaveWorks(s: System, c: Client, app: bool)
    requires Quiet(s)
    ensures Run(Move(s, c, InRealm(0, app)).(strong := [2], realmLock := map[0 := c]), [UnlockRealm(c), DropHandle(c)])
         == Some(Move(s, c, if app then AppHandle(0) else Idle))
  {
    UnlockWorks(s, c, app);
    DropWorks(s, c, app);
    var s5 := Move(s, c, InRealm(0, app)).(strong := [2], realmLock := map[0 := c]);
    RunThrough([s5, Move(s, c, Handle(0, app)).(strong := [2]), Move(s, c, if app then AppHandle(0) else Idle)],
      [UnlockRealm(c), DropHandle(c)]);
  }

  /** The state a visit leads to. */
  function Visited(s: System, c: Client, act: Action): System {
    if act.Operate? then Move(s, c, Idle).(halted := if act.halts then s.halted + {0} else s.halted - {0})
    else Move(s, c, AppHandle(0))
  }

  lemma ActWorks(s: System, c: Client, act: Action)
    requires Quiet(s) && act.c == c && (act.Operate? || (act.TakeApplication? && 0 !in s.halted))
    ensures Next(Move(s, c, InRealm(0, false)).(strong := [2], realmLock := map[0 := c]), act)
         == Some(Move(s, c, InRealm(0, act.TakeApplication?)).(strong := [2], realmLock := map[0 := c], halted := Visited(s, c, act).halted))
  {
    MoveTwice(s, c, InRealm(0, false), InRealm(0, act.TakeApplication?));
  }

  lemma Chain(s: System, first: seq<Action>, t: System, second: seq<Action>, u: System)
    requires Run(s, first) == Some(t) && Run(t, second) == Some(u)
    ensures Run(s, first + second) == Some(u)
  {
    RunConcat(s, first, second);
  }

  lemma Entered(s: System, c: Client)
    requires Quiet(s) && TaskOf(s, c).Idle?
    ensures Run(s, [LockWarden(c, Get(7)), InWardenStep(c, true)] + [UnlockWarden(c), LockRealm(c)])
         == Some(Move(s, c, InRealm(0, false)).(strong := [2], realmLock := map[0 := c]))
  {
    GetWorks(s, c);
    EnterWorks(s, c);
    Chain(s, [LockWarden(c, Get(7)), InWardenStep(c, true)], Move(s, c, Cloned(0)).(strong := [2], warden := Some(c)),
      [UnlockWarden(c), LockRealm(c)], Move(s, c, InRealm(0, false)).(strong := [2], realmLock := map[0 := c]));
  }

  lemma VisitWorks(s: System, c: Client, act: Action)
    requires Quiet(s) && TaskOf(s, c).Idle? && act.c == c
    requires act.Operate? || (act.TakeApplication? && 0 !in s.halted)
    ensures Run(s, Visit(c, act)) == Some(Visited(s, c, act)) && Quiet(Visited(s, c, act))
  {
    var enter := [LockWarden(c, Get(7)), InWardenStep(c, true)] + [UnlockWarden(c), LockRealm(c)];
    var leave := [act] + [UnlockRealm(c), DropHandle(c)];
    Entered(s, c);
    ActAndLeave(s, c, act);
    Chain(s, enter, Move(s, c, InRealm(0, false)).(strong := [2], realmLock := map[0 := c]), leave, Visited(s, c, act));
  }

  lemma ActAndLeave(s: System, c: Client, act: Action)
    requires Quiet(s) && act.c == c && (act.Operate? || (act.TakeApplication? && 0 !in s.halted))
    ensures Run(Move(s, c, InRealm(0, false)).(strong := [2], realmLock := map[0 := c]), [act] + [UnlockRealm(c), DropHandle(c)])
         == Some(Visited(s, c, act))
  {
    var s4 := Move(s, c, InRealm(0, false)).(strong := [2], realmLock := map[0 := c]);
    var now := s.(halted := Visited(s, c, act).halted);
    var s5 := Move(now, c, InRealm(0, act.TakeApplication?)).(strong := [2], realmLock := map[0 := c]);
    ActWorks(s, c, act);
    OneAction(s4, act, s5);
    LeaveWorks(now, c, act.TakeApplication?);
    RunConcat(s4, [act], [UnlockRealm(c), DropHandle(c)]);
  }

  lemma OneAction(s: System, action: Action, t: System)
    requires Next(s, action) == Some(t)
    ensures Run(s, [action]) == Some(t)
  {
    assert Run(s, [action]) == Run(t, []);
  }

  lemma InspectWorks(s: System, c: Client)
    requires Quiet(s) && TaskOf(s, c).Idle?
    ensures Run(s, [LockWarden(c, Destroy(7)), InWardenStep(c, true), LockRealm(c)])
         == Some(Move(s, c, Inspecting(7, 0)).(warden := Some(c), realmLock := map[0 := c]))
  {
    var s1 := Move(s, c, InWarden(Destroy(7))).(warden := Some(c));
    MoveTwice(s, c, InWarden(Destroy(7)), AwaitRealm(7, 0));
    var s2 := Move(s, c, AwaitRealm(7, 0)).(warden := Some(c));
    MoveTwice(s, c, AwaitRealm(7, 0), Inspecting(7, 0));
    var s3 := Move(s, c, Inspecting(7, 0)).(warden := Some(c), realmLock := map[0 := c]);
    RunThrough([s, s1, s2, s3], [LockWarden(c, Destroy(7)), InWardenStep(c, true), LockRealm(c)]);
  }

  lemma RemoveWorks(s: System, c: Client)
    requires Quiet(s) && 0 in s.halted
    ensures Run(Move(s, c, Inspecting(7, 0)).(warden := Some(c), realmLock := map[0 := c]), [DecideDestroy(c, true), Remove(c)])
         == Some(Move(s, c, Idle).(realms := map[], strong := [0]))
  {
    var s3 := Move(s, c, Inspecting(7, 0)).(warden := Some(c), realmLock := map[0 := c]);
    MoveTwice(s, c, Inspecting(7, 0), Removing(7, 0));
    assert map[0 := c] - {0} == map[];
    var s4 := Move(s, c, Removing(7, 0)).(warden := Some(c));
    MoveTwice(s, c, Removing(7, 0), Idle);
    assert map[7 := 0] - {7} == map[] && [1][0 := 0] == [0];
    RunThrough([s3, s4, Move(s, c, Idle).(realms := map[], strong := [0])], [DecideDestroy(c, true), Remove(c)]);
  }

  function DestroyRun(c: Client): seq<Action> {
    [LockWarden(c, Destroy(7)), InWardenStep(c, true), LockRealm(c)] + [DecideDestroy(c, true), Remove(c)]
  }

  lemma DestroyWorks(s: System, c: Client)
    requires Quiet(s) && TaskOf(s, c).Idle? && 0 in s.halted
    ensures Run(s, DestroyRun(c)) == Some(Move(s, c, Idle).(realms := map[], strong := [0]))
  {
    InspectWorks(s, c);
    RemoveWorks(s, c);
    RunConcat(s, [LockWarden(c, Destroy(7)), InWardenStep(c, true), LockRealm(c)], [DecideDestroy(c, true), Remove(c)]);
  }

  /** It happens: one client starts the realm, another takes an application of it, the first stops and destroys the realm. */
  lemma ApplicationHandleOutlivesRealm() returns (actions: seq<Action>)
    ensures Run(Init, actions).Some?
    ensures Orphaned(Run(Init, actions).value, 1) && Run(Init, actions).value.realms == map[]
  {
    var create := [LockWarden(0, Create(7)), InWardenStep(0, true)];
    var s1 := Move(Init, 0, InWarden(Create(7))).(warden := Some(0));
    var s2 := Next(s1, create[1]).value;
    assert s2.strong == [1] && s2.realms == map[7 := 0] && Quiet(s2);
    RunThrough([Init, s1, s2], create);
    VisitWorks(s2, 0, Operate(0, false));
    var s3 := Visited(s2, 0, Operate(0, false));
    VisitWorks(s3, 1, TakeApplication(1));
    var s4 := Visited(s3, 1, TakeApplication(1));
    VisitWorks(s4, 0, Operate(0, true));
    var s5 := Visited(s4, 0, Operate(0, true));
    DestroyWorks(s5, 0);
    var started := create + Visit(0, Operate(0, false));
    RunConcat(Init, create, Visit(0, Operate(0, false)));
    RunConcat(Init, started, Visit(1, TakeApplication(1)));
    var stopped := started + Visit(1, TakeApplication(1)) + Visit(0, Operate(0, true));
    RunConcat(Init, started + Visit(1, TakeApplication(1)), Visit(0, Operate(0, true)));
    RunConcat(Init, stopped, DestroyRun(0));
    actions := stopped + DestroyRun(0);
  }
}
