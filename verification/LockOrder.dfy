/**
  Which mutexes each client command takes, and when a set of commands can block each other.

  A command is reduced to its lock program: the mutexes its longest path takes and drops, in
  order, with the tests of the realm's phase that it makes while it has the realm lock and the
  changes of phase it makes there. `Quit` stands for every other early return of the source: the
  command drops all its guards. Any number of commands run at once.
 */
module LockOrder {
  import opened Outcomes

  datatype Lock = Warden | Network | Realm(r: nat) | App(r: nat, a: nat) | Client(r: nat) | Connector

  /** A realm's state as far as commands test it; Active is Running or NeedReboot. */
  datatype Phase = Halted | Provisioning | Active

  type Phases = map<nat, Phase>

  /** Fork is prepare_applications: one spawned job per lock takes and drops it, and the parent waits for all. */
  datatype Prog =
    | Done
    | Take(lock: Lock, rest: Prog)
    | Drop(lock: Lock, rest: Prog)
    | Fork(locks: set<Lock>, rest: Prog)
    | Test(r: nat, in_: set<Phase>, rest: Prog)   // go on only if the realm is in one of the phases
    | Mark(r: nat, phase: Phase, rest: Prog)
    | Finish(r: nat, rest: Prog)                  // a start ends: the realm is Active, or Halted again

  datatype Command =
    | FetchToken(r: nat, halted: bool)
    | StartRealm(r: nat)
    | CreateRealm
    | StopRealm(r: nat)
    | DestroyRealm(r: nat, active: bool)
    | RebootRealm(r: nat)
    | InspectRealm(r: nat, active: bool)
    | ListRealms(realms: seq<bool>)  // which of the realms, in the order of the map, are active
    | CreateApplication(r: nat)
    | StartApplication(r: nat, a: nat)
    | StopApplication(r: nat, a: nat)
    | UpdateApplication(r: nat, a: nat)
    | AcceptConnection   // the vsock listener, which shares the connector lock

  /** The applications of every realm, in the order in which the map yields them. */
  type Apps = nat -> seq<nat>

  function AppLocks(apps: Apps, r: nat): set<Lock> {
    set a | a in apps(r) :: App(r, a)
  }

  /** Lock one application after the other, as create_provisioning_config does. */
  function Each(r: nat, apps: seq<nat>, rest: Prog): Prog {
    if apps == [] then rest else Take(App(r, apps[0]), Drop(App(r, apps[0]), Each(r, apps[1..], rest)))
  }

  function GetRealm(rest: Prog): Prog {
    Take(Warden, Drop(Warden, rest))
  }

  /** The commands that look the realm up, release the registry, lock the realm and test its phase. */
  function InRealm(r: nat, in_: set<Phase>, body: Prog): Prog {
    GetRealm(Take(Realm(r), Test(r, in_, body)))
  }

  /** A request to the realm: the client lock is held while it is sent and answered. */
  function Ask(r: nat, rest: Prog): Prog {
    Take(Client(r), Drop(Client(r), rest))
  }

  function Leave(r: nat): Prog {
    Drop(Realm(r), Done)
  }

  /** try_connect, called with the client lock held. */
  function Connect(rest: Prog): Prog {
    Take(Connector, Drop(Connector, rest))
  }

  /** get_realm_data: asks the realm for its addresses only when it is active. */
  function RealmData(r: nat, active: bool, rest: Prog): Prog {
    var leave := Drop(Realm(r), rest);
    Take(Realm(r), if active then Test(r, {Active}, Ask(r, leave)) else Test(r, {Halted, Provisioning}, leave))
  }

  /** The tap device of a realm is made or removed while the warden lock is held. */
  function SetUpNetwork(): Prog {
    var leave := Drop(Warden, Done);
    Take(Network, Drop(Network, leave))
  }

  /** destroy_realm: an active realm is asked for its data and then refused. */
  function Destroy(r: nat, active: bool): Prog {
    if active then RealmData(r, true, Drop(Warden, Done))
    else Take(Realm(r), Test(r, {Halted}, Drop(Realm(r), SetUpNetwork())))
  }

  function ListFrom(active: seq<bool>, r: nat): Prog {
    if active == [] then Drop(Warden, Done) else RealmData(r, active[0], ListFrom(active[1..], r + 1))
  }

  /** start or stop of an application; an unknown application is refused while the realm is locked. */
  function OnApplication(apps: Apps, r: nat, a: nat): Prog {
    var body := if a in apps(r) then Take(App(r, a), Ask(r, Drop(App(r, a), Done))) else Done;
    InRealm(r, {Active}, Drop(Realm(r), body))
  }

  /** What start and reboot share: provisioning data is gathered while the client lock is held. */
  function Provision(apps: Apps, r: nat, last: Prog): Prog {
    var tail := Connect(Drop(Client(r), last));
    Take(Client(r), Each(r, apps(r), tail))
  }

  function Starting(apps: Apps, r: nat): Prog {
    var last := Finish(r, Leave(r));
    Fork(AppLocks(apps, r), Mark(r, Provisioning, Provision(apps, r, last)))
  }

  function Rebooting(apps: Apps, r: nat): Prog {
    Provision(apps, r, Mark(r, Active, Leave(r)))
  }

  function Fetching(apps: Apps, r: nat): Prog {
    var again := Ask(r, Leave(r));
    var connected := Connect(Drop(Client(r), again));
    Fork(AppLocks(apps, r), Take(Client(r), connected))
  }

  function Program(c: Command, apps: Apps): Prog {
    match c
    case FetchToken(r, halted) => if halted then InRealm(r, {Halted}, Fetching(apps, r)) else InRealm(r, {Active}, Ask(r, Leave(r)))
    case StartRealm(r) => InRealm(r, {Halted}, Starting(apps, r))
    case CreateRealm => Take(Warden, SetUpNetwork())
    case StopRealm(r) => InRealm(r, {Active}, Ask(r, Mark(r, Halted, Leave(r))))
    case DestroyRealm(r, active) => Take(Warden, Destroy(r, active))
    case RebootRealm(r) => InRealm(r, {Active}, Rebooting(apps, r))
    case InspectRealm(r, active) => Take(Warden, RealmData(r, active, Drop(Warden, Done)))
    case ListRealms(realms) => Take(Warden, ListFrom(realms, 0))
    case CreateApplication(r) => InRealm(r, {Halted}, Leave(r))
    case StartApplication(r, a) => OnApplication(apps, r, a)
    case StopApplication(r, a) => OnApplication(apps, r, a)
    case UpdateApplication(r, a) =>
      var body := if a in apps(r) then Take(App(r, a), Drop(App(r, a), Leave(r))) else Leave(r);
      InRealm(r, {Halted, Active}, body)
    case AcceptConnection => Connect(Done)
  }

  // ----- running programs side by side -----

  /** A command under way: what it still has to do, the guards it has, and the guards its spawned jobs have. */
  datatype Task = Task(prog: Prog, held: set<Lock>, forked: set<Lock>)

  datatype System = System(tasks: seq<Task>, phases: Phases)

  datatype Move =
    | Step(i: nat)
    | ForkTake(i: nat, lock: Lock)
    | ForkDrop(i: nat, lock: Lock)
    | Refuse(i: nat)   // the realm is not in a phase that the command accepts
    | Fail(i: nat)     // the realm did not start
    | Quit(i: nat)

  predicate Free(s: seq<Task>, l: Lock) {
    forall i :: 0 <= i < |s| ==> l !in s[i].held && l !in s[i].forked
  }

  predicate InPhase(phases: Phases, r: nat, in_: set<Phase>) {
    r in phases && phases[r] in in_
  }

  /** What is held after one operation. */
  function Now(p: Prog, held: set<Lock>): set<Lock> {
    if p.Take? then held + {p.lock} else if p.Drop? then held - {p.lock} else held
  }

  /** The phases after one operation. */
  function NowPhases(p: Prog, phases: Phases): Phases {
    if p.Mark? then phases[p.r := p.phase] else if p.Finish? then phases[p.r := Active] else phases
  }

  predicate CanStep(s: System, t: Task) {
    match t.prog
    case Done => false
    case Take(l, _) => Free(s.tasks, l)
    case Fork(locks, _) => locks == {}
    case Test(r, in_, _) => InPhase(s.phases, r, in_)
    case _ => true
  }

  function Next(s: System, m: Move): Option<System> {
    if m.i >= |s.tasks| then None
    else
      var t := s.tasks[m.i];
      match m
      case Quit(i) => Some(s.(tasks := s.tasks[i := Task(Done, {}, {})]))
      case Refuse(i) =>
        if t.prog.Test? && !CanStep(s, t) then Some(s.(tasks := s.tasks[i := Task(Done, {}, {})])) else None
      case Fail(i) =>
        if t.prog.Finish?
        then Some(System(s.tasks[i := Task(t.prog.rest, t.held, t.forked)], s.phases[t.prog.r := Halted]))
        else None
      case ForkTake(i, l) =>
        if t.prog.Fork? && l in t.prog.locks && Free(s.tasks, l)
        then Some(s.(tasks := s.tasks[i := t.(forked := t.forked + {l})])) else None
      case ForkDrop(i, l) =>
        if t.prog.Fork? && l in t.forked
        then Some(s.(tasks := s.tasks[i := t.(forked := t.forked - {l}, prog := Fork(t.prog.locks - {l}, t.prog.rest))]))
        else None
      case Step(i) =>
        if CanStep(s, t)
        then Some(System(s.tasks[i := Task(t.prog.rest, Now(t.prog, t.held), t.forked)], NowPhases(t.prog, s.phases)))
        else None
  }

  function Run(s: System, moves: seq<Move>): Option<System>
    decreases |moves|
  {
    if moves == [] then Some(s)
    else
      var next := Next(s, moves[0]);
      if next.None? then None else Run(next.value, moves[1..])
  }

  function Begin(commands: seq<Command>, apps: Apps, phases: Phases): System {
    System(seq(|commands|, i requires 0 <= i < |commands| => Task(Program(commands[i], apps), {}, {})), phases)
  }

  /** The locks a command is waiting for, itself or through its spawned jobs. */
  function Wanted(t: Task): set<Lock> {
    if t.prog.Take? then {t.prog.lock} else if t.prog.Fork? then t.prog.locks - t.forked else {}
  }

  ghost predicate WaitsFor(t: Task, other: Task) {
    exists l :: l in Wanted(t) && l in other.held
  }

  /** Every command of the cycle waits for a lock that the next one holds. */
  ghost predicate CircularWait(s: seq<Task>, cycle: seq<nat>) {
    && cycle != []
    && (forall k :: 0 <= k < |cycle| ==> cycle[k] < |s|)
    && (forall k :: 0 <= k < |cycle| - 1 ==> WaitsFor(s[cycle[k]], s[cycle[k + 1]]))
    && WaitsFor(s[cycle[|cycle| - 1]], s[cycle[0]])
  }

  // ----- programs that respect an order -----

  /** The lock order; in a `swapped` realm the client lock comes before the application locks. */
  function Rank(l: Lock, swapped: set<nat>): nat {
    match l
    case Warden => 0
    case Realm(_) => 1
    case App(r, _) => if r in swapped then 3 else 2
    case Client(r) => if r in swapped then 2 else 3
    case Connector => 4
    case Network => 5
  }

  predicate Above(l: Lock, held: set<Lock>, swapped: set<nat>) {
    forall h :: h in held ==> Rank(h, swapped) < Rank(l, swapped)
  }

  /** A command takes only locks above all it holds, drops only what it holds, and ends with nothing. */
  predicate Ordered(p: Prog, held: set<Lock>, swapped: set<nat>) {
    match p
    case Done => held == {}
    case Take(l, rest) => Above(l, held, swapped) && Ordered(rest, held + {l}, swapped)
    case Drop(l, rest) => l in held && Ordered(rest, held - {l}, swapped)
    case Fork(locks, rest) =>
      && (forall l :: l in locks ==> Above(l, held, swapped)) && (forall h :: h in held ==> !h.Client?)
      && Ordered(rest, held, swapped)
    case Test(_, _, rest) => Ordered(rest, held, swapped)
    case Mark(_, _, rest) => Ordered(rest, held, swapped)
    case Finish(_, rest) => Ordered(rest, held, swapped)
  }

  predicate TaskOk(t: Task, swapped: set<nat>) {
    && Ordered(t.prog, t.held, swapped)
    && (if t.prog.Fork? then t.forked <= t.prog.locks else t.forked == {})
  }

  lemma NextKeepsTask(s: System, m: Move, k: nat, swapped: set<nat>)
    requires k < |s.tasks| && TaskOk(s.tasks[k], swapped) && Next(s, m).Some?
    ensures k < |Next(s, m).value.tasks| && TaskOk(Next(s, m).value.tasks[k], swapped)
  {}

  lemma {:induction false} RunKeepsTask(s: System, moves: seq<Move>, k: nat, swapped: set<nat>)
    requires k < |s.tasks| && TaskOk(s.tasks[k], swapped) && Run(s, moves).Some?
    ensures k < |Run(s, moves).value.tasks| && TaskOk(Run(s, moves).value.tasks[k], swapped)
    decreases |moves|
  {
    if moves != [] {
      NextKeepsTask(s, moves[0], k, swapped);
      RunKeepsTask(Next(s, moves[0]).value, moves[1..], k, swapped);
    }
  }

  lemma {:induction false} RunKeepsCount(s: System, moves: seq<Move>)
    requires Run(s, moves).Some?
    ensures |Run(s, moves).value.tasks| == |s.tasks|
    decreases |moves|
  {
    if moves != [] { RunKeepsCount(Next(s, moves[0]).value, moves[1..]); }
  }

  /** What matters of the order in one state: whatever is wanted lies above everything held. */
  predicate Local(t: Task, swapped: set<nat>) {
    && (forall w :: w in Wanted(t) ==> Above(w, t.held, swapped))
    && (if t.prog.Fork? then t.forked <= t.prog.locks else t.forked == {})
    && (t.prog.Done? ==> t.held == {})
  }

  predicate AllLocal(s: seq<Task>, swapped: set<nat>) {
    forall i :: 0 <= i < |s| ==> Local(s[i], swapped)
  }

  /** Along a chain of waiting commands the wanted locks rise. */
  lemma {:induction false} ChainRises(s: seq<Task>, chain: seq<nat>, h: Lock, w: Lock, swapped: set<nat>)
    requires AllLocal(s, swapped) && chain != []
    requires forall k :: 0 <= k < |chain| ==> chain[k] < |s|
    requires forall k :: 0 <= k < |chain| - 1 ==> WaitsFor(s[chain[k]], s[chain[k + 1]])
    requires h in s[chain[0]].held && w in Wanted(s[chain[|chain| - 1]])
    ensures Rank(h, swapped) < Rank(w, swapped)
    decreases |chain|
  {
    assert Local(s[chain[0]], swapped);
    if |chain| > 1 {
      assert WaitsFor(s[chain[0]], s[chain[1]]);
      var l :| l in Wanted(s[chain[0]]) && l in s[chain[1]].held;
      ChainRises(s, chain[1..], l, w, swapped);
    }
  }

  lemma NoCircularWait(s: seq<Task>, cycle: seq<nat>, swapped: set<nat>)
    requires AllLocal(s, swapped)
    ensures !CircularWait(s, cycle)
  {
    if CircularWait(s, cycle) {
      var l :| l in Wanted(s[cycle[|cycle| - 1]]) && l in s[cycle[0]].held;
      ChainRises(s, cycle, l, l, swapped);
    }
  }

  /** In an ordered state with work left, some command can go on without quitting. */
  lemma SomeoneCanMoveAbove(s: System, i: nat, floor: nat, swapped: set<nat>) returns (m: Move)
    requires AllLocal(s.tasks, swapped) && i < |s.tasks| && !s.tasks[i].prog.Done?
    requires floor <= 6 && forall w :: w in Wanted(s.tasks[i]) ==> floor <= Rank(w, swapped)
    ensures Next(s, m).Some? && !m.Quit?
    decreases 6 - floor
  {
    var t := s.tasks[i];
    assert Local(t, swapped);
    if t.forked != {} {
      var l :| l in t.forked;
      m := ForkDrop(i, l);
    } else if Wanted(t) == {} {
      m := if t.prog.Test? && !CanStep(s, t) then Refuse(i) else Step(i);
    } else {
      var l :| l in Wanted(t);
      if Free(s.tasks, l) {
        m := if t.prog.Take? then Step(i) else ForkTake(i, l);
      } else {
        var j :| 0 <= j < |s.tasks| && (l in s.tasks[j].held || l in s.tasks[j].forked);
        assert Local(s.tasks[j], swapped);
        if l in s.tasks[j].forked {
          m := ForkDrop(j, l);
        } else {
          m := SomeoneCanMoveAbove(s, j, Rank(l, swapped) + 1, swapped);
        }
      }
    }
  }

  // ----- which locks a command takes -----

  function LocksIn(p: Prog): set<Lock> {
    match p
    case Done => {}
    case Take(l, rest) => {l} + LocksIn(rest)
    case Fork(locks, rest) => locks + LocksIn(rest)
    case _ => LocksIn(p.rest)
  }

  /** The locks of each command: the registry, the realm, its applications, its connection, the listener, the network. */
  function LocksOf(c: Command, apps: Apps): set<Lock> {
    match c
    case FetchToken(r, halted) =>
      {Warden, Realm(r), Client(r)} + if halted then AppLocks(apps, r) + {Connector} else {}
    case StartRealm(r) => {Warden, Realm(r), Client(r), Connector} + AppLocks(apps, r)
    case RebootRealm(r) => {Warden, Realm(r), Client(r), Connector} + AppLocks(apps, r)
    case CreateRealm => {Warden, Network}
    case StopRealm(r) => {Warden, Realm(r), Client(r)}
    case DestroyRealm(r, active) => if active then {Warden, Realm(r), Client(r)} else {Warden, Realm(r), Network}
    case InspectRealm(r, active) => {Warden, Realm(r)} + if active then {Client(r)} else {}
    case ListRealms(realms) => {Warden} + Listed(realms, 0)
    case CreateApplication(r) => {Warden, Realm(r)}
    case StartApplication(r, a) => {Warden, Realm(r)} + if a in apps(r) then {App(r, a), Client(r)} else {}
    case StopApplication(r, a) => {Warden, Realm(r)} + if a in apps(r) then {App(r, a), Client(r)} else {}
    case UpdateApplication(r, a) => {Warden, Realm(r)} + if a in apps(r) then {App(r, a)} else {}
    case AcceptConnection => {Connector}
  }

  /** Every realm's lock, and the connection of every active one. */
  function Listed(realms: seq<bool>, r: nat): (locks: set<Lock>)
    ensures forall l :: l in locks ==> (l.Realm? || l.Client?) && r <= l.r < r + |realms| && (l.Client? ==> realms[l.r - r])
    ensures forall i :: r <= i < r + |realms| ==> Realm(i) in locks && (realms[i - r] ==> Client(i) in locks)
  {
    if realms == [] then {} else {Realm(r)} + (if realms[0] then {Client(r)} else {}) + Listed(realms[1..], r + 1)
  }

  lemma TouchLocks(l: Lock, rest: Prog)
    ensures LocksIn(Take(l, Drop(l, rest))) == {l} + LocksIn(rest)
  {
    assert LocksIn(Drop(l, rest)) == LocksIn(rest);
  }

  lemma {:induction false} EachLocks(r: nat, apps: seq<nat>, rest: Prog)
    ensures LocksIn(Each(r, apps, rest)) == (set a | a in apps :: App(r, a)) + LocksIn(rest)
  {
    if apps != [] {
      EachLocks(r, apps[1..], rest);
      TouchLocks(App(r, apps[0]), Each(r, apps[1..], rest));
      assert forall a :: a in apps <==> a == apps[0] || a in apps[1..];
    }
  }

  lemma InRealmLocks(r: nat, in_: set<Phase>, body: Prog)
    ensures LocksIn(InRealm(r, in_, body)) == {Warden, Realm(r)} + LocksIn(body)
  {
    var tested := Test(r, in_, body);
    assert LocksIn(tested) == LocksIn(body);
    TouchLocks(Warden, Take(Realm(r), tested));
  }

  lemma ProvisionLocks(apps: Apps, r: nat, last: Prog)
    ensures LocksIn(Provision(apps, r, last)) == {Client(r), Connector} + AppLocks(apps, r) + LocksIn(last)
  {
    var dropped := Drop(Client(r), last);
    assert LocksIn(dropped) == LocksIn(last);
    TouchLocks(Connector, dropped);
    EachLocks(r, apps(r), Connect(dropped));
  }

  lemma RealmDataLocks(r: nat, active: bool, rest: Prog)
    ensures LocksIn(RealmData(r, active, rest)) == {Realm(r)} + (if active then {Client(r)} else {}) + LocksIn(rest)
  {
    var leave := Drop(Realm(r), rest);
    assert LocksIn(leave) == LocksIn(rest);
    TouchLocks(Client(r), leave);
    assert LocksIn(Test(r, {Active}, Ask(r, leave))) == LocksIn(Ask(r, leave));
    assert LocksIn(Test(r, {Halted, Provisioning}, leave)) == LocksIn(leave);
  }

  lemma {:induction false} ListLocks(realms: seq<bool>, r: nat)
    ensures LocksIn(ListFrom(realms, r)) == Listed(realms, r)
  {
    if realms != [] {
      ListLocks(realms[1..], r + 1);
      RealmDataLocks(r, realms[0], ListFrom(realms[1..], r + 1));
    }
  }

  lemma FetchLocks(apps: Apps, r: nat, halted: bool)
    ensures LocksIn(Program(FetchToken(r, halted), apps)) == LocksOf(FetchToken(r, halted), apps)
  {
    var again := Ask(r, Leave(r));
    assert LocksIn(Leave(r)) == {};
    TouchLocks(Client(r), Leave(r));
    assert LocksIn(Drop(Client(r), again)) == LocksIn(again);
    TouchLocks(Connector, Drop(Client(r), again));
    assert LocksIn(Take(Client(r), Connect(Drop(Client(r), again)))) == {Client(r)} + LocksIn(Connect(Drop(Client(r), again)));
    InRealmLocks(r, {Halted}, Fetching(apps, r));
    InRealmLocks(r, {Active}, again);
  }

  lemma OnApplicationLocks(apps: Apps, r: nat, a: nat)
    ensures LocksIn(OnApplication(apps, r, a)) == {Warden, Realm(r)} + if a in apps(r) then {App(r, a), Client(r)} else {}
  {
    var last := Drop(App(r, a), Done);
    assert LocksIn(last) == {};
    TouchLocks(Client(r), last);
    var body := if a in apps(r) then Take(App(r, a), Ask(r, last)) else Done;
    assert LocksIn(Drop(Realm(r), body)) == LocksIn(body);
    InRealmLocks(r, {Active}, Drop(Realm(r), body));
  }

  lemma WardenOnlyLocks(c: Command, apps: Apps)
    requires c.CreateRealm? || c.DestroyRealm? || c.InspectRealm? || c.ListRealms? || c.AcceptConnection?
    ensures LocksIn(Program(c, apps)) == LocksOf(c, apps)
  {
    var leave := Drop(Warden, Done);
    assert LocksIn(leave) == {};
    TouchLocks(Network, leave);
    TouchLocks(Connector, Done);
    match c
    case DestroyRealm(r, active) =>
      RealmDataLocks(r, true, leave);
      var dropped := Drop(Realm(r), SetUpNetwork());
      assert LocksIn(dropped) == LocksIn(SetUpNetwork()) && LocksIn(Test(r, {Halted}, dropped)) == LocksIn(dropped);
      assert LocksIn(Destroy(r, active)) == if active then {Realm(r), Client(r)} else {Realm(r), Network};
    case InspectRealm(r, active) => RealmDataLocks(r, active, leave);
    case ListRealms(realms) => ListLocks(realms, 0);
    case _ =>
  }

  /** Every command takes exactly the locks of the table. */
  lemma CommandLocks(c: Command, apps: Apps)
    ensures LocksIn(Program(c, apps)) == LocksOf(c, apps)
  {
    match c
    case FetchToken(r, halted) => FetchLocks(apps, r, halted);
    case StartRealm(r) =>
      var last := Finish(r, Leave(r));
      assert LocksIn(Leave(r)) == {} && LocksIn(last) == {};
      ProvisionLocks(apps, r, last);
      var marked := Mark(r, Provisioning, Provision(apps, r, last));
      assert LocksIn(marked) == LocksIn(Provision(apps, r, last));
      InRealmLocks(r, {Halted}, Starting(apps, r));
    case RebootRealm(r) =>
      var last := Mark(r, Active, Leave(r));
      assert LocksIn(Leave(r)) == {} && LocksIn(last) == {};
      ProvisionLocks(apps, r, last);
      InRealmLocks(r, {Active}, Rebooting(apps, r));
    case StopRealm(r) =>
      var last := Mark(r, Halted, Leave(r));
      assert LocksIn(Leave(r)) == {} && LocksIn(last) == {};
      TouchLocks(Client(r), last);
      InRealmLocks(r, {Active}, Ask(r, last));
    case CreateApplication(r) =>
      assert LocksIn(Leave(r)) == {};
      InRealmLocks(r, {Halted}, Leave(r));
    case StartApplication(r, a) => OnApplicationLocks(apps, r, a);
    case StopApplication(r, a) => OnApplicationLocks(apps, r, a);
    case UpdateApplication(r, a) =>
      assert LocksIn(Leave(r)) == {};
      TouchLocks(App(r, a), Leave(r));
      var body := if a in apps(r) then Take(App(r, a), Drop(App(r, a), Leave(r))) else Leave(r);
      InRealmLocks(r, {Halted, Active}, body);
    case _ => WardenOnlyLocks(c, apps);
  }

  // ----- which programs are ordered -----

  /** Taking and dropping a lock at once. */
  lemma TouchOrdered(l: Lock, rest: Prog, held: set<Lock>, swapped: set<nat>)
    ensures Ordered(Take(l, Drop(l, rest)), held, swapped) <==> Above(l, held, swapped) && Ordered(rest, held, swapped)
  {
    assert Ordered(Take(l, Drop(l, rest)), held, swapped) <==>
           Above(l, held, swapped) && Ordered(Drop(l, rest), held + {l}, swapped);
    if Above(l, held, swapped) {
      assert held + {l} - {l} == held;
    }
  }

  lemma {:induction false} EachOrdered(r: nat, apps: seq<nat>, rest: Prog, held: set<Lock>, swapped: set<nat>)
    requires forall a :: Above(App(r, a), held, swapped)
    ensures Ordered(Each(r, apps, rest), held, swapped) <==> Ordered(rest, held, swapped)
  {
    if apps != [] {
      TouchOrdered(App(r, apps[0]), Each(r, apps[1..], rest), held, swapped);
      EachOrdered(r, apps[1..], rest, held, swapped);
    }
  }

  lemma LeaveOrdered(r: nat, swapped: set<nat>)
    ensures Ordered(Leave(r), {Realm(r)}, swapped)
  {
    assert {Realm(r)} - {Realm(r)} == {};
  }

  lemma ProvisionOrdered(apps: Apps, r: nat, last: Prog, swapped: set<nat>)
    requires Ordered(last, {Realm(r)}, swapped)
    ensures Ordered(Provision(apps, r, last), {Realm(r)}, swapped) <==> r in swapped || apps(r) == []
  {
    var held := {Realm(r)} + {Client(r)};
    var dropped := Drop(Client(r), last);
    var rest := Connect(dropped);
    assert held - {Client(r)} == {Realm(r)};
    assert Ordered(dropped, held, swapped);
    TouchOrdered(Connector, dropped, held, swapped);
    if r in swapped {
      EachOrdered(r, apps(r), rest, held, swapped);
    } else if apps(r) != [] {
      assert !Above(App(r, apps(r)[0]), held, swapped);
      assert Each(r, apps(r), rest).Take?;
    }
  }

  lemma StartingOrdered(apps: Apps, r: nat, swapped: set<nat>)
    ensures Ordered(Starting(apps, r), {Realm(r)}, swapped) <==> r in swapped || apps(r) == []
  {
    LeaveOrdered(r, swapped);
    ProvisionOrdered(apps, r, Finish(r, Leave(r)), swapped);
  }

  lemma RealmDataOrdered(r: nat, active: bool, rest: Prog, swapped: set<nat>)
    ensures Ordered(RealmData(r, active, rest), {Warden}, swapped) <==> Ordered(rest, {Warden}, swapped)
  {
    var held := {Warden} + {Realm(r)};
    assert held - {Realm(r)} == {Warden};
    TouchOrdered(Client(r), Drop(Realm(r), rest), held, swapped);
    assert Ordered(Drop(Realm(r), rest), held, swapped) <==> Ordered(rest, {Warden}, swapped);
  }

  lemma {:induction false} ListOrdered(realms: seq<bool>, r: nat, swapped: set<nat>)
    ensures Ordered(ListFrom(realms, r), {Warden}, swapped)
  {
    if realms == [] {
      assert {Warden} - {Warden} == {};
    } else {
      ListOrdered(realms[1..], r + 1, swapped);
      RealmDataOrdered(r, realms[0], ListFrom(realms[1..], r + 1), swapped);
    }
  }

  lemma InRealmOrdered(r: nat, in_: set<Phase>, body: Prog, swapped: set<nat>)
    ensures Ordered(InRealm(r, in_, body), {}, swapped) <==> Ordered(body, {Realm(r)}, swapped)
  {
    TouchOrdered(Warden, Take(Realm(r), Test(r, in_, body)), {}, swapped);
    assert {} + {Realm(r)} == {Realm(r)};
  }

  lemma AskOrdered(r: nat, rest: Prog, swapped: set<nat>)
    ensures Ordered(Ask(r, rest), {Realm(r)}, swapped) <==> Ordered(rest, {Realm(r)}, swapped)
  {
    TouchOrdered(Client(r), rest, {Realm(r)}, swapped);
  }

  lemma FetchOrdered(apps: Apps, r: nat, halted: bool, swapped: set<nat>)
    ensures Ordered(Program(FetchToken(r, halted), apps), {}, swapped)
  {
    LeaveOrdered(r, swapped);
    AskOrdered(r, Leave(r), swapped);
    var again := Ask(r, Leave(r));
    if halted {
      var held := {Realm(r)} + {Client(r)};
      assert held - {Client(r)} == {Realm(r)};
      TouchOrdered(Connector, Drop(Client(r), again), held, swapped);
      var body := Take(Client(r), Connect(Drop(Client(r), again)));
      assert Ordered(body, {Realm(r)}, swapped);
      assert Ordered(Fork(AppLocks(apps, r), body), {Realm(r)}, swapped);
      InRealmOrdered(r, {Halted}, Fetching(apps, r), swapped);
    } else {
      InRealmOrdered(r, {Active}, again, swapped);
    }
  }

  lemma OnApplicationOrdered(apps: Apps, r: nat, a: nat, swapped: set<nat>)
    ensures Ordered(OnApplication(apps, r, a), {}, swapped) <==> (a in apps(r) ==> r !in swapped)
  {
    var last := Drop(App(r, a), Done);
    var body := if a in apps(r) then Take(App(r, a), Ask(r, last)) else Done;
    InRealmOrdered(r, {Active}, Drop(Realm(r), body), swapped);
    assert {Realm(r)} - {Realm(r)} == {};
    assert {} + {App(r, a)} == {App(r, a)} && {App(r, a)} - {App(r, a)} == {};
    TouchOrdered(Client(r), last, {App(r, a)}, swapped);
    assert Above(Client(r), {App(r, a)}, swapped) <==> r !in swapped;
  }

  lemma UpdateOrdered(apps: Apps, r: nat, a: nat, swapped: set<nat>)
    ensures Ordered(Program(UpdateApplication(r, a), apps), {}, swapped)
  {
    LeaveOrdered(r, swapped);
    TouchOrdered(App(r, a), Leave(r), {Realm(r)}, swapped);
    var body := if a in apps(r) then Take(App(r, a), Drop(App(r, a), Leave(r))) else Leave(r);
    InRealmOrdered(r, {Halted, Active}, body, swapped);
  }

  lemma DestroyOrdered(r: nat, active: bool, swapped: set<nat>)
    ensures Ordered(Destroy(r, active), {Warden}, swapped)
  {
    assert {Warden} - {Warden} == {};
    TouchOrdered(Network, Drop(Warden, Done), {Warden}, swapped);
    if active {
      RealmDataOrdered(r, true, Drop(Warden, Done), swapped);
    } else {
      assert {Warden} + {Realm(r)} - {Realm(r)} == {Warden};
    }
  }

  lemma WardenOnlyOrdered(c: Command, apps: Apps, swapped: set<nat>)
    requires c.CreateRealm? || c.DestroyRealm? || c.InspectRealm? || c.ListRealms? || c.AcceptConnection?
    ensures Ordered(Program(c, apps), {}, swapped)
  {
    assert {} + {Warden} == {Warden} && {Warden} - {Warden} == {};
    TouchOrdered(Network, Drop(Warden, Done), {Warden}, swapped);
    TouchOrdered(Connector, Done, {}, swapped);
    match c
    case DestroyRealm(r, active) => DestroyOrdered(r, active, swapped);
    case InspectRealm(r, active) => RealmDataOrdered(r, active, Drop(Warden, Done), swapped);
    case ListRealms(realms) => ListOrdered(realms, 0, swapped);
    case _ =>
  }

  predicate Provisions(c: Command, r: nat) {
    (c.StartRealm? || c.RebootRealm?) && c.r == r
  }

  predicate Controls(c: Command, apps: Apps, r: nat) {
    (c.StartApplication? || c.StopApplication?) && c.r == r && c.a in apps(r)
  }

  /** Which commands keep the order of a given set of swapped realms. */
  predicate Fits(c: Command, apps: Apps, swapped: set<nat>) {
    && ((c.StartRealm? || c.RebootRealm?) && apps(c.r) != [] ==> c.r in swapped)
    && ((c.StartApplication? || c.StopApplication?) && c.a in apps(c.r) ==> c.r !in swapped)
  }

  lemma ProgramOrdered(c: Command, apps: Apps, swapped: set<nat>)
    ensures Ordered(Program(c, apps), {}, swapped) <==> Fits(c, apps, swapped)
  {
    match c
    case FetchToken(r, halted) => FetchOrdered(apps, r, halted, swapped);
    case StartRealm(r) =>
      StartingOrdered(apps, r, swapped);
      InRealmOrdered(r, {Halted}, Starting(apps, r), swapped);
    case RebootRealm(r) =>
      LeaveOrdered(r, swapped);
      ProvisionOrdered(apps, r, Mark(r, Active, Leave(r)), swapped);
      InRealmOrdered(r, {Active}, Rebooting(apps, r), swapped);
    case StopRealm(r) =>
      LeaveOrdered(r, swapped);
      AskOrdered(r, Mark(r, Halted, Leave(r)), swapped);
      InRealmOrdered(r, {Active}, Ask(r, Mark(r, Halted, Leave(r))), swapped);
    case CreateApplication(r) =>
      LeaveOrdered(r, swapped);
      InRealmOrdered(r, {Halted}, Leave(r), swapped);
    case StartApplication(r, a) => OnApplicationOrdered(apps, r, a, swapped);
    case StopApplication(r, a) => OnApplicationOrdered(apps, r, a, swapped);
    case UpdateApplication(r, a) => UpdateOrdered(apps, r, a, swapped);
    case _ => WardenOnlyOrdered(c, apps, swapped);
  }

  /** Every command but a start or reboot of a realm with applications takes its locks in the documented order. */
  lemma DocumentedOrder(c: Command, apps: Apps)
    ensures Ordered(Program(c, apps), {}, {}) <==> !((c.StartRealm? || c.RebootRealm?) && apps(c.r) != [])
  {
    ProgramOrdered(c, apps, {});
  }
}
