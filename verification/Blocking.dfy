/**
  When client commands can block each other for good: for every list of commands and every phase
  the realms are in when they arrive, a circular wait is reachable exactly if the list brings a
  realm's provisioning and an application command of that realm together in the right phases.
 */
module Blocking {
  import opened Outcomes
  import opened LockOrder

  // ----- a circular wait has two commands facing each other -----

  /** A lock of realm r, or one that belongs to no realm. */
  predicate About(l: Lock, r: nat) {
    (l.Realm? || l.App? || l.Client?) ==> l.r == r
  }

  predicate AboutOnly(p: Prog, r: nat) {
    match p
    case Done => true
    case Take(l, rest) => About(l, r) && AboutOnly(rest, r)
    case Fork(locks, rest) => (forall l :: l in locks ==> About(l, r)) && AboutOnly(rest, r)
    case _ => AboutOnly(p.rest, r)
  }

  predicate TaskAbout(t: Task, r: nat) {
    AboutOnly(t.prog, r) && (forall h :: h in t.held ==> About(h, r))
  }

  lemma {:induction false} RunKeepsAbout(s: System, moves: seq<Move>, k: nat, r: nat)
    requires k < |s.tasks| && TaskAbout(s.tasks[k], r) && Run(s, moves).Some?
    ensures k < |Run(s, moves).value.tasks| && TaskAbout(Run(s, moves).value.tasks[k], r)
    decreases |moves|
  {
    if moves != [] {
      assert TaskAbout(Next(s, moves[0]).value.tasks[k], r);
      RunKeepsAbout(Next(s, moves[0]).value, moves[1..], k, r);
    }
  }

  lemma {:induction false} EachAbout(r: nat, apps: seq<nat>, rest: Prog)
    ensures AboutOnly(Each(r, apps, rest), r) <==> AboutOnly(rest, r)
  {
    if apps != [] { EachAbout(r, apps[1..], rest); }
  }

  lemma TouchAbout(l: Lock, rest: Prog, r: nat)
    requires About(l, r) && AboutOnly(rest, r)
    ensures AboutOnly(Take(l, Drop(l, rest)), r)
  {
    assert AboutOnly(Drop(l, rest), r);
  }

  lemma InRealmAbout(r: nat, in_: set<Phase>, body: Prog)
    requires AboutOnly(body, r)
    ensures AboutOnly(InRealm(r, in_, body), r)
  {
    var tested := Test(r, in_, body);
    assert AboutOnly(tested, r);
    TouchAbout(Warden, Take(Realm(r), tested), r);
  }

  lemma ProvisionAbout(apps: Apps, r: nat, last: Prog)
    requires AboutOnly(last, r)
    ensures AboutOnly(Provision(apps, r, last), r)
  {
    assert AboutOnly(Drop(Client(r), last), r);
    TouchAbout(Connector, Drop(Client(r), last), r);
    EachAbout(r, apps(r), Connect(Drop(Client(r), last)));
  }

  lemma OnApplicationAbout(apps: Apps, r: nat, a: nat)
    ensures AboutOnly(OnApplication(apps, r, a), r)
  {
    var last := Drop(App(r, a), Done);
    TouchAbout(Client(r), last, r);
    var body := if a in apps(r) then Take(App(r, a), Ask(r, last)) else Done;
    InRealmAbout(r, {Active}, Drop(Realm(r), body));
  }

  /** The commands whose locks can stand in each other's way touch one realm only. */
  predicate OneRealm(c: Command) {
    c.StartRealm? || c.RebootRealm? || c.StopRealm? || c.StartApplication? || c.StopApplication?
  }

  lemma ProgramAbout(c: Command, apps: Apps)
    requires OneRealm(c)
    ensures AboutOnly(Program(c, apps), c.r)
  {
    var r := c.r;
    assert AboutOnly(Leave(r), r);
    match c
    case StartRealm(_) =>
      ProvisionAbout(apps, r, Finish(r, Leave(r)));
      assert AboutOnly(Mark(r, Provisioning, Provision(apps, r, Finish(r, Leave(r)))), r);
      InRealmAbout(r, {Halted}, Starting(apps, r));
    case RebootRealm(_) =>
      ProvisionAbout(apps, r, Mark(r, Active, Leave(r)));
      InRealmAbout(r, {Active}, Rebooting(apps, r));
    case StopRealm(_) =>
      TouchAbout(Client(r), Mark(r, Halted, Leave(r)), r);
      InRealmAbout(r, {Active}, Ask(r, Mark(r, Halted, Leave(r))));
    case StartApplication(_, a) => OnApplicationAbout(apps, r, a);
    case StopApplication(_, a) => OnApplicationAbout(apps, r, a);
  }

  /** Has the client lock and wants the lock of an application. */
  predicate Reaching(t: Task) {
    t.prog.Take? && t.prog.lock.App? && Client(t.prog.lock.r) in t.held
  }

  /** Has the lock of an application and wants the client lock. */
  predicate Controlling(t: Task, r: nat) {
    t.prog == Take(Client(r), if t.prog.Take? then t.prog.rest else Done) && exists h :: h in t.held && h.App? && h.r == r
  }

  predicate Facing(s: seq<Task>, i: nat, j: nat) {
    i < |s| && j < |s| && Reaching(s[i]) && Controlling(s[j], s[i].prog.lock.r)
  }

  /** The realms in which some command reaches for an application with the client lock in its hand. */
  function Reached(s: seq<Task>): set<nat> {
    set k | 0 <= k < |s| && Reaching(s[k]) :: s[k].prog.lock.r
  }

  lemma ProvisionerLocal(t: Task, r: nat, swapped: set<nat>)
    requires TaskOk(t, swapped + {r}) && TaskAbout(t, r) && r !in swapped && !Reaching(t)
    ensures Local(t, swapped)
  {
    forall w, h | w in Wanted(t) && h in t.held ensures Rank(h, swapped) < Rank(w, swapped) {
      assert Above(w, t.held, swapped + {r});
      assert About(w, r) && About(h, r);
    }
  }

  lemma ControllerLocal(t: Task, r: nat, swapped: set<nat>)
    requires TaskOk(t, swapped - {r}) && TaskAbout(t, r) && r in swapped && !Controlling(t, r)
    requires forall w :: w in Wanted(t) && w.Client? ==> t.prog.Take?
    ensures Local(t, swapped)
  {
    forall w, h | w in Wanted(t) && h in t.held ensures Rank(h, swapped) < Rank(w, swapped) {
      assert Above(w, t.held, swapped - {r});
      assert About(w, r) && About(h, r);
    }
  }

  /** Jobs are spawned for application locks only. */
  predicate ForksApps(p: Prog) {
    match p
    case Done => true
    case Fork(locks, rest) => (forall l :: l in locks ==> l.App?) && ForksApps(rest)
    case _ => ForksApps(p.rest)
  }

  lemma {:induction false} RunKeepsForks(s: System, moves: seq<Move>, k: nat)
    requires k < |s.tasks| && ForksApps(s.tasks[k].prog) && Run(s, moves).Some?
    ensures k < |Run(s, moves).value.tasks| && ForksApps(Run(s, moves).value.tasks[k].prog)
    decreases |moves|
  {
    if moves != [] {
      assert ForksApps(Next(s, moves[0]).value.tasks[k].prog);
      RunKeepsForks(Next(s, moves[0]).value, moves[1..], k);
    }
  }

  lemma ControllerForks(apps: Apps, r: nat, a: nat)
    ensures ForksApps(OnApplication(apps, r, a))
  {
    var last := Drop(App(r, a), Done);
    var body := if a in apps(r) then Take(App(r, a), Ask(r, last)) else Done;
    assert ForksApps(last);
    assert ForksApps(Ask(r, last));
    var tested := Test(r, {Active}, Drop(Realm(r), body));
    assert ForksApps(tested);
    assert ForksApps(Take(Realm(r), tested));
  }

  /** In a run's last state, a command fits the order of the reached realms, or it faces another. */
  lemma LocalOrFacing(commands: seq<Command>, apps: Apps, phases: Phases, moves: seq<Move>, k: nat)
    requires Run(Begin(commands, apps, phases), moves).Some? && k < |commands|
    requires var s := Run(Begin(commands, apps, phases), moves).value.tasks;
      |s| == |commands| && forall i :: 0 <= i < |s| ==> !Facing(s, i, k)
    ensures var s := Run(Begin(commands, apps, phases), moves).value.tasks; Local(s[k], Reached(s))
  {
    var begin := Begin(commands, apps, phases);
    var s := Run(begin, moves).value.tasks;
    var c, swapped := commands[k], Reached(s);
    if Fits(c, apps, swapped) {
      ProgramOrdered(c, apps, swapped);
      RunKeepsTask(begin, moves, k, swapped);
    } else {
      ProgramAbout(c, apps);
      RunKeepsAbout(begin, moves, k, c.r);
      if c.StartRealm? || c.RebootRealm? {
        ProgramOrdered(c, apps, swapped + {c.r});
        RunKeepsTask(begin, moves, k, swapped + {c.r});
        ProvisionerLocal(s[k], c.r, swapped);
      } else {
        ProgramOrdered(c, apps, swapped - {c.r});
        RunKeepsTask(begin, moves, k, swapped - {c.r});
        ControllerForks(apps, c.r, c.a);
        RunKeepsForks(begin, moves, k);
        var i :| 0 <= i < |s| && Reaching(s[i]) && s[i].prog.lock.r == c.r;
        assert !Facing(s, i, k);
        ControllerLocal(s[k], c.r, swapped);
      }
    }
  }

  /** Who faces whom: a start or reboot of a realm, and a start or stop of one of its applications. */
  lemma FacingCommands(commands: seq<Command>, apps: Apps, phases: Phases, moves: seq<Move>, i: nat, j: nat)
    requires Run(Begin(commands, apps, phases), moves).Some?
    requires Facing(Run(Begin(commands, apps, phases), moves).value.tasks, i, j)
    ensures i < |commands| && j < |commands|
    ensures var r := Run(Begin(commands, apps, phases), moves).value.tasks[i].prog.lock.r;
      Provisions(commands[i], r) && Controls(commands[j], apps, r)
  {
    var begin := Begin(commands, apps, phases);
    RunKeepsCount(begin, moves);
    var s := Run(begin, moves).value.tasks;
    var c, d, r := commands[i], commands[j], s[i].prog.lock.r;
    if Fits(c, apps, {}) {
      ProgramOrdered(c, apps, {});
      RunKeepsTask(begin, moves, i, {});
      assert false;
    }
    ProgramAbout(c, apps);
    RunKeepsAbout(begin, moves, i, c.r);
    var h :| h in s[j].held && h.App? && h.r == r;
    var swapped := if d.StartRealm? || d.RebootRealm? then {r, d.r} else {r};
    if Fits(d, apps, swapped) {
      ProgramOrdered(d, apps, swapped);
      RunKeepsTask(begin, moves, j, swapped);
      assert false;
    }
  }

  // ----- how commands test and set the phase of a realm -----

  predicate HasTest(p: Prog) {
    !p.Done? && (p.Test? || HasTest(p.rest))
  }

  predicate HasMark(p: Prog) {
    !p.Done? && (p.Mark? || p.Finish? || HasMark(p.rest))
  }

  /** A command under way that has made its tests. */
  predicate Past(t: Task) {
    !t.prog.Done? && !HasTest(t.prog)
  }

  function NeedsOf(c: Command): Phase { if c.StartRealm? then Halted else Active }

  function SetsOf(c: Command): set<Phase> {
    if c.StartRealm? then {Provisioning} else if c.RebootRealm? then {Active} else if c.StopRealm? then {Halted} else {}
  }

  predicate Concerns(c: Command, r: nat) {
    OneRealm(c) && c.r == r
  }

  /**
    The program tests realm r for the phase the command needs, with no lock below the realm's; what
    it sets afterwards it sets with the realm lock in its hand.
   */
  predicate Keeps(p: Prog, held: set<Lock>, r: nat, needs: Phase, sets: set<Phase>, starts: bool) {
    && (HasTest(p) ==> forall h :: h in held ==> h.Warden? || h.Realm?)
    && (HasMark(p) && !HasTest(p) ==> Realm(r) in held)
    && (starts && Client(r) in held ==> HasMark(p))
    && match p
       case Done => true
       case Test(q, in_, rest) => q == r && in_ == {needs} && Keeps(rest, held, r, needs, sets, starts)
       case Mark(q, phase, rest) => q == r && phase in sets && !HasTest(rest) && Keeps(rest, held, r, needs, sets, starts)
       case Finish(q, rest) =>
         q == r && starts && !HasTest(rest) && !HasMark(rest) && Keeps(rest, held, r, needs, sets, starts)
       case _ => Keeps(p.rest, Now(p, held), r, needs, sets, starts)
  }

  /** The program never sets the phase of realm r. */
  predicate Unmarked(p: Prog, r: nat) {
    match p
    case Done => true
    case Mark(q, _, rest) => q != r && Unmarked(rest, r)
    case Finish(q, rest) => q != r && Unmarked(rest, r)
    case _ => Unmarked(p.rest, r)
  }

  predicate Typed(t: Task, c: Command, r: nat) {
    if Concerns(c, r) then Keeps(t.prog, t.held, r, NeedsOf(c), SetsOf(c), c.StartRealm?) else Unmarked(t.prog, r)
  }

  lemma {:induction false} EachKeeps(r: nat, apps: seq<nat>, rest: Prog, held: set<Lock>, needs: Phase, sets: set<Phase>, starts: bool)
    requires Keeps(rest, held, r, needs, sets, starts) && !HasTest(rest) && Realm(r) in held && forall a :: App(r, a) !in held
    ensures Keeps(Each(r, apps, rest), held, r, needs, sets, starts) && !HasTest(Each(r, apps, rest))
  {
    if apps != [] {
      EachKeeps(r, apps[1..], rest, held, needs, sets, starts);
      TouchKeeps(App(r, apps[0]), Each(r, apps[1..], rest), held, r, needs, sets, starts);
    }
  }

  /** Taking and dropping a lock at once. */
  lemma TouchKeeps(l: Lock, rest: Prog, held: set<Lock>, r: nat, needs: Phase, sets: set<Phase>, starts: bool)
    requires Keeps(rest, held, r, needs, sets, starts) && !HasTest(rest) && l !in held && (starts ==> l != Client(r))
    ensures Keeps(Take(l, Drop(l, rest)), held, r, needs, sets, starts) && !HasTest(Take(l, Drop(l, rest)))
  {
    assert held + {l} - {l} == held;
    assert HasMark(Drop(l, rest)) == HasMark(rest) && HasMark(Take(l, Drop(l, rest))) == HasMark(Drop(l, rest));
    assert !HasTest(Drop(l, rest)) && Keeps(Drop(l, rest), held + {l}, r, needs, sets, starts);
  }

  lemma DropKeeps(l: Lock, rest: Prog, held: set<Lock>, r: nat, needs: Phase, sets: set<Phase>, starts: bool)
    requires Keeps(rest, held - {l}, r, needs, sets, starts) && !HasTest(rest) && (starts && Client(r) in held ==> HasMark(rest))
    ensures Keeps(Drop(l, rest), held, r, needs, sets, starts) && !HasTest(Drop(l, rest))
  {}

  lemma ProvisionKeeps(apps: Apps, r: nat, last: Prog, needs: Phase, sets: set<Phase>, starts: bool)
    requires Keeps(last, {Realm(r)}, r, needs, sets, starts) && !HasTest(last) && HasMark(last)
    ensures Keeps(Provision(apps, r, last), {Realm(r)}, r, needs, sets, starts) && !HasTest(Provision(apps, r, last))
  {
    var held := {Realm(r)} + {Client(r)};
    var dropped := Drop(Client(r), last);
    assert held - {Client(r)} == {Realm(r)};
    DropKeeps(Client(r), last, held, r, needs, sets, starts);
    TouchKeeps(Connector, dropped, held, r, needs, sets, starts);
    EachKeeps(r, apps(r), Connect(dropped), held, needs, sets, starts);
  }

  lemma LeaveKeeps(r: nat, needs: Phase, sets: set<Phase>, starts: bool)
    ensures Keeps(Leave(r), {Realm(r)}, r, needs, sets, starts) && !HasTest(Leave(r)) && !HasMark(Leave(r))
  {}

  lemma InRealmKeeps(r: nat, body: Prog, needs: Phase, sets: set<Phase>, starts: bool)
    requires Keeps(body, {Realm(r)}, r, needs, sets, starts) && !HasTest(body)
    ensures Keeps(InRealm(r, {needs}, body), {}, r, needs, sets, starts)
  {
    assert {} + {Warden} - {Warden} == {} && {} + {Realm(r)} == {Realm(r)};
    var tested := Test(r, {needs}, body);
    assert HasTest(tested) && HasTest(Take(Realm(r), tested));
    assert Keeps(tested, {Realm(r)}, r, needs, sets, starts);
    assert HasTest(Take(Realm(r), tested)) && Keeps(Take(Realm(r), tested), {}, r, needs, sets, starts);
    assert HasTest(Drop(Warden, Take(Realm(r), tested)));
    assert Keeps(Drop(Warden, Take(Realm(r), tested)), {} + {Warden}, r, needs, sets, starts);
  }

  lemma StartKeeps(apps: Apps, r: nat)
    ensures Keeps(InRealm(r, {Halted}, Starting(apps, r)), {}, r, Halted, {Provisioning}, true)
  {
    LeaveKeeps(r, Halted, {Provisioning}, true);
    var last := Finish(r, Leave(r));
    assert Keeps(last, {Realm(r)}, r, Halted, {Provisioning}, true) && !HasTest(last);
    ProvisionKeeps(apps, r, last, Halted, {Provisioning}, true);
    var marked := Mark(r, Provisioning, Provision(apps, r, last));
    assert Keeps(marked, {Realm(r)}, r, Halted, {Provisioning}, true) && !HasTest(marked);
    InRealmKeeps(r, Starting(apps, r), Halted, {Provisioning}, true);
  }

  lemma RebootKeeps(apps: Apps, r: nat)
    ensures Keeps(InRealm(r, {Active}, Rebooting(apps, r)), {}, r, Active, {Active}, false)
  {
    LeaveKeeps(r, Active, {Active}, false);
    ProvisionKeeps(apps, r, Mark(r, Active, Leave(r)), Active, {Active}, false);
    InRealmKeeps(r, Rebooting(apps, r), Active, {Active}, false);
  }

  lemma StopKeeps(r: nat)
    ensures Keeps(InRealm(r, {Active}, Ask(r, Mark(r, Halted, Leave(r)))), {}, r, Active, {Halted}, false)
  {
    LeaveKeeps(r, Active, {Halted}, false);
    TouchKeeps(Client(r), Mark(r, Halted, Leave(r)), {Realm(r)}, r, Active, {Halted}, false);
    InRealmKeeps(r, Ask(r, Mark(r, Halted, Leave(r))), Active, {Halted}, false);
  }

  lemma ControllerKeeps(apps: Apps, r: nat, a: nat)
    ensures Keeps(OnApplication(apps, r, a), {}, r, Active, {}, false)
  {
    var last := Drop(App(r, a), Done);
    var body := if a in apps(r) then Take(App(r, a), Ask(r, last)) else Done;
    assert !HasTest(Done) && !HasMark(Done) && !HasTest(last) && !HasMark(last);
    TouchKeeps(Client(r), last, {App(r, a)}, r, Active, {}, false);
    assert {Realm(r)} - {Realm(r)} == {} && {} + {App(r, a)} == {App(r, a)};
    assert Keeps(body, {}, r, Active, {}, false) && !HasTest(body);
    DropKeeps(Realm(r), body, {Realm(r)}, r, Active, {}, false);
    InRealmKeeps(r, Drop(Realm(r), body), Active, {}, false);
  }

  lemma ConcernedKeeps(c: Command, apps: Apps)
    requires OneRealm(c)
    ensures Keeps(Program(c, apps), {}, c.r, NeedsOf(c), SetsOf(c), c.StartRealm?)
  {
    match c
    case StartRealm(r) => StartKeeps(apps, r);
    case RebootRealm(r) => RebootKeeps(apps, r);
    case StopRealm(r) => StopKeeps(r);
    case StartApplication(r, a) => ControllerKeeps(apps, r, a);
    case StopApplication(r, a) => ControllerKeeps(apps, r, a);
  }

  lemma TouchUnmarked(l: Lock, rest: Prog, r: nat)
    ensures Unmarked(Take(l, Drop(l, rest)), r) <==> Unmarked(rest, r)
  {
    assert Unmarked(Drop(l, rest), r) <==> Unmarked(rest, r);
  }

  lemma InRealmUnmarked(q: nat, in_: set<Phase>, body: Prog, r: nat)
    ensures Unmarked(InRealm(q, in_, body), r) <==> Unmarked(body, r)
  {
    var tested := Test(q, in_, body);
    assert Unmarked(tested, r) <==> Unmarked(body, r);
    TouchUnmarked(Warden, Take(Realm(q), tested), r);
  }

  lemma {:induction false} EachUnmarked(q: nat, apps: seq<nat>, rest: Prog, r: nat)
    ensures Unmarked(Each(q, apps, rest), r) <==> Unmarked(rest, r)
  {
    if apps != [] { EachUnmarked(q, apps[1..], rest, r); }
  }

  lemma RealmDataUnmarked(q: nat, active: bool, rest: Prog, r: nat)
    requires Unmarked(rest, r)
    ensures Unmarked(RealmData(q, active, rest), r)
  {
    TouchUnmarked(Client(q), Drop(Realm(q), rest), r);
    assert Unmarked(Test(q, {Active}, Ask(q, Drop(Realm(q), rest))), r);
  }

  lemma {:induction false} ListUnmarked(realms: seq<bool>, q: nat, r: nat)
    ensures Unmarked(ListFrom(realms, q), r)
  {
    if realms != [] {
      ListUnmarked(realms[1..], q + 1, r);
      RealmDataUnmarked(q, realms[0], ListFrom(realms[1..], q + 1), r);
    }
  }

  lemma ProvisionUnmarked(apps: Apps, q: nat, last: Prog, r: nat)
    ensures Unmarked(Provision(apps, q, last), r) <==> Unmarked(last, r)
  {
    var tail := Connect(Drop(Client(q), last));
    TouchUnmarked(Connector, Drop(Client(q), last), r);
    EachUnmarked(q, apps(q), tail, r);
  }

  lemma OnApplicationUnmarked(apps: Apps, q: nat, a: nat, r: nat)
    ensures Unmarked(OnApplication(apps, q, a), r)
  {
    var last := Drop(App(q, a), Done);
    TouchUnmarked(Client(q), last, r);
    var body := if a in apps(q) then Take(App(q, a), Ask(q, last)) else Done;
    InRealmUnmarked(q, {Active}, Drop(Realm(q), body), r);
  }

  lemma FetchUnmarked(apps: Apps, q: nat, halted: bool, r: nat)
    ensures Unmarked(Program(FetchToken(q, halted), apps), r)
  {
    var again := Ask(q, Leave(q));
    TouchUnmarked(Client(q), Leave(q), r);
    TouchUnmarked(Connector, Drop(Client(q), again), r);
    assert Unmarked(Take(Client(q), Connect(Drop(Client(q), again))), r);
    InRealmUnmarked(q, {Halted}, Fetching(apps, q), r);
    InRealmUnmarked(q, {Active}, again, r);
  }

  lemma WardenOnlyUnmarked(c: Command, apps: Apps, r: nat)
    requires c.CreateRealm? || c.DestroyRealm? || c.InspectRealm? || c.ListRealms? || c.AcceptConnection?
    ensures Unmarked(Program(c, apps), r)
  {
    assert Unmarked(Drop(Warden, Done), r);
    TouchUnmarked(Network, Drop(Warden, Done), r);
    match c
    case DestroyRealm(q, active) =>
      RealmDataUnmarked(q, true, Drop(Warden, Done), r);
      assert Unmarked(Drop(Realm(q), SetUpNetwork()), r);
      assert Unmarked(Test(q, {Halted}, Drop(Realm(q), SetUpNetwork())), r);
      assert Unmarked(Destroy(q, active), r);
    case InspectRealm(q, active) => RealmDataUnmarked(q, active, Drop(Warden, Done), r);
    case ListRealms(realms) => ListUnmarked(realms, 0, r);
    case _ =>
  }

  lemma OtherUnmarked(c: Command, apps: Apps, r: nat)
    requires !Concerns(c, r)
    ensures Unmarked(Program(c, apps), r)
  {
    if OneRealm(c) { assert Unmarked(Leave(c.r), r); }
    match c
    case StartRealm(q) =>
      ProvisionUnmarked(apps, q, Finish(q, Leave(q)), r);
      assert Unmarked(Mark(q, Provisioning, Provision(apps, q, Finish(q, Leave(q)))), r);
      InRealmUnmarked(q, {Halted}, Starting(apps, q), r);
    case RebootRealm(q) =>
      ProvisionUnmarked(apps, q, Mark(q, Active, Leave(q)), r);
      InRealmUnmarked(q, {Active}, Rebooting(apps, q), r);
    case StopRealm(q) =>
      TouchUnmarked(Client(q), Mark(q, Halted, Leave(q)), r);
      InRealmUnmarked(q, {Active}, Ask(q, Mark(q, Halted, Leave(q))), r);
    case FetchToken(q, halted) => FetchUnmarked(apps, q, halted, r);
    case StartApplication(q, a) => OnApplicationUnmarked(apps, q, a, r);
    case StopApplication(q, a) => OnApplicationUnmarked(apps, q, a, r);
    case CreateApplication(q) => InRealmUnmarked(q, {Halted}, Leave(q), r);
    case UpdateApplication(q, a) =>
      TouchUnmarked(App(q, a), Leave(q), r);
      var body := if a in apps(q) then Take(App(q, a), Drop(App(q, a), Leave(q))) else Leave(q);
      InRealmUnmarked(q, {Halted, Active}, body, r);
    case _ => WardenOnlyUnmarked(c, apps, r);
  }

  lemma ProgramTyped(c: Command, apps: Apps, r: nat)
    ensures Typed(Task(Program(c, apps), {}, {}), c, r)
  {
    if Concerns(c, r) { ConcernedKeeps(c, apps); } else { OtherUnmarked(c, apps, r); }
  }

  // ----- the phase of one realm over a run -----

  predicate AllTyped(s: System, commands: seq<Command>, r: nat) {
    |s.tasks| == |commands| && forall k :: 0 <= k < |commands| ==> Typed(s.tasks[k], commands[k], r)
  }

  /** No lock is in two hands. */
  predicate Exclusive(s: seq<Task>) {
    forall i, j, l :: 0 <= i < j < |s| && l in s[i].held ==> l !in s[j].held
  }

  lemma NextTyped(s: System, m: Move, c: Command, r: nat)
    requires m.i < |s.tasks| && Typed(s.tasks[m.i], c, r) && Next(s, m).Some?
    ensures Typed(Next(s, m).value.tasks[m.i], c, r)
  {}

  function PhaseOf(s: System, r: nat): Option<Phase> {
    if r in s.phases then Some(s.phases[r]) else None
  }

  /** What a command can make of the realm's phase with its next move. */
  predicate Makes(c: Command, after: Task, phase: Option<Phase>) {
    if c.StartRealm? then phase == Some(Provisioning) || (!HasMark(after.prog) && phase in {Some(Active), Some(Halted)})
    else if c.RebootRealm? then phase == Some(Active)
    else c.StopRealm? && phase == Some(Halted)
  }

  /** What one move of a command does to the realm: it passes a test, sets the phase, or neither. */
  lemma Effect(s: System, m: Move, c: Command, r: nat)
    requires m.i < |s.tasks| && Typed(s.tasks[m.i], c, r) && Next(s, m).Some?
    ensures var t, s' := s.tasks[m.i], Next(s, m).value;
      var t' := s'.tasks[m.i];
      && (HasMark(t'.prog) ==> HasMark(t.prog))
      && (Concerns(c, r) && Past(t') && !Past(t) ==> PhaseOf(s, r) == Some(NeedsOf(c)))
      && (PhaseOf(s', r) != PhaseOf(s, r) ==> Concerns(c, r) && Past(t) && HasMark(t.prog) && Makes(c, t', PhaseOf(s', r)))
      && (Concerns(c, r) && HasMark(t.prog) && Past(t) ==> Realm(r) in t.held)
  {}

  lemma OthersStay(s: System, m: Move)
    requires Next(s, m).Some?
    ensures m.i < |s.tasks| == |Next(s, m).value.tasks|
    ensures forall k :: 0 <= k < |s.tasks| && k != m.i ==> Next(s, m).value.tasks[k] == s.tasks[k]
  {}

  lemma NextExclusive(s: System, m: Move)
    requires Exclusive(s.tasks) && Next(s, m).Some?
    ensures Exclusive(Next(s, m).value.tasks)
  {
    OthersStay(s, m);
    var i, t, t' := m.i, s.tasks[m.i], Next(s, m).value.tasks[m.i];
    assert forall l :: l in t'.held ==> l in t.held || (t.prog.Take? && l == t.prog.lock && Free(s.tasks, l));
  }

  /** Commands that act on an active realm. */
  predicate OnActive(c: Command, r: nat) {
    Concerns(c, r) && !c.StartRealm?
  }

  /** Inside a start that has not yet decided the phase. */
  predicate Starts(c: Command, t: Task, r: nat) {
    c.StartRealm? && c.r == r && Past(t) && HasMark(t.prog)
  }

  /** Without a stop: whoever acts on the active realm finds it active, and no start is inside meanwhile. */
  predicate StaysActive(s: System, commands: seq<Command>, r: nat)
    requires |s.tasks| == |commands|
  {
    forall k :: 0 <= k < |commands| ==>
      && (OnActive(commands[k], r) && Past(s.tasks[k]) ==> PhaseOf(s, r) == Some(Active))
      && (Starts(commands[k], s.tasks[k], r) ==> PhaseOf(s, r) != Some(Active))
  }

  predicate NoStop(commands: seq<Command>, r: nat) {
    forall k :: 0 <= k < |commands| ==> !(commands[k].StopRealm? && commands[k].r == r)
  }

  lemma NextStaysActive(s: System, m: Move, commands: seq<Command>, r: nat)
    requires AllTyped(s, commands, r) && Exclusive(s.tasks) && StaysActive(s, commands, r) && NoStop(commands, r)
    requires Next(s, m).Some?
    ensures |Next(s, m).value.tasks| == |commands| && StaysActive(Next(s, m).value, commands, r)
  {
    OthersStay(s, m);
    var i := m.i;
    Effect(s, m, commands[i], r);
    var s' := Next(s, m).value;
    forall k | 0 <= k < |commands| ensures
      && (OnActive(commands[k], r) && Past(s'.tasks[k]) ==> PhaseOf(s', r) == Some(Active))
      && (Starts(commands[k], s'.tasks[k], r) ==> PhaseOf(s', r) != Some(Active))
    {
      if k != i {
        assert Starts(commands[k], s.tasks[k], r) ==> Realm(r) in s.tasks[k].held;
        assert Realm(r) in s.tasks[i].held ==> Realm(r) !in s.tasks[k].held;
      }
    }
  }

  /** As long as the only start of a realm that is not active has not ended, nobody acts on the realm as active. */
  predicate NotYet(s: System, commands: seq<Command>, r: nat, only: Option<nat>)
    requires |s.tasks| == |commands|
  {
    (only.Some? ==> only.value < |s.tasks| && HasMark(s.tasks[only.value].prog)) ==>
      && PhaseOf(s, r) != Some(Active)
      && forall k :: 0 <= k < |commands| && OnActive(commands[k], r) ==> !Past(s.tasks[k])
  }

  predicate OnlyStart(commands: seq<Command>, r: nat, only: Option<nat>) {
    forall k :: 0 <= k < |commands| && commands[k].StartRealm? && commands[k].r == r ==> only == Some(k)
  }

  lemma NextNotYet(s: System, m: Move, commands: seq<Command>, r: nat, only: Option<nat>)
    requires AllTyped(s, commands, r) && NotYet(s, commands, r, only) && OnlyStart(commands, r, only) && Next(s, m).Some?
    ensures |Next(s, m).value.tasks| == |commands| && NotYet(Next(s, m).value, commands, r, only)
  {
    OthersStay(s, m);
    Effect(s, m, commands[m.i], r);
  }

  /** A realm that is neither halted nor active lets nobody in. */
  predicate Shut(s: System, commands: seq<Command>, r: nat)
    requires |s.tasks| == |commands|
  {
    && PhaseOf(s, r) !in {Some(Halted), Some(Active)}
    && forall k :: 0 <= k < |commands| && Concerns(commands[k], r) ==> !Past(s.tasks[k])
  }

  lemma NextShut(s: System, m: Move, commands: seq<Command>, r: nat)
    requires AllTyped(s, commands, r) && Shut(s, commands, r) && Next(s, m).Some?
    ensures |Next(s, m).value.tasks| == |commands| && Shut(Next(s, m).value, commands, r)
  {
    OthersStay(s, m);
    Effect(s, m, commands[m.i], r);
  }

  lemma {:induction false} RunPhases(s: System, moves: seq<Move>, commands: seq<Command>, r: nat, only: Option<nat>)
    requires AllTyped(s, commands, r) && Exclusive(s.tasks) && Run(s, moves).Some?
    ensures var s' := Run(s, moves).value;
      && AllTyped(s', commands, r)
      && (NoStop(commands, r) && StaysActive(s, commands, r) ==> StaysActive(s', commands, r))
      && (OnlyStart(commands, r, only) && NotYet(s, commands, r, only) ==> NotYet(s', commands, r, only))
      && (Shut(s, commands, r) ==> Shut(s', commands, r))
    decreases |moves|
  {
    if moves != [] {
      var t := Next(s, moves[0]).value;
      OthersStay(s, moves[0]);
      NextTyped(s, moves[0], commands[moves[0].i], r);
      NextExclusive(s, moves[0]);
      if NoStop(commands, r) && StaysActive(s, commands, r) { NextStaysActive(s, moves[0], commands, r); }
      if OnlyStart(commands, r, only) && NotYet(s, commands, r, only) { NextNotYet(s, moves[0], commands, r, only); }
      if Shut(s, commands, r) { NextShut(s, moves[0], commands, r); }
      RunPhases(t, moves[1..], commands, r, only);
    }
  }

  lemma InRealmTests(r: nat, in_: set<Phase>, body: Prog)
    ensures HasTest(InRealm(r, in_, body))
  {
    var tested := Test(r, in_, body);
    assert HasTest(Take(Realm(r), tested));
    assert HasTest(Drop(Warden, Take(Realm(r), tested)));
  }

  lemma BeginPhases(commands: seq<Command>, apps: Apps, phases: Phases, r: nat)
    ensures var s := Begin(commands, apps, phases);
      && AllTyped(s, commands, r) && Exclusive(s.tasks)
      && forall k :: 0 <= k < |commands| && Concerns(commands[k], r) ==> !Past(s.tasks[k])
  {
    var s := Begin(commands, apps, phases);
    forall k | 0 <= k < |commands| ensures Typed(s.tasks[k], commands[k], r) { ProgramTyped(commands[k], apps, r); }
    forall k | 0 <= k < |commands| && Concerns(commands[k], r) ensures !Past(s.tasks[k]) {
      match commands[k]
      case StartRealm(_) => InRealmTests(r, {Halted}, Starting(apps, r));
      case RebootRealm(_) => InRealmTests(r, {Active}, Rebooting(apps, r));
      case StopRealm(_) => InRealmTests(r, {Active}, Ask(r, Mark(r, Halted, Leave(r))));
      case StartApplication(_, a) => ControllerTests(apps, r, a);
      case StopApplication(_, a) => ControllerTests(apps, r, a);
    }
  }

  lemma ControllerTests(apps: Apps, r: nat, a: nat)
    ensures HasTest(OnApplication(apps, r, a))
  {
    var body := if a in apps(r) then Take(App(r, a), Ask(r, Drop(App(r, a), Done))) else Done;
    InRealmTests(r, {Active}, Drop(Realm(r), body));
  }

  // ----- only if -----

  predicate TwoStarts(commands: seq<Command>, r: nat) {
    exists i, j :: 0 <= i < j < |commands| && commands[i] == StartRealm(r) && commands[j] == StartRealm(r)
  }

  /**
    The commands can provision realm r while an application handed out before is still in use: by a
    reboot of the active realm, or by a start after a stop. A halted realm must be started first.
   */
  predicate Exposed(commands: seq<Command>, phases: Phases, r: nat) {
    && r in phases
    && match phases[r]
       case Provisioning => false
       case Active => RebootRealm(r) in commands || (StopRealm(r) in commands && StartRealm(r) in commands)
       case Halted =>
         || (StartRealm(r) in commands && RebootRealm(r) in commands)
         || (StopRealm(r) in commands && TwoStarts(commands, r))
  }

  predicate Blockable(commands: seq<Command>, apps: Apps, phases: Phases) {
    exists j :: 0 <= j < |commands| && (commands[j].StartApplication? || commands[j].StopApplication?)
             && Controls(commands[j], apps, commands[j].r) && Exposed(commands, phases, commands[j].r)
  }

  /** What the two commands facing each other tell about the phases of their realm. */
  lemma FacingPast(commands: seq<Command>, apps: Apps, phases: Phases, moves: seq<Move>, i: nat, j: nat, only: Option<nat>)
    requires Run(Begin(commands, apps, phases), moves).Some?
    requires Facing(Run(Begin(commands, apps, phases), moves).value.tasks, i, j)
    ensures i < |commands| && j < |commands|
    ensures var s := Run(Begin(commands, apps, phases), moves).value;
      var r := s.tasks[i].prog.lock.r;
      && Provisions(commands[i], r) && Controls(commands[j], apps, r)
      && Past(s.tasks[i]) && Past(s.tasks[j]) && (commands[i].StartRealm? ==> HasMark(s.tasks[i].prog))
      && |s.tasks| == |commands|
      && InPhase(phases, r, {Halted, Active})
      && (NoStop(commands, r) ==> StaysActive(s, commands, r))
      && (OnlyStart(commands, r, only) && !InPhase(phases, r, {Active}) ==> NotYet(s, commands, r, only))
  {
    FacingCommands(commands, apps, phases, moves, i, j);
    var begin := Begin(commands, apps, phases);
    var s := Run(begin, moves).value;
    var r := s.tasks[i].prog.lock.r;
    BeginPhases(commands, apps, phases, r);
    RunPhases(begin, moves, commands, r, only);
    assert Typed(s.tasks[i], commands[i], r) && Typed(s.tasks[j], commands[j], r);
    assert Past(s.tasks[i]) && Past(s.tasks[j]);
    assert !Shut(s, commands, r);
  }

  lemma FacingExposes(commands: seq<Command>, apps: Apps, phases: Phases, moves: seq<Move>, i: nat, j: nat)
    requires Run(Begin(commands, apps, phases), moves).Some?
    requires Facing(Run(Begin(commands, apps, phases), moves).value.tasks, i, j)
    ensures Exposed(commands, phases, Run(Begin(commands, apps, phases), moves).value.tasks[i].prog.lock.r)
  {
    var s := Run(Begin(commands, apps, phases), moves).value;
    var r := s.tasks[i].prog.lock.r;
    RunKeepsCount(Begin(commands, apps, phases), moves);
    var only := if commands[i].StartRealm? then Some(i) else None;
    FacingPast(commands, apps, phases, moves, i, j, only);
    assert commands[i] in commands;
    if commands[i].StartRealm? {
      assert Starts(commands[i], s.tasks[i], r);
      assert !NoStop(commands, r);
      var k :| 0 <= k < |commands| && commands[k].StopRealm? && commands[k].r == r;
      assert commands[k] == StopRealm(r);
    }
    if phases[r].Halted? {
      assert !OnlyStart(commands, r, only);
      var k :| 0 <= k < |commands| && commands[k].StartRealm? && commands[k].r == r && only != Some(k);
      assert commands[k] == StartRealm(r);
    }
  }

  /** If the commands are not blockable, no run of them reaches a circular wait, and work left can always go on. */
  lemma NoBlock(commands: seq<Command>, apps: Apps, phases: Phases, moves: seq<Move>)
    requires !Blockable(commands, apps, phases) && Run(Begin(commands, apps, phases), moves).Some?
    ensures var s := Run(Begin(commands, apps, phases), moves).value;
      && (forall cycle :: !CircularWait(s.tasks, cycle))
      && ((exists i :: 0 <= i < |s.tasks| && !s.tasks[i].prog.Done?) ==> exists m :: Next(s, m).Some? && !m.Quit?)
  {
    var begin := Begin(commands, apps, phases);
    RunKeepsCount(begin, moves);
    var s := Run(begin, moves).value;
    var swapped := Reached(s.tasks);
    forall i, k | 0 <= i < |s.tasks| && 0 <= k < |s.tasks| ensures !Facing(s.tasks, i, k) {
      if Facing(s.tasks, i, k) {
        FacingCommands(commands, apps, phases, moves, i, k);
        FacingExposes(commands, apps, phases, moves, i, k);
        assert false;
      }
    }
    forall k | 0 <= k < |s.tasks| ensures Local(s.tasks[k], swapped) { LocalOrFacing(commands, apps, phases, moves, k); }
    forall cycle ensures !CircularWait(s.tasks, cycle) { NoCircularWait(s.tasks, cycle, swapped); }
    if i :| 0 <= i < |s.tasks| && !s.tasks[i].prog.Done? {
      var m := SomeoneCanMoveAbove(s, i, 0, swapped);
    }
  }

  // ----- if: a command on its own -----

  /** Where a command stands that runs alone. */
  datatype Point = Point(prog: Prog, held: set<Lock>, phases: Phases)

  predicate CanGo(p: Point) {
    !p.prog.Done? && (p.prog.Test? ==> InPhase(p.phases, p.prog.r, p.prog.in_))
  }

  function Go(p: Point): Point {
    if p.prog.Done? then p else Point(p.prog.rest, Now(p.prog, p.held), NowPhases(p.prog, p.phases))
  }

  function GoMany(p: Point, n: nat): Point
    decreases n
  {
    if n == 0 then p else GoMany(Go(p), n - 1)
  }

  predicate Clear(p: Point, n: nat)
    decreases n
  {
    n == 0 || (CanGo(p) && Clear(Go(p), n - 1))
  }

  lemma {:induction false} GoMore(p: Point, m: nat, n: nat)
    ensures GoMany(p, m + n) == GoMany(GoMany(p, m), n)
    ensures Clear(p, m) && Clear(GoMany(p, m), n) ==> Clear(p, m + n)
    decreases m
  {
    if m > 0 { GoMore(Go(p), m - 1, n); }
  }

  lemma GoOne(p: Point)
    requires CanGo(p)
    ensures GoMany(p, 1) == Go(p) && Clear(p, 1)
  {
    assert GoMany(Go(p), 0) == Go(p) && Clear(Go(p), 0);
  }

  /** Nobody but command i holds anything. */
  predicate Alone(s: seq<Task>, i: nat) {
    i < |s| && s[i].forked == {} && forall j :: 0 <= j < |s| && j != i ==> s[j].held == {} && s[j].forked == {}
  }

  function PointOf(s: System, i: nat): Point
    requires i < |s.tasks|
  {
    Point(s.tasks[i].prog, s.tasks[i].held, s.phases)
  }

  /** The system with command i at the point. */
  function At(s: System, i: nat, p: Point): System
    requires i < |s.tasks|
  {
    System(s.tasks[i := Task(p.prog, p.held, {})], p.phases)
  }

  lemma {:induction false} RunConcat(s: System, first: seq<Move>, second: seq<Move>)
    requires Run(s, first).Some?
    ensures Run(s, first + second) == Run(Run(s, first).value, second)
    decreases |first|
  {
    if first == [] {
      assert first + second == second;
    } else {
      assert (first + second)[0] == first[0] && (first + second)[1..] == first[1..] + second;
      RunConcat(Next(s, first[0]).value, first[1..], second);
    }
  }

  lemma {:induction false} SoloFork(s: System, i: nat, swapped: set<nat>) returns (moves: seq<Move>)
    requires Alone(s.tasks, i) && TaskOk(s.tasks[i], swapped) && s.tasks[i].prog.Fork?
    ensures Run(s, moves) == Some(At(s, i, Go(PointOf(s, i))))
    decreases |s.tasks[i].prog.locks|
  {
    var t := s.tasks[i];
    if t.prog.locks == {} {
      moves := [Step(i)];
      assert Run(s, moves) == Run(Next(s, moves[0]).value, []);
    } else {
      var l :| l in t.prog.locks;
      assert Above(l, t.held, swapped);
      var s1 := s.(tasks := s.tasks[i := t.(forked := {l})]);
      assert {} + {l} == {l} && {l} - {l} == {};
      assert Next(s, ForkTake(i, l)) == Some(s1);
      var s2 := s.(tasks := s.tasks[i := t.(prog := Fork(t.prog.locks - {l}, t.prog.rest))]);
      assert s1.tasks[i := s2.tasks[i]] == s2.tasks;
      assert Next(s1, ForkDrop(i, l)) == Some(s2);
      var more := SoloFork(s2, i, swapped);
      moves := [ForkTake(i, l), ForkDrop(i, l)] + more;
      assert moves[1..] == [ForkDrop(i, l)] + more && moves[1..][1..] == more;
      assert At(s2, i, Go(PointOf(s2, i))).tasks == At(s, i, Go(PointOf(s, i))).tasks;
    }
  }

  lemma SoloStep(s: System, i: nat, swapped: set<nat>) returns (moves: seq<Move>)
    requires Alone(s.tasks, i) && TaskOk(s.tasks[i], swapped) && CanGo(PointOf(s, i))
    ensures Run(s, moves) == Some(At(s, i, Go(PointOf(s, i))))
    ensures TaskOk(Task(Go(PointOf(s, i)).prog, Go(PointOf(s, i)).held, {}), swapped)
  {
    if s.tasks[i].prog.Fork? {
      moves := SoloFork(s, i, swapped);
    } else {
      moves := [Step(i)];
      assert Run(s, moves) == Run(Next(s, moves[0]).value, []);
    }
  }

  /** A command that holds everything that is held can do its next n operations, if its tests pass. */
  lemma {:induction false} Solo(s: System, i: nat, n: nat, swapped: set<nat>) returns (moves: seq<Move>)
    requires Alone(s.tasks, i) && TaskOk(s.tasks[i], swapped) && Clear(PointOf(s, i), n)
    ensures Run(s, moves) == Some(At(s, i, GoMany(PointOf(s, i), n)))
    ensures Ordered(GoMany(PointOf(s, i), n).prog, GoMany(PointOf(s, i), n).held, swapped)
    decreases n
  {
    if n == 0 {
      moves := [];
      assert s.tasks[i := s.tasks[i]] == s.tasks && s.tasks[i] == Task(s.tasks[i].prog, s.tasks[i].held, {});
    } else {
      var first := SoloStep(s, i, swapped);
      var s1 := Run(s, first).value;
      assert PointOf(s1, i) == Go(PointOf(s, i));
      var second := Solo(s1, i, n - 1, swapped);
      RunConcat(s, first, second);
      moves := first + second;
      var last := GoMany(PointOf(s, i), n);
      assert At(s1, i, last).tasks == At(s, i, last).tasks;
    }
  }

  // ----- if: the points of each command -----

  lemma InRealmPoint(r: nat, in_: set<Phase>, body: Prog, phases: Phases)
    requires InPhase(phases, r, in_)
    ensures var p := Point(InRealm(r, in_, body), {}, phases);
      GoMany(p, 4) == Point(body, {Realm(r)}, phases) && Clear(p, 4)
  {
    var p := Point(InRealm(r, in_, body), {}, phases);
    var p1, p2, p3, p4 := Go(p), Go(Go(p)), Go(Go(Go(p))), Go(Go(Go(Go(p))));
    assert {} + {Warden} - {Warden} == {} && {} + {Realm(r)} == {Realm(r)};
    assert p4 == Point(body, {Realm(r)}, phases);
    GoOne(p3);
    assert GoMany(p2, 2) == p4 && Clear(p2, 2);
    assert GoMany(p1, 3) == p4 && Clear(p1, 3);
  }

  lemma ControllerPoint(apps: Apps, r: nat, a: nat, phases: Phases)
    requires a in apps(r) && InPhase(phases, r, {Active})
    ensures var p := Point(OnApplication(apps, r, a), {}, phases);
      GoMany(p, 5) == Point(Take(App(r, a), Ask(r, Drop(App(r, a), Done))), {}, phases) && Clear(p, 5)
  {
    var body := Drop(Realm(r), Take(App(r, a), Ask(r, Drop(App(r, a), Done))));
    InRealmPoint(r, {Active}, body, phases);
    var p := Point(OnApplication(apps, r, a), {}, phases);
    assert {Realm(r)} - {Realm(r)} == {};
    GoOne(Point(body, {Realm(r)}, phases));
    GoMore(p, 4, 1);
  }

  lemma {:induction false} EachPoint(r: nat, apps: seq<nat>, rest: Prog, held: set<Lock>, phases: Phases, k: nat, n: nat)
    requires k <= |apps| && n == k + k && Client(r) in held
    ensures var p := Point(Each(r, apps, rest), held, phases);
      && GoMany(p, n).prog == Each(r, apps[k..], rest) && Client(r) in GoMany(p, n).held && GoMany(p, n).phases == phases
      && Clear(p, n)
    decreases k
  {
    if k == 0 {
      assert apps[0..] == apps;
    } else {
      var p := Point(Each(r, apps, rest), held, phases);
      var q := Go(Go(p));
      GoOne(Go(p));
      assert GoMany(p, 2) == q && Clear(p, 2);
      EachPoint(r, apps[1..], rest, q.held, phases, k - 1, n - 2);
      GoMore(p, 2, n - 2);
      assert apps[1..][k - 1..] == apps[k..];
    }
  }

  function Tail(c: Command): Prog
    requires c.StartRealm? || c.RebootRealm?
  {
    var last := if c.StartRealm? then Finish(c.r, Leave(c.r)) else Mark(c.r, Active, Leave(c.r));
    Connect(Drop(Client(c.r), last))
  }

  function Within(c: Command, phases: Phases): Phases
    requires c.StartRealm? || c.RebootRealm?
  {
    if c.StartRealm? then phases[c.r := Provisioning] else phases
  }

  lemma StartingPoint(apps: Apps, r: nat, phases: Phases)
    ensures var p := Point(Starting(apps, r), {Realm(r)}, phases);
      GoMany(p, 3) == Point(Each(r, apps(r), Tail(StartRealm(r))), {Realm(r)} + {Client(r)}, phases[r := Provisioning]) && Clear(p, 3)
  {
    var p := Point(Starting(apps, r), {Realm(r)}, phases);
    var p1, p2 := Go(p), Go(Go(p));
    GoOne(p2);
    assert GoMany(p1, 2) == Go(p2) && Clear(p1, 2);
  }

  /** A start or reboot after the first k applications: it has the client lock. */
  lemma ProvisionerPoint(c: Command, apps: Apps, phases: Phases, k: nat) returns (n: nat)
    requires (c.StartRealm? || c.RebootRealm?) && k <= |apps(c.r)| && InPhase(phases, c.r, {NeedsOf(c)})
    ensures var p := Point(Program(c, apps), {}, phases);
      && GoMany(p, n).prog == Each(c.r, apps(c.r)[k..], Tail(c))
      && Client(c.r) in GoMany(p, n).held && GoMany(p, n).phases == Within(c, phases) && Clear(p, n)
  {
    var r := c.r;
    var p := Point(Program(c, apps), {}, phases);
    var body := if c.StartRealm? then Starting(apps, r) else Rebooting(apps, r);
    InRealmPoint(r, {NeedsOf(c)}, body, phases);
    if c.StartRealm? {
      StartingPoint(apps, r, phases);
      GoMore(p, 4, 3);
      n := 7;
    } else {
      GoOne(Point(body, {Realm(r)}, phases));
      GoMore(p, 4, 1);
      n := 5;
    }
    assert GoMany(p, n) == Point(Each(r, apps(r), Tail(c)), {Realm(r)} + {Client(r)}, Within(c, phases));
    EachPoint(r, apps(r), Tail(c), {Realm(r)} + {Client(r)}, Within(c, phases), k, k + k);
    GoMore(p, n, k + k);
    n := n + (k + k);
  }

  lemma TailPoint(r: nat, held: set<Lock>, phases: Phases)
    ensures var p := Point(Tail(StartRealm(r)), held, phases);
      GoMany(p, 5).prog == Done && GoMany(p, 5).phases == phases[r := Active] && Clear(p, 5)
  {
    var p := Point(Tail(StartRealm(r)), held, phases);
    var p1 := Go(p);
    var p2 := Go(p1);
    var p3 := Go(p2);
    var p4 := Go(p3);
    GoOne(p4);
    assert GoMany(p3, 2) == Go(p4) && Clear(p3, 2);
    assert GoMany(p2, 3) == Go(p4) && Clear(p2, 3);
    assert GoMany(p1, 4) == Go(p4) && Clear(p1, 4);
  }

  lemma StartCompletes(apps: Apps, r: nat, phases: Phases) returns (n: nat)
    requires InPhase(phases, r, {Halted})
    ensures var p := Point(Program(StartRealm(r), apps), {}, phases);
      GoMany(p, n).prog == Done && GoMany(p, n).phases == phases[r := Active] && Clear(p, n)
  {
    var p := Point(Program(StartRealm(r), apps), {}, phases);
    n := ProvisionerPoint(StartRealm(r), apps, phases, |apps(r)|);
    var q := GoMany(p, n);
    TailPoint(r, q.held, q.phases);
    GoMore(p, n, 5);
    assert phases[r := Provisioning][r := Active] == phases[r := Active];
    n := n + 5;
  }

  lemma StopCompletes(apps: Apps, r: nat, phases: Phases)
    requires InPhase(phases, r, {Active})
    ensures var p := Point(Program(StopRealm(r), apps), {}, phases);
      GoMany(p, 8).prog == Done && GoMany(p, 8).phases == phases[r := Halted] && Clear(p, 8)
  {
    var body := Ask(r, Mark(r, Halted, Leave(r)));
    InRealmPoint(r, {Active}, body, phases);
    var p, q := Point(Program(StopRealm(r), apps), {}, phases), Point(body, {Realm(r)}, phases);
    var q1 := Go(q);
    var q2 := Go(q1);
    var q3 := Go(q2);
    GoOne(q3);
    assert GoMany(q2, 2) == Go(q3) && Clear(q2, 2);
    assert GoMany(q1, 3) == Go(q3) && Clear(q1, 3);
    assert GoMany(q, 4) == Go(q3) && Clear(q, 4);
    GoMore(p, 4, 4);
  }

  // ----- if: the runs -----

  /** Nobody holds anything. */
  predicate Resting(s: System) {
    forall k :: 0 <= k < |s.tasks| ==> s.tasks[k].held == {} && s.tasks[k].forked == {}
  }

  /** Command i has not begun. */
  predicate Unbegun(s: System, i: nat, c: Command, apps: Apps) {
    i < |s.tasks| && s.tasks[i] == Task(Program(c, apps), {}, {})
  }

  lemma Complete(s: System, i: nat, c: Command, apps: Apps, n: nat, swapped: set<nat>) returns (moves: seq<Move>)
    requires Resting(s) && Unbegun(s, i, c, apps) && Fits(c, apps, swapped)
    requires Clear(PointOf(s, i), n) && GoMany(PointOf(s, i), n).prog.Done?
    ensures Run(s, moves) == Some(System(s.tasks[i := Task(Done, {}, {})], GoMany(PointOf(s, i), n).phases))
  {
    ProgramOrdered(c, apps, swapped);
    moves := Solo(s, i, n, swapped);
  }

  lemma CompleteStart(s: System, i: nat, r: nat, apps: Apps) returns (moves: seq<Move>)
    requires Resting(s) && Unbegun(s, i, StartRealm(r), apps) && InPhase(s.phases, r, {Halted})
    ensures Run(s, moves) == Some(System(s.tasks[i := Task(Done, {}, {})], s.phases[r := Active]))
  {
    var n := StartCompletes(apps, r, s.phases);
    moves := Complete(s, i, StartRealm(r), apps, n, {r});
  }

  lemma CompleteStop(s: System, i: nat, r: nat, apps: Apps) returns (moves: seq<Move>)
    requires Resting(s) && Unbegun(s, i, StopRealm(r), apps) && InPhase(s.phases, r, {Active})
    ensures Run(s, moves) == Some(System(s.tasks[i := Task(Done, {}, {})], s.phases[r := Halted]))
  {
    StopCompletes(apps, r, s.phases);
    moves := Complete(s, i, StopRealm(r), apps, 8, {});
  }

  /** The application has been handed out; its lock is next. */
  function HandedOut(r: nat, a: nat): Task {
    Task(Take(App(r, a), Ask(r, Drop(App(r, a), Done))), {}, {})
  }

  lemma HandOut(s: System, j: nat, d: Command, apps: Apps) returns (moves: seq<Move>)
    requires (d.StartApplication? || d.StopApplication?) && d.a in apps(d.r)
    requires Resting(s) && Unbegun(s, j, d, apps) && InPhase(s.phases, d.r, {Active})
    ensures Run(s, moves) == Some(s.(tasks := s.tasks[j := HandedOut(d.r, d.a)]))
  {
    ControllerPoint(apps, d.r, d.a, s.phases);
    ProgramOrdered(d, apps, {});
    moves := Solo(s, j, 5, {});
  }

  /** From a state where i wants the application lock and j is about to take it, one move closes the circle. */
  lemma LastMoveBlocks(s: System, i: nat, j: nat, r: nat, a: nat) returns (t: System)
    requires i < |s.tasks| && j < |s.tasks| && i != j
    requires forall k :: 0 <= k < |s.tasks| && k != i ==> s.tasks[k].held == {} && s.tasks[k].forked == {}
    requires s.tasks[i].forked == {} && App(r, a) !in s.tasks[i].held && Client(r) in s.tasks[i].held
    requires s.tasks[i].prog.Take? && s.tasks[i].prog.lock == App(r, a)
    requires s.tasks[j] == HandedOut(r, a)
    ensures Run(s, [Step(j)]) == Some(t) && CircularWait(t.tasks, [i, j])
  {
    t := s.(tasks := s.tasks[j := Task(Ask(r, Drop(App(r, a), Done)), {App(r, a)}, {})]);
    assert {} + {App(r, a)} == {App(r, a)};
    assert Next(s, Step(j)) == Some(t);
    assert Run(s, [Step(j)]) == Run(t, []);
    assert App(r, a) in Wanted(t.tasks[i]) && Client(r) in Wanted(t.tasks[j]);
    assert WaitsFor(t.tasks[i], t.tasks[j]) && WaitsFor(t.tasks[j], t.tasks[i]);
  }

  /** A provisioning begins while an application is handed out. */
  lemma ClashFrom(s: System, i: nat, j: nat, c: Command, apps: Apps, a: nat) returns (moves: seq<Move>, t: System)
    requires Resting(s) && i != j && j < |s.tasks|
    requires (c.StartRealm? || c.RebootRealm?) && Unbegun(s, i, c, apps) && InPhase(s.phases, c.r, {NeedsOf(c)})
    requires a in apps(c.r) && s.tasks[j] == HandedOut(c.r, a)
    ensures Run(s, moves) == Some(t) && CircularWait(t.tasks, [i, j])
  {
    var r := c.r;
    var k :| 0 <= k < |apps(r)| && apps(r)[k] == a;
    var n := ProvisionerPoint(c, apps, s.phases, k);
    ProgramOrdered(c, apps, {r});
    var first := Solo(s, i, n, {r});
    var s1 := Run(s, first).value;
    assert s1.tasks[i].prog.lock == App(r, a);
    assert App(r, a) !in s1.tasks[i].held;
    t := LastMoveBlocks(s1, i, j, r, a);
    RunConcat(s, first, [Step(j)]);
    moves := first + [Step(j)];
  }

  ghost predicate CanBlock(s: System) {
    exists moves, cycle :: Run(s, moves).Some? && CircularWait(Run(s, moves).value.tasks, cycle)
  }

  lemma BlockAfter(s: System, first: seq<Move>, t: System)
    requires Run(s, first) == Some(t) && CanBlock(t)
    ensures CanBlock(s)
  {
    var second, cycle :| Run(t, second).Some? && CircularWait(Run(t, second).value.tasks, cycle);
    RunConcat(s, first, second);
    assert CircularWait(Run(s, first + second).value.tasks, cycle);
  }

  /** An active realm: a reboot, or a stop and a start, behind an application command. */
  lemma ActiveBlocks(s: System, j: nat, d: Command, apps: Apps, i: nat, c: Command, k: nat)
    requires (d.StartApplication? || d.StopApplication?) && d.a in apps(d.r) && Unbegun(s, j, d, apps)
    requires Resting(s) && i != j && InPhase(s.phases, d.r, {Active})
    requires (c.StartRealm? || c.RebootRealm?) && c.r == d.r && Unbegun(s, i, c, apps)
    requires c.StartRealm? ==> k != i && k != j && Unbegun(s, k, StopRealm(d.r), apps)
    ensures CanBlock(s)
  {
    var m1 := HandOut(s, j, d, apps);
    var s1 := Run(s, m1).value;
    if c.StartRealm? {
      var m2 := CompleteStop(s1, k, d.r, apps);
      var s2 := Run(s1, m2).value;
      var m3, t := ClashFrom(s2, i, j, c, apps, d.a);
      assert CircularWait(Run(s2, m3).value.tasks, [i, j]);
      BlockAfter(s1, m2, s2);
    } else {
      var m3, t := ClashFrom(s1, i, j, c, apps, d.a);
      assert CircularWait(Run(s1, m3).value.tasks, [i, j]);
    }
    BlockAfter(s, m1, s1);
  }

  /** A halted realm: a start first, and then as for an active one. */
  lemma HaltedBlocks(s: System, j: nat, d: Command, apps: Apps, b: nat, i: nat, c: Command, k: nat)
    requires (d.StartApplication? || d.StopApplication?) && d.a in apps(d.r) && Unbegun(s, j, d, apps)
    requires Resting(s) && i != j && b != i && b != j && InPhase(s.phases, d.r, {Halted}) && Unbegun(s, b, StartRealm(d.r), apps)
    requires (c.StartRealm? || c.RebootRealm?) && c.r == d.r && Unbegun(s, i, c, apps)
    requires c.StartRealm? ==> k != i && k != j && k != b && Unbegun(s, k, StopRealm(d.r), apps)
    ensures CanBlock(s)
  {
    var m := CompleteStart(s, b, d.r, apps);
    var s1 := Run(s, m).value;
    ActiveBlocks(s1, j, d, apps, i, c, k);
    BlockAfter(s, m, s1);
  }

  lemma BeginRests(commands: seq<Command>, apps: Apps, phases: Phases)
    ensures var s := Begin(commands, apps, phases);
      Resting(s) && forall k :: 0 <= k < |commands| ==> Unbegun(s, k, commands[k], apps)
  {}

  lemma BlockableBlocks(commands: seq<Command>, apps: Apps, phases: Phases)
    requires Blockable(commands, apps, phases)
    ensures CanBlock(Begin(commands, apps, phases))
  {
    var s := Begin(commands, apps, phases);
    BeginRests(commands, apps, phases);
    var j :| 0 <= j < |commands| && (commands[j].StartApplication? || commands[j].StopApplication?)
          && Controls(commands[j], apps, commands[j].r) && Exposed(commands, phases, commands[j].r);
    var d, r := commands[j], commands[j].r;
    var k := if StopRealm(r) in commands then IndexOf(commands, StopRealm(r)) else 0;
    if phases[r].Active? {
      var c := if RebootRealm(r) in commands then RebootRealm(r) else StartRealm(r);
      ActiveBlocks(s, j, d, apps, IndexOf(commands, c), c, k);
    } else if RebootRealm(r) in commands && StartRealm(r) in commands {
      HaltedBlocks(s, j, d, apps, IndexOf(commands, StartRealm(r)), IndexOf(commands, RebootRealm(r)), RebootRealm(r), k);
    } else {
      var i, b :| 0 <= i < b < |commands| && commands[i] == StartRealm(r) && commands[b] == StartRealm(r);
      HaltedBlocks(s, j, d, apps, b, i, StartRealm(r), k);
    }
  }

  function IndexOf(commands: seq<Command>, c: Command): (i: nat)
    requires c in commands
    ensures i < |commands| && commands[i] == c
  {
    if commands[0] == c then 0 else IndexOf(commands[1..], c) + 1
  }

  /**
    For every list of commands and every initial phase of the realms: a circular wait is reachable
    if and only if the commands are blockable.
   */
  lemma CanBlockIff(commands: seq<Command>, apps: Apps, phases: Phases)
    ensures CanBlock(Begin(commands, apps, phases)) <==> Blockable(commands, apps, phases)
  {
    if Blockable(commands, apps, phases) {
      BlockableBlocks(commands, apps, phases);
    } else {
      forall moves, cycle | Run(Begin(commands, apps, phases), moves).Some?
        ensures !CircularWait(Run(Begin(commands, apps, phases), moves).value.tasks, cycle)
      {
        NoBlock(commands, apps, phases, moves);
      }
    }
  }

  /** A command gathers provisioning data of a realm while another controls one of its applications. */
  predicate Conflict(commands: seq<Command>, apps: Apps) {
    exists i, j :: 0 <= i < |commands| && 0 <= j < |commands| && Clash(commands[i], commands[j], apps)
  }

  predicate Clash(c: Command, d: Command, apps: Apps) {
    (c.StartRealm? || c.RebootRealm?) && Controls(d, apps, c.r)
  }

  lemma BlockableConflicts(commands: seq<Command>, apps: Apps, phases: Phases)
    requires Blockable(commands, apps, phases)
    ensures Conflict(commands, apps)
  {
    var j :| 0 <= j < |commands| && (commands[j].StartApplication? || commands[j].StopApplication?)
          && Controls(commands[j], apps, commands[j].r) && Exposed(commands, phases, commands[j].r);
    var r := commands[j].r;
    var i := IndexOf(commands, if RebootRealm(r) in commands then RebootRealm(r) else StartRealm(r));
    assert Clash(commands[i], commands[j], apps);
  }

  /** Commands of which no two clash never block, whatever the phases of the realms. */
  lemma NoClashNoBlock(commands: seq<Command>, apps: Apps, phases: Phases)
    requires !Conflict(commands, apps)
    ensures !CanBlock(Begin(commands, apps, phases))
  {
    CanBlockIff(commands, apps, phases);
    if Blockable(commands, apps, phases) { BlockableConflicts(commands, apps, phases); }
  }

  /** Nor do commands among which there is neither a reboot nor a stop: a start finds no application in use. */
  lemma StartsAloneNeverBlock(commands: seq<Command>, apps: Apps, phases: Phases)
    requires forall k :: 0 <= k < |commands| ==> !commands[k].RebootRealm? && !commands[k].StopRealm?
    ensures !CanBlock(Begin(commands, apps, phases))
  {
    CanBlockIff(commands, apps, phases);
  }
}
