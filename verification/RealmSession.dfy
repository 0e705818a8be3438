/**
  A realm together with its connection: the commands of `RealmManager` with the calls they make on
  the realm client. Whether a provisioning or a shutdown succeeded is no longer an input here; it
  is what the request/response protocol delivers. Clients that hold an application use the
  connection whenever its lock is free.
 */
module RealmSession {
  import opened Outcomes
  import opened Latches
  import opened Application
  import Life = RealmLifecycle
  import Link = RealmLink

  datatype Session = Session(realm: Life.Realm, link: Link.Sender)

  datatype BootIo = BootIo(finished: seq<Uuid>, prepare: Uuid -> TaskIo, launch: Life.LaunchIo)

  /** `between`: what other clients ask of applications while a token fetch has released the client lock. */
  datatype Act =
    | Start(boot: BootIo, order: seq<Uuid>, readOk: Uuid -> bool, stream: Option<nat>, io: Link.ReadIo, status: Life.StatusIo,
            shutdown: Life.ShutdownIo)
    | Stop(io: Link.ReadIo, shutdown: Life.ShutdownIo)
    | Reboot(order: seq<Uuid>, readOk: Uuid -> bool, stream: Option<nat>, io: Link.ReadIo)
    | FetchToken(boot: BootIo, stream: Option<nat>, io: Link.ReadIo, between: seq<AppCall>, stopIo: Link.ReadIo,
                 shutdown: Life.ShutdownIo)
    | CreateApplication(id: Uuid, config: AppConfig, create: Life.CreateAppIo)
    | UpdateApplication(id: Uuid, config: AppConfig, save: SaveIo)
    | OnApplication(call: AppCall)
    | RealmGoesOn(acts: seq<Link.RealmAct>)   // nobody calls; the realm handles requests, or ends
    | InspectRealm(io: Link.ReadIo)
    | DestroyRealm(io: Link.ReadIo, shutdown: Life.ShutdownIo)

  datatype AppCall = StartApp(id: Uuid, io: Link.ReadIo) | StopApp(id: Uuid, io: Link.ReadIo, killIo: Link.ReadIo)

  function CallOf(c: AppCall): Link.Call {
    match c
    case StartApp(id, io) => Link.StartApplication(id, io)
    case StopApp(id, io, killIo) => Link.StopApplication(id, io, killIo)
  }

  function AppCalls(h: Link.Sender, calls: seq<AppCall>): Link.Sender
    decreases |calls|
  {
    if calls == [] then h else AppCalls(Link.Do(h, CallOf(calls[0])).0, calls[1..])
  }

  /** try_connect, then one more call if it succeeded. */
  function ConnectThen(h: Link.Sender, stream: Option<nat>, call: Link.Call): (Link.Sender, bool) {
    var (h1, connected) := Link.Do(h, Link.TryConnect(stream));
    if connected.Err? then (h1, false)
    else
      var (h2, r) := Link.Do(h1, call);
      (h2, r.Ok?)
  }

  predicate OrdersFit(r: Life.Realm, a: Act) {
    a.Start? || a.Reboot? ==> Life.OrderFits(r, a.order)
  }

  predicate Boots(r: Life.Realm, boot: BootIo) {
    r.registered && r.state.Halted? && Life.Boot(r, boot.finished, boot.prepare, boot.launch).1.Ok?
  }

  predicate Active(r: Life.Realm) {
    r.registered && Life.Up(r.state)
  }

  /** The provisioning data a start gathers, once its VM is launched; `None` if it does not get there. */
  function Gathered(r: Life.Realm, a: Act): Option<seq<AppData>>
    requires a.Start? && OrdersFit(r, a)
  {
    if Boots(r, a.boot) then
      Life.PrepareKeepsKeys(r.apps, a.boot.prepare);
      Life.ProvisioningData(Life.Prepared(r.apps, a.boot.prepare), a.order, a.readOk)
    else None
  }

  /** The connection after the command's calls, and whether the last provisioning, fetch or shutdown succeeded. */
  function StartCalls(s: Session, a: Act): (Link.Sender, bool)
    requires a.Start? && OrdersFit(s.realm, a)
  {
    if Gathered(s.realm, a).None? then (s.link, false) else ConnectThen(s.link, a.stream, Link.Provision(Gathered(s.realm, a).value, a.io))
  }

  function StopCalls(s: Session, a: Act): (Link.Sender, bool)
    requires a.Stop?
  {
    if !Active(s.realm) then (s.link, false)
    else
      var (h, r) := Link.Do(s.link, Link.ShutdownRealm(a.io));
      (h, r.Ok?)
  }

  /** The reboot gets as far as its calls. */
  predicate Reboots(r: Life.Realm, a: Act) {
    a.Reboot? && Active(r) && OrdersFit(r, a) && Life.ProvisioningData(r.apps, a.order, a.readOk).Some?
  }

  function RebootData(r: Life.Realm, a: Act): seq<AppData>
    requires Reboots(r, a)
  {
    Life.ProvisioningData(r.apps, a.order, a.readOk).value
  }

  function RebootCalls(s: Session, a: Act): (Link.Sender, bool)
    requires a.Reboot? && OrdersFit(s.realm, a)
  {
    if !Reboots(s.realm, a) then (s.link, false)
    else
      var (h, r) := Link.Do(s.link, Link.RebootRealm(RebootData(s.realm, a), a.stream, a.io));
      (h, r.Ok?)
  }

  /** A fetch: the connection, whether the token came, and (from a halted realm) whether the shutdown succeeded. */
  function FetchCalls(s: Session, a: Act): (Link.Sender, bool, bool)
    requires a.FetchToken?
  {
    if Boots(s.realm, a.boot) then
      var (h1, fetched) := ConnectThen(s.link, a.stream, Link.FetchToken(a.io));
      var (h2, r) := Link.Do(AppCalls(h1, a.between), Link.ShutdownRealm(a.stopIo));
      (h2, fetched, r.Ok?)
    else if Active(s.realm) then
      var (h, r) := Link.Do(s.link, Link.FetchToken(a.io));
      (h, r.Ok?, false)
    else (s.link, false, false)
  }

  /** The command as the realm manager sees it, with the outcomes its connection gave it. */
  function CommandOf(s: Session, a: Act): Option<Life.Command>
    requires OrdersFit(s.realm, a)
  {
    match a
    case Start(boot, order, readOk, stream, io, status, shutdown) =>
      Some(Life.Start(Life.StartIo(boot.finished, boot.prepare, order, boot.launch, readOk, StartCalls(s, a).1, status, shutdown)))
    case Stop(io, shutdown) => Some(Life.Stop(Life.StopIo(StopCalls(s, a).1, shutdown)))
    case Reboot(order, readOk, stream, io) => Some(Life.Reboot(Life.RebootIo(order, readOk, RebootCalls(s, a).1)))
    case FetchToken(boot, stream, io, between, stopIo, shutdown) =>
      var (h, fetched, stopped) := FetchCalls(s, a);
      Some(Life.FetchToken(Life.FetchIo(boot.finished, boot.prepare, boot.launch, fetched, stopped, shutdown)))
    case CreateApplication(id, config, create) => Some(Life.CreateApplication(id, config, create))
    case UpdateApplication(id, config, save) => Some(Life.UpdateApplication(id, config, save))
    case DestroyRealm(io, shutdown) => Some(Life.Destroy(shutdown))
    case OnApplication(_) => None
    case RealmGoesOn(_) => None
    case InspectRealm(_) => None
  }

  function LinkAfter(s: Session, a: Act): Link.Sender
    requires OrdersFit(s.realm, a)
  {
    match a
    case Start(_, _, _, _, _, _, _) => StartCalls(s, a).0
    case Stop(_, _) => StopCalls(s, a).0
    case Reboot(_, _, _, _) => RebootCalls(s, a).0
    case FetchToken(_, _, _, _, _, _) => FetchCalls(s, a).0
    case OnApplication(call) => Link.Do(s.link, CallOf(call)).0
    case RealmGoesOn(acts) => Link.Do(s.link, Link.Idle(acts)).0
    case InspectRealm(io) => if Active(s.realm) then Link.Do(s.link, Link.ReadIfs(io)).0 else s.link
    case DestroyRealm(io, _) => if Active(s.realm) then Link.Do(s.link, Link.ReadIfs(io)).0 else s.link
    case CreateApplication(_, _, _) => s.link
    case UpdateApplication(_, _, _) => s.link
  }

  function Step(s: Session, a: Act): Session
    requires OrdersFit(s.realm, a)
  {
    var c := CommandOf(s, a);
    Session(if c.Some? then Life.Apply(s.realm, c.value).0 else s.realm, LinkAfter(s, a))
  }

  ghost predicate Fits(s: Session, a: Act) {
    && (a.Start? || a.FetchToken? ==> Life.IsOrder(a.boot.finished, s.realm.apps.Keys))
    && (a.Start? || a.Reboot? ==> Life.IsOrder(a.order, s.realm.apps.Keys))
  }

  ghost predicate IsRun(trace: seq<Session>, acts: seq<Act>) {
    && |trace| == |acts| + 1
    && trace[0].realm.state.Halted? && trace[0].realm.vm.None? && trace[0].realm.acked.None? && trace[0].realm.registered
    && trace[0].link.None?
    && forall i :: 0 <= i < |acts| ==> Fits(trace[i], acts[i]) && Step(trace[i], acts[i]) == trace[i + 1]
  }

  // ----- how the state moves -----

  /** A realm becomes active by a start that the realm acknowledged, and ceases to be by a stop that ended its VM. */
  lemma ActiveAfter(s: Session, a: Act)
    requires Fits(s, a)
    ensures Active(Step(s, a).realm) <==>
      || (a.Start? && StartCalls(s, a).1)
      || (Active(s.realm) && !(a.Stop? && StopCalls(s, a).1 && s.realm.vm.Some? && Life.Reaps(a.shutdown)))
    ensures a.Start? && StartCalls(s, a).1 ==> !Active(s.realm) && a.stream.Some?
  {}

  // ----- the connection of an active realm -----

  /** Active, but without a connection. */
  predicate Severed(s: Session) { Active(s.realm) && s.link.None? }

  /** A stop that shut the realm down but could not end its VM. */
  predicate Severs(s: Session, a: Act) {
    a.Stop? && StopCalls(s, a).1 && (s.realm.vm.Some? ==> !Life.Reaps(a.shutdown))
  }

  lemma CallsKeepLink(h: Link.Sender, call: Link.Call)
    requires !call.ShutdownRealm?
    ensures h.Some? ==> Link.Do(h, call).0.Some?
    ensures h.None? ==> (Link.Do(h, call).0.Some? ==> call.TryConnect?) && (!call.TryConnect? ==> Link.Do(h, call).1.Err?)
  {}

  lemma ConnectedHasLink(h: Link.Sender, stream: Option<nat>, call: Link.Call)
    requires !call.ShutdownRealm? && ConnectThen(h, stream, call).1
    ensures ConnectThen(h, stream, call).0.Some?
  {
    CallsKeepLink(h, Link.TryConnect(stream));
    CallsKeepLink(Link.Do(h, Link.TryConnect(stream)).0, call);
  }

  /** While the realm is and stays active, its connection is given up by a completed shutdown only. */
  lemma LinkAfterActive(s: Session, a: Act)
    requires Fits(s, a) && Active(s.realm)
    ensures Step(s, a).link.None? <==> s.link.None? || (a.Stop? && StopCalls(s, a).1)
  {
    match a
    case Reboot(_, _, stream, io) =>
      if Reboots(s.realm, a) { CallsKeepLink(s.link, Link.RebootRealm(RebootData(s.realm, a), stream, io)); }
    case FetchToken(_, _, io, _, _, _) => CallsKeepLink(s.link, Link.FetchToken(io));
    case OnApplication(call) => CallsKeepLink(s.link, CallOf(call));
    case RealmGoesOn(acts) => CallsKeepLink(s.link, Link.Idle(acts));
    case InspectRealm(io) => CallsKeepLink(s.link, Link.ReadIfs(io));
    case DestroyRealm(io, _) => CallsKeepLink(s.link, Link.ReadIfs(io));
    case _ =>
  }

  lemma SeveredIff(s: Session, a: Act)
    requires Fits(s, a)
    ensures Severed(Step(s, a)) <==> Severed(s) || Severs(s, a)
  {
    ActiveAfter(s, a);
    if Active(s.realm) { LinkAfterActive(s, a); }
    if a.Start? && StartCalls(s, a).1 { ConnectedHasLink(s.link, a.stream, Link.Provision(Gathered(s.realm, a).value, a.io)); }
  }

  /** An active realm has lost its connection exactly if some stop shut it down and then failed to end the VM. */
  lemma {:induction false} SeveredAccount(trace: seq<Session>, acts: seq<Act>, n: nat)
    requires IsRun(trace, acts) && n <= |acts|
    ensures Severed(trace[n]) <==> exists i :: 0 <= i < n && Severs(trace[i], acts[i])
    decreases n
  {
    if n > 0 {
      SeveredAccount(trace, acts, n - 1);
      SeveredIff(trace[n - 1], acts[n - 1]);
    }
  }

  /** A severed realm keeps its VM and stays severed: no stop, reboot, start, token fetch or destruction ever succeeds on it. */
  lemma SeveredIsFinal(s: Session, a: Act)
    requires Fits(s, a) && Severed(s)
    ensures Severed(Step(s, a)) && Step(s, a).realm.vm == s.realm.vm && Step(s, a).link == s.link
    ensures a.Start? || a.Stop? || a.Reboot? || a.FetchToken? || a.CreateApplication? || a.DestroyRealm? ==>
      CommandOf(s, a).Some? && Life.Apply(s.realm, CommandOf(s, a).value).1.Err?
  {
    SeveredIff(s, a);
  }

  // ----- the realm at the other end -----

  /** The k-th request was a provisioning, and the realm answered it with success. */
  predicate Acknowledged(c: Link.Conn, k: nat) {
    k < |c.sent| && k < |c.written| && c.sent[k].ProvisionInfo? && c.written[k].resp.Success?
  }

  /** The realm at the other end of the connection has acknowledged its provisioning. */
  predicate Told(h: Link.Sender) {
    h.Some? && exists k :: 0 <= k < |h.value.written| && Acknowledged(h.value, k)
  }

  /** The realm at the other end has been sent away: its connection carried a reboot or a shutdown. */
  predicate Dismissed(h: Link.Sender) {
    h.Some? && exists k :: 0 <= k < |h.value.sent| && (h.value.sent[k].Reboot? || h.value.sent[k].Shutdown?)
  }

  /** Only the first request of a connection can be a provisioning. */
  predicate ProvisionFirst(h: Link.Sender) {
    h.Some? ==> forall k :: 1 <= k < |h.value.sent| ==> !h.value.sent[k].ProvisionInfo?
  }

  predicate Opened(h: Link.Sender) {
    h.Some? && |h.value.sent| > 0 && h.value.sent[0].ProvisionInfo?
  }

  /** What every run keeps of the connection; that of an active realm began with a provisioning. */
  predicate LinkOk(s: Session) {
    && Link.SenderOk(s.link) && ProvisionFirst(s.link)
    && (Active(s.realm) && s.link.Some? ==> Opened(s.link))
  }

  /** What the realm does about a provisioning: nothing yet, a reply, or it ends before that. */
  datatype Word = Silence | Says(resp: Link.Response) | Ended

  function FirstWord(acts: seq<Link.RealmAct>): Word
    decreases |acts|
  {
    if acts == [] then Silence
    else if acts[0].Dies? then Ended
    else if acts[0].Answers? && (acts[0].resp.Success? || acts[0].resp.Error?) then Says(acts[0].resp)
    else FirstWord(acts[1..])
  }

  lemma {:induction false} FirstWordDecides(c: Link.Conn, acts: seq<Link.RealmAct>)
    requires c.up && c.written == [] && c.toRealm != [] && c.toRealm[0].ProvisionInfo?
    ensures var d := Link.RealmTurns(c, acts);
      match FirstWord(acts)
      case Silence => d.written == [] && d.up
      case Ended => d.written == [] && !d.up
      case Says(resp) => d.written != [] && d.written[0].resp == resp
    decreases |acts|
  {
    if acts != [] {
      var d := Link.RealmTurn(c, acts[0]);
      if acts[0].Dies? {
        Link.StaysDown(d, acts[1..]);
      } else if d.written == [] {
        assert d == c;
        FirstWordDecides(c, acts[1..]);
      } else {
        Link.TurnsExtend(d, acts[1..]);
      }
    }
  }

  /** Of a connection that began with a provisioning: the realm was told exactly if its first reply is a success. */
  lemma ToldByFirstReply(h: Link.Sender)
    requires Link.SenderOk(h) && ProvisionFirst(h) && Opened(h)
    ensures Told(h) <==> h.value.written != [] && h.value.written[0].resp == Link.Success
  {
    if h.value.written != [] && h.value.written[0].resp == Link.Success {
      assert Acknowledged(h.value, 0);
    }
  }

  /** The realm has yet to deal with the provisioning. */
  predicate Pending(c: Link.Conn) { c.written == [] && c.up }

  /** What turns of the realm do to a connection that began with a provisioning. */
  lemma TurnsTell(c: Link.Conn, acts: seq<Link.RealmAct>)
    requires Link.StreamOk(c) && ProvisionFirst(Some(c)) && Opened(Some(c))
    ensures var d := Link.RealmTurns(c, acts);
      && (d.written != [] && d.written[0].resp.Success? <==>
          (c.written != [] && c.written[0].resp.Success?) || (Pending(c) && FirstWord(acts) == Says(Link.Success)))
      && (Pending(d) <==> Pending(c) && FirstWord(acts) == Silence)
  {
    Link.TurnsExtend(c, acts);
    if Pending(c) {
      assert c.toRealm[0] == c.sent[0];
      FirstWordDecides(c, acts);
    } else if !c.up {
      Link.StaysDown(c, acts);
    }
  }

  /** One request on a connection that began with a provisioning. */
  lemma AskTells(c: Link.Conn, req: Link.Request, io: Link.ReadIo)
    requires Link.ConnOk(c) && ProvisionFirst(Some(c)) && Opened(Some(c)) && !req.ProvisionInfo?
    ensures var h := Link.Ask(Some(c), req, io).0;
      && h.Some? && Link.SenderOk(h) && ProvisionFirst(h) && Opened(h)
      && (Told(h) <==> Told(Some(c)) || (Pending(c) && FirstWord(io.acts) == Says(Link.Success)))
      && (Pending(h.value) <==> Pending(c) && FirstWord(io.acts) == Silence)
  {
    Link.AskKeeps(Some(c), req, io);
    Link.AskConfirms(c, req, io);
    var h := Link.Ask(Some(c), req, io).0;
    if !Link.CannotSend(Some(c), io) {
      var d := Link.Send(c, req);
      Link.SendKeeps(c, req);
      TurnsTell(d, io.acts);
      var e := Link.RealmTurns(d, io.acts);
      assert h.value.written == e.written && h.value.up == e.up;
    }
    ToldByFirstReply(Some(c));
    ToldByFirstReply(h);
  }

  /** What the realm does on the connection during a call. */
  function Heard(h: Link.Sender, call: Link.Call): seq<Link.RealmAct>
    requires !call.TryConnect? && !call.RebootRealm?
  {
    if call.StopApplication? then
      var reply := Link.Ask(h, Link.StopApp(call.id), call.io).1;
      call.io.acts + (if reply.Ok? && !reply.value.resp.Success? then call.killIo.acts else [])
    else if call.Idle? then call.acts
    else call.io.acts
  }

  lemma {:induction false} FirstWordConcat(a: seq<Link.RealmAct>, b: seq<Link.RealmAct>)
    ensures FirstWord(a + b) == if FirstWord(a) == Silence then FirstWord(b) else FirstWord(a)
    decreases |a|
  {
    if a == [] {
      assert a + b == b;
    } else {
      assert (a + b)[0] == a[0] && (a + b)[1..] == a[1..] + b;
      FirstWordConcat(a[1..], b);
    }
  }

  /** A call on an existing connection, other than a provisioning. */
  predicate Plain(call: Link.Call) {
    !call.TryConnect? && !call.RebootRealm? && !call.Provision?
  }

  lemma CallTells(c: Link.Conn, call: Link.Call)
    requires Link.ConnOk(c) && ProvisionFirst(Some(c)) && Opened(Some(c)) && Plain(call)
    ensures var h := Link.Do(Some(c), call).0;
      h.Some? ==>
        && Link.SenderOk(h) && ProvisionFirst(h) && Opened(h)
        && (Told(h) <==> Told(Some(c)) || (Pending(c) && FirstWord(Heard(Some(c), call)) == Says(Link.Success)))
        && (Dismissed(h) <==> Dismissed(Some(c)) || (call.ShutdownRealm? && !Link.CannotSend(Some(c), call.io)))
  {
    match call
    case Idle(acts) => IdleTells(c, acts);
    case FetchToken(io) => AskTells(c, Link.GetAttestationToken, io); OneMoreSent(c, Link.GetAttestationToken, io);
    case ReadIfs(io) => AskTells(c, Link.GetIfAddrs, io); OneMoreSent(c, Link.GetIfAddrs, io);
    case StartApplication(id, io) => AskTells(c, Link.StartApp(id), io); OneMoreSent(c, Link.StartApp(id), io);
    case KillApplication(id, io) => AskTells(c, Link.KillApp(id), io); OneMoreSent(c, Link.KillApp(id), io);
    case ShutdownRealm(io) => AskTells(c, Link.Shutdown, io); OneMoreSent(c, Link.Shutdown, io);
    case StopApplication(id, io, killIo) => StopTells(c, id, io, killIo);
  }

  lemma IdleTells(c: Link.Conn, acts: seq<Link.RealmAct>)
    requires Link.ConnOk(c) && ProvisionFirst(Some(c)) && Opened(Some(c))
    ensures var h: Link.Sender := Some(Link.RealmTurns(c, acts));
      && Link.SenderOk(h) && ProvisionFirst(h) && Opened(h) && (Dismissed(h) <==> Dismissed(Some(c)))
      && (Told(h) <==> Told(Some(c)) || (Pending(c) && FirstWord(acts) == Says(Link.Success)))
  {
    Link.DoKeeps(Some(c), Link.Idle(acts));
    Link.TurnsKeep(c, acts);
    TurnsTell(c, acts);
    ToldByFirstReply(Some(c));
    ToldByFirstReply(Some(Link.RealmTurns(c, acts)));
  }

  lemma OneMoreSent(c: Link.Conn, req: Link.Request, io: Link.ReadIo)
    requires Link.ConnOk(c)
    ensures Dismissed(Link.Ask(Some(c), req, io).0) <==>
      Dismissed(Some(c)) || ((req.Reboot? || req.Shutdown?) && !Link.CannotSend(Some(c), io))
  {
    Link.AskConfirms(c, req, io);
    if !Link.CannotSend(Some(c), io) { SentMore(c.sent, req, Link.Ask(Some(c), req, io).0.value.sent); }
  }

  lemma SentMore(sent: seq<Link.Request>, req: Link.Request, more: seq<Link.Request>)
    requires more == sent + [req]
    ensures (exists k :: 0 <= k < |more| && (more[k].Reboot? || more[k].Shutdown?)) <==>
      (exists k :: 0 <= k < |sent| && (sent[k].Reboot? || sent[k].Shutdown?)) || req.Reboot? || req.Shutdown?
  {
    if k :| 0 <= k < |sent| && (sent[k].Reboot? || sent[k].Shutdown?) { assert more[k] == sent[k]; }
    assert more[|sent|] == req;
  }

  lemma StopTells(c: Link.Conn, id: Uuid, io: Link.ReadIo, killIo: Link.ReadIo)
    requires Link.ConnOk(c) && ProvisionFirst(Some(c)) && Opened(Some(c))
    ensures var call := Link.StopApplication(id, io, killIo);
      var h := Link.Do(Some(c), call).0;
      && h.Some? && Link.SenderOk(h) && ProvisionFirst(h) && Opened(h)
      && (Told(h) <==> Told(Some(c)) || (Pending(c) && FirstWord(Heard(Some(c), call)) == Says(Link.Success)))
      && (Dismissed(h) <==> Dismissed(Some(c)))
  {
    AskTells(c, Link.StopApp(id), io);
    OneMoreSent(c, Link.StopApp(id), io);
    var (h1, reply) := Link.Ask(Some(c), Link.StopApp(id), io);
    FirstWordConcat(io.acts, killIo.acts);
    assert io.acts + [] == io.acts;
    if reply.Ok? && !reply.value.resp.Success? {
      AskTells(h1.value, Link.KillApp(id), killIo);
      OneMoreSent(h1.value, Link.KillApp(id), killIo);
    }
  }

  function Fresh(data: seq<AppData>, stream: nat, io: Link.ReadIo): Link.Sender {
    Link.Do(Some(Link.NewConn(stream)), Link.Provision(data, io)).0
  }

  lemma FreshOpens(data: seq<AppData>, stream: nat, io: Link.ReadIo)
    ensures var h := Fresh(data, stream, io);
      Link.SenderOk(h) && ProvisionFirst(h) && Opened(h) && !Dismissed(h) && h.value.sent == [Link.ProvisionInfo(data)]
  {
    var c, req := Link.NewConn(stream), Link.ProvisionInfo(data);
    Link.EmptyConnOk(c);
    Link.AskKeeps(Some(c), req, io);
    Link.AskConfirms(c, req, io);
  }

  lemma FreshHears(data: seq<AppData>, stream: nat, io: Link.ReadIo)
    ensures var h := Fresh(data, stream, io);
      && h.Some? && (!h.value.up <==> Link.Dies in io.acts)
      && (h.value.written != [] && h.value.written[0].resp.Success? <==> FirstWord(io.acts) == Says(Link.Success))
  {
    var d := Link.Send(Link.NewConn(stream), Link.ProvisionInfo(data));
    FirstWordDecides(d, io.acts);
    Link.DownByItself(d, io.acts);
  }

  /** A provisioning on a new connection: what is sent, and whether the realm is told. */
  lemma FreshTells(data: seq<AppData>, stream: nat, io: Link.ReadIo)
    ensures var h := Fresh(data, stream, io);
      && Link.SenderOk(h) && ProvisionFirst(h) && Opened(h) && !Dismissed(h) && h.value.sent == [Link.ProvisionInfo(data)]
      && (Told(h) <==> FirstWord(io.acts) == Says(Link.Success))
      && (!h.value.up <==> Link.Dies in io.acts)
  {
    FreshOpens(data, stream, io);
    FreshHears(data, stream, io);
    ToldByFirstReply(Fresh(data, stream, io));
  }

  /** It reports success exactly if the acknowledgement came and was read in time. */
  lemma FreshReports(data: seq<AppData>, stream: nat, io: Link.ReadIo)
    ensures Link.Do(Some(Link.NewConn(stream)), Link.Provision(data, io)).1.Ok? <==>
      FirstWord(io.acts) == Says(Link.Success) && io.end.Delivered?
  {
    var c, req := Link.NewConn(stream), Link.ProvisionInfo(data);
    Link.EmptyConnOk(c);
    var d := Link.Send(c, req);
    Link.SendKeeps(c, req);
    Link.TurnsKeep(d, io.acts);
    FirstWordDecides(d, io.acts);
    var e := Link.RealmTurns(d, io.acts);
    assert e.taken == [] && e.toWarden == e.written[0..] == e.written;
  }

  // ----- what every command does to the connection -----

  lemma AskKeepsFirst(h: Link.Sender, req: Link.Request, io: Link.ReadIo)
    requires Link.SenderOk(h) && ProvisionFirst(h) && !req.ProvisionInfo?
    ensures Link.SenderOk(Link.Ask(h, req, io).0) && ProvisionFirst(Link.Ask(h, req, io).0)
  {
    Link.AskKeeps(h, req, io);
    if h.Some? { Link.AskConfirms(h.value, req, io); }
  }

  lemma StopKeepsFirst(h: Link.Sender, id: Uuid, io: Link.ReadIo, killIo: Link.ReadIo)
    requires Link.SenderOk(h) && ProvisionFirst(h)
    ensures Link.SenderOk(Link.DoStop(h, id, io, killIo).0) && ProvisionFirst(Link.DoStop(h, id, io, killIo).0)
  {
    AskKeepsFirst(h, Link.StopApp(id), io);
    AskKeepsFirst(Link.Ask(h, Link.StopApp(id), io).0, Link.KillApp(id), killIo);
  }

  lemma PlainKeepsFirst(h: Link.Sender, call: Link.Call)
    requires Link.SenderOk(h) && ProvisionFirst(h) && Plain(call)
    ensures Link.SenderOk(Link.Do(h, call).0) && ProvisionFirst(Link.Do(h, call).0)
  {
    match call
    case Idle(acts) =>
      Link.DoKeeps(h, call);
      if h.Some? { Link.TurnsKeep(h.value, acts); }
    case FetchToken(io) => AskKeepsFirst(h, Link.GetAttestationToken, io);
    case ReadIfs(io) => AskKeepsFirst(h, Link.GetIfAddrs, io);
    case StartApplication(id, io) => AskKeepsFirst(h, Link.StartApp(id), io);
    case KillApplication(id, io) => AskKeepsFirst(h, Link.KillApp(id), io);
    case ShutdownRealm(io) => AskKeepsFirst(h, Link.Shutdown, io);
    case StopApplication(id, io, killIo) => StopKeepsFirst(h, id, io, killIo);
  }

  lemma {:induction false} AppCallsKeepFirst(h: Link.Sender, calls: seq<AppCall>)
    requires Link.SenderOk(h) && ProvisionFirst(h)
    ensures Link.SenderOk(AppCalls(h, calls)) && ProvisionFirst(AppCalls(h, calls))
    decreases |calls|
  {
    if calls != [] {
      PlainKeepsFirst(h, CallOf(calls[0]));
      AppCallsKeepFirst(Link.Do(h, CallOf(calls[0])).0, calls[1..]);
    }
  }

  lemma FetchKeepsFirst(s: Session, a: Act)
    requires a.FetchToken? && Link.SenderOk(s.link) && ProvisionFirst(s.link)
    ensures Link.SenderOk(FetchCalls(s, a).0) && ProvisionFirst(FetchCalls(s, a).0)
  {
    PlainKeepsFirst(s.link, Link.FetchToken(a.io));
    var h := Link.Do(s.link, Link.TryConnect(a.stream)).0;
    Link.DoKeeps(s.link, Link.TryConnect(a.stream));
    PlainKeepsFirst(h, Link.FetchToken(a.io));
    var h1 := ConnectThen(s.link, a.stream, Link.FetchToken(a.io)).0;
    AppCallsKeepFirst(h1, a.between);
    PlainKeepsFirst(AppCalls(h1, a.between), Link.ShutdownRealm(a.stopIo));
  }

  /** A reboot that reaches the restarted realm. */
  predicate Reconnects(s: Session, a: Act) {
    Reboots(s.realm, a) && s.link.Some? && !Link.CannotSend(s.link, a.io) && a.stream.Some?
  }

  /** A reboot after which the realm does not connect again. */
  predicate Loses(s: Session, a: Act) {
    Reboots(s.realm, a) && s.link.Some? && !Link.CannotSend(s.link, a.io) && a.stream.None?
  }

  predicate GivesUp(s: Session, a: Act) {
    a.Stop? && StopCalls(s, a).1
  }

  /** The call a command makes on the existing connection of an active realm. */
  function CallIn(s: Session, a: Act): Option<Link.Call> {
    match a
    case Stop(io, _) => if Active(s.realm) then Some(Link.ShutdownRealm(io)) else None
    case FetchToken(_, _, io, _, _, _) => if Active(s.realm) then Some(Link.FetchToken(io)) else None
    case OnApplication(call) => Some(CallOf(call))
    case RealmGoesOn(acts) => Some(Link.Idle(acts))
    case InspectRealm(io) => if Active(s.realm) then Some(Link.ReadIfs(io)) else None
    case DestroyRealm(io, _) => if Active(s.realm) then Some(Link.ReadIfs(io)) else None
    case _ => None
  }

  lemma ActiveStep(s: Session, a: Act)
    requires Fits(s, a) && Active(s.realm) && !a.Reboot?
    ensures Step(s, a).link == if CallIn(s, a).Some? then Link.Do(s.link, CallIn(s, a).value).0 else s.link
    ensures CallIn(s, a).Some? ==> Plain(CallIn(s, a).value)
  {}

  lemma RebootStep(s: Session, a: Act)
    requires Fits(s, a) && a.Reboot? && LinkOk(s) && Active(s.realm)
    ensures Reconnects(s, a) ==>
      Step(s, a).link == Link.Do(Some(Link.NewConn(a.stream.value)), Link.Provision(RebootData(s.realm, a), a.io)).0
    ensures Loses(s, a) ==>
      && Step(s, a).link.Some? && Step(s, a).link.value.sent == s.link.value.sent + [Link.Reboot]
      && Step(s, a).link.value.written == s.link.value.written && Step(s, a).link.value.up == s.link.value.up
      && Link.SenderOk(Step(s, a).link)
    ensures !Reconnects(s, a) && !Loses(s, a) ==> Step(s, a).link == s.link
  {
    if Reboots(s.realm, a) { Link.RebootKeeps(s.link, RebootData(s.realm, a), a.stream, a.io); }
  }

  /** A start that the realm acknowledged: a new connection, whose realm was told. */
  lemma StartStep(s: Session, a: Act)
    requires Fits(s, a) && a.Start? && StartCalls(s, a).1
    ensures a.stream.Some? && Gathered(s.realm, a).Some?
    ensures Step(s, a).link == Link.Do(Some(Link.NewConn(a.stream.value)), Link.Provision(Gathered(s.realm, a).value, a.io)).0
    ensures Opened(Step(s, a).link) && Told(Step(s, a).link) && !Dismissed(Step(s, a).link)
  {
    FreshTells(Gathered(s.realm, a).value, a.stream.value, a.io);
    FreshReports(Gathered(s.realm, a).value, a.stream.value, a.io);
  }

  lemma LinkKeepsInactive(s: Session, a: Act)
    requires Fits(s, a) && LinkOk(s) && !Active(s.realm)
    ensures Link.SenderOk(Step(s, a).link) && ProvisionFirst(Step(s, a).link)
  {
    match a
    case Start(boot, order, readOk, stream, io, status, shutdown) =>
      if stream.Some? && Gathered(s.realm, a).Some? { FreshTells(Gathered(s.realm, a).value, stream.value, io); }
    case FetchToken(_, _, _, _, _, _) => FetchKeepsFirst(s, a);
    case OnApplication(call) => PlainKeepsFirst(s.link, CallOf(call));
    case RealmGoesOn(acts) => PlainKeepsFirst(s.link, Link.Idle(acts));
    case _ =>
  }

  lemma LinkKeepsActive(s: Session, a: Act)
    requires Fits(s, a) && LinkOk(s) && Active(s.realm)
    ensures Link.SenderOk(Step(s, a).link) && ProvisionFirst(Step(s, a).link)
    ensures Step(s, a).link.Some? ==> Opened(Step(s, a).link)
  {
    if a.Reboot? {
      RebootStep(s, a);
      if Reconnects(s, a) { FreshTells(RebootData(s.realm, a), a.stream.value, a.io); }
    } else {
      ActiveStep(s, a);
      if CallIn(s, a).Some? {
        PlainKeepsFirst(s.link, CallIn(s, a).value);
        LinkAfterActive(s, a);
        if s.link.Some? { CallTells(s.link.value, CallIn(s, a).value); }
      }
    }
  }

  lemma LinkKeeps(s: Session, a: Act)
    requires Fits(s, a) && LinkOk(s)
    ensures LinkOk(Step(s, a))
  {
    ActiveAfter(s, a);
    if Active(s.realm) {
      LinkKeepsActive(s, a);
    } else {
      LinkKeepsInactive(s, a);
      if a.Start? && StartCalls(s, a).1 { StartStep(s, a); }
    }
  }

  lemma {:induction false} RunKeepsLink(trace: seq<Session>, acts: seq<Act>, n: nat)
    requires IsRun(trace, acts) && n <= |acts|
    ensures LinkOk(trace[n])
    decreases n
  {
    if n > 0 {
      RunKeepsLink(trace, acts, n - 1);
      LinkKeeps(trace[n - 1], acts[n - 1]);
    }
  }

  // ----- what the commands report -----

  /** A start succeeds exactly if its VM was launched, its data gathered, and the realm connected and acknowledged in time. */
  lemma StartReports(s: Session, a: Act)
    requires Fits(s, a) && a.Start?
    ensures Life.Apply(s.realm, CommandOf(s, a).value).1.Ok? <==>
      Gathered(s.realm, a).Some? && a.stream.Some? && FirstWord(a.io.acts) == Says(Link.Success) && a.io.end.Delivered?
  {
    if Gathered(s.realm, a).Some? && a.stream.Some? { FreshReports(Gathered(s.realm, a).value, a.stream.value, a.io); }
    Life.ReplyMeans(s.realm, CommandOf(s, a).value);
  }

  /** A stop succeeds exactly if the realm went down on it, its connection said so, and the VM was reaped. */
  lemma StopReports(s: Session, a: Act)
    requires Fits(s, a) && a.Stop?
    ensures Life.Apply(s.realm, CommandOf(s, a).value).1.Ok? <==>
      && Active(s.realm) && s.link.Some? && !Link.CannotSend(s.link, a.io) && a.io.end.Reset?
      && !Link.RealmTurns(Link.Send(s.link.value, Link.Shutdown), a.io.acts).up
      && s.realm.vm.Some? && Life.Reaps(a.shutdown)
  {
    Life.ReplyMeans(s.realm, CommandOf(s, a).value);
  }

  /** The answer to a token request on the connection. */
  predicate TokenCame(h: Link.Sender, io: Link.ReadIo) {
    && h.Some? && io.end.Delivered?
    && Link.Answered(Link.Ask(h, Link.GetAttestationToken, io).0, |h.value.sent|, Link.GetAttestationToken, Link.AttestationToken)
  }

  /**
    A token fetch succeeds exactly if the token came: from an active realm on its connection, from a
    halted one on a new connection, after which the realm went down and its VM was reaped.
   */
  lemma FetchReports(s: Session, a: Act)
    requires Fits(s, a) && LinkOk(s) && a.FetchToken? && (Active(s.realm) ==> s.link.None? || Link.InStep(s.link))
    ensures Life.Apply(s.realm, CommandOf(s, a).value).1.Ok? <==>
      if Active(s.realm) then TokenCame(s.link, a.io)
      else
        && Boots(s.realm, a.boot) && a.stream.Some? && TokenCame(Some(Link.NewConn(a.stream.value)), a.io)
        && Link.Do(AppCalls(ConnectThen(s.link, a.stream, Link.FetchToken(a.io)).0, a.between), Link.ShutdownRealm(a.stopIo)).1.Ok?
        && Life.Reaps(a.shutdown)
  {
    Life.ReplyMeans(s.realm, CommandOf(s, a).value);
    Link.CallSucceedsIff(s.link, Link.GetAttestationToken, a.io, Link.AttestationToken);
    if a.stream.Some? {
      Link.EmptyConnOk(Link.NewConn(a.stream.value));
      Link.CallSucceedsIff(Some(Link.NewConn(a.stream.value)), Link.GetAttestationToken, a.io, Link.AttestationToken);
    }
    BootsLaunches(s.realm, a.boot);
  }

  lemma BootsLaunches(r: Life.Realm, boot: BootIo)
    ensures Boots(r, boot) <==> Life.Launches(r, boot.finished, boot.prepare, boot.launch)
  {
  }

  // ----- active realms that were not told, or were sent away -----

  /** Active and connected, but the realm at the other end has not acknowledged its provisioning. */
  predicate Untold(s: Session) { Active(s.realm) && s.link.Some? && !Told(s.link) }

  /** A reboot reaches the restarted realm, which does not acknowledge while it is waited for. */
  predicate Untells(s: Session, a: Act) {
    Reconnects(s, a) && FirstWord(a.io.acts) != Says(Link.Success)
  }

  /** The connection is replaced or given up, or the realm acknowledges late. */
  predicate Tells(s: Session, a: Act) {
    || Reconnects(s, a) || GivesUp(s, a)
    || (&& s.link.Some? && Pending(s.link.value) && CallIn(s, a).Some? && Plain(CallIn(s, a).value)
        && FirstWord(Heard(s.link, CallIn(s, a).value)) == Says(Link.Success))
  }

  lemma UntoldIff(s: Session, a: Act)
    requires Fits(s, a) && LinkOk(s)
    ensures Untold(Step(s, a)) <==> Untells(s, a) || (Untold(s) && !Tells(s, a))
  {
    ActiveAfter(s, a);
    if Active(s.realm) {
      LinkAfterActive(s, a);
      if a.Reboot? { UntoldByReboot(s, a); } else { UntoldByCall(s, a); }
    } else if a.Start? && StartCalls(s, a).1 {
      StartStep(s, a);
    }
  }

  lemma UntoldByReboot(s: Session, a: Act)
    requires Fits(s, a) && LinkOk(s) && Active(s.realm) && a.Reboot?
    ensures Step(s, a).link.Some? && !Told(Step(s, a).link) <==> Untells(s, a) || (Untold(s) && !Tells(s, a))
  {
    RebootStep(s, a);
    if Reconnects(s, a) {
      FreshTells(RebootData(s.realm, a), a.stream.value, a.io);
    } else if s.link.Some? {
      LinkKeepsActive(s, a);
      ToldByFirstReply(s.link);
      ToldByFirstReply(Step(s, a).link);
    }
  }

  lemma UntoldByCall(s: Session, a: Act)
    requires Fits(s, a) && LinkOk(s) && Active(s.realm) && !a.Reboot?
    ensures Step(s, a).link.Some? && !Told(Step(s, a).link) <==> Untold(s) && !Tells(s, a)
  {
    ActiveStep(s, a);
    LinkAfterActive(s, a);
    if CallIn(s, a).Some? && s.link.Some? { CallTells(s.link.value, CallIn(s, a).value); }
  }

  function Untellings(trace: seq<Session>, acts: seq<Act>): seq<bool>
    requires |trace| == |acts| + 1
  {
    seq(|acts|, i requires 0 <= i < |acts| => Untells(trace[i], acts[i]))
  }

  function Tellings(trace: seq<Session>, acts: seq<Act>): seq<bool>
    requires |trace| == |acts| + 1
  {
    seq(|acts|, i requires 0 <= i < |acts| => Tells(trace[i], acts[i]))
  }

  /**
    The realm at the other end of an active realm's connection has not acknowledged its provisioning
    exactly if a reboot reached it, it gave no acknowledgement while that reboot waited, and neither
    a later acknowledgement nor another reboot or shutdown has come since. Running does not show it.
   */
  lemma UntoldAccount(trace: seq<Session>, acts: seq<Act>, n: nat)
    requires IsRun(trace, acts) && n <= |acts|
    ensures Untold(trace[n]) <==> SetBefore(Untellings(trace, acts), Tellings(trace, acts), n)
  {
    var holds := seq(|trace|, i requires 0 <= i < |trace| => Untold(trace[i]));
    var on, off := Untellings(trace, acts), Tellings(trace, acts);
    forall k | 0 <= k < |acts| ensures holds[k + 1] == (on[k] || (holds[k] && !off[k])) {
      RunKeepsLink(trace, acts, k);
      UntoldIff(trace[k], acts[k]);
    }
    Latch(holds, on, off, n);
  }

  /** What a reboot that reached the realm reports: success exactly if the acknowledgement came and was read in time. */
  lemma RebootReports(s: Session, a: Act)
    requires Fits(s, a) && LinkOk(s) && Reconnects(s, a)
    ensures RebootCalls(s, a).1 <==> FirstWord(a.io.acts) == Says(Link.Success) && a.io.end.Delivered?
  {
    FreshReports(RebootData(s.realm, a), a.stream.value, a.io);
    assert Link.Do(s.link, Link.RebootRealm(RebootData(s.realm, a), a.stream, a.io))
        == Link.Do(Some(Link.NewConn(a.stream.value)), Link.Provision(RebootData(s.realm, a), a.io));
  }

  /** Active, but the realm at the other end was told to reboot or shut down and the connection is still in use. */
  predicate SentAway(s: Session) { Active(s.realm) && Dismissed(s.link) }

  predicate SendsAway(s: Session, a: Act) {
    Loses(s, a)
    || (a.Stop? && Active(s.realm) && s.link.Some? && !Link.CannotSend(s.link, a.io) && !StopCalls(s, a).1)
  }

  predicate Replaces(s: Session, a: Act) {
    Reconnects(s, a) || GivesUp(s, a)
  }

  lemma SentAwayByReboot(s: Session, a: Act)
    requires Fits(s, a) && LinkOk(s) && Active(s.realm) && a.Reboot?
    ensures Dismissed(Step(s, a).link) <==> Loses(s, a) || (Dismissed(s.link) && !Reconnects(s, a))
  {
    RebootStep(s, a);
    if Reconnects(s, a) {
      FreshOpens(RebootData(s.realm, a), a.stream.value, a.io);
    } else if Loses(s, a) {
      SentMore(s.link.value.sent, Link.Reboot, Step(s, a).link.value.sent);
    }
  }

  lemma SentAwayByCall(s: Session, a: Act)
    requires Fits(s, a) && LinkOk(s) && Active(s.realm) && !a.Reboot?
    ensures Dismissed(Step(s, a).link) <==> SendsAway(s, a) || (Dismissed(s.link) && !GivesUp(s, a))
  {
    ActiveStep(s, a);
    LinkAfterActive(s, a);
    if CallIn(s, a).Some? && s.link.Some? { CallTells(s.link.value, CallIn(s, a).value); }
  }

  lemma SentAwayIff(s: Session, a: Act)
    requires Fits(s, a) && LinkOk(s)
    ensures SentAway(Step(s, a)) <==> SendsAway(s, a) || (SentAway(s) && !Replaces(s, a))
  {
    ActiveAfter(s, a);
    if Active(s.realm) {
      if a.Reboot? { SentAwayByReboot(s, a); } else { SentAwayByCall(s, a); }
    } else if a.Start? && StartCalls(s, a).1 {
      StartStep(s, a);
    }
  }

  function Dismissals(trace: seq<Session>, acts: seq<Act>): seq<bool>
    requires |trace| == |acts| + 1
  {
    seq(|acts|, i requires 0 <= i < |acts| => SendsAway(trace[i], acts[i]))
  }

  function Replacements(trace: seq<Session>, acts: seq<Act>): seq<bool>
    requires |trace| == |acts| + 1
  {
    seq(|acts|, i requires 0 <= i < |acts| => Replaces(trace[i], acts[i]))
  }

  /**
    An active realm's connection leads to a realm that was sent away exactly if a reboot was not
    followed by a connection, or the shutdown of a stop did not complete, and none has completed since.
   */
  lemma SentAwayAccount(trace: seq<Session>, acts: seq<Act>, n: nat)
    requires IsRun(trace, acts) && n <= |acts|
    ensures SentAway(trace[n]) <==> SetBefore(Dismissals(trace, acts), Replacements(trace, acts), n)
  {
    var holds := seq(|trace|, i requires 0 <= i < |trace| => SentAway(trace[i]));
    var on, off := Dismissals(trace, acts), Replacements(trace, acts);
    forall k | 0 <= k < |acts| ensures holds[k + 1] == (on[k] || (holds[k] && !off[k])) {
      RunKeepsLink(trace, acts, k);
      SentAwayIff(trace[k], acts[k]);
    }
    Latch(holds, on, off, n);
  }

  // ----- realms that ended -----

  /** Active and connected, but the realm at the other end has ended. */
  predicate Gone(s: Session) { Active(s.realm) && s.link.Some? && !s.link.value.up }

  /** The request a plain call sends first. */
  function Asks(call: Link.Call): Link.Request
    requires Plain(call) && !call.Idle?
  {
    match call
    case FetchToken(_) => Link.GetAttestationToken
    case ReadIfs(_) => Link.GetIfAddrs
    case StartApplication(id, _) => Link.StartApp(id)
    case StopApplication(id, _, _) => Link.StopApp(id)
    case KillApplication(id, _) => Link.KillApp(id)
    case ShutdownRealm(_) => Link.Shutdown
  }

  /** The realm ends while the call is made, its kill fallback included. */
  predicate EndsDuring(c: Link.Conn, call: Link.Call)
    requires Plain(call)
  {
    if call.Idle? then Link.EndsIn(c, call.acts)
    else
      || Link.EndsIn(Link.Send(c, Asks(call)), call.io.acts)
      || (call.StopApplication? &&
          var (h, reply) := Link.Ask(Some(c), Link.StopApp(call.id), call.io);
          reply.Ok? && !reply.value.resp.Success? && Link.EndsIn(Link.Send(h.value, Link.KillApp(call.id)), call.killIo.acts))
  }

  lemma AskDown(c: Link.Conn, req: Link.Request, io: Link.ReadIo)
    ensures var h := Link.Ask(Some(c), req, io).0;
      h.Some? && (!h.value.up <==> !c.up || Link.EndsIn(Link.Send(c, req), io.acts))
  {
    Link.DownIff(Link.Send(c, req), io.acts);
  }

  lemma CallDown(c: Link.Conn, call: Link.Call)
    requires Plain(call)
    ensures var h := Link.Do(Some(c), call).0; h.Some? ==> (!h.value.up <==> !c.up || EndsDuring(c, call))
  {
    if call.Idle? {
      Link.DownIff(c, call.acts);
    } else {
      AskDown(c, Asks(call), call.io);
      if call.StopApplication? {
        var h := Link.Ask(Some(c), Link.StopApp(call.id), call.io).0;
        AskDown(h.value, Link.KillApp(call.id), call.killIo);
      }
    }
  }

  /** The realm at the other end of the connection that is then in use ends during the act. */
  predicate Ends(s: Session, a: Act) {
    if Reconnects(s, a) then Link.Dies in a.io.acts
    else if a.Start? then OrdersFit(s.realm, a) && StartCalls(s, a).1 && Link.Dies in a.io.acts
    else
      && Active(s.realm) && s.link.Some? && s.link.value.up && !GivesUp(s, a)
      && CallIn(s, a).Some? && Plain(CallIn(s, a).value) && EndsDuring(s.link.value, CallIn(s, a).value)
  }

  lemma GoneIff(s: Session, a: Act)
    requires Fits(s, a) && LinkOk(s)
    ensures Gone(Step(s, a)) <==> Ends(s, a) || (Gone(s) && !Replaces(s, a))
  {
    ActiveAfter(s, a);
    if Active(s.realm) {
      LinkAfterActive(s, a);
      if a.Reboot? {
        RebootStep(s, a);
        if Reconnects(s, a) { FreshTells(RebootData(s.realm, a), a.stream.value, a.io); }
      } else {
        ActiveStep(s, a);
        if CallIn(s, a).Some? && s.link.Some? { CallDown(s.link.value, CallIn(s, a).value); }
      }
    } else if a.Start? && StartCalls(s, a).1 {
      StartStep(s, a);
      FreshTells(Gathered(s.realm, a).value, a.stream.value, a.io);
    }
  }

  function Endings(trace: seq<Session>, acts: seq<Act>): seq<bool>
    requires |trace| == |acts| + 1
  {
    seq(|acts|, i requires 0 <= i < |acts| => Ends(trace[i], acts[i]))
  }

  /**
    An active realm's connection leads to a realm that has ended exactly if that realm ended, by
    itself or on request, and no reboot has reconnected and no shutdown has completed since. Nobody
    looks: the state stays what it was.
   */
  lemma GoneAccount(trace: seq<Session>, acts: seq<Act>, n: nat)
    requires IsRun(trace, acts) && n <= |acts|
    ensures Gone(trace[n]) <==> SetBefore(Endings(trace, acts), Replacements(trace, acts), n)
  {
    var holds := seq(|trace|, i requires 0 <= i < |trace| => Gone(trace[i]));
    var on, off := Endings(trace, acts), Replacements(trace, acts);
    forall k | 0 <= k < |acts| ensures holds[k + 1] == (on[k] || (holds[k] && !off[k])) {
      RunKeepsLink(trace, acts, k);
      GoneIff(trace[k], acts[k]);
    }
    Latch(holds, on, off, n);
  }

  /** A realm that ended without having been sent away ended by itself. */
  lemma GoneByItself(s: Session)
    requires LinkOk(s) && Gone(s) && !SentAway(s)
    ensures !s.link.value.obeyed
  {
    if s.link.value.obeyed { ObeyedWasDismissed(s.link.value); }
  }

  lemma ObeyedWasDismissed(c: Link.Conn)
    requires Link.ConnOk(c) && c.obeyed
    ensures Dismissed(Some(c))
  {
    assert c.sent[c.handled - 1].Reboot? || c.sent[c.handled - 1].Shutdown?;
  }

  /**
    A stop halts such a realm exactly if its connection reports a reset and the VM can be reaped;
    any other error of sending or reading keeps it active.
   */
  lemma StopOfGone(s: Session, a: Act)
    requires Gone(s) && a.Stop? && s.realm.vm.Some?
    ensures Step(s, a).realm.state.Halted? <==> a.io.end.Reset? && Life.Reaps(a.shutdown)
    ensures !a.io.end.Reset? ==> Step(s, a).realm == s.realm && Step(s, a).link.Some?
  {
    var d := Link.Send(s.link.value, Link.Shutdown);
    Link.StaysDown(d, a.io.acts);
  }

  // ----- what was acknowledged -----

  /** The data of the provisioning that opened the connection is what get_data says now of every application. */
  ghost predicate WireCurrent(s: Session) {
    Opened(s.link) && Life.Synced(s.realm.(acked := Some(s.link.value.sent[0].data)))
  }

  ghost predicate WireOk(s: Session) {
    Active(s.realm) && s.realm.state.Running? && s.link.Some? ==> WireCurrent(s)
  }

  lemma CallExtendsSent(c: Link.Conn, call: Link.Call)
    requires Link.ConnOk(c) && Plain(call)
    ensures var h := Link.Do(Some(c), call).0; h.Some? ==> c.sent <= h.value.sent
  {
    if call.Idle? {
      Link.TurnsKeep(c, call.acts);
    } else {
      Link.AskConfirms(c, Asks(call), call.io);
      if call.StopApplication? {
        var h := Link.Ask(Some(c), Link.StopApp(call.id), call.io).0;
        Link.AskKeeps(Some(c), Link.StopApp(call.id), call.io);
        Link.AskConfirms(h.value, Link.KillApp(call.id), call.killIo);
      }
    }
  }

  /** Other than by a start or reboot, Running is kept only with all configurations as they were. */
  lemma RunningKeepsApps(s: Session, a: Act)
    requires Fits(s, a) && !SaveFails(a) && Active(Step(s, a).realm) && Step(s, a).realm.state.Running?
    requires !(a.Start? && StartCalls(s, a).1) && !(a.Reboot? && RebootCalls(s, a).1)
    ensures s.realm.state.Running? && Active(s.realm) && Step(s, a).realm.apps == s.realm.apps
  {}

  lemma NewWire(s: Session, order: seq<Uuid>, data: seq<AppData>, readOk: Uuid -> bool)
    requires Life.IsOrder(order, s.realm.apps.Keys) && Life.ProvisioningData(s.realm.apps, order, readOk) == Some(data)
    requires Opened(s.link) && s.link.value.sent[0] == Link.ProvisionInfo(data)
    ensures WireCurrent(s)
  {
    Life.GatheredDataIsSynced(s.realm, order, readOk);
  }

  lemma StartWires(s: Session, a: Act)
    requires Fits(s, a) && a.Start? && StartCalls(s, a).1
    ensures WireCurrent(Step(s, a))
  {
    StartStep(s, a);
    FreshTells(Gathered(s.realm, a).value, a.stream.value, a.io);
    Life.PrepareKeepsKeys(s.realm.apps, a.boot.prepare);
    assert Step(s, a).realm.apps == Life.Prepared(s.realm.apps, a.boot.prepare);
    NewWire(Step(s, a), a.order, Gathered(s.realm, a).value, a.readOk);
  }

  lemma RebootWires(s: Session, a: Act)
    requires Fits(s, a) && LinkOk(s) && Active(s.realm) && a.Reboot? && (WireOk(s) || Reconnects(s, a))
    ensures WireOk(Step(s, a))
  {
    RebootStep(s, a);
    assert Step(s, a).realm.apps == s.realm.apps;
    if Reconnects(s, a) {
      FreshTells(RebootData(s.realm, a), a.stream.value, a.io);
      NewWire(Step(s, a), a.order, RebootData(s.realm, a), a.readOk);
    }
  }

  lemma WireKeeps(s: Session, a: Act)
    requires Fits(s, a) && LinkOk(s) && WireOk(s) && !SaveFails(a)
    ensures WireOk(Step(s, a))
  {
    ActiveAfter(s, a);
    if a.Start? && StartCalls(s, a).1 {
      StartWires(s, a);
    } else if Active(s.realm) && a.Reboot? {
      RebootWires(s, a);
    } else if Active(Step(s, a).realm) && Step(s, a).realm.state.Running? && Step(s, a).link.Some? {
      RunningKeepsApps(s, a);
      ActiveStep(s, a);
      LinkAfterActive(s, a);
      LinkKeepsActive(s, a);
      if CallIn(s, a).Some? { CallExtendsSent(s.link.value, CallIn(s, a).value); }
    }
  }

  // ----- both halves together -----

  /**
    A realm enters Running, or stays there by a reboot, only on a new connection whose single
    request is the provisioning and whose single reply answers it with success. No earlier timeout
    can make an old reply pass for the acknowledgement.
   */
  lemma AcknowledgementIsGenuine(s: Session, a: Act)
    requires Fits(s, a) && LinkOk(s)
    requires Step(s, a).realm.state.Running? && (!s.realm.state.Running? || (a.Reboot? && RebootCalls(s, a).1))
    ensures var h := Step(s, a).link;
      && h.Some? && Link.Lag(h.value) == 0 && Told(h)
      && |h.value.sent| == 1 && h.value.sent[0].ProvisionInfo? && h.value.taken == [Link.Taken(0, 0)]
  {
    if a.Start? {
      StartStep(s, a);
      FreshProvision(Gathered(s.realm, a).value, a.stream.value, a.io);
    } else {
      RebootStep(s, a);
      FreshReports(RebootData(s.realm, a), a.stream.value, a.io);
      FreshTells(RebootData(s.realm, a), a.stream.value, a.io);
      FreshProvision(RebootData(s.realm, a), a.stream.value, a.io);
    }
  }

  lemma FreshProvision(data: seq<AppData>, stream: nat, io: Link.ReadIo)
    requires Link.Do(Some(Link.NewConn(stream)), Link.Provision(data, io)).1.Ok?
    ensures var h := Link.Do(Some(Link.NewConn(stream)), Link.Provision(data, io)).0;
      && h.Some? && Link.Lag(h.value) == 0
      && h.value.sent == [Link.ProvisionInfo(data)] && h.value.taken == [Link.Taken(0, 0)]
  {
    var c := Link.NewConn(stream);
    Link.EmptyConnOk(c);
    Link.AskAnswers(c, Link.ProvisionInfo(data), io);
    Link.SendKeeps(c, Link.ProvisionInfo(data));
    Link.TurnsKeep(Link.Send(c, Link.ProvisionInfo(data)), io.acts);
  }

  predicate SaveFails(a: Act) { a.UpdateApplication? && a.save.SaveFailed? }

  /**
    In every run of commands and application calls in which configuration saves succeed: an active
    realm has its VM with exactly its disks; Running means that the acknowledged data is current;
    the connection's account of requests and replies holds; and a Running realm's connection was
    opened with the data that is current now.
   */
  lemma {:induction false} SessionSafety(trace: seq<Session>, acts: seq<Act>, n: nat)
    requires IsRun(trace, acts) && n <= |acts|
    requires forall k :: 0 <= k < |acts| ==> !SaveFails(acts[k])
    ensures Life.Sound(trace[n].realm) && LinkOk(trace[n]) && WireOk(trace[n])
    decreases n
  {
    if n > 0 {
      var s, a := trace[n - 1], acts[n - 1];
      SessionSafety(trace, acts, n - 1);
      LinkKeeps(s, a);
      WireKeeps(s, a);
      var c := CommandOf(s, a);
      if c.Some? { Life.CommandKeepsSound(s.realm, c.value); }
    }
  }

  /**
    So in every active state of such a run that none of the four accounts names, the connection
    leads to a realm that is up, was not sent away and has acknowledged its provisioning; and in
    Running what it acknowledged, in time or late, is the current data of every application.
   */
  lemma ActiveMeansProvisioned(trace: seq<Session>, acts: seq<Act>, n: nat)
    requires IsRun(trace, acts) && n <= |acts| && Active(trace[n].realm)
    requires forall k :: 0 <= k < |acts| ==> !SaveFails(acts[k])
    ensures var s := trace[n];
      || Severed(s) || Untold(s) || SentAway(s) || Gone(s)
      || (&& s.link.value.up && !Dismissed(s.link) && Acknowledged(s.link.value, 0)
          && (s.realm.state.Running? ==> Life.Synced(s.realm.(acked := Some(s.link.value.sent[0].data)))))
  {
    SessionSafety(trace, acts, n);
    if Told(trace[n].link) {
      var k :| 0 <= k < |trace[n].link.value.written| && Acknowledged(trace[n].link.value, k);
      assert k == 0;
    }
  }

  // ----- a realm that does not answer -----

  predicate SilentCall(call: Link.Call) {
    match call
    case Idle(acts) => acts == []
    case StopApplication(_, io, killIo) => io.acts == [] && killIo.acts == []
    case TryConnect(_) => false
    case RebootRealm(_, _, _) => false
    case _ => call.io.acts == []
  }

  /** The realm does nothing during the act, and so does not connect again either. */
  predicate SilentAct(s: Session, a: Act) {
    && (CallIn(s, a).Some? ==> SilentCall(CallIn(s, a).value))
    && (a.Reboot? ==> a.stream.None?)
  }

  /** Active and connected, with nothing to read: the realm's loop is busy with a request. */
  predicate Busy(s: Session) {
    Active(s.realm) && s.link.Some? && s.link.value.up && s.link.value.toWarden == []
  }

  lemma SilentAsk(c: Link.Conn, req: Link.Request, io: Link.ReadIo)
    requires c.up && c.toWarden == [] && io.acts == []
    ensures var (h, reply) := Link.Ask(Some(c), req, io);
      reply == Err(Link.CommunicationFail) && h.Some? && h.value.up && h.value.toWarden == []
  {}

  lemma SilentCallFails(c: Link.Conn, call: Link.Call)
    requires c.up && c.toWarden == [] && Plain(call) && SilentCall(call)
    ensures var (h, r) := Link.Do(Some(c), call);
      h.Some? && h.value.up && h.value.toWarden == [] && (!call.Idle? ==> r == Err(Link.CommunicationFail))
  {
    if !call.Idle? { SilentAsk(c, Asks(call), call.io); }
  }

  /** While the realm is silent nothing asked of it succeeds, and the realm stays active. */
  lemma BusyStays(s: Session, a: Act)
    requires Fits(s, a) && LinkOk(s) && Busy(s) && SilentAct(s, a)
    ensures Busy(Step(s, a))
    ensures a.Stop? || a.Reboot? || a.FetchToken? || a.Start? || a.DestroyRealm? ==>
      CommandOf(s, a).Some? && Life.Apply(s.realm, CommandOf(s, a).value).1.Err?
    ensures CallIn(s, a).Some? && !CallIn(s, a).value.Idle? ==> Link.Do(s.link, CallIn(s, a).value).1.Err?
  {
    ActiveAfter(s, a);
    LinkAfterActive(s, a);
    if a.Reboot? {
      RebootStep(s, a);
    } else {
      ActiveStep(s, a);
      if CallIn(s, a).Some? { SilentCallFails(s.link.value, CallIn(s, a).value); }
    }
  }

  /**
    A realm whose loop waits, for instance for a process that ignores its signal, can neither be
    stopped nor rebooted nor asked anything, however many commands come: the kill that would help
    is a later request on the same connection.
   */
  lemma {:induction false} SilentRealmStaysActive(trace: seq<Session>, acts: seq<Act>, m: nat, n: nat)
    requires IsRun(trace, acts) && m <= n <= |acts| && Busy(trace[m])
    requires forall k :: m <= k < n ==> SilentAct(trace[k], acts[k])
    ensures Busy(trace[n])
    decreases n
  {
    if m < n {
      SilentRealmStaysActive(trace, acts, m, n - 1);
      RunKeepsLink(trace, acts, n - 1);
      BusyStays(trace[n - 1], acts[n - 1]);
    }
  }

  // ----- runs in which it happens -----

  function Nobody(): Session { Session(Life.Empty(), None) }

  function StartIt(): Act {
    Start(BootIo([], u => Aborted(false, None), Life.Spawned(1)), [], u => true, Some(0),
          Link.ReadIo([Link.Answers(Link.Success)], Link.Delivered), Life.HasExited, Life.ShutdownIo(true, true))
  }

  function RebootWith(stream: Option<nat>, io: Link.ReadIo): Act { Reboot([], u => true, stream, io) }

  lemma StartTalks(io: Link.ReadIo)
    requires io == Link.ReadIo([Link.Answers(Link.Success)], Link.Delivered)
    ensures var (h, ok) := ConnectThen(None, Some(0), Link.Provision([], io)); ok && h.Some? && h.value.up && h.value.toRealm == []
  {
    OneAnswer(Link.Success);
    FreshReports([], 0, io);
    var sent := Link.Send(Link.NewConn(0), Link.ProvisionInfo([]));
    var answered := Link.RealmTurn(sent, Link.Answers(Link.Success));
    assert answered.toRealm == [] && answered.up && Link.RealmTurns(answered, []) == answered;
    assert io.acts[1..] == [] && Link.RealmTurns(sent, io.acts) == answered;
  }

  lemma StartBoots()
    ensures var a := StartIt(); Fits(Nobody(), a) && Gathered(Nobody().realm, a) == Some([])
    ensures Life.Boot(Life.Empty(), StartIt().boot.finished, StartIt().boot.prepare, StartIt().boot.launch).0
         == Life.Empty().(vm := Some(Life.Vm(1, Life.Empty().apps.Keys)))
  {
    var a := StartIt();
    assert Life.Prepared(map[], a.boot.prepare) == map[];
    assert Life.ProvisioningData(map[], [], a.readOk) == Some([]);
  }

  /** A running realm without applications. */
  lemma Started() returns (s: Session)
    ensures Fits(Nobody(), StartIt()) && Step(Nobody(), StartIt()) == s
    ensures Idle(s) && s.realm.vm.Some? && s.link.value.up && s.link.value.toRealm == []
  {
    var a := StartIt();
    StartBoots();
    StartTalks(a.io);
    s := Step(Nobody(), a);
    LinkKeeps(Nobody(), a);
  }

  predicate Idle(s: Session) {
    Active(s.realm) && s.realm.state.Running? && s.realm.apps == map[] && LinkOk(s) && s.link.Some?
  }

  lemma RunOfTwo(s: Session, a: Act)
    requires Fits(Nobody(), StartIt()) && Step(Nobody(), StartIt()) == s && Fits(s, a)
    ensures IsRun([Nobody(), s, Step(s, a)], [StartIt(), a])
  {}

  /** A reboot of a running realm without applications goes through, and the state is Running after it. */
  lemma RebootGoes(s: Session, a: Act)
    requires Idle(s) && a.Reboot? && a.order == []
    ensures Fits(s, a) && Reboots(s.realm, a) && Step(s, a).realm.state.Running?
  {
    assert Life.ProvisioningData(s.realm.apps, [], a.readOk) == Some([]);
  }

  lemma OneAnswer(resp: Link.Response)
    requires resp.Success? || resp.Error?
    ensures FirstWord([Link.Answers(resp)]) == Says(resp)
  {}

  lemma RefusedReboot(s: Session, a: Act)
    requires Idle(s) && Fits(s, a) && Reboots(s.realm, a) && s.link.value.up && a.stream.Some? && FirstWord(a.io.acts) == Says(Link.Error)
    ensures Untold(Step(s, a))
  {
    UntoldIff(s, a);
  }

  /** A reboot whose realm refuses its applications leaves the realm Running and untold. */
  lemma UntoldHappens() returns (trace: seq<Session>, acts: seq<Act>)
    ensures IsRun(trace, acts) && Untold(trace[|acts|]) && trace[|acts|].realm.state.Running?
  {
    var s := Started();
    var a := RebootWith(Some(1), Link.ReadIo([Link.Answers(Link.Error)], Link.Delivered));
    RebootGoes(s, a);
    OneAnswer(Link.Error);
    RefusedReboot(s, a);
    RunOfTwo(s, a);
    acts, trace := [StartIt(), a], [Nobody(), s, Step(s, a)];
  }

  /** A reboot that reports a failure although the realm was told: the acknowledgement was not read in time. */
  lemma LateAcknowledgementHappens() returns (s: Session, a: Act)
    ensures Fits(s, a)
    ensures IsRun([Nobody(), s, Step(s, a)], [StartIt(), a]) && a.Reboot? && !RebootCalls(s, a).1
    ensures Told(Step(s, a).link) && Step(s, a).realm.state.Running?
  {
    s := Started();
    a := RebootWith(Some(1), Link.ReadIo([Link.Answers(Link.Success)], Link.TimedOut));
    RebootGoes(s, a);
    OneAnswer(Link.Success);
    RebootReports(s, a);
    RebootStep(s, a);
    FreshTells(RebootData(s.realm, a), 1, a.io);
    RunOfTwo(s, a);
  }

  /** A reboot after which the realm never connects leaves the realm Running on the old connection. */
  lemma SentAwayHappens() returns (trace: seq<Session>, acts: seq<Act>)
    ensures IsRun(trace, acts) && SentAway(trace[|acts|]) && trace[|acts|].realm.state.Running?
  {
    var s := Started();
    var a := RebootWith(None, Link.ReadIo([], Link.TimedOut));
    RebootGoes(s, a);
    SentAwayIff(s, a);
    RunOfTwo(s, a);
    acts, trace := [StartIt(), a], [Nobody(), s, Step(s, a)];
  }

  lemma ShutdownWorks(c: Link.Conn)
    requires c.up && c.toRealm == []
    ensures Link.Do(Some(c), Link.ShutdownRealm(Link.ReadIo([Link.PowersOff], Link.Reset))) == (None, Ok(()))
  {
    var sent := Link.Send(c, Link.Shutdown);
    var down := Link.RealmTurn(sent, Link.PowersOff);
    var acts := [Link.PowersOff];
    assert acts[1..] == [] && Link.RealmTurns(down, []) == down;
    assert Link.RealmTurns(sent, acts) == down && !down.up;
  }

  /** A stop that the realm obeys but whose VM cannot be killed severs the realm. */
  lemma SeveringHappens() returns (trace: seq<Session>, acts: seq<Act>)
    ensures IsRun(trace, acts) && Severed(trace[|acts|])
  {
    var s := Started();
    var a := Stop(Link.ReadIo([Link.PowersOff], Link.Reset), Life.ShutdownIo(false, false));
    ShutdownWorks(s.link.value);
    SeveredIff(s, a);
    RunOfTwo(s, a);
    acts, trace := [StartIt(), a], [Nobody(), s, Step(s, a)];
  }

  lemma DyingEndsIt(s: Session, a: Act)
    requires Idle(s) && s.link.value.up && a == RealmGoesOn([Link.Dies])
    ensures Fits(s, a) && Step(s, a) == s.(link := Some(s.link.value.(up := false)))
  {
    var c := s.link.value;
    assert a.acts[1..] == [] && Link.RealmTurns(c, a.acts) == Link.RealmTurns(Link.RealmTurn(c, Link.Dies), a.acts[1..]);
  }

  /** A VM that exits leaves the realm Running, connected and told, with a dead connection. */
  lemma GoneHappens() returns (trace: seq<Session>, acts: seq<Act>)
    ensures IsRun(trace, acts) && Gone(trace[|acts|]) && trace[|acts|].realm.state.Running?
    ensures !Severed(trace[|acts|]) && !Untold(trace[|acts|]) && !SentAway(trace[|acts|])
  {
    var s := Started();
    var a := RealmGoesOn([Link.Dies]);
    StartStep(Nobody(), StartIt());
    DyingEndsIt(s, a);
    var k :| 0 <= k < |s.link.value.written| && Acknowledged(s.link.value, k);
    assert Acknowledged(s.link.value.(up := false), k);
    RunOfTwo(s, a);
    acts, trace := [StartIt(), a], [Nobody(), s, Step(s, a)];
  }
}
