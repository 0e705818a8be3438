/**
  The request/response protocol between the warden and one realm: `RealmClientHandler` on the
  host, the request loop of the realm's `Manager` on the other side, and a FIFO stream each way.

  Frames arrive whole and in order. While the host waits for a reply the realm may handle any
  number of requests; a timeout may strike at any point, and the realm may end at any point.
 */
module RealmLink {
  import opened Outcomes
  import Application

  type AppData = Application.AppData

  type AppId = nat

  datatype Request =
    | ProvisionInfo(data: seq<AppData>)
    | GetAttestationToken
    | GetIfAddrs
    | StartApp(id: AppId)
    | StopApp(id: AppId)
    | KillApp(id: AppId)
    | Reboot
    | Shutdown

  datatype Response = AttestationToken | IfAddrs | Success | Error

  /** A response, and which request of the connection the realm wrote it for. */
  datatype Reply = Reply(answers: nat, resp: Response)

  datatype ClientError =
    | RealmConnectionFail
    | CommunicationFail
    | RealmDaemonError
    | InvalidResponse
    | RealmDisconnection

  /** A reply the host took: the request it had just sent, and the request the reply was written for. */
  datatype Taken = Taken(asked: int, answers: nat)

  datatype Conn = Conn(
    stream: nat,              // the accepted stream
    sent: seq<Request>,       // all requests the host has written
    toRealm: seq<Request>,    // written, not yet received by the realm
    toWarden: seq<Reply>,     // written by the realm, not yet read
    written: seq<Reply>,      // all replies the realm has written
    handled: nat,             // requests the realm has dealt with
    up: bool,                 // the realm has not ended
    obeyed: bool,             // it ended by handling a reboot or shutdown
    taken: seq<Taken>,        // replies read by the host
    failedReads: nat,         // reads that ended with a timeout or a reset
    failedReconnects: nat)    // reboots after which the realm did not connect again

  function NewConn(stream: nat): Conn {
    Conn(stream, [], [], [], [], 0, true, false, [], 0, 0)
  }

  // ----- the realm: one response for each request, in order -----

  /** `Dies`: the virtual machine ends by itself. */
  datatype RealmAct = Answers(resp: Response) | PowersOff | Dies

  predicate CanAnswer(req: Request, resp: Response) {
    match resp
    case AttestationToken => req.GetAttestationToken?
    case IfAddrs => req.GetIfAddrs?
    case Success => req.ProvisionInfo? || req.StartApp? || req.StopApp? || req.KillApp?
    case Error => true
  }

  /** The realm is about to handle a reboot or shutdown. */
  predicate Dismissing(c: Conn) {
    c.toRealm != [] && (c.toRealm[0].Reboot? || c.toRealm[0].Shutdown?)
  }

  /** One turn of handle_events, or the end of the realm; an act that does not fit the next request is no turn. */
  function RealmTurn(c: Conn, act: RealmAct): Conn {
    if !c.up then c
    else
      match act
      case Dies => c.(up := false)
      case Answers(resp) =>
        if c.toRealm != [] && CanAnswer(c.toRealm[0], resp)
        then c.(toRealm := c.toRealm[1..], toWarden := c.toWarden + [Reply(c.handled, resp)],
                written := c.written + [Reply(c.handled, resp)], handled := c.handled + 1)
        else c
      case PowersOff =>
        if Dismissing(c) then c.(toRealm := c.toRealm[1..], handled := c.handled + 1, up := false, obeyed := true) else c
  }

  function RealmTurns(c: Conn, acts: seq<RealmAct>): Conn
    decreases |acts|
  {
    if acts == [] then c else RealmTurns(RealmTurn(c, acts[0]), acts[1..])
  }

  // ----- the host -----

  /** How a call ends; a request may remain `Unsent` only once the realm has ended. */
  datatype ReadEnd = Delivered | TimedOut | Reset | Unsent

  datatype ReadIo = ReadIo(acts: seq<RealmAct>, end: ReadEnd)

  function Send(c: Conn, req: Request): Conn {
    c.(sent := c.sent + [req], toRealm := c.toRealm + [req])
  }

  /** receive_response: a reset is only seen once the realm is down, and nothing can be delivered but the oldest reply. */
  function Read(c: Conn, io: ReadIo): (r: (Conn, Result<Reply, ClientError>)) {
    var c1 := RealmTurns(c, io.acts);
    if io.end.Delivered? && c1.toWarden != [] then
      var reply := c1.toWarden[0];
      (c1.(toWarden := c1.toWarden[1..], taken := c1.taken + [Taken(|c1.sent| - 1, reply.answers)]), Ok(reply))
    else
      (c1.(failedReads := c1.failedReads + 1),
       Err(if io.end.Reset? && !c1.up then RealmDisconnection else CommunicationFail))
  }

  type Sender = Option<Conn>

  predicate CannotSend(h: Sender, io: ReadIo) {
    h.Some? && !h.value.up && io.end.Unsent?
  }

  /** send_command followed by read_response. */
  function Ask(h: Sender, req: Request, io: ReadIo): (r: (Sender, Result<Reply, ClientError>)) {
    if h.None? then (h, Err(RealmConnectionFail))
    else if CannotSend(h, io) then (h, Err(CommunicationFail))
    else
      var (c, reply) := Read(Send(h.value, req), io);
      (Some(c), reply)
  }

  function InvalidError(resp: Response): ClientError {
    if resp.Error? then RealmDaemonError else InvalidResponse
  }

  function Expect(reply: Result<Reply, ClientError>, resp: Response): Result<(), ClientError> {
    match reply
    case Err(e) => Err(e)
    case Ok(got) => if got.resp == resp then Ok(()) else Err(InvalidError(got.resp))
  }

  datatype Call =
    | TryConnect(stream: Option<nat>)
    | Idle(acts: seq<RealmAct>)   // nobody calls; the realm goes on by itself
    | Provision(data: seq<AppData>, io: ReadIo)
    | FetchToken(io: ReadIo)
    | ReadIfs(io: ReadIo)
    | StartApplication(id: AppId, io: ReadIo)
    | StopApplication(id: AppId, io: ReadIo, killIo: ReadIo)
    | KillApplication(id: AppId, io: ReadIo)
    | ShutdownRealm(io: ReadIo)
    | RebootRealm(data: seq<AppData>, stream: Option<nat>, io: ReadIo)

  function DoStop(h: Sender, id: AppId, io: ReadIo, killIo: ReadIo): (r: (Sender, Result<(), ClientError>)) {
    var (h1, reply) := Ask(h, StopApp(id), io);
    if reply.Err? then (h1, Err(reply.error))
    else if reply.value.resp.Success? then (h1, Ok(()))
    else
      var (h2, killed) := Ask(h1, KillApp(id), killIo);
      (h2, Expect(killed, Success))
  }

  function DoShutdown(h: Sender, io: ReadIo): (r: (Sender, Result<(), ClientError>)) {
    var (h1, reply) := Ask(h, Shutdown, io);
    match reply
    case Ok(got) => (h1, Err(InvalidError(got.resp)))
    case Err(e) => if e.RealmDisconnection? then (None, Ok(())) else (h1, Err(e))
  }

  function DoReboot(h: Sender, data: seq<AppData>, stream: Option<nat>, io: ReadIo): (r: (Sender, Result<(), ClientError>)) {
    if h.None? then (h, Err(RealmConnectionFail))
    else if CannotSend(h, io) then (h, Err(CommunicationFail))
    else if stream.None? then
      var c := Send(h.value, Reboot);
      (Some(c.(failedReconnects := c.failedReconnects + 1)), Err(RealmConnectionFail))
    else
      var (h1, reply) := Ask(Some(NewConn(stream.value)), ProvisionInfo(data), io);
      (h1, Expect(reply, Success))
  }

  function Do(h: Sender, call: Call): (r: (Sender, Result<(), ClientError>)) {
    match call
    case TryConnect(stream) =>
      if stream.Some? then (Some(NewConn(stream.value)), Ok(())) else (h, Err(RealmConnectionFail))
    case Idle(acts) => if h.Some? then (Some(RealmTurns(h.value, acts)), Ok(())) else (h, Err(RealmConnectionFail))
    case Provision(data, io) => var (h1, reply) := Ask(h, ProvisionInfo(data), io); (h1, Expect(reply, Success))
    case FetchToken(io) => var (h1, reply) := Ask(h, GetAttestationToken, io); (h1, Expect(reply, AttestationToken))
    case ReadIfs(io) => var (h1, reply) := Ask(h, GetIfAddrs, io); (h1, Expect(reply, IfAddrs))
    case StartApplication(id, io) => var (h1, reply) := Ask(h, StartApp(id), io); (h1, Expect(reply, Success))
    case KillApplication(id, io) => var (h1, reply) := Ask(h, KillApp(id), io); (h1, Expect(reply, Success))
    case StopApplication(id, io, killIo) => DoStop(h, id, io, killIo)
    case ShutdownRealm(io) => DoShutdown(h, io)
    case RebootRealm(data, stream, io) => DoReboot(h, data, stream, io)
  }

  function Run(h: Sender, calls: seq<Call>): Sender
    decreases |calls|
  {
    if calls == [] then h else Run(Do(h, calls[0]).0, calls[1..])
  }

  // ----- the account -----

  /** How many replies the host has not read although it no longer waits for them. */
  function Lag(c: Conn): nat { c.failedReads + c.failedReconnects }

  /** The streams are FIFO and the realm answers in order. */
  predicate StreamOk(c: Conn) {
    && c.handled + |c.toRealm| == |c.sent| && c.toRealm == c.sent[c.handled..]
    && c.handled == |c.written| + (if c.obeyed then 1 else 0)
    && (c.obeyed ==> !c.up && c.handled > 0 && (c.sent[c.handled - 1].Reboot? || c.sent[c.handled - 1].Shutdown?))
    && |c.taken| + |c.toWarden| == |c.written| && c.toWarden == c.written[|c.taken|..]
    && (forall k :: 0 <= k < |c.written| ==> c.written[k].answers == k && CanAnswer(c.sent[k], c.written[k].resp))
    && (forall k :: 0 <= k < |c.taken| ==> c.taken[k].answers == k)
  }

  /** A reply taken was written for a request sent at most Lag requests before the one just sent. */
  predicate TakenOk(c: Conn, lag: nat) {
    forall k :: 0 <= k < |c.taken| ==> c.taken[k].answers <= c.taken[k].asked <= c.taken[k].answers + lag
  }

  predicate ConnOk(c: Conn) {
    StreamOk(c) && |c.sent| == |c.taken| + Lag(c) && TakenOk(c, Lag(c))
  }

  predicate SenderOk(h: Sender) { h.Some? ==> ConnOk(h.value) }

  lemma {:induction false} TurnsKeep(c: Conn, acts: seq<RealmAct>)
    requires StreamOk(c)
    ensures var d := RealmTurns(c, acts);
      StreamOk(d) && d.stream == c.stream && d.sent == c.sent && d.taken == c.taken && d.failedReads == c.failedReads &&
      d.failedReconnects == c.failedReconnects
    decreases |acts|
  {
    if acts != [] {
      TurnKeeps(c, acts[0]);
      TurnsKeep(RealmTurn(c, acts[0]), acts[1..]);
    }
  }

  lemma TurnKeeps(c: Conn, act: RealmAct)
    requires StreamOk(c)
    ensures StreamOk(RealmTurn(c, act))
  {
    if c.up && c.toRealm != [] {
      assert c.toRealm[1..] == c.sent[c.handled + 1..];
      assert c.toRealm[0] == c.sent[c.handled];
      var d := RealmTurn(c, act);
      assert |d.written| > |c.written| ==> d.written[|c.taken|..] == c.written[|c.taken|..] + [d.written[|c.written|]];
    }
  }

  lemma SendKeeps(c: Conn, req: Request)
    requires ConnOk(c)
    ensures StreamOk(Send(c, req))
  {
    assert (c.sent + [req])[c.handled..] == c.sent[c.handled..] + [req];
  }

  /** Taking the oldest reply. */
  lemma TakeKeeps(c: Conn)
    requires Expecting(c) && c.toWarden != []
    ensures c.toWarden[0] == c.written[|c.taken|] && c.toWarden[0].answers == |c.taken|
    ensures CanAnswer(c.sent[|c.taken|], c.toWarden[0].resp)
    ensures ConnOk(Delivers(c))
  {
    var d := Delivers(c);
    assert c.toWarden[0] == c.written[|c.taken|];
    assert d.toWarden == d.written[|d.taken|..];
    assert StreamOk(d);
    assert TakenOk(d, Lag(d));
  }

  /** Giving up on a reply. */
  lemma MissKeeps(c: Conn)
    requires Expecting(c)
    ensures ConnOk(c.(failedReads := c.failedReads + 1))
  {
    assert TakenOk(c, Lag(c) + 1);
    assert StreamOk(c.(failedReads := c.failedReads + 1));
  }

  /** One request is out that has not been read for: the state in which a read begins. */
  predicate Expecting(c: Conn) {
    StreamOk(c) && |c.sent| == |c.taken| + Lag(c) + 1 && TakenOk(c, Lag(c))
  }

  lemma TurnsExpect(c: Conn, acts: seq<RealmAct>)
    requires Expecting(c)
    ensures Expecting(RealmTurns(c, acts)) && Lag(RealmTurns(c, acts)) == Lag(c)
  {
    TurnsKeep(c, acts);
  }

  function Delivers(c: Conn): Conn
    requires c.toWarden != []
  {
    c.(toWarden := c.toWarden[1..], taken := c.taken + [Taken(|c.sent| - 1, c.toWarden[0].answers)])
  }

  lemma ReadKeeps(c: Conn, io: ReadIo)
    requires Expecting(c)
    ensures ConnOk(Read(c, io).0)
  {
    TurnsExpect(c, io.acts);
    var c1 := RealmTurns(c, io.acts);
    if io.end.Delivered? && c1.toWarden != [] {
      TakeKeeps(c1);
      assert Read(c, io).0 == Delivers(c1);
    } else {
      MissKeeps(c1);
      assert Read(c, io).0 == c1.(failedReads := c1.failedReads + 1);
    }
  }

  lemma ReadAnswers(c: Conn, io: ReadIo)
    requires Expecting(c)
    ensures ConnOk(Read(c, io).0)
    ensures Read(c, io).1.Ok? ==>
      && Read(c, io).1.value.answers == |c.sent| - 1 - Lag(c)
      && CanAnswer(c.sent[Read(c, io).1.value.answers], Read(c, io).1.value.resp)
  {
    ReadKeeps(c, io);
    TurnsExpect(c, io.acts);
    TurnsKeep(c, io.acts);
    var c1 := RealmTurns(c, io.acts);
    if io.end.Delivered? && c1.toWarden != [] { TakeKeeps(c1); }
  }

  /** A reply is the one to the request sent Lag requests before; with no lag, to the very request just sent. */
  lemma AskAnswers(c: Conn, req: Request, io: ReadIo)
    requires ConnOk(c)
    ensures ConnOk(Ask(Some(c), req, io).0.value)
    ensures var reply := Ask(Some(c), req, io).1;
      reply.Ok? ==>
        var asked := c.sent + [req];
        && reply.value.answers == |c.sent| - Lag(c)
        && CanAnswer(asked[reply.value.answers], reply.value.resp)
  {
    SendKeeps(c, req);
    ReadAnswers(Send(c, req), io);
  }

  /** The realm answered the n-th request of the connection, which was `req`, with `resp`. */
  predicate Answered(h: Sender, n: nat, req: Request, resp: Response) {
    h.Some? && n < |h.value.sent| && h.value.sent[n] == req && n < |h.value.written| && h.value.written[n].resp == resp
  }

  /** The connection is there and no reply is overdue. */
  predicate InStep(h: Sender) {
    h.Some? && Lag(h.value) == 0
  }

  /** In step, a reply means what it says: the realm gave it to the very request just sent. */
  lemma AskConfirms(c: Conn, req: Request, io: ReadIo)
    requires ConnOk(c)
    ensures var (h, reply) := Ask(Some(c), req, io);
      && h.Some? && h.value.stream == c.stream && c.written <= h.value.written
      && (if CannotSend(Some(c), io) then h == Some(c) && reply.Err? else h.value.sent == c.sent + [req])
      && (reply.Ok? ==> Lag(h.value) == Lag(c))
      && (reply.Ok? && Lag(c) == 0 ==> Answered(h, |c.sent|, req, reply.value.resp))
  {
    SendKeeps(c, req);
    var d := Send(c, req);
    TurnsKeep(d, io.acts);
    TurnsExtend(d, io.acts);
    var e := RealmTurns(d, io.acts);
    if io.end.Delivered? && e.toWarden != [] {
      assert e.toWarden[0] == e.written[|e.taken|];
    }
  }

  lemma {:induction false} TurnsExtend(c: Conn, acts: seq<RealmAct>)
    ensures c.written <= RealmTurns(c, acts).written
    decreases |acts|
  {
    if acts != [] { TurnsExtend(RealmTurn(c, acts[0]), acts[1..]); }
  }

  /** In step, a confirmed call was confirmed by the realm for that call. */
  lemma CallConfirms(h: Sender, req: Request, io: ReadIo, resp: Response)
    requires SenderOk(h)
    ensures var (h1, reply) := Ask(h, req, io);
      Expect(reply, resp).Ok? && InStep(h) ==> InStep(h1) && Answered(h1, |h.value.sent|, req, resp)
  {
    if h.Some? { AskConfirms(h.value, req, io); }
  }

  lemma InStepEmpty(c: Conn)
    requires ConnOk(c) && Lag(c) == 0
    ensures c.toWarden == [] && |c.written| == |c.sent| && c.toRealm == []
  {
  }

  /**
    In step, the other half as well: a call reports a response exactly if the realm gave it to this
    request and it was delivered.
   */
  lemma AskReportsIff(c: Conn, req: Request, io: ReadIo)
    requires ConnOk(c) && Lag(c) == 0
    ensures var (h, reply) := Ask(Some(c), req, io);
      && (reply.Ok? ==> io.end.Delivered?)
      && forall resp ::
           && (Expect(reply, resp).Ok? <==> io.end.Delivered? && Answered(h, |c.sent|, req, resp))
           && (reply.Ok? && reply.value.resp == resp <==> io.end.Delivered? && Answered(h, |c.sent|, req, resp))
  {
    InStepEmpty(c);
    AskConfirms(c, req, io);
    if !CannotSend(Some(c), io) {
      var d := Send(c, req);
      SendKeeps(c, req);
      TurnsKeep(d, io.acts);
      var e := RealmTurns(d, io.acts);
      assert e.toWarden == e.written[|c.sent|..];
      var h := Ask(Some(c), req, io).0;
      assert h.value.written == e.written;
      assert io.end.Delivered? && |e.written| > |c.sent| ==> e.toWarden[0] == e.written[|c.sent|];
    }
  }

  /** For a sender: in step, a call succeeds exactly if this request was answered so and the answer delivered. */
  lemma CallSucceedsIff(h: Sender, req: Request, io: ReadIo, resp: Response)
    requires SenderOk(h)
    ensures InStep(h) ==>
      (Expect(Ask(h, req, io).1, resp).Ok? <==> io.end.Delivered? && Answered(Ask(h, req, io).0, |h.value.sent|, req, resp))
    ensures h.None? ==> Ask(h, req, io) == (None, Err(RealmConnectionFail))
  {
    if InStep(h) { AskReportsIff(h.value, req, io); }
  }

  /** The response that says a request was done. */
  function Done(req: Request): Response {
    if req.GetAttestationToken? then AttestationToken else if req.GetIfAddrs? then IfAddrs else Success
  }

  /** In step, a refusal is reported exactly if the realm refused this request, and no reply is of the wrong kind. */
  lemma RefusalReportedIff(h: Sender, req: Request, io: ReadIo)
    requires SenderOk(h) && InStep(h)
    ensures var r := Expect(Ask(h, req, io).1, Done(req));
      && (r == Err(RealmDaemonError) <==> io.end.Delivered? && Answered(Ask(h, req, io).0, |h.value.sent|, req, Error))
      && r != Err(InvalidResponse)
  {
    AskReportsIff(h.value, req, io);
    AskAnswers(h.value, req, io);
  }

  /** The realm stopped the application and said so in time; or it refused, and killed it and said so in time. */
  predicate StoppedOrKilled(h: Sender, n: nat, id: AppId, io: ReadIo, killIo: ReadIo) {
    && io.end.Delivered?
    && (|| Answered(h, n, StopApp(id), Success)
        || (Answered(h, n, StopApp(id), Error) && killIo.end.Delivered? && Answered(h, n + 1, KillApp(id), Success)))
  }

  lemma StopSucceedsIff(h: Sender, id: AppId, io: ReadIo, killIo: ReadIo)
    requires SenderOk(h)
    ensures InStep(h) ==>
      (DoStop(h, id, io, killIo).1.Ok? <==> StoppedOrKilled(DoStop(h, id, io, killIo).0, |h.value.sent|, id, io, killIo))
  {
    if InStep(h) {
      var n := |h.value.sent|;
      var (h1, reply) := Ask(h, StopApp(id), io);
      AskReportsIff(h.value, StopApp(id), io);
      AskAnswers(h.value, StopApp(id), io);
      AskConfirms(h.value, StopApp(id), io);
      if reply.Ok? && !reply.value.resp.Success? {
        assert reply.value.resp == Error;
        AskReportsIff(h1.value, KillApp(id), killIo);
        AskConfirms(h1.value, KillApp(id), killIo);
        assert DoStop(h, id, io, killIo).0.value.written[n] == h1.value.written[n];
      }
    }
  }

  lemma RebootConfirms(h: Sender, data: seq<AppData>, stream: Option<nat>, io: ReadIo)
    requires SenderOk(h)
    ensures var (h1, r) := DoReboot(h, data, stream, io);
      r.Ok? ==>
        && InStep(h1) && stream == Some(h1.value.stream) && h1.value.sent == [ProvisionInfo(data)]
        && Answered(h1, 0, ProvisionInfo(data), Success)
  {
    if h.Some? && stream.Some? {
      EmptyConnOk(NewConn(stream.value));
      CallConfirms(Some(NewConn(stream.value)), ProvisionInfo(data), io, Success);
      AskConfirms(NewConn(stream.value), ProvisionInfo(data), io);
    }
  }

  lemma AskKeeps(h: Sender, req: Request, io: ReadIo)
    requires SenderOk(h)
    ensures SenderOk(Ask(h, req, io).0)
  {
    if h.Some? { AskAnswers(h.value, req, io); }
  }

  lemma EmptyConnOk(c: Conn)
    requires |c.sent| == 0 && |c.toRealm| == 0 && |c.toWarden| == 0 && |c.written| == 0 && |c.taken| == 0
    requires c.handled == 0 && c.up && !c.obeyed && Lag(c) == 0
    ensures ConnOk(c)
  {
  }

  lemma LostRebootKeeps(c: Conn)
    requires ConnOk(c)
    ensures var d := Send(c, Reboot); ConnOk(d.(failedReconnects := d.failedReconnects + 1))
  {
    SendKeeps(c, Reboot);
    var d := Send(c, Reboot);
    var e := d.(failedReconnects := d.failedReconnects + 1);
    assert e.taken == c.taken && Lag(e) == Lag(c) + 1;
    assert TakenOk(e, Lag(e));
  }

  lemma RebootKeeps(h: Sender, data: seq<AppData>, stream: Option<nat>, io: ReadIo)
    requires SenderOk(h)
    ensures SenderOk(DoReboot(h, data, stream, io).0)
  {
    if h.Some? && !CannotSend(h, io) {
      if stream.Some? {
        EmptyConnOk(NewConn(stream.value));
        AskKeeps(Some(NewConn(stream.value)), ProvisionInfo(data), io);
        assert DoReboot(h, data, stream, io).0 == Ask(Some(NewConn(stream.value)), ProvisionInfo(data), io).0;
      } else {
        LostRebootKeeps(h.value);
      }
    }
  }

  lemma StopKeeps(h: Sender, id: AppId, io: ReadIo, killIo: ReadIo)
    requires SenderOk(h)
    ensures SenderOk(DoStop(h, id, io, killIo).0)
  {
    AskKeeps(h, StopApp(id), io);
    AskKeeps(Ask(h, StopApp(id), io).0, KillApp(id), killIo);
  }

  lemma DoKeeps(h: Sender, call: Call)
    requires SenderOk(h)
    ensures SenderOk(Do(h, call).0)
  {
    match call
    case TryConnect(stream) => if stream.Some? { EmptyConnOk(NewConn(stream.value)); }
    case Idle(acts) => if h.Some? { TurnsKeep(h.value, acts); }
    case Provision(data, io) => AskKeeps(h, ProvisionInfo(data), io);
    case FetchToken(io) => AskKeeps(h, GetAttestationToken, io);
    case ReadIfs(io) => AskKeeps(h, GetIfAddrs, io);
    case StartApplication(id, io) => AskKeeps(h, StartApp(id), io);
    case KillApplication(id, io) => AskKeeps(h, KillApp(id), io);
    case StopApplication(id, io, killIo) => StopKeeps(h, id, io, killIo);
    case ShutdownRealm(io) => AskKeeps(h, Shutdown, io);
    case RebootRealm(data, stream, io) => RebootKeeps(h, data, stream, io);
  }

  lemma {:induction false} RunKeeps(h: Sender, calls: seq<Call>)
    requires SenderOk(h)
    ensures SenderOk(Run(h, calls))
    decreases |calls|
  {
    if calls != [] {
      DoKeeps(h, calls[0]);
      RunKeeps(Do(h, calls[0]).0, calls[1..]);
    }
  }

  /**
    After any calls, the requests sent on the connection minus the replies read from it are exactly its failed reads
    and the reboots without a reconnection; if there are none, every reply taken answered the request just sent.
   */
  lemma RequestAccount(calls: seq<Call>)
    requires Run(None, calls).Some?
    ensures var c := Run(None, calls).value;
      && |c.sent| - |c.taken| == c.failedReads + c.failedReconnects
      && (forall k :: 0 <= k < |c.taken| ==> c.taken[k].answers == k)
      && (Lag(c) == 0 ==> forall k :: 0 <= k < |c.taken| ==> c.taken[k].asked == k)
  {
    RunKeeps(None, calls);
  }

  /** With a lag, an old success is taken for a new one: stopping application 2 succeeds, yet the realm refused it. */
  lemma StaleSuccess() returns (calls: seq<Call>, last: Call)
    ensures last.StopApplication? && Do(Run(None, calls), last).1 == Ok(())
    ensures var h := Do(Run(None, calls), last).0;
      && h.Some? && |h.value.toWarden| == 1
      && h.value.toWarden[0].resp == Error && h.value.toWarden[0].answers < |h.value.sent|
      && h.value.sent[h.value.toWarden[0].answers] == StopApp(2)
  {
    var late := ReadIo([], TimedOut);
    var both := ReadIo([Answers(Success), Answers(Error)], Delivered);
    calls := [TryConnect(Some(0)), StartApplication(1, late)];
    last := StopApplication(2, both, late);
    var c0 := NewConn(0);
    var c1 := Read(Send(c0, StartApp(1)), late).0;
    assert RealmTurns(Send(c0, StartApp(1)), []) == Send(c0, StartApp(1));
    assert Run(Some(c1), []) == Some(c1);
    assert Run(Some(c0), calls[1..]) == Run(Some(c1), calls[1..][1..]);
    assert Run(None, calls) == Some(c1);
    var s := Send(c1, StopApp(2));
    assert s.sent == [StartApp(1), StopApp(2)] && s.toRealm == [StartApp(1), StopApp(2)];
    var t1 := RealmTurn(s, Answers(Success));
    var t2 := RealmTurn(t1, Answers(Error));
    assert t1.toRealm == [StopApp(2)] && t2.toWarden == [Reply(0, Success), Reply(1, Error)];
    assert RealmTurns(t2, []) == t2;
    assert RealmTurns(t1, both.acts[1..]) == RealmTurns(t2, both.acts[1..][1..]);
    assert RealmTurns(s, both.acts) == t2;
    var h := Do(Some(c1), last).0;
    assert h.value.toWarden[0] == Reply(1, Error);
  }

  // ----- how a realm ends -----

  lemma {:induction false} TurnsSnoc(c: Conn, acts: seq<RealmAct>, act: RealmAct)
    ensures RealmTurns(c, acts + [act]) == RealmTurn(RealmTurns(c, acts), act)
    decreases |acts|
  {
    if acts == [] {
      assert acts + [act] == [act] && [act][1..] == [];
    } else {
      assert (acts + [act])[0] == acts[0] && (acts + [act])[1..] == acts[1..] + [act];
      TurnsSnoc(RealmTurn(c, acts[0]), acts[1..], act);
    }
  }

  /** One of the acts is the realm's end: by itself, or by a reboot or shutdown that was next. */
  predicate EndsIn(c: Conn, acts: seq<RealmAct>) {
    exists i :: 0 <= i < |acts| && (acts[i].Dies? || (acts[i].PowersOff? && Dismissing(RealmTurns(c, acts[..i]))))
  }

  lemma EndsInSnoc(c: Conn, acts: seq<RealmAct>, act: RealmAct)
    ensures EndsIn(c, acts + [act]) <==> EndsIn(c, acts) || act.Dies? || (act.PowersOff? && Dismissing(RealmTurns(c, acts)))
  {
    var all := acts + [act];
    assert all[..|acts|] == acts && all[|acts|] == act;
    assert forall i :: 0 <= i < |acts| ==> all[i] == acts[i] && all[..i] == acts[..i];
    if i :| 0 <= i < |acts| && (acts[i].Dies? || (acts[i].PowersOff? && Dismissing(RealmTurns(c, acts[..i])))) {
      assert all[i].Dies? || (all[i].PowersOff? && Dismissing(RealmTurns(c, all[..i])));
    }
  }

  lemma {:induction false} DownIff(c: Conn, acts: seq<RealmAct>)
    ensures !RealmTurns(c, acts).up <==> !c.up || EndsIn(c, acts)
    decreases |acts|
  {
    if acts != [] {
      var n := |acts| - 1;
      assert acts[..n] + [acts[n]] == acts;
      DownIff(c, acts[..n]);
      TurnsSnoc(c, acts[..n], acts[n]);
      EndsInSnoc(c, acts[..n], acts[n]);
    }
  }

  /** Without a reboot or shutdown under way, a realm ends only by itself. */
  lemma {:induction false} DownByItself(c: Conn, acts: seq<RealmAct>)
    requires c.up && forall k :: 0 <= k < |c.toRealm| ==> !c.toRealm[k].Reboot? && !c.toRealm[k].Shutdown?
    ensures !RealmTurns(c, acts).up <==> Dies in acts
    decreases |acts|
  {
    if acts != [] {
      if acts[0].Dies? {
        StaysDown(RealmTurn(c, acts[0]), acts[1..]);
      } else {
        DownByItself(RealmTurn(c, acts[0]), acts[1..]);
      }
    }
  }

  lemma {:induction false} StaysDown(c: Conn, acts: seq<RealmAct>)
    requires !c.up
    ensures RealmTurns(c, acts) == c
    decreases |acts|
  {
    if acts != [] { StaysDown(c, acts[1..]); }
  }

  /** The handler object; `Valid` is the account of its connection, `log` all requests it ever sent. */
  class RealmClientHandler {
    var sender: Sender
    ghost var log: seq<Request>

    ghost predicate Valid()
      reads this
    {
      SenderOk(sender)
    }

    constructor ()
      ensures Valid() && sender == None && log == []
    {
      sender, log := None, [];
    }

    method SendCommand(req: Request, io: ReadIo) returns (r: Result<(), ClientError>)
      modifies this
      ensures if old(sender).None? then sender == None && r == Err(RealmConnectionFail)
              else if CannotSend(old(sender), io) then sender == old(sender) && r == Err(CommunicationFail)
              else sender == Some(Send(old(sender).value, req)) && r == Ok(())
      ensures log == old(log) + if r.Ok? then [req] else []
    {
      if sender.None? { return Err(RealmConnectionFail); }
      if !sender.value.up && io.end.Unsent? { return Err(CommunicationFail); }
      sender := Some(Send(sender.value, req));
      log := log + [req];
      return Ok(());
    }

    method ReadResponse(io: ReadIo) returns (r: Result<Reply, ClientError>)
      modifies this`sender
      ensures if old(sender).None? then sender == None && r == Err(RealmConnectionFail)
              else sender == Some(Read(old(sender).value, io).0) && r == Read(old(sender).value, io).1
    {
      if sender.None? { return Err(RealmConnectionFail); }
      var (c, reply) := Read(sender.value, io);
      sender := Some(c);
      return reply;
    }

    /** A connection in step gives the reply to the very request; otherwise an older one. */
    method SendAndRead(req: Request, io: ReadIo) returns (r: Result<Reply, ClientError>)
      requires Valid()
      modifies this
      ensures Valid() && (sender, r) == Ask(old(sender), req, io)
      ensures log == old(log) + if old(sender).Some? && !CannotSend(old(sender), io) then [req] else []
      ensures InStep(old(sender)) ==>
        (r.Ok? ==> io.end.Delivered?)
        && forall resp :: r.Ok? && r.value.resp == resp <==> io.end.Delivered? && Answered(sender, |old(sender).value.sent|, req, resp)
    {
      AskKeeps(sender, req, io);
      if InStep(sender) { AskReportsIff(sender.value, req, io); }
      var s := SendCommand(req, io);
      if s.Err? { return Err(s.error); }
      r := ReadResponse(io);
    }

    /** A new connection is in step whatever the old one had missed. */
    method TryConnect(stream: Option<nat>) returns (r: Result<(), ClientError>)
      requires Valid()
      modifies this
      ensures Valid() && (sender, r) == Do(old(sender), Call.TryConnect(stream))
      ensures r.Ok? ==> InStep(sender) && stream == Some(sender.value.stream)
      ensures r.Err? ==> sender == old(sender)
      ensures log == old(log)
    {
      if stream.None? { return Err(RealmConnectionFail); }
      EmptyConnOk(NewConn(stream.value));
      sender := Some(NewConn(stream.value));
      return Ok(());
    }

    method ProvisionApplications(data: seq<AppData>, io: ReadIo) returns (r: Result<(), ClientError>)
      requires Valid()
      modifies this
      ensures Valid() && (sender, r) == Do(old(sender), Provision(data, io))
      ensures log == old(log) + if old(sender).Some? && !CannotSend(old(sender), io) then [ProvisionInfo(data)] else []
      ensures InStep(old(sender)) ==>
        (r.Ok? <==> io.end.Delivered? && Answered(sender, |old(sender).value.sent|, ProvisionInfo(data), Success))
    {
      var reply := SendAndRead(ProvisionInfo(data), io);
      r := Expect(reply, Success);
    }

    method FetchAttestationToken(io: ReadIo) returns (r: Result<(), ClientError>)
      requires Valid()
      modifies this
      ensures Valid() && (sender, r) == Do(old(sender), FetchToken(io))
      ensures log == old(log) + if old(sender).Some? && !CannotSend(old(sender), io) then [GetAttestationToken] else []
      ensures InStep(old(sender)) ==>
        (r.Ok? <==> io.end.Delivered? && Answered(sender, |old(sender).value.sent|, GetAttestationToken, AttestationToken))
    {
      var reply := SendAndRead(GetAttestationToken, io);
      r := Expect(reply, AttestationToken);
    }

    method ReadRealmIfs(io: ReadIo) returns (r: Result<(), ClientError>)
      requires Valid()
      modifies this
      ensures Valid() && (sender, r) == Do(old(sender), ReadIfs(io))
      ensures log == old(log) + if old(sender).Some? && !CannotSend(old(sender), io) then [GetIfAddrs] else []
      ensures InStep(old(sender)) ==>
        (r.Ok? <==> io.end.Delivered? && Answered(sender, |old(sender).value.sent|, GetIfAddrs, IfAddrs))
    {
      var reply := SendAndRead(GetIfAddrs, io);
      r := Expect(reply, IfAddrs);
    }

    method StartApplication(id: AppId, io: ReadIo) returns (r: Result<(), ClientError>)
      requires Valid()
      modifies this
      ensures Valid() && (sender, r) == Do(old(sender), Call.StartApplication(id, io))
      ensures log == old(log) + if old(sender).Some? && !CannotSend(old(sender), io) then [StartApp(id)] else []
      ensures InStep(old(sender)) ==>
        (r.Ok? <==> io.end.Delivered? && Answered(sender, |old(sender).value.sent|, StartApp(id), Success))
    {
      var reply := SendAndRead(StartApp(id), io);
      r := Expect(reply, Success);
    }

    method KillApplication(id: AppId, io: ReadIo) returns (r: Result<(), ClientError>)
      requires Valid()
      modifies this
      ensures Valid() && (sender, r) == Do(old(sender), Call.KillApplication(id, io))
      ensures log == old(log) + if old(sender).Some? && !CannotSend(old(sender), io) then [KillApp(id)] else []
      ensures InStep(old(sender)) ==>
        (r.Ok? <==> io.end.Delivered? && Answered(sender, |old(sender).value.sent|, KillApp(id), Success))
    {
      var reply := SendAndRead(KillApp(id), io);
      r := Expect(reply, Success);
    }

    /** In step, success means that the realm stopped the application, or refused to and then killed it. */
    method StopApplication(id: AppId, io: ReadIo, killIo: ReadIo) returns (r: Result<(), ClientError>)
      requires Valid()
      modifies this
      ensures Valid() && (sender, r) == Do(old(sender), Call.StopApplication(id, io, killIo))
      ensures log == old(log) || log == old(log) + [StopApp(id)] || log == old(log) + [StopApp(id)] + [KillApp(id)]
      ensures InStep(old(sender)) ==> (r.Ok? <==> StoppedOrKilled(sender, |old(sender).value.sent|, id, io, killIo))
    {
      StopSucceedsIff(sender, id, io, killIo);
      var reply := SendAndRead(StopApp(id), io);
      if reply.Err? { return Err(reply.error); }
      if Expect(reply, Success).Err? {
        r := KillApplication(id, killIo);
      } else {
        r := Ok(());
      }
    }

    /** Success means that the realm is down, and gives the connection up; a failure keeps it. */
    method ShutdownRealm(io: ReadIo) returns (r: Result<(), ClientError>)
      requires Valid()
      modifies this
      ensures Valid() && (sender, r) == Do(old(sender), Call.ShutdownRealm(io))
      ensures log == old(log) + if old(sender).Some? && !CannotSend(old(sender), io) then [Shutdown] else []
      ensures r.Ok? <==>
        old(sender).Some? && !CannotSend(old(sender), io) && io.end.Reset? && !RealmTurns(Send(old(sender).value, Shutdown), io.acts).up
      ensures r.Ok? ==> sender == None
      ensures r.Err? ==> (sender.Some? <==> old(sender).Some?)
    {
      AskKeeps(sender, Shutdown, io);
      var s := SendCommand(Shutdown, io);
      if s.Err? { return s; }
      var reply := ReadResponse(io);
      match reply
      case Ok(got) => return Err(InvalidError(got.resp));
      case Err(e) =>
        if e == RealmDisconnection {
          sender := None;
          return Ok(());
        }
        return Err(e);
    }

    /** Success means a new connection whose realm has acknowledged its provisioning. */
    method RebootRealm(data: seq<AppData>, stream: Option<nat>, io: ReadIo) returns (r: Result<(), ClientError>)
      requires Valid()
      modifies this
      ensures Valid() && (sender, r) == Do(old(sender), Call.RebootRealm(data, stream, io))
      ensures r.Ok? ==> InStep(sender) && stream == Some(sender.value.stream) && Answered(sender, 0, ProvisionInfo(data), Success)
      ensures r.Ok? <==>
        old(sender).Some? && !CannotSend(old(sender), io) && stream.Some? && io.end.Delivered? && Answered(sender, 0, ProvisionInfo(data), Success)
        && sender.value.stream == stream.value
      ensures log == old(log)
        + (if old(sender).Some? && !CannotSend(old(sender), io) then [Reboot] else [])
        + (if old(sender).Some? && !CannotSend(old(sender), io) && stream.Some? then [ProvisionInfo(data)] else [])
    {
      RebootConfirms(sender, data, stream, io);
      RebootKeeps(sender, data, stream, io);
      r := SendCommand(Reboot, io);
      if r.Err? { return; }
      if stream.None? {
        sender := Some(sender.value.(failedReconnects := sender.value.failedReconnects + 1));
        return Err(RealmConnectionFail);
      }
      EmptyConnOk(NewConn(stream.value));
      sender := Some(NewConn(stream.value));
      r := ProvisionApplications(data, io);
    }
  }
}
