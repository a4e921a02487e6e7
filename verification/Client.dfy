/** The HTTP client: session handling and the retries of `post`, run against a
    network that may lose replies, answer with HTML pages or stop the operator. */
module Client {
  import opened Util
  import opened Dsm

  /** Seconds a cached session is kept before the next request logs in again. */
  const SESSION_TIMEOUT := 3600

  datatype LoginReply =
    | Granted(sid: string, token: string)
    | Denied(text: string)
    | LoginCrash

  /** What becomes of one request. `applied` says whether DSM acted on it. */
  datatype Fate =
    | Answered(terse: bool)                 // answered; `terse` leaves a created UUID out
    | Html(applied: bool, status: nat)      // an HTML page instead of JSON
    | Refused(code: int)                    // a JSON error, nothing done
    | Broken(applied: bool, text: string)   // transport failure or unreadable body
    | Crash(applied: bool)                  // the operator stops here

  /** One attempt of `post`: the login it may need first, the request, and the
      login that may follow a bad reply. */
  datatype Event = Event(elapsed: nat, login: LoginReply, fate: Fate, relogin: LoginReply)

  const HEALTHY := Event(0, Granted("sid", "token"), Answered(false), Granted("sid", "token"))

  /** A request that reached DSM and the record list it left behind. */
  datatype Exchange = Exchange(req: Request, after: seq<ProxyEntry>)

  /** DSM, the network script still to come, and the client's session. An exhausted
      script is a healthy network. */
  datatype World = World(
    nas: Nas,
    script: seq<Event>,
    log: seq<Exchange>,
    now: int,
    sid: string,
    synoToken: string,
    loginTime: int)

  datatype Session = LoggedIn | LoginFailed(text: string) | Killed

  datatype Reply = Data(answer: Answer) | Failure(fault: Fault) | Dead

  datatype Posted = Posted(w: World, reply: Reply)

  /** `Stopped` means the operator crashed inside the call. */
  datatype Result<+T> = Ok(value: T) | Err(fault: Fault) | Stopped

  /** What a client call did to the world and what it returned. */
  datatype Did<+T> = Did(w: World, res: Result<T>)

  function Head(script: seq<Event>): Event {
    if script == [] then HEALTHY else script[0]
  }

  function Tail(script: seq<Event>): (r: seq<Event>)
    ensures |r| <= |script|
    ensures script != [] ==> |r| < |script|
  {
    if script == [] then [] else script[1..]
  }

  datatype Endpoint = ProxyEndpoint | AclEndpoint | CertEndpoint

  function EndpointOf(req: Request): Endpoint {
    match req
    case ListAcls => AclEndpoint
    case ListCerts => CertEndpoint
    case SetCert(_, _, _, _) => CertEndpoint
    case _ => ProxyEndpoint
  }

  /** The errors `post` returns; `Text` is what each one reads. */
  datatype Fault =
    | ApiFault(code: int, endpoint: Endpoint)
    | Transport(text: string, endpoint: Endpoint)
    | LoginFault(text: string)
    | ReloginFault(text: string)
    | UuidLost
    | ProfileNotFound
    | Unparseable

  function Path(e: Endpoint): string {
    match e
    case ProxyEndpoint => "/webapi/entry.cgi/SYNO.Core.AppPortal.ReverseProxy"
    case AclEndpoint => "/webapi/entry.cgi/SYNO.Core.AppPortal.AccessControl"
    case CertEndpoint => "/webapi/entry.cgi"
  }

  function Text(f: Fault): string {
    match f
    case ApiFault(code, e) => "DSM API error " + Decimal(code) + " at " + Path(e)
    case Transport(text, e) => "POST " + Path(e) + ": " + text
    case LoginFault(text) => text
    case ReloginFault(text) => "re-login after HTML response: " + text
    case UuidLost => "created record but could not retrieve UUID"
    case ProfileNotFound => "ACL profile not found in DSM"
    case Unparseable => "parsing response"
  }

  predicate SessionFresh(w: World) {
    w.sid != "" && w.now - w.loginTime < SESSION_TIMEOUT
  }

  function Login(w: World, reply: LoginReply): (World, Session) {
    match reply
    case Granted(sid, token) => (w.(sid := sid, synoToken := token, loginTime := w.now), LoggedIn)
    case Denied(text) => (w, LoginFailed(text))
    case LoginCrash => (w, Killed)
  }

  function EnsureLoggedIn(w: World, reply: LoginReply): (World, Session) {
    if SessionFresh(w) then (w, LoggedIn) else Login(w, reply)
  }

  /** The request arrives at DSM, which acts on it when `applied`. */
  function Transmit(w: World, req: Request, applied: bool): World {
    var nas := if applied then Apply(w.nas, req).nas else w.nas;
    w.(nas := nas, log := w.log + [Exchange(req, nas.records)])
  }

  function Terse(answer: Answer, terse: bool): Answer {
    if terse && answer.Created? then Created(NO_UUID) else answer
  }

  function Heard(req: Request, answer: Answer): Reply {
    if answer.Error? then Failure(ApiFault(answer.code, EndpointOf(req))) else Data(answer)
  }

  function SessionLost(w: World): World {
    w.(sid := "")
  }

  predicate Retryable(fate: Fate) {
    fate.Html? || fate == Refused(ERR_SESSION)
  }

  /** Only a page below status 500 and the session error force a new login. */
  predicate NeedsRelogin(fate: Fate) {
    (fate.Html? && fate.status < 500) || fate == Refused(ERR_SESSION)
  }

  predicate Acts(fate: Fate) {
    match fate
    case Answered(_) => true
    case Html(applied, _) => applied
    case Refused(_) => false
    case Broken(applied, _) => applied
    case Crash(applied) => applied
  }

  /** The reply of a fate that ends the retries. */
  function Verdict(answer: Answer, req: Request, fate: Fate): Reply
    requires !Retryable(fate)
  {
    match fate
    case Answered(terse) => Heard(req, Terse(answer, terse))
    case Refused(code) => Failure(ApiFault(code, EndpointOf(req)))
    case Broken(_, text) => Failure(Transport(text, EndpointOf(req)))
    case Crash(_) => Dead
  }

  function ReloginError(fate: Fate, text: string): Fault {
    if fate.Html? then ReloginFault(text) else LoginFault(text)
  }

  datatype Attempted = Final(posted: Posted) | Again(w: World)

  /** What `post` makes of the reply to a request it has sent. */
  function Judge(w: World, answer: Answer, req: Request, ev: Event): (r: Attempted)
    ensures r.Again? ==> Retryable(ev.fate)
    ensures r.Final? ==> r.posted.w.script == w.script
    ensures r.Again? ==> r.w.script == w.script
  {
    if !Retryable(ev.fate) then Final(Posted(w, Verdict(answer, req, ev.fate)))
    else if !NeedsRelogin(ev.fate) then Again(w)
    else
      var (w', s) := EnsureLoggedIn(SessionLost(w), ev.relogin);
      match s
      case LoginFailed(text) => Final(Posted(w', Failure(ReloginError(ev.fate, text))))
      case Killed => Final(Posted(w', Dead))
      case LoggedIn => Again(w')
  }

  function RoundResult(again: bool, w: World, reply: Reply): Attempted {
    if again then Again(w) else Final(Posted(w, reply))
  }

  /** Sends, once there is a session, and judges what comes back. */
  function Proceed(w: World, session: Session, req: Request, ev: Event): (r: Attempted)
    ensures r.Again? ==> Retryable(ev.fate) && r.w.script == w.script
    ensures r.Final? ==> r.posted.w.script == w.script
  {
    match session
    case LoginFailed(text) => Final(Posted(w, Failure(LoginFault(text))))
    case Killed => Final(Posted(w, Dead))
    case LoggedIn => Judge(Transmit(w, req, Acts(ev.fate)), Apply(w.nas, req).answer, req, ev)
  }

  /** One round of `post`: log in if needed, send, and either end with a verdict or
      be ready to send again. A healthy reply is never retried, so each retry uses
      up the script. */
  function Attempt(w: World, req: Request): (r: Attempted)
    ensures r.Again? ==> w.script != [] && r.w.script == Tail(w.script)
    ensures r.Final? ==> r.posted.w.script == Tail(w.script)
  {
    var entered := Entered(w);
    Proceed(entered.0, entered.1, req, Head(w.script))
  }

  /** The next event begins, and with it a login if one is needed. */
  function Entered(w: World): (r: (World, Session))
    ensures r.0.nas == w.nas && r.0.log == w.log && r.0.script == Tail(w.script)
  {
    var ev := Head(w.script);
    EnsureLoggedIn(w.(script := Tail(w.script), now := w.now + ev.elapsed), ev.login)
  }

  function Post(w: World, req: Request): Posted
    decreases |w.script|
  {
    var step := Attempt(w, req);
    if step.Final? then step.posted
    else Post(step.w, req)
  }

  // ------------------------------------------------------------ the log

  /** `after` extends `before`, and every new exchange satisfies `p`. */
  ghost predicate LogGrows(before: seq<Exchange>, after: seq<Exchange>, p: Exchange -> bool) {
    && |before| <= |after|
    && after[..|before|] == before
    && forall i | |before| <= i < |after| :: p(after[i])
  }

  lemma LogGrowsTrans(a: seq<Exchange>, b: seq<Exchange>, c: seq<Exchange>, p: Exchange -> bool)
    requires LogGrows(a, b, p) && LogGrows(b, c, p)
    ensures LogGrows(a, c, p)
  {
    assert c[..|a|] == c[..|b|][..|a|];
    forall i | |a| <= i < |c| ensures p(c[i]) {
      if i < |b| { assert c[i] == c[..|b|][i]; }
    }
  }

  lemma LogWeaken(a: seq<Exchange>, b: seq<Exchange>, p: Exchange -> bool, q: Exchange -> bool)
    requires LogGrows(a, b, p) && forall x :: p(x) ==> q(x)
    ensures LogGrows(a, b, q)
  {
  }

  /** A read that changed nothing. */
  ghost predicate Read(rs: seq<ProxyEntry>, x: Exchange) {
    IsRead(x.req) && x.after == rs
  }

  /** DSM is as before, and only reads reached it. */
  ghost predicate OnlyRead(w: World, w': World) {
    w'.nas == w.nas && LogGrows(w.log, w'.log, x => Read(w.nas.records, x))
  }

  // ---------------------------------------------------- one post and DSM

  /** An answer DSM gave to the first or to a repeated arrival of the request. */
  ghost predicate Genuine(nas: Nas, req: Request, answer: Answer) {
    var first := Apply(nas, req);
    var second := Apply(first.nas, req);
    && !answer.Error?
    && exists terse :: answer == Terse(first.answer, terse) || answer == Terse(second.answer, terse)
  }

  ghost predicate Arrived(nas: Nas, nas': Nas, req: Request, x: Exchange) {
    x.req == req && (x.after == nas.records || x.after == nas'.records)
  }

  /** DSM is in the state before the request or after one application of it, and
      only this request was sent. */
  ghost predicate Landed(w: World, req: Request, w': World) {
    && (w'.nas == w.nas || w'.nas == Apply(w.nas, req).nas)
    && LogGrows(w.log, w'.log, x => Arrived(w.nas, w'.nas, req, x))
  }

  lemma TransmitLands(w: World, w1: World, req: Request, applied: bool)
    requires w1.nas == w.nas && w1.log == w.log
    ensures Landed(w, req, Transmit(w1, req, applied))
  {
  }

  /** Judging a reply touches only the session. */
  lemma JudgeFrame(w: World, answer: Answer, req: Request, ev: Event)
    ensures
      var r := Judge(w, answer, req, ev);
      var w' := if r.Again? then r.w else r.posted.w;
      w'.nas == w.nas && w'.log == w.log
  {
  }

  /** What a reply that is passed on says about DSM. */
  lemma JudgeTells(nas: Nas, w: World, answer: Answer, req: Request, ev: Event)
    requires answer == Apply(nas, req).answer
    ensures
      var r := Judge(w, answer, req, ev);
      r.Final? && r.posted.reply.Data? ==> Acts(ev.fate) && Genuine(nas, req, r.posted.reply.answer)
  {
  }

  /** What one round of `post` leaves behind. */
  ghost predicate RoundDone(w: World, req: Request, step: Attempted) {
    && (step.Again? ==> Landed(w, req, step.w))
    && (step.Final? ==> Landed(w, req, step.posted.w))
    && (step.Final? && step.posted.reply.Data? ==>
          step.posted.w.nas == Apply(w.nas, req).nas && Genuine(w.nas, req, step.posted.reply.answer))
  }

  lemma TransactEffect(w: World, w1: World, req: Request, ev: Event)
    requires w1.nas == w.nas && w1.log == w.log
    ensures RoundDone(w, req, Judge(Transmit(w1, req, Acts(ev.fate)), Apply(w1.nas, req).answer, req, ev))
  {
    var w2 := Transmit(w1, req, Acts(ev.fate));
    TransmitLands(w, w1, req, Acts(ev.fate));
    JudgeFrame(w2, Apply(w1.nas, req).answer, req, ev);
    JudgeTells(w.nas, w2, Apply(w1.nas, req).answer, req, ev);
  }

  lemma ProceedEffect(w: World, w1: World, session: Session, req: Request, ev: Event)
    requires w1.nas == w.nas && w1.log == w.log
    ensures RoundDone(w, req, Proceed(w1, session, req, ev))
  {
    if session.LoggedIn? {
      TransactEffect(w, w1, req, ev);
    }
  }

  lemma AttemptEffect(w: World, req: Request)
    ensures RoundDone(w, req, Attempt(w, req))
  {
    ProceedEffect(w, Entered(w).0, Entered(w).1, req, Head(w.script));
  }

  lemma LandedTwice(w: World, req: Request, w': World, w'': World)
    requires Repeatable(req) && Landed(w, req, w') && Landed(w', req, w'')
    ensures Landed(w, req, w'')
  {
    ApplyTwice(w.nas, req);
    var p := x => Arrived(w.nas, w''.nas, req, x);
    LogWeaken(w.log, w'.log, x => Arrived(w.nas, w'.nas, req, x), p);
    LogWeaken(w'.log, w''.log, x => Arrived(w'.nas, w''.nas, req, x), p);
    LogGrowsTrans(w.log, w'.log, w''.log, p);
  }

  /** However many times `post` repeats a repeatable request, DSM ends in the state
      before it or after one application; data means it was applied. */
  lemma {:induction false} PostEffect(w: World, req: Request)
    requires Repeatable(req)
    ensures
      var p := Post(w, req);
      && Landed(w, req, p.w)
      && (p.reply.Data? ==> p.w.nas == Apply(w.nas, req).nas && Genuine(w.nas, req, p.reply.answer))
    decreases |w.script|
  {
    AttemptEffect(w, req);
    var step := Attempt(w, req);
    if step.Again? {
      PostEffect(step.w, req);
      ApplyTwice(w.nas, req);
      LandedTwice(w, req, step.w, Post(step.w, req).w);
    }
  }

  /** DSM after the request has arrived `n` times. */
  function Repeated(nas: Nas, req: Request, n: nat): Nas
    decreases n
  {
    if n == 0 then nas else Repeated(Apply(nas, req).nas, req, n - 1)
  }

  /** Any request whatever: DSM ends in the state after as many applications as arrivals
      it acted on, at most one for each request sent; data means at least one. */
  lemma {:induction false} PostRepeats(w: World, req: Request) returns (n: nat)
    ensures
      var p := Post(w, req);
      && p.w.nas == Repeated(w.nas, req, n)
      && n <= |p.w.log| - |w.log|
      && (p.reply.Data? ==> n > 0)
    decreases |w.script|
  {
    AttemptCounts(w, req);
    var step := Attempt(w, req);
    var w' := if step.Again? then step.w else step.posted.w;
    n := if w'.nas == w.nas && !(step.Final? && step.posted.reply.Data?) then 0 else 1;
    assert Repeated(w.nas, req, 1) == Repeated(Apply(w.nas, req).nas, req, 0);
    if step.Again? {
      var more := PostRepeats(step.w, req);
      n := n + more;
    }
  }

  /** One round sends one request, or none and then DSM is as it was. */
  ghost predicate RoundCounted(w: World, req: Request, step: Attempted) {
    var w' := if step.Again? then step.w else step.posted.w;
    && |w.log| <= |w'.log| <= |w.log| + 1
    && (w'.nas == w.nas || (w'.nas == Apply(w.nas, req).nas && |w'.log| == |w.log| + 1))
    && (step.Final? && step.posted.reply.Data? ==>
          w'.nas == Apply(w.nas, req).nas && |w'.log| == |w.log| + 1)
  }

  lemma ProceedCounts(w: World, w1: World, session: Session, req: Request, ev: Event)
    requires w1.nas == w.nas && w1.log == w.log
    ensures RoundCounted(w, req, Proceed(w1, session, req, ev))
  {
    if session.LoggedIn? {
      JudgeFrame(Transmit(w1, req, Acts(ev.fate)), Apply(w1.nas, req).answer, req, ev);
      JudgeTells(w.nas, Transmit(w1, req, Acts(ev.fate)), Apply(w1.nas, req).answer, req, ev);
    }
  }

  lemma AttemptCounts(w: World, req: Request)
    ensures RoundCounted(w, req, Attempt(w, req))
  {
    ProceedCounts(w, Entered(w).0, Entered(w).1, req, Head(w.script));
  }

  /** A healthy network: one exchange, DSM's own answer. */
  lemma PostHealthy(w: World, req: Request)
    requires w.script == []
    ensures
      var p := Post(w, req);
      && p.w.script == []
      && p.w.nas == Apply(w.nas, req).nas
      && p.reply == Heard(req, Apply(w.nas, req).answer)
      && p.w.log == w.log + [Exchange(req, p.w.nas.records)]
  {
    var ev := Head(w.script);
    var (w1, s1) := EnsureLoggedIn(w.(script := Tail(w.script), now := w.now + ev.elapsed), ev.login);
    assert s1 == LoggedIn;
  }

  /** A first attempt whose logins succeed and whose reply ends the retries. */
  lemma PostFirst(w: World, req: Request)
    requires Head(w.script).login.Granted? && !Retryable(Head(w.script).fate)
    ensures
      var fate := Head(w.script).fate;
      var p := Post(w, req);
      && p.w.script == Tail(w.script)
      && p.w.nas == (if Acts(fate) then Apply(w.nas, req).nas else w.nas)
      && p.reply == Verdict(Apply(w.nas, req).answer, req, fate)
  {
  }

  // --------------------------------------------------------- retry counting

  predicate LoginsGranted(script: seq<Event>) {
    forall ev | ev in script :: ev.login.Granted? && ev.relogin.Granted?
  }

  /** How many retryable replies the script starts with. */
  function Leading(script: seq<Event>): (n: nat)
    ensures n <= |script|
    ensures forall i | 0 <= i < n :: Retryable(script[i].fate)
    ensures n < |script| ==> !Retryable(script[n].fate)
  {
    if script == [] || !Retryable(script[0].fate) then 0 else 1 + Leading(script[1..])
  }

  /** The events that are reached: the retried ones and the one that ends the call. */
  function EventsReached(script: seq<Event>): seq<Event> {
    var n := Leading(script);
    if n < |script| then script[..n + 1] else script
  }

  /** DSM after the retried arrivals. */
  function Battered(nas: Nas, req: Request, script: seq<Event>): Nas
    decreases script
  {
    if script == [] then nas
    else Battered(if Acts(script[0].fate) then Apply(nas, req).nas else nas, req, script[1..])
  }

  /** `p` is the end of a call whose retries have been counted. */
  predicate Retried(w: World, req: Request, p: Posted) {
    var n := Leading(w.script);
    var last := if n < |w.script| then w.script[n] else HEALTHY;
    && |p.w.log| == |w.log| + n + 1
    && p.w.script == (if n < |w.script| then w.script[n + 1..] else [])
    && p.reply == Verdict(Apply(Battered(w.nas, req, w.script[..n]), req).answer, req, last.fate)
  }

  lemma OneMoreRetry(w: World, w': World, req: Request, p: Posted)
    requires w.script != [] && Retryable(w.script[0].fate)
    requires w'.script == w.script[1..] && |w'.log| == |w.log| + 1
    requires w'.nas == if Acts(w.script[0].fate) then Apply(w.nas, req).nas else w.nas
    requires Retried(w', req, p)
    ensures Retried(w, req, p)
  {
    BatteredFirst(w.nas, req, w.script, Leading(w.script));
  }

  /** With the logins it reaches granted, `post` sends one request per leading retryable
      reply and one more, and returns the verdict of the first reply that is not
      retryable. */
  lemma {:induction false} PostRetries(w: World, req: Request)
    requires LoginsGranted(EventsReached(w.script))
    ensures
      var n := Leading(w.script);
      var last := if n < |w.script| then w.script[n] else HEALTHY;
      var p := Post(w, req);
      && |p.w.log| == |w.log| + n + 1
      && p.w.script == (if n < |w.script| then w.script[n + 1..] else [])
      && p.reply == Verdict(Apply(Battered(w.nas, req, w.script[..n]), req).answer, req, last.fate)
    decreases |w.script|
  {
    if w.script == [] {
      PostHealthy(w, req);
    } else {
      var ev := w.script[0];
      assert ev == EventsReached(w.script)[0];
      AttemptGranted(w, req);
      if Retryable(ev.fate) {
        assert EventsReached(w.script[1..]) == EventsReached(w.script)[1..];
        var w' := Attempt(w, req).w;
        PostRetries(w', req);
        OneMoreRetry(w, w', req, Post(w', req));
      }
    }
  }

  lemma BatteredFirst(nas: Nas, req: Request, script: seq<Event>, n: nat)
    requires 0 < n <= |script|
    ensures Battered(nas, req, script[..n])
      == Battered(if Acts(script[0].fate) then Apply(nas, req).nas else nas, req, script[1..][..n - 1])
  {
    assert script[..n][1..] == script[1..][..n - 1];
  }

  lemma AttemptGranted(w: World, req: Request)
    requires w.script != [] && w.script[0].login.Granted? && w.script[0].relogin.Granted?
    ensures
      var ev := w.script[0];
      var step := Attempt(w, req);
      && step.Again? == Retryable(ev.fate)
      && (step.Again? ==>
            && |step.w.log| == |w.log| + 1
            && step.w.nas == (if Acts(ev.fate) then Apply(w.nas, req).nas else w.nas))
      && (step.Final? ==>
            && |step.posted.w.log| == |w.log| + 1
            && step.posted.reply == Verdict(Apply(w.nas, req).answer, req, ev.fate))
  {
  }

  // ------------------------------------------------------------ the objects

  /** Everything outside the operator's process. */
  class Network {
    var nas: Nas
    var script: seq<Event>
    var log: seq<Exchange>
    var now: int

    constructor (nas: Nas, script: seq<Event>)
      ensures this.nas == nas && this.script == script && log == [] && now == 0
    {
      this.nas := nas;
      this.script := script;
      log := [];
      now := 0;
    }

    /** The next attempt of the script starts. */
    method Begin() returns (ev: Event)
      modifies this
      ensures ev == Head(old(script)) && script == Tail(old(script))
      ensures now == old(now) + ev.elapsed && nas == old(nas) && log == old(log)
    {
      ev := Head(script);
      script := Tail(script);
      now := now + ev.elapsed;
    }

    /** A request reaches DSM. */
    method Arrive(req: Request, applied: bool) returns (answer: Answer)
      modifies this`nas, this`log
      ensures answer == Apply(old(nas), req).answer
      ensures nas == if applied then Apply(old(nas), req).nas else old(nas)
      ensures log == old(log) + [Exchange(req, nas.records)]
    {
      answer := Apply(nas, req).answer;
      if applied {
        nas := Apply(nas, req).nas;
      }
      log := log + [Exchange(req, nas.records)];
    }
  }

  class Client {
    const net: Network
    var sid: string
    var synoToken: string
    var loginTime: int

    constructor (net: Network)
      ensures this.net == net && sid == "" && synoToken == ""
    {
      this.net := net;
      sid, synoToken, loginTime := "", "", 0;
    }

    function Snapshot(): World
      reads this, net
    {
      World(net.nas, net.script, net.log, net.now, sid, synoToken, loginTime)
    }

    method DoLogin(reply: LoginReply) returns (s: Session)
      modifies this
      ensures (Snapshot(), s) == Login(old(Snapshot()), reply)
    {
      match reply
      case Granted(granted, token) =>
        sid := granted;
        synoToken := token;
        loginTime := net.now;
        s := LoggedIn;
      case Denied(text) =>
        s := LoginFailed(text);
      case LoginCrash =>
        s := Killed;
    }

    method DoEnsureLoggedIn(reply: LoginReply) returns (s: Session)
      modifies this
      ensures (Snapshot(), s) == EnsureLoggedIn(old(Snapshot()), reply)
    {
      if sid != "" && net.now - loginTime < SESSION_TIMEOUT {
        s := LoggedIn;
      } else {
        s := DoLogin(reply);
      }
    }

    /** A new login after a reply that ends the session. */
    method Relogin(reply: LoginReply) returns (s: Session)
      modifies this
      ensures (Snapshot(), s) == EnsureLoggedIn(SessionLost(old(Snapshot())), reply)
    {
      sid := "";
      s := DoEnsureLoggedIn(reply);
    }

    /** Judges the reply to a request already sent; `again` asks for another round. */
    method DoJudge(answer: Answer, req: Request, ev: Event) returns (again: bool, reply: Reply)
      modifies this
      ensures RoundResult(again, Snapshot(), reply) == Judge(old(Snapshot()), answer, req, ev)
    {
      again, reply := false, Dead;
      match ev.fate
      case Html(_, status) =>
        if status < 500 {
          var s := Relogin(ev.relogin);
          if s.LoginFailed? {
            return false, Failure(ReloginFault(s.text));
          }
          if s.Killed? {
            return false, Dead;
          }
        }
        again := true;
      case Refused(code) =>
        if code == ERR_SESSION {
          var s := Relogin(ev.relogin);
          if s.LoginFailed? {
            return false, Failure(LoginFault(s.text));
          }
          if s.Killed? {
            return false, Dead;
          }
          again := true;
        } else {
          reply := Failure(ApiFault(code, EndpointOf(req)));
        }
      case Answered(terse) =>
        reply := Heard(req, Terse(answer, terse));
      case Broken(_, text) =>
        reply := Failure(Transport(text, EndpointOf(req)));
      case Crash(_) =>
        reply := Dead;
    }

    /** Sends the request and judges what comes back. */
    method Transact(req: Request, ev: Event) returns (again: bool, reply: Reply)
      modifies this, net
      ensures
        var w := old(Snapshot());
        RoundResult(again, Snapshot(), reply)
          == Judge(Transmit(w, req, Acts(ev.fate)), Apply(w.nas, req).answer, req, ev)
    {
      var answer := net.Arrive(req, Acts(ev.fate));
      again, reply := DoJudge(answer, req, ev);
    }

    /** One round of `DoPost`. */
    method Round(req: Request) returns (again: bool, reply: Reply)
      modifies this, net
      ensures RoundResult(again, Snapshot(), reply) == Attempt(old(Snapshot()), req)
    {
      ghost var w := Snapshot();
      var ev := net.Begin();
      assert Snapshot() == w.(script := Tail(w.script), now := w.now + ev.elapsed);
      var s := DoEnsureLoggedIn(ev.login);
      match s
      case LoginFailed(text) =>
        again, reply := false, Failure(LoginFault(text));
      case Killed =>
        again, reply := false, Dead;
      case LoggedIn =>
        again, reply := Transact(req, ev);
    }

    /** Retries for as long as the replies ask for it, as `post` recurses. */
    method DoPost(req: Request) returns (reply: Reply)
      modifies this, net
      ensures Posted(Snapshot(), reply) == Post(old(Snapshot()), req)
      decreases |net.script|
    {
      var again, r := Round(req);
      if again {
        reply := DoPost(req);
      } else {
        reply := r;
      }
    }
  }
}
