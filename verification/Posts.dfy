/** `post` told reply by reply, in status and error numbers: which replies end the call, which
    make it start over, and under which session the next request goes out. */
module Posts {
  import opened Dsm
  import opened Client

  // --------------------------------------------------------------- the session

  /** When the next event has begun there is a session, and it is younger than an hour. */
  predicate InSession(w: World, ev: Event) {
    w.sid != "" && w.now + ev.elapsed - w.loginTime < 3600
  }

  /** The event has begun: its time has passed and it is no longer to come. */
  function Begun(w: World, ev: Event): World {
    w.(script := Tail(w.script), now := w.now + ev.elapsed)
  }

  /** A session that is still good is used: how DSM would answer a login does not matter. */
  lemma GoodSessionIsUsed(w: World, req: Request, ev: Event, rest: seq<Event>, login: LoginReply)
    requires w.script == [ev] + rest && InSession(w, ev)
    ensures Post(w.(script := [ev.(login := login)] + rest), req) == Post(w, req)
  {
    var v := w.(script := [ev.(login := login)] + rest);
    assert v.script[0] == ev.(login := login) && v.script[1..] == rest && w.script[0] == ev && w.script[1..] == rest;
    assert Attempt(v, req) == Attempt(w, req);
  }

  /** Without one a login comes first; if it fails nothing is sent, and the session is as it
      was. */
  lemma NoLoginNoRequest(w: World, req: Request, ev: Event, rest: seq<Event>)
    requires w.script == [ev] + rest && !InSession(w, ev)
    ensures ev.login.Denied? ==> Post(w, req) == Posted(Begun(w, ev), Failure(LoginFault(ev.login.text)))
    ensures ev.login.LoginCrash? ==> Post(w, req) == Posted(Begun(w, ev), Dead)
  {
    assert w.script[0] == ev;
  }

  /** If it is granted, the call goes on as in the session that came with it. */
  lemma LoginThenRequest(w: World, req: Request, ev: Event, rest: seq<Event>)
    requires w.script == [ev] + rest && !InSession(w, ev) && ev.login.Granted? && ev.login.sid != ""
    ensures
      var v := w.(sid := ev.login.sid, synoToken := ev.login.token, loginTime := w.now + ev.elapsed);
      InSession(v, ev) && Post(w, req) == Post(v, req)
  {
    var v := w.(sid := ev.login.sid, synoToken := ev.login.token, loginTime := w.now + ev.elapsed);
    assert w.script[0] == ev;
    assert Entered(w) == Entered(v);
  }

  // --------------------------------------------------------------- the replies

  /** The request went out in this session, and DSM acted on it or not. */
  function Sent(w: World, req: Request, ev: Event, acted: bool): World {
    var nas := if acted then Apply(w.nas, req).nas else w.nas;
    Begun(w, ev).(nas := nas, log := w.log + [Exchange(req, nas.records)])
  }

  /** An answer ends the call: DSM's error as such, anything else as data, from which a terse
      reply to a create leaves the UUID out. */
  lemma AnAnswerEnds(w: World, req: Request, ev: Event, rest: seq<Event>)
    requires w.script == [ev] + rest && InSession(w, ev) && ev.fate.Answered?
    ensures
      var answer := Apply(w.nas, req).answer;
      Post(w, req) == Posted(Sent(w, req, ev, true),
        if answer.Error? then Failure(ApiFault(answer.code, EndpointOf(req)))
        else if answer.Created? && ev.fate.terse then Data(Created(0))
        else Data(answer))
  {
    assert w.script[0] == ev;
  }

  /** Error 119 takes the session away; every other error ends the call. */
  lemma AnErrorEnds(w: World, req: Request, ev: Event, rest: seq<Event>)
    requires w.script == [ev] + rest && InSession(w, ev) && ev.fate.Refused? && ev.fate.code != 119
    ensures Post(w, req) == Posted(Sent(w, req, ev, false), Failure(ApiFault(ev.fate.code, EndpointOf(req))))
  {
    assert w.script[0] == ev;
  }

  /** A broken connection ends the call, whether DSM has acted or not. */
  lemma ABreakEnds(w: World, req: Request, ev: Event, rest: seq<Event>)
    requires w.script == [ev] + rest && InSession(w, ev) && (ev.fate.Broken? || ev.fate.Crash?)
    ensures Post(w, req) == Posted(Sent(w, req, ev, ev.fate.applied),
      if ev.fate.Crash? then Dead else Failure(Transport(ev.fate.text, EndpointOf(req))))
  {
    assert w.script[0] == ev;
  }

  /** A page of status 500 or above: the same request again, in the same session, and no login
      is asked for. */
  lemma AServerErrorRepeats(w: World, req: Request, ev: Event, rest: seq<Event>)
    requires w.script == [ev] + rest && InSession(w, ev) && ev.fate.Html? && ev.fate.status >= 500
    ensures Post(w, req) == Post(Sent(w, req, ev, ev.fate.applied), req)
  {
    assert w.script[0] == ev;
  }

  /** A page below 500, or error 119. */
  predicate EndsSession(fate: Fate) {
    (fate.Html? && fate.status < 500) || fate == Refused(119)
  }

  /** It costs the session. A login that is denied then ends the call after this one request,
      and leaves no session; the error says which of the two it was. */
  lemma DeniedRelogin(w: World, req: Request, ev: Event, rest: seq<Event>)
    requires w.script == [ev] + rest && InSession(w, ev) && EndsSession(ev.fate) && ev.relogin.Denied?
    ensures
      var text := ev.relogin.text;
      Post(w, req) == Posted(Sent(w, req, ev, ev.fate.Html? && ev.fate.applied).(sid := ""),
        Failure(if ev.fate.Html? then ReloginFault(text) else LoginFault(text)))
  {
    assert w.script[0] == ev;
  }

  lemma CrashInRelogin(w: World, req: Request, ev: Event, rest: seq<Event>)
    requires w.script == [ev] + rest && InSession(w, ev) && EndsSession(ev.fate) && ev.relogin.LoginCrash?
    ensures Post(w, req) == Posted(Sent(w, req, ev, ev.fate.Html? && ev.fate.applied).(sid := ""), Dead)
  {
    assert w.script[0] == ev;
  }

  /** One that is granted makes the request go out again in the new session. */
  lemma GrantedRelogin(w: World, req: Request, ev: Event, rest: seq<Event>)
    requires w.script == [ev] + rest && InSession(w, ev) && EndsSession(ev.fate) && ev.relogin.Granted?
    ensures
      var v := Sent(w, req, ev, ev.fate.Html? && ev.fate.applied);
      Post(w, req) == Post(v.(sid := ev.relogin.sid, synoToken := ev.relogin.token, loginTime := v.now), req)
  {
    assert w.script[0] == ev;
  }

  // ---------------------------------------------------- pages, one after another

  /** Pages of a server in trouble, whose logins would be granted. */
  predicate ServerPages(pages: seq<Event>) {
    forall ev | ev in pages :: ev.login.Granted? && ev.login.sid != "" && ev.fate.Html? && ev.fate.status >= 500
  }

  predicate SomeApplied(pages: seq<Event>) {
    exists ev | ev in pages :: ev.fate.Html? && ev.fate.applied
  }

  /** Through any number of them the request is sent again and again; what follows is the call
      as it would have been, over a DSM that has acted on the request if any of them came from
      one that had. */
  lemma {:induction false} PagesPass(w: World, req: Request, pages: seq<Event>, rest: seq<Event>) returns (v: World)
    requires w.script == pages + rest && ServerPages(pages) && Repeatable(req)
    ensures Post(w, req) == Post(v, req) && v.script == rest
    ensures v.nas == if SomeApplied(pages) then Apply(w.nas, req).nas else w.nas
    decreases |pages|
  {
    v := w;
    if pages == [] {
      assert w.script == rest;
    } else {
      var ev := pages[0];
      assert ev in pages && w.script == [ev] + (pages[1..] + rest);
      if !InSession(w, ev) {
        LoginThenRequest(w, req, ev, pages[1..] + rest);
        v := w.(sid := ev.login.sid, synoToken := ev.login.token, loginTime := w.now + ev.elapsed);
      }
      AServerErrorRepeats(v, req, ev, pages[1..] + rest);
      ApplyTwice(w.nas, req);
      SomeAppliedFirst(pages);
      v := PagesPass(Sent(v, req, ev, ev.fate.applied), req, pages[1..], rest);
    }
  }

  lemma SomeAppliedFirst(pages: seq<Event>)
    requires pages != [] && pages[0].fate.Html?
    ensures SomeApplied(pages) <==> pages[0].fate.applied || SomeApplied(pages[1..])
  {
    assert pages == [pages[0]] + pages[1..];
  }
}
