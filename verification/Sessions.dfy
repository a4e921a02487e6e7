/** Concurrent requests over one client: each caller of `post` runs on its own between
    the places where it takes the lock, and others may log in or give up the session in
    between. */
module Sessions {
  import opened Dsm
  import opened Client

  /** Where a caller stands; each step from one place to the next is taken under the
      lock, or is the sending of its request. */
  datatype Place = Enter | Reading | Ready | Expired | Reenter | Rereading | Finished

  /** `sid` and `token` are what the form holds, `header` the token sent beside it. */
  datatype Caller = Caller(req: Request, place: Place, sid: string, token: string, header: string)

  datatype Sent = Sent(sid: string, token: string, header: string)

  datatype Grant = Grant(sid: string, token: string)

  /** `grants` collects the logins DSM has granted, `sent` what has been sent. */
  datatype Shared = Shared(w: World, callers: seq<Caller>, grants: seq<Grant>, sent: seq<Sent>)

  /** Which caller moves, how long it took, and what DSM has to say to it. */
  datatype Move = Move(caller: nat, elapsed: nat, login: LoginReply, fate: Fate)

  function Granting(w: World, reply: LoginReply): seq<Grant> {
    if !SessionFresh(w) && reply.Granted? then [Grant(reply.sid, reply.token)] else []
  }

  /** The session as the form takes it over: an empty token leaves an older one in it. */
  function Fill(c: Caller, w: World): Caller {
    c.(sid := w.sid, token := if w.synoToken != "" then w.synoToken else c.token)
  }

  function AfterReply(fate: Fate): Place {
    if !Retryable(fate) then Finished else if NeedsRelogin(fate) then Expired else Enter
  }

  function Next(s: Shared, m: Move): (t: Shared)
    requires m.caller < |s.callers|
    ensures |t.callers| == |s.callers|
  {
    var w := s.w.(now := s.w.now + m.elapsed);
    var c := s.callers[m.caller];
    match c.place
    case Enter => Login(s, m, w, Reading)
    case Reading =>
      s.(w := w, callers := s.callers[m.caller := Fill(c, w).(header := w.synoToken, place := Ready)])
    case Ready =>
      s.(w := Transmit(w, c.req, Acts(m.fate)),
         callers := s.callers[m.caller := c.(place := AfterReply(m.fate))],
         sent := s.sent + [Sent(c.sid, c.token, c.header)])
    case Expired =>
      s.(w := SessionLost(w), callers := s.callers[m.caller := c.(place := Reenter)])
    case Reenter => Login(s, m, w, Rereading)
    case Rereading =>
      s.(w := w, callers := s.callers[m.caller := Fill(c, w).(place := Enter)])
    case Finished => s
  }

  /** Makes sure of a session and goes on to `place`, or gives up. */
  function Login(s: Shared, m: Move, w: World, place: Place): (t: Shared)
    requires m.caller < |s.callers|
    ensures |t.callers| == |s.callers|
  {
    var (w', session) := EnsureLoggedIn(w, m.login);
    var c := s.callers[m.caller].(place := if session.LoggedIn? then place else Finished);
    s.(w := w', callers := s.callers[m.caller := c], grants := s.grants + Granting(w, m.login))
  }

  predicate Moves(s: Shared, run: seq<Move>) {
    forall m | m in run :: m.caller < |s.callers|
  }

  function Run(s: Shared, run: seq<Move>): (t: Shared)
    requires Moves(s, run)
    ensures |t.callers| == |s.callers|
  {
    if run == [] then s
    else
      assert run[|run| - 1] in run;
      Next(Run(s, run[..|run| - 1]), run[|run| - 1])
  }

  predicate Start(s: Shared) {
    && s.w.sid == "" && s.grants == [] && s.sent == []
    && forall c | c in s.callers :: c.place == Enter
  }

  /** A session from one login, or none; and the form agrees with the header unless the
      login came without a token. */
  predicate OneLogin(grants: seq<Grant>, x: Sent) {
    && (x.sid == "" || Grant(x.sid, x.header) in grants)
    && (x.header == "" || x.token == x.header)
  }

  predicate Inv(s: Shared) {
    && (s.w.sid == "" || Grant(s.w.sid, s.w.synoToken) in s.grants)
    && (forall c | c in s.callers && c.place == Ready :: OneLogin(s.grants, Sent(c.sid, c.token, c.header)))
    && (forall x | x in s.sent :: OneLogin(s.grants, x))
  }

  lemma NextKeepsInv(s: Shared, m: Move)
    requires Inv(s) && m.caller < |s.callers|
    ensures Inv(Next(s, m))
  {
    var t := Next(s, m);
    var c := s.callers[m.caller];
    assert c in s.callers;
    forall g | g in s.grants ensures g in t.grants {}
    if c.place == Enter || c.place == Reenter {
      var w := s.w.(now := s.w.now + m.elapsed);
      var grant := Granting(w, m.login);
      assert grant != [] ==> grant[0] in t.grants;
    }
    forall d | d in t.callers && d.place == Ready ensures OneLogin(t.grants, Sent(d.sid, d.token, d.header)) {
      var i :| 0 <= i < |t.callers| && t.callers[i] == d;
      assert i != m.caller ==> s.callers[i] in s.callers;
    }
  }

  lemma {:induction false} RunKeepsInv(s: Shared, run: seq<Move>)
    requires Start(s) && Moves(s, run)
    ensures Inv(Run(s, run))
  {
    if run != [] {
      RunKeepsInv(s, run[..|run| - 1]);
      assert run[|run| - 1] in run;
      NextKeepsInv(Run(s, run[..|run| - 1]), run[|run| - 1]);
    }
  }

  /** Session consistency: however callers interleave, every request sent carries the
      session and token of one and the same granted login, or no session; a form whose
      token is of another login belongs to a login that came without a token. */
  lemma SentIsConsistent(s: Shared, run: seq<Move>, x: Sent)
    requires Start(s) && Moves(s, run) && x in Run(s, run).sent
    ensures x.sid == "" || Grant(x.sid, x.header) in Run(s, run).grants
    ensures x.token == x.header || x.header == ""
    ensures (forall g | g in Run(s, run).grants :: g.token != "") ==>
      x.sid == "" || (Grant(x.sid, x.token) in Run(s, run).grants && x.token == x.header)
  {
    RunKeepsInv(s, run);
  }

  // ------------------------------------------------------- runs step by step

  function Four(s: Shared, m: Move): (t: Shared)
    requires m.caller < |s.callers|
    ensures |t.callers| == |s.callers|
  {
    Next(Next(Next(Next(s, m), m), m), m)
  }

  lemma RunFour(s: Shared, run: seq<Move>, m: Move)
    requires Moves(s, run) && m.caller < |s.callers|
    ensures Moves(s, run + [m] + [m] + [m] + [m])
    ensures Run(s, run + [m] + [m] + [m] + [m]) == Four(Run(s, run), m)
  {
    RunSnoc(s, run, m);
    RunSnoc(s, run + [m], m);
    RunSnoc(s, run + [m] + [m], m);
    RunSnoc(s, run + [m] + [m] + [m], m);
  }

  lemma RunSnoc(s: Shared, run: seq<Move>, m: Move)
    requires Moves(s, run) && m.caller < |s.callers|
    ensures Moves(s, run + [m]) && Run(s, run + [m]) == Next(Run(s, run), m)
  {
    assert (run + [m])[..|run|] == run;
  }

  // ------------------------------------------------- which logins are consistent

  /** No form has been filled in yet. */
  predicate Blank(s: Shared) {
    forall c | c in s.callers :: c.token == ""
  }

  predicate GrantedWithin(s: Shared, grants: set<Grant>) {
    forall g | g in s.grants :: g in grants
  }

  /** Every request sent carries one token, in its form and beside it. */
  predicate OneToken(s: Shared) {
    forall x | x in s.sent :: x.token == x.header
  }

  ghost predicate AlwaysOneToken(s: Shared, grants: set<Grant>) {
    forall run | Moves(s, run) && GrantedWithin(Run(s, run), grants) :: OneToken(Run(s, run))
  }

  predicate AllTokens(grants: set<Grant>, without: bool) {
    forall g | g in grants :: (g.token == "") == without
  }

  /** What every step keeps while logins come all without a token, or all with one. */
  predicate Uniform(s: Shared, without: bool) {
    && (s.w.sid != "" ==> s.grants != [])
    && (s.grants != [] ==> (s.w.synoToken == "") == without)
    && (forall c | c in s.callers :: Fits(c, s.grants != [], without))
    && OneToken(s)
  }

  /** A caller reads a session only after a login, and what it has read fits together. */
  predicate Fits(c: Caller, granted: bool, without: bool) {
    && (c.place == Reading || c.place == Rereading ==> granted)
    && (without ==> c.token == "")
    && (c.place == Ready ==> c.token == c.header)
  }

  lemma OneMoves(s: Shared, t: Shared, i: nat, without: bool)
    requires i < |s.callers| == |t.callers|
    requires forall j | 0 <= j < |s.callers| && j != i :: t.callers[j] == s.callers[j]
    requires forall c | c in s.callers :: Fits(c, s.grants != [], without)
    requires s.grants != [] ==> t.grants != []
    requires Fits(t.callers[i], t.grants != [], without)
    ensures forall c | c in t.callers :: Fits(c, t.grants != [], without)
  {
    forall c | c in t.callers ensures Fits(c, t.grants != [], without) {
      var j :| 0 <= j < |t.callers| && t.callers[j] == c;
      assert s.callers[j] in s.callers;
    }
  }

  lemma NextKeepsUniform(s: Shared, m: Move, grants: set<Grant>, without: bool)
    requires m.caller < |s.callers| && Uniform(s, without)
    requires GrantedWithin(Next(s, m), grants) && AllTokens(grants, without)
    ensures Uniform(Next(s, m), without)
  {
    var t := Next(s, m);
    var c := s.callers[m.caller];
    assert c in s.callers && Fits(c, s.grants != [], without);
    if c.place == Enter || c.place == Reenter {
      var granted := Granting(s.w.(now := s.w.now + m.elapsed), m.login);
      assert granted != [] ==> granted[0] in t.grants;
    }
    OneMoves(s, t, m.caller, without);
  }

  lemma {:induction false} RunKeepsUniform(s: Shared, run: seq<Move>, grants: set<Grant>, without: bool)
    requires Start(s) && Blank(s) && Moves(s, run)
    requires GrantedWithin(Run(s, run), grants) && AllTokens(grants, without)
    ensures Uniform(Run(s, run), without)
  {
    if run != [] {
      var before := run[..|run| - 1];
      assert run[|run| - 1] in run;
      GrantsGrow(Run(s, before), run[|run| - 1]);
      RunKeepsUniform(s, before, grants, without);
      NextKeepsUniform(Run(s, before), run[|run| - 1], grants, without);
    }
  }

  lemma GrantsGrow(s: Shared, m: Move)
    requires m.caller < |s.callers|
    ensures forall g | g in s.grants :: g in Next(s, m).grants
  {
  }

  /** A login with a token, given up, and one without: the second request is sent with the
      token of the first in its form. */
  lemma TokenlessLoginMixes(s: Shared, first: Grant, second: Grant) returns (run: seq<Move>)
    requires Start(s) && s.callers != [] && first.token != "" && second.token == ""
    ensures Moves(s, run) && GrantedWithin(Run(s, run), {first, second})
    ensures Sent(second.sid, first.token, "") in Run(s, run).sent
  {
    var a := Move(0, 0, Granted(first.sid, first.token), Refused(ERR_SESSION));
    var b := Move(0, 0, Granted(second.sid, second.token), Answered(false));
    assert s.callers[0] in s.callers;
    FirstRound(s, a, first);
    RunFour(s, [], a);
    var half := [] + [a] + [a] + [a] + [a];
    SecondRound(Run(s, half), b, first.token, second);
    RunFour(s, half, b);
    var most := half + [b] + [b] + [b] + [b];
    RunSnoc(s, most, b);
    run := most + [b];
  }

  lemma FirstRound(s: Shared, m: Move, g: Grant)
    requires s.callers != [] && s.callers[0].place == Enter && s.w.sid == ""
    requires m == Move(0, 0, Granted(g.sid, g.token), Refused(ERR_SESSION)) && g.token != ""
    ensures
      var t := Four(s, m);
      && t.w.sid == "" && t.callers[0].place == Reenter && t.callers[0].token == g.token
      && t.grants == s.grants + [g]
  {
    var s1 := Next(s, m);
    assert s1.w.synoToken == g.token && s1.callers[0].place == Reading;
    var s2 := Next(s1, m);
    assert s2.callers[0].place == Ready && s2.callers[0].token == g.token;
    var s3 := Next(s2, m);
    assert s3.callers[0].place == Expired;
  }

  lemma SecondRound(s: Shared, m: Move, token: string, g: Grant)
    requires s.callers != [] && s.callers[0].place == Reenter && s.w.sid == ""
    requires s.callers[0].token == token && token != ""
    requires m == Move(0, 0, Granted(g.sid, g.token), Answered(false)) && g.token == ""
    ensures
      var t := Next(Four(s, m), m);
      && (forall x | x in t.grants :: x in s.grants || x == g)
      && Sent(g.sid, token, "") in t.sent
  {
    var s1 := Next(s, m);
    assert s1.w.synoToken == "" && s1.w.sid == g.sid && s1.callers[0].place == Rereading
      && s1.callers[0].token == token;
    var s2 := Next(s1, m);
    assert s2.callers[0].place == Enter && s2.callers[0].token == token;
    var s3 := Next(s2, m);
    assert s3.w.synoToken == "" && s3.w.sid == g.sid && s3.callers[0].place == Reading && s3.callers[0].token == token;
    var s4 := Next(s3, m);
    assert s4.callers[0] == Caller(s.callers[0].req, Ready, g.sid, token, "");
    assert Next(s4, m).sent[|s4.sent|] == Sent(g.sid, token, "");
  }

  /** Starting with blank forms, and whatever the callers do, form and header agree in every
      run exactly when the logins DSM may grant come all without a token or all with one. */
  lemma OneTokenExactly(s: Shared, grants: set<Grant>)
    requires Start(s) && Blank(s) && s.callers != []
    ensures AlwaysOneToken(s, grants) <==> AllTokens(grants, true) || AllTokens(grants, false)
  {
    if AllTokens(grants, true) || AllTokens(grants, false) {
      var without := AllTokens(grants, true);
      forall run | Moves(s, run) && GrantedWithin(Run(s, run), grants) ensures OneToken(Run(s, run)) {
        RunKeepsUniform(s, run, grants, without);
      }
    } else {
      var first :| first in grants && first.token != "";
      var second :| second in grants && second.token == "";
      var run := TokenlessLoginMixes(s, first, second);
      assert Moves(s, run) && GrantedWithin(Run(s, run), grants);
    }
  }

  // --------------------------------------------------------------- one caller

  /** What a lone caller does about a reply that ends the session. */
  function SoloReply(s: Shared, ev: Event): Shared
    requires |s.callers| == 1
  {
    if s.callers[0].place != Expired then s
    else
      var m := Move(0, 0, ev.relogin, ev.fate);
      var t := Next(Next(s, m), m);
      if t.callers[0].place == Finished then t else Next(t, m)
  }

  /** Reads the session, sends, and deals with the reply. */
  function SoloSend(s: Shared, ev: Event): Shared
    requires |s.callers| == 1
  {
    var m := Move(0, 0, ev.login, ev.fate);
    SoloReply(Next(Next(s, m), m), ev)
  }

  /** A lone caller's way through one event of the network. */
  function Solo(s: Shared, ev: Event): Shared
    requires |s.callers| == 1
  {
    var s1 := Next(s, Move(0, ev.elapsed, ev.login, ev.fate));
    if s1.callers[0].place == Finished then s1 else SoloSend(s1, ev)
  }

  function WorldAfter(step: Attempted): World {
    if step.Again? then step.w else step.posted.w
  }

  lemma SoloReplyIsJudge(s: Shared, w: World, answer: Answer, ev: Event)
    requires |s.callers| == 1 && s.callers[0].place == AfterReply(ev.fate)
    requires s.w.(script := w.script) == w
    ensures
      var t := SoloReply(s, ev);
      var step := Judge(w, answer, s.callers[0].req, ev);
      && t.w.(script := w.script) == WorldAfter(step)
      && t.callers[0].place == (if step.Again? then Enter else Finished)
  {
    if NeedsRelogin(ev.fate) && Retryable(ev.fate) {
      var m := Move(0, 0, ev.relogin, ev.fate);
      var s1 := Next(s, m);
      assert s1.w.(script := w.script) == SessionLost(w) && s1.callers[0].place == Reenter;
    }
  }

  lemma SoloEnters(s: Shared, ev: Event)
    requires |s.callers| == 1 && s.callers[0].place == Enter
    ensures
      var (w, session) := EnsureLoggedIn(s.w.(script := Tail(s.w.script), now := s.w.now + ev.elapsed), ev.login);
      var t := Next(s, Move(0, ev.elapsed, ev.login, ev.fate));
      && t.callers[0] == s.callers[0].(place := if session.LoggedIn? then Reading else Finished)
      && t.w.(script := Tail(s.w.script)) == w
  {
  }

  lemma SoloSends(s: Shared, w: World, ev: Event)
    requires |s.callers| == 1 && s.callers[0].place == Reading && s.w.(script := w.script) == w
    ensures
      var m := Move(0, 0, ev.login, ev.fate);
      var t := Next(Next(s, m), m);
      && t.callers[0].req == s.callers[0].req
      && t.callers[0].place == AfterReply(ev.fate)
      && t.w.(script := w.script) == Transmit(w, s.callers[0].req, Acts(ev.fate))
  {
    assert Next(s, Move(0, 0, ev.login, ev.fate)).callers[0].place == Ready;
  }

  lemma SoloGoesOn(s: Shared, w: World, req: Request, ev: Event)
    requires |s.callers| == 1 && s.callers[0].place == Reading && s.callers[0].req == req
    requires s.w.(script := w.script) == w
    ensures SameRound(SoloSend(s, ev),
      Judge(Transmit(w, req, Acts(ev.fate)), Apply(w.nas, req).answer, req, ev), w.script)
  {
    var m := Move(0, 0, ev.login, ev.fate);
    SoloSends(s, w, ev);
    SoloReplyIsJudge(Next(Next(s, m), m), Transmit(w, req, Acts(ev.fate)), Apply(w.nas, req).answer, ev);
  }

  /** The lone caller ends as the round does: same world, and at the start or done. */
  predicate SameRound(t: Shared, step: Attempted, script: seq<Event>) {
    && |t.callers| == 1
    && t.w.(script := script) == WorldAfter(step)
    && t.callers[0].place == (if step.Again? then Enter else Finished)
  }

  lemma EnterThenJudge(w: World, w1: World, session: Session, req: Request, ev: Event, t: Shared)
    requires ev == Head(w.script)
    requires (w1, session) == EnsureLoggedIn(w.(script := Tail(w.script), now := w.now + ev.elapsed), ev.login)
    requires session.LoggedIn? ==>
      SameRound(t, Judge(Transmit(w1, req, Acts(ev.fate)), Apply(w1.nas, req).answer, req, ev), w1.script)
    requires !session.LoggedIn? ==>
      |t.callers| == 1 && t.w.(script := w1.script) == w1 && t.callers[0].place == Finished
    ensures SameRound(t, Attempt(w, req), Tail(w.script))
  {
  }

  /** Alone, a caller takes exactly the rounds of `post`. */
  lemma SoloIsAttempt(s: Shared)
    requires |s.callers| == 1 && s.callers[0].place == Enter
    ensures SameRound(Solo(s, Head(s.w.script)), Attempt(s.w, s.callers[0].req), Tail(s.w.script))
  {
    var ev, req := Head(s.w.script), s.callers[0].req;
    var (w1, session) := EnsureLoggedIn(s.w.(script := Tail(s.w.script), now := s.w.now + ev.elapsed), ev.login);
    SoloEnters(s, ev);
    if session.LoggedIn? {
      SoloGoesOn(Next(s, Move(0, ev.elapsed, ev.login, ev.fate)), w1, req, ev);
    }
    EnterThenJudge(s.w, w1, session, req, ev, Solo(s, ev));
  }
}
