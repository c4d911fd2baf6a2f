/** Runs that exist: a session without any fault goes through and stores every form, and a run in
    which one form cannot be reopened marks another form sent that the database does not have. */
module ProtocolScripts {
  import opened Bytes
  import opened Streams
  import opened Records
  import opened Server
  import opened Framing
  import opened Protocol
  import opened ProtocolInvariant
  import opened ProtocolClient
  import opened ProtocolServer
  import opened ProtocolRuns
  import opened Announcements
  import opened ProtocolTheorems
  import opened ProtocolProgress
  import opened ProtocolSessions

  // ---------------------------------------------------------------------------------------
  // Leading from one state to another
  // ---------------------------------------------------------------------------------------

  /** Some run leads from one state to the other. */
  ghost predicate Reaches(cfg: Config, w: World, w': World) {
    exists es: seq<Event> :: Exec(cfg, w, es) == Some(w')
  }

  /** Every form just announced can be reopened, by any client. */
  ghost predicate Untroubled(cfg: Config, w: World, es: seq<Event>) {
    forall p: nat :: AllReopen(cfg, w, es, p)
  }

  /** Some run like that does. */
  ghost predicate Leads(cfg: Config, w: World, w': World) {
    exists es: seq<Event> :: Exec(cfg, w, es) == Some(w') && Untroubled(cfg, w, es)
  }

  lemma {:induction false} ExecAppend(cfg: Config, w: World, a: seq<Event>, w1: World, b: seq<Event>)
    requires Exec(cfg, w, a) == Some(w1)
    ensures Exec(cfg, w, a + b) == Exec(cfg, w1, b)
    decreases |a|
  {
    hide Next;
    if a == [] {
      assert a + b == b;
    } else {
      assert (a + b)[1..] == a[1..] + b;
      ExecAppend(cfg, Next(cfg, w, a[0]).value, a[1..], w1, b);
    }
  }

  lemma {:induction false} ReopenAppend(cfg: Config, w: World, a: seq<Event>, w1: World, b: seq<Event>, p: nat)
    requires Exec(cfg, w, a) == Some(w1) && AllReopen(cfg, w, a, p) && AllReopen(cfg, w1, b, p)
    ensures AllReopen(cfg, w, a + b, p)
    decreases |a|
  {
    hide Next, Reopens;
    if a == [] {
      assert a + b == b;
    } else {
      assert (a + b)[1..] == a[1..] + b;
      ReopenAppend(cfg, Next(cfg, w, a[0]).value, a[1..], w1, b, p);
    }
  }

  lemma ReachesOn(cfg: Config, w: World, w1: World, w2: World)
    requires Reaches(cfg, w, w1) && Reaches(cfg, w1, w2)
    ensures Reaches(cfg, w, w2)
  {
    hide Exec, AllReopen;
    var a: seq<Event> :| Exec(cfg, w, a) == Some(w1);
    var b: seq<Event> :| Exec(cfg, w1, b) == Some(w2);
    ExecAppend(cfg, w, a, w1, b);
    assert Exec(cfg, w, a + b) == Some(w2);
  }

  lemma LeadsOn(cfg: Config, w: World, w1: World, w2: World)
    requires Leads(cfg, w, w1) && Leads(cfg, w1, w2)
    ensures Leads(cfg, w, w2)
  {
    hide Exec, AllReopen;
    var a: seq<Event> :| Exec(cfg, w, a) == Some(w1) && Untroubled(cfg, w, a);
    var b: seq<Event> :| Exec(cfg, w1, b) == Some(w2) && Untroubled(cfg, w1, b);
    ExecAppend(cfg, w, a, w1, b);
    forall p: nat ensures AllReopen(cfg, w, a + b, p) { ReopenAppend(cfg, w, a, w1, b, p); }
    assert Exec(cfg, w, a + b) == Some(w2) && Untroubled(cfg, w, a + b);
  }

  lemma LeadsReaches(cfg: Config, w: World, w': World)
    requires Leads(cfg, w, w')
    ensures Reaches(cfg, w, w')
  {
    hide Exec, Untroubled;
  }

  lemma LeadsNowhere(cfg: Config, w: World)
    ensures Leads(cfg, w, w)
  {
    assert Exec(cfg, w, []) == Some(w) && Untroubled(cfg, w, []);
  }

  lemma LeadsOnce(cfg: Config, w: World, e: Event, w': World)
    requires Next(cfg, w, e) == Some(w')
    ensures Reaches(cfg, w, w') && ((forall p: nat :: Reopens(w, e, p)) ==> Leads(cfg, w, w'))
  {
    hide Next, Reopens;
    assert [e][1..] == [];
    assert Exec(cfg, w', []) == Some(w');
    assert Exec(cfg, w, [e]) == Some(w');
    if forall p: nat :: Reopens(w, e, p) {
      forall p: nat ensures AllReopen(cfg, w, [e], p) { assert Reopens(w, e, p) && AllReopen(cfg, w', [], p); }
      assert Untroubled(cfg, w, [e]);
    }
  }

  lemma LeadsReachably(cfg: Config, w: World, w': World)
    requires Reachable(cfg, w) && Reaches(cfg, w, w')
    ensures Reachable(cfg, w')
  {
    assert Reaches(cfg, Init(cfg), w);
    ReachesOn(cfg, Init(cfg), w, w');
  }

  /** The world with session `i`, the marks and the log replaced. */
  function With(w: World, i: nat, s: Session, sent: set<(nat, string)>, log: seq<Entry>): World
    requires i < |w.sessions|
  {
    w.(sessions := w.sessions[i := s], sent := sent, log := log)
  }

  /** The acting client's buffer is empty. */
  predicate Ready(w: World, i: nat, p: nat) {
    i < |w.sessions| && p < |w.bufs| && w.bufs[p] == ""
  }

  lemma ClientMove(cfg: Config, w: World, i: nat, s: Session, sent: set<(nat, string)>, log: seq<Entry>, ch: Choice,
                   a: Acted,
                   sent': set<(nat, string)>)
    requires s.owner < |cfg.clients| && Ready(w, i, s.owner)
    requires ClientStep(cfg, s, "", sent, ch) == Some(a) && a.buf == ""
    requires sent' == sent + set n | n in a.marks :: (s.owner, n)
    ensures Reaches(cfg, With(w, i, s, sent, log), With(w, i, a.s, sent', log))
    ensures (s.pc.Named? ==> ch.works) ==> Leads(cfg, With(w, i, s, sent, log), With(w, i, a.s, sent', log))
  {
    hide ClientStep, Leads, Reaches;
    var w0 := With(w, i, s, sent, log);
    var w1 := With(w, i, a.s, sent', log);
    assert w0.sessions[i := a.s] == w1.sessions && w0.bufs[s.owner := ""] == w0.bufs;
    LeadsOnce(cfg, w0, ClientActs(i, ch), w1);
  }

  lemma SilentMove(cfg: Config, w: World, i: nat, s: Session, sent: set<(nat, string)>, log: seq<Entry>, ch: Choice,
                   t: Session)
    requires s.owner < |cfg.clients| && Ready(w, i, s.owner)
    requires ClientStep(cfg, s, "", sent, ch) == Some(Acted(t, "", {}))
    ensures Reaches(cfg, With(w, i, s, sent, log), With(w, i, t, sent, log))
    ensures (s.pc.Named? ==> ch.works) ==> Leads(cfg, With(w, i, s, sent, log), With(w, i, t, sent, log))
  {
    hide ClientStep, Leads, With, Reaches;
    ClientMove(cfg, w, i, s, sent, log, ch, Acted(t, "", {}), sent);
  }

  lemma ServerMove(cfg: Config, w: World, i: nat, s: Session, sent: set<(nat, string)>, log: seq<Entry>, ch: Chance,
                   d: Served)
    requires i < |w.sessions| && ServerStep(cfg, s, |log|, ch) == Some(d)
    ensures Leads(cfg, With(w, i, s, sent, log), With(w, i, d.s, sent, Grown(log, d.entry)))
  {
    hide ServerStep, Leads, Reaches;
    var w0 := With(w, i, s, sent, log);
    var w1 := With(w, i, d.s, sent, Grown(log, d.entry));
    assert w0.sessions[i := d.s] == w1.sessions;
    LeadsOnce(cfg, w0, ServerActs(i, ch), w1);
  }

  // ---------------------------------------------------------------------------------------
  // The handshake
  // ---------------------------------------------------------------------------------------

  /** A session of the handshake with nothing under way. */
  function Quiet(p: nat, pc: Pc, todo: set<string>, server: Thread): Session {
    Connected(p, todo).(pc := pc, server := server)
  }

  /** A request of the client taken by the server, and the reply taken by the client. */
  lemma Exchange(cfg: Config, w: World, i: nat, s: Session, request: string, reply: string, waits: Pc, next: Pc,
                 server: Thread, accepted: bool, sent: set<(nat, string)>, log: seq<Entry>, ch: Chance)
    requires s.owner < |cfg.clients| && Ready(w, i, s.owner) && Waiting(waits) && !waits.WaitAck?
    requires s == s.(c2s := "", s2c := "", up := true, msgs := [], seen := 0, reply := "") && !s.server.Gone?
        && !server.Gone?
    requires reply != "" && WholeLine(reply) && |reply| < RoomAt(waits)
    requires var s1 := s.(pc := waits, c2s := request, msgs := [request]);
             var s2 := s.(pc := waits, s2c := reply, reply := reply, server := server, accepted := accepted);
             && ClientStep(cfg, s, "", sent, GOING_WELL) == Some(Acted(s1, "", {}))
             && ServerStep(cfg, s1, |log|, ch) == Some(Served(s2, None))
    requires HeardRightly(waits, reply) && next == HeardAt(waits)
    ensures Leads(cfg, With(w, i, s, sent, log), With(w, i, s.(pc := next, server := server, accepted := accepted),
        sent, log))
  {
    var s1 := s.(pc := waits, c2s := request, msgs := [request]);
    var s2 := s.(pc := waits, s2c := reply, reply := reply, server := server, accepted := accepted);
    var s3 := s.(pc := next, server := server, accepted := accepted);
    hide ClientStep, ServerStep, HeardRightly, WholeLine, Leads, With;
    SilentMove(cfg, w, i, s, sent, log, GOING_WELL, s1);
    ServerMove(cfg, w, i, s1, sent, log, ch, Served(s2, None));
    SameLog(log);
    HearsReply(cfg, s2, sent, next);
    assert s2.(s2c := "", reply := "", pc := next) == s3;
    SilentMove(cfg, w, i, s2, sent, log, GOING_WELL, s3);
    LeadsOn(cfg, With(w, i, s, sent, log), With(w, i, s1, sent, log), With(w, i, s2, sent, log));
    LeadsOn(cfg, With(w, i, s, sent, log), With(w, i, s2, sent, log), With(w, i, s3, sent, log));
  }

  /** The client reads this reply as consent. */
  predicate HeardRightly(waits: Pc, reply: string) {
    match waits
    case WaitMagic => Returned(Got(reply)) == 4 && StartsWith(reply, OK)
    case WaitUser => Returned(Got(reply)) >= 4 && Strtol(CStr(reply)) == 500
    case WaitPass => Returned(Got(reply)) == 4 && Strtol(CStr(reply)) != 303
    case _ => false
  }

  lemma HearsReply(cfg: Config, s: Session, sent: set<(nat, string)>, next: Pc)
    requires s.owner < |cfg.clients| && Waiting(s.pc) && !s.pc.WaitAck? && Live(s) && s.s2c == s.reply && s.reply != ""
    requires WholeLine(s.reply) && |s.reply| < RoomAt(s.pc) && HeardRightly(s.pc, s.reply) && next == HeardAt(s.pc)
    ensures ClientStep(cfg, s, "", sent, GOING_WELL) == Some(Acted(s.(s2c := "", reply := "", pc := next), "", {}))
  {
    hide WholeLine, Receive, Strtol, CStr, Returned, StartsWith;
    ReceiveIs(s, GOING_WELL, RoomAt(s.pc));
  }

  lemma AskMove(cfg: Config, s: Session, sent: set<(nat, string)>)
    requires s.owner < |cfg.clients| && (s.pc.SendMagic? || s.pc.SendUser? || s.pc.SendPass?)
    requires s == s.(c2s := "", up := true, msgs := []) && !s.server.Gone?
    ensures var request := RequestAt(cfg, cfg.clients[s.owner], s.pc);
            ClientStep(cfg, s, "", sent, GOING_WELL)
            == Some(Acted(s.(pc := WaitsAt(s.pc), c2s := request, msgs := [request]), "", {}))
  {
    var request := RequestAt(cfg, cfg.clients[s.owner], s.pc);
    assert "" + request == request && [] + [request] == [request];
    hide UserLine, PassLine;
  }

  /** Chances of a server whose clock is inside the account's time window. */
  function InTime(a: Account): Chance {
    SERVING_WELL.(early := a.start, late := a.end)
  }

  lemma AnswerWell(s: Session, msg: string, ch: Chance, next: Thread, n: nat)
    requires s.up && s.s2c == "" && s.reply == "" && ch.writes && n == |s.c2s| && |s.msgs| == 1
    ensures Answer(Drop(s, n), msg, ch, next, Gone)
         == s.(c2s := "", msgs := [], s2c := msg, reply := msg, server := next)
    ensures Answer(Drop(s, n).(accepted := true), msg, ch, next, Gone)
         == s.(c2s := "", msgs := [], s2c := msg, reply := msg, server := next, accepted := true)
  {
    assert s.c2s[n..] == "" && s.msgs[1..] == [] && "" + msg == msg;
  }

  lemma MagicServed(cfg: Config, s: Session, at: nat, ch: Chance)
    requires |cfg.magic| == DIGEST && s.server.WantMagic? && s.c2s == cfg.magic && s.msgs == [cfg.magic]
    requires s.up && s.s2c == "" && s.reply == "" && ch.writes
    ensures ServerStep(cfg, s, at, ch)
         == Some(Served(s.(c2s := "", msgs := [], s2c := OK, reply := OK, server := WantUser), None))
  {
    AnswerWell(s, OK, ch, WantUser, DIGEST);
    assert s.c2s[..DIGEST] == cfg.magic;
    hide Answer, Drop;
  }

  lemma UserServed(cfg: Config, c: Client, s: Session, at: nat, ch: Chance, reply: string)
    requires |c.login| == 4 && s.server.WantUser? && s.c2s == UserLine(c) && s.msgs == [UserLine(c)]
    requires s.up && s.s2c == "" && s.reply == "" && ch.writes
    requires UserReply(EnvAt(cfg, ch), UserOfClient(c)) == (reply, true)
    ensures ServerStep(cfg, s, at, ch)
         == Some(Served(s.(c2s := "", msgs := [], s2c := reply, reply := reply, server := WantPass(UserOfClient(c))),
             None))
  {
    UserLineIs(c);
    AnswerWell(s, reply, ch, WantPass(UserOfClient(c)), 10);
    assert s.c2s[..10] == UserLine(c);
    hide Answer, Drop, UserReply, UserOf, UserLine, EnvAt;
  }

  lemma PassServed(cfg: Config, c: Client, s: Session, user: string, at: nat, ch: Chance)
    requires |c.digest| == DIGEST && s.server == WantPass(user) && s.c2s == PassLine(c) && s.msgs == [PassLine(c)]
    requires user in cfg.accounts && cfg.accounts[user].digest == c.digest
    requires s.up && s.s2c == "" && s.reply == "" && ch.writes && ch.ready
    ensures ServerStep(cfg, s, at, ch)
         == Some(Served(s.(c2s := "", msgs := [], s2c := OK, reply := OK, server := Talking(user, Command("")),
             accepted := true), None))
  {
    PassLineIs(c);
    AnswerWell(s, OK, ch, Talking(user, Command("")), 25);
    assert s.c2s[..25] == PassLine(c) && s.c2s[5..25] == c.digest;
    hide Answer, Drop, PassLine;
  }

  /** The reply to an entitled user inside its window reads as consent. */
  lemma UserWelcome(cfg: Config, user: string)
    requires Sound(cfg) && user in cfg.accounts && user != "" && cfg.accounts[user].disabled != 1
    ensures var (reply, goOn) := UserReply(EnvAt(cfg, InTime(cfg.accounts[user])), user);
            goOn && HeardRightly(WaitUser, reply) && reply != "" && WholeLine(reply) && |reply| < MAXLINE
  {
    var a := cfg.accounts[user];
    AccountTimes(cfg, user);
    WelcomeIs(cfg, user);
    hide Sound, ClockText, UserReply, EnvAt, InTime, WholeLine, HeardRightly;
    UserReplyIs(cfg, InTime(a), user);
    WelcomeIsHeard(a.startText, a.endText);
  }

  lemma AccountTimes(cfg: Config, user: string)
    requires Sound(cfg) && user in cfg.accounts
    ensures ClockText(cfg.accounts[user].startText) && ClockText(cfg.accounts[user].endText)
    ensures cfg.accounts[user].startText != ""
  {
    hide WholeLine, FormFiles;
    assert ClockText(cfg.accounts[user].startText);
    if cfg.accounts[user].startText == "" { NoEmptyLine(""); }
  }

  lemma NoEmptyLine(s: string)
    requires WholeLine(s)
    ensures s != ""
  {
  }

  function Welcome(start: string, end: string): string
    requires start != ""
  {
    "500 " + start[..|start| - 1] + " - " + end
  }

  lemma WelcomeIs(cfg: Config, user: string)
    requires user in cfg.accounts && user != "" && cfg.accounts[user].disabled != 1
        && cfg.accounts[user].startText != ""
    ensures UserReply(EnvAt(cfg, InTime(cfg.accounts[user])), user)
         == (Welcome(cfg.accounts[user].startText, cfg.accounts[user].endText), true)
  {
  }

  lemma WelcomeIsHeard(start: string, end: string)
    requires ClockText(start) && ClockText(end) && start != ""
    ensures HeardRightly(WaitUser, Welcome(start, end))
  {
    var reply := Welcome(start, end);
    var rest := " " + start[..|start| - 1] + " - " + end;
    assert reply == "500" + rest && rest[0] == ' ' && |reply| >= 4;
    CleanReply(start, end, rest);
    hide ClockText, Strtol, CStr, DecimalValue;
    CStrExact(reply, "");
    assert reply + "" == reply;
    StrtolOfDigits("500", rest);
    ThreeDigits('5', '0', '0');
  }

  lemma CleanReply(start: string, end: string, rest: string)
    requires ClockText(start) && ClockText(end) && rest == " " + start[..|start| - 1] + " - " + end
    ensures NulFree("500" + rest)
  {
    assert NUL !in start[..|start| - 1];
  }

  lemma OkHeard()
    ensures HeardRightly(WaitMagic, OK) && HeardRightly(WaitPass, OK)
    ensures WholeLine(OK) && OK != "" && |OK| == 4
  {
    OkIsLine();
    assert OK == "500" + "\n";
    CStrExact(OK, "");
    assert OK + "" == OK;
    StrtolOfDigits("500", "\n");
    ThreeDigits('5', '0', '0');
  }

  /** The session right after the handshake. */
  function Admitted0(p: nat, todo: set<string>, user: string): Session {
    Quiet(p, Start, todo, Talking(user, Command(""))).(accepted := true)
  }

  /** An entitled client gets through the handshake. */
  lemma HandshakeRuns(cfg: Config, w: World, i: nat, p: nat, todo: set<string>, sent: set<(nat, string)>,
                      log: seq<Entry>)
    requires Sound(cfg) && p < |cfg.clients| && |cfg.clients[p].login| == 4 && |cfg.clients[p].digest| == DIGEST
    requires Entitled(cfg, cfg.clients[p]) && Ready(w, i, p)
    ensures Leads(cfg, With(w, i, Connected(p, todo), sent, log),
                  With(w, i, Admitted0(p, todo, UserOfClient(cfg.clients[p])), sent, log))
  {
    var c := cfg.clients[p];
    var user := UserOfClient(c);
    var a := cfg.accounts[user];
    var (reply, goOn) := UserReply(EnvAt(cfg, InTime(a)), user);
    MagicLength(cfg);
    UserWelcome(cfg, user);
    OkHeard();
    hide Sound, UserReply, EnvAt, HeardRightly, WholeLine, UserLine, PassLine, UserOf, UserOfClient, Leads, ClientStep,
      ServerStep, With;
    var s0, s1, s2 := Connected(p, todo), Quiet(p, SendUser, todo, WantUser), Quiet(p, SendPass, todo, WantPass(user));
    AskMove(cfg, s0, sent);
    MagicServed(cfg, s0.(pc := WaitMagic, c2s := cfg.magic, msgs := [cfg.magic]), |log|, SERVING_WELL);
    Exchange(cfg, w, i, s0, cfg.magic, OK, WaitMagic, SendUser, WantUser, false, sent, log, SERVING_WELL);
    AskMove(cfg, s1, sent);
    UserServed(cfg, c, s1.(pc := WaitUser, c2s := UserLine(c), msgs := [UserLine(c)]), |log|, InTime(a), reply);
    Exchange(cfg, w, i, s1, UserLine(c), reply, WaitUser, SendPass, WantPass(user), false, sent, log, InTime(a));
    AskMove(cfg, s2, sent);
    PassServed(cfg, c, s2.(pc := WaitPass, c2s := PassLine(c), msgs := [PassLine(c)]), user, |log|, SERVING_WELL);
    Exchange(cfg, w, i, s2, PassLine(c), OK, WaitPass, Start, Talking(user, Command("")), true, sent, log,
        SERVING_WELL);
    var s3 := Admitted0(p, todo, user);
    LeadsOn(cfg, With(w, i, s0, sent, log), With(w, i, s1, sent, log), With(w, i, s2, sent, log));
    LeadsOn(cfg, With(w, i, s0, sent, log), With(w, i, s2, sent, log), With(w, i, s3, sent, log));
  }

  // ---------------------------------------------------------------------------------------
  // Going through forms
  // ---------------------------------------------------------------------------------------

  /** A session in the lines with nothing under way: the server took every message. */
  function Talk(p: nat, pc: Pc, todo: set<string>, missed: set<string>, user: string, m: Mode,
                msgs: seq<string>, names: seq<string>, base: nat): Session
  {
    Session(p, pc, todo, missed, false, "", "", true, Talking(user, m), true, msgs, |msgs|, names, base, "", None, true)
  }

  lemma TakesMessageWell(cfg: Config, s: Session, user: string, m: Mode, msg: string, at: nat)
    requires s.server == Talking(user, m) && Listening(m) && Message(msg) && s.c2s == msg && s.up && s.diskOk
    requires !(msg == DOT && m.Body?) && !OnLine(m, msg, GOOD_LUCK).mode.Stopped?
    ensures ServerStep(cfg, s, at, SERVING_WELL)
         == Some(Served(s.(c2s := "", seen := s.seen + 1, base := if m.Command? then s.seen else s.base,
                           server := Talking(user, OnLine(m, msg, GOOD_LUCK).mode)), None))
  {
    hide OnLine, Avail, Message, WholeLine, KeyOf, IsName, NameIn, TakesLine, Listening;
    MessageIs(msg);
    LineOffWire(s.c2s, ClosedToServer(s), Eof, msg);
    TurnIs(m, msg, GOOD_LUCK);
    var d := SomethingTaken(s, user, m, at, SERVING_WELL);
    TakesQuietly(s, user, m, at, SERVING_WELL, d, msg);
    assert s.c2s[|msg|..] == "";
  }

  lemma SomethingTaken(s: Session, user: string, m: Mode, at: nat, ch: Chance) returns (d: Served)
    requires Listening(m) && Avail(s.c2s, ClosedToServer(s), ch.ending, MAXLINE).Some?
    ensures TakesLine(s, user, m, at, ch) == Some(d)
  {
    d := TakesLine(s, user, m, at, ch).value;
    hide OnLine, Avail, EntryOf, Answer, Heard, ThreadOf;
  }

  lemma TakesDotWell(cfg: Config, s: Session, user: string, name: string, text: string, record: string, at: nat)
    requires s.server == Talking(user, Body(name, text, record)) && |name| >= 4 && s.c2s == DOT && s.up && s.diskOk
    requires s.s2c == "" && s.reply == ""
    ensures var e := Entry(s.owner, Strtol(user), KeyOf(name), record, text, s.names, true);
            ServerStep(cfg, s, at, SERVING_WELL)
            == Some(Served(s.(c2s := "", seen := s.seen + 1, stored := Some(at), s2c := OK, reply := OK,
                              server := Talking(user, Command(name))), Some(e)))
  {
    DotIsMessage();
    MessageIs(DOT);
    LineOffWire(s.c2s, ClosedToServer(s), Eof, DOT);
    TurnIs(Body(name, text, record), DOT, GOOD_LUCK);
    hide OnLine, Avail, Message, WholeLine, KeyOf, IsName, NameIn, Strtol;
    assert s.c2s[|DOT|..] == "" && "" + OK == OK;
  }

  /** A message of the client taken by the server, without a reply. */
  lemma SayMove(cfg: Config, w: World, i: nat, s: Session, pc: Pc, todo: set<string>, names: seq<string>,
                user: string, m: Mode,
                msg: string, sent: set<(nat, string)>, log: seq<Entry>, ch: Choice, t: Session)
    requires s.owner < |cfg.clients| && Ready(w, i, s.owner) && s.up && s.c2s == "" && s.seen == |s.msgs| && s.diskOk
    requires s.server == Talking(user, m) && Listening(m) && Message(msg) && !s.pc.Named?
    requires !(msg == DOT && m.Body?) && !OnLine(m, msg, GOOD_LUCK).mode.Stopped?
    requires ClientStep(cfg, s, "", sent, ch)
          == Some(Acted(s.(pc := pc, todo := todo, names := names, c2s := msg, msgs := s.msgs + [msg]), "", {}))
    requires t == s.(pc := pc, todo := todo, names := names, msgs := s.msgs + [msg], seen := s.seen + 1,
                     base := if m.Command? then s.seen else s.base,
                     server := Talking(user, OnLine(m, msg, GOOD_LUCK).mode))
    ensures Leads(cfg, With(w, i, s, sent, log), With(w, i, t, sent, log))
  {
    hide ClientStep, ServerStep, OnLine, Message, Leads, With, Listening;
    var s1 := s.(pc := pc, todo := todo, names := names, c2s := msg, msgs := s.msgs + [msg]);
    TakesMessageWell(cfg, s1, user, m, msg, |log|);
    SilentMove(cfg, w, i, s, sent, log, ch, s1);
    ServerMove(cfg, w, i, s1, sent, log, SERVING_WELL, Served(t, None));
    SameLog(log);
    LeadsOn(cfg, With(w, i, s, sent, log), With(w, i, s1, sent, log), With(w, i, t, sent, log));
  }

  /** A body under way: what was in it when its form began, and so many lines of the form. */
  datatype Open = Open(name: string, text: string, record: string, msgs: seq<string>, names: seq<string>, base: nat)

  function Halfway(p: nat, n: string, lines: seq<string>, k: nat, todo: set<string>, missed: set<string>,
                   user: string, o: Open): Session
    requires k <= |lines|
  {
    Talk(p, Sending(n, k), todo, missed, user,
         Body(o.name, o.text + Flatten(lines[..k]), o.record + Pack(lines[..k])), o.msgs + lines[..k], o.names, o.base)
  }

  /** The lines of a form go into the open body one by one. */
  lemma {:induction false} LinesRun(cfg: Config, w: World, p: nat, i: nat, n: string, lines: seq<string>, k: nat,
                                    todo: set<string>,
                                    missed: set<string>, user: string, o: Open, sent: set<(nat, string)>,
                                        log: seq<Entry>)
    requires p < |cfg.clients| && Ready(w, i, p) && FormFiles(cfg.clients[p].forms) && n in cfg.clients[p].forms
    requires lines == cfg.clients[p].forms[n] && k <= |lines|
    requires |o.name| >= 4 && |o.record| + |Pack(lines)| <= MAXINFOSIZE
    ensures Leads(cfg, With(w, i, Halfway(p, n, lines, k, todo, missed, user, o), sent, log),
                  With(w, i, Halfway(p, n, lines, |lines|, todo, missed, user, o), sent, log))
    decreases |lines| - k
  {
    hide Leads, With, ClientStep, FormFiles, Halfway;
    if k == |lines| {
      LeadsNowhere(cfg, With(w, i, Halfway(p, n, lines, k, todo, missed, user, o), sent, log));
    } else {
      LineRuns(cfg, w, p, i, n, lines, k, todo, missed, user, o, sent, log);
      LinesRun(cfg, w, p, i, n, lines, k + 1, todo, missed, user, o, sent, log);
      LeadsOn(cfg, With(w, i, Halfway(p, n, lines, k, todo, missed, user, o), sent, log),
              With(w, i, Halfway(p, n, lines, k + 1, todo, missed, user, o), sent, log),
              With(w, i, Halfway(p, n, lines, |lines|, todo, missed, user, o), sent, log));
    }
  }

  lemma LineRuns(cfg: Config, w: World, p: nat, i: nat, n: string, lines: seq<string>, k: nat, todo: set<string>,
                 missed: set<string>, user: string, o: Open, sent: set<(nat, string)>, log: seq<Entry>)
    requires p < |cfg.clients| && Ready(w, i, p) && FormFiles(cfg.clients[p].forms) && n in cfg.clients[p].forms
    requires lines == cfg.clients[p].forms[n] && k < |lines|
    requires |o.name| >= 4 && |o.record| + |Pack(lines)| <= MAXINFOSIZE
    ensures Leads(cfg, With(w, i, Halfway(p, n, lines, k, todo, missed, user, o), sent, log),
                  With(w, i, Halfway(p, n, lines, k + 1, todo, missed, user, o), sent, log))
  {
    hide Leads, With, ClientStep, Message, PlainLine, FormFiles, Flatten, Pack, OnLine;
    var s := Halfway(p, n, lines, k, todo, missed, user, o);
    LineIsMessage(cfg.clients[p], n, k);
    FormLinePlain(cfg.clients[p], n, k);
    LineGoesIn(o.name, o.text, o.record, lines, k);
    LinesSnoc(o.msgs, lines, k);
    SendLine(cfg, p, s, n, k, sent);
    SayMove(cfg, w, i, s, Sending(n, k + 1), todo, o.names, user, s.server.mode, lines[k], sent, log, GOING_WELL,
            Halfway(p, n, lines, k + 1, todo, missed, user, o));
  }

  lemma LineGoesIn(open: string, text: string, record: string, lines: seq<string>, k: nat)
    requires k < |lines| && PlainLine(lines[k]) && |open| >= 4 && |record| + |Pack(lines)| <= MAXINFOSIZE
    ensures OnLine(Body(open, text + Flatten(lines[..k]), record + Pack(lines[..k])), lines[k], GOOD_LUCK).mode
         == Body(open, text + Flatten(lines[..k + 1]), record + Pack(lines[..k + 1]))
    ensures lines[k] != DOT
  {
    var line, t, r := lines[k], Flatten(lines[..k]), Pack(lines[..k]);
    PackMonotone(lines, k);
    assert lines[..k + 1] == lines[..k] + [line];
    FlattenSnoc(lines[..k], line);
    PackSnoc(lines[..k], line);
    hide Flatten, Pack, OnBody;
    BodyTakesLine(open, text + t, record + r, line, GOOD_LUCK);
    Regroup(text, t, line);
    Regroup(record, r, line + [NUL]);
  }

  lemma SendLine(cfg: Config, p: nat, s: Session, n: string, k: nat, sent: set<(nat, string)>)
    requires p < |cfg.clients| && s.owner == p && n in cfg.clients[p].forms && k < |cfg.clients[p].forms[n]|
    requires s.pc == Sending(n, k) && !s.cancelled && Live(s) && s.c2s == ""
    ensures var line := cfg.clients[p].forms[n][k];
            ClientStep(cfg, s, "", sent, GOING_WELL)
            == Some(Acted(s.(pc := Sending(n, k + 1), c2s := line, msgs := s.msgs + [line]), "", {}))
  {
    var line := cfg.clients[p].forms[n][k];
    assert "" + line == line;
  }

  /** The session after its dot was taken and acknowledged. */
  function AfterAck(s: Session, n: string, user: string, open: string, at: nat): Session {
    s.(pc := WaitAck(n), msgs := s.msgs + [DOT], seen := s.seen + 1, stored := Some(at), s2c := OK, reply := OK,
       server := Talking(user, Command(open)))
  }

  lemma DotServed(cfg: Config, s: Session, n: string, user: string, open: string, text: string, record: string, at: nat)
    requires s.server == Talking(user, Body(open, text, record)) && |open| >= 4
    requires s.c2s == "" && s.s2c == "" && s.reply == "" && s.up && s.diskOk
    ensures var e := Entry(s.owner, Strtol(user), KeyOf(open), record, text, s.names, true);
            ServerStep(cfg, s.(pc := WaitAck(n), c2s := DOT, msgs := s.msgs + [DOT]), at, SERVING_WELL)
            == Some(Served(AfterAck(s, n, user, open, at), Some(e)))
    ensures AfterAck(s, n, user, open, at).owner == s.owner
  {
    var s1 := s.(pc := WaitAck(n), c2s := DOT, msgs := s.msgs + [DOT]);
    TakesDotWell(cfg, s1, user, open, text, record, at);
    hide ServerStep, Strtol, KeyOf;
    assert AfterAck(s, n, user, open, at)
        == s1.(c2s := "", seen := s1.seen + 1, stored := Some(at), s2c := OK, reply := OK,
               server := Talking(user, Command(open)));
  }

  lemma DotTaken(cfg: Config, w: World, i: nat, s: Session, n: string, user: string, open: string, text: string,
                 record: string,
                 sent: set<(nat, string)>, log: seq<Entry>)
    requires s.owner < |cfg.clients| && Ready(w, i, s.owner) && n in cfg.clients[s.owner].forms && |open| >= 4
    requires s.pc == Sending(n, |cfg.clients[s.owner].forms[n]|) && s.c2s == "" && s.s2c == "" && s.reply == ""
        && s.up && s.diskOk
    requires s.server == Talking(user, Body(open, text, record))
    ensures var e := Entry(s.owner, Strtol(user), KeyOf(open), record, text, s.names, true);
            Leads(cfg, With(w, i, s, sent, log), With(w, i, AfterAck(s, n, user, open, |log|), sent, log + [e]))
  {
    var e := Entry(s.owner, Strtol(user), KeyOf(open), record, text, s.names, true);
    var s1, s2 := s.(pc := WaitAck(n), c2s := DOT, msgs := s.msgs + [DOT]), AfterAck(s, n, user, open, |log|);
    hide AfterAck;
    SendDot(cfg, s, n, sent);
    DotServed(cfg, s, n, user, open, text, record, |log|);
    hide Leads, With, Strtol, KeyOf, ClientStep, ServerStep;
    SilentMove(cfg, w, i, s, sent, log, GOING_WELL, s1);
    ServerMove(cfg, w, i, s1, sent, log, SERVING_WELL, Served(s2, Some(e)));
    LeadsOn(cfg, With(w, i, s, sent, log), With(w, i, s1, sent, log), With(w, i, s2, sent, log + [e]));
  }

  lemma AckTaken(cfg: Config, w: World, i: nat, s: Session, n: string, sent: set<(nat, string)>, log: seq<Entry>)
    requires s.owner < |cfg.clients| && Ready(w, i, s.owner)
    requires s.pc == WaitAck(n) && Live(s) && s.s2c == OK && s.reply == OK
    ensures Leads(cfg, With(w, i, s, sent, log), With(w, i, Over(s.(s2c := "", reply := "")), sent + {(s.owner, n)},
        log))
  {
    var s1, s2 := s.(s2c := "", reply := "", pc := Marking(n)), Over(s.(s2c := "", reply := ""));
    assert Over(s1) == s2 && s2.owner == s.owner;
    TakesAck(cfg, s, n, sent);
    Marks(cfg, s1, n, sent);
    hide Leads, With, ClientStep, ServerStep, Over;
    SilentMove(cfg, w, i, s, sent, log, GOING_WELL, s1);
    ClientMove(cfg, w, i, s1, sent, log, GOING_WELL, Acted(s2, "", {n}), sent + {(s.owner, n)});
    LeadsOn(cfg, With(w, i, s, sent, log), With(w, i, s1, sent, log), With(w, i, s2, sent + {(s.owner, n)}, log));
  }

  /** The dot, the put, the acknowledgement and the mark. */
  lemma DotRun(cfg: Config, w: World, p: nat, i: nat, n: string, todo: set<string>, missed: set<string>, user: string,
               open: string, text: string, record: string, msgs: seq<string>, names: seq<string>, base: nat,
               sent: set<(nat, string)>, log: seq<Entry>)
    requires p < |cfg.clients| && Ready(w, i, p) && n in cfg.clients[p].forms && |open| >= 4
    ensures var e := Entry(p, Strtol(user), KeyOf(open), record, text, names, true);
            Leads(cfg, With(w, i, Talk(p, Sending(n, |cfg.clients[p].forms[n]|), todo, missed, user,
                                       Body(open, text, record), msgs, names, base), sent, log),
                  With(w, i, Talk(p, Scan, todo, missed, user, Command(open), [], [], base), sent + {(p, n)},
                      log + [e]))
  {
    var e := Entry(p, Strtol(user), KeyOf(open), record, text, names, true);
    var s0 := Talk(p, Sending(n, |cfg.clients[p].forms[n]|), todo, missed, user, Body(open, text, record), msgs,
        names, base);
    var s2 := AfterAck(s0, n, user, open, |log|);
    var s4 := Talk(p, Scan, todo, missed, user, Command(open), [], [], base);
    hide Leads, With, Strtol, KeyOf;
    DotTaken(cfg, w, i, s0, n, user, open, text, record, sent, log);
    AckTaken(cfg, w, i, s2, n, sent, log + [e]);
    assert Over(s2.(s2c := "", reply := "")) == s4;
    hide Talk, AfterAck;
    LeadsOn(cfg, With(w, i, s0, sent, log), With(w, i, s2, sent, log + [e]), With(w, i, s4, sent + {(p, n)},
        log + [e]));
  }

  lemma SendDot(cfg: Config, s: Session, n: string, sent: set<(nat, string)>)
    requires s.owner < |cfg.clients| && n in cfg.clients[s.owner].forms && s.c2s == "" && Live(s)
    requires s.pc == Sending(n, |cfg.clients[s.owner].forms[n]|)
    ensures ClientStep(cfg, s, "", sent, GOING_WELL)
         == Some(Acted(s.(pc := WaitAck(n), c2s := DOT, msgs := s.msgs + [DOT]), "", {}))
  {
    assert "" + DOT == DOT;
  }

  lemma TakesAck(cfg: Config, s: Session, n: string, sent: set<(nat, string)>)
    requires s.owner < |cfg.clients| && s.pc == WaitAck(n) && Live(s) && s.s2c == OK && s.reply == OK
    ensures ClientStep(cfg, s, "", sent, GOING_WELL) == Some(Acted(s.(s2c := "", reply := "", pc := Marking(n)), "",
        {}))
  {
    OkIsLine();
    ReceiveIs(s, GOING_WELL, 20);
    OkIsWhole(OK);
    hide WholeLine, Receive, Returned, StartsWith;
  }

  lemma Marks(cfg: Config, s: Session, n: string, sent: set<(nat, string)>)
    requires s.owner < |cfg.clients| && s.pc == Marking(n)
    ensures ClientStep(cfg, s, "", sent, GOING_WELL) == Some(Acted(Over(s), "", {n}))
  {
  }

  /** A form is announced, and the server takes its name. */
  lemma NameRun(cfg: Config, w: World, p: nat, i: nat, n: string, todo: set<string>, missed: set<string>,
                user: string, m: Mode,
                msgs: seq<string>, names: seq<string>, base: nat, sent: set<(nat, string)>, log: seq<Entry>)
    requires p < |cfg.clients| && Ready(w, i, p) && n in todo && (p, n) !in sent && GoodName(n)
    requires Listening(m) && !OnLine(m, NameLine(n), GOOD_LUCK).mode.Stopped?
    ensures Leads(cfg, With(w, i, Talk(p, Scan, todo, missed, user, m, msgs, names, base), sent, log),
                  With(w, i, Talk(p, Named(n), todo - {n}, missed, user, OnLine(m, NameLine(n), GOOD_LUCK).mode,
                                  msgs + [NameLine(n)], names + [n], if m.Command? then |msgs| else base), sent, log))
  {
    var s := Talk(p, Scan, todo, missed, user, m, msgs, names, base);
    hide Leads, With, OnLine, Listening, ClientStep;
    NameLineName(n);
    NameMessage(n);
    hide NameLine, IsName, Message;
    Announcing(cfg, s, n, sent);
    SayMove(cfg, w, i, s, Named(n), todo - {n}, names + [n], user, m, NameLine(n), sent, log, GOING_WELL.(name := n),
            Talk(p, Named(n), todo - {n}, missed, user, OnLine(m, NameLine(n), GOOD_LUCK).mode,
                 msgs + [NameLine(n)], names + [n], if m.Command? then |msgs| else base));
  }

  /** Between forms an announced name opens its body. */
  lemma OpenRun(cfg: Config, w: World, p: nat, i: nat, n: string, todo: set<string>, user: string, prev: string,
                base: nat,
                sent: set<(nat, string)>, log: seq<Entry>)
    requires p < |cfg.clients| && Ready(w, i, p) && n in todo && (p, n) !in sent && GoodName(n) && |n| >= 4
    ensures Leads(cfg, With(w, i, Between(p, todo, {}, user, prev, base), sent, log),
                  With(w, i, Talk(p, Named(n), todo - {n}, {}, user, Body(n, "", ""), [NameLine(n)], [n], 0), sent,
                      log))
  {
    CommandOpens(prev, n, GOOD_LUCK);
    hide Leads, With, OnCommand, NameLine, GoodName, Talk;
    assert [] + [NameLine(n)] == [NameLine(n)] && [] + [n] == [n];
    assert OnLine(Command(prev), NameLine(n), GOOD_LUCK).mode == Body(n, "", "");
    NameRun(cfg, w, p, i, n, todo, {}, user, Command(prev), [], [], base, sent, log);
  }

  lemma NameMessage(n: string)
    requires IsName(NameLine(n))
    ensures Message(NameLine(n))
  {
  }

  lemma Announcing(cfg: Config, s: Session, n: string, sent: set<(nat, string)>)
    requires s.owner < |cfg.clients| && s.pc.Scan? && n in s.todo && (s.owner, n) !in sent && Live(s) && s.c2s == ""
    ensures ClientStep(cfg, s, "", sent, GOING_WELL.(name := n))
         == Some(Acted(s.(pc := Named(n), todo := s.todo - {n}, names := s.names + [n],
                          c2s := NameLine(n), msgs := s.msgs + [NameLine(n)]), "", {}))
  {
    assert "" + NameLine(n) == NameLine(n);
    hide NameLine;
  }

  /** Between forms: the whole state but for what differs from form to form. */
  function Between(p: nat, todo: set<string>, missed: set<string>, user: string, prev: string, base: nat): Session {
    Talk(p, Scan, todo, missed, user, Command(prev), [], [], base)
  }

  /** The step that reopens the form, or does not. */
  lemma ReopenMove(cfg: Config, w: World, i: nat, s: Session, n: string, works: bool, sent: set<(nat, string)>,
                   log: seq<Entry>)
    requires s.owner < |cfg.clients| && Ready(w, i, s.owner) && s.pc == Named(n) && !s.cancelled
    ensures var t := if works then s.(pc := Sending(n, 0)) else s.(pc := Scan, missed := s.missed + {n});
            && Reaches(cfg, With(w, i, s, sent, log), With(w, i, t, sent, log))
            && (works ==> Leads(cfg, With(w, i, s, sent, log), With(w, i, t, sent, log)))
  {
    var ch := GOING_WELL.(works := works);
    var t := if works then s.(pc := Sending(n, 0)) else s.(pc := Scan, missed := s.missed + {n});
    assert ClientStep(cfg, s, "", sent, ch) == Some(Acted(t, "", {}));
    hide ClientStep, Leads, With, Reaches;
    SilentMove(cfg, w, i, s, sent, log, ch, t);
  }

  /** One form that is announced, reopened and sent, whatever body its name falls into. */
  lemma SentRun(cfg: Config, w: World, p: nat, i: nat, n: string, todo: set<string>, missed: set<string>, user: string,
                o: Open, sent: set<(nat, string)>, log: seq<Entry>)
    requires p < |cfg.clients| && Ready(w, i, p) && FormFiles(cfg.clients[p].forms) && n in cfg.clients[p].forms
    requires |o.name| >= 4 && |o.record| + |Pack(cfg.clients[p].forms[n])| <= MAXINFOSIZE
    ensures var lines := cfg.clients[p].forms[n];
            var e := Entry(p, Strtol(user), KeyOf(o.name), o.record + Pack(lines), o.text + Flatten(lines), o.names,
                true);
            Leads(cfg, With(w, i, Talk(p, Named(n), todo, missed, user, Body(o.name, o.text, o.record), o.msgs,
                o.names, o.base), sent, log),
                  With(w, i, Between(p, todo, missed, user, o.name, o.base), sent + {(p, n)}, log + [e]))
  {
    var lines := cfg.clients[p].forms[n];
    var s := Talk(p, Named(n), todo, missed, user, Body(o.name, o.text, o.record), o.msgs, o.names, o.base);
    var s1, s2 := Halfway(p, n, lines, 0, todo, missed, user, o), Halfway(p, n, lines, |lines|, todo, missed, user, o);
    var s3 := Between(p, todo, missed, user, o.name, o.base);
    var e := Entry(p, Strtol(user), KeyOf(o.name), o.record + Pack(lines), o.text + Flatten(lines), o.names, true);
    HalfwayEnds(p, n, lines, todo, missed, user, o);
    hide Leads, With, FormFiles, Strtol, KeyOf, Flatten, Pack, Halfway;
    ReopenMove(cfg, w, i, s, n, true, sent, log);
    LinesRun(cfg, w, p, i, n, lines, 0, todo, missed, user, o, sent, log);
    DotRun(cfg, w, p, i, n, todo, missed, user, o.name, o.text + Flatten(lines), o.record + Pack(lines), o.msgs + lines,
           o.names, o.base, sent, log);
    hide Talk;
    LeadsOn(cfg, With(w, i, s, sent, log), With(w, i, s1, sent, log), With(w, i, s2, sent, log));
    LeadsOn(cfg, With(w, i, s, sent, log), With(w, i, s2, sent, log), With(w, i, s3, sent + {(p, n)}, log + [e]));
  }

  lemma HalfwayEnds(p: nat, n: string, lines: seq<string>, todo: set<string>, missed: set<string>, user: string,
                    o: Open)
    ensures Halfway(p, n, lines, 0, todo, missed, user, o)
         == Talk(p, Named(n), todo, missed, user, Body(o.name, o.text, o.record), o.msgs, o.names,
             o.base).(pc := Sending(n, 0))
    ensures Halfway(p, n, lines, |lines|, todo, missed, user, o)
         == Talk(p, Sending(n, |lines|), todo, missed, user, Body(o.name, o.text + Flatten(lines),
             o.record + Pack(lines)),
                 o.msgs + lines, o.names, o.base)
  {
    assert lines[..0] == [] && lines[..|lines|] == lines && o.msgs + [] == o.msgs;
    assert o.text + "" == o.text && o.record + "" == o.record;
    assert Flatten([]) == "" && Pack([]) == "";
    hide Flatten, Pack;
  }

  /** One form of a session without faults: put under its own key and marked sent. */
  lemma FormRun(cfg: Config, w: World, p: nat, i: nat, n: string, todo: set<string>, user: string, prev: string,
                base: nat,
                sent: set<(nat, string)>, log: seq<Entry>)
    requires p < |cfg.clients| && Ready(w, i, p) && FormFiles(cfg.clients[p].forms) && n in cfg.clients[p].forms
    requires n in todo && (p, n) !in sent && |n| >= 4
    ensures var lines := cfg.clients[p].forms[n];
            var e := Entry(p, Strtol(user), KeyOf(n), Pack(lines), Flatten(lines), [n], true);
            Leads(cfg, With(w, i, Between(p, todo, {}, user, prev, base), sent, log),
                  With(w, i, Between(p, todo - {n}, {}, user, n, 0), sent + {(p, n)}, log + [e]))
  {
    var lines := cfg.clients[p].forms[n];
    var o := Open(n, "", "", [NameLine(n)], [n], 0);
    var s := Between(p, todo, {}, user, prev, base);
    var s1 := Talk(p, Named(n), todo - {n}, {}, user, Body(n, "", ""), o.msgs, o.names, o.base);
    hide Leads, With, FormFiles, Strtol, KeyOf, Flatten, Pack, NameLine, GoodName, Sendable, Talk, Between;
    FileFacts(cfg.clients[p], n);
    OpenRun(cfg, w, p, i, n, todo, user, prev, base, sent, log);
    SentRun(cfg, w, p, i, n, todo - {n}, {}, user, o, sent, log);
    assert "" + Pack(lines) == Pack(lines) && "" + Flatten(lines) == Flatten(lines);
    var e := Entry(p, Strtol(user), KeyOf(n), Pack(lines), Flatten(lines), [n], true);
    LeadsOn(cfg, With(w, i, s, sent, log), With(w, i, s1, sent, log),
            With(w, i, Between(p, todo - {n}, {}, user, n, 0), sent + {(p, n)}, log + [e]));
  }

  lemma FileFacts(c: Client, n: string)
    requires FormFiles(c.forms) && n in c.forms
    ensures GoodName(n) && |n| >= 4 && |Pack(c.forms[n])| <= MAXINFOSIZE
  {
    hide Pack, PlainLine;
  }

  /** A form already sent is passed over. */
  lemma SkipRun(cfg: Config, w: World, p: nat, i: nat, n: string, todo: set<string>, user: string, prev: string,
                base: nat,
                sent: set<(nat, string)>, log: seq<Entry>)
    requires p < |cfg.clients| && Ready(w, i, p) && n in todo && (p, n) in sent
    ensures Leads(cfg, With(w, i, Between(p, todo, {}, user, prev, base), sent, log),
                  With(w, i, Between(p, todo - {n}, {}, user, prev, base), sent, log))
  {
    var ch := GOING_WELL.(name := n);
    var s, t := Between(p, todo, {}, user, prev, base), Between(p, todo - {n}, {}, user, prev, base);
    assert ClientStep(cfg, s, "", sent, ch) == Some(Acted(t, "", {}));
    hide ClientStep, Leads, With;
    SilentMove(cfg, w, i, s, sent, log, ch, t);
  }

  /** The rest of the directory, form by form. */
  lemma {:induction false} DirectoryRuns(cfg: Config, w: World, p: nat, i: nat, todo: set<string>, user: string,
      prev: string,
                                         base: nat, sent: set<(nat, string)>, log: seq<Entry>)
    returns (last: string, base': nat, sent': set<(nat, string)>, log': seq<Entry>)
    requires p < |cfg.clients| && Ready(w, i, p) && FormFiles(cfg.clients[p].forms) && todo <= cfg.clients[p].forms.Keys
    ensures Leads(cfg, With(w, i, Between(p, todo, {}, user, prev, base), sent, log),
                  With(w, i, Between(p, {}, {}, user, last, base'), sent', log'))
    decreases |todo|
  {
    hide Leads, With, FormFiles, Between, Strtol;
    last, base', sent', log' := prev, base, sent, log;
    if todo == {} {
      LeadsNowhere(cfg, With(w, i, Between(p, todo, {}, user, prev, base), sent, log));
    } else {
      var n :| n in todo;
      FileFacts(cfg.clients[p], n);
      FewerLeft(todo, n);
      var prev1, base1, sent1, log1 := prev, base, sent, log;
      if (p, n) in sent {
        SkipRun(cfg, w, p, i, n, todo, user, prev, base, sent, log);
      } else {
        var lines := cfg.clients[p].forms[n];
        FormRun(cfg, w, p, i, n, todo, user, prev, base, sent, log);
        prev1, base1, sent1 := n, 0, sent + {(p, n)};
        log1 := log + [Entry(p, Strtol(user), KeyOf(n), Pack(lines), Flatten(lines), [n], true)];
      }
      last, base', sent', log' := DirectoryRuns(cfg, w, p, i, todo - {n}, user, prev1, base1, sent1, log1);
      LeadsOn(cfg, With(w, i, Between(p, todo, {}, user, prev, base), sent, log),
              With(w, i, Between(p, todo - {n}, {}, user, prev1, base1), sent1, log1),
              With(w, i, Between(p, {}, {}, user, last, base'), sent', log'));
    }
  }

  lemma FewerLeft(todo: set<string>, n: string)
    requires n in todo
    ensures |todo - {n}| < |todo|
  {
  }

  lemma QuitRun(cfg: Config, w: World, i: nat, s: Session, sent: set<(nat, string)>,
                log: seq<Entry>) returns (t: Session)
    requires s.owner < |cfg.clients| && Ready(w, i, s.owner) && s.pc.Scan? && s.todo == {}
    ensures t.owner == s.owner && t.pc.Closed? && t.todo == {} && t.missed == s.missed
    ensures Leads(cfg, With(w, i, s, sent, log), With(w, i, t, sent, log))
  {
    var s1 := s.(pc := Quitting);
    t := Wrote(s1, QUIT, GOING_WELL).(pc := Closed);
    assert ClientStep(cfg, s, "", sent, GOING_WELL) == Some(Acted(s1, "", {}));
    assert ClientStep(cfg, s1, "", sent, GOING_WELL) == Some(Acted(t, "", {}));
    WroteParts(s1, QUIT, GOING_WELL);
    hide ClientStep, Leads, With, Wrote;
    SilentMove(cfg, w, i, s, sent, log, GOING_WELL, s1);
    SilentMove(cfg, w, i, s1, sent, log, GOING_WELL, t);
    LeadsOn(cfg, With(w, i, s, sent, log), With(w, i, s1, sent, log), With(w, i, t, sent, log));
  }

  lemma ConnectMove(cfg: Config, w: World, p: nat, todo: set<string>, w1: World)
    requires p < |cfg.clients| && Idle(w, p) && todo == cfg.clients[p].forms.Keys && p < |w.bufs| && w.bufs[p] == ""
    requires w1 == w.(sessions := w.sessions + [Connected(p, todo)])
    ensures Ready(w1, |w.sessions|, p) && |w1.sessions| == |w.sessions| + 1
    ensures Leads(cfg, w, With(w1, |w.sessions|, Connected(p, todo), w.sent, w.log))
  {
    hide Connected, Idle;
    assert w1.sessions[|w.sessions| := Connected(p, todo)] == w1.sessions;
    assert w1 == With(w1, |w.sessions|, Connected(p, todo), w.sent, w.log);
    LeadsOnce(cfg, w, Connect(p), w1);
  }

  lemma OpenDirMove(cfg: Config, w: World, i: nat, p: nat, todo: set<string>, user: string, sent: set<(nat, string)>,
                    log: seq<Entry>)
    requires p < |cfg.clients| && Ready(w, i, p)
    ensures Leads(cfg, With(w, i, Admitted0(p, todo, user), sent, log), With(w, i, Between(p, todo, {}, user, "", 0),
        sent, log))
  {
    var s, t := Admitted0(p, todo, user), Between(p, todo, {}, user, "", 0);
    assert ClientStep(cfg, s, "", sent, GOING_WELL) == Some(Acted(t, "", {}));
    hide ClientStep, With, Leads;
    SilentMove(cfg, w, i, s, sent, log, GOING_WELL, t);
  }

  /** Connecting and authenticating, up to the first look into the directory. */
  lemma OpeningRun(cfg: Config, w: World, p: nat) returns (w1: World)
    requires Sound(cfg) && Reachable(cfg, w) && p < |cfg.clients| && |cfg.clients[p].login| == 4
    requires Entitled(cfg, cfg.clients[p]) && Idle(w, p)
    ensures FormFiles(cfg.clients[p].forms) && Ready(w1, |w.sessions|, p) && |w1.sessions| == |w.sessions| + 1
    ensures var c := cfg.clients[p];
            Leads(cfg, w, With(w1, |w.sessions|, Between(p, c.forms.Keys, {}, UserOfClient(c), "", 0), w.sent, w.log))
  {
    hide Sound, Reachable, WorldInv, FormFiles, Entitled, Leads, UserOfClient, With, Between, Admitted0, Connected,
        Idle;
    var c := cfg.clients[p];
    var i, user, todo := |w.sessions|, UserOfClient(c), c.forms.Keys;
    ReachableIs(cfg, w);
    SoundForms(cfg, p);
    SoundDigest(cfg, p);
    HasBuf(cfg, w, p);
    EmptyBuf(cfg, w, p);
    w1 := w.(sessions := w.sessions + [Connected(p, todo)]);
    ConnectMove(cfg, w, p, todo, w1);
    HandshakeRuns(cfg, w1, i, p, todo, w.sent, w.log);
    OpenDirMove(cfg, w1, i, p, todo, user, w.sent, w.log);
    LeadsOn(cfg, w, With(w1, i, Connected(p, todo), w.sent, w.log), With(w1, i, Admitted0(p, todo, user), w.sent,
        w.log));
    LeadsOn(cfg, w, With(w1, i, Admitted0(p, todo, user), w.sent, w.log), With(w1, i, Between(p, todo, {}, user, "",
        0), w.sent, w.log));
  }

  lemma SoundDigest(cfg: Config, p: nat)
    requires Sound(cfg) && p < |cfg.clients|
    ensures |cfg.clients[p].digest| == DIGEST
  {
    hide FormFiles;
    assert GoodClient(cfg.clients[p]);
  }

  /** From every reachable state, whatever went wrong before, an entitled client that is idle can
      run a session to its end, opening every form it announced, and then all its forms are marked
      sent. */
  lemma ASessionCanGoThrough(cfg: Config, w: World, p: nat) returns (w': World)
    requires Sound(cfg) && Reachable(cfg, w) && p < |cfg.clients| && |cfg.clients[p].login| == 4
    requires Entitled(cfg, cfg.clients[p]) && Idle(w, p)
    ensures Leads(cfg, w, w') && Reachable(cfg, w') && |w'.sessions| == |w.sessions| + 1
    ensures var s := w'.sessions[|w.sessions|]; s.owner == p && s.pc.Closed? && s.todo == {} && s.missed == {}
    ensures AllSent(cfg.clients[p], p, w'.sent)
  {
    hide Sound, Reachable, FormFiles, Entitled, Leads, UserOfClient, With, AllSent, Between;
    var c, i := cfg.clients[p], |w.sessions|;
    var user := UserOfClient(c);
    var w1 := OpeningRun(cfg, w, p);
    var last, base, sent, log := DirectoryRuns(cfg, w1, p, i, c.forms.Keys, user, "", 0, w.sent, w.log);
    BetweenIs(p, user, last, base);
    var t := QuitRun(cfg, w1, i, Between(p, {}, {}, user, last, base), sent, log);
    w' := With(w1, i, t, sent, log);
    WithIs(w1, i, t, sent, log);
    LeadsOn(cfg, w, With(w1, i, Between(p, c.forms.Keys, {}, user, "", 0), w.sent, w.log),
            With(w1, i, Between(p, {}, {}, user, last, base), sent, log));
    LeadsOn(cfg, w, With(w1, i, Between(p, {}, {}, user, last, base), sent, log), w');
    LeadsReaches(cfg, w, w');
    LeadsReachably(cfg, w, w');
    ThroughMeansSent(cfg, w', i);
  }

  /** So after every run in which a college's only sender could reopen the forms it announced,
      wherever its sessions broke and whatever befell the others, it can get its database to hold
      exactly its forms. */
  lemma ASessionCanConverge(cfg: Config, es: seq<Event>, w: World, p: nat) returns (es': seq<Event>, w': World)
    requires Sound(cfg) && ReopeningRun(cfg, es, w, p) && SoleSender(cfg, p) && Entitled(cfg, cfg.clients[p])
    requires Idle(w, p)
    ensures es <= es' && ReopeningRun(cfg, es', w', p)
    ensures AllSent(cfg.clients[p], p, w'.sent)
    ensures Mirrors(Db(w'.log, CollegeNumber(cfg.clients[p])), cfg.clients[p].forms)
  {
    hide Sound, Reachable, Entitled, UserOfClient, AllSent, Mirrors, CollegeNumber, WorldInv, AllSingle, Idle, Exec,
      AllReopen, Init, Db;
    ReopeningRunIs(cfg, es, w, p);
    w' := ASessionCanGoThrough(cfg, w, p);
    var more: seq<Event> :| Exec(cfg, w, more) == Some(w') && Untroubled(cfg, w, more);
    es' := es + more;
    ExecAppend(cfg, Init(cfg), es, w, more);
    ReopenAppend(cfg, Init(cfg), es, w, more, p);
    hide ReopeningRun;
    SentMeansConverged(cfg, es', w', p);
  }

  lemma WithIs(w: World, i: nat, s: Session, sent: set<(nat, string)>, log: seq<Entry>)
    requires i < |w.sessions|
    ensures |With(w, i, s, sent, log).sessions| == |w.sessions| && With(w, i, s, sent, log).sessions[i] == s
  {
  }

  lemma BetweenIs(p: nat, user: string, last: string, base: nat)
    ensures var s := Between(p, {}, {}, user, last, base); s.owner == p && s.pc.Scan? && s.todo == {} && s.missed == {}
  {
  }

  // ---------------------------------------------------------------------------------------
  // A form marked sent that no database has
  // ---------------------------------------------------------------------------------------

  /** The name of form `a` goes out, then `a` cannot be reopened: the body stays open under it. */
  lemma FailedRun(cfg: Config, w: World, p: nat, i: nat, a: string, todo: set<string>, user: string,
                  sent: set<(nat, string)>, log: seq<Entry>)
    requires p < |cfg.clients| && Ready(w, i, p) && GoodName(a) && a in todo && (p, a) !in sent
    ensures Reaches(cfg, With(w, i, Between(p, todo, {}, user, "", 0), sent, log),
                    With(w, i, Talk(p, Scan, todo - {a}, {a}, user, Body(a, "", ""), [NameLine(a)], [a], 0), sent, log))
  {
    var s := Between(p, todo, {}, user, "", 0);
    var s1 := Talk(p, Named(a), todo - {a}, {}, user, Body(a, "", ""), [NameLine(a)], [a], 0);
    var s2 := Talk(p, Scan, todo - {a}, {a}, user, Body(a, "", ""), [NameLine(a)], [a], 0);
    LongName(a);
    hide Leads, Reaches, With, NameLine, GoodName;
    OpenRun(cfg, w, p, i, a, todo, user, "", 0, sent, log);
    ReopenMove(cfg, w, i, s1, a, false, sent, log);
    assert s1.(pc := Scan, missed := s1.missed + {a}) == s2;
    hide Talk, Between;
    LeadsReaches(cfg, With(w, i, s, sent, log), With(w, i, s1, sent, log));
    ReachesOn(cfg, With(w, i, s, sent, log), With(w, i, s1, sent, log), With(w, i, s2, sent, log));
  }

  /** The name of form `b` falls into that body as a line. */
  lemma SwallowedRun(cfg: Config, w: World, p: nat, i: nat, a: string, b: string, todo: set<string>, user: string,
                     sent: set<(nat, string)>, log: seq<Entry>)
    requires p < |cfg.clients| && Ready(w, i, p) && GoodName(a) && GoodName(b) && b in todo && (p, b) !in sent
    ensures Leads(cfg, With(w, i, Talk(p, Scan, todo, {a}, user, Body(a, "", ""), [NameLine(a)], [a], 0), sent, log),
                  With(w, i, Talk(p, Named(b), todo - {b}, {a}, user, Body(a, NameLine(b), NameLine(b) + [NUL]),
                                  [NameLine(a), NameLine(b)], [a, b], 0), sent, log))
  {
    hide Leads, With, OnLine, NameLine, GoodName, Talk, Listening;
    NameGoesIn(a, b);
    assert [NameLine(a)] + [NameLine(b)] == [NameLine(a), NameLine(b)] && [a] + [b] == [a, b];
    NameRun(cfg, w, p, i, b, todo, {a}, user, Body(a, "", ""), [NameLine(a)], [a], 0, sent, log);
  }

  lemma NameGoesIn(a: string, b: string)
    requires GoodName(a) && GoodName(b)
    ensures Listening(Body(a, "", ""))
    ensures OnLine(Body(a, "", ""), NameLine(b), GOOD_LUCK).mode == Body(a, NameLine(b), NameLine(b) + [NUL])
    ensures Listening(Body(a, NameLine(b), NameLine(b) + [NUL]))
  {
    LongName(a);
    NameTakes30(b);
    hide OnBody, NameLine, GoodName;
    BodySwallowsName(a, "", "", b, GOOD_LUCK);
    assert "" + NameLine(b) == NameLine(b) && "" + (NameLine(b) + [NUL]) == NameLine(b) + [NUL];
  }

  lemma LongName(a: string)
    requires GoodName(a)
    ensures 4 <= |a| <= NAMEMAX
  {
  }

  /** The end-to-end promise fails when a form cannot be reopened: with any two forms there is a run,
      with every file of the server working and no connection broken, that marks form `b` sent
      although the college's database has no record under its key. What it does have is the text of
      `b`, behind a stray line, under the key of `a`. */
  lemma MarkedButNotStored(cfg: Config, p: nat, a: string, b: string) returns (w: World)
    requires Sound(cfg) && p < |cfg.clients| && |cfg.clients[p].login| == 4 && Entitled(cfg, cfg.clients[p])
    requires a in cfg.clients[p].forms && b in cfg.clients[p].forms && a != b && |Pack(cfg.clients[p].forms[b])| <= 990
    ensures Reachable(cfg, w) && (p, b) in w.sent && (p, a) !in w.sent && |a| >= 4 && |b| >= 4
    ensures |w.log| == 1 && w.log[0].diskOk && w.log[0].names == [a, b]
    ensures var c := cfg.clients[p];
            var db := Db(w.log, CollegeNumber(c));
            && KeyOf(b) !in db && KeyOf(a) in db && db[KeyOf(a)] == Pack([NameLine(b)] + c.forms[b])
  {
    hide Sound, Reachable, FormFiles, Entitled, Leads, Reaches, UserOfClient, With, Between, GoodName, Pack, Flatten,
      KeyOf, NameLine, Idle, Init, CollegeNumber, Strtol, Db, Talk;
    var c := cfg.clients[p];
    var todo, user := c.forms.Keys, UserOfClient(c);
    var w0 := Init(cfg);
    StartsEmpty(cfg, p);
    var w1 := OpeningRun(cfg, w0, p);
    FileFacts(c, a);
    FileFacts(c, b);
    NameTakes30(b);
    FailedRun(cfg, w1, p, 0, a, todo, user, {}, []);
    SwallowedRun(cfg, w1, p, 0, a, b, todo - {a}, user, {}, []);
    var o := Open(a, NameLine(b), NameLine(b) + [NUL], [NameLine(a), NameLine(b)], [a, b], 0);
    SentRun(cfg, w1, p, 0, b, todo - {a} - {b}, {a}, user, o, {}, []);
    var s1 := Between(p, todo, {}, user, "", 0);
    var s2 := Talk(p, Scan, todo - {a}, {a}, user, Body(a, "", ""), [NameLine(a)], [a], 0);
    var s3 := Talk(p, Named(b), todo - {a} - {b}, {a}, user, Body(a, o.text, o.record), o.msgs, o.names, 0);
    var s4 := Between(p, todo - {a} - {b}, {a}, user, a, 0);
    var e := Entry(p, Strtol(user), KeyOf(a), o.record + Pack(c.forms[b]), o.text + Flatten(c.forms[b]), [a, b], true);
    LeadsReaches(cfg, w0, With(w1, 0, s1, {}, []));
    ReachesOn(cfg, w0, With(w1, 0, s1, {}, []), With(w1, 0, s2, {}, []));
    LeadsReaches(cfg, With(w1, 0, s2, {}, []), With(w1, 0, s3, {}, []));
    ReachesOn(cfg, w0, With(w1, 0, s2, {}, []), With(w1, 0, s3, {}, []));
    assert {} + {(p, b)} == {(p, b)} && [] + [e] == [e];
    w := With(w1, 0, s4, {(p, b)}, [e]);
    LeadsReaches(cfg, With(w1, 0, s3, {}, []), w);
    ReachesOn(cfg, w0, With(w1, 0, s3, {}, []), w);
    LeadsReachably(cfg, w0, w);
    WithLog(w1, 0, s4, {(p, b)}, [e]);
    CollegeIs(c, user);
    OnePut(e);
    PackCons(NameLine(b), c.forms[b]);
    KeysDiffer(c, a, b);
  }

  lemma StartsEmpty(cfg: Config, p: nat)
    ensures Reachable(cfg, Init(cfg)) && Idle(Init(cfg), p)
    ensures Init(cfg).sessions == [] && Init(cfg).sent == {} && Init(cfg).log == []
  {
    assert Exec(cfg, Init(cfg), []) == Some(Init(cfg));
  }

  lemma NameTakes30(b: string)
    requires GoodName(b)
    ensures |NameLine(b) + [NUL]| <= 30
  {
  }

  lemma WithLog(w: World, i: nat, s: Session, sent: set<(nat, string)>, log: seq<Entry>)
    requires i < |w.sessions|
    ensures With(w, i, s, sent, log).sent == sent && With(w, i, s, sent, log).log == log
  {
  }

  lemma OnePut(e: Entry)
    ensures Db([e], e.college) == map[e.key := e.record]
  {
    assert [e][..0] == [];
    assert Db([], e.college) == map[];
  }

  lemma PackCons(line: string, lines: seq<string>)
    ensures Pack([line] + lines) == line + [NUL] + Pack(lines)
  {
    assert ([line] + lines)[1..] == lines;
  }

  /** Different files have different keys. */
  lemma KeysDiffer(c: Client, a: string, b: string)
    requires FormFiles(c.forms) && a in c.forms && b in c.forms && a != b
    ensures |a| >= 4 && |b| >= 4 && KeyOf(a) != KeyOf(b)
  {
    LongEnough(c, a);
    LongEnough(c, b);
    hide FormFiles, KeyOf;
  }
}
