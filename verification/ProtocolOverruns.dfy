/** When a server thread writes outside its buffers, exactly: in every reachable state, at every step,
    and the runs that get there. */
module ProtocolOverruns {
  import opened Bytes
  import opened Streams
  import opened Records
  import opened Server
  import opened Framing
  import opened Protocol
  import opened ProtocolInvariant
  import opened ProtocolClient
  import opened ProtocolServer
  import opened ProtocolRuns
  import opened Announcements
  import opened RecordRoom
  import opened ProtocolTheorems
  import opened ProtocolProgress
  import opened ProtocolScripts

  // ---------------------------------------------------------------------------------------
  // States
  // ---------------------------------------------------------------------------------------

  /** The names of the exchange that the server has taken. */
  function NamesTaken(s: Session): seq<string> {
    s.names[..Least(s.seen, |s.names|)]
  }

  /** The lines of the form announced last that it has taken. */
  function LinesTaken(c: Client, s: Session): seq<string> {
    if s.names == [] || s.seen <= |s.names| then []
    else
      var lines := LinesOf(c, s.names[|s.names| - 1]);
      lines[..Least(s.seen - |s.names|, |lines|)]
  }

  /** The client is announcing or sending forms, and was not cancelled between two of them. */
  predicate OnItsWay(s: Session) {
    s.pc.Sending? || s.pc.WaitAck? || (!s.cancelled && (s.pc.Scan? || s.pc.Named?))
  }

  /** A thread has overrun its record buffer, exactly: as long as no file of the server failed in
      this exchange, if and only if the names and lines it took do not fit. */
  lemma ThreadOverruns(cfg: Config, w: World, i: nat)
    requires Sound(cfg) && Reachable(cfg, w) && i < |w.sessions|
    requires var s := w.sessions[i];
             Live(s) && s.server.Talking? && s.diskOk && OnItsWay(s) && StandardNames(s.names)
    ensures var s := w.sessions[i];
            && s.owner < |cfg.clients|
            && (s.server.mode.Undefined? <==> Overfull(NamesTaken(s), LinesTaken(cfg.clients[s.owner], s)))
  {
    hide WorldInv, Sound, SessionInv, Reachable, Overfull, NamesTaken, LinesTaken, Fold, StandardNames, PlainLine;
    ReachableIs(cfg, w);
    InvOf(cfg, w, i);
    var s := w.sessions[i];
    var c := cfg.clients[s.owner];
    SoundForms(cfg, s.owner);
    ModeIs(cfg, s, w.log);
    var names, lines := NamesTaken(s), LinesTaken(c, s);
    TakenAre(cfg, c, s, w.log);
    OverrunExactly(names, lines);
    if s.msgs[..s.seen] == NameLines(names) + lines + [DOT] { DotIsNoOverrun(NameLines(names) + lines); }
  }

  /** The mode of a session whose server's files worked. */
  lemma ModeIs(cfg: Config, s: Session, log: seq<Entry>)
    requires SessionInv(cfg, s, log) && !Starved(s) && s.server.Talking? && s.diskOk
    ensures s.seen <= |s.msgs| && SameMode(s.server.mode, Fold(s.msgs[..s.seen]))
  {
    hide Answered, InStep, Shaped, Settled, GoodClient, Admitted, Fold, Tracks, Flatten;
  }

  /** What the server has taken is names and lines, and at most the dot. */
  lemma TakenAre(cfg: Config, c: Client, s: Session, log: seq<Entry>)
    requires SessionInv(cfg, s, log) && s.owner < |cfg.clients| && c == cfg.clients[s.owner] && FormFiles(c.forms)
    requires Live(s) && OnItsWay(s) && StandardNames(s.names) && s.seen <= |s.msgs|
    ensures var names, lines := NamesTaken(s), LinesTaken(c, s);
            && StandardNames(names) && (forall k :: 0 <= k < |lines| ==> PlainLine(lines[k]))
            && (s.msgs[..s.seen] == NameLines(names) + lines || s.msgs[..s.seen] == NameLines(names) + lines + [DOT])
  {
    hide SessionInv, PlainLine, FormFiles, NameLines, StandardNames, NamesTaken, LinesTaken, LinesOf;
    PlaceIs(cfg, c, s, log);
    StandardTaken(s);
    PlainTaken(c, s);
    TakenMessages(c, s);
  }

  lemma StandardTaken(s: Session)
    requires StandardNames(s.names)
    ensures StandardNames(NamesTaken(s))
  {
    hide GoodName;
  }

  lemma PlainTaken(c: Client, s: Session)
    requires FormFiles(c.forms) && (s.names != [] ==> s.names[|s.names| - 1] in c.forms)
    ensures forall k :: 0 <= k < |LinesTaken(c, s)| ==> PlainLine(LinesTaken(c, s)[k])
  {
    hide PlainLine, FormFiles, LinesOf;
    if s.names != [] { LinesArePlain(c, s.names[|s.names| - 1]); }
  }

  lemma TakenMessages(c: Client, s: Session)
    requires s.seen <= |s.msgs|
    requires s.msgs <= NameLines(s.names) + (if s.names == [] then [] else LinesOf(c, s.names[|s.names| - 1])) + [DOT]
    ensures var names, lines := NamesTaken(s), LinesTaken(c, s);
            s.msgs[..s.seen] == NameLines(names) + lines || s.msgs[..s.seen] == NameLines(names) + lines + [DOT]
  {
    hide NameLines, LinesOf;
    var names, all := s.names, if s.names == [] then [] else LinesOf(c, s.names[|s.names| - 1]);
    PrefixOfExchange(names, all, s.msgs, s.seen);
    assert names[..|names|] == names && all[..|all|] == all;
    assert NameLines(names[..Least(s.seen, |names|)]) + [] == NameLines(names[..Least(s.seen, |names|)]);
  }

  lemma PlaceIs(cfg: Config, c: Client, s: Session, log: seq<Entry>)
    requires SessionInv(cfg, s, log) && s.owner < |cfg.clients| && c == cfg.clients[s.owner]
    requires Live(s) && OnItsWay(s)
    ensures s.names != [] ==> s.names[|s.names| - 1] in c.forms
    ensures s.msgs <= NameLines(s.names) + (if s.names == [] then [] else LinesOf(c, s.names[|s.names| - 1])) + [DOT]
  {
    hide Carried, Answered, InStep, Followed, Admitted, Settled, GoodClient, Logged, NameLines;
  }

  lemma PrefixOfExchange(names: seq<string>, lines: seq<string>, ms: seq<string>, k: nat)
    requires ms <= NameLines(names) + lines + [DOT] && k <= |ms|
    ensures k <= |names| ==> ms[..k] == NameLines(names[..k])
    ensures |names| < k <= |names| + |lines| ==> ms[..k] == NameLines(names) + lines[..k - |names|]
    ensures k > |names| + |lines| ==> ms[..k] == NameLines(names) + lines + [DOT]
  {
    hide NameLine;
  }

  lemma DotIsNoOverrun(ms: seq<string>)
    ensures Fold(ms + [DOT]) == Undefined <==> Fold(ms) == Undefined
  {
    FoldSnoc(ms, DOT);
    hide Fold, OnLine;
    if Listening(Fold(ms)) { DotLine(Fold(ms), GOOD_LUCK); }
  }

  // ---------------------------------------------------------------------------------------
  // Steps
  // ---------------------------------------------------------------------------------------

  /** What makes the next line of a thread overrun a buffer. A whole message: it does not fit into a
      record that is not full. The rest of a broken connection: the same, or it is the beginning of a
      FILENAME line that leaves no name of four characters. */
  predicate NextOverruns(s: Session, m: Mode, ch: Chance) {
    && s.c2s != "" && s.seen < |s.msgs|
    && var msg := s.msgs[s.seen];
       if msg <= s.c2s then
         && m.Body? && msg != DOT && msg != QUIT && ch.luck.writes
         && |m.record| < MAXINFOSIZE < |m.record| + |msg| + 1
       else
         && ch.ending == Eof
         && match m
            case Command(prev) =>
              IsName(msg) && (10 <= |s.c2s| <= 12 || (|s.c2s| == 9 && !(4 <= |prev| <= NAMEMAX)))
            case Body(_, _, record) =>
              ch.luck.writes && |record| < MAXINFOSIZE < |record| + |s.c2s| + 2
            case _ => false
  }

  /** A step of a thread overruns a buffer exactly then, in every run and whatever its files do. */
  lemma StepOverruns(cfg: Config, w: World, i: nat, ch: Chance, w': World)
    requires Sound(cfg) && Reachable(cfg, w) && Next(cfg, w, ServerActs(i, ch)) == Some(w')
    requires w.sessions[i].server.Talking? && Listening(w.sessions[i].server.mode)
    ensures i < |w'.sessions|
    ensures var next := w'.sessions[i].server;
            next.Talking? && next.mode.Undefined? <==> NextOverruns(w.sessions[i], w.sessions[i].server.mode, ch)
  {
    hide WorldInv, Sound, SessionInv, Reachable, TakesLine, Listening, NextOverruns;
    ReachableIs(cfg, w);
    InvOf(cfg, w, i);
    var s := w.sessions[i];
    var d := ServerStep(cfg, s, |w.log|, ch).value;
    TurnOverruns(cfg, s, s.server.user, s.server.mode, |w.log|, ch, w.log, d);
  }

  lemma TurnOverruns(cfg: Config, s: Session, user: string, m: Mode, at: nat, ch: Chance, log: seq<Entry>, d: Served)
    requires s.owner < |cfg.clients| && SessionInv(cfg, s, log) && s.server == Talking(user, m) && Listening(m)
    requires TakesLine(s, user, m, at, ch) == Some(d)
    ensures d.s.server.Talking? && d.s.server.mode.Undefined? <==> NextOverruns(s, m, ch)
  {
    hide SessionInv, TakesLine, Listening, Message, Carried, OnLine, Avail, WholeLine, IsName;
    if s.c2s == "" {
      EmptyWire(ClosedToServer(s), ch.ending);
      NoLineNoOverrun(s, user, m, at, ch, d);
    } else {
      NextIsMessage(cfg, s, log);
      FrontOfWire(s);
      var msg := s.msgs[s.seen];
      MessageIs(msg);
      LineOffWire(s.c2s, ClosedToServer(s), ch.ending, msg);
      if msg <= s.c2s {
        LineOverruns(s, user, m, at, ch, d, msg);
        WholeOverruns(m, msg, ch.luck);
      } else {
        RestOffWire(s.c2s, ClosedToServer(s), ch.ending, msg);
        if ch.ending == Eof {
          LineOverruns(s, user, m, at, ch, d, s.c2s);
          RestOverruns(m, msg, s.c2s, ch.luck);
        } else {
          NoLineNoOverrun(s, user, m, at, ch, d);
        }
      }
    }
  }

  lemma NoLineNoOverrun(s: Session, user: string, m: Mode, at: nat, ch: Chance, d: Served)
    requires Listening(m) && TakesLine(s, user, m, at, ch) == Some(d)
    requires var r := Avail(s.c2s, ClosedToServer(s), ch.ending, MAXLINE); r.Some? ==> !r.value.Got?
    ensures d.s.server.Gone?
  {
    hide OnLine, Avail, Listening;
  }

  lemma LineOverruns(s: Session, user: string, m: Mode, at: nat, ch: Chance, d: Served, text: string)
    requires Listening(m) && TakesLine(s, user, m, at, ch) == Some(d) && |text| <= |s.c2s|
    requires Avail(s.c2s, ClosedToServer(s), ch.ending, MAXLINE) == Some(Got(text))
    ensures d.s.server.Talking? && d.s.server.mode.Undefined? <==> OnLine(m, text, ch.luck).mode.Undefined?
  {
    UndefinedIsQuiet(m, text, ch.luck);
    hide OnLine, Avail, Listening, Heard;
  }

  lemma UndefinedIsQuiet(m: Mode, text: string, luck: Luck)
    requires Listening(m)
    ensures var turn := OnLine(m, text, luck); turn.mode.Undefined? ==> turn.reply == ""
  {
    hide CStr, Until, Chunk;
  }

  /** The last bytes of a broken connection are a line if it ends, and none if it fails. */
  lemma RestOffWire(rest: string, closed: bool, e: Ending, msg: string)
    requires WholeLine(msg) && |msg| < MAXLINE && rest < msg && rest != ""
    ensures var r := Avail(rest, closed, e, MAXLINE);
            if closed then r == Some(if e == Eof then Got(rest) else Error) else r.None?
  {
    LinePrefixOfCut(rest, msg, MAXLINE - 1);
    assert rest[|rest| - 1] == msg[|rest| - 1];
  }

  lemma WholeOverruns(m: Mode, msg: string, luck: Luck)
    requires Listening(m) && Message(msg)
    ensures OnLine(m, msg, luck).mode.Undefined? <==>
              && m.Body? && msg != DOT && msg != QUIT && luck.writes
              && |m.record| < MAXINFOSIZE < |m.record| + |msg| + 1
  {
    hide OnBody, OnCommand, Message, IsName, NameIn;
    if msg == DOT { DotLine(m, luck); }
    else if msg == QUIT { QuitLine(m, luck); }
    else if m.Command? { TurnFromCommand(m.name, msg, luck); }
    else { TurnFromBody(m.name, m.text, m.record, msg, luck); }
  }

  lemma RestOverruns(m: Mode, msg: string, rest: string, luck: Luck)
    requires Listening(m) && Message(msg) && rest < msg && rest != ""
    ensures OnLine(m, rest, luck).mode.Undefined? <==>
              match m
              case Command(prev) =>
                IsName(msg) && (10 <= |rest| <= 12 || (|rest| == 9 && !(4 <= |prev| <= NAMEMAX)))
              case Body(_, _, record) =>
                luck.writes && |record| < MAXINFOSIZE < |record| + |rest| + 2
              case _ => false
  {
    hide OnBody, OnCommand, Message;
    match m {
      case Command(prev) =>
        if IsName(msg) { CutNameOverruns(prev, NameIn(msg), rest, luck); } else { OtherRest(prev, msg, rest, luck); }
      case Body(name, text, record) => BodyRest(name, text, record, msg, rest, luck);
    }
  }

  /** What is left of any other message is no FILENAME line. */
  lemma OtherRest(prev: string, msg: string, rest: string, luck: Luck)
    requires Message(msg) && !IsName(msg) && rest < msg
    ensures !OnCommand(prev, rest, luck).mode.Undefined?
  {
    MessageIs(msg);
    CStrExact(rest, "") by { assert forall c :: c in rest ==> c in msg; }
    assert rest + "" == rest;
    hide CStr, Until, WholeLine, NameLine;
    assert FILENAME <= rest ==> FILENAME <= msg;
    assert !(FILENAME <= QUIT) && !(FILENAME <= DOT);
  }

  lemma BodyRest(name: string, text: string, record: string, msg: string, rest: string, luck: Luck)
    requires Message(msg) && rest < msg && rest != "" && |name| >= 4
    ensures OnBody(name, text, record, rest, luck).mode.Undefined? <==>
              luck.writes && |record| < MAXINFOSIZE < |record| + |rest| + 2
  {
    MessageIs(msg);
    RestIsOrdinary(msg, rest);
    hide CStr, Message, WholeLine;
    assert |Chunk(rest, luck.stray)| == |rest| + 2;
  }

  lemma RestIsOrdinary(msg: string, rest: string)
    requires Message(msg) && rest < msg && rest != ""
    ensures CStr(rest) == rest && !Terminated(rest) && !StartsWith(rest, DOT) && !StartsWith(rest, QUIT)
  {
    MessageIs(msg);
    CStrExact(rest, "") by { assert forall c :: c in rest ==> c in msg; }
    assert rest + "" == rest;
    hide CStr, Message;
    assert forall i :: 0 <= i < |rest| ==> rest[i] == msg[i] && rest[i] != LF;
    assert DOT[1] == LF && QUIT[4] == LF;
  }

  // ---------------------------------------------------------------------------------------
  // Runs
  // ---------------------------------------------------------------------------------------

  /** A FILENAME line on its way when the connection breaks. */
  function OnTheWire(p: nat, n: string, todo: set<string>, user: string): Session {
    Between(p, todo, {}, user, "", 0).(pc := Named(n), todo := todo - {n}, names := [n],
                                        c2s := NameLine(n), msgs := [NameLine(n)])
  }

  lemma AnnounceMove(cfg: Config, w: World, i: nat, p: nat, n: string, todo: set<string>, user: string)
    requires p < |cfg.clients| && Ready(w, i, p) && n in todo
    ensures Reaches(cfg, With(w, i, Between(p, todo, {}, user, "", 0), {}, []),
                    With(w, i, OnTheWire(p, n, todo, user), {}, []))
  {
    var s := Between(p, todo, {}, user, "", 0);
    Announcing(cfg, s, n, {});
    assert [] + [n] == [n] && [] + [NameLine(n)] == [NameLine(n)];
    hide ClientStep, With, Reaches, Leads, NameLine;
    SilentMove(cfg, w, i, s, {}, [], GOING_WELL.(name := n), OnTheWire(p, n, todo, user));
  }

  lemma CutMove(cfg: Config, w: World, i: nat, s: Session, k: nat)
    requires i < |w.sessions| && s.s2c == "" && k <= |s.c2s|
    ensures Reaches(cfg, With(w, i, s, {}, []), With(w, i, s.(c2s := s.c2s[..k], up := false), {}, []))
  {
    hide Reaches, Leads;
    var t := s.(c2s := s.c2s[..k], up := false);
    assert s.s2c[..Least(0, |s.s2c|)] == "";
    var w0, w1 := With(w, i, s, {}, []), With(w, i, t, {}, []);
    assert w0.sessions[i := t] == w1.sessions;
    LeadsOnce(cfg, w0, Cut(i, k, 0), w1);
  }

  /** The step of a thread that has something to read. */
  lemma ServerReads(cfg: Config, w: World, i: nat, s: Session) returns (w': World)
    requires Sound(cfg) && i < |w.sessions| && w.sessions[i] == s && !s.server.Gone? && !s.up && Reachable(cfg, w)
    ensures Next(cfg, w, ServerActs(i, SERVING_WELL)) == Some(w') && Reachable(cfg, w')
    ensures |w'.sessions| == |w.sessions| && w'.sessions[i].owner == s.owner
  {
    hide Sound, Reachable, WorldInv, ServerStep, SessionInv;
    NoWait(cfg, s);
    ServerCanMove(cfg, s, |w.log|);
    w' := Next(cfg, w, ServerActs(i, SERVING_WELL)).value;
    ReachableIs(cfg, w);
    InvOf(cfg, w, i);
    ServerKeeps(cfg, s, SERVING_WELL, w.log, ServerStep(cfg, s, |w.log|, SERVING_WELL).value);
    hide Next, Reaches, Leads;
    LeadsOnce(cfg, w, ServerActs(i, SERVING_WELL), w');
    LeadsReachably(cfg, w, w');
  }

  lemma NoWait(cfg: Config, s: Session)
    requires !s.up && !s.server.Gone?
    ensures !ServerWaits(cfg, s)
  {
  }

  /** Any entitled client's connection can break so that its thread overruns the name buffers: after
      the blank behind FILENAME, or after one to three characters of the first name it announces. */
  lemma CutRun(cfg: Config, p: nat, n: string, k: nat) returns (w: World)
    requires Sound(cfg) && p < |cfg.clients| && |cfg.clients[p].login| == 4 && Entitled(cfg, cfg.clients[p])
    requires n in cfg.clients[p].forms && 9 <= k <= 12
    ensures Reachable(cfg, w) && |w.sessions| == 1 && w.sessions[0].owner == p
    ensures w.sessions[0].server.Talking? && w.sessions[0].server.mode.Undefined?
  {
    hide Sound, Reachable, FormFiles, Entitled, Leads, Reaches, UserOfClient, With, Between, GoodName, NameLine, Idle,
      Init, OnTheWire, Next, NextOverruns;
    var c := cfg.clients[p];
    var todo, user := c.forms.Keys, UserOfClient(c);
    StartsEmpty(cfg, p);
    var w1 := OpeningRun(cfg, Init(cfg), p);
    FileFacts(c, n);
    AnnounceMove(cfg, w1, 0, p, n, todo, user);
    var s, s1 := Between(p, todo, {}, user, "", 0), OnTheWire(p, n, todo, user);
    AnnouncingIs(p, n, todo, user, k);
    CutMove(cfg, w1, 0, s1, k);
    var s2 := s1.(c2s := s1.c2s[..k], up := false);
    var w2 := With(w1, 0, s2, {}, []);
    LeadsReaches(cfg, Init(cfg), With(w1, 0, s, {}, []));
    ReachesOn(cfg, Init(cfg), With(w1, 0, s, {}, []), With(w1, 0, s1, {}, []));
    ReachesOn(cfg, Init(cfg), With(w1, 0, s1, {}, []), w2);
    LeadsReachably(cfg, Init(cfg), w2);
    WithIs(w1, 0, s2, {}, []);
    w := ServerReads(cfg, w2, 0, s2);
    StepOverruns(cfg, w2, 0, SERVING_WELL, w);
    CutOverruns(s2, n, k);
  }

  lemma AnnouncingIs(p: nat, n: string, todo: set<string>, user: string, k: nat)
    requires GoodName(n) && 9 <= k <= 12
    ensures var s := OnTheWire(p, n, todo, user);
            && s.server == Talking(user, Command("")) && s.s2c == "" && s.seen == 0 && s.msgs == [NameLine(n)]
            && s.c2s == NameLine(n) && k < |s.c2s| && s.owner == p
  {
  }

  lemma CutOverruns(s: Session, n: string, k: nat)
    requires GoodName(n) && 9 <= k <= 12 && k < |NameLine(n)| && s.c2s == NameLine(n)[..k]
    requires s.seen == 0 && s.msgs == [NameLine(n)]
    ensures NextOverruns(s, Command(""), SERVING_WELL)
  {
    NameLineName(n);
    hide IsName, NameLine;
  }

  /** The session of a client after the server took these messages, with nothing under way. */
  function Told(p: nat, pc: Pc, todo: set<string>, missed: set<string>, user: string, ms: seq<string>,
                names: seq<string>): Session
  {
    Talk(p, pc, todo, missed, user, Fold(ms), ms, names, 0)
  }

  function Elements(names: seq<string>): set<string> {
    set n | n in names
  }

  /** Different forms of a client, with names of the standard length. */
  predicate Announceable(c: Client, names: seq<string>) {
    && StandardNames(names) && (forall i :: 0 <= i < |names| ==> names[i] in c.forms)
    && (forall i, j :: 0 <= i < j < |names| ==> names[i] != names[j])
  }

  lemma AnnounceableFront(c: Client, front: seq<string>, last: string)
    requires Announceable(c, front + [last])
    ensures Announceable(c, front) && GoodName(last) && last in c.forms && last !in front
    ensures Elements(front + [last]) == Elements(front) + {last}
  {
    var names := front + [last];
    assert names[|front|] == last;
    assert forall i :: 0 <= i < |front| ==> names[i] == front[i];
    StandardFront(front, last);
    hide GoodName;
  }

  /** The folds of names that fit, and of one more. */
  lemma NamesFold(names: seq<string>)
    requires StandardNames(names) && |names| <= ROOM
    ensures var m := Fold(NameLines(names));
            Listening(m) && (m.Command? ==> names == [] && m == Command(""))
  {
    FoldNames(names);
    if names == [] { assert NameLines(names) == []; }
    hide NameLines, StandardNames, Flatten, Pack;
  }

  /** One more name goes out and is taken. */
  lemma NameTold(cfg: Config, w: World, p: nat, i: nat, front: seq<string>, last: string, user: string)
    requires p < |cfg.clients| && Ready(w, i, p) && Announceable(cfg.clients[p], front + [last]) && |front| <= ROOM
    ensures var todo, missed := cfg.clients[p].forms.Keys - Elements(front), Elements(front);
            Reaches(cfg, With(w, i, Told(p, Scan, todo, missed, user, NameLines(front), front), {}, []),
                    With(w, i, Told(p, Named(last), todo - {last}, missed, user, NameLines(front + [last]),
                                    front + [last]), {}, []))
  {
    var todo, missed := cfg.clients[p].forms.Keys - Elements(front), Elements(front);
    AnnounceableFront(cfg.clients[p], front, last);
    NamesFold(front);
    NotStopped(front, last);
    NamesSnoc(front, last);
    FoldSnoc(NameLines(front), NameLine(last));
    assert front == [] ==> NameLines(front) == [];
    hide Leads, Reaches, With, Fold, OnLine, NameLine, NameLines, GoodName, Listening, StandardNames, Talk, Elements;
    NameRun(cfg, w, p, i, last, todo, missed, user, Fold(NameLines(front)), NameLines(front), front, 0, {}, []);
    LeadsReaches(cfg, With(w, i, Told(p, Scan, todo, missed, user, NameLines(front), front), {}, []),
                 With(w, i, Told(p, Named(last), todo - {last}, missed, user, NameLines(front + [last]),
                                 front + [last]), {}, []));
  }

  lemma NotStopped(front: seq<string>, last: string)
    requires StandardNames(front + [last])
    ensures !Fold(NameLines(front + [last])).Stopped?
  {
    FoldNames(front + [last]);
    hide NameLines, StandardNames, Flatten, Pack, Fold;
  }

  /** Names announced in vain, one after the other: each form cannot be opened again. */
  lemma {:induction false} VainRun(cfg: Config, w: World, p: nat, i: nat, names: seq<string>, user: string)
    requires p < |cfg.clients| && Ready(w, i, p) && Announceable(cfg.clients[p], names) && |names| <= ROOM
    ensures var keys := cfg.clients[p].forms.Keys;
            Reaches(cfg, With(w, i, Between(p, keys, {}, user, "", 0), {}, []),
                    With(w, i, Told(p, Scan, keys - Elements(names), Elements(names), user, NameLines(names), names),
                         {}, []))
    decreases |names|
  {
    var keys := cfg.clients[p].forms.Keys;
    var s := Between(p, keys, {}, user, "", 0);
    if names == [] {
      NothingTold(p, keys, user);
      LeadsNowhere(cfg, With(w, i, s, {}, []));
      hide Leads, Reaches, With, Told, Elements;
      LeadsReaches(cfg, With(w, i, s, {}, []), With(w, i, s, {}, []));
    } else {
      var front, last := names[..|names| - 1], names[|names| - 1];
      assert names == front + [last];
      AnnounceableFront(cfg.clients[p], front, last);
      VainRun(cfg, w, p, i, front, user);
      NameTold(cfg, w, p, i, front, last, user);
      var s1 := Told(p, Scan, keys - Elements(front), Elements(front), user, NameLines(front), front);
      var s2 := Told(p, Named(last), keys - Elements(front) - {last}, Elements(front), user, NameLines(names), names);
      var s3 := Told(p, Scan, keys - Elements(names), Elements(names), user, NameLines(names), names);
      assert keys - Elements(front) - {last} == keys - (Elements(front) + {last});
      hide Leads, Reaches, With, Fold, NameLines, Elements, Announceable, Between;
      ReopenMove(cfg, w, i, s2, last, false, {}, []);
      hide Told;
      ReachesOn(cfg, With(w, i, s, {}, []), With(w, i, s1, {}, []), With(w, i, s2, {}, []));
      ReachesOn(cfg, With(w, i, s, {}, []), With(w, i, s2, {}, []), With(w, i, s3, {}, []));
    }
  }

  lemma NothingTold(p: nat, keys: set<string>, user: string)
    ensures Told(p, Scan, keys - Elements([]), Elements([]), user, NameLines([]), [])
         == Between(p, keys, {}, user, "", 0)
  {
    assert Elements([]) == {} && keys - {} == keys && NameLines([]) == [];
  }

  /** A line of the form goes out and is taken. */
  lemma LineTold(cfg: Config, w: World, p: nat, i: nat, n: string, j: nat, todo: set<string>, missed: set<string>,
                 user: string, ms: seq<string>, names: seq<string>)
    requires p < |cfg.clients| && Ready(w, i, p) && FormFiles(cfg.clients[p].forms) && n in cfg.clients[p].forms
    requires j < |cfg.clients[p].forms[n]| && Listening(Fold(ms))
    requires !Fold(ms + [cfg.clients[p].forms[n][j]]).Stopped? && Fold(ms).Body?
    ensures Reaches(cfg, With(w, i, Told(p, Sending(n, j), todo, missed, user, ms, names), {}, []),
                    With(w, i, Told(p, Sending(n, j + 1), todo, missed, user, ms + [cfg.clients[p].forms[n][j]], names),
                         {}, []))
  {
    var line := cfg.clients[p].forms[n][j];
    var s := Told(p, Sending(n, j), todo, missed, user, ms, names);
    var t := Told(p, Sending(n, j + 1), todo, missed, user, ms + [line], names);
    hide Leads, Reaches, With, ClientStep, Message, PlainLine, FormFiles, OnLine, Fold, Listening, Talk, Told;
    LineIsMessage(cfg.clients[p], n, j);
    FormLinePlain(cfg.clients[p], n, j);
    FoldSnoc(ms, line);
    NotTheDot(line);
    ToldOn(p, n, j, todo, missed, user, ms, names, line);
    SendLine(cfg, p, s, n, j, {});
    SayMove(cfg, w, i, s, Sending(n, j + 1), todo, names, user, Fold(ms), line, {}, [], GOING_WELL, t);
    LeadsReaches(cfg, With(w, i, s, {}, []), With(w, i, t, {}, []));
  }

  lemma ToldOn(p: nat, n: string, j: nat, todo: set<string>, missed: set<string>, user: string, ms: seq<string>,
               names: seq<string>, line: string)
    requires Fold(ms).Body?
    ensures var s := Told(p, Sending(n, j), todo, missed, user, ms, names);
            var t := Told(p, Sending(n, j + 1), todo, missed, user, ms + [line], names);
            && s.owner == p && s.pc == Sending(n, j) && !s.cancelled && Live(s) && s.up && s.c2s == ""
            && s.seen == |s.msgs| && s.msgs == ms && s.diskOk && s.server == Talking(user, Fold(ms))
            && t == s.(pc := Sending(n, j + 1), todo := todo, names := names, msgs := s.msgs + [line],
                       seen := s.seen + 1, base := s.base, server := Talking(user, Fold(ms + [line])))
            && s.(pc := Sending(n, j + 1), c2s := line, msgs := s.msgs + [line])
               == s.(pc := Sending(n, j + 1), todo := todo, names := names, c2s := line, msgs := s.msgs + [line])
  {
    hide Fold;
  }

  lemma NotTheDot(line: string)
    requires PlainLine(line)
    ensures line != DOT
  {
  }

  /** Lines of the form, as long as they fit and up to one that may not. */
  lemma {:induction false} LinesTold(cfg: Config, w: World, p: nat, i: nat, names: seq<string>, n: string,
                                     lines: seq<string>, k: nat, todo: set<string>, missed: set<string>, user: string)
    requires p < |cfg.clients| && Ready(w, i, p) && FormFiles(cfg.clients[p].forms) && n in cfg.clients[p].forms
    requires lines == cfg.clients[p].forms[n] && StandardNames(names) && names != [] && |names| <= ROOM
    requires k <= |lines| && !GivenUp(names, lines[..k])
    requires forall j :: 0 <= j < k ==> Amount(names, lines[..j]) <= MAXINFOSIZE
    ensures Reaches(cfg, With(w, i, Told(p, Sending(n, 0), todo, missed, user, NameLines(names), names), {}, []),
                    With(w, i, Told(p, Sending(n, k), todo, missed, user,
                                    NameLines(names) + lines[..k], names), {}, []))
    decreases k
  {
    var s0 := Told(p, Sending(n, 0), todo, missed, user, NameLines(names), names);
    hide Leads, Reaches, With, Fold, NameLines, FormFiles, StandardNames, Listening, Told, GivenUp, Amount;
    if k == 0 {
      assert NameLines(names) + lines[..0] == NameLines(names);
      LeadsNowhere(cfg, With(w, i, s0, {}, []));
      LeadsReaches(cfg, With(w, i, s0, {}, []), With(w, i, s0, {}, []));
    } else {
      FrontNotGivenUp(names, lines, k);
      LinesTold(cfg, w, p, i, names, n, lines, k - 1, todo, missed, user);
      NextLineTold(cfg, w, p, i, names, n, lines, k, todo, missed, user);
      ReachesOn(cfg, With(w, i, s0, {}, []),
                With(w, i, Told(p, Sending(n, k - 1), todo, missed, user,
                                NameLines(names) + lines[..k - 1], names), {}, []),
                With(w, i, Told(p, Sending(n, k), todo, missed, user, NameLines(names) + lines[..k], names), {}, []));
    }
  }

  lemma NextLineTold(cfg: Config, w: World, p: nat, i: nat, names: seq<string>, n: string, lines: seq<string>, k: nat,
                     todo: set<string>, missed: set<string>, user: string)
    requires p < |cfg.clients| && Ready(w, i, p) && FormFiles(cfg.clients[p].forms) && n in cfg.clients[p].forms
    requires lines == cfg.clients[p].forms[n] && StandardNames(names) && names != [] && |names| <= ROOM
    requires 0 < k <= |lines| && !GivenUp(names, lines[..k]) && !GivenUp(names, lines[..k - 1])
    requires Amount(names, lines[..k - 1]) <= MAXINFOSIZE
    ensures Reaches(cfg, With(w, i, Told(p, Sending(n, k - 1), todo, missed, user,
                                         NameLines(names) + lines[..k - 1], names), {}, []),
                    With(w, i, Told(p, Sending(n, k), todo, missed, user,
                                    NameLines(names) + lines[..k], names), {}, []))
  {
    FormIsPlain(cfg.clients[p], n, k - 1);
    FormIsPlain(cfg.clients[p], n, k);
    hide Leads, Reaches, With, Fold, NameLines, FormFiles, StandardNames, Listening, Told, GivenUp, Amount, PlainLine;
    OpenBody(names, lines[..k - 1]);
    OpenBody(names, lines[..k]);
    LinesSnoc(NameLines(names), lines, k - 1);
    LineTold(cfg, w, p, i, n, k - 1, todo, missed, user, NameLines(names) + lines[..k - 1], names);
  }

  lemma FormIsPlain(c: Client, n: string, k: nat)
    requires FormFiles(c.forms) && n in c.forms && k <= |c.forms[n]|
    ensures var front := c.forms[n][..k]; forall j :: 0 <= j < |front| ==> PlainLine(front[j])
  {
    hide PlainLine, FormFiles;
    LinesArePlain(c, n);
    assert forall j :: 0 <= j < k ==> c.forms[n][..k][j] == LinesOf(c, n)[j];
  }

  lemma FrontNotGivenUp(names: seq<string>, lines: seq<string>, k: nat)
    requires names != [] && 0 < k <= |lines| && !GivenUp(names, lines[..k])
    ensures !GivenUp(names, lines[..k - 1]) && Amount(names, lines[..k - 1]) != MAXINFOSIZE
  {
    OneMoreLine(names, lines[..k - 1], lines[k - 1]);
    assert lines[..k] == lines[..k - 1] + [lines[k - 1]];
    hide GivenUp, Pack;
  }

  /** As long as names and lines fit the body is open. */
  lemma OpenBody(names: seq<string>, lines: seq<string>)
    requires StandardNames(names) && names != [] && |names| <= ROOM
    requires forall j :: 0 <= j < |lines| ==> PlainLine(lines[j])
    requires !GivenUp(names, lines)
    ensures var m := Fold(NameLines(names) + lines);
            && !m.Stopped? && (Amount(names, lines) <= MAXINFOSIZE ==> m.Body? && Listening(m))
  {
    hide Fold, PlainLine, GivenUp, NameLines, Pack, Flatten, StandardNames;
    FirstIsLong(names);
    FoldForm(names, lines);
  }

  /** The first line that does not fit. */
  lemma {:induction false} FirstOverfull(names: seq<string>, lines: seq<string>) returns (k: nat)
    requires Overfull(names, lines) && |names| <= ROOM
    ensures k <= |lines| && Overfull(names, lines[..k])
    ensures forall j :: 0 <= j < k ==> Amount(names, lines[..j]) <= MAXINFOSIZE
    decreases |lines|
  {
    hide Pack, GivenUp;
    k := |lines|;
    assert lines[..k] == lines;
    if lines != [] {
      var front, last := lines[..|lines| - 1], lines[|lines| - 1];
      assert lines == front + [last];
      OneMoreLine(names, front, last);
      if Overfull(names, front) {
        k := FirstOverfull(names, front);
        assert forall j :: 0 <= j <= k ==> front[..j] == lines[..j];
      } else {
        forall j | 0 <= j < k ensures Amount(names, lines[..j]) <= MAXINFOSIZE {
          PackOfFront(front, j);
          assert front[..j] == lines[..j];
        }
      }
    }
  }

  /** The last of these names is out, the forms before it could not be opened again. */
  function LastNamed(c: Client, p: nat, names: seq<string>, user: string): Session
    requires names != []
  {
    var front, last := names[..|names| - 1], names[|names| - 1];
    Told(p, Named(last), c.forms.Keys - Elements(front) - {last}, Elements(front), user, NameLines(names), names)
  }

  lemma NamesTold(cfg: Config, w: World, p: nat, i: nat, names: seq<string>, user: string)
    requires p < |cfg.clients| && Ready(w, i, p) && Announceable(cfg.clients[p], names)
    requires 0 < |names| <= ROOM + 1
    ensures Reaches(cfg, With(w, i, Between(p, cfg.clients[p].forms.Keys, {}, user, "", 0), {}, []),
                    With(w, i, LastNamed(cfg.clients[p], p, names, user), {}, []))
  {
    var keys, front, last := cfg.clients[p].forms.Keys, names[..|names| - 1], names[|names| - 1];
    assert names == front + [last];
    AnnounceableFront(cfg.clients[p], front, last);
    hide Leads, Reaches, With, Fold, NameLines, Elements, Announceable, Between, Told;
    VainRun(cfg, w, p, i, front, user);
    NameTold(cfg, w, p, i, front, last, user);
    ReachesOn(cfg, With(w, i, Between(p, keys, {}, user, "", 0), {}, []),
              With(w, i, Told(p, Scan, keys - Elements(front), Elements(front), user, NameLines(front), front), {}, []),
              With(w, i, LastNamed(cfg.clients[p], p, names, user), {}, []));
  }

  /** The form announced last is opened again, and so many of its lines go out. */
  lemma FormTold(cfg: Config, w: World, p: nat, i: nat, names: seq<string>, user: string) returns (s: Session)
    requires p < |cfg.clients| && Ready(w, i, p) && FormFiles(cfg.clients[p].forms)
    requires Announceable(cfg.clients[p], names) && 0 < |names| <= ROOM
    requires Overfull(names, cfg.clients[p].forms[names[|names| - 1]])
    ensures Reaches(cfg, With(w, i, LastNamed(cfg.clients[p], p, names, user), {}, []), With(w, i, s, {}, []))
    ensures s.owner == p && s.up && s.diskOk && s.server == Talking(user, Undefined) && s.names == names
  {
    var c, n := cfg.clients[p], names[|names| - 1];
    var lines := c.forms[n];
    var front := names[..|names| - 1];
    var todo, missed := c.forms.Keys - Elements(front) - {n}, Elements(front);
    var k := FirstOverfull(names, lines);
    var s0, s1 := LastNamed(c, p, names, user), Told(p, Sending(n, 0), todo, missed, user, NameLines(names), names);
    s := Told(p, Sending(n, k), todo, missed, user, NameLines(names) + lines[..k], names);
    LinesArePlain(c, n);
    hide Leads, Reaches, With, Fold, NameLines, Elements, Between, FormFiles, StandardNames, GivenUp, PlainLine;
    ReopenMove(cfg, w, i, s0, n, true, {}, []);
    OverrunExactly(names, lines[..k]);
    hide Told, Announceable;
    LinesTold(cfg, w, p, i, names, n, lines, k, todo, missed, user);
    ReachesOn(cfg, With(w, i, s0, {}, []), With(w, i, s1, {}, []), With(w, i, s, {}, []));
  }

  /** More names than have room overrun the buffer by themselves. */
  lemma TooManyNames(c: Client, p: nat, names: seq<string>, user: string)
    requires StandardNames(names) && |names| == ROOM + 1
    ensures var s := LastNamed(c, p, names, user);
            s.owner == p && s.up && s.diskOk && s.server == Talking(user, Undefined) && s.names == names
  {
    FoldNames(names);
    hide Fold, StandardNames, NameLines, Elements;
  }

  lemma AnnounceablePrefix(c: Client, names: seq<string>, k: nat)
    requires Announceable(c, names) && k <= |names|
    ensures Announceable(c, names[..k])
  {
    hide GoodName;
  }

  /** And every overrun of the record buffer that names and lines can cause does come about: for any
      forms of an entitled client that together do not fit there is a run, with every file of the
      server working and no connection broken, in which all but the last cannot be opened again and
      the thread overruns the buffer. */
  lemma OverrunRun(cfg: Config, p: nat, names: seq<string>) returns (w: World)
    requires Sound(cfg) && p < |cfg.clients| && |cfg.clients[p].login| == 4 && Entitled(cfg, cfg.clients[p])
    requires Announceable(cfg.clients[p], names) && names != []
    requires Overfull(names, cfg.clients[p].forms[names[|names| - 1]])
    ensures Reachable(cfg, w) && |w.sessions| == 1 && w.sessions[0].owner == p
    ensures var s := w.sessions[0];
            s.up && s.diskOk && s.server.Talking? && s.server.mode.Undefined? && s.names <= names
  {
    hide Sound, Reachable, FormFiles, Entitled, Leads, Reaches, UserOfClient, With, Between, Idle, Init, Overfull,
      Announceable, LastNamed;
    var c := cfg.clients[p];
    var user := UserOfClient(c);
    StartsEmpty(cfg, p);
    var w1 := OpeningRun(cfg, Init(cfg), p);
    var w0 := With(w1, 0, Between(p, c.forms.Keys, {}, user, "", 0), {}, []);
    LeadsReaches(cfg, Init(cfg), w0);
    var taken := if |names| > ROOM then names[..ROOM + 1] else names;
    AnnounceablePrefix(c, names, |taken|);
    assert names[..|names|] == names;
    NamesTold(cfg, w1, p, 0, taken, user);
    var s := LastNamed(c, p, taken, user);
    if |names| > ROOM {
      AreStandard(c, taken);
      TooManyNames(c, p, taken, user);
    } else {
      s := FormTold(cfg, w1, p, 0, names, user);
      ReachesOn(cfg, w0, With(w1, 0, LastNamed(c, p, names, user), {}, []), With(w1, 0, s, {}, []));
    }
    w := With(w1, 0, s, {}, []);
    ReachesOn(cfg, Init(cfg), w0, w);
    LeadsReachably(cfg, Init(cfg), w);
    WithIs(w1, 0, s, {}, []);
  }

  lemma AreStandard(c: Client, names: seq<string>)
    requires Announceable(c, names)
    ensures StandardNames(names)
  {
  }
}
