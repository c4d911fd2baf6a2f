/** Every step of a server thread keeps the invariant of its session, and every put it makes is
    a whole form. */
module ProtocolServer {
  import opened Bytes
  import opened Streams
  import opened Records
  import opened Server
  import opened Framing
  import opened Protocol
  import opened ProtocolInvariant
  import opened ProtocolClient

  // ---------------------------------------------------------------------------------------
  // Replies
  // ---------------------------------------------------------------------------------------

  /** A reply written while none is under way. */
  lemma AnswerKeeps(s: Session, msg: string, ch: Chance, next: Thread, log: seq<Entry>, t: Session)
    requires Carried(s) && s.reply == "" && s.s2c == "" && s.seen == |s.msgs| && msg != "" && !s.server.Gone?
    requires s.up ==> Right(s, msg, log)
    requires t == Answer(s, msg, ch, next, Gone)
    ensures Carried(t) && Answered(t, log)
    ensures t == s.(server := t.server, s2c := t.s2c, reply := t.reply, up := t.up)
    ensures t.server == (if ch.writes then next else Gone) && t.reply == (if s.up then msg else "")
    ensures Live(t) ==> s.up
  {
    hide Carried, Right;
    assert "" + msg == msg && "" + msg[..Least(ch.part, |msg|)] == msg[..Least(ch.part, |msg|)];
    CarriedAs(s, t);
    if s.up { SameRight(s, t, msg, log); }
  }

  lemma SameRight(s: Session, t: Session, msg: string, log: seq<Entry>)
    requires Right(s, msg, log) && t.pc == s.pc && t.accepted == s.accepted && t.stored == s.stored
    requires t.owner == s.owner && t.names == s.names
    ensures Right(t, msg, log)
  {
    hide WholeLine;
  }

  lemma TailOf(ms: seq<string>, k: nat)
    requires k <= |ms|
    ensures k == |ms| ==> Flatten(ms[k..]) == ""
  {
    assert k == |ms| ==> ms[k..] == [];
    assert Flatten([]) == "";
  }

  /** Bytes off the wire mean there is an untaken message, hence no reply under way. */
  lemma SomethingCame(s: Session, log: seq<Entry>)
    requires Carried(s) && Answered(s, log) && s.c2s != ""
    ensures s.seen < |s.msgs| && s.reply == "" && s.s2c == ""
  {
    hide Right;
    TailOf(s.msgs, s.seen);
    hide Flatten;
  }

  // ---------------------------------------------------------------------------------------
  // Handshake
  // ---------------------------------------------------------------------------------------

  /** The thread ends without a word. */
  lemma GoneKeeps(cfg: Config, s: Session, log: seq<Entry>, t: Session)
    requires s.owner < |cfg.clients| && SessionInv(cfg, s, log)
    requires t == s.(server := Gone)
    ensures SessionInv(cfg, t, log)
  {
    hide Carried, Answered, InStep, Shaped, Admitted, GoodClient;
    LoginIs(cfg.clients[s.owner]);
    GoneWire(s, log, t);
    GoneShaped(cfg.clients[s.owner], s, t, log);
    GoneAdmitted(cfg, cfg.clients[s.owner], s, t);
  }

  lemma GoneWire(s: Session, log: seq<Entry>, t: Session)
    requires Carried(s) && Answered(s, log) && t == s.(server := Gone)
    ensures Carried(t) && Answered(t, log)
  {
    hide Flatten;
    if t.reply != "" { SameRight(s, t, s.reply, log); }
    hide Right;
  }

  lemma GoneShaped(c: Client, s: Session, t: Session, log: seq<Entry>)
    requires Shaped(c, s, log) && t == s.(server := Gone)
    ensures Shaped(c, t, log)
  {
    hide Exact, Placed;
    if t.reply != "" { SamePlace(c, s, t); }
  }

  lemma GoneAdmitted(cfg: Config, c: Client, s: Session, t: Session)
    requires |c.login| == 4 && Admitted(cfg, c, s) && t.server.Gone? && t.pc == s.pc && t.accepted == s.accepted
    ensures Admitted(cfg, c, t) && InStep(cfg, c, t) && Followed(t) && Settled(t)
  {
    hide Entitled;
  }

  /** A whole handshake request is what the client wrote. */
  lemma RequestTaken(s: Session, request: string, asks: Pc, waits: Pc, waited: Pc, n: nat)
    requires Carried(s) && Pending(s, request, asks, waits, waited) && |request| == n && 0 < n <= |s.c2s|
    ensures s.c2s == request && s.msgs == [request] && s.c2s[..n] == request
    ensures Drop(s, n) == s.(c2s := "", msgs := []) && (Live(s) ==> s.pc == waits)
    ensures Carried(Drop(s, n))
  {
    assert Flatten([request]) == request + Flatten([]) && Flatten([]) == "";
    TailOf(s.msgs, 0);
    assert [request][0..] == [request];
    hide Flatten;
    assert [request][1..] == [];
  }

  /** Who is still in the handshake. */
  lemma InHandshake(cfg: Config, c: Client, s: Session)
    requires |c.login| == 4 && InStep(cfg, c, s) && Admitted(cfg, c, s)
    requires s.server.WantMagic? || s.server.WantUser? || s.server.WantPass?
    ensures !s.accepted && (InLines(s.pc) ==> s.pc.Closed?)
  {
    hide Entitled, UserLine, PassLine, UserOfClient, Pending;
  }

  /** After a handshake request was taken and answered. */
  lemma StageShaped(c: Client, s: Session, t: Session, log: seq<Entry>)
    requires Shaped(c, s, log) && (InLines(s.pc) ==> s.pc.Closed?) && s.reply == ""
    requires t == s.(c2s := t.c2s, msgs := [], server := t.server, s2c := t.s2c, reply := t.reply, up := t.up,
        accepted := t.accepted)
    ensures Shaped(c, t, log)
  {
    hide Exact, NameLines, Logged;
  }

  /** What is left to show of an answered request: both sides are still in step. */
  lemma StageKeeps(cfg: Config, s: Session, n: nat, msg: string, ch: Chance, next: Thread, log: seq<Entry>, t: Session)
    requires s.owner < |cfg.clients| && GoodClient(cfg.clients[s.owner]) && |cfg.clients[s.owner].login| == 4
    requires SessionInv(cfg, s, log) && 0 < n <= |s.c2s| && msg != ""
    requires s.server.WantMagic? || s.server.WantUser? || s.server.WantPass?
    requires Carried(Drop(s, n)) && Drop(s, n) == s.(c2s := "", msgs := [])
    requires t == Answer(Drop(s, n).(accepted := t.accepted), msg, ch, next, Gone)
    requires s.seen == 0 && (s.up ==> Right(s.(accepted := t.accepted), msg, log))
    requires Admitted(cfg, cfg.clients[s.owner], t)
    requires GoesWith(cfg, cfg.clients[s.owner], Drop(s, n).(accepted := t.accepted), msg, next)
    requires next.Talking? ==> next.mode == Command("")
    ensures SessionInv(cfg, t, log) && t.owner == s.owner
  {
    var c := cfg.clients[s.owner];
    var u := Drop(s, n).(accepted := t.accepted);
    hide Carried, Answered, InStep, Shaped, Admitted, GoodClient, Right, Settled, Followed, Answer, GoesWith;
    LoginIs(c);
    SomethingCame(s, log);
    InHandshake(cfg, c, s);
    NextInStep(cfg, c, u, msg, ch, next, t);
    CarriedAs(Drop(s, n), u);
    if s.up { SameRight(s.(accepted := t.accepted), u, msg, log); }
    AnswerKeeps(u, msg, ch, next, log, t);
    StageShaped(c, s, t, log);
    StageSettled(t);
  }

  /** The next thread state goes with where the client waits. */
  predicate GoesWith(cfg: Config, c: Client, u: Session, msg: string, next: Thread)
    requires |c.login| == 4
  {
    match next
    case Gone => true
    case WantMagic => false
    case WantUser => !u.accepted && (u.up ==> u.pc == WaitMagic)
    case WantPass(v) => !u.accepted && (u.up ==> u.pc == WaitUser)
                        && v == UserOfClient(c) && v in cfg.accounts && v != "" && cfg.accounts[v].disabled != 1
    case Talking(v, m) => u.accepted && v == UserOfClient(c) && m.Command? && (u.up ==> u.pc == WaitPass && msg == OK)
  }

  lemma NextInStep(cfg: Config, c: Client, u: Session, msg: string, ch: Chance, next: Thread, t: Session)
    requires |c.login| == 4 && u.msgs == [] && u.seen == 0 && u.reply == "" && u.s2c == "" && msg != ""
    requires t == Answer(u, msg, ch, next, Gone) && GoesWith(cfg, c, u, msg, next)
    ensures InStep(cfg, c, t)
  {
    NextParts(u, msg, ch, next, t);
    hide UserLine, PassLine, UserOfClient, Messages, Answer;
    NoMessages();
  }

  lemma NextParts(u: Session, msg: string, ch: Chance, next: Thread, t: Session)
    requires u.reply == "" && u.s2c == "" && msg != "" && t == Answer(u, msg, ch, next, Gone)
    ensures t.server == next || t.server.Gone?
    ensures t.msgs == u.msgs && t.seen == u.seen && t.pc == u.pc && t.accepted == u.accepted
    ensures Live(t) ==> u.up && t.reply == msg
  {
    assert "" + msg == msg;
  }

  lemma NoMessages()
    ensures Messages([])
  {
  }

  lemma StageSettled(t: Session)
    requires t.server.Talking? ==> t.server.mode == Command("")
    requires InLines(t.pc) ==> t.pc.Closed?
    requires t.msgs == [] && t.seen == 0
    ensures Settled(t) && Followed(t)
  {
    NothingFolded(t);
    hide Fold;
  }

  lemma AnswerOwner(u: Session, msg: string, ch: Chance, next: Thread, t: Session)
    requires t == Answer(u, msg, ch, next, Gone)
    ensures t.accepted == u.accepted && t.pc == u.pc
  {
  }

  lemma MagicIs(cfg: Config, s: Session, ch: Chance, t: Session)
    requires TakesMagic(cfg, s, ch) == Some(t)
    ensures |s.c2s| < DIGEST ==> t == s.(server := Gone)
    ensures |s.c2s| >= DIGEST && s.c2s[..DIGEST] == cfg.magic ==> t == Answer(Drop(s, DIGEST), OK, ch, WantUser, Gone)
  {
    hide Answer;
  }

  lemma MagicKeeps(cfg: Config, s: Session, ch: Chance, log: seq<Entry>, t: Session)
    requires s.owner < |cfg.clients| && |cfg.magic| == DIGEST && SessionInv(cfg, s, log)
    requires s.server.WantMagic? && TakesMagic(cfg, s, ch) == Some(t)
    ensures SessionInv(cfg, t, log) && t.owner == s.owner
  {
    hide Carried, Answered, Shaped, Admitted, GoodClient, Settled, Followed, Answer, TakesMagic, Drop, Pending,
        Entitled;
    MagicIs(cfg, s, ch, t);
    if |s.c2s| < DIGEST {
      GoneKeeps(cfg, s, log, t);
    } else {
      var c := cfg.clients[s.owner];
      LoginIs(c);
      SomethingCame(s, log);
      RequestTaken(s, cfg.magic, SendMagic, WaitMagic, SendMagic, DIGEST);
      PendingSeen(s, cfg.magic, SendMagic, WaitMagic, SendMagic);
      AnswerOwner(Drop(s, DIGEST), OK, ch, WantUser, t);
      SameAdmitted(cfg, c, s, t);
      hide InStep;
      StageKeeps(cfg, s, DIGEST, OK, ch, WantUser, log, t);
    }
  }

  lemma PendingSeen(s: Session, request: string, asks: Pc, waits: Pc, waited: Pc)
    requires Pending(s, request, asks, waits, waited)
    ensures s.seen == 0
  {
  }

  lemma SameAdmitted(cfg: Config, c: Client, s: Session, t: Session)
    requires Admitted(cfg, c, s) && t.accepted == s.accepted && t.pc == s.pc
    ensures Admitted(cfg, c, t)
  {
    hide Entitled;
  }

  /** The reply to USER is always one line that the client can take whole. */
  lemma UserReplyIs(cfg: Config, ch: Chance, user: string)
    requires Sound(cfg)
    ensures var (reply, goOn) := UserReply(EnvAt(cfg, ch), user);
            && WholeLine(reply) && 4 <= |reply| < MAXLINE
            && (goOn ==> user in cfg.accounts && user != "" && cfg.accounts[user].disabled != 1)
  {
    ShortReply("301\n", '3', '0', '1');
    ShortReply("302\n", '3', '0', '2');
    if user in cfg.accounts {
      var a := cfg.accounts[user];
      JoinedReply("304 ", a.startText);
      JoinedReply("305 ", a.endText);
      assert LF !in a.startText[..|a.startText| - 1];
      JoinedReply("500 " + a.startText[..|a.startText| - 1] + " - ", a.endText);
    }
    hide WholeLine;
  }

  lemma ShortReply(r: string, a: char, b: char, c: char)
    requires r == [a, b, c, LF] && a != LF && b != LF && c != LF
    ensures WholeLine(r) && |r| == 4
  {
  }

  lemma JoinedReply(front: string, text: string)
    requires WholeLine(text) && LF !in front && 4 <= |front|
    ensures WholeLine(front + text) && |front + text| == |front| + |text|
  {
    var r := front + text;
    assert r[|r| - 1] == text[|text| - 1];
    forall i | 0 <= i < |r| - 1 ensures r[i] != LF {
      if i >= |front| { assert r[i] == text[i - |front|]; }
    }
  }

  lemma UserIs(cfg: Config, s: Session, ch: Chance, t: Session, field: string)
    requires TakesUser(cfg, s, ch) == Some(t) && |field| == 10 && StartsWith(field, "USER ")
    ensures |s.c2s| < 10 ==> t == s.(server := Gone)
    ensures |s.c2s| >= 10 && s.c2s[..10] == field ==>
              var user := UserOf(field, "");
              var (reply, goOn) := UserReply(EnvAt(cfg, ch), user);
              t == Answer(Drop(s, 10), reply, ch, if goOn then WantPass(user) else Gone, Gone)
  {
    hide Answer, UserReply, UserOf;
  }

  lemma UserKeeps(cfg: Config, s: Session, ch: Chance, log: seq<Entry>, t: Session)
    requires Sound(cfg) && s.owner < |cfg.clients| && SessionInv(cfg, s, log)
    requires s.server.WantUser? && TakesUser(cfg, s, ch) == Some(t)
    ensures SessionInv(cfg, t, log) && t.owner == s.owner
  {
    hide Carried, Answered, Shaped, Admitted, GoodClient, Settled, Followed, Answer, TakesUser, Drop, Pending, Entitled,
      WholeLine, UserReply, UserOf, UserLine, Sound, EnvAt;
    var c := cfg.clients[s.owner];
    LoginIs(c);
    UserLineIs(c);
    UserIs(cfg, s, ch, t, UserLine(c));
    if |s.c2s| < 10 {
      GoneKeeps(cfg, s, log, t);
    } else {
      var user := UserOfClient(c);
      var (reply, goOn) := UserReply(EnvAt(cfg, ch), user);
      UserReplyIs(cfg, ch, user);
      SomethingCame(s, log);
      RequestTaken(s, UserLine(c), SendUser, WaitUser, WaitMagic, 10);
      PendingSeen(s, UserLine(c), SendUser, WaitUser, WaitMagic);
      var next := if goOn then WantPass(user) else Gone;
      AnswerOwner(Drop(s, 10), reply, ch, next, t);
      SameAdmitted(cfg, c, s, t);
      hide InStep, UserOfClient;
      StageKeeps(cfg, s, 10, reply, ch, next, log, t);
    }
  }

  lemma UserLineIs(c: Client)
    requires |c.login| == 4
    ensures |UserLine(c)| == 10 && StartsWith(UserLine(c), "USER ")
  {
  }

  lemma PassIs(cfg: Config, s: Session, user: string, ch: Chance, t: Session, digest: string)
    requires user in cfg.accounts && |cfg.accounts[user].digest| == DIGEST && |digest| == DIGEST
    requires TakesPass(cfg, s, user, ch) == Some(t)
    ensures |s.c2s| < 25 ==> t == s.(server := Gone)
    ensures |s.c2s| >= 25 && s.c2s[..25] == "PASS " + digest ==>
              t == if cfg.accounts[user].digest == digest then
                     Answer(Drop(s, 25).(accepted := true), OK, ch, if ch.ready then Talking(user,
                         Command("")) else Gone, Gone)
                   else Answer(Drop(s, 25), "303\n", ch, Gone, Gone)
  {
    if |s.c2s| >= 25 && s.c2s[..25] == "PASS " + digest {
      assert s.c2s[5..25] == s.c2s[..25][5..] == digest;
    }
    hide Answer;
  }

  lemma PassKeeps(cfg: Config, s: Session, ch: Chance, log: seq<Entry>, t: Session)
    requires Sound(cfg) && s.owner < |cfg.clients| && SessionInv(cfg, s, log)
    requires s.server.WantPass? && TakesPass(cfg, s, s.server.user, ch) == Some(t)
    ensures SessionInv(cfg, t, log) && t.owner == s.owner
  {
    hide Carried, Answered, Shaped, Admitted, GoodClient, Settled, Followed, Answer, TakesPass, Drop, Pending,
      WholeLine, UserOf, UserLine, PassLine, Sound, EnvAt, UserOfClient;
    var c, user := cfg.clients[s.owner], s.server.user;
    LoginIs(c);
    PassLineIs(c);
    AccountDigest(cfg, user);
    PassIs(cfg, s, user, ch, t, c.digest);
    if |s.c2s| < 25 {
      GoneKeeps(cfg, s, log, t);
    } else {
      SomethingCame(s, log);
      RequestTaken(s, PassLine(c), SendPass, WaitPass, WaitUser, 25);
      PendingSeen(s, PassLine(c), SendPass, WaitPass, WaitUser);
      var yes := cfg.accounts[user].digest == c.digest;
      var u := Drop(s, 25).(accepted := yes);
      var msg := if yes then OK else "303\n";
      var next := if yes && ch.ready then Talking(user, Command("")) else Gone;
      AnswerOwner(u, msg, ch, next, t);
      NotYet(cfg, c, s);
      NowAdmitted(cfg, c, s, t);
      hide InStep, Entitled;
      StageKeeps(cfg, s, 25, msg, ch, next, log, t);
    }
  }

  lemma NotYet(cfg: Config, c: Client, s: Session)
    requires |c.login| == 4 && InStep(cfg, c, s) && Admitted(cfg, c, s) && s.server.WantPass?
    ensures !s.accepted && (InLines(s.pc) ==> s.pc.Closed?)
  {
    InHandshake(cfg, c, s);
  }

  lemma NowAdmitted(cfg: Config, c: Client, s: Session, t: Session)
    requires Admitted(cfg, c, s) && t.pc == s.pc && (InLines(s.pc) ==> s.pc.Closed?)
    requires t.accepted ==> Entitled(cfg, c)
    ensures Admitted(cfg, c, t)
  {
    hide Entitled;
  }

  lemma PassLineIs(c: Client)
    requires |c.digest| == DIGEST
    ensures |PassLine(c)| == 25 && PassLine(c) == "PASS " + c.digest
  {
  }

  lemma AccountDigest(cfg: Config, user: string)
    requires Sound(cfg) && user in cfg.accounts
    ensures |cfg.accounts[user].digest| == DIGEST
  {
  }

  // ---------------------------------------------------------------------------------------
  // One line
  // ---------------------------------------------------------------------------------------

  lemma MessageIs(m: string)
    requires Message(m)
    ensures WholeLine(m) && |m| < MAXLINE && NulFree(m) && (m != DOT ==> !StartsWith(m, DOT))
  {
    if IsName(m) {
      NameLineIs(NameIn(m));
      assert NameLine(NameIn(m))[0] == 'F' && DOT[0] == '.';
    } else if m == DOT || m == QUIT {
      assert DOT[0] == '.' && DOT[1] == LF && QUIT[0] == 'Q' && QUIT[1] == 'U' && QUIT[2] == 'I' && QUIT[3] == 'T'
          && QUIT[4] == LF;
    }
  }

  lemma NameLineName(name: string)
    requires GoodName(name)
    ensures IsName(NameLine(name)) && NameIn(NameLine(name)) == name && !PlainLine(NameLine(name))
    ensures NameLine(name) != DOT && NameLine(name) != QUIT
  {
    NotADot(name);
    assert FILENAME <= NameLine(name);
    assert NameIn(NameLine(name)) == name;
  }

  /** The message opened the body, or went into the open one. */
  predicate TakenIn(m: Mode, msg: string, m': Mode) {
    || (m.Command? && IsName(msg) && m' == Body(NameIn(msg), "", ""))
    || (m.Body? && m' == Body(m.name, m.text + msg, m.record + (msg + [NUL])))
  }

  /** What the server makes of a whole message of the client, whatever its files do. */
  lemma TurnIs(m: Mode, msg: string, luck: Luck)
    requires Listening(m) && Message(msg)
    ensures var turn := OnLine(m, msg, luck);
            if msg == DOT && m.Body? then
              turn == Turn(Command(m.name), OK, [Put(m.name, m.text, KeyOf(m.name), m.record)])
            else
              && turn.reply == "" && (|turn.effects| == 1 ==> !turn.effects[0].Put?)
              && (turn.mode.Stopped? || turn.mode.Undefined? || Listening(turn.mode))
              && (msg == DOT ==> turn.mode.Stopped?)
              && (turn.mode.Body? ==>
                    && |turn.mode.record| <= MAXINFOSIZE
                    && TakenIn(m, msg, turn.mode))
  {
    if msg == DOT {
      DotLine(m, luck);
      hide OnBody, OnCommand;
    } else if msg == QUIT {
      QuitLine(m, luck);
      hide OnBody, OnCommand;
    } else if m.Command? {
      TurnFromCommand(m.name, msg, luck);
      hide OnCommand;
    } else {
      TurnFromBody(m.name, m.text, m.record, msg, luck);
      hide OnBody;
    }
    hide IsName, PlainLine;
  }

  lemma TurnFromCommand(prev: string, msg: string, luck: Luck)
    requires Message(msg) && msg != DOT && msg != QUIT
    ensures OnCommand(prev, msg, luck)
         == if IsName(msg) && luck.opens then Turn(Body(NameIn(msg), "", ""), "", [Created(NameIn(msg))])
            else Turn(Stopped, "", [])
  {
    hide OnCommand, GoodName, PlainLine, NameLine;
    if IsName(msg) { CommandOpens(prev, NameIn(msg), luck); } else { CommandRefusesLine(prev, msg, luck); }
  }

  lemma TurnFromBody(name: string, text: string, record: string, msg: string, luck: Luck)
    requires Message(msg) && msg != DOT && msg != QUIT && |name| >= 4
    ensures OnBody(name, text, record, msg, luck)
         == if !luck.writes then Turn(Command(name), "", [Left(name, text)])
            else if |record| >= MAXINFOSIZE then Turn(Command(name), "", [Left(name, text + msg)])
            else if |record| + |msg| + 1 > MAXINFOSIZE then Turn(Undefined, "", [])
            else Turn(Body(name, text + msg, record + (msg + [NUL])), "", [])
  {
    hide OnBody, GoodName, PlainLine, NameLine;
    if IsName(msg) { BodySwallowsName(name, text, record, NameIn(msg), luck); } else { BodyTakesLine(name, text,
        record, msg, luck); }
  }

  /** A message cut off by a broken connection puts nothing. */
  lemma CutTurn(m: Mode, part: string, msg: string, luck: Luck)
    requires Listening(m) && Message(msg) && part < msg
    ensures var turn := OnLine(m, part, luck); |turn.effects| == 1 ==> !turn.effects[0].Put?
  {
    MessageIs(msg);
    CStrExact(part, "") by { assert forall c :: c in part ==> c in msg; }
    assert part + "" == part;
    hide CStr, Until, WholeLine, Message;
    assert DOT <= part ==> DOT <= msg;
  }

  /** The front of the wire is the next message, whole or cut off. */
  lemma FrontOfWire(s: Session)
    requires Carried(s) && s.c2s != ""
    ensures s.seen < |s.msgs|
    ensures var m := s.msgs[s.seen];
            if m <= s.c2s then
              && s.c2s[|m|..] <= Flatten(s.msgs[s.seen + 1..])
              && (Live(s) ==> s.c2s[|m|..] == Flatten(s.msgs[s.seen + 1..]))
            else s.c2s < m && !Live(s)
  {
    TailOf(s.msgs, s.seen);
    var m, more := s.msgs[s.seen], s.msgs[s.seen + 1..];
    assert s.msgs[s.seen..] == [m] + more;
    assert Flatten(s.msgs[s.seen..]) == m + Flatten(more);
    hide Flatten;
    SplitFront(s.c2s, m, Flatten(more));
  }

  lemma SplitFront(w: string, m: string, rest: string)
    requires w <= m + rest
    ensures if m <= w then w[|m|..] <= rest && (w == m + rest ==> w[|m|..] == rest) else w < m
  {
    if |m| <= |w| {
      assert w[..|m|] == (m + rest)[..|m|] == m;
      assert w[|m|..] == (m + rest)[|m|..|w|];
    } else {
      assert w == (m + rest)[..|w|] == m[..|w|];
    }
  }

  /** What one readline of the server comes back with. */
  lemma LineOffWire(c2s: string, closed: bool, e: Ending, m: string)
    requires WholeLine(m) && |m| < MAXLINE
    ensures m <= c2s ==> Avail(c2s, closed, e, MAXLINE) == Some(Got(m))
    ensures c2s < m ==> var r := Avail(c2s, closed, e, MAXLINE); r.Some? && r.value.Got? ==> r.value.text == c2s
  {
    if m <= c2s {
      assert c2s == m + c2s[|m|..];
      LinePrefixOfWhole(m, c2s[|m|..], MAXLINE - 1);
    } else if c2s < m {
      LinePrefixOfCut(c2s, m, MAXLINE - 1);
    }
  }

  /** A whole message taken that makes no put. */
  lemma TakenKeeps(cfg: Config, s: Session, user: string, m: Mode, m': Mode, log: seq<Entry>, t: Session)
    requires s.owner < |cfg.clients| && SessionInv(cfg, s, log) && s.server == Talking(user, m) && Listening(m)
    requires s.c2s != "" && s.seen < |s.msgs| && s.msgs[s.seen] <= s.c2s
    requires t == s.(c2s := s.c2s[|s.msgs[s.seen]|..], seen := s.seen + 1,
        base := if m.Command? then s.seen else s.base,
                     diskOk := t.diskOk, server := ThreadOf(user, m'))
    requires var msg := s.msgs[s.seen];
             && !(msg == DOT && m.Body?)
             && (m'.Stopped? || m'.Undefined? || Listening(m')) && (msg == DOT ==> m'.Stopped?)
             && (m'.Body? ==> |m'.record| <= MAXINFOSIZE && TakenIn(m, msg, m'))
    requires m'.Stopped? || Regular(t, m')
    ensures SessionInv(cfg, t, log) && t.owner == s.owner
  {
    var c := cfg.clients[s.owner];
    hide Answered, Shaped, Admitted, GoodClient, IsName, NameIn, Listening, Flatten, Pack, Tracks, InStep, Settled,
        Carried, Regular;
    LoginIs(c);
    SomethingCame(s, log);
    FrontOfWire(s);
    TakenCarried(s, t);
    NoReplyUnderWay(s, t, log);
    TakenTracks(s, m, m', t);
    TakenInStep(cfg, c, s, user, m, t);
    TakenShaped(c, s, t, log);
    SameAdmitted(cfg, c, s, t);
    TakenSettled(c, s, m, m', t, log);
  }

  lemma TakenCarried(s: Session, t: Session)
    requires s.seen < |s.msgs| && t.msgs == s.msgs && t.seen == s.seen + 1 && t.c2s <= Flatten(s.msgs[s.seen + 1..])
    requires Live(t) ==> t.c2s == Flatten(s.msgs[s.seen + 1..])
    ensures Carried(t)
  {
    hide Flatten;
  }

  lemma TakenTracks(s: Session, m: Mode, m': Mode, t: Session)
    requires s.c2s != "" && s.seen < |s.msgs| && s.server.Talking? && s.server.mode == m && Followed(s)
    requires t.msgs == s.msgs && t.seen == s.seen + 1 && t.base == if m.Command? then s.seen else s.base
    requires t.server.Talking? ==> t.server.mode == m' && Regular(t, m') && (m'.Undefined? || Listening(m'))
    requires Listening(m)
    requires m'.Body? ==> |m'.record| <= MAXINFOSIZE && TakenIn(m, s.msgs[s.seen], m')
    ensures Followed(t)
  {
    hide IsName, NameIn, Listening, Fold, Regular;
    if m'.Body? && m.Command? {
      assert t.msgs[t.base + 1..t.seen] == [] && Flatten([]) == "" && Pack([]) == "";
    } else if m'.Body? {
      var msg := s.msgs[s.seen];
      assert Tracks(s, m);
      assert s.msgs[s.base + 1..s.seen + 1] == s.msgs[s.base + 1..s.seen] + [msg];
      FlattenSnoc(s.msgs[s.base + 1..s.seen], msg);
      PackSnoc(s.msgs[s.base + 1..s.seen], msg);
    }
    hide Flatten, Pack;
  }

  lemma TakenInStep(cfg: Config, c: Client, s: Session, user: string, m: Mode, t: Session)
    requires |c.login| == 4 && InStep(cfg, c, s) && s.server == Talking(user, m) && s.msgs != []
    requires t.server.Gone? || (t.server.Talking? && t.server.user == user)
    requires t.msgs == s.msgs && t.accepted == s.accepted && t.pc == s.pc && t.up == s.up
    ensures InStep(cfg, c, t)
  {
    hide UserOfClient, Messages;
  }

  lemma TakenShaped(c: Client, s: Session, t: Session, log: seq<Entry>)
    requires Shaped(c, s, log) && s.reply == "" && s.seen < |s.msgs| && !s.server.Gone?
    requires t == s.(c2s := t.c2s, seen := t.seen, base := t.base, diskOk := t.diskOk, server := t.server)
    ensures Shaped(c, t, log)
  {
    hide Exact, Logged, Placed;
    if Live(t) { SamePlace(c, s, t); }
  }

  lemma TakenSettled(c: Client, s: Session, m: Mode, m': Mode, t: Session, log: seq<Entry>)
    requires Shaped(c, s, log) && s.reply == "" && s.seen < |s.msgs| && !s.server.Gone?
    requires t.reply == "" && t.pc == s.pc && t.up == s.up && t.msgs == s.msgs && t.seen == s.seen + 1
    requires t.server.Gone? || (t.server.Talking? && t.server.mode == m' && !m'.Stopped?)
    requires s.msgs[s.seen] == DOT ==> m'.Stopped?
    ensures Settled(t)
  {
    hide NameLines, Logged;
    assert Live(s) && s.pc.WaitAck? ==> Exact(c, s.names, s.msgs);
    assert Live(s) && s.pc.WaitAck? && s.seen + 1 == |s.msgs| ==> s.msgs[s.seen] == DOT;
  }

  lemma PartStarves(s: Session, t: Session)
    requires Carried(s) && s.seen < |s.msgs| && !t.up && t.c2s == "" && t.msgs == s.msgs && t.seen == s.seen + 1
    ensures Carried(t) && Followed(t) && Settled(t)
  {
    hide Flatten, Listening, Tracks;
  }

  /** What is left of a message when the connection broke inside it. */
  lemma PartKeeps(cfg: Config, s: Session, user: string, m: Mode, log: seq<Entry>, t: Session)
    requires s.owner < |cfg.clients| && SessionInv(cfg, s, log) && s.server == Talking(user, m)
    requires s.c2s != "" && s.seen < |s.msgs| && !s.up
    requires t == s.(c2s := "", seen := s.seen + 1, base := t.base, diskOk := t.diskOk, server := t.server)
    requires t.server.Gone? || (t.server.Talking? && t.server.user == user)
    ensures SessionInv(cfg, t, log) && t.owner == s.owner
  {
    var c := cfg.clients[s.owner];
    hide Answered, Shaped, Admitted, GoodClient, InStep, Settled, Followed, Carried;
    LoginIs(c);
    SomethingCame(s, log);
    NoReplyUnderWay(s, t, log);
    PartStarves(s, t);
    TakenInStep(cfg, c, s, user, m, t);
    TakenShaped(c, s, t, log);
    SameAdmitted(cfg, c, s, t);
  }

  // ---------------------------------------------------------------------------------------
  // A put
  // ---------------------------------------------------------------------------------------

  /** The messages of a whole form, one by one. */
  lemma ExactAt(c: Client, names: seq<string>, msgs: seq<string>, k: nat)
    requires FormFiles(c.forms) && Exact(c, names, msgs) && k < |msgs|
    ensures |msgs| == |names| + |LinesOf(c, names[|names| - 1])| + 1
    ensures k < |names| ==> msgs[k] == NameLine(names[k])
    ensures |names| <= k < |msgs| - 1 ==> PlainLine(msgs[k])
    ensures k == |msgs| - 1 ==> msgs[k] == DOT
  {
    hide NameLine, PlainLine, FormFiles, NameLines;
    var name := names[|names| - 1];
    if |names| <= k < |msgs| - 1 {
      FormLinePlain(c, name, k - |names|);
      assert msgs[k] == c.forms[name][k - |names|];
    }
  }

  lemma FormLinePlain(c: Client, name: string, i: nat)
    requires FormFiles(c.forms) && name in c.forms && i < |c.forms[name]|
    ensures PlainLine(c.forms[name][i])
  {
    hide PlainLine;
  }

  lemma PlainIsNotDot(line: string)
    requires PlainLine(line)
    ensures line != DOT && !IsName(line)
  {
    if IsName(line) { NameLineName(NameIn(line)); }
  }

  /** Where the dot and the names stand in a whole form. */
  lemma ExactParts(c: Client, names: seq<string>, msgs: seq<string>, base: nat, seen: nat)
    requires FormFiles(c.forms) && Exact(c, names, msgs) && base < seen < |msgs|
    requires msgs[seen] == DOT && IsName(msgs[base]) && forall k :: 0 <= k < |names| ==> names[k] in c.forms
    ensures seen == |msgs| - 1 && base < |names| && NameIn(msgs[base]) == names[base]
    ensures msgs[base + 1..seen] == NameLines(names[base + 1..]) + LinesOf(c, names[|names| - 1])
  {
    hide FormFiles, IsName, NameLine, Exact, PlainLine, NameLines, GoodName, NameIn, LinesOf;
    forall k | 0 <= k < |msgs|
      ensures k < |names| ==> |msgs[k]| >= 10 && NameIn(msgs[k]) == names[k]
      ensures k < |msgs| - 1 ==> msgs[k] != DOT && (k >= |names| ==> !IsName(msgs[k]))
    {
      ExactAt(c, names, msgs, k);
      if k < |names| {
        GoodNameIn(c, names[k]);
        NameLineName(names[k]);
      } else if k < |msgs| - 1 {
        PlainIsNotDot(msgs[k]);
      }
    }
    ExactAt(c, names, msgs, seen);
    assert base < |names|;
    ExactSlice(c, names, msgs, base);
  }

  lemma GoodNameIn(c: Client, name: string)
    requires FormFiles(c.forms) && name in c.forms
    ensures GoodName(name) && |name| >= 4
  {
  }

  lemma ExactSlice(c: Client, names: seq<string>, msgs: seq<string>, base: nat)
    requires Exact(c, names, msgs)
    ensures base < |names| ==>
              msgs[base + 1..|msgs| - 1] == NameLines(names[base + 1..]) + LinesOf(c, names[|names| - 1])
  {
    hide NameLine;
  }

  /** The put made at a dot is a whole form under the name that opened the body. */
  lemma PutIsGood(cfg: Config, c: Client, s: Session, name: string, text: string, record: string, e: Entry)
    requires s.owner < |cfg.clients| && c == cfg.clients[s.owner] && GoodClient(c) && |c.login| == 4
    requires FormFiles(c.forms) && Entitled(cfg, c) && Exact(c, s.names, s.msgs) && e.college == CollegeNumber(c)
    requires forall k :: 0 <= k < |s.names| ==> s.names[k] in c.forms
    requires s.seen < |s.msgs| && s.msgs[s.seen] == DOT && |name| >= 4 && Tracks(s, Body(name, text, record))
    requires Regular(s, Body(name, text, record)) && (e.diskOk ==> s.diskOk)
    requires e == Entry(s.owner, e.college, KeyOf(name), record, text, s.names, e.diskOk)
    ensures GoodEntry(cfg, e)
  {
    hide FormFiles, IsName, NameIn, Exact, Entitled, CollegeNumber, Flatten, Pack, NameLines, GoodClient, LinesOf,
        KeyOf, Fold,
      PutRegularly;
    ExactNames(c, s);
    PutIsRegular(c, s, name, text, record, e);
    hide Regular;
    forall k | 0 <= k < |e.names| ensures |e.names[k]| >= 4 { GoodNameIn(c, e.names[k]); }
    PutIsFrom(c, s, name, text, record, e);
    hide Tracks, PutFrom;
  }

  lemma PutIsRegular(c: Client, s: Session, name: string, text: string, record: string, e: Entry)
    requires FormFiles(c.forms) && Exact(c, s.names, s.msgs)
    requires forall k :: 0 <= k < |s.names| ==> s.names[k] in c.forms
    requires s.seen < |s.msgs| && s.msgs[s.seen] == DOT && |name| >= 4 && Tracks(s, Body(name, text, record))
    requires Regular(s, Body(name, text, record)) && (e.diskOk ==> s.diskOk)
    requires e == Entry(s.owner, e.college, KeyOf(name), record, text, s.names, e.diskOk)
    ensures e.diskOk ==> PutRegularly(c, e)
  {
    hide FormFiles, IsName, NameIn, Exact, Flatten, Pack, NameLines, LinesOf, KeyOf, Fold, Tracks;
    TracksName(s, Body(name, text, record));
    ExactParts(c, s.names, s.msgs, s.base, s.seen);
    ExactFront(c, s.names, s.msgs);
    NamesThere(c, s.names, s.msgs);
  }

  lemma TracksName(s: Session, m: Mode)
    requires m.Body? && Tracks(s, m)
    ensures s.base < s.seen <= |s.msgs| && IsName(s.msgs[s.base])
  {
    hide IsName, NameIn, Flatten, Pack;
  }

  lemma NamesThere(c: Client, names: seq<string>, msgs: seq<string>)
    requires Exact(c, names, msgs)
    ensures names != [] && msgs != []
  {
    hide NameLines;
  }

  lemma ExactFront(c: Client, names: seq<string>, msgs: seq<string>)
    requires Exact(c, names, msgs)
    ensures msgs[..|msgs| - 1] == NameLines(names) + LinesOf(c, names[|names| - 1])
  {
    hide NameLines;
  }

  lemma PutIsFrom(c: Client, s: Session, name: string, text: string, record: string, e: Entry)
    requires FormFiles(c.forms) && Exact(c, s.names, s.msgs)
    requires forall k :: 0 <= k < |s.names| ==> s.names[k] in c.forms
    requires s.seen < |s.msgs| && s.msgs[s.seen] == DOT && |name| >= 4 && Tracks(s, Body(name, text, record))
    requires e == Entry(s.owner, e.college, KeyOf(name), record, text, s.names, e.diskOk)
    ensures s.base < |e.names| && |e.names[s.base]| >= 4 && PutFrom(c, e, s.base)
  {
    hide FormFiles, IsName, NameIn, Exact, Flatten, Pack, NameLines, LinesOf, KeyOf;
    ExactParts(c, s.names, s.msgs, s.base, s.seen);
  }

  /** A dot that ends a body: the put, and the acknowledgement. */
  lemma PutKeeps(cfg: Config, s: Session, user: string, name: string, text: string, record: string,
                 ch: Chance, log: seq<Entry>, e: Entry, s1: Session, t: Session)
    requires s.owner < |cfg.clients| && SessionInv(cfg, s, log) && s.server == Talking(user, Body(name, text, record))
    requires s.c2s != "" && s.seen < |s.msgs| && s.msgs[s.seen] == DOT && DOT <= s.c2s && |name| >= 4
    requires e == Entry(s.owner, Strtol(user), KeyOf(name), record, text, s.names, e.diskOk)
    requires s1 == s.(c2s := s.c2s[|DOT|..], seen := s.seen + 1, stored := Some(|log|), diskOk := e.diskOk)
    requires t == Answer(s1, OK, ch, Talking(user, Command(name)), Gone) && (e.diskOk ==> s.diskOk)
    ensures SessionInv(cfg, t, log + [e]) && GoodEntry(cfg, e) && t.owner == s.owner
  {
    hide Answered, Shaped, Admitted, GoodClient, InStep, Settled, Carried, Answer, Right, Tracks, Entitled, Placed,
      Followed, Exact, Flatten, Pack, KeyOf, FormFiles, GoodEntry, Starved, CollegeNumber, Strtol, Regular, Fold;
    var c := cfg.clients[s.owner];
    LoginIs(c);
    SomethingCame(s, log);
    PutPlace(cfg, c, s, user, name, text, record, log);
    CollegeIs(c, user);
    PutIsGood(cfg, c, s, name, text, record, e);
    DotFolds(s, name, text, record, e.diskOk);
    PutWire(s, s1, log, e);
    AnswerKeeps(s1, OK, ch, Talking(user, Command(name)), log + [e], t);
    PutInStep(cfg, c, s, user, t);
    PutShaped(c, s, t, log, e);
    SameAdmitted(cfg, c, s, t);
    PutSettled(s, name, t);
  }

  /** The dot leads from the body back to the command loop. */
  lemma DotFolds(s: Session, name: string, text: string, record: string, diskOk: bool)
    requires s.seen < |s.msgs| && s.msgs[s.seen] == DOT && |name| >= 4
    requires Regular(s, Body(name, text, record)) && (diskOk ==> s.diskOk)
    ensures diskOk ==> Fold(s.msgs[..s.seen + 1]).Command?
  {
    if diskOk {
      FoldStep(s.msgs, s.seen);
      DotLine(Fold(s.msgs[..s.seen]), GOOD_LUCK);
      hide Fold, OnLine;
    }
  }

  lemma FoldStep(ms: seq<string>, k: nat)
    requires k < |ms|
    ensures var m := Fold(ms[..k]); Fold(ms[..k + 1]) == if Listening(m) then OnLine(m, ms[k], GOOD_LUCK).mode else m
  {
    var all := ms[..k + 1];
    assert all[..|all| - 1] == ms[..k] && all[|all| - 1] == ms[k];
    hide OnLine, Listening;
  }

  lemma CollegeIs(c: Client, user: string)
    requires |c.login| == 4 && user == UserOfClient(c)
    ensures Strtol(user) == CollegeNumber(c)
  {
  }

  lemma PutWire(s: Session, s1: Session, log: seq<Entry>, e: Entry)
    requires Carried(s) && s.c2s != "" && s.seen < |s.msgs| && s.msgs[s.seen] == DOT && DOT <= s.c2s
    requires s1 == s.(c2s := s.c2s[|DOT|..], seen := s.seen + 1, stored := Some(|log|), diskOk := e.diskOk)
    requires e.client == s.owner && e.names == s.names && (s.up ==> s.pc.WaitAck?) && s.server.Talking?
    ensures Carried(s1) && (s.up ==> Right(s1, OK, log + [e]))
  {
    FrontOfWire(s);
    TakenCarried(s, s1);
    if s.up { PutRight(s, s1, log + [e], e); }
    hide Carried, Right;
  }

  /** Where the client stands when the server takes the dot. */
  lemma PutPlace(cfg: Config, c: Client, s: Session, user: string, name: string, text: string, record: string,
                 log: seq<Entry>)
    requires |c.login| == 4 && FormFiles(c.forms) && s.server == Talking(user, Body(name, text, record))
        && s.reply == ""
    requires InStep(cfg, c, s) && Shaped(c, s, log) && Admitted(cfg, c, s) && Followed(s)
    requires s.c2s != "" && s.seen < |s.msgs| && s.msgs[s.seen] == DOT
    ensures Exact(c, s.names, s.msgs) && Entitled(cfg, c) && user == UserOfClient(c)
    ensures Tracks(s, Body(name, text, record)) && s.seen == |s.msgs| - 1 && Regular(s, Body(name, text, record))
    ensures (forall k :: 0 <= k < |s.names| ==> s.names[k] in c.forms) && s.accepted
    ensures s.up ==> s.pc.WaitAck?
    ensures !s.pc.Marking?
  {
    var m := Body(name, text, record);
    hide Entitled, UserOfClient, Messages, Logged, FormFiles, IsName, NameIn, Flatten, Pack, Fold;
    assert DOT in s.msgs;
    if s.pc.Sending? && s.up { BodyHasNoDot(c, s.names, s.pc.name, s.pc.done); }
    assert Tracks(s, m);
    ExactParts(c, s.names, s.msgs, s.base, s.seen);
  }

  lemma PutRight(s: Session, s1: Session, log': seq<Entry>, e: Entry)
    requires s.pc.WaitAck? && e.client == s.owner && e.names == s.names && |log'| > 0 && log'[|log'| - 1] == e
    requires s1.pc == s.pc && s1.owner == s.owner && s1.names == s.names && s1.stored == Some(|log'| - 1)
    ensures Right(s1, OK, log')
  {
  }

  lemma PutInStep(cfg: Config, c: Client, s: Session, user: string, t: Session)
    requires |c.login| == 4 && InStep(cfg, c, s) && s.server.Talking? && s.server.user == user && s.msgs != []
    requires t.server.Gone? || (t.server.Talking? && t.server.user == user)
    requires t.msgs == s.msgs && t.accepted == s.accepted && t.pc == s.pc && (Live(t) ==> s.up)
    ensures InStep(cfg, c, t)
  {
    hide UserOfClient, Messages;
  }

  lemma PutShaped(c: Client, s: Session, t: Session, log: seq<Entry>, e: Entry)
    requires Shaped(c, s, log) && Exact(c, s.names, s.msgs) && !s.pc.Marking? && s.reply == "" && !s.server.Gone?
    requires t == s.(c2s := t.c2s, seen := t.seen, stored := t.stored, diskOk := t.diskOk,
                     server := t.server, s2c := t.s2c, reply := t.reply, up := t.up)
    requires t.reply == (if s.up then OK else "") && (Live(t) ==> s.up)
    ensures Shaped(c, t, log + [e])
  {
    hide Exact, Logged, Placed;
    if s.up { SamePlace(c, s, t); }
  }

  lemma PutSettled(s: Session, name: string, t: Session)
    requires Live(t) ==> t.reply == OK
    requires t.server.Gone? || (t.server.Talking? && t.server.mode == Command(name))
    requires s.seen < |s.msgs| && t.msgs == s.msgs && t.seen == s.seen + 1
    requires t.diskOk ==> Fold(s.msgs[..s.seen + 1]).Command?
    ensures Settled(t) && Followed(t)
  {
    hide Fold;
  }

  // ---------------------------------------------------------------------------------------
  // Every step
  // ---------------------------------------------------------------------------------------

  function Grown(log: seq<Entry>, entry: Option<Entry>): seq<Entry> {
    log + if entry.Some? then [entry.value] else []
  }

  lemma SameLog(log: seq<Entry>)
    ensures Grown(log, None) == log
  {
  }

  /** A line without a reply and without a put. */
  lemma TakesQuietly(s: Session, user: string, m: Mode, at: nat, ch: Chance, d: Served, text: string)
    requires Listening(m) && TakesLine(s, user, m, at, ch) == Some(d) && |text| <= |s.c2s|
    requires Avail(s.c2s, ClosedToServer(s), ch.ending, MAXLINE) == Some(Got(text))
    requires var turn := OnLine(m, text, ch.luck);
             turn.reply == "" && (|turn.effects| == 1 ==> !turn.effects[0].Put?)
    ensures d.entry.None?
    ensures d.s == s.(c2s := s.c2s[|text|..], seen := s.seen + 1, base := if m.Command? then s.seen else s.base,
                      diskOk := s.diskOk && ch.luck.opens && ch.luck.writes,
                      server := ThreadOf(user, OnLine(m, text, ch.luck).mode))
  {
    hide OnLine, Avail, Listening;
  }

  lemma TakesDot(s: Session, user: string, name: string, text: string, record: string, at: nat, ch: Chance, d: Served)
    requires |name| >= 4 && TakesLine(s, user, Body(name, text, record), at, ch) == Some(d) && |DOT| <= |s.c2s|
    requires Avail(s.c2s, ClosedToServer(s), ch.ending, MAXLINE) == Some(Got(DOT))
    requires OnLine(Body(name, text, record), DOT, ch.luck) == Turn(Command(name), OK, [Put(name, text, KeyOf(name),
        record)])
    ensures var e := Entry(s.owner, Strtol(user), KeyOf(name), record, text, s.names,
                           s.diskOk && ch.luck.opens && ch.luck.writes);
            && d.entry == Some(e)
            && d.s == Answer(s.(c2s := s.c2s[|DOT|..], seen := s.seen + 1, stored := Some(at), diskOk := e.diskOk),
                             OK, ch, Talking(user, Command(name)), Gone)
  {
    hide OnLine, Avail, Answer, Strtol, KeyOf;
  }

  lemma TakesPart(s: Session, user: string, m: Mode, at: nat, ch: Chance, d: Served, t: Taken)
    requires Listening(m) && TakesLine(s, user, m, at, ch) == Some(d) && !s.up
    requires Avail(s.c2s, ClosedToServer(s), ch.ending, MAXLINE) == Some(t) && (t.Got? ==> t.text == s.c2s)
    requires t.Got? ==> var turn := OnLine(m, t.text, ch.luck); |turn.effects| == 1 ==> !turn.effects[0].Put?
    ensures d.entry.None?
    ensures d.s == s.(server := Gone)
            || (d.s == s.(c2s := "", seen := s.seen + 1, base := d.s.base, diskOk := d.s.diskOk, server := d.s.server)
                && (d.s.server.Gone? || (d.s.server.Talking? && d.s.server.user == user)))
  {
    hide OnLine, Avail, Listening, Heard;
    if t.Got? { HeardAll(s, m, s.stored, s.diskOk && ch.luck.opens && ch.luck.writes); }
  }

  lemma HeardAll(s: Session, m: Mode, stored: Option<nat>, diskOk: bool)
    requires stored == s.stored
    ensures var t := Heard(s, m, s.c2s, stored, diskOk);
            t == s.(c2s := "", seen := s.seen + 1, base := t.base, diskOk := t.diskOk)
  {
  }


  lemma EmptyWire(closed: bool, e: Ending)
    ensures var r := Avail("", closed, e, MAXLINE); r.Some? ==> closed && !r.value.Got?
  {
    assert LinePrefix("", MAXLINE - 1) == "";
  }

  lemma EmptyKeeps(cfg: Config, s: Session, user: string, m: Mode, ch: Chance, log: seq<Entry>, d: Served)
    requires s.owner < |cfg.clients| && SessionInv(cfg, s, log) && s.server == Talking(user, m) && Listening(m)
    requires TakesLine(s, user, m, |log|, ch) == Some(d) && s.c2s == ""
    ensures d.entry.None? && SessionInv(cfg, d.s, log) && d.s.owner == s.owner
  {
    hide SessionInv, Avail, OnLine, Listening, Answer;
    EmptyWire(ClosedToServer(s), ch.ending);
    GoneKeeps(cfg, s, log, s.(server := Gone));
  }

  lemma CutKeeps(cfg: Config, s: Session, user: string, m: Mode, ch: Chance, log: seq<Entry>, d: Served)
    requires s.owner < |cfg.clients| && SessionInv(cfg, s, log) && s.server == Talking(user, m) && Listening(m)
    requires TakesLine(s, user, m, |log|, ch) == Some(d)
    requires s.seen < |s.msgs| && s.c2s != "" && s.c2s < s.msgs[s.seen] && Message(s.msgs[s.seen]) && !s.up
    ensures d.entry.None? && SessionInv(cfg, d.s, log) && d.s.owner == s.owner
  {
    var msg := s.msgs[s.seen];
    MessageIs(msg);
    LineOffWire(s.c2s, ClosedToServer(s), ch.ending, msg);
    CutTurn(m, s.c2s, msg, ch.luck);
    hide SessionInv, Avail, OnLine, Listening, Message, WholeLine;
    assert Avail(s.c2s, ClosedToServer(s), ch.ending, MAXLINE).Some?;
    var t := Avail(s.c2s, ClosedToServer(s), ch.ending, MAXLINE).value;
    TakesPart(s, user, m, |log|, ch, d, t);
    if d.s == s.(server := Gone) {
      GoneKeeps(cfg, s, log, d.s);
    } else {
      PartKeeps(cfg, s, user, m, log, d.s);
    }
  }

  lemma WholeKeeps(cfg: Config, s: Session, user: string, m: Mode, ch: Chance, log: seq<Entry>, d: Served)
    requires s.owner < |cfg.clients| && SessionInv(cfg, s, log) && s.server == Talking(user, m) && Listening(m)
    requires TakesLine(s, user, m, |log|, ch) == Some(d)
    requires s.seen < |s.msgs| && s.c2s != "" && s.msgs[s.seen] <= s.c2s && Message(s.msgs[s.seen])
    ensures SessionInv(cfg, d.s, Grown(log, d.entry)) && d.s.owner == s.owner
    ensures d.entry.Some? ==> GoodEntry(cfg, d.entry.value) && DOT in s.msgs && d.entry.value.names == s.names
  {
    var msg := s.msgs[s.seen];
    MessageIs(msg);
    LineOffWire(s.c2s, ClosedToServer(s), ch.ending, msg);
    TurnIs(m, msg, ch.luck);
    SameLog(log);
    hide SessionInv, Avail, OnLine, Message, WholeLine, GoodEntry, IsName, NameIn, Answer, KeyOf, TakesLine, Regular;
    if msg == DOT && m.Body? {
      var s1 := s.(c2s := s.c2s[|DOT|..], seen := s.seen + 1, stored := Some(|log|),
                   diskOk := s.diskOk && ch.luck.opens && ch.luck.writes);
      TakesDot(s, user, m.name, m.text, m.record, |log|, ch, d);
      PutKeeps(cfg, s, user, m.name, m.text, m.record, ch, log, d.entry.value, s1, d.s);
    } else {
      TakesQuietly(s, user, m, |log|, ch, d, msg);
      WholeIsRegular(cfg, s, user, m, ch.luck, log, d.s);
      TakenKeeps(cfg, s, user, m, OnLine(m, msg, ch.luck).mode, log, d.s);
    }
  }

  /** With working files the mode moves as the messages say. */
  lemma {:induction false} SameTurn(a: Mode, b: Mode, msg: string, luck: Luck)
    requires SameMode(a, b) && Listening(a) && Message(msg) && luck.opens && luck.writes
    ensures Listening(b) && SameMode(OnLine(a, msg, luck).mode, OnLine(b, msg, GOOD_LUCK).mode)
  {
    if msg == DOT {
      DotLine(a, luck);
      DotLine(b, GOOD_LUCK);
      hide OnBody, OnCommand;
    } else if msg == QUIT {
      QuitLine(a, luck);
      QuitLine(b, GOOD_LUCK);
      hide OnBody, OnCommand;
    } else if a.Command? {
      TurnFromCommand(a.name, msg, luck);
      TurnFromCommand(b.name, msg, GOOD_LUCK);
      hide OnBody, OnCommand, IsName, NameIn;
    } else {
      TurnFromBody(a.name, a.text, a.record, msg, luck);
      TurnFromBody(b.name, b.text, b.record, msg, GOOD_LUCK);
      hide OnBody, OnCommand;
    }
  }

  lemma ListeningIs(m: Mode)
    ensures Listening(m) ==> !m.Undefined? && !m.Stopped?
  {
  }

  lemma WholeIsRegular(cfg: Config, s: Session, user: string, m: Mode, luck: Luck, log: seq<Entry>, t: Session)
    requires s.owner < |cfg.clients| && SessionInv(cfg, s, log) && s.server == Talking(user, m) && Listening(m)
    requires s.c2s != "" && s.seen < |s.msgs| && Message(s.msgs[s.seen])
    requires t.msgs == s.msgs && t.seen == s.seen + 1 && (t.diskOk ==> s.diskOk && luck.opens && luck.writes)
    ensures Regular(t, OnLine(m, s.msgs[s.seen], luck).mode)
  {
    hide Carried, Answered, InStep, Shaped, Admitted, Settled, GoodClient, Fold, Listening, Message, OnLine, Tracks;
    if t.diskOk {
      ListeningIs(m);
      FoldStep(s.msgs, s.seen);
      SameTurn(m, Fold(s.msgs[..s.seen]), s.msgs[s.seen], luck);
    }
  }

  lemma NextIsMessage(cfg: Config, s: Session, log: seq<Entry>)
    requires s.owner < |cfg.clients| && SessionInv(cfg, s, log) && s.server.Talking? && s.c2s != ""
    ensures s.seen < |s.msgs| && Message(s.msgs[s.seen]) && Carried(s)
  {
    hide Answered, Shaped, Admitted, Settled, Followed, Carried, Message, UserOfClient;
    FrontOfWire(s);
    LoginIs(cfg.clients[s.owner]);
  }

  lemma TalkKeeps(cfg: Config, s: Session, user: string, m: Mode, ch: Chance, log: seq<Entry>, d: Served)
    requires s.owner < |cfg.clients| && SessionInv(cfg, s, log) && s.server == Talking(user, m) && Listening(m)
    requires TakesLine(s, user, m, |log|, ch) == Some(d)
    ensures SessionInv(cfg, d.s, Grown(log, d.entry)) && d.s.owner == s.owner
    ensures d.entry.Some? ==> GoodEntry(cfg, d.entry.value) && DOT in s.msgs && d.entry.value.names == s.names
  {
    hide SessionInv, TakesLine, Listening, Message, GoodEntry, Carried;
    SameLog(log);
    if s.c2s == "" {
      EmptyKeeps(cfg, s, user, m, ch, log, d);
    } else {
      NextIsMessage(cfg, s, log);
      FrontOfWire(s);
      if s.msgs[s.seen] <= s.c2s {
        WholeKeeps(cfg, s, user, m, ch, log, d);
      } else {
        CutKeeps(cfg, s, user, m, ch, log, d);
      }
    }
  }

  /** Every step of a server thread keeps its session's invariant, and a put it makes is a whole
      form of an entitled client. */
  lemma ServerKeeps(cfg: Config, s: Session, ch: Chance, log: seq<Entry>, d: Served)
    requires Sound(cfg) && s.owner < |cfg.clients| && SessionInv(cfg, s, log)
    requires ServerStep(cfg, s, |log|, ch) == Some(d)
    ensures SessionInv(cfg, d.s, Grown(log, d.entry)) && d.s.owner == s.owner
    ensures d.entry.Some? ==> GoodEntry(cfg, d.entry.value) && DOT in s.msgs && d.entry.value.names == s.names
  {
    hide Sound, SessionInv, TakesLine, TakesMagic, TakesUser, TakesPass, Listening, GoodEntry;
    SameLog(log);
    MagicLength(cfg);
    match s.server {
      case WantMagic => MagicKeeps(cfg, s, ch, log, d.s);
      case WantUser => UserKeeps(cfg, s, ch, log, d.s);
      case WantPass(_) => PassKeeps(cfg, s, ch, log, d.s);
      case Talking(user, m) =>
        if Listening(m) { TalkKeeps(cfg, s, user, m, ch, log, d); } else { GoneKeeps(cfg, s, log, d.s); }
      case Gone =>
    }
  }

  lemma MagicLength(cfg: Config)
    requires Sound(cfg)
    ensures |cfg.magic| == DIGEST
  {
  }
}
