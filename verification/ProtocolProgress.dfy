/** Lock-step, freedom from deadlock, and the end of every session. */
module ProtocolProgress {
  import opened Bytes
  import opened Streams
  import opened Records
  import opened Server
  import opened Framing
  import opened Protocol
  import opened ProtocolInvariant
  import opened ProtocolClient
  import opened ProtocolServer
  import opened ProtocolRuns
  import opened ProtocolTheorems

  // ---------------------------------------------------------------------------------------
  // Lock-step
  // ---------------------------------------------------------------------------------------

  predicate Waiting(pc: Pc) { pc.WaitMagic? || pc.WaitUser? || pc.WaitPass? || pc.WaitAck? }

  /** The longest reply the client makes room for where it waits. */
  function RoomAt(pc: Pc): nat {
    if pc.WaitMagic? then 80 else if pc.WaitAck? then 20 else MAXLINE
  }

  /** At most one line. */
  predicate OneLine(s: string) { forall i :: 0 <= i < |s| - 1 ==> s[i] != LF }

  lemma RightIsOneLine(s: Session, log: seq<Entry>)
    requires Right(s, s.reply, log) && s.s2c <= s.reply
    ensures Waiting(s.pc) && WholeLine(s.reply) && |s.reply| < MAXLINE && OneLine(s.s2c)
    ensures !s.pc.WaitUser? ==> |s.reply| == 4
  {
    OkIsLine();
    hide Logged;
  }

  /** In every reachable state the static read buffers are empty, so each request and each new
      connection starts with an empty one; and what is on its way to a client is at most one
      reply line, which that client is waiting for. */
  lemma LockStep(cfg: Config, w: World, i: nat)
    requires Sound(cfg) && Reachable(cfg, w) && i < |w.sessions|
    ensures forall p :: 0 <= p < |w.bufs| ==> w.bufs[p] == ""
    ensures var s := w.sessions[i]; OneLine(s.s2c) && (s.s2c != "" ==> Waiting(s.pc))
  {
    hide Sound, Reachable, SessionInv, GoodEntry, HasPut, Right;
    ReachableIs(cfg, w);
    assert forall p :: 0 <= p < |w.bufs| ==> w.bufs[p] == "";
    InvOf(cfg, w, i);
    hide WorldInv;
    AnsweredOf(cfg, w.sessions[i], w.log);
    if w.sessions[i].s2c != "" { RightIsOneLine(w.sessions[i], w.log); }
  }

  lemma AnsweredOf(cfg: Config, s: Session, log: seq<Entry>)
    requires SessionInv(cfg, s, log)
    ensures Answered(s, log)
  {
    hide Carried, Answered, InStep, Followed, Shaped, Settled, Admitted, GoodClient;
  }

  // ---------------------------------------------------------------------------------------
  // No deadlock
  // ---------------------------------------------------------------------------------------

  /** The client sits in a readline that cannot return. */
  predicate ClientWaits(s: Session, buf: string) {
    Waiting(s.pc) && Avail(buf + s.s2c, ClosedToClient(s), Eof, RoomAt(s.pc)).None?
  }

  /** The server's thread sits in a readn or readline that cannot return. */
  predicate ServerWaits(cfg: Config, s: Session) {
    match s.server
    case WantMagic => |s.c2s| < DIGEST && !ClosedToServer(s)
    case WantUser => |s.c2s| < 10 && !ClosedToServer(s)
    case WantPass(u) => |s.c2s| < 5 + (if u in cfg.accounts then |cfg.accounts[u].digest| else 0) && !ClosedToServer(s)
    case Talking(_, m) => Listening(m) && Avail(s.c2s, ClosedToServer(s), Eof, MAXLINE).None?
    case Gone => false
  }

  /** Only a live client without a reply under way waits in vain for now. */
  lemma WaitsFor(s: Session, log: seq<Entry>)
    requires Answered(s, log) && ClientWaits(s, "")
    ensures Live(s) && s.reply == ""
  {
    if s.reply != "" { RightIsOneLine(s, log); }
    assert "" + s.s2c == s.s2c;
    hide Right;
    AvailReply(s.s2c, s.reply, ClosedToClient(s), Eof, RoomAt(s.pc));
    hide Avail;
  }

  /** The other side has a whole request to read. */
  lemma RequestIsThere(cfg: Config, c: Client, s: Session)
    requires Sound(cfg) && GoodClient(c) && |c.login| == 4 && Carried(s) && InStep(cfg, c, s) && Settled(s)
    requires Live(s) && Waiting(s.pc) && s.reply == ""
    ensures match s.server
            case WantMagic => |s.c2s| == DIGEST
            case WantUser => |s.c2s| == 10
            case WantPass(u) => |s.c2s| == 25 && u in cfg.accounts && |cfg.accounts[u].digest| == DIGEST
            case Talking(_, m) => s.c2s != ""
            case Gone => false
  {
    hide UserOfClient, Followed;
    NotDots(c);
    LoginIs(c);
    match s.server {
      case WantMagic => OneRequest(s, cfg.magic);
      case WantUser => OneRequest(s, UserLine(c));
      case WantPass(u) => OneRequest(s, PassLine(c));
      case Talking(_, m) =>
        assert s.pc.WaitAck? && s.seen < |s.msgs| && Message(s.msgs[s.seen]);
        MessageIs(s.msgs[s.seen]);
        assert s.msgs[s.seen..][0] == s.msgs[s.seen];
      case Gone =>
    }
  }

  lemma OneRequest(s: Session, request: string)
    requires Carried(s) && Live(s) && s.seen == 0 && s.msgs == [request]
    ensures s.c2s == request
  {
    assert s.msgs[0..] == [request];
    assert Flatten([request]) == request + Flatten([]);
  }

  /** The two sides never wait for each other. */
  lemma NoDeadlock(cfg: Config, w: World, i: nat)
    requires Sound(cfg) && Reachable(cfg, w) && i < |w.sessions| && w.sessions[i].owner < |w.bufs|
    ensures !(ClientWaits(w.sessions[i], w.bufs[w.sessions[i].owner]) && ServerWaits(cfg, w.sessions[i]))
  {
    hide Sound, Reachable, WorldInv, SessionInv, ClientWaits, ServerWaits;
    var s := w.sessions[i];
    ReachableIs(cfg, w);
    InvOf(cfg, w, i);
    EmptyBuf(cfg, w, s.owner);
    if ClientWaits(s, "") { ServerMoves(cfg, s, w.log); }
  }

  lemma ServerMoves(cfg: Config, s: Session, log: seq<Entry>)
    requires Sound(cfg) && SessionInv(cfg, s, log) && ClientWaits(s, "")
    ensures !ServerWaits(cfg, s) && !s.server.Gone?
  {
    hide Answered, InStep, Shaped, Settled, Admitted, GoodClient, Followed, ClientWaits, Carried, Sound;
    OwnerIs(cfg, s, log);
    var c := cfg.clients[s.owner];
    LoginIs(c);
    WaitsFor(s, log);
    WaitingIs(s);
    RequestIsThere(cfg, c, s);
    if s.server.Talking? {
      NextIsMessage(cfg, s, log);
      FrontOfWire(s);
      MessageIs(s.msgs[s.seen]);
      LineOffWire(s.c2s, ClosedToServer(s), Eof, s.msgs[s.seen]);
    }
    hide SessionInv, Avail, Message;
  }

  lemma WaitingIs(s: Session)
    requires ClientWaits(s, "")
    ensures Waiting(s.pc)
  {
  }

  const GOING_WELL := Choice("", true, true, 0, Eof, 0)
  const SERVING_WELL := Chance(0, 0, true, Luck(NUL, true, true), Eof, true, 0)

  lemma ClientCanMove(cfg: Config, s: Session, sent: set<(nat, string)>, log: seq<Entry>) returns (ch: Choice)
    requires s.owner < |cfg.clients| && SessionInv(cfg, s, log) && !s.pc.Closed? && !ClientWaits(s, "")
    ensures ClientStep(cfg, s, "", sent, ch).Some?
  {
    hide SessionInv, NameLine, UserLine, PassLine, Avail, Strtol, CStr, Wrote, Announced, Shaped, FormFiles, InLines,
      Over, Missed, Returned, StartsWith;
    ch := GOING_WELL;
    if s.pc.Sending? { LinesPc(s.pc); PlaceOf(cfg, s, log); }
    if s.pc.Scan? && s.todo != {} {
      var n :| n in s.todo;
      ch := ch.(name := n);
    } else if Waiting(s.pc) {
      AvailEither("" + s.s2c, ClosedToClient(s), RoomAt(s.pc));
    }
  }

  /** Whether a readline can return does not depend on how the stream ends. */
  lemma AvailEither(stream: string, closed: bool, maxlen: nat)
    requires maxlen > 0
    ensures Avail(stream, closed, Eof, maxlen).None? <==> Avail(stream, closed, Broken, maxlen).None?
  {
  }

  lemma ServerCanMove(cfg: Config, s: Session, at: nat)
    requires Sound(cfg) && !s.server.Gone? && !ServerWaits(cfg, s)
    ensures ServerStep(cfg, s, at, SERVING_WELL).Some?
  {
    hide Sound, OnLine, Avail, UserReply, UserOf, Answer, Listening, EntryOf;
  }

  /** Until both sides are done, one of them can move. */
  lemma SomeoneCanMove(cfg: Config, w: World, i: nat)
    requires Sound(cfg) && Reachable(cfg, w) && i < |w.sessions|
    requires !w.sessions[i].pc.Closed? || !w.sessions[i].server.Gone?
    ensures exists e: Event :: (e.ClientActs? || e.ServerActs?) && e.i == i && Next(cfg, w, e).Some?
  {
    hide Sound, Reachable, WorldInv, SessionInv, ClientWaits, ServerWaits, ClientStep, ServerStep;
    var s := w.sessions[i];
    ReachableIs(cfg, w);
    InvOf(cfg, w, i);
    HasBuf(cfg, w, s.owner);
    EmptyBuf(cfg, w, s.owner);
    if !s.pc.Closed? && !ClientWaits(s, "") {
      var ch := ClientCanMove(cfg, s, w.sent, w.log);
      assert Next(cfg, w, ClientActs(i, ch)).Some?;
    } else {
      if ClientWaits(s, "") { ServerMoves(cfg, s, w.log); } else { ClosedIsRead(cfg, s); }
      ServerCanMove(cfg, s, |w.log|);
      assert Next(cfg, w, ServerActs(i, SERVING_WELL)).Some?;
    }
  }

  lemma HasBuf(cfg: Config, w: World, p: nat)
    requires WorldInv(cfg, w) && p < |cfg.clients|
    ensures p < |w.bufs|
  {
    hide SessionInv, GoodEntry, HasPut;
  }

  lemma ClosedIsRead(cfg: Config, s: Session)
    requires s.pc.Closed?
    ensures !ServerWaits(cfg, s)
  {
  }

  // ---------------------------------------------------------------------------------------
  // Every session ends
  // ---------------------------------------------------------------------------------------

  /** Every form has at most `b` lines. */
  predicate Bounded(c: Client, b: nat) {
    forall n :: n in c.forms ==> |c.forms[n]| <= b
  }

  /** How many steps a client can still take from `pc` with `todo` files to visit, when its forms
      have at most `b` lines. */
  function ClientSteps(pc: Pc, todo: nat, b: nat): int {
    var scan := todo * (b + 6) + 2;
    match pc
    case SendMagic => scan + 8
    case WaitMagic => scan + 7
    case SendUser => scan + 6
    case WaitUser => scan + 5
    case SendPass => scan + 4
    case WaitPass => scan + 3
    case Start => scan + 1
    case Scan => scan
    case Named(_) => scan + b + 4
    case Sending(_, i) => scan + 3 + (b - i)
    case WaitAck(_) => scan + 2
    case Marking(_) => scan + 1
    case Quitting => 1
    case Closed => 0
  }

  /** How many steps the two sides of a session can still take. */
  function Steps(s: Session, b: nat): int {
    2 * ClientSteps(s.pc, |s.todo|, b) + (|s.msgs| - s.seen) + (if s.server.Gone? then 0 else 1)
  }

  lemma FewerTodo(todo: set<string>, n: string, b: nat)
    requires n in todo
    ensures |todo - {n}| * (b + 6) == |todo| * (b + 6) - (b + 6)
  {
    assert |todo - {n}| == |todo| - 1;
  }

  lemma WroteSteps(s: Session, msg: string, ch: Choice)
    ensures var w := Wrote(s, msg, ch);
            w == s.(c2s := w.c2s, msgs := w.msgs, up := w.up) && |s.msgs| <= |w.msgs| <= |s.msgs| + 1
  {
  }

  /** Fewer steps of the client outweigh a message more. */
  lemma FewerSteps(s: Session, t: Session, b: nat)
    requires ClientSteps(t.pc, |t.todo|, b) < ClientSteps(s.pc, |s.todo|, b) && t.server == s.server
    requires |t.msgs| - t.seen <= |s.msgs| - s.seen + 1
    ensures Steps(t, b) < Steps(s, b)
  {
    hide ClientSteps;
  }

  lemma AnnounceSteps(s: Session, ch: Choice, b: nat, t: Session)
    requires s.pc.Scan? && ch.name in s.todo
    requires t == Announced(s, ch.name, ch).(todo := s.todo - {ch.name}, pc := t.pc, missed := t.missed)
    requires t.pc == if ch.writes then Named(ch.name) else Closed
    ensures Steps(t, b) < Steps(s, b)
  {
    AnnouncedIs(s, ch.name, ch);
    FewerTodo(s.todo, ch.name, b);
    hide NameLine, Announced, Steps, Live;
    FewerSteps(s, t, b);
  }

  lemma ScanSteps(cfg: Config, s: Session, sent: set<(nat, string)>, ch: Choice, b: nat, t: Session)
    requires s.owner < |cfg.clients| && Sends(cfg, s, sent, ch) == Some(t) && s.pc.Scan?
    ensures Steps(t, b) < Steps(s, b)
  {
    hide Announced, Steps, Live, NameLine, Wrote;
    ScanIs(cfg, s, sent, ch, t);
    if Announces(s, sent, ch) {
      AnnounceSteps(s, ch, b, t);
    } else {
      if ch.name in s.todo { FewerTodo(s.todo, ch.name, b); }
      FewerSteps(s, t, b);
    }
  }

  lemma StartSteps(cfg: Config, s: Session, sent: set<(nat, string)>, ch: Choice, b: nat, t: Session)
    requires s.owner < |cfg.clients| && Sends(cfg, s, sent, ch) == Some(t) && (s.pc.Start? || s.pc.Named?)
    ensures Steps(t, b) < Steps(s, b)
  {
    hide Announced, Steps, Live, NameLine, Wrote;
    FewerSteps(s, t, b);
  }

  lemma QuitSteps(cfg: Config, s: Session, sent: set<(nat, string)>, ch: Choice, b: nat, t: Session)
    requires s.owner < |cfg.clients| && Sends(cfg, s, sent, ch) == Some(t) && s.pc.Quitting?
    ensures Steps(t, b) < Steps(s, b)
  {
    WroteSteps(s, QUIT, ch);
    hide Wrote, Steps;
    FewerSteps(s, t, b);
  }

  lemma SendingSteps(cfg: Config, s: Session, sent: set<(nat, string)>, ch: Choice, b: nat, t: Session)
    requires s.owner < |cfg.clients| && Sends(cfg, s, sent, ch) == Some(t) && s.pc.Sending?
    requires s.pc.name in cfg.clients[s.owner].forms && s.pc.done <= |cfg.clients[s.owner].forms[s.pc.name]| <= b
    ensures Steps(t, b) < Steps(s, b)
  {
    hide Wrote, Sends, Steps;
    SendingIs(cfg, s, sent, ch, t);
    var lines := cfg.clients[s.owner].forms[s.pc.name];
    WroteSteps(s, if s.pc.done < |lines| then lines[s.pc.done] else DOT, ch);
    FewerSteps(s, t, b);
  }

  lemma AskingSteps(cfg: Config, s: Session, ch: Choice, b: nat, a: Acted)
    requires s.owner < |cfg.clients| && Asking(cfg, s, "", ch) == Some(a)
    ensures Steps(a.s, b) < Steps(s, b)
  {
    hide Wrote, Asking, RequestAt, Steps;
    AskingIs(cfg, s, "", ch, a);
    WroteSteps(s, RequestAt(cfg, cfg.clients[s.owner], s.pc), ch);
    FewerSteps(s, a.s, b);
  }

  lemma ListenSteps(cfg: Config, s: Session, ch: Choice, b: nat, log: seq<Entry>, a: Acted)
    requires Answered(s, log) && Listens(s, "", ch) == Some(a) && Waiting(s.pc)
    ensures Steps(a.s, b) < Steps(s, b)
  {
    hide Answered, Listens, Steps;
    if s.pc.WaitAck? { AckIs(s, ch, a, log); } else { HearingIs(cfg, s, ch, a, log); }
    FewerSteps(s, a.s, b);
  }

  /** Each step of a client brings its session nearer to its end. */
  lemma ClientGetsOn(cfg: Config, s: Session, sent: set<(nat, string)>, ch: Choice, b: nat, log: seq<Entry>, a: Acted)
    requires s.owner < |cfg.clients| && ClientStep(cfg, s, "", sent, ch) == Some(a) && SessionInv(cfg, s, log)
    requires Bounded(cfg.clients[s.owner], b)
    ensures Steps(a.s, b) < Steps(s, b)
  {
    hide Asking, Listens, Sends, Steps, SessionInv, InLines, Bounded, Answered;
    AnsweredOf(cfg, s, log);
    match s.pc {
      case SendMagic | SendUser | SendPass => AskingSteps(cfg, s, ch, b, a);
      case WaitMagic | WaitUser | WaitPass | WaitAck(_) => ListenSteps(cfg, s, ch, b, log, a);
      case Marking(_) => MarkSteps(cfg, s, b, log, ch.works);
      case Sending(n, i) =>
        LinesPc(s.pc);
        PlaceOf(cfg, s, log);
        BoundAt(cfg.clients[s.owner], b, n);
        SendingSteps(cfg, s, sent, ch, b, a.s);
      case Scan => ScanSteps(cfg, s, sent, ch, b, a.s);
      case Start | Named(_) => StartSteps(cfg, s, sent, ch, b, a.s);
      case Quitting => QuitSteps(cfg, s, sent, ch, b, a.s);
      case Closed => ClosedRests(cfg, s, sent, ch);
    }
  }

  lemma BoundAt(c: Client, b: nat, n: string)
    requires Bounded(c, b) && n in c.forms
    ensures |c.forms[n]| <= b
  {
  }

  lemma MarkSteps(cfg: Config, s: Session, b: nat, log: seq<Entry>, works: bool)
    requires SessionInv(cfg, s, log) && s.pc.Marking?
    ensures Steps(Over(s), b) < Steps(s, b) && Steps(Missed(Over(s), s.pc.name, Scan), b) < Steps(s, b)
  {
    hide SessionInv, Carried, Steps;
    CarriedOf(cfg, s, log);
    SeenOf(s);
    FewerSteps(s, Over(s), b);
    FewerSteps(s, Missed(Over(s), s.pc.name, Scan), b);
  }

  lemma SeenOf(s: Session)
    requires Carried(s)
    ensures s.seen <= |s.msgs|
  {
    hide Flatten;
  }

  /** What the server's steps leave as it is, and what they may not add to. */
  predicate SameClient(s: Session, t: Session) {
    && t.pc == s.pc && t.todo == s.todo && t.missed == s.missed && t.owner == s.owner && t.names == s.names
    && t.cancelled == s.cancelled
    && (t.up ==> s.up) && (t.reply != "" ==> s.reply != "" || s.up) && (DOT in t.msgs ==> DOT in s.msgs)
  }

  /** A step of the thread takes a message or ends it, and leaves the client where it is. */
  predicate Shrinks(s: Session, t: Session) {
    && SameClient(s, t)
    && ((|t.msgs| - t.seen < |s.msgs| - s.seen && !s.server.Gone?)
        || (|t.msgs| - t.seen == |s.msgs| - s.seen && t.server.Gone? && !s.server.Gone?))
  }

  lemma ShrinksSteps(s: Session, t: Session, b: nat)
    requires Shrinks(s, t)
    ensures Steps(t, b) < Steps(s, b)
  {
    hide ClientSteps;
  }

  lemma AnswerShrinks(s: Session, u: Session, msg: string, ch: Chance, next: Thread, failed: Thread)
    requires SameClient(s, u) && |u.msgs| - u.seen < |s.msgs| - s.seen && !s.server.Gone?
    ensures Shrinks(s, Answer(u, msg, ch, next, failed))
  {
  }

  lemma TalkShrinks(s: Session, user: string, m: Mode, at: nat, ch: Chance, d: Served)
    requires Listening(m) && TakesLine(s, user, m, at, ch) == Some(d) && s.server.Talking?
    ensures Shrinks(s, d.s)
  {
    hide OnLine, Avail, EntryOf, Listening, Answer, Shrinks, ThreadOf, Heard;
    var t := Avail(s.c2s, ClosedToServer(s), ch.ending, MAXLINE).value;
    if t.Got? && |t.text| <= |s.c2s| {
      var turn := OnLine(m, t.text, ch.luck);
      var diskOk := s.diskOk && ch.luck.opens && ch.luck.writes;
      var entry := EntryOf(s, user, turn.effects, diskOk);
      var s1 := Heard(s, m, t.text, if entry.Some? then Some(at) else s.stored, diskOk);
      HeardShrinks(s, m, t.text, if entry.Some? then Some(at) else s.stored, diskOk);
      var next := ThreadOf(user, turn.mode);
      AnswerShrinks(s, s1, turn.reply, ch, next, if turn.reply == OK then Gone else next);
      TakesShrinks(s, s1.(server := next));
    } else {
      EndShrinks(s);
    }
  }

  lemma HeardShrinks(s: Session, m: Mode, text: string, stored: Option<nat>, diskOk: bool)
    requires |text| <= |s.c2s|
    ensures var t := Heard(s, m, text, stored, diskOk);
            SameClient(s, t) && t.msgs == s.msgs && t.seen == s.seen + 1
  {
  }

  lemma TakesShrinks(s: Session, t: Session)
    requires SameClient(s, t) && t.msgs == s.msgs && t.seen == s.seen + 1 && !s.server.Gone?
    ensures Shrinks(s, t)
  {
  }

  lemma EndShrinks(s: Session)
    requires !s.server.Gone?
    ensures Shrinks(s, s.(server := Gone))
  {
  }

  lemma DropShrinks(s: Session, n: nat, log: seq<Entry>)
    requires Carried(s) && Answered(s, log) && s.seen == 0 && 0 < n <= |s.c2s|
    ensures SameClient(s, Drop(s, n)) && SameClient(s, Drop(s, n).(accepted := true))
    ensures |Drop(s, n).msgs| - Drop(s, n).seen < |s.msgs| - s.seen
  {
    SomethingCame(s, log);
    hide Carried, Answered;
  }

  lemma MagicShrinks(cfg: Config, s: Session, ch: Chance, log: seq<Entry>, t: Session)
    requires Carried(s) && Answered(s, log) && s.seen == 0 && s.server.WantMagic? && TakesMagic(cfg, s, ch) == Some(t)
    ensures Shrinks(s, t)
  {
    hide Carried, Answered, Drop, Answer, Shrinks;
    if |s.c2s| >= DIGEST {
      DropShrinks(s, DIGEST, log);
      AnswerShrinks(s, Drop(s, DIGEST), OK, ch, WantUser, Gone);
      DroppedShrinks(s, Drop(s, DIGEST));
    } else {
      EndShrinks(s);
    }
  }

  lemma DroppedShrinks(s: Session, u: Session)
    requires SameClient(s, u) && |u.msgs| - u.seen < |s.msgs| - s.seen && !s.server.Gone?
    ensures Shrinks(s, u.(server := Gone))
  {
  }

  lemma UserShrinks(cfg: Config, s: Session, ch: Chance, log: seq<Entry>, t: Session)
    requires Carried(s) && Answered(s, log) && s.seen == 0 && s.server.WantUser? && TakesUser(cfg, s, ch) == Some(t)
    ensures Shrinks(s, t)
  {
    hide Carried, Answered, Drop, Answer, Shrinks, UserReply, UserOf, EnvAt;
    if |s.c2s| >= 10 {
      DropShrinks(s, 10, log);
      var user := UserOf(s.c2s[..10], "");
      if StartsWith(s.c2s[..10], "USER ") {
        var (reply, goOn) := UserReply(EnvAt(cfg, ch), user);
        AnswerShrinks(s, Drop(s, 10), reply, ch, if goOn then WantPass(user) else Gone, Gone);
      }
      DroppedShrinks(s, Drop(s, 10));
    } else {
      EndShrinks(s);
    }
  }

  lemma PassShrinks(cfg: Config, s: Session, user: string, ch: Chance, log: seq<Entry>, t: Session)
    requires Carried(s) && Answered(s, log) && s.seen == 0 && s.server.WantPass? && TakesPass(cfg, s, user,
        ch) == Some(t)
    ensures Shrinks(s, t)
  {
    hide Carried, Answered, Drop, Answer, Shrinks;
    var n := 5 + |if user in cfg.accounts then cfg.accounts[user].digest else ""|;
    if |s.c2s| >= n {
      DropShrinks(s, n, log);
      AnswerShrinks(s, Drop(s, n), "303\n", ch, Gone, Gone);
      AnswerShrinks(s, Drop(s, n).(accepted := true), OK, ch, if ch.ready then Talking(user, Command("")) else Gone,
          Gone);
      DroppedShrinks(s, Drop(s, n));
    } else {
      EndShrinks(s);
    }
  }

  lemma CarriedOf(cfg: Config, s: Session, log: seq<Entry>)
    requires SessionInv(cfg, s, log)
    ensures Carried(s) && Answered(s, log)
    ensures s.server.WantMagic? || s.server.WantUser? || s.server.WantPass? ==> s.seen == 0
  {
    hide Carried, Answered, Followed, Shaped, Admitted, Settled, UserLine, PassLine;
    LoginIs(cfg.clients[s.owner]);
    hide GoodClient;
  }

  /** Each step of the server's thread takes a message or is its last. */
  lemma ServerShrinks(cfg: Config, s: Session, at: nat, ch: Chance, log: seq<Entry>, d: Served)
    requires s.owner < |cfg.clients| && ServerStep(cfg, s, at, ch) == Some(d) && SessionInv(cfg, s, log)
    ensures Shrinks(s, d.s)
  {
    hide SessionInv, TakesLine, TakesMagic, TakesUser, TakesPass, Listening, Shrinks, Carried, Answered;
    CarriedOf(cfg, s, log);
    match s.server {
      case Talking(user, m) =>
        if Listening(m) { TalkShrinks(s, user, m, at, ch, d); } else { EndShrinks(s); }
      case WantMagic => MagicShrinks(cfg, s, ch, log, d.s);
      case WantUser => UserShrinks(cfg, s, ch, log, d.s);
      case WantPass(user) => PassShrinks(cfg, s, user, ch, log, d.s);
      case Gone =>
    }
  }

  lemma StepsNatural(cfg: Config, s: Session, b: nat, log: seq<Entry>)
    requires s.owner < |cfg.clients| && SessionInv(cfg, s, log) && Bounded(cfg.clients[s.owner], b)
    ensures Steps(s, b) >= 0
  {
    hide SessionInv, Carried, Answered, Bounded, ClientSteps;
    CarriedOf(cfg, s, log);
    SeenOf(s);
    if s.pc.Sending? {
      LinesPc(s.pc);
      PlaceOf(cfg, s, log);
      BoundAt(cfg.clients[s.owner], b, s.pc.name);
    }
    ClientStepsNatural(s.pc, |s.todo|, b);
  }

  lemma ClientStepsNatural(pc: Pc, todo: nat, b: nat)
    requires pc.Sending? ==> pc.done <= b
    ensures ClientSteps(pc, todo, b) >= 0
  {
    assert todo * (b + 6) >= 0;
  }

  /** An event of session `i`, by either side. */
  predicate ActOf(e: Event, i: nat) { (e.ClientActs? || e.ServerActs?) && e.i == i }

  lemma ActGetsOn(cfg: Config, w: World, e: Event, w': World, i: nat, b: nat)
    requires WorldInv(cfg, w) && i < |w.sessions| && ActOf(e, i) && Next(cfg, w, e) == Some(w')
    requires w.sessions[i].owner < |cfg.clients| && Bounded(cfg.clients[w.sessions[i].owner], b)
    ensures i < |w'.sessions| && Steps(w'.sessions[i], b) < Steps(w.sessions[i], b)
  {
    hide WorldInv, SessionInv, Steps, Bounded, ClientStep, ServerStep, Shrinks;
    InvOf(cfg, w, i);
    if e.ClientActs? {
      ClientActGetsOn(cfg, w, i, e.choice, w', b);
    } else {
      var d := ServerStep(cfg, w.sessions[i], |w.log|, e.chance).value;
      ServerShrinks(cfg, w.sessions[i], |w.log|, e.chance, w.log, d);
      ShrinksSteps(w.sessions[i], d.s, b);
    }
  }

  lemma ClientActGetsOn(cfg: Config, w: World, i: nat, ch: Choice, w': World, b: nat)
    requires WorldInv(cfg, w) && i < |w.sessions| && Next(cfg, w, ClientActs(i, ch)) == Some(w')
    requires w.sessions[i].owner < |cfg.clients| && Bounded(cfg.clients[w.sessions[i].owner], b)
    ensures i < |w'.sessions| && Steps(w'.sessions[i], b) < Steps(w.sessions[i], b)
  {
    hide WorldInv, SessionInv, Steps, Bounded, ClientStep, Next;
    InvOf(cfg, w, i);
    var a := ClientActsIs(cfg, w, i, ch, w');
    EmptyBuf(cfg, w, w.sessions[i].owner);
    ClientGetsOn(cfg, w.sessions[i], w.sent, ch, b, w.log, a);
  }

  lemma SameOwners(cfg: Config, w: World, e: Event, w': World, i: nat)
    requires Sound(cfg) && WorldInv(cfg, w) && i < |w.sessions| && ActOf(e, i) && Next(cfg, w, e) == Some(w')
    ensures i < |w'.sessions| && w'.sessions[i].owner == w.sessions[i].owner
  {
    hide WorldInv, SessionInv, ClientStep, ServerStep, Sound;
    InvOf(cfg, w, i);
    MagicLength(cfg);
    if e.ClientActs? {
      EmptyBuf(cfg, w, w.sessions[i].owner);
      var a := ClientStep(cfg, w.sessions[i], w.bufs[w.sessions[i].owner], w.sent, e.choice).value;
      ClientKeeps(cfg, w.sessions[i], w.sent, e.choice, w.log, a);
    } else {
      var d := ServerStep(cfg, w.sessions[i], |w.log|, e.chance).value;
      ServerKeeps(cfg, w.sessions[i], e.chance, w.log, d);
    }
  }

  /** Termination: left to its two sides a session takes no more steps than its measure says. */
  lemma {:induction false} SessionEnds(cfg: Config, w: World, es: seq<Event>, w': World, i: nat, b: nat)
    requires Sound(cfg) && WorldInv(cfg, w) && i < |w.sessions| && (forall k :: 0 <= k < |es| ==> ActOf(es[k], i))
    requires Exec(cfg, w, es) == Some(w')
    requires w.sessions[i].owner < |cfg.clients| && Bounded(cfg.clients[w.sessions[i].owner], b)
    ensures |es| <= Steps(w.sessions[i], b)
    decreases |es|
  {
    hide WorldInv, Steps, Bounded, Next, Sound, SessionInv;
    InvOf(cfg, w, i);
    if es == [] {
      StepsNatural(cfg, w.sessions[i], b, w.log);
    } else {
      assert ActOf(es[0], i);
      var w1 := Next(cfg, w, es[0]).value;
      ActGetsOn(cfg, w, es[0], w1, i, b);
      SameOwners(cfg, w, es[0], w1, i);
      NextKeeps(cfg, w, es[0], w1);
      SessionEnds(cfg, w1, es[1..], w', i, b);
    }
  }
}
