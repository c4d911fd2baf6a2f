/** What a client writes over a whole run, read off the messages of its session: what is left of it
    once it was cancelled, what it announces, and which replies it goes on after
    (project2/src/myfuncs.c, authenticate, apply_forms and apply_form). */
module ProtocolMessages {
  import opened Bytes
  import opened Streams
  import opened Records
  import opened Server
  import opened Framing
  import opened Protocol
  import opened ProtocolInvariant
  import opened ProtocolClient
  import opened ProtocolServer
  import opened ProtocolRuns
  import opened ProtocolTheorems
  import opened ProtocolProgress
  import opened ProtocolSessions

  // ---------------------------------------------------------------------------------------
  // The messages of a run
  // ---------------------------------------------------------------------------------------

  /** What was written between two states of a session. */
  function NewMessages(s: Session, t: Session): seq<string> {
    if s.msgs < t.msgs then t.msgs[|s.msgs|..] else []
  }

  /** Everything session `i` writes in a run. */
  function Written(cfg: Config, w: World, es: seq<Event>, i: nat): seq<string>
    decreases |es|
  {
    if es == [] then []
    else match Next(cfg, w, es[0])
      case None => []
      case Some(w1) =>
        (if i < |w.sessions| && i < |w1.sessions| then NewMessages(w.sessions[i], w1.sessions[i]) else [])
        + Written(cfg, w1, es[1..], i)
  }

  /** At most the last message of a session. */
  predicate Ending(ms: seq<string>) { ms == [] || ms == [QUIT] }

  /** At most one form announced, and then at most the last message. */
  predicate OneName(ms: seq<string>) {
    Ending(ms) || (StartsWith(ms[0], FILENAME) && Ending(ms[1..]))
  }

  /** What authenticate still has to write. */
  function LoginLeft(cfg: Config, c: Client, pc: Pc): seq<string> {
    match pc
    case SendMagic => [cfg.magic, UserLine(c), PassLine(c)]
    case WaitMagic | SendUser => [UserLine(c), PassLine(c)]
    case WaitUser | SendPass => [PassLine(c)]
    case _ => []
  }

  /** Of these messages each at most once and in this order, and then at most the last one. */
  predicate SomeThenEnd(left: seq<string>, ms: seq<string>) {
    if left == [] then Ending(ms)
    else SomeThenEnd(left[1..], ms) || (ms != [] && ms[0] == left[0] && SomeThenEnd(left[1..], ms[1..]))
  }

  /** All lines of the form in hand are out, but not its dot. */
  predicate BehindLastLine(c: Client, pc: Pc) {
    pc.Sending? && pc.name in c.forms && pc.done >= |c.forms[pc.name]|
  }

  /** What a client that stops may still write: the rest of its login; the dot if it stands behind the
      last line; one more name, unless it stands behind a name; and QUIT. */
  ghost predicate StopsAfter(cfg: Config, c: Client, pc: Pc, ms: seq<string>) {
    match pc
    case Closed => ms == []
    case Start | Named(_) | Quitting => Ending(ms)
    case Scan | WaitAck(_) | Marking(_) => OneName(ms)
    case Sending(_, _) => OneName(ms) || (BehindLastLine(c, pc) && ms != [] && ms[0] == DOT && OneName(ms[1..]))
    case _ => SomeThenEnd(LoginLeft(cfg, c, pc), ms)
  }

  /** The client was cancelled, or is at its end anyway. */
  predicate Stopping(s: Session) { s.cancelled || s.pc.Quitting? || s.pc.Closed? }

  // ---------------------------------------------------------------------------------------
  // One step
  // ---------------------------------------------------------------------------------------

  lemma WroteNew(s: Session, msg: string, ch: Choice, t: Session)
    requires t.msgs == Wrote(s, msg, ch).msgs
    ensures NewMessages(s, t) == (if Live(s) then [msg] else [])
  {
    assert Live(s) ==> (s.msgs + [msg])[|s.msgs|..] == [msg];
  }

  lemma SameNew(s: Session, t: Session)
    requires t.msgs <= s.msgs
    ensures NewMessages(s, t) == []
  {
  }

  /** The same client, and no revived connection. */
  predicate Later(s: Session, t: Session) {
    t.owner == s.owner && t.todo <= s.todo && (s.cancelled ==> t.cancelled) && (Live(t) ==> Live(s))
  }

  /** A step of authenticate writes the next request or nothing. */
  lemma AskingWrites(cfg: Config, c: Client, s: Session, buf: string, ch: Choice, a: Acted)
    requires s.owner < |cfg.clients| && c == cfg.clients[s.owner] && Asking(cfg, s, buf, ch) == Some(a)
    ensures Later(s, a.s) && LoginLeft(cfg, c, s.pc) != []
    ensures var left := LoginLeft(cfg, c, s.pc);
            && (NewMessages(s, a.s) == [] || NewMessages(s, a.s) == [left[0]])
            && (if a.s.pc.Closed? then !Live(a.s) else LoginLeft(cfg, c, a.s.pc) == left[1..] && !InLines(a.s.pc))
  {
    hide UserLine, PassLine, Wrote, NewMessages;
    var left := LoginLeft(cfg, c, s.pc);
    WroteNew(s, left[0], ch, a.s);
    WroteLive(s, left[0], ch);
  }

  /** Taking a reply writes nothing. */
  lemma ListensWrites(cfg: Config, c: Client, s: Session, buf: string, ch: Choice, a: Acted)
    requires Listens(s, buf, ch) == Some(a)
    ensures Later(s, a.s) && NewMessages(s, a.s) == []
    ensures match s.pc
            case WaitAck(_) => a.s.pc.Marking? || a.s.pc.Scan?
            case _ => a.s.pc.Closed? || (a.s.pc.Start? && s.pc.WaitPass?)
                      || (!InLines(a.s.pc) && LoginLeft(cfg, c, a.s.pc) == LoginLeft(cfg, c, s.pc))
  {
    hide Receive, Returned, StartsWith, Strtol, CStr, UserLine, PassLine, NewMessages;
    ReceivedLater(s, buf, ch, RoomAt(s.pc));
    SameNew(s, a.s);
  }

  lemma ReceivedLater(s: Session, buf: string, ch: Choice, maxlen: nat)
    requires maxlen > 0
    ensures var r := Receive(s, buf, ch, maxlen);
            r.Some? ==> r.value.1 == s.(s2c := r.value.1.s2c, reply := "")
  {
    hide Avail;
  }

  /** The sending loop: what each place of it writes, and where it goes from there. */
  lemma SendsWrites(cfg: Config, c: Client, s: Session, sent: set<(nat, string)>, ch: Choice, t: Session)
    requires s.owner < |cfg.clients| && c == cfg.clients[s.owner] && Sends(cfg, s, sent, ch) == Some(t)
    ensures Later(s, t)
    ensures var ms := NewMessages(s, t);
            match s.pc
            case Start => ms == [] && (t.pc.Quitting? || (t.pc.Scan? && !s.cancelled && ch.works))
            case Scan => ScanMay(s, sent, ch, t, ms)
            case Named(n) => ms == [] && (if s.cancelled then t.pc.Quitting? else t.pc.Scan? || t.pc == Sending(n, 0))
            case Sending(n, k) => n in c.forms && SendingMay(s, n, c.forms[n], k, t, ms)
            case Quitting => t.pc.Closed? && ms == (if Live(s) then [QUIT] else [])
            case _ => false
  {
    hide NewMessages, ScanMay, SendingMay, Wrote;
    match s.pc {
      case Scan =>
        hide Sends, Later;
        ScanWrites(cfg, s, sent, ch, t);
      case Sending(n, k) =>
        hide Sends, Later;
        SendingWrites(cfg, s, sent, ch, t);
      case Quitting =>
        hide Sends, Later;
        QuitWrites(cfg, s, sent, ch, t);
      case _ => SameNew(s, t);
    }
  }

  lemma QuitWrites(cfg: Config, s: Session, sent: set<(nat, string)>, ch: Choice, t: Session)
    requires s.owner < |cfg.clients| && Sends(cfg, s, sent, ch) == Some(t) && s.pc.Quitting?
    ensures Later(s, t) && t.pc.Closed? && NewMessages(s, t) == if Live(s) then [QUIT] else []
  {
    hide NewMessages, Wrote;
    WroteNew(s, QUIT, ch, t);
    WroteLive(s, QUIT, ch);
  }

  /** Between two forms: at most a name goes out, of a form that is not marked sent. */
  predicate ScanMay(s: Session, sent: set<(nat, string)>, ch: Choice, t: Session, ms: seq<string>) {
    || (ms == [] && (t.pc.Quitting? || t.pc.Scan?))
    || ((t.pc == Named(ch.name) || t.pc.Closed?) && (ms == [] || ms == [NameLine(ch.name)])
        && ch.name in s.todo && (s.owner, ch.name) !in sent && ch.name !in t.todo
        && (t.pc.Closed? ==> !Live(t)))
  }

  /** In a form: the next line, unless cancelled; behind the last one the dot, cancelled or not. */
  predicate SendingMay(s: Session, n: string, lines: seq<string>, k: nat, t: Session, ms: seq<string>) {
    if k < |lines| && s.cancelled then ms == [] && t.pc.Scan?
    else if k < |lines| then (ms == [] || ms == [lines[k]]) && (t.pc.Scan? || t.pc == Sending(n, k + 1))
    else ms == (if Live(s) then [DOT] else []) && (t.pc.Scan? || t.pc == WaitAck(n))
  }

  lemma ScanWrites(cfg: Config, s: Session, sent: set<(nat, string)>, ch: Choice, t: Session)
    requires s.owner < |cfg.clients| && Sends(cfg, s, sent, ch) == Some(t) && s.pc.Scan?
    ensures Later(s, t) && ScanMay(s, sent, ch, t, NewMessages(s, t))
  {
    ScanIs(cfg, s, sent, ch, t);
    AnnouncedIs(s, ch.name, ch);
    AppendedNew(s, t, NameLine(ch.name));
    hide Sends, NameLine, Announced, NewMessages;
  }

  lemma AppendedNew(s: Session, t: Session, m: string)
    ensures t.msgs == s.msgs + [m] ==> NewMessages(s, t) == [m]
    ensures t.msgs == s.msgs ==> NewMessages(s, t) == []
  {
  }

  lemma SendingWrites(cfg: Config, s: Session, sent: set<(nat, string)>, ch: Choice, t: Session)
    requires s.owner < |cfg.clients| && Sends(cfg, s, sent, ch) == Some(t) && s.pc.Sending?
    ensures s.pc.name in cfg.clients[s.owner].forms && Later(s, t)
    ensures SendingMay(s, s.pc.name, cfg.clients[s.owner].forms[s.pc.name], s.pc.done, t, NewMessages(s, t))
  {
    hide Wrote, NewMessages;
    var lines, k := cfg.clients[s.owner].forms[s.pc.name], s.pc.done;
    var msg := if k < |lines| then lines[k] else DOT;
    WroteLive(s, msg, ch);
    if k < |lines| && s.cancelled { SameNew(s, t); } else { WroteNew(s, msg, ch, t); }
  }

  // ---------------------------------------------------------------------------------------
  // A client that stops
  // ---------------------------------------------------------------------------------------

  lemma OneBefore(m: string, ms: seq<string>)
    ensures [] + ms == ms && ([m] + ms)[0] == m && ([m] + ms)[1..] == ms && [m] + [] == [m]
  {
  }

  lemma {:induction false} NothingLeft(left: seq<string>)
    ensures SomeThenEnd(left, [])
  {
    if left != [] { NothingLeft(left[1..]); }
  }

  lemma AskStops(cfg: Config, c: Client, s: Session, buf: string, ch: Choice, a: Acted, rest: seq<string>)
    requires s.owner < |cfg.clients| && c == cfg.clients[s.owner] && Asking(cfg, s, buf, ch) == Some(a)
    requires StopsAfter(cfg, c, a.s.pc, rest)
    ensures StopsAfter(cfg, c, s.pc, NewMessages(s, a.s) + rest)
  {
    AskingWrites(cfg, c, s, buf, ch, a);
    var left := LoginLeft(cfg, c, s.pc);
    NothingLeft(left[1..]);
    OneBefore(left[0], rest);
    hide Asking, NewMessages, UserLine, PassLine, LoginLeft, Live;
  }

  lemma ListenStops(cfg: Config, c: Client, s: Session, buf: string, ch: Choice, a: Acted, rest: seq<string>)
    requires Waiting(s.pc) && Listens(s, buf, ch) == Some(a) && StopsAfter(cfg, c, a.s.pc, rest)
    ensures StopsAfter(cfg, c, s.pc, NewMessages(s, a.s) + rest)
  {
    hide Listens, NewMessages, SomeThenEnd, Ending, OneName, LoginLeft;
    ListensWrites(cfg, c, s, buf, ch, a);
    OneBefore("", rest);
    NothingLeft(LoginLeft(cfg, c, s.pc));
    LoginEnds(cfg, c, s.pc, rest);
  }

  /** Behind the login there is nothing of it left. */
  lemma LoginEnds(cfg: Config, c: Client, pc: Pc, rest: seq<string>)
    ensures pc.WaitPass? && Ending(rest) ==> SomeThenEnd(LoginLeft(cfg, c, pc), rest)
  {
    hide UserLine, PassLine;
  }

  lemma SendStops(cfg: Config, c: Client, s: Session, sent: set<(nat, string)>, ch: Choice, t: Session,
                  rest: seq<string>)
    requires s.owner < |cfg.clients| && c == cfg.clients[s.owner] && Sends(cfg, s, sent, ch) == Some(t)
    requires Stopping(s) && StopsAfter(cfg, c, t.pc, rest)
    ensures Stopping(t) && StopsAfter(cfg, c, s.pc, NewMessages(s, t) + rest)
  {
    hide Sends, NewMessages, NameLine, Live, Ending, OneName, SomeThenEnd, LoginLeft;
    SendsWrites(cfg, c, s, sent, ch, t);
    Tails(ch.name, rest);
    OneBefore(DOT, rest);
    match s.pc {
      case Scan => hide StopsAfter; ScanStops(cfg, c, s, sent, ch, t, rest);
      case _ =>
    }
  }

  /** How the ends of a session hang together. */
  lemma Tails(name: string, rest: seq<string>)
    ensures Ending(rest) ==> OneName(rest) && OneName([NameLine(name)] + rest)
    ensures rest == [] ==> Ending(rest) && Ending([QUIT] + rest) && OneName([NameLine(name)] + rest)
    ensures [] + rest == rest
  {
    NameStarts(name);
    OneBefore(NameLine(name), rest);
    OneBefore(QUIT, rest);
    hide NameLine;
  }

  lemma ScanStops(cfg: Config, c: Client, s: Session, sent: set<(nat, string)>, ch: Choice, t: Session,
                  rest: seq<string>)
    requires s.pc.Scan? && ScanMay(s, sent, ch, t, NewMessages(s, t)) && StopsAfter(cfg, c, t.pc, rest)
    ensures StopsAfter(cfg, c, s.pc, NewMessages(s, t) + rest)
  {
    hide NewMessages, NameLine, Live, Ending, OneName, SomeThenEnd, LoginLeft;
    Tails(ch.name, rest);
  }

  lemma NameStarts(n: string)
    ensures StartsWith(NameLine(n), FILENAME)
  {
  }

  /** A step of a client that stops. */
  lemma ClientStops(cfg: Config, c: Client, s: Session, buf: string, sent: set<(nat, string)>, ch: Choice, a: Acted,
                    rest: seq<string>)
    requires s.owner < |cfg.clients| && c == cfg.clients[s.owner] && ClientStep(cfg, s, buf, sent, ch) == Some(a)
    requires Stopping(s) && StopsAfter(cfg, c, a.s.pc, rest)
    ensures Stopping(a.s) && a.s.owner == s.owner && StopsAfter(cfg, c, s.pc, NewMessages(s, a.s) + rest)
  {
    hide Asking, Listens, Sends, StopsAfter, NewMessages;
    match s.pc {
      case SendMagic | SendUser | SendPass =>
        AskingWrites(cfg, c, s, buf, ch, a);
        AskStops(cfg, c, s, buf, ch, a, rest);
      case WaitMagic | WaitUser | WaitPass | WaitAck(_) =>
        ListensWrites(cfg, c, s, buf, ch, a);
        ListenStops(cfg, c, s, buf, ch, a, rest);
      case Marking(_) => MarkStops(cfg, c, s, a.s, rest);
      case Start | Scan | Named(_) | Sending(_, _) | Quitting =>
        SendsWrites(cfg, c, s, sent, ch, a.s);
        SendStops(cfg, c, s, sent, ch, a.s, rest);
      case Closed => ClosedStays(cfg, s, sent, ch);
    }
  }

  lemma ClosedStays(cfg: Config, s: Session, sent: set<(nat, string)>, ch: Choice)
    requires s.owner < |cfg.clients| && s.pc.Closed?
    ensures Sends(cfg, s, sent, ch).None?
  {
  }

  lemma MarkStops(cfg: Config, c: Client, s: Session, t: Session, rest: seq<string>)
    requires s.pc.Marking? && (t == Over(s) || t == Missed(Over(s), s.pc.name, Scan)) && Stopping(s)
    requires StopsAfter(cfg, c, t.pc, rest)
    ensures Stopping(t) && t.owner == s.owner && StopsAfter(cfg, c, s.pc, NewMessages(s, t) + rest)
  {
    SameNew(s, t);
    OneBefore("", rest);
    hide NewMessages;
  }

  /** What a step of the other side leaves alone. */
  predicate Untouched(s: Session, t: Session) {
    && |t.msgs| <= |s.msgs| && t.pc == s.pc && t.owner == s.owner && t.todo == s.todo
    && t.cancelled == s.cancelled && (t.up ==> s.up)
  }

  lemma AnswerUntouched(s: Session, u: Session, msg: string, ch: Chance, next: Thread, failed: Thread)
    requires Untouched(s, u)
    ensures Untouched(s, Answer(u, msg, ch, next, failed))
  {
  }

  lemma DropUntouched(s: Session, n: nat)
    requires n <= |s.c2s|
    ensures Untouched(s, Drop(s, n)) && Untouched(s, Drop(s, n).(server := Gone))
    ensures Untouched(s, Drop(s, n).(accepted := true))
  {
  }

  lemma GoneUntouched(s: Session)
    ensures Untouched(s, s.(server := Gone))
  {
  }

  lemma LoginUntouched(cfg: Config, s: Session, at: nat, ch: Chance, d: Served)
    requires s.server.WantMagic? || s.server.WantUser? || s.server.WantPass?
    requires ServerStep(cfg, s, at, ch) == Some(d)
    ensures Untouched(s, d.s)
  {
    hide Answer, Drop, Untouched, UserReply, UserOf, EnvAt;
    GoneUntouched(s);
    match s.server {
      case WantMagic =>
        if DIGEST <= |s.c2s| {
          DropUntouched(s, DIGEST);
          AnswerUntouched(s, Drop(s, DIGEST), OK, ch, WantUser, Gone);
        }
      case WantUser =>
        if 10 <= |s.c2s| {
          var user := UserOf(s.c2s[..10], "");
          var (reply, goOn) := UserReply(EnvAt(cfg, ch), user);
          DropUntouched(s, 10);
          AnswerUntouched(s, Drop(s, 10), reply, ch, if goOn then WantPass(user) else Gone, Gone);
        }
      case WantPass(user) =>
        var n := 5 + if user in cfg.accounts then |cfg.accounts[user].digest| else 0;
        if n <= |s.c2s| {
          var s1 := Drop(s, n).(accepted := true);
          DropUntouched(s, n);
          AnswerUntouched(s, Drop(s, n), "303\n", ch, Gone, Gone);
          AnswerUntouched(s, s1, OK, ch, if ch.ready then Talking(user, Command("")) else Gone, Gone);
        }
      case _ =>
    }
  }

  lemma TalkUntouched(s: Session, user: string, m: Mode, at: nat, ch: Chance, d: Served)
    requires Listening(m) && TakesLine(s, user, m, at, ch) == Some(d)
    ensures Untouched(s, d.s)
  {
    hide Answer, Heard, Untouched, OnLine, Avail, EntryOf, Listening, ThreadOf;
    GoneUntouched(s);
    var t := Avail(s.c2s, ClosedToServer(s), ch.ending, MAXLINE).value;
    if t.Got? && |t.text| <= |s.c2s| {
      var turn := OnLine(m, t.text, ch.luck);
      var diskOk := s.diskOk && ch.luck.opens && ch.luck.writes;
      var stored := if EntryOf(s, user, turn.effects, diskOk).Some? then Some(at) else s.stored;
      var s1, next := Heard(s, m, t.text, stored, diskOk), ThreadOf(user, turn.mode);
      HeardUntouched(s, m, t.text, stored, diskOk, next);
      AnswerUntouched(s, s1, turn.reply, ch, next, if turn.reply == OK then Gone else next);
    }
  }

  lemma HeardUntouched(s: Session, m: Mode, text: string, stored: Option<nat>, diskOk: bool, next: Thread)
    requires |text| <= |s.c2s|
    ensures Untouched(s, Heard(s, m, text, stored, diskOk).(server := next))
    ensures Untouched(s, Heard(s, m, text, stored, diskOk))
  {
  }

  lemma ServerMessages(cfg: Config, s: Session, at: nat, ch: Chance, d: Served)
    requires ServerStep(cfg, s, at, ch) == Some(d)
    ensures NewMessages(s, d.s) == [] && d.s.pc == s.pc && d.s.owner == s.owner && d.s.cancelled == s.cancelled
    ensures d.s.todo == s.todo
    ensures Live(d.s) ==> Live(s)
  {
    hide TakesMagic, TakesUser, TakesPass, TakesLine, NewMessages, Listening;
    match s.server {
      case Talking(user, m) =>
        GoneUntouched(s);
        if Listening(m) { TalkUntouched(s, user, m, at, ch, d); }
      case Gone =>
      case _ => LoginUntouched(cfg, s, at, ch, d);
    }
    FewerNew(s, d.s);
  }

  lemma FewerNew(s: Session, t: Session)
    requires |t.msgs| <= |s.msgs|
    ensures NewMessages(s, t) == []
  {
  }

  /** An event before a session that stops. */
  lemma EventStops(cfg: Config, w: World, e: Event, w': World, i: nat, rest: seq<string>)
    requires Next(cfg, w, e) == Some(w') && i < |w.sessions| && w.sessions[i].owner < |cfg.clients|
    requires Stopping(w.sessions[i])
    requires i < |w'.sessions| ==> StopsAfter(cfg, cfg.clients[w.sessions[i].owner], w'.sessions[i].pc, rest)
    ensures i < |w'.sessions| && w'.sessions[i].owner == w.sessions[i].owner && Stopping(w'.sessions[i])
    ensures StopsAfter(cfg, cfg.clients[w.sessions[i].owner], w.sessions[i].pc,
                       NewMessages(w.sessions[i], w'.sessions[i]) + rest)
  {
    hide ClientStep, ServerStep, StopsAfter, NewMessages, Idle, Connected;
    var s := w.sessions[i];
    OneBefore("", rest);
    match e {
      case ClientActs(j, ch) =>
        if j == i {
          var a := ClientStep(cfg, s, w.bufs[s.owner], w.sent, ch).value;
          ClientStops(cfg, cfg.clients[s.owner], s, w.bufs[s.owner], w.sent, ch, a, rest);
        } else { SameNew(s, w'.sessions[i]); }
      case ServerActs(j, ch) =>
        if j == i { ServerMessages(cfg, s, |w.log|, ch, ServerStep(cfg, s, |w.log|, ch).value); }
        else { SameNew(s, w'.sessions[i]); }
      case Connect(_) => SameNew(s, w'.sessions[i]);
      case Cut(_, _, _) => SameNew(s, w'.sessions[i]);
      case GiveUp(_) => SameNew(s, w'.sessions[i]);
      case Cancel(_) => SameNew(s, w'.sessions[i]);
    }
  }

  /** Cancelling, over whole runs: from any state on and whatever else happens, a cancelled client
      writes at most the rest of its login, the dot when it already stood behind the last line of a form,
      one more FILENAME line - and after that, or when it stood behind one, nothing but QUIT. */
  lemma {:induction false} CancelledStops(cfg: Config, w: World, es: seq<Event>, w': World, i: nat)
    requires Exec(cfg, w, es) == Some(w') && i < |w.sessions| && w.sessions[i].owner < |cfg.clients|
    requires Stopping(w.sessions[i])
    ensures StopsAfter(cfg, cfg.clients[w.sessions[i].owner], w.sessions[i].pc, Written(cfg, w, es, i))
    decreases |es|
  {
    hide Next, StopsAfter, Stopping, NewMessages;
    var c, pc := cfg.clients[w.sessions[i].owner], w.sessions[i].pc;
    if es == [] {
      NothingStops(cfg, c, pc);
    } else {
      var w1 := Next(cfg, w, es[0]).value;
      SessionStays(cfg, w, es[0], w1, i);
      if |w1.sessions| > i && Stopping(w1.sessions[i]) {
        CancelledStops(cfg, w1, es[1..], w', i);
        EventStops(cfg, w, es[0], w1, i, Written(cfg, w1, es[1..], i));
      }
    }
  }

  /** So after the operator pressed the button. */
  lemma CancelStops(cfg: Config, w: World, i: nat, w1: World, es: seq<Event>, w': World)
    requires Next(cfg, w, Cancel(i)) == Some(w1) && Exec(cfg, w1, es) == Some(w')
    requires w.sessions[i].owner < |cfg.clients|
    ensures StopsAfter(cfg, cfg.clients[w.sessions[i].owner], w.sessions[i].pc, Written(cfg, w1, es, i))
  {
    hide Exec, Written, StopsAfter;
    CancelledStops(cfg, w1, es, w', i);
  }

  lemma NothingStops(cfg: Config, c: Client, pc: Pc)
    ensures StopsAfter(cfg, c, pc, [])
  {
    NothingLeft(LoginLeft(cfg, c, pc));
    hide UserLine, PassLine, LoginLeft;
  }

  /** Sessions stay where they are, with their owner, and stop for good. */
  lemma SessionStays(cfg: Config, w: World, e: Event, w': World, i: nat)
    requires Next(cfg, w, e) == Some(w') && i < |w.sessions| && w.sessions[i].owner < |cfg.clients|
    ensures i < |w'.sessions| && w'.sessions[i].owner == w.sessions[i].owner
    ensures Stopping(w.sessions[i]) ==> Stopping(w'.sessions[i])
    ensures Live(w'.sessions[i]) ==> Live(w.sessions[i])
  {
    hide ClientStep, ServerStep, Idle, Connected;
    var s := w.sessions[i];
    match e {
      case ClientActs(j, ch) => if j == i { ClientStays(cfg, s, w.bufs[s.owner], w.sent, ch); }
      case ServerActs(j, ch) =>
        if j == i { ServerMessages(cfg, s, |w.log|, ch, ServerStep(cfg, s, |w.log|, ch).value); }
      case _ =>
    }
  }

  lemma ClientStays(cfg: Config, s: Session, buf: string, sent: set<(nat, string)>, ch: Choice)
    requires s.owner < |cfg.clients|
    ensures var r := ClientStep(cfg, s, buf, sent, ch);
            r.Some? ==> Later(s, r.value.s) && (Stopping(s) ==> Stopping(r.value.s))
  {
    var r, c := ClientStep(cfg, s, buf, sent, ch), cfg.clients[s.owner];
    if r.Some? {
      var a := r.value;
      match s.pc {
        case SendMagic | SendUser | SendPass => AskingWrites(cfg, c, s, buf, ch, a);
        case WaitMagic | WaitUser | WaitPass | WaitAck(_) => ListensWrites(cfg, c, s, buf, ch, a);
        case Marking(_) =>
        case _ => SendsWrites(cfg, c, s, sent, ch, a.s);
      }
      hide Asking, Listens, Sends, NewMessages, LoginLeft, ScanMay, SendingMay;
    }
  }

  /** A client that cannot open its directory, or was cancelled before it does, announces nothing. */
  lemma NoDirectoryNoForms(cfg: Config, w: World, i: nat, ch: Choice, w1: World, es: seq<Event>, w': World)
    requires Next(cfg, w, ClientActs(i, ch)) == Some(w1) && w.sessions[i].pc.Start?
    requires !ch.works || w.sessions[i].cancelled
    requires Exec(cfg, w1, es) == Some(w')
    ensures Ending(Written(cfg, w1, es, i))
  {
    var s := w.sessions[i];
    var a := ClientStep(cfg, s, w.bufs[s.owner], w.sent, ch).value;
    SendsWrites(cfg, cfg.clients[s.owner], s, w.sent, ch, a.s);
    hide Exec, Written, Sends, NewMessages;
    CancelledStops(cfg, w1, es, w', i);
  }

  // ---------------------------------------------------------------------------------------
  // How a session ends
  // ---------------------------------------------------------------------------------------

  lemma {:induction false} LiveBefore(cfg: Config, w: World, es: seq<Event>, w': World, i: nat)
    requires Exec(cfg, w, es) == Some(w') && i < |w.sessions| && w.sessions[i].owner < |cfg.clients|
    ensures i < |w'.sessions| && (Live(w'.sessions[i]) ==> Live(w.sessions[i]))
    decreases |es|
  {
    hide Next, Live;
    if es != [] {
      var w1 := Next(cfg, w, es[0]).value;
      SessionStays(cfg, w, es[0], w1, i);
      LiveBefore(cfg, w1, es[1..], w', i);
    }
  }

  /** From the lines a client gets to its end with a QUIT, or the connection is no more. */
  lemma EndsQuitting(cfg: Config, w: World, e: Event, w': World, i: nat)
    requires Next(cfg, w, e) == Some(w') && i < |w.sessions| && w.sessions[i].owner < |cfg.clients|
    requires InLines(w.sessions[i].pc) && !w.sessions[i].pc.Closed?
    ensures i < |w'.sessions| && InLines(w'.sessions[i].pc)
    ensures w'.sessions[i].pc.Closed? && Live(w'.sessions[i]) ==> NewMessages(w.sessions[i], w'.sessions[i]) == [QUIT]
  {
    hide ClientStep, ServerStep, NewMessages, Idle, Connected;
    SessionStays(cfg, w, e, w', i);
    var s := w.sessions[i];
    match e {
      case ClientActs(j, ch) =>
        if j == i {
          var a := ClientStep(cfg, s, w.bufs[s.owner], w.sent, ch).value;
          ClientEnds(cfg, s, w.bufs[s.owner], w.sent, ch, a);
        }
      case ServerActs(j, ch) =>
        if j == i { ServerMessages(cfg, s, |w.log|, ch, ServerStep(cfg, s, |w.log|, ch).value); }
      case _ =>
    }
  }

  lemma ClientEnds(cfg: Config, s: Session, buf: string, sent: set<(nat, string)>, ch: Choice, a: Acted)
    requires s.owner < |cfg.clients| && ClientStep(cfg, s, buf, sent, ch) == Some(a)
    requires InLines(s.pc) && !s.pc.Closed?
    ensures InLines(a.s.pc) && (a.s.pc.Closed? && Live(a.s) ==> NewMessages(s, a.s) == [QUIT])
  {
    var c := cfg.clients[s.owner];
    match s.pc {
      case WaitAck(_) =>
        hide Listens, NewMessages, LoginLeft;
        ListensWrites(cfg, c, s, buf, ch, a);
      case Marking(_) =>
      case _ =>
        hide Sends, NewMessages, Live;
        SendsWrites(cfg, c, s, sent, ch, a.s);
    }
  }

  /** A session that came into the lines and ended with the connection standing ended with QUIT. */
  lemma {:induction false} QuitIsLast(cfg: Config, w: World, es: seq<Event>, w': World, i: nat)
    requires Exec(cfg, w, es) == Some(w') && i < |w.sessions| && w.sessions[i].owner < |cfg.clients|
    requires InLines(w.sessions[i].pc) && !w.sessions[i].pc.Closed?
    requires i < |w'.sessions| && w'.sessions[i].pc.Closed? && Live(w'.sessions[i])
    ensures var ms := Written(cfg, w, es, i); ms != [] && ms[|ms| - 1] == QUIT
    decreases |es|
  {
    hide Next, NewMessages, Live, InLines;
    if es != [] {
      var w1 := Next(cfg, w, es[0]).value;
      SessionStays(cfg, w, es[0], w1, i);
      EndsQuitting(cfg, w, es[0], w1, i);
      if w1.sessions[i].pc.Closed? {
        LiveBefore(cfg, w1, es[1..], w', i);
        CancelledStops(cfg, w1, es[1..], w', i);
        assert [QUIT] + [] == [QUIT];
      } else {
        QuitIsLast(cfg, w1, es[1..], w', i);
      }
    }
  }

  // ---------------------------------------------------------------------------------------
  // What is announced
  // ---------------------------------------------------------------------------------------

  /** A new FILENAME line is that of a form still to be visited and not marked sent. */
  predicate NewNameIs(w: World, s: Session, t: Session, m: string) {
    exists n :: n in s.todo && n !in t.todo && (s.owner, n) !in w.sent && m == NameLine(n)
  }

  lemma StepAnnounces(cfg: Config, w: World, e: Event, w': World, i: nat)
    requires Sound(cfg) && Next(cfg, w, e) == Some(w') && i < |w.sessions| && w.sessions[i].owner < |cfg.clients|
    requires InLines(w.sessions[i].pc)
    ensures i < |w'.sessions| && w'.sessions[i].owner == w.sessions[i].owner && InLines(w'.sessions[i].pc)
    ensures w'.sessions[i].todo <= w.sessions[i].todo && w.sent <= w'.sent
    ensures var ms := NewMessages(w.sessions[i], w'.sessions[i]);
            && |ms| <= 1
            && (|ms| == 1 && StartsWith(ms[0], FILENAME) ==> NewNameIs(w, w.sessions[i], w'.sessions[i], ms[0]))
  {
    hide Sound, ClientStep, ServerStep, NewMessages, Idle, Connected, NewNameIs, InLines;
    var s := w.sessions[i];
    match e {
      case ClientActs(j, ch) =>
        if j == i {
          var a := ClientStep(cfg, s, w.bufs[s.owner], w.sent, ch).value;
          SoundForms(cfg, s.owner);
          ClientAnnounces(cfg, w, s, w.bufs[s.owner], ch, a);
        } else { SameNew(s, w'.sessions[i]); }
      case ServerActs(j, ch) =>
        if j == i {
          var d := ServerStep(cfg, s, |w.log|, ch).value;
          ServerMessages(cfg, s, |w.log|, ch, d);
        } else { SameNew(s, w'.sessions[i]); }
      case _ => SameNew(s, w'.sessions[i]);
    }
  }

  lemma ClientAnnounces(cfg: Config, w: World, s: Session, buf: string, ch: Choice, a: Acted)
    requires s.owner < |cfg.clients| && FormFiles(cfg.clients[s.owner].forms) && InLines(s.pc)
    requires ClientStep(cfg, s, buf, w.sent, ch) == Some(a)
    ensures a.s.owner == s.owner && InLines(a.s.pc) && a.s.todo <= s.todo
    ensures var ms := NewMessages(s, a.s);
            |ms| <= 1 && (|ms| == 1 && StartsWith(ms[0], FILENAME) ==> NewNameIs(w, s, a.s, ms[0]))
  {
    var c := cfg.clients[s.owner];
    if s.pc.WaitAck? {
      hide Listens, NewMessages, LoginLeft, FormFiles;
      ListensWrites(cfg, c, s, buf, ch, a);
    } else if s.pc.Marking? {
      SameNew(s, a.s);
    } else if s.pc.Closed? {
      ClosedStays(cfg, s, w.sent, ch);
    } else {
      hide Sends, NewMessages, Live, FormFiles, NameLine, PlainLine, ScanMay, SendingMay, NewNameIs;
      SendsWrites(cfg, c, s, w.sent, ch, a.s);
      EndsAreNoNames();
      if s.pc.Scan? { NewNameOf(w, s, ch, a.s, NewMessages(s, a.s)); }
      if s.pc.Sending? { NoNameInForm(c, s, a.s, NewMessages(s, a.s)); }
    }
  }

  lemma NewNameOf(w: World, s: Session, ch: Choice, t: Session, ms: seq<string>)
    requires ScanMay(s, w.sent, ch, t, ms)
    ensures |ms| <= 1 && (|ms| == 1 ==> NewNameIs(w, s, t, ms[0])) && InLines(t.pc)
  {
    hide NameLine, Live;
  }

  lemma NoNameInForm(c: Client, s: Session, t: Session, ms: seq<string>)
    requires FormFiles(c.forms) && s.pc.Sending? && s.pc.name in c.forms
    requires SendingMay(s, s.pc.name, c.forms[s.pc.name], s.pc.done, t, ms)
    ensures |ms| <= 1 && (|ms| == 1 ==> !StartsWith(ms[0], FILENAME)) && InLines(t.pc)
  {
    EndsAreNoNames();
    if s.pc.done < |c.forms[s.pc.name]| { FormLinePlain(c, s.pc.name, s.pc.done); }
    hide FormFiles, Live;
  }

  lemma EndsAreNoNames()
    ensures !StartsWith(DOT, FILENAME) && !StartsWith(QUIT, FILENAME)
  {
  }

  /** Every FILENAME line among these is that of a form still to be visited and not marked sent. */
  predicate UnsentNames(owner: nat, todo: set<string>, sent: set<(nat, string)>, ms: seq<string>) {
    forall j :: 0 <= j < |ms| && StartsWith(ms[j], FILENAME) ==>
      exists n :: n in todo && (owner, n) !in sent && ms[j] == NameLine(n)
  }

  /** No FILENAME line stands here twice. */
  predicate NoNameTwice(ms: seq<string>) {
    forall j, k :: 0 <= j < k < |ms| && StartsWith(ms[j], FILENAME) ==> ms[k] != ms[j]
  }

  /** Over a whole session no form is announced twice, and none that was marked sent. */
  lemma {:induction false} AnnouncedOnce(cfg: Config, w: World, es: seq<Event>, w': World, i: nat)
    requires Sound(cfg) && Exec(cfg, w, es) == Some(w') && i < |w.sessions| && w.sessions[i].owner < |cfg.clients|
    requires InLines(w.sessions[i].pc)
    ensures UnsentNames(w.sessions[i].owner, w.sessions[i].todo, w.sent, Written(cfg, w, es, i))
    ensures NoNameTwice(Written(cfg, w, es, i))
    decreases |es|
  {
    hide Next, NewMessages, Sound, InLines, NameLine, NewNameIs;
    if es != [] {
      var w1 := Next(cfg, w, es[0]).value;
      StepAnnounces(cfg, w, es[0], w1, i);
      AnnouncedOnce(cfg, w1, es[1..], w', i);
      hide UnsentNames, NoNameTwice;
      OnceMore(w, w.sessions[i], w1, w1.sessions[i], NewMessages(w.sessions[i], w1.sessions[i]),
               Written(cfg, w1, es[1..], i));
    }
  }

  lemma OnceMore(w: World, s: Session, w1: World, t: Session, a: seq<string>, b: seq<string>)
    requires t.owner == s.owner && t.todo <= s.todo && w.sent <= w1.sent
    requires |a| <= 1 && (|a| == 1 && StartsWith(a[0], FILENAME) ==> NewNameIs(w, s, t, a[0]))
    requires UnsentNames(t.owner, t.todo, w1.sent, b) && NoNameTwice(b)
    ensures UnsentNames(s.owner, s.todo, w.sent, a + b) && NoNameTwice(a + b)
  {
    var ms := a + b;
    assert forall j :: |a| <= j < |ms| ==> ms[j] == b[j - |a|];
    if |a| == 1 && StartsWith(a[0], FILENAME) {
      var n :| n in s.todo && n !in t.todo && (s.owner, n) !in w.sent && a[0] == NameLine(n);
      forall k | 1 <= k < |ms| ensures ms[k] != a[0] {
        if ms[k] == a[0] {
          assert StartsWith(b[k - 1], FILENAME);
          var m :| m in t.todo && (t.owner, m) !in w1.sent && b[k - 1] == NameLine(m);
          SameName(n, m);
        }
      }
    }
    hide NameLine;
  }

  lemma SameName(a: string, b: string)
    requires NameLine(a) == NameLine(b)
    ensures a == b
  {
    assert NameLine(a)[9..] == a + "\n" && NameLine(b)[9..] == b + "\n";
    assert (a + "\n")[..|a|] == a && (b + "\n")[..|b|] == b;
  }

  // ---------------------------------------------------------------------------------------
  // Which replies a client goes on after
  // ---------------------------------------------------------------------------------------

  /** What a readline makes of what arrived of one reply. */
  lemma TakenReply(s: Session, ch: Choice, maxlen: nat)
    requires maxlen > 1 && s.s2c <= s.reply && (Live(s) ==> s.s2c == s.reply)
    requires s.reply != "" ==> WholeLine(s.reply) && |s.reply| < maxlen
    ensures var r := Receive(s, "", ch, maxlen);
            r.Some? ==>
              && r.value.1 == s.(s2c := "", reply := "")
              && r.value.0 == (if s.s2c != "" && (s.s2c == s.reply || ch.ending == Eof) then Got(s.s2c)
                               else if ch.ending == Eof then Nothing else Error)
              && (s.s2c != "" && s.s2c != s.reply ==> !Terminated(s.s2c))
  {
    hide Avail, WholeLine, Terminated;
    ReceiveIs(s, ch, maxlen);
    assert "" + s.s2c == s.s2c;
    AvailIs(s.s2c, s.reply, ClosedToClient(s), ch.ending, maxlen);
  }

  lemma AvailIs(stream: string, reply: string, closed: bool, e: Ending, maxlen: nat)
    requires maxlen > 1 && stream <= reply && (!closed ==> stream == reply)
    requires reply != "" ==> WholeLine(reply) && |reply| < maxlen
    ensures var r := Avail(stream, closed, e, maxlen);
            r.Some? ==>
              r.value == if stream != "" && (stream == reply || e == Eof) then Got(stream)
                         else if e == Eof then Nothing else Error
    ensures stream != "" && stream != reply ==> !Terminated(stream)
  {
    if stream != "" && stream == reply {
      LinePrefixOfWhole(reply, "", maxlen - 1);
      assert reply + "" == reply;
    } else if stream < reply {
      LinePrefixOfCut(stream, reply, maxlen - 1);
      assert stream != "" ==> stream[|stream| - 1] == reply[|stream| - 1];
    }
    hide LinePrefix;
  }

  /** All of a reply arrived, or what arrived is read as a last line. */
  predicate Readable(s: Session, ch: Choice) { s.s2c == s.reply || ch.ending == Eof }

  /** Where a client goes after a reply, exactly, whatever became of it on the way: on after the magic and
      on to the mark only with the whole reply 500; on after the user with three bytes of it that read as
      the number 500; on after the password with three bytes that are not the number 303. */
  lemma HeardExactly(cfg: Config, w: World, i: nat, ch: Choice, w': World)
    requires Sound(cfg) && Reachable(cfg, w) && Next(cfg, w, ClientActs(i, ch)) == Some(w')
    requires Waiting(w.sessions[i].pc)
    ensures i < |w'.sessions|
    ensures var s, t := w.sessions[i], w'.sessions[i];
            match s.pc
            case WaitMagic => t.pc == if s.s2c == OK then SendUser else Closed
            case WaitUser =>
              t.pc == if |s.s2c| >= 3 && Readable(s, ch) && Strtol(CStr(s.s2c)) == 500 then SendPass else Closed
            case WaitPass =>
              t.pc == if |s.s2c| >= 3 && Readable(s, ch) && Strtol(CStr(s.s2c)) != 303 then Start else Closed
            case WaitAck(n) => if s.s2c == OK then t.pc == Marking(n) else t.pc == Scan && n in t.missed
            case _ => false
  {
    hide Sound, Reachable, WorldInv, SessionInv, ClientStep, Strtol, CStr;
    ReachableIs(cfg, w);
    var a := ClientActsIs(cfg, w, i, ch, w');
    InvOf(cfg, w, i);
    EmptyBuf(cfg, w, w.sessions[i].owner);
    AnsweredOf(cfg, w.sessions[i], w.log);
    hide Next, Answered, Readable;
    HeardIs(cfg, w.sessions[i], w.sent, ch, a, w.log);
  }

  /** How a reply counts that arrived whole or in part. */
  lemma GotCounts(text: string, reply: string, e: Ending, t: Taken)
    requires text <= reply && (reply != "" ==> WholeLine(reply) && |reply| >= 4)
    requires text != "" && text != reply ==> !Terminated(text)
    requires t == if text != "" && (text == reply || e == Eof) then Got(text) else if e == Eof then Nothing else Error
    ensures Returned(t) >= 4 <==> |text| >= 3 && (text == reply || e == Eof)
    ensures |reply| == 4 ==> (Returned(t) == 4 <==> |text| >= 3 && (text == reply || e == Eof))
    ensures reply == "" ==> Returned(t) != 4
    ensures Returned(t) >= 4 ==> t == Got(text)
    ensures reply == OK ==> (Returned(t) == 4 && StartsWith(text, OK) <==> text == OK)
  {
  }

  lemma ReplyShape(s: Session, log: seq<Entry>)
    requires Answered(s, log)
    ensures s.s2c <= s.reply && (Live(s) ==> s.s2c == s.reply)
    ensures s.reply != "" ==> WholeLine(s.reply) && 4 <= |s.reply| < MAXLINE
    ensures s.reply != "" && (s.pc.WaitMagic? || s.pc.WaitAck?) ==> s.reply == OK
    ensures s.reply != "" && s.pc.WaitPass? ==> |s.reply| == 4
  {
    OkIsLine();
    hide WholeLine, Logged;
  }

  /** The four places a client listens at. */
  lemma ListensIs(cfg: Config, s: Session, sent: set<(nat, string)>, ch: Choice, a: Acted)
    requires s.owner < |cfg.clients| && Waiting(s.pc) && ClientStep(cfg, s, "", sent, ch) == Some(a)
    ensures Receive(s, "", ch, RoomAt(s.pc)).Some?
    ensures var t := Receive(s, "", ch, RoomAt(s.pc)).value.0;
            var s1 := Receive(s, "", ch, RoomAt(s.pc)).value.1;
            match s.pc
            case WaitMagic => a.s.pc == if Returned(t) == 4 && StartsWith(t.text, OK) then SendUser else Closed
            case WaitUser => a.s.pc == if Returned(t) >= 4 && Strtol(CStr(t.text)) == 500 then SendPass else Closed
            case WaitPass => a.s.pc == if Returned(t) == 4 && Strtol(CStr(t.text)) != 303 then Start else Closed
            case WaitAck(n) => a.s == if Returned(t) == 4 && StartsWith(t.text, OK) then s1.(pc := Marking(n))
                                      else Missed(s1, n, Scan)
            case _ => false
  {
    hide Receive, Strtol, CStr, StartsWith;
  }

  lemma HeardIs(cfg: Config, s: Session, sent: set<(nat, string)>, ch: Choice, a: Acted, log: seq<Entry>)
    requires s.owner < |cfg.clients| && Answered(s, log) && Waiting(s.pc) && ClientStep(cfg, s, "", sent, ch) == Some(a)
    ensures var t := a.s;
            match s.pc
            case WaitMagic => t.pc == if s.s2c == OK then SendUser else Closed
            case WaitUser =>
              t.pc == if |s.s2c| >= 3 && Readable(s, ch) && Strtol(CStr(s.s2c)) == 500 then SendPass else Closed
            case WaitPass =>
              t.pc == if |s.s2c| >= 3 && Readable(s, ch) && Strtol(CStr(s.s2c)) != 303 then Start else Closed
            case WaitAck(n) => if s.s2c == OK then t.pc == Marking(n) else t.pc == Scan && n in t.missed
            case _ => false
  {
    hide ClientStep, Answered, Receive, Strtol, CStr, WholeLine, Returned, StartsWith, Terminated;
    ReplyShape(s, log);
    TakenReply(s, ch, RoomAt(s.pc));
    ListensIs(cfg, s, sent, ch, a);
    GotCounts(s.s2c, s.reply, ch.ending, Receive(s, "", ch, RoomAt(s.pc)).value.0);
  }
}
