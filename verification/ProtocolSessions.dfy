/** What a session that goes through leaves behind. */
module ProtocolSessions {
  import opened Bytes
  import opened Streams
  import opened Records
  import opened Server
  import opened Framing
  import opened Protocol
  import opened ProtocolInvariant
  import opened ProtocolClient
  import opened ProtocolServer
  import opened ProtocolRuns
  import opened Announcements
  import opened ProtocolTheorems
  import opened ProtocolProgress

  // ---------------------------------------------------------------------------------------
  // No form is forgotten
  // ---------------------------------------------------------------------------------------

  /** The client is busy with form `n`. */
  predicate Busy(pc: Pc, n: string) {
    match pc
    case Named(m) => m == n
    case Sending(m, _) => m == n
    case WaitAck(m) => m == n
    case Marking(m) => m == n
    case _ => false
  }

  /** Every form is still to be visited, in hand, marked sent, or counted as missed. */
  ghost predicate Accounted(c: Client, s: Session, sent: set<(nat, string)>) {
    forall n :: n in c.forms ==> n in s.todo || n in s.missed || (s.owner, n) in sent || Busy(s.pc, n)
  }

  ghost predicate AllAccounted(cfg: Config, w: World) {
    forall i :: 0 <= i < |w.sessions| && w.sessions[i].owner < |cfg.clients| ==>
      Accounted(cfg.clients[w.sessions[i].owner], w.sessions[i], w.sent)
  }

  lemma StartAccounts(cfg: Config, c: Client, s: Session, sent: set<(nat, string)>, ch: Choice, t: Session)
    requires s.owner < |cfg.clients| && c == cfg.clients[s.owner] && Sends(cfg, s, sent, ch) == Some(t)
    requires s.pc.Start? || s.pc.Named? || s.pc.Quitting?
    requires Accounted(c, s, sent)
    ensures Accounted(c, t, sent)
  {
    if s.pc.Quitting? { WroteParts(s, QUIT, ch); }
    hide NameLine, Announced, Wrote;
  }

  /** A form taken off the directory is in hand, sent already, or missed. */
  lemma VisitAccounts(c: Client, s: Session, sent: set<(nat, string)>, n: string, t: Session)
    requires Accounted(c, s, sent) && s.pc.Scan? && t.owner == s.owner && s.todo - {n} <= t.todo && s.missed <= t.missed
    requires n in t.missed || (s.owner, n) in sent || Busy(t.pc, n)
    ensures Accounted(c, t, sent)
  {
  }

  lemma ScanAccounts(cfg: Config, c: Client, s: Session, sent: set<(nat, string)>, ch: Choice, t: Session)
    requires s.owner < |cfg.clients| && c == cfg.clients[s.owner] && Sends(cfg, s, sent, ch) == Some(t)
    requires s.pc.Scan? && Accounted(c, s, sent)
    ensures Accounted(c, t, sent)
  {
    hide NameLine, Announced, Wrote, Accounted;
    AnnounceLater(s, ch.name, ch);
    if s.todo == {} {
      QuittingAccounts(c, s, sent);
    } else {
      VisitAccounts(c, s, sent, ch.name, t);
    }
  }

  lemma QuittingAccounts(c: Client, s: Session, sent: set<(nat, string)>)
    requires Accounted(c, s, sent) && s.pc.Scan?
    ensures Accounted(c, s.(pc := Quitting), sent)
  {
  }

  lemma SendingAccounts(cfg: Config, c: Client, s: Session, sent: set<(nat, string)>, ch: Choice, t: Session)
    requires s.owner < |cfg.clients| && c == cfg.clients[s.owner] && Sends(cfg, s, sent, ch) == Some(t)
    requires s.pc.Sending? && Accounted(c, s, sent)
    ensures Accounted(c, t, sent)
  {
    if s.pc.name in c.forms {
      WroteParts(s, if s.pc.done < |c.forms[s.pc.name]| then c.forms[s.pc.name][s.pc.done] else DOT, ch);
    }
    hide NameLine, Announced, Wrote;
  }

  lemma AsksAccounts(cfg: Config, c: Client, s: Session, sent: set<(nat, string)>, ch: Choice, a: Acted)
    requires s.owner < |cfg.clients| && c == cfg.clients[s.owner] && Asking(cfg, s, "", ch) == Some(a)
    requires Accounted(c, s, sent)
    ensures Accounted(c, a.s, sent)
  {
    AskingIs(cfg, s, "", ch, a);
    WroteParts(s, RequestAt(cfg, c, s.pc), ch);
    hide Wrote, RequestAt, Asking;
  }

  lemma HearsAccounts(cfg: Config, c: Client, s: Session, sent: set<(nat, string)>, ch: Choice, a: Acted,
                      log: seq<Entry>)
    requires Answered(s, log) && Listens(s, "", ch) == Some(a) && Waiting(s.pc)
    requires Accounted(c, s, sent)
    ensures Accounted(c, a.s, sent)
  {
    hide Listens, Answered;
    if s.pc.WaitAck? { AckIs(s, ch, a, log); } else { HearingIs(cfg, s, ch, a, log); }
  }

  /** A client step loses sight of no form. */
  lemma ClientAccounts(cfg: Config, c: Client, s: Session, sent: set<(nat, string)>, ch: Choice, log: seq<Entry>,
                       a: Acted)
    requires s.owner < |cfg.clients| && c == cfg.clients[s.owner] && ClientStep(cfg, s, "", sent, ch) == Some(a)
    requires SessionInv(cfg, s, log) && Accounted(c, s, sent)
    ensures Accounted(c, a.s, sent + set n | n in a.marks :: (s.owner, n))
  {
    hide Asking, Listens, Sends, SessionInv, Accounted, Answered, Over;
    AnsweredOf(cfg, s, log);
    match s.pc {
      case SendMagic | SendUser | SendPass =>
        AsksMarks(cfg, s, "", ch, a);
        AsksAccounts(cfg, c, s, sent, ch, a);
      case WaitMagic | WaitUser | WaitPass | WaitAck(_) =>
        ListensMarks(s, ch, a);
        HearsAccounts(cfg, c, s, sent, ch, a, log);
      case Marking(_) => MarkAccounts(c, s, sent, ch.works, a);
      case Sending(_, _) => SendingAccounts(cfg, c, s, sent, ch, a.s);
      case Scan => ScanAccounts(cfg, c, s, sent, ch, a.s);
      case Start | Named(_) | Quitting => StartAccounts(cfg, c, s, sent, ch, a.s);
      case Closed => ClosedRests(cfg, s, sent, ch);
    }
    NoMarks(sent, s.owner, a.marks);
  }

  lemma NoMarks(sent: set<(nat, string)>, p: nat, marks: set<string>)
    ensures marks == {} ==> sent + (set n | n in marks :: (p, n)) == sent
  {
  }

  lemma ListensMarks(s: Session, ch: Choice, a: Acted)
    requires Listens(s, "", ch) == Some(a)
    ensures a.marks == {}
  {
    hide Receive, Returned, StartsWith, Strtol, CStr, Missed;
  }

  lemma MarkAccounts(c: Client, s: Session, sent: set<(nat, string)>, works: bool, a: Acted)
    requires s.pc.Marking? && Accounted(c, s, sent)
    requires a.s == (if works then Over(s) else Missed(Over(s), s.pc.name, Scan))
    requires a.marks == if works then {s.pc.name} else {}
    ensures Accounted(c, a.s, sent + set n | n in a.marks :: (s.owner, n))
  {
    var sent' := sent + set n | n in a.marks :: (s.owner, n);
    forall n | n in c.forms ensures n in a.s.todo || n in a.s.missed || (a.s.owner, n) in sent' || Busy(a.s.pc, n) {
      assert works && n == s.pc.name ==> n in a.marks;
    }
  }

  lemma AccountedGrows(c: Client, s: Session, sent: set<(nat, string)>, more: set<(nat, string)>)
    requires Accounted(c, s, sent)
    ensures Accounted(c, s, sent + more)
  {
  }

  /** Every event keeps all forms of all sessions accounted for. */
  lemma EventAccounts(cfg: Config, w: World, e: Event, w': World)
    requires Sound(cfg) && WorldInv(cfg, w) && AllAccounted(cfg, w) && Next(cfg, w, e) == Some(w')
    ensures AllAccounted(cfg, w')
  {
    hide WorldInv, Sound, Accounted, ClientStep, ServerStep, SessionInv, Idle;
    match e {
      case ClientActs(i, ch) => ClientActAccounts(cfg, w, i, ch, w');
      case ServerActs(i, ch) =>
        InvOf(cfg, w, i);
        var d := ServerStep(cfg, w.sessions[i], |w.log|, ch).value;
        ServerShrinks(cfg, w.sessions[i], |w.log|, ch, w.log, d);
        SameAccounts(cfg, w, w', i);
      case Connect(p) => NewAccounts(cfg.clients[p], p, w.sent);
      case Cut(i, _, _) => SameAccounts(cfg, w, w', i);
      case GiveUp(i) => SameAccounts(cfg, w, w', i);
      case Cancel(i) => SameAccounts(cfg, w, w', i);
    }
  }

  lemma NewAccounts(c: Client, p: nat, sent: set<(nat, string)>)
    ensures Accounted(c, Connected(p, c.forms.Keys), sent)
  {
  }

  lemma SameAccounts(cfg: Config, w: World, w': World, i: nat)
    requires AllAccounted(cfg, w) && i < |w.sessions| && w'.sent == w.sent && |w'.sessions| == |w.sessions|
    requires forall j :: 0 <= j < |w.sessions| && j != i ==> w'.sessions[j] == w.sessions[j]
    requires var s, t := w.sessions[i], w'.sessions[i];
             t.pc == s.pc && t.todo == s.todo && t.missed == s.missed && t.owner == s.owner
    ensures AllAccounted(cfg, w')
  {
    forall j | 0 <= j < |w'.sessions| && w'.sessions[j].owner < |cfg.clients|
      ensures Accounted(cfg.clients[w'.sessions[j].owner], w'.sessions[j], w'.sent)
    {
      assert Accounted(cfg.clients[w.sessions[j].owner], w.sessions[j], w.sent);
      if j == i { SameAccount(cfg.clients[w.sessions[i].owner], w.sessions[i], w'.sessions[i], w.sent); }
    }
    hide Accounted;
  }

  lemma SameAccount(c: Client, s: Session, t: Session, sent: set<(nat, string)>)
    requires Accounted(c, s, sent) && t.pc == s.pc && t.todo == s.todo && t.missed == s.missed && t.owner == s.owner
    ensures Accounted(c, t, sent)
  {
  }

  lemma ClientActAccounts(cfg: Config, w: World, i: nat, ch: Choice, w': World)
    requires Sound(cfg) && WorldInv(cfg, w) && AllAccounted(cfg, w) && Next(cfg, w, ClientActs(i, ch)) == Some(w')
    ensures AllAccounted(cfg, w')
  {
    hide WorldInv, Sound, Accounted, ClientStep, SessionInv, Next, Logged;
    var a := ClientActsIs(cfg, w, i, ch, w');
    var s := w.sessions[i];
    MagicLength(cfg);
    InvOf(cfg, w, i);
    EmptyBuf(cfg, w, s.owner);
    ClientKeeps(cfg, s, w.sent, ch, w.log, a);
    ClientAccounts(cfg, cfg.clients[s.owner], s, w.sent, ch, w.log, a);
    forall j | 0 <= j < |w'.sessions| && w'.sessions[j].owner < |cfg.clients|
      ensures Accounted(cfg.clients[w'.sessions[j].owner], w'.sessions[j], w'.sent)
    {
      if j != i { AccountedGrows(cfg.clients[w.sessions[j].owner], w.sessions[j], w.sent,
          set n | n in a.marks :: (s.owner, n)); }
    }
  }

  lemma {:induction false} RunAccounts(cfg: Config, w: World, es: seq<Event>, w': World)
    requires Sound(cfg) && WorldInv(cfg, w) && AllAccounted(cfg, w) && Exec(cfg, w, es) == Some(w')
    ensures AllAccounted(cfg, w')
    decreases |es|
  {
    hide WorldInv, Next, Sound, AllAccounted;
    if es != [] {
      var w1 := Next(cfg, w, es[0]).value;
      NextKeeps(cfg, w, es[0], w1);
      EventAccounts(cfg, w, es[0], w1);
      RunAccounts(cfg, w1, es[1..], w');
    }
  }

  /** A session that visited the whole directory and missed nothing leaves every form of its
      client marked sent. */
  lemma ThroughMeansSent(cfg: Config, w: World, i: nat)
    requires Sound(cfg) && Reachable(cfg, w) && i < |w.sessions| && w.sessions[i].owner < |cfg.clients|
    requires var s := w.sessions[i]; s.pc.Closed? && s.todo == {} && s.missed == {}
    ensures AllSent(cfg.clients[w.sessions[i].owner], w.sessions[i].owner, w.sent)
  {
    hide WorldInv, Next, Sound, Accounted;
    var es: seq<Event> :| Exec(cfg, Init(cfg), es) == Some(w);
    InitKeeps(cfg);
    RunAccounts(cfg, Init(cfg), es, w);
    ThroughIsSent(cfg.clients[w.sessions[i].owner], w.sessions[i], w.sent);
  }

  lemma ThroughIsSent(c: Client, s: Session, sent: set<(nat, string)>)
    requires Accounted(c, s, sent) && s.pc.Closed? && s.todo == {} && s.missed == {}
    ensures AllSent(c, s.owner, sent)
  {
  }

  // ---------------------------------------------------------------------------------------
  // When no name is announced in vain
  // ---------------------------------------------------------------------------------------

  /** Of the names announced since the last acknowledgement there is only the form in hand. */
  predicate Single(s: Session) {
    && (match s.pc
        case Start => s.names == []
        case Scan => Live(s) && !s.cancelled ==> s.names == []
        case Named(_) => Live(s) && !s.cancelled ==> |s.names| == 1
        case Sending(_, _) => Live(s) ==> |s.names| == 1
        case WaitAck(_) => Live(s) || s.reply != "" ==> |s.names| == 1
        case Marking(_) => |s.names| == 1
        case _ => true)
    && (DOT in s.msgs ==> |s.names| == 1)
  }

  /** So it is in every session of client p, and was at every put of it. */
  ghost predicate AllSingle(w: World, p: nat) {
    && (forall i :: 0 <= i < |w.sessions| && w.sessions[i].owner == p ==> Single(w.sessions[i]))
    && (forall k :: 0 <= k < |w.log| && w.log[k].client == p ==> |w.log[k].names| == 1)
  }

  /** A form that client p just announced can be opened again. */
  predicate Reopens(w: World, e: Event, p: nat) {
    e.ClientActs? && e.i < |w.sessions| && w.sessions[e.i].owner == p && w.sessions[e.i].pc.Named? ==> e.choice.works
  }

  ghost predicate AllReopen(cfg: Config, w: World, es: seq<Event>, p: nat)
    decreases |es|
  {
    es != [] ==>
      && Reopens(w, es[0], p)
      && (Next(cfg, w, es[0]).Some? ==> AllReopen(cfg, Next(cfg, w, es[0]).value, es[1..], p))
  }

  lemma ScanSingle(cfg: Config, s: Session, sent: set<(nat, string)>, ch: Choice, t: Session)
    requires s.owner < |cfg.clients| && Sends(cfg, s, sent, ch) == Some(t) && s.pc.Scan? && Single(s)
    requires Live(s) ==> DOT !in s.msgs
    ensures Single(t)
  {
    hide Announced, NameLine, Wrote;
    ScanIs(cfg, s, sent, ch, t);
    AnnouncedIs(s, ch.name, ch);
    NotADot(ch.name);
    if Live(s) { AppendNotIn(s.msgs, NameLine(ch.name)); }
  }

  lemma NamedSingle(cfg: Config, s: Session, sent: set<(nat, string)>, ch: Choice, t: Session)
    requires s.owner < |cfg.clients| && Sends(cfg, s, sent, ch) == Some(t) && (s.pc.Start? || s.pc.Named?)
    requires Single(s) && (s.pc.Named? ==> ch.works)
    ensures Single(t)
  {
    hide Announced, NameLine, Wrote;
  }

  lemma SendingSingle(cfg: Config, s: Session, sent: set<(nat, string)>, ch: Choice, t: Session)
    requires s.owner < |cfg.clients| && Sends(cfg, s, sent, ch) == Some(t) && s.pc.Sending? && Single(s)
        && s.reply == ""
    ensures Single(t)
  {
    SendingIs(cfg, s, sent, ch, t);
    var lines := if s.pc.name in cfg.clients[s.owner].forms then cfg.clients[s.owner].forms[s.pc.name] else [];
    WroteLive(s, if s.pc.done < |lines| then lines[s.pc.done] else DOT, ch);
    hide Sends, Wrote;
  }

  lemma WroteLive(s: Session, msg: string, ch: Choice)
    ensures var w := Wrote(s, msg, ch);
            && w == s.(c2s := w.c2s, msgs := w.msgs, up := w.up)
            && (Live(w) ==> Live(s)) && (!ch.writes ==> !Live(w)) && (w.msgs != s.msgs ==> Live(s))
  {
  }

  lemma QuitSingle(cfg: Config, s: Session, sent: set<(nat, string)>, ch: Choice, t: Session)
    requires s.owner < |cfg.clients| && Sends(cfg, s, sent, ch) == Some(t) && s.pc.Quitting? && Single(s)
    requires Live(s) ==> DOT !in s.msgs
    ensures Single(t)
  {
    WroteLive(s, QUIT, ch);
    assert DOT[0] == '.' && QUIT[0] == 'Q';
    if Live(s) { AppendNotIn(s.msgs, QUIT); }
  }

  lemma AsksSingle(cfg: Config, s: Session, ch: Choice, a: Acted)
    requires s.owner < |cfg.clients| && Asking(cfg, s, "", ch) == Some(a) && DOT !in a.s.msgs
    ensures Single(a.s)
  {
    AskingIs(cfg, s, "", ch, a);
    hide Wrote, RequestAt, Asking;
  }

  lemma HearsSingle(cfg: Config, s: Session, ch: Choice, a: Acted, log: seq<Entry>)
    requires Answered(s, log) && Listens(s, "", ch) == Some(a) && Waiting(s.pc) && Single(s)
    requires !s.pc.WaitAck? ==> s.names == []
    ensures Single(a.s)
  {
    hide Listens, Answered;
    if s.pc.WaitAck? { AckIs(s, ch, a, log); } else { HearingIs(cfg, s, ch, a, log); }
    hide Logged;
  }

  /** No dot goes out but at the end of a form. */
  lemma DotOnlyInForms(cfg: Config, s: Session, log: seq<Entry>)
    requires SessionInv(cfg, s, log) && DOT in s.msgs
    ensures s.names != []
  {
    hide Carried, Answered, InStep, Followed, Admitted, Settled, GoodClient, Placed, Logged;
  }

  /** The handshake announces nothing. */
  lemma HandshakeNames(cfg: Config, s: Session, log: seq<Entry>)
    requires SessionInv(cfg, s, log) && !InLines(s.pc)
    ensures s.names == []
  {
    hide Carried, Answered, InStep, Followed, Admitted, Settled, GoodClient, Placed, Logged, Exact;
  }

  /** Between forms and at the end no dot is on the way that the server could still take. */
  lemma NoDotBetween(cfg: Config, s: Session, log: seq<Entry>)
    requires SessionInv(cfg, s, log) && Live(s) && (s.pc.Scan? || s.pc.Named? || s.pc.Quitting?)
    ensures DOT !in s.msgs
  {
    hide Carried, Answered, InStep, Followed, Admitted, Settled, GoodClient, Logged, Exact, NameLines;
  }

  lemma ClientSingle(cfg: Config, s: Session, sent: set<(nat, string)>, ch: Choice, log: seq<Entry>, a: Acted)
    requires |cfg.magic| == DIGEST && s.owner < |cfg.clients| && ClientStep(cfg, s, "", sent, ch) == Some(a)
    requires SessionInv(cfg, s, log) && Single(s) && (s.pc.Named? ==> ch.works)
    ensures Single(a.s)
  {
    hide Asking, Listens, Sends, SessionInv, Answered, Over, Single, InLines;
    ClientKeeps(cfg, s, sent, ch, log, a);
    AnsweredOf(cfg, s, log);
    LinesPc(s.pc);
    match s.pc {
      case SendMagic | SendUser | SendPass =>
        HandshakePc(s.pc);
        HandshakeNames(cfg, s, log);
        AskingKeepsNames(cfg, s, ch, a);
        if DOT in a.s.msgs { DotOnlyInForms(cfg, a.s, log); }
        AsksSingle(cfg, s, ch, a);
      case WaitMagic | WaitUser | WaitPass | WaitAck(_) =>
        HandshakePc(s.pc);
        if !s.pc.WaitAck? { HandshakeNames(cfg, s, log); }
        HearsSingle(cfg, s, ch, a, log);
      case Marking(_) => OverSingle(s);
      case Sending(_, _) =>
        PlaceOf(cfg, s, log);
        SendingSingle(cfg, s, sent, ch, a.s);
      case Scan =>
        if Live(s) { NoDotBetween(cfg, s, log); }
        ScanSingle(cfg, s, sent, ch, a.s);
      case Start | Named(_) => NamedSingle(cfg, s, sent, ch, a.s);
      case Quitting =>
        if Live(s) { NoDotBetween(cfg, s, log); }
        QuitSingle(cfg, s, sent, ch, a.s);
      case Closed => ClosedRests(cfg, s, sent, ch);
    }
  }

  lemma HandshakePc(pc: Pc)
    ensures pc.SendMagic? || pc.SendUser? || pc.SendPass? || pc.WaitMagic? || pc.WaitUser? || pc.WaitPass?
        ==> !InLines(pc)
  {
  }

  lemma AskingKeepsNames(cfg: Config, s: Session, ch: Choice, a: Acted)
    requires s.owner < |cfg.clients| && Asking(cfg, s, "", ch) == Some(a)
    ensures a.s.names == s.names
  {
    AskingIs(cfg, s, "", ch, a);
    WroteParts(s, RequestAt(cfg, cfg.clients[s.owner], s.pc), ch);
    hide Wrote, RequestAt, Asking;
  }

  lemma OverSingle(s: Session)
    ensures Single(Over(s)) && forall n :: Single(Missed(Over(s), n, Scan))
  {
  }

  /** As long as client p can reopen the forms it announced, every event leaves it only single names. */
  lemma EventSingle(cfg: Config, w: World, e: Event, w': World, p: nat)
    requires Sound(cfg) && WorldInv(cfg, w) && AllSingle(w, p) && Reopens(w, e, p) && Next(cfg, w, e) == Some(w')
    ensures AllSingle(w', p)
  {
    hide WorldInv, Sound, Single, ClientStep, ServerStep, SessionInv, Idle, Shrinks;
    match e {
      case ClientActs(i, ch) =>
        InvOf(cfg, w, i);
        MagicLength(cfg);
        EmptyBuf(cfg, w, w.sessions[i].owner);
        var a := ClientStep(cfg, w.sessions[i], w.bufs[w.sessions[i].owner], w.sent, ch).value;
        ClientKeeps(cfg, w.sessions[i], w.sent, ch, w.log, a);
        if w.sessions[i].owner == p { ClientSingle(cfg, w.sessions[i], w.sent, ch, w.log, a); }
      case ServerActs(i, ch) =>
        InvOf(cfg, w, i);
        var d := ServerStep(cfg, w.sessions[i], |w.log|, ch).value;
        ServerShrinks(cfg, w.sessions[i], |w.log|, ch, w.log, d);
        ServerKeeps(cfg, w.sessions[i], ch, w.log, d);
        EntryIsOwners(cfg, w.sessions[i], |w.log|, ch, d);
        if w.sessions[i].owner == p {
          ServerIsSingle(w.sessions[i], d.s);
          if d.entry.Some? { DotIsSingle(w.sessions[i]); }
        }
      case Connect(q) => FreshSingle(q, cfg.clients[q].forms.Keys);
      case Cut(i, m, n) => if w.sessions[i].owner == p { LessIsSingle(w.sessions[i], w'.sessions[i]); }
      case GiveUp(i) => if w.sessions[i].owner == p { LessIsSingle(w.sessions[i], w'.sessions[i]); }
      case Cancel(i) => if w.sessions[i].owner == p { LessIsSingle(w.sessions[i], w'.sessions[i]); }
    }
  }

  /** A put counts for the client of its session. */
  lemma EntryIsOwners(cfg: Config, s: Session, at: nat, ch: Chance, d: Served)
    requires ServerStep(cfg, s, at, ch) == Some(d)
    ensures d.entry.Some? ==> d.entry.value.client == s.owner
  {
    hide TakesMagic, TakesUser, TakesPass, Avail, OnLine, Answer, Heard, Strtol, Listening;
  }

  lemma ServerIsSingle(s: Session, t: Session)
    requires Shrinks(s, t) && Single(s)
    ensures Single(t)
  {
  }

  lemma DotIsSingle(s: Session)
    requires Single(s) && DOT in s.msgs
    ensures |s.names| == 1
  {
  }

  lemma FreshSingle(p: nat, todo: set<string>)
    ensures Single(Connected(p, todo))
  {
  }

  lemma LessIsSingle(s: Session, t: Session)
    requires Single(s) && t.pc == s.pc && t.names == s.names && t.msgs == s.msgs && t.reply == s.reply
    requires (s.cancelled ==> t.cancelled) && (Live(t) ==> Live(s))
    ensures Single(t)
  {
  }

  lemma {:induction false} RunSingle(cfg: Config, w: World, es: seq<Event>, w': World, p: nat)
    requires Sound(cfg) && WorldInv(cfg, w) && AllSingle(w, p) && AllReopen(cfg, w, es, p)
    requires Exec(cfg, w, es) == Some(w')
    ensures AllSingle(w', p)
    decreases |es|
  {
    hide WorldInv, Next, Sound, AllSingle, Reopens;
    if es != [] {
      var w1 := Next(cfg, w, es[0]).value;
      NextKeeps(cfg, w, es[0], w1);
      EventSingle(cfg, w, es[0], w1, p);
      RunSingle(cfg, w1, es[1..], w', p);
    }
  }

  /** A run from the start in which client p could reopen every form it announced. Nothing is asked
      of the others. */
  ghost predicate ReopeningRun(cfg: Config, es: seq<Event>, w: World, p: nat) {
    Exec(cfg, Init(cfg), es) == Some(w) && AllReopen(cfg, Init(cfg), es, p)
  }

  lemma ReopeningRunIs(cfg: Config, es: seq<Event>, w: World, p: nat)
    requires Sound(cfg) && ReopeningRun(cfg, es, w, p)
    ensures Reachable(cfg, w) && WorldInv(cfg, w) && AllSingle(w, p)
  {
    hide WorldInv, Sound, Next, AllSingle, AllReopen, Init;
    assert Reachable(cfg, w);
    InitKeeps(cfg);
    InitSingle(cfg, p);
    RunSingle(cfg, Init(cfg), es, w, p);
    ReachableIs(cfg, w);
  }

  lemma OwnIsClean(w: World, k: nat)
    requires k < |w.log| && AllSingle(w, w.log[k].client) && OwnSince(w.log, k)
    ensures CleanSince(w.log, k)
  {
    hide Single;
  }

  /** End to end, over every run in which client p could open the forms it announced again -
      connections cut anywhere, sessions cancelled anywhere, files of the server and of all other
      clients failing at will: behind every form p marked sent there are puts, all of them of exactly
      its lines under its own key, and as long as no other client puts that key the database holds the
      form, however often it was sent again. */
  lemma EndToEnd(cfg: Config, es: seq<Event>, w: World, p: nat, n: string)
    requires Sound(cfg) && ReopeningRun(cfg, es, w, p) && (p, n) in w.sent
    ensures HasPut(w.log, p, n)
    ensures p < |cfg.clients| && |cfg.clients[p].login| == 4 && n in cfg.clients[p].forms && |n| >= 4
    ensures forall k :: 0 <= k < |w.log| && PutOf(w.log[k], p, n) ==>
              && w.log[k].college == CollegeNumber(cfg.clients[p]) && w.log[k].key == KeyOf(n)
              && w.log[k].record == Pack(cfg.clients[p].forms[n]) && w.log[k].text == Flatten(cfg.clients[p].forms[n])
              && (OwnSince(w.log, k) ==> Kept(cfg.clients[p], n, w.log))
  {
    hide WorldInv, Sound, AllSingle, CollegeNumber, Pack, Flatten, KeyOf, OwnSince, Kept, Reachable, ReopeningRun,
      HasPut, Faithful;
    ReopeningRunIs(cfg, es, w, p);
    SentHasPut(cfg, w, p, n);
    var k0 := SomePut(w.log, p, n);
    PutIsOwn(cfg, w, p, n, k0);
    forall k | 0 <= k < |w.log| && PutOf(w.log[k], p, n)
      ensures w.log[k].college == CollegeNumber(cfg.clients[p]) && w.log[k].key == KeyOf(n)
      ensures w.log[k].record == Pack(cfg.clients[p].forms[n]) && w.log[k].text == Flatten(cfg.clients[p].forms[n])
      ensures OwnSince(w.log, k) ==> Kept(cfg.clients[p], n, w.log)
    {
      PutIsOwn(cfg, w, p, n, k);
    }
  }

  lemma SomePut(log: seq<Entry>, p: nat, n: string) returns (k: nat)
    requires HasPut(log, p, n)
    ensures k < |log| && PutOf(log[k], p, n)
  {
    k :| k < |log| && PutOf(log[k], p, n);
  }

  /** In such a run every put is the form announced for it. */
  lemma PutIsOwn(cfg: Config, w: World, p: nat, n: string, k: nat)
    requires Sound(cfg) && WorldInv(cfg, w) && AllSingle(w, p) && k < |w.log| && PutOf(w.log[k], p, n)
    ensures p < |cfg.clients| && |cfg.clients[p].login| == 4 && n in cfg.clients[p].forms && |n| >= 4
    ensures w.log[k].college == CollegeNumber(cfg.clients[p]) && w.log[k].key == KeyOf(n)
    ensures w.log[k].record == Pack(cfg.clients[p].forms[n]) && w.log[k].text == Flatten(cfg.clients[p].forms[n])
    ensures OwnSince(w.log, k) ==> Kept(cfg.clients[p], n, w.log)
  {
    hide WorldInv, Sound, AllSingle, CollegeNumber, Pack, Flatten, KeyOf, OwnSince, CleanSince, Kept, Faithful,
      FormFiles;
    SingleAt(w, k);
    var c := FaithfulAt(cfg, w, k);
    FaithfulKey(c, w.log[k]);
    if OwnSince(w.log, k) {
      OwnIsClean(w, k);
      CleanIsKept(cfg, w, k);
    }
  }

  /** At the step that marks a form sent the database holds it, unless another client put its key
      since this exchange did. */
  lemma MarkedIsKept(cfg: Config, es: seq<Event>, w: World, e: Event, w': World, p: nat, n: string)
    requires Sound(cfg) && ReopeningRun(cfg, es, w, p) && Next(cfg, w, e) == Some(w')
    requires (p, n) in w'.sent && (p, n) !in w.sent
    ensures e.ClientActs? && e.i < |w.sessions| && w.sessions[e.i].owner == p
    ensures p < |cfg.clients| && |cfg.clients[p].login| == 4 && n in cfg.clients[p].forms && |n| >= 4
    ensures var stored := w.sessions[e.i].stored;
            && stored.Some? && stored.value < |w.log| && PutOf(w.log[stored.value], p, n)
            && (OwnSince(w.log, stored.value) ==> Kept(cfg.clients[p], n, w'.log))
  {
    hide WorldInv, Sound, AllSingle, CollegeNumber, OwnSince, CleanSince, Kept, Reachable, ReopeningRun, Next;
    ReopeningRunIs(cfg, es, w, p);
    MarkStep(cfg, w, e, w', p, n);
    PutIsOwn(cfg, w, p, n, w.sessions[e.i].stored.value);
  }

  lemma InitSingle(cfg: Config, p: nat)
    ensures AllSingle(Init(cfg), p)
  {
  }

  lemma SingleAt(w: World, k: nat)
    requires k < |w.log| && AllSingle(w, w.log[k].client)
    ensures |w.log[k].names| == 1
  {
    hide Single;
  }

  // ---------------------------------------------------------------------------------------
  // Convergence
  // ---------------------------------------------------------------------------------------

  /** No other client program logs in for the college of client p. */
  ghost predicate SoleSender(cfg: Config, p: nat) {
    && p < |cfg.clients| && |cfg.clients[p].login| == 4
    && forall q :: 0 <= q < |cfg.clients| && q != p && |cfg.clients[q].login| == 4 ==>
         CollegeNumber(cfg.clients[q]) != CollegeNumber(cfg.clients[p])
  }

  lemma SoleIsUndisturbed(cfg: Config, w: World, p: nat)
    requires Sound(cfg) && WorldInv(cfg, w) && AllSingle(w, p) && SoleSender(cfg, p)
    ensures Undisturbed(cfg, w, p)
  {
    hide WorldInv, Sound, AllSingle, CollegeNumber, GoodEntry, FormFiles;
    forall k | 0 <= k < |w.log| && w.log[k].college == CollegeNumber(cfg.clients[p])
      ensures w.log[k].client == p && |w.log[k].names| == 1
    {
      GoodAt(cfg, w, k);
      ClientOf(cfg, w.log[k]);
      CollegeOf(cfg, w.log[k]);
      SingleAt(w, k);
    }
  }

  /** Convergence: after any number of sessions of any number of clients, broken at any points, once
      all forms of a college's only sender are marked sent the college's database holds exactly
      these forms - whatever was sent twice, lost or left over on the way. */
  lemma SentMeansConverged(cfg: Config, es: seq<Event>, w: World, p: nat)
    requires Sound(cfg) && ReopeningRun(cfg, es, w, p) && SoleSender(cfg, p) && AllSent(cfg.clients[p], p, w.sent)
    ensures Mirrors(Db(w.log, CollegeNumber(cfg.clients[p])), cfg.clients[p].forms)
  {
    hide Sound, WorldInv, AllSingle, Reachable, ReopeningRun, Undisturbed, AllSent, Mirrors, CollegeNumber;
    ReopeningRunIs(cfg, es, w, p);
    SoleIsUndisturbed(cfg, w, p);
    Converged(cfg, w, p);
  }

  /** And one session that visited the whole directory and missed nothing is enough, whatever
      happened before it. */
  lemma ThroughMeansConverged(cfg: Config, es: seq<Event>, w: World, i: nat, p: nat)
    requires Sound(cfg) && ReopeningRun(cfg, es, w, p) && SoleSender(cfg, p)
    requires i < |w.sessions| && w.sessions[i].owner == p
    requires var s := w.sessions[i]; s.pc.Closed? && s.todo == {} && s.missed == {}
    ensures Mirrors(Db(w.log, CollegeNumber(cfg.clients[p])), cfg.clients[p].forms)
  {
    hide Sound, Reachable, ReopeningRun, AllSent, Mirrors, CollegeNumber, WorldInv, AllSingle;
    ReopeningRunIs(cfg, es, w, p);
    ThroughMeansSent(cfg, w, i);
    SentMeansConverged(cfg, es, w, p);
  }
}
