/** Every step of a client keeps the invariant of its session. */
module ProtocolClient {
  import opened Bytes
  import opened Streams
  import opened Records
  import opened Server
  import opened Framing
  import opened Protocol
  import opened ProtocolInvariant

  lemma WrittenCarries(s: Session, msg: string, ch: Choice)
    requires Carried(s)
    ensures Carried(Wrote(s, msg, ch))
  {
    hide Flatten;
    if Live(s) {
      assert (s.msgs + [msg])[s.seen..] == s.msgs[s.seen..] + [msg];
      FlattenSnoc(s.msgs[s.seen..], msg);
    }
  }

  lemma AppendNotIn(ms: seq<string>, m: string)
    requires DOT !in ms && m != DOT
    ensures DOT !in ms + [m]
  {
  }

  lemma NotDots(c: Client)
    requires |c.login| == 4 && |c.digest| == DIGEST
    ensures UserLine(c) != DOT && PassLine(c) != DOT && |UserLine(c)| == 10 && |PassLine(c)| == 25
  {
  }

  lemma LoginIs(c: Client)
    requires GoodClient(c)
    ensures |c.login| == 4 && |c.digest| == DIGEST && FormFiles(c.forms)
  {
  }

  lemma CarriedAs(s: Session, t: Session)
    requires Carried(s) && t.c2s == s.c2s && t.msgs == s.msgs && t.seen == s.seen && (Live(t) ==> Live(s))
    ensures Carried(t)
  {
  }

  lemma NoReplyUnderWay(s: Session, t: Session, log: seq<Entry>)
    requires Answered(s, log) && s.reply == "" && t.reply == "" && t.s2c == s.s2c
    ensures Answered(t, log)
  {
  }

  lemma SlicePrefix(a: seq<string>, b: seq<string>, i: nat, j: nat)
    requires i <= j <= |a|
    ensures (a + b)[i..j] == a[i..j]
  {
  }

  lemma WroteFollows(s: Session, msg: string, ch: Choice, t: Session)
    requires Followed(s) && Carried(s)
    requires var w := Wrote(s, msg, ch);
             t.up == w.up && t.c2s == w.c2s && t.server == w.server && t.base == w.base && t.seen == w.seen
                 && t.msgs == w.msgs
             && t.diskOk == w.diskOk
    ensures Followed(t)
  {
    hide Flatten, Pack, IsName, NameIn, Listening, Fold;
    if Live(s) {
      SlicePrefix(s.msgs, [msg], 0, s.seen);
      if s.base < s.seen { SlicePrefix(s.msgs, [msg], s.base + 1, s.seen); }
    }
  }

  /** What a written message does not touch. */
  lemma WroteKeeps(s: Session, msg: string, ch: Choice, t: Session, log: seq<Entry>)
    requires Carried(s) && Followed(s) && Answered(s, log) && Settled(s) && s.reply == ""
    requires t == Wrote(s, msg, ch).(pc := t.pc, todo := t.todo, missed := t.missed, names := t.names)
    requires !t.pc.Marking? && (t.pc.WaitAck? && Live(t) ==> t.seen < |t.msgs|)
    ensures Carried(t) && Followed(t) && Answered(t, log) && Settled(t)
  {
    WrittenCarries(s, msg, ch);
    CarriedAs(Wrote(s, msg, ch), t);
    WroteFollows(s, msg, ch, t);
    NoReplyUnderWay(s, t, log);
    hide Carried, Followed, Answered, Flatten;
  }

  /** The request a client at `pc` writes. */
  function RequestAt(cfg: Config, c: Client, pc: Pc): string {
    if pc.SendMagic? then cfg.magic else if pc.SendUser? then UserLine(c) else PassLine(c)
  }

  function WaitsAt(pc: Pc): Pc {
    if pc.SendMagic? then WaitMagic else if pc.SendUser? then WaitUser else WaitPass
  }

  lemma AskInStep(cfg: Config, c: Client, s: Session, ch: Choice, t: Session)
    requires |c.login| == 4 && InStep(cfg, c, s) && s.reply == ""
    requires s.pc.SendMagic? || s.pc.SendUser? || s.pc.SendPass?
    requires t == Wrote(s, RequestAt(cfg, c, s.pc), ch).(pc := if ch.writes then WaitsAt(s.pc) else Closed)
    ensures InStep(cfg, c, t)
  {
    hide UserLine, PassLine, UserOfClient, Messages;
    if Live(s) { assert s.msgs == []; assert [] + [RequestAt(cfg, c, s.pc)] == [RequestAt(cfg, c, s.pc)]; }
  }

  lemma AskShaped(cfg: Config, c: Client, s: Session, ch: Choice, t: Session, log: seq<Entry>)
    requires GoodClient(c) && |cfg.magic| == DIGEST && Shaped(c, s, log) && s.reply == ""
    requires s.pc.SendMagic? || s.pc.SendUser? || s.pc.SendPass?
    requires t == Wrote(s, RequestAt(cfg, c, s.pc), ch).(pc := if ch.writes then WaitsAt(s.pc) else Closed)
    ensures Shaped(c, t, log)
  {
    NotDots(c);
    hide UserLine, PassLine, GoodClient, NameLines, Logged, FormFiles, Placed;
    HandshakeNoDot(c, s, log);
    AppendNotIn(s.msgs, RequestAt(cfg, c, s.pc));
    hide Exact;
    assert DOT !in t.msgs;
    NotPlaced(c, t);
  }

  lemma HandshakeNoDot(c: Client, s: Session, log: seq<Entry>)
    requires Shaped(c, s, log) && !InLines(s.pc)
    ensures DOT !in s.msgs && s.names == []
  {
    hide Placed, Logged, NameLines;
  }

  lemma NotPlaced(c: Client, t: Session)
    requires !InLines(t.pc) || (t.pc.Closed? && DOT !in t.msgs)
    ensures Placed(c, t)
  {
    hide Exact, NameLines;
  }

  lemma AskAdmitted(cfg: Config, c: Client, s: Session, t: Session)
    requires Admitted(cfg, c, s) && t.accepted == s.accepted && (InLines(t.pc) ==> t.pc.Closed?)
    ensures Admitted(cfg, c, t)
  {
    hide Entitled;
  }

  lemma AskingIs(cfg: Config, s: Session, buf: string, ch: Choice, a: Acted)
    requires s.owner < |cfg.clients| && Asking(cfg, s, buf, ch) == Some(a)
    ensures s.pc.SendMagic? || s.pc.SendUser? || s.pc.SendPass?
    ensures a.buf == buf
    ensures a.s == Wrote(s, RequestAt(cfg, cfg.clients[s.owner], s.pc),
        ch).(pc := if ch.writes then WaitsAt(s.pc) else Closed)
  {
    hide Wrote, UserLine, PassLine;
  }

  lemma NotWaiting(s: Session, log: seq<Entry>)
    requires Answered(s, log) && !s.pc.WaitMagic? && !s.pc.WaitUser? && !s.pc.WaitPass? && !s.pc.WaitAck?
    ensures s.reply == "" && s.s2c == ""
  {
    hide WholeLine, Logged;
  }

  /** A request of the handshake. */
  lemma AsksKeeps(cfg: Config, s: Session, buf: string, ch: Choice, log: seq<Entry>, a: Acted)
    requires s.owner < |cfg.clients| && |cfg.magic| == DIGEST && Asking(cfg, s, buf, ch) == Some(a)
    requires SessionInv(cfg, s, log)
    ensures SessionInv(cfg, a.s, log) && a.buf == buf && a.s.owner == s.owner
  {
    hide Carried, Followed, InStep, Shaped, Admitted, Settled, GoodClient, Wrote, UserLine, PassLine, RequestAt, Asking,
      Answered;
    var c := cfg.clients[s.owner];
    var t := a.s;
    AskingIs(cfg, s, buf, ch, a);
    LoginIs(c);
    var msg := RequestAt(cfg, c, s.pc);
    WroteParts(s, msg, ch);
    NotWaiting(s, log);
    WroteKeeps(s, msg, ch, t, log);
    AskInStep(cfg, c, s, ch, t);
    AskShaped(cfg, c, s, ch, t, log);
    AskAdmitted(cfg, c, s, t);
  }

  /** The fields a written message leaves alone. */
  lemma WroteParts(s: Session, msg: string, ch: Choice)
    ensures var w := Wrote(s, msg, ch);
            w == s.(c2s := w.c2s, msgs := w.msgs, up := w.up)
  {
  }

  // ---------------------------------------------------------------------------------------
  // Taking a reply
  // ---------------------------------------------------------------------------------------

  /** A readline of the client takes the one reply there is, whole or as much as will ever come,
      and leaves nothing behind in the static buffer. */
  lemma ReceiveIs(s: Session, ch: Choice, maxlen: nat)
    requires maxlen > 1 && s.s2c <= s.reply && (Live(s) ==> s.s2c == s.reply)
    requires s.reply != "" ==> WholeLine(s.reply) && |s.reply| < maxlen
    ensures var r := Receive(s, "", ch, maxlen);
            && (r.Some? ==> r.value.1 == s.(s2c := "", reply := "") && r.value.2 == ""
                            && (r.value.0.Got? ==> r.value.0.text == s.s2c && s.s2c != "")
                            && (Live(s) ==> r.value.0 == Got(s.reply)))
            && (r.None? ==> Live(s) && s.reply == "")
  {
    hide TakeLine, LinePrefix, WholeLine;
    assert "" + s.s2c == s.s2c;
    AvailReply(s.s2c, s.reply, ClosedToClient(s), ch.ending, maxlen);
    hide Avail;
  }

  lemma AvailReply(stream: string, reply: string, closed: bool, e: Ending, maxlen: nat)
    requires maxlen > 1 && stream <= reply && (reply != "" ==> WholeLine(reply) && |reply| < maxlen)
    requires !closed ==> stream == reply
    ensures var r := Avail(stream, closed, e, maxlen);
            && (r.None? ==> reply == "" && !closed)
            && (r.Some? && r.value.Got? ==> r.value.text == stream && stream != "")
            && (r.Some? && !closed ==> r.value == Got(reply))
  {
    if stream != "" && stream == reply {
      LinePrefixOfWhole(reply, "", maxlen - 1);
      assert reply + "" == reply;
    } else if stream < reply {
      LinePrefixOfCut(stream, reply, maxlen - 1);
    }
  }

  /** The step after `pc` when the reply was the right one. */
  function HeardAt(pc: Pc): Pc {
    if pc.WaitMagic? then SendUser else if pc.WaitUser? then SendPass else Start
  }

  lemma HeardInStep(cfg: Config, c: Client, s: Session, t: Session)
    requires |c.login| == 4 && InStep(cfg, c, s) && (Live(s) ==> s.reply != "")
    requires s.pc.WaitMagic? || s.pc.WaitUser? || s.pc.WaitPass?
    requires t == s.(s2c := "", reply := "", pc := t.pc) && (t.pc.Closed? || t.pc == HeardAt(s.pc))
    ensures InStep(cfg, c, t)
  {
    hide UserLine, PassLine, UserOfClient, Messages;
  }

  lemma HeardShaped(c: Client, s: Session, t: Session, log: seq<Entry>)
    requires Shaped(c, s, log) && (s.pc.WaitMagic? || s.pc.WaitUser? || s.pc.WaitPass?)
    requires t == s.(s2c := "", reply := "", pc := t.pc)
    requires t.pc.Closed? || !InLines(t.pc) || (t.pc.Start? && (Live(t) ==> t.msgs == []))
    ensures Shaped(c, t, log)
  {
    HandshakeNoDot(c, s, log);
    hide Logged, NameLines, Exact;
  }

  lemma HeardKeeps(s: Session, t: Session, log: seq<Entry>)
    requires Carried(s) && Answered(s, log) && Followed(s) && Settled(s) && !s.pc.Marking?
    requires t == s.(s2c := "", reply := "", pc := t.pc, missed := t.missed) && !t.pc.WaitAck? && (t.pc.Marking?
        ==> s.reply != "")
    ensures Carried(t) && Answered(t, log) && Followed(t) && Settled(t)
  {
    hide WholeLine, Logged, Listening, Flatten, Pack, IsName, NameIn;
  }

  /** What a client makes of a reply, whole or cut short. */
  lemma HearingIs(cfg: Config, s: Session, ch: Choice, a: Acted, log: seq<Entry>)
    requires Answered(s, log) && Listens(s, "", ch) == Some(a)
    requires s.pc.WaitMagic? || s.pc.WaitUser? || s.pc.WaitPass?
    ensures a.buf == "" && a.marks == {} && (Live(s) ==> s.reply != "")
    ensures a.s == s.(s2c := "", reply := "", pc := a.s.pc) && (a.s.pc.Closed? || a.s.pc == HeardAt(s.pc))
    ensures a.s.pc.Start? ==> s.accepted
  {
    OkIsLine();
    var maxlen := if s.pc.WaitMagic? then 80 else MAXLINE;
    ReceiveIs(s, ch, maxlen);
    if s.pc.WaitPass? { RejectionIsHeard(s.s2c); }
    hide Receive, WholeLine, Strtol, CStr, Logged;
  }

  lemma OkIsLine()
    ensures WholeLine(OK) && |OK| == 4 && WholeLine("303\n") && |"303\n"| == 4
  {
    assert OK[0] == '5' && OK[1] == '0' && OK[2] == '0' && OK[3] == LF;
    assert "303\n"[0] == '3' && "303\n"[1] == '0' && "303\n"[2] == '3' && "303\n"[3] == LF;
  }

  /** A rejection is heard even when its newline is lost. */
  lemma RejectionIsHeard(text: string)
    ensures text <= "303\n" && Returned(Got(text)) == 4 ==> Strtol(CStr(text)) == 303
  {
    var r := "303\n";
    if text <= r && Returned(Got(text)) == 4 {
      var rest := if |text| == 4 then "\n" else "";
      assert r[0] == '3' && r[1] == '0' && r[2] == '3' && r[3] == LF;
      assert |text| >= 3;
      assert text[0] == '3' && text[1] == '0' && text[2] == '3';
      assert text == "303" + rest;
      CStrExact(text, "");
      assert text + "" == text;
      StrtolOfDigits("303", rest);
      ThreeDigits('3', '0', '3');
    }
  }

  lemma HeardAdmitted(cfg: Config, c: Client, s: Session, t: Session)
    requires Admitted(cfg, c, s) && t.accepted == s.accepted && (t.pc.Start? ==> s.accepted)
    requires InLines(t.pc) ==> t.pc.Closed? || t.pc.Start?
    ensures Admitted(cfg, c, t)
  {
    hide Entitled;
  }

  lemma HandshakeEmpty(cfg: Config, c: Client, s: Session)
    requires |c.login| == 4 && InStep(cfg, c, s) && Live(s) && s.reply != "" && s.pc.WaitPass?
    ensures s.msgs == []
  {
    hide UserLine, PassLine, UserOfClient, Messages;
  }

  /** A reply of the handshake. */
  lemma HearsKeeps(cfg: Config, s: Session, ch: Choice, log: seq<Entry>, a: Acted)
    requires s.owner < |cfg.clients| && Listens(s, "", ch) == Some(a) && SessionInv(cfg, s, log)
    requires s.pc.WaitMagic? || s.pc.WaitUser? || s.pc.WaitPass?
    ensures SessionInv(cfg, a.s, log) && a.buf == "" && a.marks == {} && a.s.owner == s.owner
  {
    hide Carried, Followed, InStep, Shaped, Admitted, Settled, GoodClient, Listens, Answered, HeardAt;
    var c, t := cfg.clients[s.owner], a.s;
    LoginIs(c);
    HearingIs(cfg, s, ch, a, log);
    HeardIsNot(s.pc);
    HeardKeeps(s, t, log);
    HeardInStep(cfg, c, s, t);
    if Live(s) && s.pc.WaitPass? { HandshakeEmpty(cfg, c, s); }
    HeardShaped(c, s, t, log);
    HeardAdmitted(cfg, c, s, t);
  }

  lemma HeardIsNot(pc: Pc)
    ensures var n := HeardAt(pc); !n.WaitAck? && !n.Marking? && (InLines(n) ==> n.Start?)
    ensures pc.WaitMagic? || pc.WaitUser? ==> !InLines(HeardAt(pc))
  {
  }

  // ---------------------------------------------------------------------------------------
  // The acknowledgement and the mark
  // ---------------------------------------------------------------------------------------

  /** Within the lines a step changes the messages only by writing one. */
  lemma LinesInStep(cfg: Config, c: Client, s: Session, t: Session, m: string)
    requires |c.login| == 4 && InStep(cfg, c, s) && InLines(s.pc) && !s.pc.Closed? && InLines(t.pc)
    requires t.server == s.server && t.accepted == s.accepted && (Live(t) ==> Live(s))
    requires (t.msgs == s.msgs && t.seen == s.seen) || (t.msgs == [] && t.seen == 0)
             || (Live(s) && t.msgs == s.msgs + [m] && Message(m) && t.seen == s.seen)
    ensures InStep(cfg, c, t)
  {
    hide UserLine, PassLine, UserOfClient, Message;
  }

  lemma LinesAdmitted(cfg: Config, c: Client, s: Session, t: Session)
    requires Admitted(cfg, c, s) && t.accepted == s.accepted && InLines(s.pc) && !s.pc.Closed?
    ensures Admitted(cfg, c, t)
  {
    hide Entitled;
  }

  /** An acknowledgement is taken only whole; anything less comes from a dead connection. */
  lemma AckIs(s: Session, ch: Choice, a: Acted, log: seq<Entry>)
    requires Answered(s, log) && s.pc.WaitAck? && Listens(s, "", ch) == Some(a)
    ensures a.buf == "" && a.marks == {}
    ensures a.s == s.(s2c := "", reply := "", pc := Marking(s.pc.name))
            || a.s == s.(s2c := "", reply := "", pc := Scan, missed := s.missed + {s.pc.name})
    ensures a.s.pc.Marking? ==> s.reply == OK && s.seen == |s.msgs| && Logged(s, log)
    ensures a.s.pc.Scan? ==> !Live(s)
  {
    hide Receive, WholeLine, Logged, Live;
    OkIsLine();
    ReceiveIs(s, ch, 20);
    OkIsWhole(s.s2c);
    hide Returned, StartsWith;
  }

  lemma OkIsWhole(text: string)
    ensures text <= OK ==> (Returned(Got(text)) == 4 && StartsWith(text, OK) <==> text == OK)
    ensures Returned(Nothing) == 0 && Returned(Error) == -1
  {
    if text <= OK && text != OK && |text| > 0 { assert text[|text| - 1] == '5' || text[|text| - 1] == '0'; }
  }

  lemma AckShaped(c: Client, s: Session, t: Session, log: seq<Entry>)
    requires Shaped(c, s, log) && s.pc.WaitAck?
    requires t == s.(s2c := "", reply := "", pc := t.pc, missed := t.missed)
    requires (t.pc == Marking(s.pc.name) && s.reply != "" && s.seen == |s.msgs| && Logged(s, log)) || (t.pc.Scan?
        && !Live(s))
    ensures Shaped(c, t, log)
  {
    hide NameLines;
  }

  lemma AckKeeps(cfg: Config, s: Session, ch: Choice, log: seq<Entry>, a: Acted)
    requires s.owner < |cfg.clients| && Listens(s, "", ch) == Some(a) && SessionInv(cfg, s, log) && s.pc.WaitAck?
    ensures SessionInv(cfg, a.s, log) && a.buf == "" && a.marks == {} && a.s.owner == s.owner
  {
    hide Carried, Followed, InStep, Shaped, Admitted, Settled, GoodClient, Listens, Answered, Logged;
    var c, t := cfg.clients[s.owner], a.s;
    LoginIs(c);
    AckIs(s, ch, a, log);
    HeardKeeps(s, t, log);
    LinesInStep(cfg, c, s, t, DOT);
    AckShaped(c, s, t, log);
    LinesAdmitted(cfg, c, s, t);
  }

  lemma OverKeeps(s: Session, t: Session, log: seq<Entry>)
    requires Carried(s) && Answered(s, log) && Followed(s) && Settled(s) && s.pc.Marking? && s.seen == |s.msgs|
    requires t == Over(s).(missed := t.missed)
    ensures Carried(t) && Answered(t, log) && Followed(t) && Settled(t)
  {
    hide WholeLine, Logged, Pack, IsName, NameIn;
    assert s.msgs[s.seen..] == [] && Flatten([]) == "";
    NothingFolded(t);
    hide Fold;
  }

  /** Before any message the line loop waits for a command. */
  lemma NothingFolded(t: Session)
    requires t.msgs == [] && t.seen == 0
    ensures forall m: Mode :: m.Command? ==> Regular(t, m)
  {
    assert t.msgs[..t.seen] == [];
  }

  lemma OverShaped(c: Client, s: Session, t: Session, log: seq<Entry>)
    requires Shaped(c, s, log) && s.pc.Marking?
    requires t == Over(s).(missed := t.missed)
    ensures Shaped(c, t, log)
    ensures Exact(c, s.names, s.msgs) && s.names[|s.names| - 1] == s.pc.name && Logged(s, log) && s.seen == |s.msgs|
  {
    hide Logged;
  }

  /** The file of an acknowledged form is rewritten: its put is in the log. */
  lemma MarkKeeps(cfg: Config, s: Session, log: seq<Entry>, t: Session)
    requires s.owner < |cfg.clients| && SessionInv(cfg, s, log) && s.pc.Marking?
    requires t == Over(s).(missed := t.missed)
    ensures SessionInv(cfg, t, log)
    ensures Logged(s, log) && s.names != [] && s.names[|s.names| - 1] == s.pc.name
  {
    hide Carried, Followed, InStep, Shaped, Admitted, Settled, GoodClient, Answered, Logged;
    var c := cfg.clients[s.owner];
    LoginIs(c);
    OverShaped(c, s, t, log);
    ExactNames(c, s);
    OverKeeps(s, t, log);
    LinesInStep(cfg, c, s, t, DOT);
    LinesAdmitted(cfg, c, s, t);
  }

  lemma ExactNames(c: Client, s: Session)
    requires Exact(c, s.names, s.msgs)
    ensures s.names != []
  {
  }

  // ---------------------------------------------------------------------------------------
  // Going through the directory
  // ---------------------------------------------------------------------------------------

  /** A step that writes nothing. */
  lemma SilentKeeps(s: Session, t: Session, log: seq<Entry>)
    requires Carried(s) && Answered(s, log) && Followed(s) && Settled(s)
    requires InLines(s.pc) && !s.pc.WaitAck? && !t.pc.WaitAck? && !t.pc.Marking?
    requires t == s.(pc := t.pc, todo := t.todo, missed := t.missed)
    ensures Carried(t) && Answered(t, log) && Followed(t) && Settled(t)
  {
    hide WholeLine, Logged, Listening, Flatten, Pack, IsName, NameIn;
  }

  lemma SilentShaped(c: Client, s: Session, t: Session, log: seq<Entry>)
    requires Shaped(c, s, log) && s.reply == ""
    requires s.pc.Start? || s.pc.Scan? || s.pc.Named? || s.pc.Sending?
    requires t == s.(pc := t.pc, todo := t.todo, missed := t.missed) && t.todo <= s.todo
    requires t.pc.Scan? || t.pc.Quitting? || (s.pc.Named? && !s.cancelled && t.pc == Sending(s.pc.name, 0))
    requires (s.pc.Sending? && t.pc.Scan? ==> s.cancelled || !Live(s)) && (s.pc.Sending? ==> !t.pc.Quitting?)
    requires s.pc.Sending? && Live(s) ==> DOT !in s.msgs
    ensures Shaped(c, t, log)
  {
    hide Logged, Exact;
    if s.pc.Start? { assert NameLines([]) == []; }
    if s.pc.Named? && s.pc.name in c.forms {
      assert NameLines(s.names) + c.forms[s.pc.name][..0] == NameLines(s.names);
    }
  }

  lemma BodyHasNoDot(c: Client, names: seq<string>, name: string, i: nat)
    requires FormFiles(c.forms) && name in c.forms && i <= |c.forms[name]|
    ensures DOT !in NameLines(names) + c.forms[name][..i]
  {
    var msgs := NameLines(names) + c.forms[name][..i];
    forall k | 0 <= k < |msgs| ensures msgs[k] != DOT {
      if k < |names| {
        NotADot(names[k]);
      } else {
        assert msgs[k] == c.forms[name][k - |names|];
        assert PlainLine(c.forms[name][k - |names|]);
      }
    }
  }

  lemma NotADot(name: string)
    ensures NameLine(name) != DOT && NameLine(name) != QUIT
  {
    assert NameLine(name)[0] == 'F' && DOT[0] == '.' && QUIT[0] == 'Q';
  }

  lemma NameIsMessage(c: Client, name: string)
    requires FormFiles(c.forms) && name in c.forms
    ensures Message(NameLine(name)) && NameLine(name) != DOT
  {
    NotADot(name);
    var m := NameLine(name);
    assert NameIn(m) == name;
  }

  lemma LineIsMessage(c: Client, name: string, i: nat)
    requires FormFiles(c.forms) && name in c.forms && i < |c.forms[name]|
    ensures Message(c.forms[name][i])
  {
  }

  lemma SilentStep(cfg: Config, s: Session, t: Session, log: seq<Entry>)
    requires s.owner < |cfg.clients| && SessionInv(cfg, s, log)
    requires s.pc.Start? || s.pc.Scan? || s.pc.Named? || s.pc.Sending?
    requires t == s.(pc := t.pc, todo := t.todo, missed := t.missed) && t.todo <= s.todo
    requires t.pc.Scan? || t.pc.Quitting? || (s.pc.Named? && !s.cancelled && t.pc == Sending(s.pc.name, 0))
    requires (s.pc.Sending? && t.pc.Scan? ==> s.cancelled || !Live(s)) && (s.pc.Sending? ==> !t.pc.Quitting?)
    requires s.pc.Sending? && Live(s) ==> DOT !in s.msgs
    ensures SessionInv(cfg, t, log)
  {
    hide Carried, Followed, InStep, Shaped, Admitted, Settled, GoodClient, Answered;
    var c := cfg.clients[s.owner];
    LoginIs(c);
    NotWaiting(s, log);
    SilentKeeps(s, t, log);
    LinesInStep(cfg, c, s, t, DOT);
    SilentShaped(c, s, t, log);
    LinesAdmitted(cfg, c, s, t);
  }

  /** A step that writes a message of the lines. */
  lemma LoudStep(cfg: Config, s: Session, msg: string, ch: Choice, t: Session, log: seq<Entry>)
    requires s.owner < |cfg.clients| && SessionInv(cfg, s, log)
    requires s.pc.Scan? || s.pc.Sending? || s.pc.Quitting?
    requires t == Wrote(s, msg, ch).(pc := t.pc, todo := t.todo, missed := t.missed, names := t.names)
    requires InLines(t.pc) && !t.pc.Marking? && Message(msg)
    requires Shaped(cfg.clients[s.owner], t, log)
    ensures SessionInv(cfg, t, log)
  {
    hide Carried, Followed, InStep, Shaped, Admitted, Settled, GoodClient, Answered, Wrote, Message;
    var c := cfg.clients[s.owner];
    LoginIs(c);
    NotWaiting(s, log);
    WroteParts(s, msg, ch);
    WroteOne(s, msg, ch);
    WroteKeeps(s, msg, ch, t, log);
    LinesInStep(cfg, c, s, t, msg);
    LinesAdmitted(cfg, c, s, t);
  }

  lemma WroteOne(s: Session, msg: string, ch: Choice)
    requires Carried(s)
    ensures var w := Wrote(s, msg, ch);
            && (Live(w) ==> Live(s) && w.seen < |w.msgs|)
            && (w.msgs == s.msgs || (Live(s) && w.msgs == s.msgs + [msg]))
  {
    hide Flatten;
  }

  lemma AnnounceShaped(c: Client, s: Session, name: string, ch: Choice, t: Session, log: seq<Entry>)
    requires FormFiles(c.forms) && Shaped(c, s, log) && s.reply == "" && s.pc.Scan? && name in s.todo
    requires t == Announced(s, name, ch).(todo := s.todo - {name}, pc := t.pc, missed := t.missed)
    requires t.pc == if ch.writes then Named(name) else Closed
    ensures Shaped(c, t, log) && name in c.forms
  {
    NameIsMessage(c, name);
    AnnouncedIs(s, name, ch);
    TodoIn(c, s, name, log);
    hide Logged, FormFiles, NameLine, Exact, Announced, Placed, NameLines, Shaped;
    if Live(s) {
      AnnouncePlaced(c, s, name);
      if Live(t) { SamePlace(c, s.(msgs := t.msgs, names := t.names, pc := t.pc), t); }
      LiveShaped(c, s, t, log);
    } else {
      DeadShaped(c, s, t, log);
    }
  }

  /** On a dead connection only the client's own place moves. */
  lemma DeadShaped(c: Client, s: Session, t: Session, log: seq<Entry>)
    requires Shaped(c, s, log) && s.reply == "" && s.pc.Scan? && !Live(s)
    requires t == s.(todo := t.todo, pc := t.pc, missed := t.missed) && t.todo <= c.forms.Keys
    requires t.pc.Closed? || (t.pc.Named? && t.pc.name in c.forms)
    ensures Shaped(c, t, log)
  {
    hide Logged, Exact, Placed;
  }

  lemma LiveShaped(c: Client, s: Session, t: Session, log: seq<Entry>)
    requires Shaped(c, s, log) && s.reply == "" && s.pc.Scan?
    requires t == s.(c2s := t.c2s, msgs := t.msgs, names := t.names, up := t.up, todo := t.todo, pc := t.pc,
        missed := t.missed)
    requires t.todo <= c.forms.Keys && DOT !in t.msgs && |t.names| == |s.names| + 1 && t.names[..|s.names|] == s.names
    requires t.names[|s.names|] in c.forms
    requires t.pc.Closed? || (t.pc.Named? && t.pc.name in c.forms)
    requires Live(t) ==> Placed(c, t)
    ensures Shaped(c, t, log)
  {
    hide Logged, Exact, Placed;
    forall k | 0 <= k < |t.names| ensures t.names[k] in c.forms {
      if k < |s.names| { assert t.names[k] == s.names[k]; }
    }
  }

  lemma TodoIn(c: Client, s: Session, name: string, log: seq<Entry>)
    requires Shaped(c, s, log) && name in s.todo
    ensures name in c.forms && s.todo - {name} <= c.forms.Keys
  {
    hide Exact, Placed, Logged;
  }

  lemma AnnouncedIs(s: Session, name: string, ch: Choice)
    ensures var w := Announced(s, name, ch);
            if Live(s) then
              w == s.(c2s := w.c2s, msgs := s.msgs + [NameLine(name)], names := s.names + [name], up := ch.writes)
            else w == s
  {
    hide NameLine;
  }

  lemma SamePlace(c: Client, s: Session, t: Session)
    requires Placed(c, s) && t.pc == s.pc && t.msgs == s.msgs && t.names == s.names && t.cancelled == s.cancelled
    ensures Placed(c, t)
  {
    hide Exact, NameLines;
  }

  lemma AnnouncePlaced(c: Client, s: Session, name: string)
    requires Placed(c, s) && s.pc.Scan? && NameLine(name) != DOT
    ensures DOT !in s.msgs + [NameLine(name)]
    ensures Placed(c, s.(msgs := s.msgs + [NameLine(name)], names := s.names + [name], pc := Named(name)))
  {
    hide NameLine, Exact;
    AppendNotIn(s.msgs, NameLine(name));
    NamesSnoc(s.names, name);
    hide NameLines;
  }

  lemma NamesSnoc(names: seq<string>, name: string)
    ensures NameLines(names + [name]) == NameLines(names) + [NameLine(name)]
  {
  }

  lemma LineShaped(c: Client, s: Session, ch: Choice, t: Session, log: seq<Entry>)
    requires FormFiles(c.forms) && Shaped(c, s, log) && s.reply == "" && s.pc.Sending?
    requires s.pc.name in c.forms && s.pc.done < |c.forms[s.pc.name]|
    requires t == Wrote(s, c.forms[s.pc.name][s.pc.done], ch).(pc := t.pc, missed := t.missed)
    requires t.pc == if ch.writes then Sending(s.pc.name, s.pc.done + 1) else Scan
    ensures Shaped(c, t, log)
  {
    if Live(s) { LinePlaced(c, s); }
    hide Logged, FormFiles, Exact, NameLines, Placed;
    if Live(t) { SamePlace(c, s.(msgs := t.msgs, pc := t.pc), t); }
  }

  lemma LinePlaced(c: Client, s: Session)
    requires FormFiles(c.forms) && Placed(c, s) && s.pc.Sending? && s.pc.name in c.forms
        && s.pc.done < |c.forms[s.pc.name]|
    ensures var msgs := s.msgs + [c.forms[s.pc.name][s.pc.done]];
            DOT !in msgs && Placed(c, s.(msgs := msgs, pc := Sending(s.pc.name, s.pc.done + 1)))
  {
    var n, i := s.pc.name, s.pc.done;
    BodyHasNoDot(c, s.names, n, i + 1);
    hide FormFiles, NameLines, Exact;
    var lines := c.forms[n];
    LinesSnoc(NameLines(s.names), lines, i);
  }

  lemma LinesSnoc(front: seq<string>, lines: seq<string>, i: nat)
    requires i < |lines|
    ensures front + lines[..i + 1] == front + lines[..i] + [lines[i]]
  {
  }

  lemma DotShaped(c: Client, s: Session, ch: Choice, t: Session, log: seq<Entry>)
    requires FormFiles(c.forms) && Shaped(c, s, log) && s.reply == "" && s.pc.Sending?
    requires s.pc.name in c.forms && s.pc.done >= |c.forms[s.pc.name]|
    requires t == Wrote(s, DOT, ch).(pc := t.pc, missed := t.missed)
    requires t.pc == if ch.writes then WaitAck(s.pc.name) else Scan
    ensures Shaped(c, t, log)
  {
    if Live(s) { DotPlaced(c, s); }
    hide Logged, FormFiles, Exact, NameLines, Placed;
    if Live(t) { SamePlace(c, s.(msgs := t.msgs, pc := t.pc), t); }
  }

  lemma DotPlaced(c: Client, s: Session)
    requires Placed(c, s) && s.pc.Sending? && s.pc.name in c.forms && s.pc.done >= |c.forms[s.pc.name]|
    ensures Exact(c, s.names, s.msgs + [DOT])
    ensures Placed(c, s.(msgs := s.msgs + [DOT], pc := WaitAck(s.pc.name)))
  {
    hide NameLines;
    var lines := c.forms[s.pc.name];
    assert lines[..|lines|] == lines;
  }

  lemma QuitShaped(c: Client, s: Session, ch: Choice, t: Session, log: seq<Entry>)
    requires Shaped(c, s, log) && s.reply == "" && s.pc.Quitting?
    requires t == Wrote(s, QUIT, ch).(pc := Closed)
    ensures Shaped(c, t, log)
  {
    hide Logged, NameLines;
    assert DOT[0] == '.' && QUIT[0] == 'Q';
    if Live(s) { AppendNotIn(s.msgs, QUIT); }
    hide Exact;
  }

  /** What the invariant says of the place a session stands at. */
  lemma PlaceOf(cfg: Config, s: Session, log: seq<Entry>)
    requires s.owner < |cfg.clients| && SessionInv(cfg, s, log) && InLines(s.pc) && !s.pc.WaitAck?
    ensures var c := cfg.clients[s.owner];
            && FormFiles(c.forms) && s.reply == "" && Shaped(c, s, log) && s.todo <= c.forms.Keys
            && (s.pc.Sending? ==> s.pc.name in c.forms && s.pc.done <= |c.forms[s.pc.name]|)
            && (s.pc.Sending? && Live(s) ==> DOT !in s.msgs)
  {
    LoginIs(cfg.clients[s.owner]);
    NotWaiting(s, log);
    hide Carried, Followed, InStep, Admitted, Settled, GoodClient, Answered, Logged, FormFiles, Exact, NameLines;
    var c := cfg.clients[s.owner];
    if s.pc.Sending? && Live(s) { BodyHasNoDot(c, s.names, s.pc.name, s.pc.done); }
  }

  /** The step announces a form. */
  predicate Announces(s: Session, sent: set<(nat, string)>, ch: Choice) {
    s.pc.Scan? && ch.name in s.todo && ch.works && (s.owner, ch.name) !in sent
  }

  lemma ScanIs(cfg: Config, s: Session, sent: set<(nat, string)>, ch: Choice, t: Session)
    requires s.owner < |cfg.clients| && Sends(cfg, s, sent, ch) == Some(t)
    requires s.pc.Start? || s.pc.Scan? || s.pc.Named?
    ensures if Announces(s, sent, ch) then
              && t == Announced(s, ch.name, ch).(todo := s.todo - {ch.name}, pc := t.pc, missed := t.missed)
              && t.pc == if ch.writes then Named(ch.name) else Closed
            else
              && t == s.(pc := t.pc, todo := t.todo, missed := t.missed) && t.todo <= s.todo
              && (t.pc.Scan? || t.pc.Quitting? || (s.pc.Named? && !s.cancelled && t.pc == Sending(s.pc.name, 0)))
  {
    AnnounceLater(s, ch.name, ch);
    hide Announced;
  }

  lemma AnnounceLater(s: Session, name: string, ch: Choice)
    ensures Announced(s.(todo := s.todo - {name}), name, ch) == Announced(s, name, ch).(todo := s.todo - {name})
    ensures Announced(s, name, ch) == s.(c2s := Announced(s, name, ch).c2s, msgs := Announced(s, name, ch).msgs,
                                         names := Announced(s, name, ch).names, up := Announced(s, name, ch).up)
  {
    hide NameLine;
  }

  lemma ScanKeeps(cfg: Config, s: Session, sent: set<(nat, string)>, ch: Choice, log: seq<Entry>, t: Session)
    requires s.owner < |cfg.clients| && Sends(cfg, s, sent, ch) == Some(t) && SessionInv(cfg, s, log)
    requires s.pc.Start? || s.pc.Scan? || s.pc.Named?
    ensures SessionInv(cfg, t, log) && t.owner == s.owner
  {
    hide SessionInv, FormFiles, NameLine, Announced, Shaped, Sends, InLines, Live, Wrote;
    LinesPc(s.pc);
    PlaceOf(cfg, s, log);
    ScanIs(cfg, s, sent, ch, t);
    if Announces(s, sent, ch) {
      AnnounceKeeps(cfg, s, ch, log, t);
    } else {
      SilentStep(cfg, s, t, log);
    }
  }

  lemma LinesPc(pc: Pc)
    ensures pc.Start? || pc.Scan? || pc.Named? || pc.Sending? || pc.Quitting? || pc.Closed? ==> InLines(pc)
  {
  }

  lemma AnnounceKeeps(cfg: Config, s: Session, ch: Choice, log: seq<Entry>, t: Session)
    requires s.owner < |cfg.clients| && SessionInv(cfg, s, log) && s.pc.Scan? && ch.name in s.todo
    requires t == Announced(s, ch.name, ch).(todo := s.todo - {ch.name}, pc := t.pc, missed := t.missed)
    requires t.pc == if ch.writes then Named(ch.name) else Closed
    ensures SessionInv(cfg, t, log) && t.owner == s.owner
  {
    hide SessionInv, FormFiles, NameLine, Announced, Shaped, Message, Wrote, InLines;
    LinesPc(s.pc);
    LinesPc(t.pc);
    PlaceOf(cfg, s, log);
    AnnouncedIs(s, ch.name, ch);
    AnnounceShaped(cfg.clients[s.owner], s, ch.name, ch, t, log);
    NameIsMessage(cfg.clients[s.owner], ch.name);
    AnnounceIsWrote(s, ch.name, ch);
    hide Live;
    LoudStep(cfg, s, NameLine(ch.name), ch, t, log);
  }

  lemma AnnounceIsWrote(s: Session, name: string, ch: Choice)
    ensures var w := Announced(s, name, ch); w == Wrote(s, NameLine(name), ch).(names := w.names)
  {
    hide NameLine;
  }

  lemma SendingIs(cfg: Config, s: Session, sent: set<(nat, string)>, ch: Choice, t: Session)
    requires s.owner < |cfg.clients| && Sends(cfg, s, sent, ch) == Some(t) && s.pc.Sending?
    ensures var c, n, i := cfg.clients[s.owner], s.pc.name, s.pc.done;
            && n in c.forms
            && if i < |c.forms[n]| && s.cancelled then t == s.(pc := Scan, missed := t.missed)
               else if i < |c.forms[n]| then
                 t == Wrote(s, c.forms[n][i], ch).(pc := if ch.writes then Sending(n, i + 1) else Scan,
                     missed := t.missed)
               else t == Wrote(s, DOT, ch).(pc := if ch.writes then WaitAck(n) else Scan, missed := t.missed)
  {
    var c, n, i := cfg.clients[s.owner], s.pc.name, s.pc.done;
    if n in c.forms { WroteParts(s, if i < |c.forms[n]| then c.forms[n][i] else DOT, ch); }
    hide Wrote;
  }

  lemma SendingKeeps(cfg: Config, s: Session, sent: set<(nat, string)>, ch: Choice, log: seq<Entry>, t: Session)
    requires s.owner < |cfg.clients| && Sends(cfg, s, sent, ch) == Some(t) && SessionInv(cfg, s, log)
    requires s.pc.Sending?
    ensures SessionInv(cfg, t, log) && t.owner == s.owner
  {
    hide SessionInv, FormFiles, Wrote, Shaped, Message, Sends, InLines, Live;
    LinesPc(s.pc);
    PlaceOf(cfg, s, log);
    SendingIs(cfg, s, sent, ch, t);
    var c, n, i := cfg.clients[s.owner], s.pc.name, s.pc.done;
    if i < |c.forms[n]| && s.cancelled {
      SilentStep(cfg, s, t, log);
    } else if i < |c.forms[n]| {
      LineKeeps(cfg, s, ch, log, t);
    } else {
      DotKeeps(cfg, s, ch, log, t);
    }
  }

  lemma LineKeeps(cfg: Config, s: Session, ch: Choice, log: seq<Entry>, t: Session)
    requires s.owner < |cfg.clients| && SessionInv(cfg, s, log) && s.pc.Sending?
    requires var c, n, i := cfg.clients[s.owner], s.pc.name, s.pc.done;
             && n in c.forms && i < |c.forms[n]|
             && t == Wrote(s, c.forms[n][i], ch).(pc := if ch.writes then Sending(n, i + 1) else Scan,
                 missed := t.missed)
    ensures SessionInv(cfg, t, log) && t.owner == s.owner
  {
    var c, n, i := cfg.clients[s.owner], s.pc.name, s.pc.done;
    hide SessionInv, FormFiles, Wrote, Shaped, Message, InLines, Live;
    LinesPc(s.pc);
    LinesPc(t.pc);
    PlaceOf(cfg, s, log);
    WroteParts(s, c.forms[n][i], ch);
    LineShaped(c, s, ch, t, log);
    LineIsMessage(c, n, i);
    LoudStep(cfg, s, c.forms[n][i], ch, t, log);
  }

  lemma DotKeeps(cfg: Config, s: Session, ch: Choice, log: seq<Entry>, t: Session)
    requires s.owner < |cfg.clients| && SessionInv(cfg, s, log) && s.pc.Sending?
    requires var c, n := cfg.clients[s.owner], s.pc.name;
             && n in c.forms && s.pc.done >= |c.forms[n]|
             && t == Wrote(s, DOT, ch).(pc := if ch.writes then WaitAck(n) else Scan, missed := t.missed)
    ensures SessionInv(cfg, t, log) && t.owner == s.owner
  {
    var c := cfg.clients[s.owner];
    hide SessionInv, FormFiles, Wrote, Shaped, Message, InLines, Live;
    LinesPc(s.pc);
    LinesPc(t.pc);
    AckPc(s.pc.name);
    PlaceOf(cfg, s, log);
    WroteParts(s, DOT, ch);
    DotShaped(c, s, ch, t, log);
    DotIsMessage();
    LoudStep(cfg, s, DOT, ch, t, log);
  }

  lemma AckPc(name: string)
    ensures InLines(WaitAck(name))
  {
  }

  lemma DotIsMessage()
    ensures Message(DOT) && Message(QUIT)
  {
  }

  lemma QuitKeeps(cfg: Config, s: Session, sent: set<(nat, string)>, ch: Choice, log: seq<Entry>, t: Session)
    requires s.owner < |cfg.clients| && Sends(cfg, s, sent, ch) == Some(t) && SessionInv(cfg, s, log)
    requires s.pc.Quitting?
    ensures SessionInv(cfg, t, log) && t.owner == s.owner
  {
    hide SessionInv, FormFiles, Wrote, Shaped, Message, InLines, Live;
    LinesPc(s.pc);
    LinesPc(t.pc);
    PlaceOf(cfg, s, log);
    WroteParts(s, QUIT, ch);
    QuitShaped(cfg.clients[s.owner], s, ch, t, log);
    DotIsMessage();
    LoudStep(cfg, s, QUIT, ch, t, log);
  }

  /** Every step of a client keeps its session's invariant and leaves its static read buffer
      empty; a form is marked only when its put is in the log. */
  lemma ClientKeeps(cfg: Config, s: Session, sent: set<(nat, string)>, ch: Choice, log: seq<Entry>, a: Acted)
    requires |cfg.magic| == DIGEST && s.owner < |cfg.clients|
    requires ClientStep(cfg, s, "", sent, ch) == Some(a) && SessionInv(cfg, s, log)
    ensures SessionInv(cfg, a.s, log) && a.buf == "" && a.s.owner == s.owner
    ensures a.marks != {} ==> s.pc.Marking? && a.marks == {s.pc.name} && Logged(s, log)
                              && s.names != [] && s.names[|s.names| - 1] == s.pc.name
  {
    hide SessionInv, Asking, Listens, Sends, Logged, Over;
    match s.pc {
      case SendMagic | SendUser | SendPass =>
        AsksKeeps(cfg, s, "", ch, log, a);
        AsksMarks(cfg, s, "", ch, a);
      case WaitMagic | WaitUser | WaitPass => HearsKeeps(cfg, s, ch, log, a);
      case WaitAck(_) => AckKeeps(cfg, s, ch, log, a);
      case Marking(_) =>
        OverIs(s);
        MarkKeeps(cfg, s, log, a.s);
      case Start | Scan | Named(_) => ScanKeeps(cfg, s, sent, ch, log, a.s);
      case Sending(_, _) => SendingKeeps(cfg, s, sent, ch, log, a.s);
      case Quitting => QuitKeeps(cfg, s, sent, ch, log, a.s);
      case Closed => ClosedRests(cfg, s, sent, ch);
    }
  }

  lemma OverIs(s: Session)
    ensures Over(s).pc == Scan && Over(s).owner == s.owner
  {
  }

  lemma AsksMarks(cfg: Config, s: Session, buf: string, ch: Choice, a: Acted)
    requires s.owner < |cfg.clients| && Asking(cfg, s, buf, ch) == Some(a)
    ensures a.marks == {}
  {
    hide Wrote, UserLine, PassLine;
  }

  lemma ClosedRests(cfg: Config, s: Session, sent: set<(nat, string)>, ch: Choice)
    requires s.owner < |cfg.clients| && s.pc.Closed?
    ensures ClientStep(cfg, s, "", sent, ch).None?
  {
  }
}
