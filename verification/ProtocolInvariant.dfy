/** What every step of every client and every server thread keeps. */
module ProtocolInvariant {
  import opened Bytes
  import opened Streams
  import opened Records
  import opened Server
  import opened Framing
  import opened Protocol

  // ---------------------------------------------------------------------------------------
  // The configuration
  // ---------------------------------------------------------------------------------------

  /** ctime() of a time: one line of text. */
  predicate ClockText(t: string) { WholeLine(t) && |t| <= 40 && NulFree(t) }

  /** The files the directory scan takes for forms: their names, and lines as verify_form prints. */
  predicate FormFiles(forms: map<string, seq<string>>) {
    forall n :: n in forms ==> GoodName(n) && ".txt" == n[|n| - 4..] && Sendable(forms[n])
  }

  predicate GoodClient(c: Client) {
    |c.login| == 4 && |c.digest| == DIGEST && FormFiles(c.forms)
  }

  predicate Sound(cfg: Config) {
    && |cfg.magic| == DIGEST
    && (forall u :: u in cfg.accounts ==>
          |cfg.accounts[u].digest| == DIGEST && ClockText(cfg.accounts[u].startText)
              && ClockText(cfg.accounts[u].endText))
    && (forall p :: 0 <= p < |cfg.clients| ==> GoodClient(cfg.clients[p]))
  }

  /** The user the server reads from a client's USER line. */
  function UserOfClient(c: Client): string
    requires |c.login| == 4
  {
    UserOf(UserLine(c), "")
  }

  /** The database that client's puts go to. */
  function CollegeNumber(c: Client): int
    requires |c.login| == 4
  {
    Strtol(UserOfClient(c))
  }

  /** The server has an enabled account for the client, with the client's digest. */
  predicate Entitled(cfg: Config, c: Client) {
    && |c.login| == 4 && UserOfClient(c) in cfg.accounts && UserOfClient(c) != ""
    && cfg.accounts[UserOfClient(c)].disabled != 1 && cfg.accounts[UserOfClient(c)].digest == c.digest
  }

  // ---------------------------------------------------------------------------------------
  // Messages
  // ---------------------------------------------------------------------------------------

  function NameIn(m: string): string
    requires |m| >= 10
  {
    m[9..|m| - 1]
  }

  predicate IsName(m: string) {
    |m| >= 10 && GoodName(NameIn(m)) && m == NameLine(NameIn(m))
  }

  /** What a client writes once it is authenticated. */
  predicate Message(m: string) {
    IsName(m) || PlainLine(m) || m == DOT || m == QUIT
  }

  predicate Messages(ms: seq<string>) {
    forall k :: 0 <= k < |ms| ==> Message(ms[k])
  }

  function NameLines(names: seq<string>): (r: seq<string>)
    ensures |r| == |names| && forall k :: 0 <= k < |names| ==> r[k] == NameLine(names[k])
  {
    seq(|names|, k requires 0 <= k < |names| => NameLine(names[k]))
  }

  /** The lines of the form announced last. */
  function LinesOf(c: Client, name: string): seq<string> {
    if name in c.forms then c.forms[name] else []
  }

  /** A whole form on its way: names announced, the lines of the last one, the dot. */
  predicate Exact(c: Client, names: seq<string>, msgs: seq<string>) {
    && names != [] && names[|names| - 1] in c.forms
    && msgs == NameLines(names) + c.forms[names[|names| - 1]] + [DOT]
  }

  // ---------------------------------------------------------------------------------------
  // The invariant of one session
  // ---------------------------------------------------------------------------------------

  /** What is on its way to the server is what was written and not taken, cut off at worst. */
  ghost predicate Carried(s: Session) {
    && s.seen <= |s.msgs|
    && s.c2s <= Flatten(s.msgs[s.seen..])
    && (Live(s) ==> s.c2s == Flatten(s.msgs[s.seen..]))
  }

  /** The put of the exchange is in the log. */
  predicate Logged(s: Session, log: seq<Entry>) {
    && s.stored.Some? && s.stored.value < |log|
    && log[s.stored.value].client == s.owner && log[s.stored.value].names == s.names
  }

  /** The client is waiting, and for this reply. */
  predicate Right(s: Session, reply: string, log: seq<Entry>) {
    match s.pc
    case WaitMagic => reply == OK
    case WaitUser => WholeLine(reply) && 4 <= |reply| < MAXLINE
    case WaitPass => (reply == OK && s.accepted) || reply == "303\n"
    case WaitAck(_) => reply == OK && Logged(s, log)
    case _ => false
  }

  /** At most one reply is under way, only to a waiting client, and it is the right one. */
  ghost predicate Answered(s: Session, log: seq<Entry>) {
    && s.s2c <= s.reply && (Live(s) ==> s.s2c == s.reply)
    && (s.reply != "" ==> s.seen == |s.msgs| && Right(s, s.reply, log))
  }

  predicate InLines(pc: Pc) {
    pc.Start? || pc.Scan? || pc.Named? || pc.Sending? || pc.WaitAck? || pc.Marking? || pc.Quitting? || pc.Closed?
  }

  /** A request of the handshake, written or not, taken or not. */
  ghost predicate Pending(s: Session, request: string, asks: Pc, waits: Pc, waited: Pc) {
    && s.seen == 0 && (s.msgs == [] || s.msgs == [request])
    && (Live(s) ==>
          || (s.pc.Closed? && s.msgs == [])
          || (s.pc == asks && s.msgs == [] && s.reply == "")
          || (s.pc == waits && s.msgs == [request] && s.reply == "")
          || (s.pc == waited && s.msgs == [] && s.reply != ""))
  }

  /** Both sides of the handshake are at the same question. */
  ghost predicate InStep(cfg: Config, c: Client, s: Session)
    requires |c.login| == 4
  {
    match s.server
    case Gone => true
    case WantMagic => Pending(s, cfg.magic, SendMagic, WaitMagic, SendMagic) && !s.accepted && (Live(s)
        ==> s.reply == "")
    case WantUser => Pending(s, UserLine(c), SendUser, WaitUser, WaitMagic) && !s.accepted
    case WantPass(u) =>
      Pending(s, PassLine(c), SendPass, WaitPass, WaitUser) && u == UserOfClient(c)
      && !s.accepted && u in cfg.accounts && u != "" && cfg.accounts[u].disabled != 1
    case Talking(u, m) =>
      && u == UserOfClient(c) && s.accepted && Messages(s.msgs)
      && (Live(s) ==> InLines(s.pc) || (s.pc == WaitPass && s.msgs == [] && s.reply == OK && m.Command?))
  }

  /** The open body is everything since the message that named it, and fits the record buffer. */
  ghost predicate Tracks(s: Session, m: Mode) {
    m.Body? ==>
      && |m.record| <= MAXINFOSIZE
      && s.base < s.seen <= |s.msgs| && IsName(s.msgs[s.base]) && m.name == NameIn(s.msgs[s.base])
      && m.text == Flatten(s.msgs[s.base + 1..s.seen]) && m.record == Pack(s.msgs[s.base + 1..s.seen])
  }

  const GOOD_LUCK := Luck(NUL, true, true)

  /** The line loop after these messages when no file of the server fails. */
  function Fold(ms: seq<string>): Mode {
    if ms == [] then Command("")
    else
      var m := Fold(ms[..|ms| - 1]);
      if Listening(m) then OnLine(m, ms[|ms| - 1], GOOD_LUCK).mode else m
  }

  /** Equal but for the last name heard, which matters no more. */
  predicate SameMode(a: Mode, b: Mode) {
    a == b || (a.Command? && b.Command?)
  }

  /** Unless a file failed, the line loop is where the messages taken so far lead. */
  predicate Regular(s: Session, m: Mode) {
    s.diskOk && s.seen <= |s.msgs| ==> SameMode(m, Fold(s.msgs[..s.seen]))
  }

  /** Nothing more will reach the server. */
  predicate Starved(s: Session) { !s.up && s.c2s == "" }

  /** The line loop is where the messages taken led, unless the connection broke inside one of them. */
  ghost predicate Followed(s: Session) {
    s.server.Talking? ==>
      var m := s.server.mode;
      Starved(s) || (Regular(s, m) && (m.Undefined? || (Listening(m) && Tracks(s, m))))
  }

  /** The client's place in a form is what it wrote. */
  predicate Placed(c: Client, s: Session) {
    match s.pc
    case Start => s.msgs == [] && s.names == []
    case Scan => DOT !in s.msgs && (!s.cancelled ==> s.msgs == NameLines(s.names))
    case Named(n) => DOT !in s.msgs
                     && (!s.cancelled ==> s.names != [] && s.names[|s.names| - 1] == n && s.msgs == NameLines(s.names))
    case Sending(n, i) => n in c.forms && i <= |c.forms[n]| && s.names != [] && s.names[|s.names| - 1] == n
                          && s.msgs == NameLines(s.names) + c.forms[n][..i]
    case WaitAck(n) => Exact(c, s.names, s.msgs) && s.names[|s.names| - 1] == n
    case Quitting => DOT !in s.msgs
    case Closed => DOT !in s.msgs
    case _ => true
  }

  ghost predicate Shaped(c: Client, s: Session, log: seq<Entry>) {
    && s.todo <= c.forms.Keys
    && (match s.pc
        case Named(n) => n in c.forms
        case Sending(n, i) => n in c.forms && i <= |c.forms[n]|
        case WaitAck(n) => n in c.forms
        case Marking(n) => Exact(c, s.names, s.msgs) && s.names[|s.names| - 1] == n && Logged(s, log)
                           && s.seen == |s.msgs|
        case _ => true)
    && (!InLines(s.pc) ==> s.names == [])
    && (forall k :: 0 <= k < |s.names| ==> s.names[k] in c.forms)
    && (DOT in s.msgs ==> Exact(c, s.names, s.msgs))
    && (Live(s) || s.reply != "" ==> Placed(c, s))
  }

  /** Nobody gets past the handshake without the server's consent, and the server consents only
      to clients it has an account for. */
  ghost predicate Admitted(cfg: Config, c: Client, s: Session) {
    && (InLines(s.pc) && !s.pc.Closed? ==> s.accepted)
    && (s.accepted ==> Entitled(cfg, c))
  }

  /** The server took the dot: the acknowledgement is on its way or taken. */
  ghost predicate Settled(s: Session) {
    && (Live(s) && s.pc.WaitAck? && s.seen == |s.msgs| ==> s.reply == OK)
    && (s.server.Talking? && !s.server.mode.Command? && !Starved(s) ==> s.reply == "" && !s.pc.Marking?)
  }

  ghost predicate SessionInv(cfg: Config, s: Session, log: seq<Entry>) {
    && s.owner < |cfg.clients| && GoodClient(cfg.clients[s.owner])
    && var c := cfg.clients[s.owner];
       && Carried(s) && Answered(s, log) && InStep(cfg, c, s) && Followed(s)
       && Shaped(c, s, log) && Admitted(cfg, c, s) && Settled(s)
  }

  /** One put: the lines of the form announced last, after the names announced before it that the
      server took for lines, under the key of the name it took for a name. All of it fits the
      record buffer. */
  ghost predicate GoodEntry(cfg: Config, e: Entry) {
    && e.client < |cfg.clients| && |cfg.clients[e.client].login| == 4
    && var c := cfg.clients[e.client];
       && Entitled(cfg, c) && e.college == CollegeNumber(c)
       && e.names != [] && (forall k :: 0 <= k < |e.names| ==> e.names[k] in c.forms && |e.names[k]| >= 4)
       && (exists j: nat :: j < |e.names| && PutFrom(c, e, j)) && |e.record| <= MAXINFOSIZE
       && (e.diskOk ==> PutRegularly(c, e))
  }

  /** The put is the one these messages lead to. */
  predicate PutRegularly(c: Client, e: Entry) {
    e.names != [] &&
    var m := Fold(NameLines(e.names) + LinesOf(c, e.names[|e.names| - 1]));
    m.Body? && |m.name| >= 4 && e.key == KeyOf(m.name) && e.record == m.record && e.text == m.text
  }

  predicate PutFrom(c: Client, e: Entry, j: nat)
    requires j < |e.names| && |e.names[j]| >= 4
  {
    var lines := NameLines(e.names[j + 1..]) + LinesOf(c, e.names[|e.names| - 1]);
    e.key == KeyOf(e.names[j]) && e.record == Pack(lines) && e.text == Flatten(lines)
  }
}
