/** Any number of clients and one server: authenticate, apply_forms and apply_form
    (project2/src/myfuncs.c) against manage_client (server/eduserver.c), over one pair of byte
    channels per connection. A connection may be cut at any byte, the server may time out, the
    operator may cancel, and files may fail to open, all at any moment.

    Every action is a function of the state and of a choice, so a run is a list of events. Fields
    marked "history" take no part in what happens; they only remember it. */
module Protocol {
  import opened Bytes
  import opened Streams
  import opened Records
  import opened Server
  import opened Framing

  // ---------------------------------------------------------------------------------------
  // State
  // ---------------------------------------------------------------------------------------

  /** A client program: its login, the digest of the password typed, and its form files with
      the lines they had when they were saved. */
  datatype Client = Client(login: string, digest: string, forms: map<string, seq<string>>)

  datatype Config = Config(magic: string, accounts: map<string, Account>, clients: seq<Client>)

  /** Where a client stands in authenticate, apply_forms and apply_form. */
  datatype Pc =
    | SendMagic | WaitMagic | SendUser | WaitUser | SendPass | WaitPass
    | Start                              // authenticated, directory not opened yet
    | Scan                               // reading the directory
    | Named(name: string)                // the FILENAME line is out
    | Sending(name: string, done: nat)   // so many lines of the form are out
    | WaitAck(name: string)              // the dot is out
    | Marking(name: string)              // acknowledged, file not rewritten yet
    | Quitting
    | Closed

  /** Where the server's thread for a connection stands. */
  datatype Thread = WantMagic | WantUser | WantPass(user: string) | Talking(user: string, mode: Mode) | Gone

  /** One connection, from connect() until both sides are done. */
  datatype Session = Session(
    owner: nat, pc: Pc, todo: set<string>, missed: set<string>, cancelled: bool,
    c2s: string, s2c: string, up: bool, server: Thread,
    accepted: bool,        // history: the server took the password
    msgs: seq<string>,     // history: messages written since the last reply was taken
    seen: nat,             // history: how many of them the server has taken
    names: seq<string>,    // history: names announced since the last acknowledgement
    base: nat,             // history: which message named the open body
    reply: string,         // history: the reply the client has not taken yet
    stored: Option<nat>,   // history: where in the log this exchange's put is
    diskOk: bool)          // history: no file of the server failed since the last acknowledgement

  /** One record put. `names` and `diskOk` are history. */
  datatype Entry = Entry(client: nat, college: int, key: string, record: string, text: string,
                         names: seq<string>, diskOk: bool)

  /** `bufs` are the clients' static read buffers, `sent` the files whose flag says sent, `log`
      every put the server made, in order. */
  datatype World = World(sessions: seq<Session>, bufs: seq<string>, sent: set<(nat, string)>, log: seq<Entry>)

  function Init(cfg: Config): World {
    World([], seq(|cfg.clients|, _ => ""), {}, [])
  }

  function Connected(p: nat, todo: set<string>): Session {
    Session(p, SendMagic, todo, {}, false, "", "", true, WantMagic, false, [], 0, [], 0, "", None, true)
  }

  /** Bytes written by the client can still reach the server. */
  predicate Live(s: Session) { s.up && !s.server.Gone? }

  /** The server's reads will end after what is in flight. */
  predicate ClosedToServer(s: Session) { !s.up || s.pc.Closed? }

  predicate ClosedToClient(s: Session) { !Live(s) }

  function Least(a: nat, b: nat): nat { if a < b then a else b }

  /** What a readline call on bytes in flight comes back with; None while it must wait. */
  function Avail(stream: string, closed: bool, e: Ending, maxlen: nat): Option<Taken>
    requires maxlen > 0
  {
    var p := LinePrefix(stream, maxlen - 1);
    if Terminated(p) || |p| == maxlen - 1 || closed then Some(TakeLine(stream, e, maxlen)) else None
  }

  // ---------------------------------------------------------------------------------------
  // The client
  // ---------------------------------------------------------------------------------------

  /** The file a readdir gives, whether the next file operation works, whether writen succeeds
      and how much of a failed message got out, how a closed stream reads, and how much of what
      follows a reply one read had already fetched. */
  datatype Choice = Choice(name: string, works: bool, writes: bool, part: nat, ending: Ending, keep: nat)

  datatype Acted = Acted(s: Session, buf: string, marks: set<string>)

  function UserLine(c: Client): string { "USER " + c.login + "\n" }

  function PassLine(c: Client): string { "PASS " + c.digest }

  /** A message handed to writen. A failure breaks the connection after part of the message. */
  function Wrote(s: Session, msg: string, ch: Choice): Session {
    if !Live(s) then s
    else if ch.writes then s.(c2s := s.c2s + msg, msgs := s.msgs + [msg])
    else s.(c2s := s.c2s + msg[..Least(ch.part, |msg|)], msgs := s.msgs + [msg], up := false)
  }

  /** A FILENAME line handed to writen. */
  function Announced(s: Session, name: string, ch: Choice): Session {
    if Live(s) then Wrote(s, NameLine(name), ch).(names := s.names + [name]) else s
  }

  /** One readline of the client, from its static buffer and then the connection. */
  function Receive(s: Session, buf: string, ch: Choice, maxlen: nat): Option<(Taken, Session, string)>
    requires maxlen > 0
  {
    match Avail(buf + s.s2c, ClosedToClient(s), ch.ending, maxlen)
    case None => None
    case Some(t) =>
      var rest := if t.Got? && |t.text| <= |buf + s.s2c| then (buf + s.s2c)[|t.text|..] else "";
      var k := Least(ch.keep, |rest|);
      Some((t, s.(s2c := rest[k..], reply := ""), rest[..k]))
  }

  /** The exchange of one form is over: acknowledged, and its file rewritten or not. */
  function Over(s: Session): Session {
    s.(pc := Scan, msgs := [], seen := 0, names := [], stored := None, diskOk := true)
  }

  function Missed(s: Session, name: string, pc: Pc): Session {
    s.(pc := pc, missed := s.missed + {name})
  }

  function Asking(cfg: Config, s: Session, buf: string, ch: Choice): Option<Acted>
    requires s.owner < |cfg.clients|
  {
    var c := cfg.clients[s.owner];
    match s.pc
    case SendMagic => Some(Acted(Wrote(s, cfg.magic, ch).(pc := if ch.writes then WaitMagic else Closed), buf, {}))
    case SendUser => Some(Acted(Wrote(s, UserLine(c), ch).(pc := if ch.writes then WaitUser else Closed), buf, {}))
    case SendPass => Some(Acted(Wrote(s, PassLine(c), ch).(pc := if ch.writes then WaitPass else Closed), buf, {}))
    case _ => None
  }

  function Listens(s: Session, buf: string, ch: Choice): Option<Acted> {
    match s.pc
    case WaitMagic =>
      (match Receive(s, buf, ch, 80) case None => None case Some((t, s', buf')) =>
        Some(Acted(s'.(pc := if Returned(t) == 4 && StartsWith(t.text, OK) then SendUser else Closed), buf', {})))
    case WaitUser =>
      (match Receive(s, buf, ch, MAXLINE) case None => None case Some((t, s', buf')) =>
        Some(Acted(s'.(pc := if Returned(t) >= 4 && Strtol(CStr(t.text)) == 500 then SendPass else Closed), buf', {})))
    case WaitPass =>
      (match Receive(s, buf, ch, MAXLINE) case None => None case Some((t, s', buf')) =>
        Some(Acted(s'.(pc := if Returned(t) == 4 && Strtol(CStr(t.text)) != 303 then Start else Closed), buf', {})))
    case WaitAck(name) =>
      (match Receive(s, buf, ch, 20) case None => None case Some((t, s', buf')) =>
        Some(Acted(if Returned(t) == 4 && StartsWith(t.text, OK) then s'.(pc := Marking(name))
                   else Missed(s', name, Scan), buf', {})))
    case _ => None
  }

  function Sends(cfg: Config, s: Session, sent: set<(nat, string)>, ch: Choice): Option<Session>
    requires s.owner < |cfg.clients|
  {
    match s.pc
    case Start => Some(s.(pc := if s.cancelled || !ch.works then Quitting else Scan))
    case Scan =>
      if s.todo == {} then Some(s.(pc := Quitting))
      else if ch.name !in s.todo then None
      else
        var s1 := s.(todo := s.todo - {ch.name});
        if !ch.works then Some(Missed(s1, ch.name, Scan))
        else if (s.owner, ch.name) in sent then Some(s1)
        else if ch.writes then Some(Announced(s1, ch.name, ch).(pc := Named(ch.name)))
        else Some(Missed(Announced(s1, ch.name, ch), ch.name, Closed))
    case Named(name) =>
      if s.cancelled then Some(Missed(s, name, Quitting))
      else if !ch.works then Some(Missed(s, name, Scan))
      else Some(s.(pc := Sending(name, 0)))
    case Sending(name, i) =>
      if name !in cfg.clients[s.owner].forms then None
      else
        var lines := cfg.clients[s.owner].forms[name];
        if i < |lines| && s.cancelled then Some(Missed(s, name, Scan))
        else
          var s1 := Wrote(s, if i < |lines| then lines[i] else DOT, ch);
          if !ch.writes then Some(Missed(s1, name, Scan))
          else Some(s1.(pc := if i < |lines| then Sending(name, i + 1) else WaitAck(name)))
    case Quitting => Some(Wrote(s, QUIT, ch).(pc := Closed))
    case _ => None
  }

  /** One step of a client; None when it is done or must wait for the server. */
  function ClientStep(cfg: Config, s: Session, buf: string, sent: set<(nat, string)>, ch: Choice): Option<Acted>
    requires s.owner < |cfg.clients|
  {
    match s.pc
    case SendMagic | SendUser | SendPass => Asking(cfg, s, buf, ch)
    case WaitMagic | WaitUser | WaitPass | WaitAck(_) => Listens(s, buf, ch)
    case Marking(name) =>
      if ch.works then Some(Acted(Over(s), buf, {name})) else Some(Acted(Missed(Over(s), name, Scan), buf, {}))
    case _ => match Sends(cfg, s, sent, ch) case None => None case Some(s') => Some(Acted(s', buf, {}))
  }

  // ---------------------------------------------------------------------------------------
  // The server
  // ---------------------------------------------------------------------------------------

  /** The two clock readings, whether the database opens, the luck of one line, how a closed
      stream reads, whether the reply goes out and how much of a failed one did. */
  datatype Chance = Chance(early: int, late: int, ready: bool, luck: Luck, ending: Ending, writes: bool, part: nat)

  function EnvAt(cfg: Config, ch: Chance): Env {
    Env(cfg.magic, cfg.accounts, ch.early, ch.late, ch.ready, _ => Disk(ch.luck.opens, ch.luck.writes), "", "")
  }

  /** `n` bytes off the connection: one message of the handshake. */
  function Drop(s: Session, n: nat): Session
    requires n <= |s.c2s|
  {
    s.(c2s := s.c2s[n..], msgs := if s.msgs == [] then [] else s.msgs[1..])
  }

  /** A reply handed to writen; `next` when it went out, `failed` when it did not. */
  function Answer(s: Session, msg: string, ch: Chance, next: Thread, failed: Thread): Session {
    if !s.up then s.(server := if ch.writes then next else failed)
    else if ch.writes then s.(server := next, s2c := s.s2c + msg, reply := s.reply + msg)
    else s.(server := failed, s2c := s.s2c + msg[..Least(ch.part, |msg|)], reply := s.reply + msg, up := false)
  }

  function TakesMagic(cfg: Config, s: Session, ch: Chance): Option<Session> {
    if |s.c2s| < DIGEST then if ClosedToServer(s) then Some(s.(server := Gone)) else None
    else if s.c2s[..DIGEST] != cfg.magic then Some(Drop(s, DIGEST).(server := Gone))
    else Some(Answer(Drop(s, DIGEST), OK, ch, WantUser, Gone))
  }

  function TakesUser(cfg: Config, s: Session, ch: Chance): Option<Session> {
    if |s.c2s| < 10 then if ClosedToServer(s) then Some(s.(server := Gone)) else None
    else if !StartsWith(s.c2s[..10], "USER ") then Some(Drop(s, 10).(server := Gone))
    else
      var user := UserOf(s.c2s[..10], "");
      var (reply, goOn) := UserReply(EnvAt(cfg, ch), user);
      Some(Answer(Drop(s, 10), reply, ch, if goOn then WantPass(user) else Gone, Gone))
  }

  function TakesPass(cfg: Config, s: Session, user: string, ch: Chance): Option<Session> {
    var digest := if user in cfg.accounts then cfg.accounts[user].digest else "";
    var n := 5 + |digest|;
    if |s.c2s| < n then if ClosedToServer(s) then Some(s.(server := Gone)) else None
    else if !StartsWith(s.c2s[..n], "PASS ") then Some(Drop(s, n).(server := Gone))
    else if s.c2s[5..n] != digest then Some(Answer(Drop(s, n), "303\n", ch, Gone, Gone))
    else
      Some(Answer(Drop(s, n).(accepted := true), OK, ch,
                  if ch.ready then Talking(user, Command("")) else Gone, Gone))
  }

  function ThreadOf(user: string, m: Mode): Thread {
    if m.Stopped? then Gone else Talking(user, m)
  }

  datatype Served = Served(s: Session, entry: Option<Entry>)

  /** The put among the effects of a line, if there is one. */
  function EntryOf(s: Session, user: string, effects: seq<Effect>, diskOk: bool): Option<Entry> {
    if |effects| == 1 && effects[0].Put? then
      Some(Entry(s.owner, Strtol(user), effects[0].key, effects[0].record, effects[0].text, s.names, diskOk))
    else None
  }

  /** The session after a line was taken, before any reply to it. */
  function Heard(s: Session, m: Mode, text: string, stored: Option<nat>, diskOk: bool): Session
    requires |text| <= |s.c2s|
  {
    s.(c2s := s.c2s[|text|..], seen := s.seen + 1, base := if m.Command? then s.seen else s.base,
       stored := stored, diskOk := diskOk)
  }

  /** One line off the connection, in the command loop or in the body loop. `at` is where the
      next put goes in the log. */
  function TakesLine(s: Session, user: string, m: Mode, at: nat, ch: Chance): Option<Served>
    requires Listening(m)
  {
    match Avail(s.c2s, ClosedToServer(s), ch.ending, MAXLINE)
    case None => None
    case Some(t) =>
      if !t.Got? || |t.text| > |s.c2s| then Some(Served(s.(server := Gone), None))
      else
        var turn := OnLine(m, t.text, ch.luck);
        var diskOk := s.diskOk && ch.luck.opens && ch.luck.writes;
        var entry := EntryOf(s, user, turn.effects, diskOk);
        var s1 := Heard(s, m, t.text, if entry.Some? then Some(at) else s.stored, diskOk);
        var next := ThreadOf(user, turn.mode);
        Some(Served(if turn.reply == "" then s1.(server := next)
                    else Answer(s1, turn.reply, ch, next, if turn.reply == OK then Gone else next), entry))
  }

  /** One step of a server thread; None when it is gone or must wait for the client. What happens
      after a thread overran a buffer is not modelled: the thread then stops. */
  function ServerStep(cfg: Config, s: Session, at: nat, ch: Chance): Option<Served> {
    match s.server
    case WantMagic => (match TakesMagic(cfg, s, ch) case None => None case Some(s') => Some(Served(s', None)))
    case WantUser => (match TakesUser(cfg, s, ch) case None => None case Some(s') => Some(Served(s', None)))
    case WantPass(user) => (match TakesPass(cfg, s, user, ch) case None => None case Some(s') => Some(Served(s', None)))
    case Talking(user, m) =>
      if Listening(m) then TakesLine(s, user, m, at, ch) else Some(Served(s.(server := Gone), None))
    case Gone => None
  }

  // ---------------------------------------------------------------------------------------
  // The whole system
  // ---------------------------------------------------------------------------------------

  datatype Event =
    | Connect(p: nat)
    | ClientActs(i: nat, choice: Choice)
    | ServerActs(i: nat, chance: Chance)
    | Cut(i: nat, toServer: nat, toClient: nat)   // the connection breaks; so many bytes still arrive
    | GiveUp(i: nat)                              // the server's thread times out or fails
    | Cancel(i: nat)                              // the operator presses the button

  /** A client opens a connection only after the previous one is done. */
  predicate Idle(w: World, p: nat) {
    forall i :: 0 <= i < |w.sessions| ==> w.sessions[i].owner == p ==> w.sessions[i].pc.Closed?
  }

  function Next(cfg: Config, w: World, e: Event): Option<World> {
    match e
    case Connect(p) =>
      if p < |cfg.clients| && Idle(w, p)
      then Some(w.(sessions := w.sessions + [Connected(p, cfg.clients[p].forms.Keys)])) else None
    case ClientActs(i, ch) =>
      if i < |w.sessions| && w.sessions[i].owner < |cfg.clients| && w.sessions[i].owner < |w.bufs| then
        var p := w.sessions[i].owner;
        match ClientStep(cfg, w.sessions[i], w.bufs[p], w.sent, ch)
        case None => None
        case Some(a) =>
          Some(w.(sessions := w.sessions[i := a.s], bufs := w.bufs[p := a.buf],
                  sent := w.sent + set n | n in a.marks :: (p, n)))
      else None
    case ServerActs(i, ch) =>
      if i < |w.sessions| then
        match ServerStep(cfg, w.sessions[i], |w.log|, ch)
        case None => None
        case Some(d) =>
          Some(w.(sessions := w.sessions[i := d.s],
                  log := w.log + (if d.entry.Some? then [d.entry.value] else [])))
      else None
    case Cut(i, m, n) =>
      if i < |w.sessions| then
        var s := w.sessions[i];
        Some(w.(sessions := w.sessions[i := s.(c2s := s.c2s[..Least(m, |s.c2s|)], s2c := s.s2c[..Least(n, |s.s2c|)],
                                              up := false)]))
      else None
    case GiveUp(i) =>
      if i < |w.sessions| then Some(w.(sessions := w.sessions[i := w.sessions[i].(server := Gone)])) else None
    case Cancel(i) =>
      if i < |w.sessions| then Some(w.(sessions := w.sessions[i := w.sessions[i].(cancelled := true)])) else None
  }

  /** A run; None when an event was not possible where it stood. */
  function Exec(cfg: Config, w: World, es: seq<Event>): Option<World>
    decreases |es|
  {
    if es == [] then Some(w)
    else match Next(cfg, w, es[0])
      case None => None
      case Some(w') => Exec(cfg, w', es[1..])
  }

  /** A college's database after the puts of a log. */
  function Db(log: seq<Entry>, college: int): map<string, string> {
    if log == [] then map[]
    else
      var e := log[|log| - 1];
      var before := Db(log[..|log| - 1], college);
      if e.college == college then before[e.key := e.record] else before
  }
}
