/** The server thread of the protocol, stepped to its end on any input, does what Server.Serve says
    of the whole input - and so what the imperative manage_client does over a socket. */
module ProtocolThread {
  import opened Bytes
  import opened Streams
  import opened Records
  import opened Server
  import opened Framing
  import opened Protocol
  import opened ProtocolServer

  /** What a step of the thread does to the two stores of the server. */
  function StepEffects(s: Session, ch: Chance): seq<Effect> {
    match s.server
    case Talking(user, m) =>
      if !Listening(m) then []
      else (match Avail(s.c2s, ClosedToServer(s), ch.ending, MAXLINE)
            case None => []
            case Some(t) =>
              if !t.Got? || |t.text| > |s.c2s| then OnEnd(m) else OnLine(m, t.text, ch.luck).effects)
    case _ => []
  }

  /** Where a run of the thread has got to: the session, the log, and what the stores saw. */
  datatype Ran = Ran(s: Session, log: seq<Entry>, effects: seq<Effect>)

  function RanOn(r: Ran, d: Served, ch: Chance): Ran {
    Ran(d.s, Grown(r.log, d.entry), r.effects + StepEffects(r.s, ch))
  }

  /** The thread run on its own for as many steps as there are chances. */
  function RunThread(cfg: Config, r: Ran, chs: seq<Chance>): Option<Ran>
    decreases |chs|
  {
    if chs == [] then Some(r)
    else match ServerStep(cfg, r.s, |r.log|, chs[0])
      case None => None
      case Some(d) => RunThread(cfg, RanOn(r, d, chs[0]), chs[1..])
  }

  /** A put, and the college whose database it goes to. */
  datatype Filed = Filed(college: int, key: string, text: string, record: string)

  function PutsOf(es: seq<Effect>, college: int): seq<Filed> {
    if es == [] then []
    else (if es[0].Put? then [Filed(college, es[0].key, es[0].text, es[0].record)] else []) + PutsOf(es[1..], college)
  }

  function FiledOf(e: Entry): Filed { Filed(e.college, e.key, e.text, e.record) }

  function AllFiled(log: seq<Entry>): seq<Filed> {
    if log == [] then [] else AllFiled(log[..|log| - 1]) + [FiledOf(log[|log| - 1])]
  }

  lemma FiledGrows(log: seq<Entry>, entry: Option<Entry>)
    ensures AllFiled(Grown(log, entry)) == AllFiled(log) + if entry.Some? then [FiledOf(entry.value)] else []
  {
    if entry.Some? {
      assert Grown(log, entry)[..|log|] == log;
    } else {
      SameLog(log);
      assert AllFiled(log) + [] == AllFiled(log);
    }
  }

  /** A turn of a line has at most one effect. */
  lemma OneEffect(m: Mode, line: string, luck: Luck)
    requires Listening(m)
    ensures |OnLine(m, line, luck).effects| <= 1
  {
    hide CStr, Until, Chunk, KeyOf;
  }

  lemma {:induction false} PutsAppend(a: seq<Effect>, b: seq<Effect>, college: int)
    requires |a| <= 1
    ensures PutsOf(a + b, college) == PutsOf(a, college) + PutsOf(b, college)
  {
    if a == [] {
      assert a + b == b && PutsOf(a, college) + PutsOf(b, college) == PutsOf(b, college);
    } else {
      assert (a + b)[1..] == b && a[1..] == [];
      assert PutsOf(a[1..], college) == [];
      var first := if a[0].Put? then [Filed(college, a[0].key, a[0].text, a[0].record)] else [];
      assert first + [] == first;
    }
  }

  lemma EndPutsNothing(m: Mode, college: int)
    ensures PutsOf(OnEnd(m), college) == []
  {
    if m.Body? {
      assert OnEnd(m)[1..] == [];
      assert PutsOf([], college) == [];
    }
  }

  /** The chances that go with the environment of Serve at line `k`; so much of the reply got out. */
  function ChanceOf(env: Env, luck: Luck, ending: Ending, ok: bool, part: nat): Chance {
    Chance(env.early, env.late, env.ready, luck, ending, ok, part)
  }

  lemma RunCons(cfg: Config, r: Ran, ch: Chance, chs: seq<Chance>, d: Served)
    requires ServerStep(cfg, r.s, |r.log|, ch) == Some(d)
    ensures RunThread(cfg, r, [ch] + chs) == RunThread(cfg, RanOn(r, d, ch), chs)
  {
    hide ServerStep;
    assert ([ch] + chs)[1..] == chs;
  }

  /** What the client can hear of what the server wrote: all of it while the connection stands, and
      as much as got out before it broke. */
  predicate HeardOf(s: Session, t: Session, sent: string) {
    s.up ==> t.s2c <= s.s2c + sent && (t.up ==> t.s2c == s.s2c + sent)
  }

  /** From one wire to another at most something was written. */
  function Written(w: Wire, sent: string): string {
    if |w.sent| <= |sent| then sent[|w.sent|..] else ""
  }

  lemma HeardOn(s: Session, t: Session, u: Session, a: string, b: string)
    requires HeardOf(s, t, a) && HeardOf(t, u, b) && (u.up ==> t.up) && (!t.up ==> u.s2c == t.s2c)
    ensures HeardOf(s, u, a + b)
  {
    if s.up {
      assert s.s2c + a + b == s.s2c + (a + b);
      assert t.s2c <= s.s2c + a <= s.s2c + (a + b);
    }
  }

  lemma AnswerParts(u: Session, msg: string, ch: Chance, next: Thread, failed: Thread)
    ensures var t := Answer(u, msg, ch, next, failed);
            && t.c2s == u.c2s && t.pc == u.pc && (t.up ==> u.up)
            && t.server == (if ch.writes then next else failed)
            && Follows(u, t, if ch.writes then msg else msg[..Least(ch.part, |msg|)])
  {
  }

  /** The thread came to its end having done this: the stores saw the effects, every put is in the
      log under its college, and the client hears what was written. */
  ghost predicate DoesAs(r: Ran, end: Ran, effects: seq<Effect>, sent: string, college: int) {
    && end.s.server.Gone? && end.effects == r.effects + effects
    && AllFiled(end.log) == AllFiled(r.log) + PutsOf(effects, college)
    && Follows(r.s, end.s, sent)
  }

  /** Later in the same connection, with this written in between. */
  predicate Follows(s: Session, t: Session, sent: string) {
    HeardOf(s, t, sent) && (t.up ==> s.up) && (!s.up ==> t.s2c == s.s2c)
  }

  lemma FollowsOn(s: Session, t: Session, u: Session, a: string, b: string)
    requires Follows(s, t, a) && Follows(t, u, b)
    ensures Follows(s, u, a + b)
  {
    HeardOn(s, t, u, a, b);
  }

  lemma FollowsQuietly(s: Session, t: Session)
    requires t.up == s.up && t.s2c == s.s2c
    ensures Follows(s, t, "")
  {
    assert s.s2c + "" == s.s2c;
  }

  /** The put among the effects of a step, in the log. */
  predicate Logs(entry: Option<Entry>, effects: seq<Effect>, college: int) {
    && |effects| <= 1
    && (entry.Some? <==> |effects| == 1 && effects[0].Put?)
    && (entry.Some? ==> FiledOf(entry.value) == Filed(college, effects[0].key, effects[0].text, effects[0].record))
  }

  lemma OnePut(es: seq<Effect>, entry: Option<Entry>, college: int)
    requires Logs(entry, es, college)
    ensures PutsOf(es, college) == if entry.Some? then [FiledOf(entry.value)] else []
  {
    assert PutsOf([], college) == [];
    if |es| == 1 { assert es[1..] == []; }
  }

  /** One step and what comes after it. */
  lemma StepThen(cfg: Config, r: Ran, d: Served, ch: Chance, rest: seq<Chance>, end: Ran, a: seq<Effect>, x: string,
                 b: seq<Effect>, y: string, college: int)
    requires ServerStep(cfg, r.s, |r.log|, ch) == Some(d) && StepEffects(r.s, ch) == a && Logs(d.entry, a, college)
    requires Follows(r.s, d.s, x)
    requires RunThread(cfg, RanOn(r, d, ch), rest) == Some(end) && DoesAs(RanOn(r, d, ch), end, b, y, college)
    ensures RunThread(cfg, r, [ch] + rest) == Some(end) && DoesAs(r, end, a + b, x + y, college)
  {
    hide ServerStep, StepEffects, PutsOf, AllFiled, Follows, Logs, RunThread, FiledOf;
    RunCons(cfg, r, ch, rest, d);
    FiledGrows(r.log, d.entry);
    AtMostOne(d.entry, a, college);
    PutsAppend(a, b, college);
    OnePut(a, d.entry, college);
    FollowsOn(r.s, d.s, end.s, x, y);
    assert (r.effects + a) + b == r.effects + (a + b);
    FiledRegroup(AllFiled(r.log), PutsOf(a, college), PutsOf(b, college));
  }

  lemma AtMostOne(entry: Option<Entry>, a: seq<Effect>, college: int)
    requires Logs(entry, a, college)
    ensures |a| <= 1
  {
  }

  /** A step that ends the thread. */
  lemma StepLast(cfg: Config, r: Ran, d: Served, ch: Chance, a: seq<Effect>, x: string, college: int)
    returns (end: Ran)
    requires ServerStep(cfg, r.s, |r.log|, ch) == Some(d) && StepEffects(r.s, ch) == a && Logs(d.entry, a, college)
    requires Follows(r.s, d.s, x) && d.s.server.Gone?
    ensures RunThread(cfg, r, [ch]) == Some(end) && DoesAs(r, end, a, x, college)
  {
    end := RanOn(r, d, ch);
    AtEnd(cfg, end, college);
    assert [ch] + [] == [ch] && a + [] == a && x + "" == x;
    hide ServerStep, StepEffects, DoesAs, RunThread, Follows, Logs, RanOn;
    StepThen(cfg, r, d, ch, [], end, a, x, [], "", college);
  }

  lemma AtEnd(cfg: Config, r: Ran, college: int)
    ensures RunThread(cfg, r, []) == Some(r)
    ensures r.s.server.Gone? ==> DoesAs(r, r, [], "", college)
  {
    assert r.effects + [] == r.effects && AllFiled(r.log) + [] == AllFiled(r.log) && PutsOf([], college) == [];
    FollowsQuietly(r.s, r.s);
    hide AllFiled;
  }

  lemma HeardParts(s: Session, m: Mode, text: string, stored: Option<nat>, diskOk: bool)
    requires |text| <= |s.c2s|
    ensures var t := Heard(s, m, text, stored, diskOk);
            t.c2s == s.c2s[|text|..] && t.up == s.up && t.pc == s.pc && t.s2c == s.s2c
  {
  }

  /** One line of the loop, taken by the thread. */
  lemma StepIsTurn(cfg: Config, s: Session, user: string, m: Mode, at: nat, ch: Chance, text: string)
    returns (d: Served)
    requires s.server == Talking(user, m) && Listening(m) && ClosedToServer(s)
    requires TakeLine(s.c2s, ch.ending, MAXLINE) == Got(text) && text <= s.c2s
    ensures var turn := OnLine(m, text, ch.luck);
            && ServerStep(cfg, s, at, ch) == Some(d) && StepEffects(s, ch) == turn.effects
            && d.s.c2s == s.c2s[|text|..] && ClosedToServer(d.s)
            && d.s.server == ThreadOf(user, AfterReply(turn, ch.writes))
            && Logs(d.entry, turn.effects, Strtol(user))
            && Follows(s, d.s, if ch.writes then turn.reply else turn.reply[..Least(ch.part, |turn.reply|)])
  {
    hide OnLine, TakeLine, LinePrefix, Listening, Strtol, Answer, Heard, Follows, StepEffects, ServerStep, TakesLine;
    var turn := OnLine(m, text, ch.luck);
    var diskOk := s.diskOk && ch.luck.opens && ch.luck.writes;
    var entry := EntryOf(s, user, turn.effects, diskOk);
    var stored := if entry.Some? then Some(at) else s.stored;
    var s1, next := Heard(s, m, text, stored, diskOk), ThreadOf(user, turn.mode);
    d := Served(if turn.reply == "" then s1.(server := next)
                else Answer(s1, turn.reply, ch, next, if turn.reply == OK then Gone else next), entry);
    TurnStepIs(cfg, s, user, m, at, ch, text, entry, s1, next, d);
    TurnEffects(s, user, m, ch, text);
    OneEffect(m, text, ch.luck);
    HeardParts(s, m, text, stored, diskOk);
    AnswerParts(s1, turn.reply, ch, next, if turn.reply == OK then Gone else next);
    FollowsQuietly(s, s1.(server := next));
    SameHearing(s, s1, d.s, if ch.writes then turn.reply else turn.reply[..Least(ch.part, |turn.reply|)]);
  }

  lemma TurnStepIs(cfg: Config, s: Session, user: string, m: Mode, at: nat, ch: Chance, text: string,
                   entry: Option<Entry>, s1: Session, next: Thread, d: Served)
    requires s.server == Talking(user, m) && Listening(m) && ClosedToServer(s)
    requires TakeLine(s.c2s, ch.ending, MAXLINE) == Got(text) && text <= s.c2s
    requires entry == EntryOf(s, user, OnLine(m, text, ch.luck).effects, s.diskOk && ch.luck.opens && ch.luck.writes)
    requires s1 == Heard(s, m, text, if entry.Some? then Some(at) else s.stored,
                         s.diskOk && ch.luck.opens && ch.luck.writes)
    requires next == ThreadOf(user, OnLine(m, text, ch.luck).mode)
    requires var reply := OnLine(m, text, ch.luck).reply;
             d == Served(if reply == "" then s1.(server := next)
                         else Answer(s1, reply, ch, next, if reply == OK then Gone else next), entry)
    ensures ServerStep(cfg, s, at, ch) == Some(d)
  {
    hide OnLine, TakeLine, LinePrefix, Terminated, Listening, EntryOf, Heard, ThreadOf, Answer;
  }

  lemma TurnEffects(s: Session, user: string, m: Mode, ch: Chance, text: string)
    requires s.server == Talking(user, m) && Listening(m) && ClosedToServer(s)
    requires TakeLine(s.c2s, ch.ending, MAXLINE) == Got(text) && text <= s.c2s
    ensures StepEffects(s, ch) == OnLine(m, text, ch.luck).effects
  {
    hide OnLine, TakeLine, LinePrefix, Terminated, Listening;
  }

  lemma NoEffects(s: Session, ch: Chance)
    requires !s.server.Talking?
    ensures StepEffects(s, ch) == []
  {
  }

  lemma SameHearing(s: Session, s1: Session, t: Session, sent: string)
    requires s1.up == s.up && s1.s2c == s.s2c
    ensures Follows(s1, t, sent) ==> Follows(s, t, sent)
  {
  }

  lemma StepAtEnd(cfg: Config, s: Session, user: string, m: Mode, at: nat, ch: Chance)
    requires s.server == Talking(user, m) && ClosedToServer(s)
    requires !Listening(m) || !TakeLine(s.c2s, ch.ending, MAXLINE).Got?
    ensures ServerStep(cfg, s, at, ch) == Some(Served(s.(server := Gone), None))
    ensures StepEffects(s, ch) == if Listening(m) then OnEnd(m) else []
    ensures Follows(s, s.(server := Gone), "")
  {
    hide OnLine, TakeLine, LinePrefix, Terminated, Listening, Answer;
    FollowsQuietly(s, s.(server := Gone));
  }

  /** What the loop writes comes after what was written before. */
  lemma {:induction false} LoopWrites(w: Wire, m: Mode, env: Env, buf: string, k: nat)
    requires |buf| == BUFFER
    ensures w.sent <= LineLoop(w, m, env, buf, k).sent
    decreases |w.input|
  {
    hide OnLine, TakeLine, StoreLine, LuckAt, Deliver, Listening;
    var t := TakeLine(w.input, w.ending, MAXLINE);
    if Listening(m) && t.Got? {
      TakenShort(w.input, w.ending);
      var turn := OnLine(m, t.text, LuckAt(env, k, buf, t.text));
      var (w', ok) := Say(w.(input := w.input[|t.text|..]), turn.reply);
      LoopWrites(w', AfterReply(turn, ok), env, StoreLine(buf, t.text), k + 1);
    }
  }

  lemma WrittenOn(w: Wire, w': Wire, x: string, sent: string)
    requires w'.sent == w.sent + x && w'.sent <= sent
    ensures Written(w, sent) == x + Written(w', sent)
  {
  }

  /** The chances that go with saying this on the wire. */
  lemma SayIs(w: Wire, msg: string, env: Env, luck: Luck, ending: Ending)
    returns (w': Wire, ok: bool, ch: Chance)
    ensures Say(w, msg) == (w', ok) && ch == ChanceOf(env, luck, ending, ok, |w'.sent| - |w.sent|)
    ensures w'.sent == w.sent + if ok then msg else msg[..Least(ch.part, |msg|)]
    ensures w'.input == w.input && w'.ending == w.ending && ch.writes == ok
  {
    var d := Deliver(w.out, msg);
    var (a, b) := Say(w, msg);
    w', ok := a, b;
    ch := ChanceOf(env, luck, ending, ok, |w'.sent| - |w.sent|);
    hide Deliver;
    assert d.sent == msg[..|d.sent|];
  }

  /** The line loop: for every input, however replies and files fare, the thread can be stepped to
      its end and does exactly what LineLoop does. */
  lemma {:induction false} LoopIsThread(cfg: Config, r: Ran, user: string, m: Mode, w: Wire, env: Env, buf: string,
                                        k: nat)
    returns (chs: seq<Chance>, end: Ran)
    requires |buf| == BUFFER && r.s.server == ThreadOf(user, m) && r.s.c2s == w.input && ClosedToServer(r.s)
    ensures var o := LineLoop(w, m, env, buf, k);
            RunThread(cfg, r, chs) == Some(end) && DoesAs(r, end, o.effects, Written(w, o.sent), Strtol(user))
    decreases |w.input|
  {
    hide ServerStep, OnLine, TakeLine, StoreLine, LuckAt, Deliver, Listening, ClosedToServer, AllFiled, PutsOf, DoesAs,
      RunThread, StepEffects, RanOn, Follows, Logs, Strtol;
    var t := TakeLine(w.input, w.ending, MAXLINE);
    ListeningIs(m);
    if m.Stopped? {
      LoopIsOver(w, m, env, buf, k);
      chs, end := [], r;
      AtEnd(cfg, r, Strtol(user));
    } else if !Listening(m) || !t.Got? {
      LoopIsOver(w, m, env, buf, k);
      var ch := ChanceOf(env, Luck(NUL, true, true), w.ending, true, 0);
      chs := [ch];
      StepAtEnd(cfg, r.s, user, m, |r.log|, ch);
      NoPutAtEnd(m, Strtol(user));
      end := StepLast(cfg, r, Served(r.s.(server := Gone), None), ch, if Listening(m) then OnEnd(m) else [], "",
                      Strtol(user));
    } else {
      TakenShort(w.input, w.ending);
      var luck := LuckAt(env, k, buf, t.text);
      var turn := OnLine(m, t.text, luck);
      var w', ok, ch := SayIs(w.(input := w.input[|t.text|..]), turn.reply, env, luck, w.ending);
      var d := StepIsTurn(cfg, r.s, user, m, |r.log|, ch, t.text);
      var next := AfterReply(turn, ok);
      var r1 := RanOn(r, d, ch);
      RanParts(r, d, ch);
      var rest;
      rest, end := LoopIsThread(cfg, r1, user, next, w', env, StoreLine(buf, t.text), k + 1);
      chs := [ch] + rest;
      LoopWrites(w', next, env, StoreLine(buf, t.text), k + 1);
      var o := LineLoop(w', next, env, StoreLine(buf, t.text), k + 1);
      assert LineLoop(w, m, env, buf, k) == Prefixed(turn.effects, o);
      hide LineLoop;
      var said := if ok then turn.reply else turn.reply[..Least(ch.part, |turn.reply|)];
      WrittenOn(w, w', said, o.sent);
      StepThen(cfg, r, d, ch, rest, end, turn.effects, said, o.effects, Written(w', o.sent), Strtol(user));
    }
  }

  lemma RanParts(r: Ran, d: Served, ch: Chance)
    ensures RanOn(r, d, ch).s == d.s
  {
  }

  lemma NoPutAtEnd(m: Mode, college: int)
    ensures Logs(None, OnEnd(m), college) && Logs(None, [], college)
  {
  }

  lemma LoopIsOver(w: Wire, m: Mode, env: Env, buf: string, k: nat)
    requires |buf| == BUFFER && (!Listening(m) || !TakeLine(w.input, w.ending, MAXLINE).Got?)
    ensures var o := LineLoop(w, m, env, buf, k);
            o.effects == (if Listening(m) then OnEnd(m) else []) && Written(w, o.sent) == ""
  {
    hide TakeLine, OnLine;
  }

  lemma FiledRegroup(a: seq<Filed>, b: seq<Filed>, c: seq<Filed>)
    ensures (a + b) + c == a + (b + c)
  {
  }

  // ---------------------------------------------------------------------------------------
  // The whole of manage_client
  // ---------------------------------------------------------------------------------------

  /** The environment of Serve that a configuration stands for: variables hold nothing before they
      are set. */
  predicate EnvFits(cfg: Config, env: Env) {
    env.magic == cfg.magic && env.accounts == cfg.accounts && env.user == "" && env.name == "" && |env.magic| == DIGEST
  }

  lemma SameReply(cfg: Config, env: Env, ch: Chance, user: string)
    requires EnvFits(cfg, env) && ch.early == env.early && ch.late == env.late
    ensures UserReply(EnvAt(cfg, ch), user) == UserReply(env, user)
  {
  }

  const LUCKY := Luck(NUL, true, true)

  /** What is left to do of a session at some point of its handshake. */
  function RestOf(shaken: Shaken, env: Env, buf: string): Outcome
    requires |buf| == BUFFER
  {
    match shaken
    case Rejected(sent) => Outcome(sent, [], Stopped)
    case Accepted(_, w) => LineLoop(w, Command(env.name), env, buf, 0)
  }

  function CollegeIn(shaken: Shaken): int {
    if DatabaseOf(shaken).Some? then DatabaseOf(shaken).value else 0
  }

  lemma ServeIsRest(w: Wire, env: Env, buf: string)
    requires |env.magic| == DIGEST && |buf| == BUFFER
    ensures Serve(w, env, buf) == RestOf(AskMagic(w, env), env, buf)
  {
    hide LineLoop, AskMagic;
  }

  lemma NothingLogged(college: int)
    ensures Logs(None, [], college)
  {
  }

  /** The thread of the protocol is the server: stepped to its end on everything a client that has
      gone away has sent, it does exactly what Serve does - the same effects on both stores, the same
      puts in the user's own college, and the replies, as far as the connection carries them. */
  lemma ThreadIsServer(cfg: Config, r: Ran, w: Wire, env: Env, buf: string) returns (chs: seq<Chance>, end: Ran)
    requires EnvFits(cfg, env) && |buf| == BUFFER && r.s.server.WantMagic? && r.s.c2s == w.input && ClosedToServer(r.s)
    ensures var o := Serve(w, env, buf);
            && RunThread(cfg, r, chs) == Some(end)
            && DoesAs(r, end, o.effects, Written(w, o.sent), CollegeIn(AskMagic(w, env)))
  {
    hide ServerStep, Deliver, LineLoop, ClosedToServer, AllFiled, PutsOf, UserReply, UserOf, AskUser, DoesAs, RunThread,
      StepEffects, RanOn, Follows, Logs, CollegeIn, Say;
    ServeIsRest(w, env, buf);
    var college := CollegeIn(AskMagic(w, env));
    var known := |w.input| >= DIGEST && w.input[..DIGEST] == env.magic;
    var w1, ok, ch := SayIs(w.(input := if |w.input| < DIGEST then "" else w.input[DIGEST..]), OK, env, LUCKY,
                            w.ending);
    var said := if ok then OK else OK[..Least(ch.part, |OK|)];
    NothingLogged(college);
    var d := MagicStep(cfg, r.s, |r.log|, ch);
    if !known || !ok {
      chs := [ch];
      end := StepLast(cfg, r, d, ch, [], if known then said else "", college);
      WrittenIs(w, said);
    } else {
      RanParts(r, d, ch);
      var rest;
      rest, end := UserIsServer(cfg, RanOn(r, d, ch), w1, env, buf);
      chs := [ch] + rest;
      UserWrites(w1, env, buf);
      var o := RestOf(AskUser(w1, env), env, buf);
      WrittenOn(w, w1, said, o.sent);
      StepThen(cfg, r, d, ch, rest, end, [], said, o.effects, Written(w1, o.sent), college);
      assert [] + o.effects == o.effects;
    }
  }

  lemma WrittenIs(w: Wire, x: string)
    ensures Written(w, w.sent + x) == x && Written(w, w.sent) == ""
  {
  }

  lemma MagicStep(cfg: Config, s: Session, at: nat, ch: Chance) returns (d: Served)
    requires s.server.WantMagic? && ClosedToServer(s)
    ensures ServerStep(cfg, s, at, ch) == Some(d) && d.entry.None? && ClosedToServer(d.s) && StepEffects(s, ch) == []
    ensures var heard := |s.c2s| >= DIGEST && s.c2s[..DIGEST] == cfg.magic;
            && Follows(s, d.s, if !heard then "" else if ch.writes then OK else OK[..Least(ch.part, |OK|)])
            && if !heard || !ch.writes then d.s.server.Gone?
               else d.s.server == WantUser && d.s.c2s == s.c2s[DIGEST..]
  {
    d := ServerStep(cfg, s, at, ch).value;
    NoEffects(s, ch);
    hide Follows, StepEffects;
    if |s.c2s| >= DIGEST {
      var s1 := Drop(s, DIGEST);
      AnswerParts(s1, OK, ch, WantUser, Gone);
      SameHearing(s, s1, d.s, if ch.writes then OK else OK[..Least(ch.part, |OK|)]);
    }
    FollowsQuietly(s, s.(server := Gone));
  }

  lemma UserWrites(w: Wire, env: Env, buf: string)
    requires |buf| == BUFFER
    ensures w.sent <= RestOf(AskUser(w, env), env, buf).sent
  {
    hide UserReply, UserOf, LineLoop, AskPass, Deliver;
    if |w.input| >= 10 {
      var user := UserOf(w.input[..10], env.user);
      var (w1, ok) := Say(w.(input := w.input[10..]), UserReply(env, user).0);
      PassWrites(w1, env, user, buf);
    }
  }

  lemma PassWrites(w: Wire, env: Env, user: string, buf: string)
    requires |buf| == BUFFER
    ensures w.sent <= RestOf(AskPass(w, env, user), env, buf).sent
  {
    hide LineLoop, Deliver;
    var s := AskPass(w, env, user);
    if s.Accepted? { LoopWrites(s.wire, Command(env.name), env, buf, 0); }
  }

  lemma UserIsServer(cfg: Config, r: Ran, w: Wire, env: Env, buf: string) returns (chs: seq<Chance>, end: Ran)
    requires EnvFits(cfg, env) && |buf| == BUFFER && r.s.server.WantUser? && r.s.c2s == w.input && ClosedToServer(r.s)
    ensures var o := RestOf(AskUser(w, env), env, buf);
            && RunThread(cfg, r, chs) == Some(end)
            && DoesAs(r, end, o.effects, Written(w, o.sent), CollegeIn(AskUser(w, env)))
  {
    hide ServerStep, Deliver, LineLoop, ClosedToServer, AllFiled, PutsOf, UserReply, UserOf, AskPass, DoesAs, RunThread,
      StepEffects, RanOn, Follows, Logs, CollegeIn, Say;
    var field := if |w.input| < 10 then "" else w.input[..10];
    var user := if |field| == 10 then UserOf(field, "") else "";
    var (reply, goOn) := UserReply(env, user);
    var college := CollegeIn(AskUser(w, env));
    var w1, ok, ch := SayIs(w.(input := if |w.input| < 10 then "" else w.input[10..]), reply, env, LUCKY, w.ending);
    var said := if ok then reply else reply[..Least(ch.part, |reply|)];
    SameReply(cfg, env, ch, user);
    NothingLogged(college);
    var d := UserStep(cfg, r.s, |r.log|, ch, field, user);
    if |w.input| < 10 || !StartsWith(field, "USER ") || !goOn || !ok {
      chs := [ch];
      end := StepLast(cfg, r, d, ch, [], if |w.input| < 10 || !StartsWith(field, "USER ") then "" else said, college);
      WrittenIs(w, said);
    } else {
      RanParts(r, d, ch);
      var rest;
      rest, end := PassIsServer(cfg, RanOn(r, d, ch), user, w1, env, buf);
      chs := [ch] + rest;
      PassWrites(w1, env, user, buf);
      var o := RestOf(AskPass(w1, env, user), env, buf);
      WrittenOn(w, w1, said, o.sent);
      StepThen(cfg, r, d, ch, rest, end, [], said, o.effects, Written(w1, o.sent), college);
      assert [] + o.effects == o.effects;
    }
  }

  lemma UserStep(cfg: Config, s: Session, at: nat, ch: Chance, field: string, user: string) returns (d: Served)
    requires s.server.WantUser? && ClosedToServer(s)
    requires |s.c2s| >= 10 ==> field == s.c2s[..10] && user == UserOf(field, "")
    ensures ServerStep(cfg, s, at, ch) == Some(d) && d.entry.None? && ClosedToServer(d.s) && StepEffects(s, ch) == []
    ensures var heard := |s.c2s| >= 10 && StartsWith(field, "USER ");
            var (reply, goOn) := UserReply(EnvAt(cfg, ch), user);
            && Follows(s, d.s, if !heard then "" else if ch.writes then reply else reply[..Least(ch.part, |reply|)])
            && if !heard || !goOn || !ch.writes then d.s.server.Gone?
               else d.s.server == WantPass(user) && d.s.c2s == s.c2s[10..]
  {
    hide UserReply, UserOf, Answer;
    d := ServerStep(cfg, s, at, ch).value;
    NoEffects(s, ch);
    hide Follows, StepEffects;
    FollowsQuietly(s, s.(server := Gone));
    if |s.c2s| >= 10 {
      var (reply, goOn) := UserReply(EnvAt(cfg, ch), user);
      var s1 := Drop(s, 10);
      AnswerParts(s1, reply, ch, if goOn then WantPass(user) else Gone, Gone);
      SameHearing(s, s1, d.s, if ch.writes then reply else reply[..Least(ch.part, |reply|)]);
      FollowsQuietly(s, s1.(server := Gone));
    }
  }

  lemma PassIsServer(cfg: Config, r: Ran, user: string, w: Wire, env: Env, buf: string)
    returns (chs: seq<Chance>, end: Ran)
    requires EnvFits(cfg, env) && |buf| == BUFFER && r.s.server == WantPass(user) && r.s.c2s == w.input
    requires ClosedToServer(r.s)
    ensures var o := RestOf(AskPass(w, env, user), env, buf);
            && RunThread(cfg, r, chs) == Some(end)
            && DoesAs(r, end, o.effects, Written(w, o.sent), CollegeIn(AskPass(w, env, user)))
  {
    hide ServerStep, Deliver, LineLoop, ClosedToServer, AllFiled, PutsOf, DoesAs, RunThread, StepEffects, RanOn,
      Follows, Logs, Say, Strtol;
    var digest := if user in env.accounts then env.accounts[user].digest else "";
    var n := 5 + |digest|;
    var given := if |w.input| < n then "" else w.input[..n];
    var known := given != "" && StartsWith(given, "PASS ") && given[5..] == digest;
    var reply := if known then OK else "303\n";
    var college := CollegeIn(AskPass(w, env, user));
    var w1, ok, ch := SayIs(w.(input := if |w.input| < n then "" else w.input[n..]), reply, env, LUCKY, w.ending);
    var said := if ok then reply else reply[..Least(ch.part, |reply|)];
    NothingLogged(college);
    assert |w.input| >= n ==> w.input[5..n] == given[5..];
    var d := PassStep(cfg, r.s, user, |r.log|, ch, digest, given);
    if !known || !ok || !env.ready {
      chs := [ch];
      end := StepLast(cfg, r, d, ch, [], if given == "" || !StartsWith(given, "PASS ") then "" else said, college);
      WrittenIs(w, said);
    } else {
      RanParts(r, d, ch);
      var rest;
      rest, end := LoopIsThread(cfg, RanOn(r, d, ch), user, Command(""), w1, env, buf, 0);
      chs := [ch] + rest;
      LoopWrites(w1, Command(env.name), env, buf, 0);
      var o := LineLoop(w1, Command(env.name), env, buf, 0);
      WrittenOn(w, w1, said, o.sent);
      StepThen(cfg, r, d, ch, rest, end, [], said, o.effects, Written(w1, o.sent), college);
      assert [] + o.effects == o.effects;
    }
  }

  lemma PassStep(cfg: Config, s: Session, user: string, at: nat, ch: Chance, digest: string, given: string)
    returns (d: Served)
    requires s.server == WantPass(user) && ClosedToServer(s)
    requires digest == if user in cfg.accounts then cfg.accounts[user].digest else ""
    requires given == if |s.c2s| < 5 + |digest| then "" else s.c2s[..5 + |digest|]
    ensures ServerStep(cfg, s, at, ch) == Some(d) && d.entry.None? && ClosedToServer(d.s) && StepEffects(s, ch) == []
    ensures var heard := given != "" && StartsWith(given, "PASS ");
            var reply := if heard && given[5..] == digest then OK else "303\n";
            && Follows(s, d.s, if !heard then "" else if ch.writes then reply else reply[..Least(ch.part, |reply|)])
            && if !heard || given[5..] != digest || !ch.writes || !ch.ready then d.s.server.Gone?
               else d.s.server == Talking(user, Command("")) && d.s.c2s == s.c2s[5 + |digest|..]
  {
    var n := 5 + |digest|;
    hide ServerStep, Answer, Follows, StepEffects, Drop;
    NoEffects(s, ch);
    if |s.c2s| >= n {
      assert s.c2s[5..n] == given[5..];
      DropParts(s, n);
    }
    d := PassStepIs(cfg, s, user, at, ch, digest, given);
    FollowsQuietly(s, s.(server := Gone));
    if |s.c2s| >= n {
      var s1 := Drop(s, n).(accepted := given[5..] == digest || s.accepted);
      var s2 := Drop(s, n);
      var right := given[5..] == digest;
      var reply := if right then OK else "303\n";
      FollowsQuietly(s, s2.(server := Gone));
      AnswerParts(if right then s1 else s2, reply, ch,
                  if right && ch.ready then Talking(user, Command("")) else Gone, Gone);
      SameHearing(s, if right then s1 else s2, d.s, if ch.writes then reply else reply[..Least(ch.part, |reply|)]);
    }
  }

  lemma DropParts(s: Session, n: nat)
    requires n <= |s.c2s|
    ensures var t := Drop(s, n);
            t.c2s == s.c2s[n..] && t.s2c == s.s2c && t.up == s.up && t.pc == s.pc
  {
  }

  lemma PassStepIs(cfg: Config, s: Session, user: string, at: nat, ch: Chance, digest: string, given: string)
    returns (d: Served)
    requires s.server == WantPass(user) && ClosedToServer(s)
    requires digest == if user in cfg.accounts then cfg.accounts[user].digest else ""
    requires given == if |s.c2s| < 5 + |digest| then "" else s.c2s[..5 + |digest|]
    requires |s.c2s| >= 5 + |digest| ==> s.c2s[5..5 + |digest|] == given[5..]
    ensures ServerStep(cfg, s, at, ch) == Some(d) && d.entry.None?
    ensures var n := 5 + |digest|;
            d.s == if |s.c2s| < n then s.(server := Gone)
                   else if !StartsWith(given, "PASS ") then Drop(s, n).(server := Gone)
                   else if given[5..] != digest then Answer(Drop(s, n), "303\n", ch, Gone, Gone)
                   else Answer(Drop(s, n).(accepted := true), OK, ch,
                               if ch.ready then Talking(user, Command("")) else Gone, Gone)
  {
    hide Answer, Drop;
    d := ServerStep(cfg, s, at, ch).value;
  }

  // ---------------------------------------------------------------------------------------
  // Bytes that arrive while the thread runs
  // ---------------------------------------------------------------------------------------

  /** What can happen to a thread: bytes arrive, the client closes its end, or the thread takes a step. */
  datatype Tick = Arrive(bytes: string) | Close | Act(chance: Chance)

  /** A thread whose client is still there: it may have to wait, and reads what has arrived. */
  function RunTicks(cfg: Config, r: Ran, ticks: seq<Tick>): Option<Ran>
    decreases |ticks|
  {
    if ticks == [] then Some(r)
    else match ticks[0]
      case Arrive(bytes) =>
        if ClosedToServer(r.s) then None else RunTicks(cfg, r.(s := r.s.(c2s := r.s.c2s + bytes)), ticks[1..])
      case Close => RunTicks(cfg, r.(s := r.s.(pc := Closed)), ticks[1..])
      case Act(ch) =>
        (match ServerStep(cfg, r.s, |r.log|, ch)
         case None => None
         case Some(d) => RunTicks(cfg, RanOn(r, d, ch), ticks[1..]))
  }

  function Arrived(ticks: seq<Tick>): string {
    if ticks == [] then "" else (if ticks[0].Arrive? then ticks[0].bytes else "") + Arrived(ticks[1..])
  }

  function Acts(ticks: seq<Tick>): seq<Chance> {
    if ticks == [] then [] else (if ticks[0].Act? then [ticks[0].chance] else []) + Acts(ticks[1..])
  }

  /** The same session with the rest of the input there and the client gone. */
  function AllIn(s: Session, more: string): Session {
    s.(c2s := s.c2s + more, pc := Closed)
  }

  lemma LongerPrefix(s: string, more: string, room: nat)
    requires Terminated(LinePrefix(s, room)) || |LinePrefix(s, room)| == room
    ensures LinePrefix(s + more, room) == LinePrefix(s, room)
    decreases room
  {
    if room > 0 && s != "" {
      assert (s + more)[1..] == s[1..] + more;
      if s[0] != LF {
        var p := LinePrefix(s[1..], room - 1);
        assert ([s[0]] + p)[|p|] == if p == "" then s[0] else p[|p| - 1];
        LongerPrefix(s[1..], more, room - 1);
      }
    }
  }

  /** A line that can be read already is the line that will be read. */
  lemma AvailEarly(stream: string, closed: bool, e: Ending, maxlen: nat, more: string)
    requires maxlen > 0 && Avail(stream, closed, e, maxlen).Some? && (closed ==> more == "")
    ensures Avail(stream + more, true, e, maxlen) == Avail(stream, closed, e, maxlen)
    ensures !closed ==> var t := Avail(stream, closed, e, maxlen).value; t.Got? && |t.text| <= |stream|
  {
    LinePrefixIs(stream, maxlen - 1);
    if closed {
      assert stream + more == stream;
    } else {
      LongerPrefix(stream, more, maxlen - 1);
    }
    hide LinePrefix;
  }

  /** A step taken before all bytes have come is the step taken on the whole input. */
  lemma StepEarly(cfg: Config, s: Session, at: nat, ch: Chance, d: Served, more: string)
    requires ServerStep(cfg, s, at, ch) == Some(d) && (ClosedToServer(s) ==> more == "")
    ensures ServerStep(cfg, AllIn(s, more), at, ch) == Some(Served(AllIn(d.s, more), d.entry))
    ensures StepEffects(AllIn(s, more), ch) == StepEffects(s, ch)
    ensures ClosedToServer(s) ==> ClosedToServer(d.s)
  {
    hide TakesMagic, TakesUser, TakesPass, TakesLine, StepEffects, ClosedToServer, Listening;
    match s.server {
      case Talking(user, m) =>
        if Listening(m) { TalkEarly(s, user, m, at, ch, d, more); } else { DeafEarly(s, user, m, ch, more); }
      case WantMagic => NoEffects(s, ch); NoEffects(AllIn(s, more), ch); MagicEarly(cfg, s, ch, d.s, more);
      case WantUser => NoEffects(s, ch); NoEffects(AllIn(s, more), ch); UserEarly(cfg, s, ch, d.s, more);
      case WantPass(u) => NoEffects(s, ch); NoEffects(AllIn(s, more), ch); PassEarly(cfg, s, u, ch, d.s, more);
      case Gone =>
    }
  }

  lemma DeafEarly(s: Session, user: string, m: Mode, ch: Chance, more: string)
    requires s.server == Talking(user, m) && !Listening(m)
    ensures StepEffects(AllIn(s, more), ch) == StepEffects(s, ch) == []
    ensures AllIn(s, more).(server := Gone) == AllIn(s.(server := Gone), more)
    ensures ClosedToServer(s) ==> ClosedToServer(s.(server := Gone))
  {
  }

  lemma AllInParts(s: Session, more: string)
    ensures var t := AllIn(s, more);
            && t.c2s == s.c2s + more && ClosedToServer(t) && t.diskOk == s.diskOk && t.stored == s.stored
            && (more == "" ==> t.c2s == s.c2s)
            && t.(server := Gone) == AllIn(s.(server := Gone), more)
            && t.(accepted := true) == AllIn(s.(accepted := true), more)
    ensures ClosedToServer(s) ==> ClosedToServer(s.(server := Gone)) && ClosedToServer(s.(accepted := true))
  {
    assert s.c2s + "" == s.c2s;
  }

  lemma CutEarly(s: Session, n: nat, more: string)
    requires n <= |s.c2s|
    ensures (s.c2s + more)[..n] == s.c2s[..n] && n <= |AllIn(s, more).c2s|
    ensures Drop(AllIn(s, more), n) == AllIn(Drop(s, n), more)
    ensures ClosedToServer(s) ==> ClosedToServer(Drop(s, n))
  {
    assert (s.c2s + more)[n..] == s.c2s[n..] + more;
  }

  lemma AnswerEarly(u: Session, msg: string, ch: Chance, next: Thread, failed: Thread, more: string)
    ensures Answer(AllIn(u, more), msg, ch, next, failed) == AllIn(Answer(u, msg, ch, next, failed), more)
    ensures ClosedToServer(u) ==> ClosedToServer(Answer(u, msg, ch, next, failed))
  {
    if !u.up {
      ServerEarly(u, if ch.writes then next else failed, more);
    } else if ch.writes {
      RepliedEarly(u, next, u.s2c + msg, u.reply + msg, u.up, more);
    } else {
      RepliedEarly(u, failed, u.s2c + msg[..Least(ch.part, |msg|)], u.reply + msg, false, more);
    }
  }

  lemma RepliedEarly(u: Session, server: Thread, s2c: string, reply: string, up: bool, more: string)
    requires up ==> u.up
    ensures AllIn(u, more).(server := server, s2c := s2c, reply := reply, up := up)
         == AllIn(u.(server := server, s2c := s2c, reply := reply, up := up), more)
    ensures ClosedToServer(u) ==> ClosedToServer(u.(server := server, s2c := s2c, reply := reply, up := up))
  {
  }

  lemma MagicEarly(cfg: Config, s: Session, ch: Chance, t: Session, more: string)
    requires TakesMagic(cfg, s, ch) == Some(t) && (ClosedToServer(s) ==> more == "")
    ensures TakesMagic(cfg, AllIn(s, more), ch) == Some(AllIn(t, more))
    ensures ClosedToServer(s) ==> ClosedToServer(t)
  {
    hide AllIn, Answer, Drop, ClosedToServer;
    AllInParts(s, more);
    if |s.c2s| >= DIGEST {
      CutEarly(s, DIGEST, more);
      AllInParts(Drop(s, DIGEST), more);
      AnswerEarly(Drop(s, DIGEST), OK, ch, WantUser, Gone, more);
    }
  }

  lemma UserEarly(cfg: Config, s: Session, ch: Chance, t: Session, more: string)
    requires TakesUser(cfg, s, ch) == Some(t) && (ClosedToServer(s) ==> more == "")
    ensures TakesUser(cfg, AllIn(s, more), ch) == Some(AllIn(t, more))
    ensures ClosedToServer(s) ==> ClosedToServer(t)
  {
    hide AllIn, Answer, Drop, ClosedToServer, UserReply, UserOf, EnvAt;
    AllInParts(s, more);
    if |s.c2s| >= 10 {
      var user := UserOf(s.c2s[..10], "");
      var (reply, goOn) := UserReply(EnvAt(cfg, ch), user);
      CutEarly(s, 10, more);
      AllInParts(Drop(s, 10), more);
      AnswerEarly(Drop(s, 10), reply, ch, if goOn then WantPass(user) else Gone, Gone, more);
    }
  }

  lemma PassEarly(cfg: Config, s: Session, user: string, ch: Chance, t: Session, more: string)
    requires TakesPass(cfg, s, user, ch) == Some(t) && (ClosedToServer(s) ==> more == "")
    ensures TakesPass(cfg, AllIn(s, more), user, ch) == Some(AllIn(t, more))
    ensures ClosedToServer(s) ==> ClosedToServer(t)
  {
    hide AllIn, Answer, Drop, ClosedToServer;
    AllInParts(s, more);
    var n := 5 + if user in cfg.accounts then |cfg.accounts[user].digest| else 0;
    if |s.c2s| >= n {
      CutEarly(s, n, more);
      assert (s.c2s + more)[5..n] == s.c2s[5..n];
      var s1, s2 := Drop(s, n), Drop(s, n).(accepted := true);
      AllInParts(s1, more);
      AnswerEarly(s1, "303\n", ch, Gone, Gone, more);
      AnswerEarly(s2, OK, ch, if ch.ready then Talking(user, Command("")) else Gone, Gone, more);
    }
  }

  lemma TalkEarly(s: Session, user: string, m: Mode, at: nat, ch: Chance, d: Served, more: string)
    requires s.server == Talking(user, m) && Listening(m) && (ClosedToServer(s) ==> more == "")
    requires TakesLine(s, user, m, at, ch) == Some(d)
    ensures TakesLine(AllIn(s, more), user, m, at, ch) == Some(Served(AllIn(d.s, more), d.entry))
    ensures StepEffects(AllIn(s, more), ch) == StepEffects(s, ch)
    ensures ClosedToServer(s) ==> ClosedToServer(d.s)
  {
    hide OnLine, Avail, Listening, Answer, EntryOf, Heard, AllIn, ClosedToServer, ThreadOf, StepEffects;
    AllInParts(s, more);
    AvailEarly(s.c2s, ClosedToServer(s), ch.ending, MAXLINE, more);
    EffectsEarly(s, user, m, ch, more);
    var t := Avail(s.c2s, ClosedToServer(s), ch.ending, MAXLINE).value;
    if t.Got? && |t.text| <= |s.c2s| {
      var turn := OnLine(m, t.text, ch.luck);
      var diskOk := s.diskOk && ch.luck.opens && ch.luck.writes;
      var entry := EntryOf(s, user, turn.effects, diskOk);
      var stored := if entry.Some? then Some(at) else s.stored;
      var s1, next := Heard(s, m, t.text, stored, diskOk), ThreadOf(user, turn.mode);
      SameEntry(s, user, turn.effects, diskOk, more);
      HeardEarly(s, m, t.text, stored, diskOk, more);
      AnswerEarly(s1, turn.reply, ch, next, if turn.reply == OK then Gone else next, more);
      ServerEarly(s1, next, more);
    }
  }

  lemma ServerEarly(s: Session, next: Thread, more: string)
    ensures AllIn(s, more).(server := next) == AllIn(s.(server := next), more)
    ensures ClosedToServer(s) ==> ClosedToServer(s.(server := next))
  {
  }

  lemma EffectsEarly(s: Session, user: string, m: Mode, ch: Chance, more: string)
    requires s.server == Talking(user, m) && Listening(m) && (ClosedToServer(s) ==> more == "")
    requires Avail(s.c2s, ClosedToServer(s), ch.ending, MAXLINE).Some?
    ensures StepEffects(AllIn(s, more), ch) == StepEffects(s, ch)
  {
    AvailEarly(s.c2s, ClosedToServer(s), ch.ending, MAXLINE, more);
    assert s.c2s + "" == s.c2s;
    hide OnLine, Avail, Listening;
  }

  lemma SameEntry(s: Session, user: string, effects: seq<Effect>, diskOk: bool, more: string)
    ensures EntryOf(AllIn(s, more), user, effects, diskOk) == EntryOf(s, user, effects, diskOk)
  {
    hide Strtol;
  }

  lemma HeardEarly(s: Session, m: Mode, text: string, stored: Option<nat>, diskOk: bool, more: string)
    requires |text| <= |s.c2s|
    ensures Heard(AllIn(s, more), m, text, stored, diskOk) == AllIn(Heard(s, m, text, stored, diskOk), more)
    ensures ClosedToServer(s) ==> ClosedToServer(Heard(s, m, text, stored, diskOk))
  {
    assert (s.c2s + more)[|text|..] == s.c2s[|text|..] + more;
  }

  lemma ArrivesFirst(s: Session, bytes: string, more: string)
    ensures AllIn(s.(c2s := s.c2s + bytes), more) == AllIn(s, bytes + more)
    ensures AllIn(s.(pc := Closed), more) == AllIn(s, more)
  {
    assert s.c2s + bytes + more == s.c2s + (bytes + more);
  }

  /** Nothing arrives on a closed connection. */
  lemma {:induction false} NothingArrives(cfg: Config, r: Ran, ticks: seq<Tick>)
    requires ClosedToServer(r.s) && RunTicks(cfg, r, ticks).Some?
    ensures Arrived(ticks) == ""
    decreases |ticks|
  {
    hide ServerStep, StepEffects;
    if ticks != [] {
      match ticks[0] {
        case Arrive(_) =>
        case Close => NothingArrives(cfg, r.(s := r.s.(pc := Closed)), ticks[1..]);
        case Act(ch) =>
          var d := ServerStep(cfg, r.s, |r.log|, ch).value;
          StepEarly(cfg, r.s, |r.log|, ch, d, "");
          NothingArrives(cfg, RanOn(r, d, ch), ticks[1..]);
      }
    }
  }

  /** However the bytes of the client arrive among the steps of the thread, and whenever the client
      goes away, the thread does what it does when all of them are there from the start. */
  lemma {:induction false} ArrivalMakesNoDifference(cfg: Config, r: Ran, ticks: seq<Tick>)
    requires RunTicks(cfg, r, ticks).Some?
    ensures var end := RunTicks(cfg, r, ticks).value;
            RunThread(cfg, r.(s := AllIn(r.s, Arrived(ticks))), Acts(ticks)) == Some(end.(s := AllIn(end.s, "")))
    decreases |ticks|
  {
    hide ServerStep, StepEffects, AllIn, ClosedToServer;
    if ticks == [] {
      assert RunThread(cfg, r.(s := AllIn(r.s, "")), []) == Some(r.(s := AllIn(r.s, "")));
    } else {
      var more := Arrived(ticks[1..]);
      match ticks[0] {
        case Arrive(bytes) =>
          ArrivesFirst(r.s, bytes, more);
          assert Arrived(ticks) == bytes + more && Acts(ticks) == Acts(ticks[1..]);
          ArrivalMakesNoDifference(cfg, r.(s := r.s.(c2s := r.s.c2s + bytes)), ticks[1..]);
        case Close =>
          ArrivesFirst(r.s, "", more);
          assert Arrived(ticks) == more && Acts(ticks) == Acts(ticks[1..]);
          ArrivalMakesNoDifference(cfg, r.(s := r.s.(pc := Closed)), ticks[1..]);
        case Act(ch) =>
          var d := ServerStep(cfg, r.s, |r.log|, ch).value;
          if ClosedToServer(r.s) { NothingArrives(cfg, r, ticks); }
          assert Arrived(ticks) == more && Acts(ticks) == [ch] + Acts(ticks[1..]);
          StepEarly(cfg, r.s, |r.log|, ch, d, more);
          ArrivalMakesNoDifference(cfg, RanOn(r, d, ch), ticks[1..]);
          RunCons(cfg, r.(s := AllIn(r.s, more)), ch, Acts(ticks[1..]), Served(AllIn(d.s, more), d.entry));
      }
    }
  }

  lemma SameDeeds(r: Ran, end: Ran, a: string, b: string, effects: seq<Effect>, sent: string, college: int)
    requires DoesAs(r.(s := AllIn(r.s, a)), end.(s := AllIn(end.s, b)), effects, sent, college)
    ensures DoesAs(r, end, effects, sent, college)
  {
    hide AllFiled, PutsOf;
  }

  /** So the thread is the server on bytes that arrive piecemeal, too. */
  lemma ArrivingIsServer(cfg: Config, r: Ran, w: Wire, env: Env, buf: string) returns (chs: seq<Chance>)
    requires EnvFits(cfg, env) && |buf| == BUFFER && r.s.server.WantMagic?
    ensures forall ticks ::
              Acts(ticks) == chs && r.s.c2s + Arrived(ticks) == w.input && RunTicks(cfg, r, ticks).Some? ==>
              var o := Serve(w, env, buf);
              DoesAs(r, RunTicks(cfg, r, ticks).value, o.effects, Written(w, o.sent), CollegeIn(AskMagic(w, env)))
  {
    hide RunTicks, RunThread, DoesAs, Serve, AskMagic, Written, CollegeIn, Arrived, Acts;
    var whole := r.(s := r.s.(c2s := w.input, pc := Closed));
    var end;
    chs, end := ThreadIsServer(cfg, whole, w, env, buf);
    var o := Serve(w, env, buf);
    forall ticks | Acts(ticks) == chs && r.s.c2s + Arrived(ticks) == w.input && RunTicks(cfg, r, ticks).Some?
      ensures DoesAs(r, RunTicks(cfg, r, ticks).value, o.effects, Written(w, o.sent), CollegeIn(AskMagic(w, env)))
    {
      ArrivalMakesNoDifference(cfg, r, ticks);
      SameDeeds(r, RunTicks(cfg, r, ticks).value, Arrived(ticks), "", o.effects, Written(w, o.sent),
                CollegeIn(AskMagic(w, env)));
    }
  }
}
