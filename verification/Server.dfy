/** The server's side of the line protocol as pure functions of what it receives
    (server/eduserver.c, manage_client and lookup_user). Photo transfer is switched off,
    which is how the server starts. */
module Server {
  import opened Bytes
  import opened Streams
  import opened Records

  const DIGEST: nat := 20
  const MAXINFOSIZE: nat := 1024
  const NAMEMAX: nat := 19
  const OK: string := "500\n"
  const NO_IMAGES: string := "310\n"
  const DOT: string := ".\n"
  const QUIT: string := "QUIT\n"
  const FILENAME: string := "FILENAME "

  /** One password record. `startText` and `endText` are ctime() of the two times. */
  datatype Account = Account(digest: string, disabled: int, start: int, end: int, startText: string, endText: string)

  /** What one readline's worth of local file work comes to. */
  datatype Disk = Disk(opens: bool, writes: bool)

  /** Everything manage_client takes from outside the connection. `early` and `late` are its two
      readings of the clock; `user` and `name` are what its variables hold before being set. */
  datatype Env = Env(magic: string, accounts: map<string, Account>, early: int, late: int,
                     ready: bool, disk: nat -> Disk, user: string, name: string)

  /** A connection: bytes still to arrive, how they end, and what writing will do. */
  datatype Wire = Wire(input: string, ending: Ending, out: seq<WriteEvent>, sent: string)

  function Say(w: Wire, msg: string): (Wire, bool) {
    var d := Deliver(w.out, msg);
    (w.(out := d.events, sent := w.sent + d.sent), d.ok)
  }

  // ---------------------------------------------------------------------------------------
  // Handshake
  // ---------------------------------------------------------------------------------------

  /** The ten bytes after the magic name a user: the first word after "USER ". When there is no
      word, sscanf stores nothing and the variable keeps what it held. */
  function UserOf(field: string, unset: string): string
    requires |field| >= 5
  {
    var word := Word(SkipSpace(CStr(field[5..])));
    if word == "" then unset else word
  }

  lemma {:induction false} LeadSkipped(lead: string, t: string)
    requires (forall i :: 0 <= i < |lead| ==> lead[i] == ' ') && (t == "" || !IsSpace(t[0]))
    ensures SkipSpace(CStr(lead + t)) == CStr(t)
    decreases |lead|
  {
    if lead == "" {
      assert lead + t == t;
    } else {
      assert (lead + t)[1..] == lead[1..] + t;
      LeadSkipped(lead[1..], t);
      assert CStr(lead + t)[1..] == CStr(lead[1..] + t);
    }
  }

  lemma {:induction false} WordOfCStr(word: string, tail: string)
    requires (forall i :: 0 <= i < |word| ==> word[i] != NUL && !IsSpace(word[i]))
    requires tail == "" || tail[0] == NUL || IsSpace(tail[0])
    ensures Word(CStr(word + tail)) == word
    decreases |word|
  {
    if word == "" {
      assert word + tail == tail;
    } else {
      assert (word + tail)[1..] == word[1..] + tail;
      WordOfCStr(word[1..], tail);
      assert CStr(word + tail) == [word[0]] + CStr(word[1..] + tail);
      assert CStr(word + tail)[1..] == CStr(word[1..] + tail);
    }
  }

  /** The user of a USER request is the word behind it, up to a blank, a newline or the end. */
  lemma UserIsRead(lead: string, user: string, tail: string, unset: string)
    requires forall i :: 0 <= i < |lead| ==> lead[i] == ' '
    requires user != "" && forall i :: 0 <= i < |user| ==> user[i] != NUL && !IsSpace(user[i])
    requires tail == "" || tail[0] == NUL || IsSpace(tail[0])
    ensures UserOf("USER " + lead + user + tail, unset) == user
  {
    var field := "USER " + lead + user + tail;
    assert field[5..] == lead + (user + tail);
    hide CStr, SkipSpace, Word;
    LeadSkipped(lead, user + tail);
    WordOfCStr(user, tail);
  }

  /** The reply to USER and whether the session goes on. */
  function UserReply(env: Env, user: string): (string, bool) {
    if user == "" || user !in env.accounts then ("301\n", false)
    else
      var a := env.accounts[user];
      if a.disabled == 1 then ("302\n", false)
      else if a.start > env.early then ("304 " + a.startText, false)
      else if a.end < env.late then ("305 " + a.endText, false)
      else ("500 " + (if a.startText == "" then "" else a.startText[..|a.startText| - 1]) + " - " + a.endText, true)
  }

  lemma ReplyNumber(a: char, b: char, c: char, rest: string)
    requires IsDigit(a) && IsDigit(b) && IsDigit(c) && rest != "" && !IsDigit(rest[0])
    ensures Strtol(CStr([a, b, c] + rest)) == 100 * DigitValue(a) + 10 * DigitValue(b) + DigitValue(c)
  {
    var ds := [a, b, c];
    CStrCons(c, rest);
    CStrCons(b, [c] + rest);
    CStrCons(a, [b] + ([c] + rest));
    assert ds + rest == [a] + ([b] + ([c] + rest));
    assert CStr(rest) != "" ==> CStr(rest)[0] == rest[0];
    hide CStr, Strtol, DecimalValue;
    assert [a] + ([b] + ([c] + CStr(rest))) == ds + CStr(rest);
    StrtolOfDigits(ds, CStr(rest));
    ThreeDigits(a, b, c);
  }

  /** The five beginnings a reply can have. */
  lemma ReplyNumbers(text: string)
    ensures Strtol(CStr("301\n")) == 301 && Strtol(CStr("302\n")) == 302
    ensures Strtol(CStr("304 " + text)) == 304 && Strtol(CStr("305 " + text)) == 305
    ensures Strtol(CStr("500 " + text)) == 500
  {
    ReplyNumber('3', '0', '1', "\n");
    ReplyNumber('3', '0', '2', "\n");
    ReplyNumber('3', '0', '4', " " + text);
    ReplyNumber('3', '0', '5', " " + text);
    ReplyNumber('5', '0', '0', " " + text);
    hide Strtol, CStr;
    assert "301\n" == ['3', '0', '1'] + "\n" && "302\n" == ['3', '0', '2'] + "\n";
    assert "304 " + text == ['3', '0', '4'] + (" " + text);
    assert "305 " + text == ['3', '0', '5'] + (" " + text);
    assert "500 " + text == ['5', '0', '0'] + (" " + text);
  }

  /** What the number of the reply to USER says: 301 an unknown user, 302 a disabled one, 304 one who is
      too early, 305 one who is too late - with the time that matters after the number - and 500 one
      who may go on. */
  lemma UserReplySays(env: Env, user: string)
    ensures var (reply, goOn) := UserReply(env, user);
            var number := Strtol(CStr(reply));
            var known := user != "" && user in env.accounts;
            && (number == 301 <==> !known)
            && (number == 302 <==> known && env.accounts[user].disabled == 1)
            && (number == 304 <==> known && env.accounts[user].disabled != 1 && env.early < env.accounts[user].start)
            && (number == 305 <==> known && env.accounts[user].disabled != 1 && env.early >= env.accounts[user].start
                                   && env.accounts[user].end < env.late)
            && (number == 500 <==> Admissible(env, user)) && (goOn <==> number == 500)
            && (number == 304 ==> reply == "304 " + env.accounts[user].startText)
            && (number == 305 ==> reply == "305 " + env.accounts[user].endText)
            && (number == 500 && env.accounts[user].startText != "" ==>
                  var start := env.accounts[user].startText;
                  reply == "500 " + start[..|start| - 1] + " - " + env.accounts[user].endText)
  {
    hide Strtol, CStr;
    ReplyNumbers("");
    if user in env.accounts {
      var a := env.accounts[user];
      var times := (if a.startText == "" then "" else a.startText[..|a.startText| - 1]) + " - " + a.endText;
      ReplyNumbers(a.startText);
      ReplyNumbers(a.endText);
      ReplyNumbers(times);
      assert UserReply(env, user).1 ==> UserReply(env, user).0 == "500 " + times;
    }
  }

  /** A user the server lets in: known, enabled, inside the time window. */
  predicate Admissible(env: Env, user: string) {
    && user != "" && user in env.accounts
    && env.accounts[user].disabled != 1
    && env.accounts[user].start <= env.early && env.late <= env.accounts[user].end
  }

  datatype Shaken = Rejected(sent: string) | Accepted(user: string, wire: Wire)

  function AskMagic(w: Wire, env: Env): Shaken
    requires |env.magic| == DIGEST
  {
    if |w.input| < DIGEST || w.input[..DIGEST] != env.magic then Rejected(w.sent)
    else
      var (w', ok) := Say(w.(input := w.input[DIGEST..]), OK);
      if !ok then Rejected(w'.sent) else AskUser(w', env)
  }

  function AskUser(w: Wire, env: Env): Shaken {
    if |w.input| < 10 || !StartsWith(w.input[..10], "USER ") then Rejected(w.sent)
    else
      var user := UserOf(w.input[..10], env.user);
      var (reply, goOn) := UserReply(env, user);
      var (w', ok) := Say(w.(input := w.input[10..]), reply);
      if !goOn || !ok then Rejected(w'.sent) else AskPass(w', env, user)
  }

  function AskPass(w: Wire, env: Env, user: string): Shaken
  {
    var digest := if user in env.accounts then env.accounts[user].digest else "";
    var n := 5 + |digest|;
    if |w.input| < n || !StartsWith(w.input[..n], "PASS ") then Rejected(w.sent)
    else if w.input[5..n] != digest then Rejected(Say(w.(input := w.input[n..]), "303\n").0.sent)
    else
      var (w', ok) := Say(w.(input := w.input[n..]), OK);
      if !ok || !env.ready then Rejected(w'.sent) else Accepted(user, w')
  }

  /** The bytes a client must send before any line of its is looked at. */
  ghost predicate Credentials(sentIn: string, env: Env, user: string) {
    exists field: string ::
      && |field| == 10 && StartsWith(field, "USER ") && UserOf(field, env.user) == user
      && Admissible(env, user)
      && sentIn == env.magic + field + "PASS " + env.accounts[user].digest
  }

  /** The gate: a session is accepted exactly when what it received so far is the magic, an
      admissible user and that user's digest, and the three replies went out; and the line
      protocol starts at the very next byte, newline bytes in the digest included. */
  lemma Gate(w: Wire, env: Env, user: string, rest: string)
    requires |env.magic| == DIGEST
    ensures (exists w' :: AskMagic(w, env) == Accepted(user, w') && w'.input == rest) <==>
            && env.ready
            && (exists creds :: Credentials(creds, env, user) && w.input == creds + rest)
            && RepliesGoOut(w.out, [OK, UserReply(env, user).0, OK])
  {
    if exists w' :: AskMagic(w, env) == Accepted(user, w') && w'.input == rest {
      GateNeeds(w, env);
    }
    if exists creds :: Credentials(creds, env, user) && w.input == creds + rest {
      var creds :| Credentials(creds, env, user) && w.input == creds + rest;
      GateOpens(w, env, user, creds, rest);
    }
  }

  predicate RepliesGoOut(out: seq<WriteEvent>, replies: seq<string>)
    decreases |replies|
  {
    replies == [] ||
    (var d := Deliver(out, replies[0]); d.ok && RepliesGoOut(d.events, replies[1..]))
  }

  lemma ThreeReplies(out: seq<WriteEvent>, a: string, b: string, c: string)
    ensures RepliesGoOut(out, [a, b, c]) <==>
            var d1 := Deliver(out, a);
            var d2 := Deliver(d1.events, b);
            d1.ok && d2.ok && Deliver(d2.events, c).ok
  {
    hide Deliver;
    var d1 := Deliver(out, a);
    var d2 := Deliver(d1.events, b);
    assert [a, b, c][1..] == [b, c] && [b, c][1..] == [c] && [c][1..] == [];
    assert RepliesGoOut(d2.events, [c]) <==> Deliver(d2.events, c).ok;
    assert RepliesGoOut(d1.events, [b, c]) <==> d2.ok && RepliesGoOut(d2.events, [c]);
  }

  lemma GateNeeds(w: Wire, env: Env)
    requires |env.magic| == DIGEST && AskMagic(w, env).Accepted?
    ensures var s := AskMagic(w, env);
            && env.ready
            && (exists creds :: Credentials(creds, env, s.user) && w.input == creds + s.wire.input)
            && RepliesGoOut(w.out, [OK, UserReply(env, s.user).0, OK])
  {
    hide Deliver, UserOf;
    var s := AskMagic(w, env);
    var afterMagic := w.input[DIGEST..];
    var field := afterMagic[..10];
    var afterUser := afterMagic[10..];
    var digest := env.accounts[s.user].digest;
    var creds := env.magic + field + "PASS " + digest;
    assert afterUser == "PASS " + digest + afterUser[5 + |digest|..];
    assert w.input == creds + s.wire.input;
    assert Credentials(creds, env, s.user);
    ThreeReplies(w.out, OK, UserReply(env, s.user).0, OK);
  }

  lemma GateOpens(w: Wire, env: Env, user: string, creds: string, rest: string)
    requires |env.magic| == DIGEST
    requires Credentials(creds, env, user) && w.input == creds + rest
    ensures RepliesGoOut(w.out, [OK, UserReply(env, user).0, OK]) && env.ready ==>
              exists w' :: AskMagic(w, env) == Accepted(user, w') && w'.input == rest
  {
    hide Deliver, UserOf;
    var digest := env.accounts[user].digest;
    var field: string :|
      && |field| == 10 && StartsWith(field, "USER ") && UserOf(field, env.user) == user
      && creds == env.magic + field + "PASS " + digest;
    assert w.input[..DIGEST] == env.magic;
    var afterMagic := w.input[DIGEST..];
    assert afterMagic == field + ("PASS " + digest + rest);
    assert afterMagic[..10] == field;
    var afterUser := afterMagic[10..];
    assert afterUser == "PASS " + digest + rest;
    assert afterUser[..5 + |digest|] == "PASS " + digest;
    assert afterUser[5..5 + |digest|] == digest;
    assert afterUser[5 + |digest|..] == rest;
    ThreeReplies(w.out, OK, UserReply(env, user).0, OK);
  }

  // ---------------------------------------------------------------------------------------
  // One line
  // ---------------------------------------------------------------------------------------

  /** Where the line loop stands. `name` is the variable tmpname, which survives between files.
      `Undefined` is entered where the source writes outside its name buffers or its record buffer. */
  datatype Mode =
    | Command(name: string)
    | Body(name: string, text: string, record: string)
    | Stopped
    | Undefined

  /** What reaches the two stores. */
  datatype Effect =
    | Created(name: string)                                             // text file opened empty
    | Left(name: string, text: string)                                  // text file given up with this text
    | Put(name: string, text: string, key: string, record: string)      // text file closed, record put

  datatype Turn = Turn(mode: Mode, reply: string, effects: seq<Effect>)

  /** Local circumstances of one line: the byte behind the terminator in the line buffer, and
      whether fopen and fputs work. */
  datatype Luck = Luck(stray: char, opens: bool, writes: bool)

  function KeyOf(name: string): string
    requires |name| >= 4
  {
    name[..|name| - 4]
  }

  /** The bytes copied into the record for one line. A piece without a newline was returned as
      one longer than it is, so the byte after its terminator is copied too. */
  function Chunk(line: string, stray: char): string {
    line + [NUL] + (if Terminated(line) then "" else [stray])
  }

  function OnCommand(prev: string, line: string, luck: Luck): Turn {
    var c := CStr(line);
    if StartsWith(c, QUIT) || Returned(Got(line)) < 9 then Turn(Stopped, "", [])
    else if StartsWith(c, "BINARY ") then Turn(Command(prev), NO_IMAGES, [])
    else if !StartsWith(c, FILENAME) then Turn(Stopped, "", [])
    else
      var given := Until(c[9..], "\r\n");
      var name := if given == "" then prev else given;
      if !(4 <= |name| <= NAMEMAX) then Turn(Undefined, "", [])
      else if !luck.opens then Turn(Stopped, "", [])
      else Turn(Body(name, "", ""), "", [Created(name)])
  }

  function OnBody(name: string, text: string, record: string, line: string, luck: Luck): Turn
    requires |name| >= 4
  {
    var c := CStr(line);
    if StartsWith(c, DOT) then Turn(Command(name), OK, [Put(name, text, KeyOf(name), record)])
    else if StartsWith(c, QUIT) then Turn(Stopped, "", [Left(name, text)])
    else if !luck.writes then Turn(Command(name), "", [Left(name, text)])
    else if |record| >= MAXINFOSIZE then Turn(Command(name), "", [Left(name, text + c)])
    else if |record| + |Chunk(line, luck.stray)| > MAXINFOSIZE then Turn(Undefined, "", [])
    else Turn(Body(name, text + c, record + Chunk(line, luck.stray)), "", [])
  }

  predicate Listening(m: Mode) {
    m.Command? || (m.Body? && |m.name| >= 4)
  }

  function OnLine(m: Mode, line: string, luck: Luck): (t: Turn)
    requires Listening(m)
  {
    match m
    case Command(prev) => OnCommand(prev, line, luck)
    case Body(name, text, record) => OnBody(name, text, record, line, luck)
  }

  /** The input ended, or a read failed. */
  function OnEnd(m: Mode): seq<Effect> {
    if m.Body? then [Left(m.name, m.text)] else []
  }

  // ---------------------------------------------------------------------------------------
  // The line loop over a whole input
  // ---------------------------------------------------------------------------------------

  datatype Outcome = Outcome(sent: string, effects: seq<Effect>, mode: Mode)

  function Prefixed(es: seq<Effect>, o: Outcome): Outcome {
    o.(effects := es + o.effects)
  }

  /** One cell more than the line buffer: the byte behind it, which a full piece reaches. */
  const BUFFER: nat := MAXLINE + 1

  /** The line buffer after a line was stored in it. */
  function StoreLine(buf: string, line: string): (r: string)
    requires |buf| == BUFFER && |line| < MAXLINE
    ensures |r| == BUFFER && Stored(r, buf, line)
  {
    line + [NUL] + buf[|line| + 1..]
  }

  function LuckAt(env: Env, k: nat, buf: string, line: string): Luck
    requires |buf| == BUFFER && |line| < MAXLINE
  {
    Luck(buf[|line| + 1], env.disk(k).opens, env.disk(k).writes)
  }

  /** The loop goes on unless an acknowledgement could not be written. */
  function AfterReply(t: Turn, sent: bool): Mode {
    if t.reply == OK && !sent then Stopped else t.mode
  }

  lemma TakenShort(s: string, e: Ending)
    ensures var t := TakeLine(s, e, MAXLINE); t.Got? ==> 0 < |t.text| < MAXLINE && t.text <= s
  {
    LinePrefixIs(s, MAXLINE - 1);
  }

  function LineLoop(w: Wire, m: Mode, env: Env, buf: string, k: nat): Outcome
    requires |buf| == BUFFER
    decreases |w.input|
  {
    if !Listening(m) then Outcome(w.sent, [], m)
    else
      var t := TakeLine(w.input, w.ending, MAXLINE);
      if !t.Got? then Outcome(w.sent, OnEnd(m), Stopped)
      else
        TakenShort(w.input, w.ending);
        var turn := OnLine(m, t.text, LuckAt(env, k, buf, t.text));
        var (w', ok) := Say(w.(input := w.input[|t.text|..]), turn.reply);
        Prefixed(turn.effects,
                 LineLoop(w', AfterReply(turn, ok), env, StoreLine(buf, t.text), k + 1))
  }

  /** The college whose database a session opens, and all its puts go to: the number the user's name
      begins with. */
  function DatabaseOf(s: Shaken): Option<int> {
    match s
    case Rejected(_) => None
    case Accepted(user, _) => Some(Strtol(user))
  }

  /** The whole of manage_client; `buf` is the line buffer as the handshake leaves it. */
  function Serve(w: Wire, env: Env, buf: string): Outcome
    requires |env.magic| == DIGEST && |buf| == BUFFER
  {
    match AskMagic(w, env)
    case Rejected(sent) => Outcome(sent, [], Stopped)
    case Accepted(user, w') => LineLoop(w', Command(env.name), env, buf, 0)
  }
}
