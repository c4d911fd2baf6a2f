/** manage_client as the server runs it: over a socket whose reads and writes may be chunked,
    interrupted or cut off in any way. It does what Server.Serve says of the whole input. */
module ManageClient {
  import opened Bytes
  import opened Streams
  import opened Records
  import opened Server

  /** The connection as the pure functions see it. */
  ghost function WireOf(fd: Socket, rl: Rline): Wire
    requires rl.Valid()
    reads fd, rl, rl.buf
  {
    Wire(rl.Ahead(fd), EndOf(fd.incoming), fd.outgoing, fd.written)
  }

  ghost function FreshWire(fd: Socket): Wire
    reads fd
  {
    Wire(Content(fd.incoming), EndOf(fd.incoming), fd.outgoing, fd.written)
  }

  /** The handshake: three fixed-size reads, each answered before the next. */
  method Handshake(fd: Socket, buffer: array<char>, env: Env) returns (user: Option<string>)
    requires fd.Valid() && buffer.Length == BUFFER && |env.magic| == DIGEST
    requires forall u :: u in env.accounts ==> |env.accounts[u].digest| <= DIGEST
    modifies fd, buffer
    ensures fd.Valid()
    ensures user.None? ==> old(AskMagic(FreshWire(fd), env)) == Rejected(fd.written)
    ensures user.Some? ==> old(AskMagic(FreshWire(fd), env)) == Accepted(user.value, FreshWire(fd))
  {
    hide Deliver, Content, EndOf, UserOf, UserReply, Socket.Valid;
    ghost var w0 := FreshWire(fd);
    var ret := fd.Readn(buffer, DIGEST);
    if ret < DIGEST { return None; }
    ReadPrefix(buffer[..DIGEST], Content(fd.incoming), w0.input);
    if buffer[..DIGEST] != env.magic { return None; }
    ret := fd.Writen(OK);
    if ret != |OK| { return None; }

    ghost var w1 := FreshWire(fd);
    assert AskMagic(w0, env) == AskUser(w1, env);
    ret := fd.Readn(buffer, 10);
    if ret < 10 { return None; }
    ReadPrefix(buffer[..10], Content(fd.incoming), w1.input);
    var field := buffer[..10];
    if !StartsWith(field, "USER ") { return None; }
    var name := UserOf(field, env.user);
    var (reply, goOn) := UserReply(env, name);
    ret := fd.Writen(reply);
    if !goOn || ret != |reply| { return None; }

    ghost var w2 := FreshWire(fd);
    assert AskUser(w1, env) == AskPass(w2, env, name);
    var digest := if name in env.accounts then env.accounts[name].digest else "";
    ret := fd.Readn(buffer, 5 + |digest|);
    if ret < 5 + |digest| { return None; }
    var given := buffer[..5 + |digest|];
    ReadPrefix(given, Content(fd.incoming), w2.input);
    if !StartsWith(given, "PASS ") { return None; }
    if given[5..] != digest {
      assert w2.input[5..5 + |digest|] == given[5..];
      ret := fd.Writen("303\n");
      return None;
    }
    assert w2.input[5..5 + |digest|] == given[5..];
    ret := fd.Writen(OK);
    if ret != |OK| || !env.ready { return None; }
    return Some(name);
  }

  lemma ReadPrefix(got: string, rest: string, s: string)
    requires got + rest == s
    ensures |got| <= |s| && s[..|got|] == got && s[|got|..] == rest
  {
  }

  // ---------------------------------------------------------------------------------------
  // One line
  // ---------------------------------------------------------------------------------------

  lemma PrefixedTwice(a: seq<Effect>, b: seq<Effect>, o: Outcome)
    ensures Prefixed(a, Prefixed(b, o)) == Prefixed(a + b, o)
  {
    assert a + (b + o.effects) == (a + b) + o.effects;
  }

  /** The stored line seen as a C string, as memory, and as its return value. */
  lemma StoredLine(env: Env, k: nat, buf: string, after: string, line: string)
    requires |buf| == BUFFER && |line| < MAXLINE && Stored(after, buf, line)
    ensures after == StoreLine(buf, line)
    ensures CStr(after) == CStr(line)
    ensures var luck := LuckAt(env, k, buf, line);
            && after[..Returned(Got(line)) + 1] == Chunk(line, luck.stray)
            && luck == Luck(after[|line| + 1], env.disk(k).opens, env.disk(k).writes)
  {
    hide CStr;
    var rest := buf[|line| + 1..];
    assert after == line + [NUL] + rest;
    assert after == line + ([NUL] + rest);
    CStrStops(line, [NUL] + rest);
    assert after[..|line| + 1] == line + [NUL];
    assert after[..|line| + 2] == line + [NUL] + [after[|line| + 1]];
    assert after[|line| + 1] == buf[|line| + 1];
  }

  lemma {:induction false} CStrStops(p: string, s: string)
    requires s != "" && s[0] == NUL
    ensures CStr(p + s) == CStr(p)
  {
    if p == "" {
      assert p + s == s;
    } else {
      assert (p + s)[1..] == p[1..] + s;
      CStrStops(p[1..], s);
    }
  }

  /** One turn of either loop, with what follows it. */
  lemma LoopStep(effects: seq<Effect>, w: Wire, rest: string, m: Mode, env: Env, buf: string, k: nat, t: Taken)
    requires |buf| == BUFFER && Listening(m) && t == TakeLine(w.input, w.ending, MAXLINE)
    requires t.Got? && w.input == t.text + rest
    ensures 0 < |t.text| < MAXLINE
    ensures var turn := OnLine(m, t.text, LuckAt(env, k, buf, t.text));
            var (w', ok) := Say(w.(input := rest), turn.reply);
            Prefixed(effects, LineLoop(w, m, env, buf, k))
            == Prefixed(effects + turn.effects,
                        LineLoop(w', AfterReply(turn, ok), env, StoreLine(buf, t.text), k + 1))
  {
    TakenShort(w.input, w.ending);
    assert w.input[|t.text|..] == rest;
    var turn := OnLine(m, t.text, LuckAt(env, k, buf, t.text));
    var (w', ok) := Say(w.(input := rest), turn.reply);
    hide OnLine, LuckAt, StoreLine, AfterReply, Say;
    PrefixedTwice(effects, turn.effects, LineLoop(w', AfterReply(turn, ok), env, StoreLine(buf, t.text), k + 1));
  }

  lemma LoopEnd(effects: seq<Effect>, w: Wire, m: Mode, env: Env, buf: string, k: nat)
    requires |buf| == BUFFER && Listening(m) && !TakeLine(w.input, w.ending, MAXLINE).Got?
    ensures Prefixed(effects, LineLoop(w, m, env, buf, k)) == Outcome(w.sent, effects + OnEnd(m), Stopped)
  {
  }

  lemma LoopOver(effects: seq<Effect>, w: Wire, m: Mode, env: Env, buf: string, k: nat)
    requires |buf| == BUFFER && !Listening(m)
    ensures Prefixed(effects, LineLoop(w, m, env, buf, k)) == Outcome(w.sent, effects, m)
  {
    assert effects + [] == effects;
  }

  lemma SayNothing(w: Wire)
    ensures Say(w, "") == (w, true)
  {
    assert w.sent + "" == w.sent;
  }

  /** A turn that draws no reply. */
  lemma QuietStep(effects: seq<Effect>, w: Wire, rest: string, m: Mode, env: Env, buf: string, k: nat, t: Taken)
    requires |buf| == BUFFER && Listening(m) && t == TakeLine(w.input, w.ending, MAXLINE)
    requires t.Got? && w.input == t.text + rest
    ensures 0 < |t.text| < MAXLINE
    ensures var turn := OnLine(m, t.text, LuckAt(env, k, buf, t.text));
            turn.reply == "" ==>
              Prefixed(effects, LineLoop(w, m, env, buf, k))
              == Prefixed(effects + turn.effects,
                          LineLoop(w.(input := rest), turn.mode, env, StoreLine(buf, t.text), k + 1))
  {
    LoopStep(effects, w, rest, m, env, buf, k, t);
    SayNothing(w.(input := rest));
    hide OnLine, LuckAt, StoreLine, Say, Listening;
  }

  /** A turn that draws no reply and ends the session. */
  lemma LastStep(effects: seq<Effect>, w: Wire, rest: string, m: Mode, env: Env, buf: string, k: nat, t: Taken)
    requires |buf| == BUFFER && Listening(m) && t == TakeLine(w.input, w.ending, MAXLINE)
    requires t.Got? && w.input == t.text + rest
    ensures 0 < |t.text| < MAXLINE
    ensures var turn := OnLine(m, t.text, LuckAt(env, k, buf, t.text));
            turn.reply == "" && !Listening(turn.mode) ==>
              Prefixed(effects, LineLoop(w, m, env, buf, k)) == Outcome(w.sent, effects + turn.effects, turn.mode)
  {
    QuietStep(effects, w, rest, m, env, buf, k, t);
    var turn := OnLine(m, t.text, LuckAt(env, k, buf, t.text));
    hide OnLine, LuckAt, StoreLine;
    if turn.reply == "" && !Listening(turn.mode) {
      LoopOver(effects + turn.effects, w.(input := rest), turn.mode, env, StoreLine(buf, t.text), k + 1);
    }
  }

  // ---------------------------------------------------------------------------------------
  // The two loops
  // ---------------------------------------------------------------------------------------

  /** The body loop: lines go to the text file and into `regbuf` until the dot. `goOn` tells a
      return to the command loop from the end of the session. A line that does not fit into `regbuf`
      is where the source writes past it; `mode` is then Undefined. */
  method BodyLines(fd: Socket, rl: Rline, buffer: array<char>, regbuf: array<char>, env: Env, tmpname: string, k0: nat)
    returns (effects: seq<Effect>, k: nat, goOn: bool, ghost mode: Mode)
    requires fd.Valid() && rl.Valid() && buffer.Length == BUFFER && buffer != rl.buf && |tmpname| >= 4
    requires regbuf.Length == MAXINFOSIZE && regbuf != buffer && regbuf != rl.buf
    modifies fd, rl, rl.buf, buffer, regbuf
    ensures fd.Valid() && rl.Valid()
    ensures goOn ==> |rl.Ahead(fd)| < |old(rl.Ahead(fd))|
    ensures old(LineLoop(WireOf(fd, rl), Body(tmpname, "", ""), env, buffer[..], k0))
         == if goOn then Prefixed(effects, LineLoop(WireOf(fd, rl), Command(tmpname), env, buffer[..], k))
            else Outcome(fd.written, effects, mode)
  {
    hide LineLoop, Content, EndOf, Socket.Valid, Rline.Valid, Rline.Ahead, CStr, Until, Deliver, TakeLine,
      Streams.Stored, StoreLine, LuckAt, Chunk, Prefixed;
    effects, k, mode := [], k0, Stopped;
    var text := "";
    var regbufsize := 0;
    NothingStored(regbuf);
    ghost var total := LineLoop(WireOf(fd, rl), Body(tmpname, "", ""), env, buffer[..], k0);
    PrefixedNothing(total);
    while true
      invariant fd.Valid() && rl.Valid() && |rl.Ahead(fd)| <= |old(rl.Ahead(fd))| && regbufsize <= regbuf.Length
      invariant total == Prefixed(effects, LineLoop(WireOf(fd, rl), Body(tmpname, text, regbuf[..regbufsize]),
                                                    env, buffer[..], k))
      decreases |rl.Ahead(fd)|
    {
      ghost var w, buf, record := WireOf(fd, rl), buffer[..], regbuf[..regbufsize];
      ghost var m := Body(tmpname, text, record);
      var ret, t := rl.Readline(fd, buffer, MAXLINE);
      ghost var rest := rl.Ahead(fd);
      if ret <= 0 {
        LoopEnd(effects, w, m, env, buf, k);
        return effects + [Left(tmpname, text)], k, false, Stopped;
      }
      LoopStep(effects, w, rest, m, env, buf, k, t);
      StoredLine(env, k, buf, buffer[..], t.text);
      var c := CStr(buffer[..]);
      if StartsWith(c, DOT) {
        effects := effects + [Put(tmpname, text, KeyOf(tmpname), regbuf[..regbufsize])];
        ret := fd.Writen(OK);
        k := k + 1;
        if ret != |OK| {
          LoopOver(effects, WireOf(fd, rl), Stopped, env, buffer[..], k);
          return effects, k, false, Stopped;
        }
        return effects, k, true, Stopped;
      } else if StartsWith(c, QUIT) {
        LastStep(effects, w, rest, m, env, buf, k, t);
        return effects + [Left(tmpname, text)], k, false, Stopped;
      }
      QuietStep(effects, w, rest, m, env, buf, k, t);
      if !env.disk(k).writes {
        return effects + [Left(tmpname, text)], k + 1, true, Stopped;
      }
      text := text + c;
      if regbufsize >= MAXINFOSIZE {
        return effects + [Left(tmpname, text)], k + 1, true, Stopped;
      }
      if regbufsize + ret + 1 > regbuf.Length {
        LastStep(effects, w, rest, m, env, buf, k, t);
        return effects + [], k + 1, false, Undefined;
      }
      Copy(regbuf, regbufsize, buffer, ret + 1);
      regbufsize := regbufsize + ret + 1;
      k := k + 1;
      effects := effects + [];
    }
  }

  /** memcpy of `n` bytes to `dst + at`. */
  method Copy(dst: array<char>, at: nat, src: array<char>, n: nat)
    requires at + n <= dst.Length && n <= src.Length && dst != src
    modifies dst
    ensures dst[..at + n] == old(dst[..at]) + src[..n]
  {
    forall i | 0 <= i < n { dst[at + i] := src[i]; }
    assert forall i :: 0 <= i < at ==> dst[i] == old(dst[i]);
    assert forall i :: at <= i < at + n ==> dst[i] == src[i - at];
  }

  lemma NothingStored(a: array<char>)
    ensures a[..0] == ""
  {
  }

  lemma PrefixedNothing(o: Outcome)
    ensures Prefixed([], o) == o
  {
    assert [] + o.effects == o.effects;
  }

  /** The command loop. `effects` is what the two stores saw. */
  method Lines(fd: Socket, rl: Rline, buffer: array<char>, regbuf: array<char>, env: Env)
    returns (effects: seq<Effect>, ghost mode: Mode)
    requires fd.Valid() && rl.Valid() && buffer.Length == BUFFER && buffer != rl.buf
    requires regbuf.Length == MAXINFOSIZE && regbuf != buffer && regbuf != rl.buf
    modifies fd, rl, rl.buf, buffer, regbuf
    ensures old(LineLoop(WireOf(fd, rl), Command(env.name), env, buffer[..], 0))
         == Outcome(fd.written, effects, mode)
  {
    hide LineLoop, Content, EndOf, Socket.Valid, Rline.Valid, Rline.Ahead, CStr, Until, Deliver, TakeLine,
      Streams.Stored, StoreLine, LuckAt, Chunk, Prefixed;
    effects := [];
    var tmpname := env.name;
    var k := 0;
    ghost var total := LineLoop(WireOf(fd, rl), Command(env.name), env, buffer[..], 0);
    PrefixedNothing(total);
    while true
      invariant fd.Valid() && rl.Valid()
      invariant total == Prefixed(effects, LineLoop(WireOf(fd, rl), Command(tmpname), env, buffer[..], k))
      decreases |rl.Ahead(fd)|
    {
      ghost var w, buf, m := WireOf(fd, rl), buffer[..], Command(tmpname);
      var ret, t := rl.Readline(fd, buffer, MAXLINE);
      ghost var rest := rl.Ahead(fd);
      mode := Stopped;
      if ret <= 0 {
        LoopEnd(effects, w, m, env, buf, k);
        assert effects + [] == effects;
        return;
      }
      LoopStep(effects, w, rest, m, env, buf, k, t);
      LastStep(effects, w, rest, m, env, buf, k, t);
      assert effects + [] == effects;
      StoredLine(env, k, buf, buffer[..], t.text);
      var c := CStr(buffer[..]);
      if StartsWith(c, QUIT) || ret < 9 { return; }
      if StartsWith(c, "BINARY ") {
        ret := fd.Writen(NO_IMAGES);
        k := k + 1;
        continue;
      }
      if !StartsWith(c, FILENAME) { return; }
      var given := Until(c[9..], "\r\n");
      if given != "" { tmpname := given; }
      if !(4 <= |tmpname| <= NAMEMAX) {
        mode := Undefined;
        return;
      }
      if !env.disk(k).opens { return; }
      QuietStep(effects, w, rest, m, env, buf, k, t);
      effects := effects + [Created(tmpname)];
      var more, k', goOn, ended := BodyLines(fd, rl, buffer, regbuf, env, tmpname, k + 1);
      if goOn { PrefixedTwice(effects, more, LineLoop(WireOf(fd, rl), Command(tmpname), env, buffer[..], k')); }
      else { PrefixedOutcome(effects, fd.written, more, ended); }
      effects, k := effects + more, k';
      if !goOn { return effects, ended; }
    }
  }

  lemma PrefixedOutcome(a: seq<Effect>, sent: string, b: seq<Effect>, m: Mode)
    ensures Prefixed(a, Outcome(sent, b, m)) == Outcome(sent, a + b, m)
  {
  }

  /** manage_client: for every chunking, interruption and ending of the input and every way the
      output may be cut short, the replies and the effects are those of Serve. `college` is the database
      they go to, `atLoop` the line buffer as the handshake left it. */
  method Manage(fd: Socket, env: Env)
    returns (effects: seq<Effect>, college: Option<int>, ghost mode: Mode, ghost atLoop: string)
    requires fd.Valid() && |env.magic| == DIGEST
    requires forall u :: u in env.accounts ==> |env.accounts[u].digest| <= DIGEST
    modifies fd
    ensures |atLoop| == BUFFER
    ensures old(Serve(FreshWire(fd), env, atLoop)) == Outcome(fd.written, effects, mode)
    ensures college == old(DatabaseOf(AskMagic(FreshWire(fd), env)))
  {
    hide LineLoop, AskMagic, Content, EndOf, Socket.Valid, Strtol;
    var buffer := new char[BUFFER];
    var user := Handshake(fd, buffer, env);
    atLoop := buffer[..];
    mode, effects, college := Stopped, [], None;
    if user.None? { return; }
    college := Some(Strtol(user.value));
    var rl := new Rline();
    assert WireOf(fd, rl) == FreshWire(fd) by { NothingBuffered(fd, rl); }
    var regbuf := new char[MAXINFOSIZE];
    effects, mode := Lines(fd, rl, buffer, regbuf, env);
  }

  lemma NothingBuffered(fd: Socket, rl: Rline)
    requires rl.Valid() && rl.Buffered() == ""
    ensures rl.Ahead(fd) == Content(fd.incoming)
  {
  }
}
