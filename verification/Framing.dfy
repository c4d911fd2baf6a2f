/** What the server makes of the messages a client writes, one message at a time and a whole
    form at a time. */
module Framing {
  import opened Bytes
  import opened Streams
  import opened Records
  import opened Server

  // ---------------------------------------------------------------------------------------
  // The client's messages
  // ---------------------------------------------------------------------------------------

  /** A file name that fits the server's name buffers. */
  predicate GoodName(name: string) {
    4 <= |name| <= NAMEMAX && NulFree(name) && LF !in name && CR !in name
  }

  function NameLine(name: string): string { FILENAME + name + "\n" }

  /** A form line the server can tell from its commands and that fits the line buffer. */
  predicate PlainLine(line: string) {
    && WholeLine(line) && |line| < MAXLINE && NulFree(line)
    && !StartsWith(line, DOT) && !StartsWith(line, QUIT)
    && !StartsWith(line, "BINARY ") && !StartsWith(line, FILENAME)
  }

  /** The lines of a form as the client sends them. */
  predicate Sendable(lines: seq<string>) {
    (forall i :: 0 <= i < |lines| ==> PlainLine(lines[i])) && |Pack(lines)| <= MAXINFOSIZE
  }

  lemma NameLineIs(name: string)
    requires GoodName(name)
    ensures var m := NameLine(name);
            && WholeLine(m) && |m| == 10 + |name| && |m| < MAXLINE && NulFree(m)
            && StartsWith(m, FILENAME) && CStr(m) == m && Until(m[9..], "\r\n") == name
            && Returned(Got(m)) == |m|
  {
    var m := NameLine(name);
    assert m[|m| - 1] == LF;
    forall i | 0 <= i < |m| - 1 ensures m[i] != LF && m[i] != NUL {
      if i >= 9 { assert m[i] == name[i - 9]; }
    }
    CStrExact(m, "");
    assert m + "" == m;
    assert m[9..] == name + "\n";
    UntilExact(name, "\n", "\r\n");
  }

  /** A FILENAME line between files opens one. */
  lemma CommandOpens(prev: string, name: string, luck: Luck)
    requires GoodName(name)
    ensures OnCommand(prev, NameLine(name), luck)
         == if luck.opens then Turn(Body(name, "", ""), "", [Created(name)]) else Turn(Stopped, "", [])
  {
    NameLineIs(name);
    hide CStr, Until, NameLine;
  }

  lemma UntilOfClean(s: string)
    requires LF !in s && CR !in s
    ensures Until(s, "\r\n") == s
  {
    assert s + "" == s;
    forall c | c in s ensures c !in "\r\n" { }
    UntilExact(s, "", "\r\n");
  }

  lemma CutIsCStr(m: string, part: string)
    requires NulFree(m) && part < m
    ensures CStr(part) == part && (part != "" ==> part[0] == m[0])
  {
    CStrExact(part, "") by { assert forall c :: c in part ==> c in m; }
    assert part + "" == part;
  }

  lemma CutOfJoined(head: string, name: string, tail: string, part: string)
    requires |tail| == 1 && part < head + name + tail
    ensures |part| <= |head| + |name| && (|part| >= |head| <==> head <= part)
    ensures |part| >= |head| ==> part[|head|..] == name[..|part| - |head|]
  {
    var m := head + name + tail;
    assert part == m[..|part|];
    if |part| >= |head| {
      assert m[..|part|][..|head|] == head;
      assert m[..|part|][|head|..] == name[..|part| - |head|];
    }
  }

  /** What is left of a cut FILENAME line names what is left of the name. */
  lemma CutNameIs(name: string, part: string)
    requires GoodName(name) && part < NameLine(name)
    ensures CStr(part) == part && (part != "" ==> part[0] == 'F')
    ensures |part| <= |name| + 9 && (|part| >= 9 <==> StartsWith(part, FILENAME))
    ensures |part| >= 9 ==> part[9..] == name[..|part| - 9] && Until(part[9..], "\r\n") == part[9..]
  {
    NameLineIs(name);
    CutIsCStr(NameLine(name), part);
    CutOfJoined(FILENAME, name, "\n", part);
    assert NameLine(name)[0] == FILENAME[0];
    hide CStr, NulFree, Until, WholeLine, NameLine;
    if |part| >= 9 { UntilOfClean(part[9..]); }
  }

  /** When a FILENAME line cut off by a broken connection overruns the name buffers, exactly: when at
      least one and fewer than four characters of the name came through, or none did and the name
      used instead, the last one heard, is no name. */
  lemma CutNameOverruns(prev: string, name: string, part: string, luck: Luck)
    requires GoodName(name) && part < NameLine(name)
    ensures OnCommand(prev, part, luck).mode == Undefined <==>
              10 <= |part| <= 12 || (|part| == 9 && !(4 <= |prev| <= NAMEMAX))
  {
    CutNameIs(name, part);
    assert QUIT[0] == 'Q' && "BINARY "[0] == 'B';
    hide CStr, Until, NameLine, GoodName;
  }

  /** An announced image is refused with 310, and the line loop stays where it was. */
  lemma ImagesAreRefused(prev: string, rest: string, luck: Luck)
    requires NulFree(rest) && Returned(Got("BINARY " + rest)) >= 9
    ensures OnCommand(prev, "BINARY " + rest, luck) == Turn(Command(prev), "310\n", [])
  {
    var line := "BINARY " + rest;
    assert line[0] == 'B' && QUIT[0] == 'Q';
    assert forall c :: c in line ==> c in "BINARY " || c in rest;
    CStrExact(line, "");
    assert line + "" == line;
    hide CStr, Until;
  }

  /** Inside an open body a FILENAME line is one more line of text. */
  lemma BodySwallowsName(open: string, text: string, record: string, name: string, luck: Luck)
    requires GoodName(name) && |open| >= 4
    ensures OnBody(open, text, record, NameLine(name), luck)
         == if !luck.writes then Turn(Command(open), "", [Left(open, text)])
            else if |record| >= MAXINFOSIZE then Turn(Command(open), "", [Left(open, text + NameLine(name))])
            else if |record| + |NameLine(name)| + 1 > MAXINFOSIZE then Turn(Undefined, "", [])
            else Turn(Body(open, text + NameLine(name), record + (NameLine(name) + [NUL])), "", [])
  {
    NameLineIs(name);
    hide CStr, Until, NameLine;
    var m := NameLine(name);
    assert m[0] == 'F';
    assert Chunk(m, luck.stray) == m + [NUL];
  }

  /** A form line outside a body ends the session. */
  lemma CommandRefusesLine(prev: string, line: string, luck: Luck)
    requires PlainLine(line)
    ensures OnCommand(prev, line, luck) == Turn(Stopped, "", [])
  {
    CStrExact(line, "");
    assert line + "" == line;
    hide CStr, Until;
  }

  /** A form line inside a body is text and record. */
  lemma BodyTakesLine(name: string, text: string, record: string, line: string, luck: Luck)
    requires PlainLine(line) && |name| >= 4
    ensures OnBody(name, text, record, line, luck)
         == if !luck.writes then Turn(Command(name), "", [Left(name, text)])
            else if |record| >= MAXINFOSIZE then Turn(Command(name), "", [Left(name, text + line)])
            else if |record| + |line| + 1 > MAXINFOSIZE then Turn(Undefined, "", [])
            else Turn(Body(name, text + line, record + (line + [NUL])), "", [])
  {
    CStrExact(line, "");
    assert line + "" == line;
    hide CStr, Until;
    assert Chunk(line, luck.stray) == line + [NUL];
  }

  lemma DotLine(m: Mode, luck: Luck)
    requires Listening(m)
    ensures OnLine(m, DOT, luck)
         == if m.Command? then Turn(Stopped, "", [])
            else Turn(Command(m.name), OK, [Put(m.name, m.text, KeyOf(m.name), m.record)])
  {
    CStrExact(DOT, "");
    assert DOT + "" == DOT;
    hide CStr, Until;
    assert DOT[0] == '.' && QUIT[0] == 'Q';
  }

  lemma QuitLine(m: Mode, luck: Luck)
    requires Listening(m)
    ensures OnLine(m, QUIT, luck) == Turn(Stopped, "", OnEnd(m))
  {
    CStrExact(QUIT, "");
    assert QUIT + "" == QUIT;
    hide CStr, Until;
    assert DOT[0] == '.' && QUIT[0] == 'Q';
  }

  // ---------------------------------------------------------------------------------------
  // One whole message off the stream
  // ---------------------------------------------------------------------------------------

  lemma TakesMessage(line: string, rest: string, e: Ending)
    requires WholeLine(line) && |line| < MAXLINE
    ensures TakeLine(line + rest, e, MAXLINE) == Got(line) && (line + rest)[|line|..] == rest
  {
    LinePrefixOfWhole(line, rest, MAXLINE - 1);
  }

  /** One turn of the line loop on a message that draws no reply. */
  lemma LoopTakes(w: Wire, line: string, rest: string, m: Mode, env: Env, buf: string, k: nat)
    requires |buf| == BUFFER && Listening(m) && w.input == line + rest
    requires WholeLine(line) && |line| < MAXLINE
    ensures var turn := OnLine(m, line, LuckAt(env, k, buf, line));
            turn.reply == "" ==>
              LineLoop(w, m, env, buf, k)
              == Prefixed(turn.effects,
                          LineLoop(w.(input := rest), turn.mode, env, StoreLine(buf, line), k + 1))
  {
    TakesMessage(line, rest, w.ending);
    hide OnLine, Listening, StoreLine, LuckAt;
    assert Say(w.(input := rest), "") == (w.(input := rest, sent := w.sent + ""), true);
    assert w.sent + "" == w.sent;
  }

  lemma PackMonotone(lines: seq<string>, i: nat)
    requires i < |lines|
    ensures |Pack(lines[..i])| + |lines[i]| + 1 <= |Pack(lines)|
  {
    var front, rest := lines[..i], lines[i + 1..];
    PackSnoc(front, lines[i]);
    PackAppend(front + [lines[i]], rest);
    assert lines == front + [lines[i]] + rest;
    hide Pack;
  }

  /** The server's disk never fails. */
  ghost predicate DiskWorks(env: Env) {
    forall k: nat :: env.disk(k) == Disk(true, true)
  }

  /** The body of a form is taken line by line; the size guard never fires. */
  lemma {:induction false} BodyIsTaken(w: Wire, name: string, lines: seq<string>, done: nat, rest: string,
                                       env: Env, buf: string, k: nat)
    returns (buf': string, k': nat)
    requires |buf| == BUFFER && |name| >= 4 && Sendable(lines) && done <= |lines| && DiskWorks(env)
    requires w.input == Flatten(lines[done..]) + rest
    ensures |buf'| == BUFFER
    ensures LineLoop(w, Body(name, Flatten(lines[..done]), Pack(lines[..done])), env, buf, k)
         == LineLoop(w.(input := rest), Body(name, Flatten(lines), Pack(lines)), env, buf', k')
    decreases |lines| - done
  {
    buf', k' := buf, k;
    if done == |lines| {
      assert lines[done..] == [] && lines[..done] == lines;
      assert w.input == rest;
    } else {
      var line := lines[done];
      var text, record := Flatten(lines[..done]), Pack(lines[..done]);
      var m := Body(name, text, record);
      assert lines[done..] == [line] + lines[done + 1..];
      var after := Flatten(lines[done + 1..]) + rest;
      assert Flatten(lines[done..]) == line + Flatten(lines[done + 1..]);
      assert w.input == line + after;
      var luck := LuckAt(env, k, buf, line);
      PackMonotone(lines, done);
      BodyTakesLine(name, text, record, line, luck);
      FlattenSnoc(lines[..done], line);
      PackSnoc(lines[..done], line);
      assert lines[..done] + [line] == lines[..done + 1];
      hide Flatten, Pack, LineLoop, OnBody;
      LoopTakes(w, line, after, m, env, buf, k);
      buf', k' := BodyIsTaken(w.(input := after), name, lines, done + 1, rest, env, StoreLine(buf, line), k + 1);
    }
  }

  /** Framing transparency: from the FILENAME line and the lines of a form the server recovers
      the name and exactly those lines, stops at the client's own dot, and stores the same
      lines twice. */
  lemma FormIsStored(w: Wire, name: string, lines: seq<string>, rest: string, prev: string,
                     env: Env, buf: string, k: nat)
    returns (buf': string, k': nat)
    requires |buf| == BUFFER && GoodName(name) && Sendable(lines) && DiskWorks(env)
    requires w.input == NameLine(name) + Flatten(lines) + DOT + rest
    ensures |buf'| == BUFFER
    ensures LineLoop(w, Command(prev), env, buf, k)
         == Prefixed([Created(name), Put(name, Flatten(lines), KeyOf(name), Pack(lines))],
                     LineLoop(Acknowledged(w, rest), AfterDot(w, name), env, buf', k'))
  {
    hide LineLoop, Flatten, Pack, Deliver, StoreLine, LuckAt, Sendable, DiskWorks, AfterDot, Acknowledged, NameLine,
      CStr, Until, WholeLine, KeyOf;
    NameLineIs(name);
    var line := NameLine(name);
    var body := Flatten(lines) + (DOT + rest);
    Joined(line, Flatten(lines), DOT, rest);
    CommandOpens(prev, name, LuckAt(env, k, buf, line));
    assert LuckAt(env, k, buf, line).opens by { WorkingLuck(env, k, buf, line); }
    LoopTakes(w, line, body, Command(prev), env, buf, k);
    assert lines[..0] == [] && lines[0..] == lines;
    NothingYet();
    var w1, buf1 := w.(input := body), StoreLine(buf, line);
    var buf2, k2 := BodyIsTaken(w1, name, lines, 0, DOT + rest, env, buf1, k + 1);
    var m := Body(name, Flatten(lines), Pack(lines));
    buf', k' := StoreLine(buf2, DOT), k2 + 1;
    DotTurn(w.(input := DOT + rest), rest, m, env, buf2, k2);
    SameAcknowledged(w, DOT + rest, rest, name);
    var o := LineLoop(Acknowledged(w, rest), AfterDot(w, name), env, buf', k');
    TwoEffects(Created(name), Put(name, m.text, KeyOf(name), m.record), o.effects);
  }

  lemma Joined(a: string, b: string, c: string, d: string)
    ensures a + b + c + d == a + (b + (c + d))
  {
  }

  lemma TwoEffects(a: Effect, b: Effect, es: seq<Effect>)
    ensures [a] + ([b] + es) == [a, b] + es
  {
  }

  lemma WorkingLuck(env: Env, k: nat, buf: string, line: string)
    requires |buf| == BUFFER && |line| < MAXLINE && DiskWorks(env)
    ensures LuckAt(env, k, buf, line).opens && LuckAt(env, k, buf, line).writes
  {
  }

  lemma NothingYet()
    ensures Flatten([]) == "" && Pack([]) == ""
  {
  }

  lemma SameAcknowledged(w: Wire, input: string, rest: string, name: string)
    ensures Acknowledged(w.(input := input), rest) == Acknowledged(w, rest)
    ensures AfterDot(w.(input := input), name) == AfterDot(w, name)
  {
  }

  /** The connection after the acknowledgement of a form was written to it. */
  function Acknowledged(w: Wire, rest: string): Wire {
    var d := Deliver(w.out, OK);
    Wire(rest, w.ending, d.events, w.sent + d.sent)
  }

  function AfterDot(w: Wire, name: string): Mode {
    if Deliver(w.out, OK).ok then Command(name) else Stopped
  }

  lemma DotTurn(w: Wire, rest: string, m: Mode, env: Env, buf: string, k: nat)
    requires |buf| == BUFFER && m.Body? && |m.name| >= 4 && w.input == DOT + rest
    ensures LineLoop(w, m, env, buf, k)
         == Prefixed([Put(m.name, m.text, KeyOf(m.name), m.record)],
                     LineLoop(Acknowledged(w, rest), AfterDot(w, m.name), env, StoreLine(buf, DOT), k + 1))
  {
    DotLine(m, LuckAt(env, k, buf, DOT));
    TakesMessage(DOT, rest, w.ending);
    hide OnLine, StoreLine, LuckAt, Deliver;
  }
}
