/** What can have been put into a college's database, for every input a server can be sent. */
module StoreInvariant {
  import opened Bytes
  import opened Streams
  import opened Records
  import opened Server

  /** The text file of a body: what fputs writes of each piece. */
  function TextOf(pieces: seq<string>): string {
    if pieces == [] then "" else TextOf(pieces[..|pieces| - 1]) + CStr(pieces[|pieces| - 1])
  }

  /** The record of a body, with the stray byte behind each unterminated piece given. */
  function RecordOf(pieces: seq<string>, strays: string): string
    requires |strays| == |pieces|
  {
    if pieces == [] then ""
    else RecordOf(pieces[..|pieces| - 1], strays[..|pieces| - 1])
         + Chunk(pieces[|pieces| - 1], strays[|pieces| - 1])
  }

  predicate Ordinary(piece: string) {
    !StartsWith(CStr(piece), DOT) && !StartsWith(CStr(piece), QUIT)
  }

  predicate Names(piece: string, name: string) {
    && StartsWith(CStr(piece), FILENAME) && 4 <= |name| <= NAMEMAX
    && (Until(CStr(piece)[9..], "\r\n") == name || Until(CStr(piece)[9..], "\r\n") == "")
  }

  /** `text` and `record` are all of pieces[i + 1 .. j], and pieces[i] named the file. The record
      never outgrew its buffer. */
  ghost predicate Collected(pieces: seq<string>, i: nat, j: nat, name: string, text: string, record: string) {
    && i < j <= |pieces| && Names(pieces[i], name)
    && (forall q :: i < q < j ==> Ordinary(pieces[q]))
    && text == TextOf(pieces[i + 1..j])
    && (exists strays: string :: |strays| == j - i - 1 && record == RecordOf(pieces[i + 1..j], strays))
    && |record| <= MAXINFOSIZE
  }

  /** A put is the packing of everything between one FILENAME piece and the dot that ends it. */
  ghost predicate Framed(pieces: seq<string>, e: Effect) {
    e.Put? ==>
      && |e.name| >= 4 && e.key == KeyOf(e.name)
      && exists i: nat, j: nat :: Collected(pieces, i, j, e.name, e.text, e.record)
                               && j < |pieces| && StartsWith(CStr(pieces[j]), DOT)
  }

  /** The open body, when there is one, is everything since its FILENAME piece. */
  ghost predicate Tracks(past: seq<string>, m: Mode) {
    m.Body? ==> exists i: nat :: Collected(past, i, |past|, m.name, m.text, m.record)
  }

  lemma CollectedExtends(pieces: seq<string>, more: seq<string>, i: nat, j: nat,
                         name: string, text: string, record: string)
    requires Collected(pieces, i, j, name, text, record)
    ensures Collected(pieces + more, i, j, name, text, record)
  {
    hide TextOf, RecordOf, Names, Ordinary;
    assert (pieces + more)[i + 1..j] == pieces[i + 1..j];
  }

  lemma CollectOne(past: seq<string>, piece: string, i: nat, name: string, text: string, record: string, stray: char)
    requires Collected(past, i, |past|, name, text, record) && Ordinary(piece)
    requires |record + Chunk(piece, stray)| <= MAXINFOSIZE
    ensures Collected(past + [piece], i, |past| + 1, name, text + CStr(piece), record + Chunk(piece, stray))
  {
    hide Names, Ordinary, CStr, Chunk, TextOf, RecordOf;
    var all, front := past + [piece], past[i + 1..|past|];
    var strays: string :| |strays| == |past| - i - 1 && record == RecordOf(front, strays);
    assert all[i + 1..|past| + 1] == front + [piece];
    OneMorePiece(front, piece, strays, stray);
    assert |strays + [stray]| == |past| - i;
  }

  lemma OneMorePiece(front: seq<string>, piece: string, strays: string, stray: char)
    requires |strays| == |front|
    ensures TextOf(front + [piece]) == TextOf(front) + CStr(piece)
    ensures RecordOf(front + [piece], strays + [stray]) == RecordOf(front, strays) + Chunk(piece, stray)
  {
    hide CStr, Chunk;
    var body := front + [piece];
    assert body[..|body| - 1] == front && (strays + [stray])[..|body| - 1] == strays;
  }

  /** One line keeps the account of the open body and puts nothing unaccounted for. */
  lemma OneLine(past: seq<string>, m: Mode, piece: string, luck: Luck)
    requires Listening(m) && Tracks(past, m)
    ensures var turn := OnLine(m, piece, luck);
            Tracks(past + [piece], turn.mode) && forall e :: e in turn.effects ==> Framed(past + [piece], e)
  {
    match m {
      case Command(prev) =>
        OneCommand(past, prev, piece, luck);
        hide OnCommand, Tracks, Framed;
      case Body(name, text, record) =>
        OneBodyLine(past, name, text, record, piece, luck);
        hide OnBody, Tracks, Framed;
    }
  }

  lemma OneCommand(past: seq<string>, prev: string, piece: string, luck: Luck)
    ensures var turn := OnCommand(prev, piece, luck);
            Tracks(past + [piece], turn.mode) && forall e :: e in turn.effects ==> Framed(past + [piece], e)
  {
    hide CStr, Until;
    var turn := OnCommand(prev, piece, luck);
    var now, i := past + [piece], |past|;
    assert now[i] == piece && now[i + 1..|now|] == [];
    assert TextOf([]) == "" && RecordOf([], "") == "";
    if turn.mode.Body? {
      assert Collected(now, i, |now|, turn.mode.name, "", "");
    }
  }

  /** The three things a line can do to an open body. */
  lemma BodyTurn(name: string, text: string, record: string, piece: string, luck: Luck)
    requires |name| >= 4
    ensures var turn := OnBody(name, text, record, piece, luck);
            if StartsWith(CStr(piece), DOT) then
              turn.mode == Command(name) && turn.effects == [Put(name, text, KeyOf(name), record)]
            else
              && turn.effects != [Put(name, text, KeyOf(name), record)]
              && (forall e :: e in turn.effects ==> !e.Put?)
              && (turn.mode.Body? ==>
                    && turn.mode == Body(name, text + CStr(piece), record + Chunk(piece, luck.stray))
                    && Ordinary(piece) && |turn.mode.record| <= MAXINFOSIZE)
  {
    hide CStr, Chunk, KeyOf;
  }

  lemma OneBodyLine(past: seq<string>, name: string, text: string, record: string, piece: string, luck: Luck)
    requires |name| >= 4 && Tracks(past, Body(name, text, record))
    ensures var turn := OnBody(name, text, record, piece, luck);
            Tracks(past + [piece], turn.mode) && forall e :: e in turn.effects ==> Framed(past + [piece], e)
  {
    hide OnBody, Framed, Collected;
    var i: nat :| Collected(past, i, |past|, name, text, record);
    hide Tracks;
    BodyTurn(name, text, record, piece, luck);
    var turn := OnBody(name, text, record, piece, luck);
    if turn.effects == [Put(name, text, KeyOf(name), record)] {
      OneDot(past, i, name, text, record, piece);
    }
    if turn.mode.Body? {
      CollectOne(past, piece, i, name, text, record, luck.stray);
      BodyIsTracked(past + [piece], i, turn.mode);
    } else {
      NeitherBody(past + [piece], turn.mode);
    }
    forall e | e in turn.effects && !e.Put? ensures Framed(past + [piece], e) { NotAPut(past + [piece], e); }
  }

  lemma OneDot(past: seq<string>, i: nat, name: string, text: string, record: string, piece: string)
    requires |name| >= 4 && Collected(past, i, |past|, name, text, record) && StartsWith(CStr(piece), DOT)
    ensures Framed(past + [piece], Put(name, text, KeyOf(name), record))
  {
    hide Collected, Framed, CStr;
    CollectedExtends(past, [piece], i, |past|, name, text, record);
    DotIsFramed(past + [piece], i, |past|, Put(name, text, KeyOf(name), record));
  }

  lemma DotIsFramed(now: seq<string>, i: nat, j: nat, e: Effect)
    requires e.Put? && Collected(now, i, j, e.name, e.text, e.record) && |e.name| >= 4 && e.key == KeyOf(e.name)
    requires j < |now| && StartsWith(CStr(now[j]), DOT)
    ensures Framed(now, e)
  {
    hide Collected, CStr;
  }

  lemma BodyIsTracked(now: seq<string>, i: nat, m: Mode)
    requires m.Body? && Collected(now, i, |now|, m.name, m.text, m.record)
    ensures Tracks(now, m)
  {
    hide Collected;
  }

  lemma FramedExtends(pieces: seq<string>, more: seq<string>, e: Effect)
    requires Framed(pieces, e)
    ensures Framed(pieces + more, e)
  {
    if e.Put? {
      var i: nat, j: nat :| Collected(pieces, i, j, e.name, e.text, e.record)
                            && j < |pieces| && StartsWith(CStr(pieces[j]), DOT);
      CollectedExtends(pieces, more, i, j, e.name, e.text, e.record);
      assert (pieces + more)[j] == pieces[j];
    }
  }

  lemma NeitherBody(past: seq<string>, m: Mode)
    requires !m.Body?
    ensures Tracks(past, m)
  {
  }

  lemma {:induction false} LoopPutsFramed(w: Wire, m: Mode, env: Env, buf: string, k: nat, past: seq<string>)
    requires |buf| == BUFFER && Tracks(past, m)
    ensures forall e :: e in LineLoop(w, m, env, buf, k).effects ==>
              Framed(past + Split(w.input, w.ending, MAXLINE), e)
    decreases |w.input|
  {
    hide OnLine, Tracks, Framed, StoreLine, LuckAt, Listening, Deliver, TakeLine;
    var pieces := past + Split(w.input, w.ending, MAXLINE);
    var t := TakeLine(w.input, w.ending, MAXLINE);
    if Listening(m) && t.Got? {
      TakenShort(w.input, w.ending);
      var luck := LuckAt(env, k, buf, t.text);
      var turn := OnLine(m, t.text, luck);
      var (w', ok) := Say(w.(input := w.input[|t.text|..]), turn.reply);
      var now := past + [t.text];
      OneLine(past, m, t.text, luck);
      if turn.reply == OK && !ok { NeitherBody(now, Stopped); }
      var more := Split(w'.input, w.ending, MAXLINE);
      assert Split(w.input, w.ending, MAXLINE) == [t.text] + more;
      assert pieces == now + more;
      LoopPutsFramed(w', AfterReply(turn, ok), env, StoreLine(buf, t.text), k + 1, now);
      forall e | e in LineLoop(w, m, env, buf, k).effects ensures Framed(pieces, e) {
        if e in turn.effects { FramedExtends(now, more, e); }
      }
    } else {
      forall e | e in LineLoop(w, m, env, buf, k).effects ensures Framed(pieces, e) {
        assert e in OnEnd(m);
        NotAPut(pieces, e);
      }
    }
  }

  lemma NotAPut(pieces: seq<string>, e: Effect)
    requires !e.Put?
    ensures Framed(pieces, e)
  {
  }

  /** For every input: nothing happens to a file or a database before the whole handshake
      succeeded, and then every put goes to the database of the user's own college and is the packing
      of one dot-terminated body, taken from the bytes that follow the credentials. */
  lemma EveryPutIsFramed(w: Wire, env: Env, buf: string)
    requires |env.magic| == DIGEST && |buf| == BUFFER
    ensures var o := Serve(w, env, buf);
            o.effects != [] ==>
              exists user, creds, rest ::
                && Credentials(creds, env, user) && w.input == creds + rest
                && DatabaseOf(AskMagic(w, env)) == Some(Strtol(user))
                && forall e :: e in o.effects ==> Framed(Split(rest, w.ending, 120), e)
  {
    var o := Serve(w, env, buf);
    if o.effects != [] {
      var s := AskMagic(w, env);
      GateNeeds(w, env);
      HandshakeKeepsEnding(w, env);
      var rest := s.wire.input;
      var creds :| Credentials(creds, env, s.user) && w.input == creds + rest;
      var begin := Command(env.name);
      NeitherBody([], begin);
      LoopPutsFramed(s.wire, begin, env, buf, 0, []);
      hide Framed, Credentials, LineLoop, AskMagic, Split, Strtol;
      assert [] + Split(rest, w.ending, MAXLINE) == Split(rest, w.ending, MAXLINE);
      assert forall e :: e in o.effects ==> Framed(Split(rest, w.ending, MAXLINE), e);
    }
  }

  lemma HandshakeKeepsEnding(w: Wire, env: Env)
    requires |env.magic| == DIGEST && AskMagic(w, env).Accepted?
    ensures AskMagic(w, env).wire.ending == w.ending
  {
    hide Deliver, UserOf;
  }

  // ---------------------------------------------------------------------------------------
  // The two stores agree
  // ---------------------------------------------------------------------------------------

  /** A line as a well-behaved client sends it. */
  predicate TextLine(line: string) { Terminated(line) && NulFree(line) }

  lemma {:induction false} CleanBody(pieces: seq<string>, strays: string)
    requires |strays| == |pieces| && forall i :: 0 <= i < |pieces| ==> TextLine(pieces[i])
    ensures TextOf(pieces) == Flatten(pieces) && RecordOf(pieces, strays) == Pack(pieces)
  {
    if pieces != [] {
      var n := |pieces| - 1;
      CleanBody(pieces[..n], strays[..n]);
      assert pieces == pieces[..n] + [pieces[n]];
      FlattenSnoc(pieces[..n], pieces[n]);
      PackSnoc(pieces[..n], pieces[n]);
      CStrExact(pieces[n], "");
      assert pieces[n] + "" == pieces[n];
      assert TextLine(pieces[n]);
      hide Flatten, Pack, CStr;
      assert Chunk(pieces[n], strays[n]) == pieces[n] + [NUL];
    }
  }

  /** Whatever text lines a body was made of, printing the stored record gives back exactly the
      text file of the same transfer, and both are those lines. */
  lemma StoresAgree(pieces: seq<string>, i: nat, j: nat, name: string, text: string, record: string)
    requires Collected(pieces, i, j, name, text, record)
    requires forall q :: i < q < j ==> TextLine(pieces[q])
    ensures text == Flatten(pieces[i + 1..j]) && record == Pack(pieces[i + 1..j])
    ensures Plain(record) == Some(text)
  {
    var body := pieces[i + 1..j];
    var strays: string :| |strays| == |body| && record == RecordOf(body, strays);
    forall q | 0 <= q < |body| ensures TextLine(body[q]) {
      assert body[q] == pieces[i + 1 + q];
    }
    CleanBody(body, strays);
    PlainPack(body);
  }
}
