/** The buffered stream layer of server/support.c: read(2) and write(2) with any chunking,
    readn, writen, my_read and readline with its per-thread buffer. */
module Streams {
  import opened Bytes

  // ---------------------------------------------------------------------------------------
  // What the kernel will do
  // ---------------------------------------------------------------------------------------

  /** One future outcome of read(2): bytes, EINTR, or another error. No more events is end of file. */
  datatype ReadEvent = Data(bytes: string) | Interrupted | Failed

  /** How the byte stream ends. */
  datatype Ending = Eof | Broken

  /** One future outcome of write(2): it takes at most `room` bytes, EINTR, or another error.
      With no more events every write is taken whole. */
  datatype WriteEvent = Accept(room: nat) | Again | Refused

  /** The bytes read(2) hands out before the stream ends. */
  function Content(es: seq<ReadEvent>): string {
    if es == [] || es[0].Failed? then ""
    else (if es[0].Data? then es[0].bytes else "") + Content(es[1..])
  }

  function EndOf(es: seq<ReadEvent>): Ending {
    if es == [] then Eof else if es[0].Failed? then Broken else EndOf(es[1..])
  }

  /** Every Data event holds at least one byte: a read of nothing is end of file. */
  predicate RealChunks(es: seq<ReadEvent>) {
    forall i :: 0 <= i < |es| && es[i].Data? ==> es[i].bytes != ""
  }

  // ---------------------------------------------------------------------------------------
  // One bounded line of a byte stream
  // ---------------------------------------------------------------------------------------

  /** The outcome of readline: `Got` carries the stored bytes, `Nothing` is a return of 0,
      `Error` a return of -1. */
  datatype Taken = Got(text: string) | Nothing | Error

  predicate Terminated(text: string) { text != "" && text[|text| - 1] == LF }

  /** The bytes up to and including the first newline, but at most `room` of them. */
  function LinePrefix(s: string, room: nat): string
    decreases room
  {
    if room == 0 || s == "" then ""
    else [s[0]] + (if s[0] == LF then "" else LinePrefix(s[1..], room - 1))
  }

  lemma {:induction false} LinePrefixIs(s: string, room: nat)
    ensures var r := LinePrefix(s, room);
            && r <= s && |r| <= room
            && (forall i :: 0 <= i < |r| - 1 ==> r[i] != LF)
            && (Terminated(r) || |r| == room || r == s)
    decreases room
  {
    if room > 0 && s != "" && s[0] != LF {
      LinePrefixIs(s[1..], room - 1);
    }
  }

  /** What readline(fd, buf, maxlen) takes from a stream `s` that ends in `e`. */
  function TakeLine(s: string, e: Ending, maxlen: nat): Taken
    requires maxlen > 0
  {
    var p := LinePrefix(s, maxlen - 1);
    if Terminated(p) || |p| == maxlen - 1 then Got(p)
    else if e == Broken then Error
    else if p == "" then Nothing
    else Got(p)
  }

  /** The number readline returns: the length of a newline-terminated line, one more for a
      piece cut short by the buffer or by end of file, 0 at end of file, -1 on an error. */
  function Returned(t: Taken): int {
    match t
    case Got(text) => if Terminated(text) then |text| else |text| + 1
    case Nothing => 0
    case Error => -1
  }

  /** A text line of the protocol: its only newline is its last byte. */
  predicate WholeLine(line: string) {
    Terminated(line) && forall i :: 0 <= i < |line| - 1 ==> line[i] != LF
  }

  lemma {:induction false} LinePrefixOfWhole(line: string, rest: string, room: nat)
    requires WholeLine(line) && |line| <= room
    ensures LinePrefix(line + rest, room) == line
    decreases |line|
  {
    LinePrefixStep(line[0], line[1..] + rest, room);
    assert line + rest == [line[0]] + (line[1..] + rest);
    if |line| > 1 {
      assert WholeLine(line[1..]);
      LinePrefixOfWhole(line[1..], rest, room - 1);
      hide LinePrefix;
    }
  }

  /** A stream cut off inside a line yields no newline-terminated piece before its end. */
  lemma {:induction false} LinePrefixOfCut(s: string, line: string, room: nat)
    requires WholeLine(line) && s < line
    ensures LinePrefix(s, room) == if |s| <= room then s else s[..room]
    decreases |s|
  {
    if s != "" && room > 0 {
      assert line[0] == s[0] && |line| > 1;
      assert s[1..] <= line[1..];
      LinePrefixOfCut(s[1..], line[1..], room - 1);
    }
  }

  /** The loop of readline has taken `text` off `s` and may take more of `rest`. */
  ghost predicate Collecting(s: string, text: string, rest: string, maxlen: nat) {
    && s == text + rest && LF !in text && |text| < maxlen
    && LinePrefix(s, maxlen - 1) == text + LinePrefix(rest, maxlen - 1 - |text|)
  }

  lemma StartCollecting(s: string, maxlen: nat)
    requires maxlen > 0
    ensures Collecting(s, "", s, maxlen)
  {
  }

  lemma TakeOne(s: string, e: Ending, text: string, c: char, rest: string, maxlen: nat)
    requires Collecting(s, text, [c] + rest, maxlen) && |text| < maxlen - 1
    ensures s == (text + [c]) + rest
    ensures c == LF ==> TakeLine(s, e, maxlen) == Got(text + [c]) && Returned(Got(text + [c])) == |text| + 1
    ensures c != LF ==> Collecting(s, text + [c], rest, maxlen)
  {
    LinePrefixStep(c, rest, maxlen - 1 - |text|);
    hide LinePrefix, TakeLine;
    Rebracket(text, c, rest);
    if c == LF {
      assert LinePrefix(s, maxlen - 1) == text + [c];
      EndsAtNewline(s, e, text + [c], maxlen);
    } else {
      Rebracket(text, c, LinePrefix(rest, maxlen - 2 - |text|));
    }
  }

  lemma Rebracket(text: string, c: char, rest: string)
    ensures text + ([c] + rest) == (text + [c]) + rest
  {
  }

  lemma EndsAtNewline(s: string, e: Ending, line: string, maxlen: nat)
    requires maxlen > 0 && LinePrefix(s, maxlen - 1) == line && Terminated(line)
    ensures TakeLine(s, e, maxlen) == Got(line) && Returned(Got(line)) == |line|
  {
  }

  lemma LinePrefixStep(c: char, rest: string, room: nat)
    requires room > 0
    ensures LinePrefix([c] + rest, room) == if c == LF then [c] else [c] + LinePrefix(rest, room - 1)
  {
    assert ([c] + rest)[1..] == rest;
  }

  lemma CollectedAll(s: string, e: Ending, text: string, maxlen: nat)
    requires Collecting(s, text, "", maxlen) && |text| < maxlen - 1
    ensures TakeLine(s, e, maxlen) == if e == Broken then Error else if text == "" then Nothing else Got(text)
    ensures s == text && Returned(Got(text)) == |text| + 1
  {
    assert text + "" == text;
  }

  lemma CollectedFull(s: string, e: Ending, text: string, rest: string, maxlen: nat)
    requires Collecting(s, text, rest, maxlen) && |text| == maxlen - 1
    ensures TakeLine(s, e, maxlen) == Got(text) && s == text + rest && Returned(Got(text)) == |text| + 1
  {
    assert LinePrefix(rest, 0) == "" && text + "" == text;
  }

  // ---------------------------------------------------------------------------------------
  // The whole stream as a sequence of pieces
  // ---------------------------------------------------------------------------------------

  /** The pieces successive calls of readline return until the first 0 or -1. */
  function Split(s: string, e: Ending, maxlen: nat): (r: seq<string>)
    requires maxlen > 1
    decreases |s|
  {
    var t := TakeLine(s, e, maxlen);
    LinePrefixIs(s, maxlen - 1);
    if t.Got? && t.text != "" then [t.text] + Split(s[|t.text|..], e, maxlen) else []
  }

  /** A piece readline can return: not empty, short enough, no newline before its last byte. */
  predicate Piece(p: string, maxlen: nat) {
    0 < |p| < maxlen && forall i :: 0 <= i < |p| - 1 ==> p[i] != LF
  }

  /** An independent description of a bounded-line split of `s`: the pieces make up `s`, and
      every piece but the last one ends at a newline or is as long as the buffer allows. */
  ghost predicate IsSplit(pieces: seq<string>, s: string, maxlen: nat) {
    && Flatten(pieces) == s
    && (forall p :: p in pieces ==> Piece(p, maxlen))
    && (forall k :: 0 <= k < |pieces| - 1 ==> Terminated(pieces[k]) || |pieces[k]| == maxlen - 1)
  }

  /** Up to end of file, the successive results of readline are a bounded-line split. */
  lemma {:induction false} SplitIsASplit(s: string, maxlen: nat)
    requires maxlen > 1
    ensures IsSplit(Split(s, Eof, maxlen), s, maxlen)
    decreases |s|
  {
    if s != "" {
      var p := LinePrefix(s, maxlen - 1);
      LinePrefixIs(s, maxlen - 1);
      var rest := s[|p|..];
      var more := Split(rest, Eof, maxlen);
      SplitIsASplit(rest, maxlen);
      var all := [p] + more;
      assert all[1..] == more;
      assert Flatten(all) == p + rest;
      forall k | 0 <= k < |all| - 1 ensures Terminated(all[k]) || |all[k]| == maxlen - 1 {
        if k > 0 { assert all[k] == more[k - 1]; }
      }
    }
  }

  /** No other sequence of pieces is one. */
  lemma {:induction false} SplitIsUnique(s: string, maxlen: nat, pieces: seq<string>)
    requires maxlen > 1 && IsSplit(pieces, s, maxlen)
    ensures pieces == Split(s, Eof, maxlen)
    decreases |pieces|
  {
    hide Split, LinePrefix, TakeLine, Terminated, Complete;
    if pieces == [] {
      SplitNothing(Eof, maxlen);
    } else {
      FirstPiece(pieces, s, maxlen);
      TailIsSplit(pieces, s, maxlen);
      var tail := pieces[1..];
      SplitStep(s, Eof, maxlen);
      SplitIsUnique(Flatten(tail), maxlen, tail);
      assert s[|pieces[0]|..] == Flatten(tail);
      assert pieces == [pieces[0]] + tail;
    }
  }

  /** A piece readline returns before it has seen how the stream ends. */
  predicate Complete(piece: string, maxlen: nat) { Terminated(piece) || |piece| + 1 == maxlen }

  /** A stream that breaks off instead of ending loses its last piece when that has neither its
      newline nor the length of the buffer, and nothing else. */
  lemma {:induction false} SplitOfBroken(s: string, maxlen: nat)
    requires maxlen > 1
    ensures var all := Split(s, Eof, maxlen);
            Split(s, Broken, maxlen)
            == if all != [] && !Complete(all[|all| - 1], maxlen) then all[..|all| - 1] else all
    decreases |s|
  {
    hide Split, LinePrefix, TakeLine, Terminated, Complete;
    if s == "" {
      SplitNothing(Eof, maxlen);
      SplitNothing(Broken, maxlen);
    } else {
      var p := LinePrefix(s, maxlen - 1);
      SplitStep(s, Eof, maxlen);
      SplitStep(s, Broken, maxlen);
      if Complete(p, maxlen) {
        SplitOfBroken(s[|p|..], maxlen);
        FrontOfMore(p, Split(s[|p|..], Eof, maxlen));
      }
    }
  }

  lemma SplitNothing(e: Ending, maxlen: nat)
    requires maxlen > 1
    ensures Split("", e, maxlen) == []
  {
  }

  lemma SplitStep(s: string, e: Ending, maxlen: nat)
    requires maxlen > 1 && s != ""
    ensures var p := LinePrefix(s, maxlen - 1);
            && 0 < |p| <= |s|
            && Split(s, e, maxlen)
               == if Complete(p, maxlen) then [p] + Split(s[|p|..], e, maxlen) else if e == Eof then [p] else []
  {
    var p := LinePrefix(s, maxlen - 1);
    LinePrefixIs(s, maxlen - 1);
    assert p != "";
    hide LinePrefix;
    if !Complete(p, maxlen) {
      assert p == s && s[|p|..] == "";
      assert TakeLine("", e, maxlen) != Got(p);
    }
  }

  lemma FrontOfMore(p: string, more: seq<string>)
    ensures more != [] ==>
              ([p] + more)[..|more|] == [p] + more[..|more| - 1] && ([p] + more)[|more|] == more[|more| - 1]
  {
  }

  lemma TailIsSplit(pieces: seq<string>, s: string, maxlen: nat)
    requires maxlen > 1 && pieces != [] && IsSplit(pieces, s, maxlen)
    ensures s != "" && IsSplit(pieces[1..], Flatten(pieces[1..]), maxlen)
    ensures !Complete(pieces[0], maxlen) ==> pieces[1..] == []
  {
    assert Piece(pieces[0], maxlen);
    var tail := pieces[1..];
    assert forall k :: 0 <= k < |tail| ==> tail[k] == pieces[k + 1];
    assert forall p :: p in tail ==> p in pieces;
  }

  lemma FirstPiece(pieces: seq<string>, s: string, maxlen: nat)
    requires maxlen > 1 && pieces != [] && IsSplit(pieces, s, maxlen)
    ensures pieces[0] == LinePrefix(s, maxlen - 1)
    ensures s == pieces[0] + Flatten(pieces[1..])
  {
    var q := pieces[0];
    assert Piece(q, maxlen);
    if Terminated(q) {
      LinePrefixOfWhole(q, Flatten(pieces[1..]), maxlen - 1);
    } else if |pieces| == 1 {
      assert pieces[1..] == [] && Flatten(pieces[1..]) == "";
      assert q == s;
      LinePrefixOfOpen(q, "", maxlen - 1);
      assert q + "" == q;
    } else {
      LinePrefixOfOpen(q, Flatten(pieces[1..]), maxlen - 1);
    }
  }

  lemma {:induction false} LinePrefixOfOpen(q: string, rest: string, room: nat)
    requires LF !in q && |q| <= room && (|q| == room || rest == "")
    ensures LinePrefix(q + rest, room) == q
  {
    if q != "" {
      assert (q + rest)[1..] == q[1..] + rest;
      LinePrefixOfOpen(q[1..], rest, room - 1);
    }
  }

  lemma Reassociate(c: char, s: string, t: string)
    ensures ([c] + s) + t == [c] + (s + t)
  {
  }

  // ---------------------------------------------------------------------------------------
  // The socket
  // ---------------------------------------------------------------------------------------

  /** The bytes a run of writen calls gets out, and whether the last one succeeded. */
  datatype Delivery = Delivery(sent: string, ok: bool, events: seq<WriteEvent>)

  /** What happens to a message handed to writen. */
  function Deliver(es: seq<WriteEvent>, msg: string): (d: Delivery)
    ensures d.sent <= msg
    ensures d.ok ==> d.sent == msg
    ensures !d.ok ==> d.sent < msg
    decreases |es|
  {
    if msg == "" || es == [] then Delivery(msg, true, es)
    else match es[0]
      case Again => Deliver(es[1..], msg)
      case Refused => Delivery("", false, es[1..])
      case Accept(room) =>
        var k := if room < |msg| then room else |msg|;
        if k == 0 then Delivery("", false, es[1..])
        else
          var d := Deliver(es[1..], msg[k..]);
          Delivery(msg[..k] + d.sent, d.ok, d.events)
  }

  lemma Regrouped(before: string, got: string, rest: string, ahead: string)
    requires got + rest == ahead
    ensures (before + got) + rest == before + ahead
  {
  }

  class Socket {
    var incoming: seq<ReadEvent>
    var outgoing: seq<WriteEvent>
    var written: string

    ghost predicate Valid()
      reads this`incoming
    {
      RealChunks(incoming)
    }

    constructor (incoming: seq<ReadEvent>, outgoing: seq<WriteEvent>)
      requires RealChunks(incoming)
      ensures Valid()
      ensures this.incoming == incoming && this.outgoing == outgoing && written == ""
    {
      this.incoming, this.outgoing, this.written := incoming, outgoing, "";
    }

    /** read(2): `r` bytes stored at dst[at..], 0 at end of file, -1 on an error, with
        `interrupted` telling EINTR from the others. A call never returns more than asked. */
    method Read(dst: array<char>, at: nat, n: nat) returns (r: int, interrupted: bool)
      requires Valid() && 0 < n && at + n <= dst.Length
      modifies this`incoming, dst
      ensures Valid()
      ensures -1 <= r <= n
      ensures forall i :: 0 <= i < dst.Length && !(at <= i < at + r) ==> dst[i] == old(dst[i])
      ensures r > 0 ==>
                && dst[at..at + r] + Content(incoming) == old(Content(incoming))
                && EndOf(incoming) == old(EndOf(incoming))
      ensures r == 0 ==> incoming == old(incoming) == [] && Content(incoming) == "" && EndOf(incoming) == Eof
      ensures r == -1 && interrupted ==>
                && Content(incoming) == old(Content(incoming))
                && EndOf(incoming) == old(EndOf(incoming))
                && |incoming| < |old(incoming)|
      ensures r == -1 && !interrupted ==> old(Content(incoming)) == "" && old(EndOf(incoming)) == Broken
    {
      if incoming == [] { return 0, false; }
      var event := incoming[0];
      match event {
        case Interrupted =>
          incoming := incoming[1..];
          return -1, true;
        case Failed =>
          incoming := incoming[1..];
          return -1, false;
        case Data(bytes) =>
          r, interrupted := if |bytes| < n then |bytes| else n, false;
          forall i | 0 <= i < r { dst[at + i] := bytes[i]; }
          assert dst[at..at + r] == bytes[..r];
          if r == |bytes| {
            incoming := incoming[1..];
          } else {
            incoming := [Data(bytes[r..])] + incoming[1..];
            assert bytes == bytes[..r] + bytes[r..];
          }
      }
    }

    /** readn: `n` bytes, fewer only at end of file, -1 on an error; never a byte more. */
    method Readn(dst: array<char>, n: nat) returns (r: int)
      requires Valid() && n <= dst.Length
      modifies this`incoming, dst
      ensures Valid()
      ensures r == if |old(Content(incoming))| >= n then n
                   else if old(EndOf(incoming)) == Eof then |old(Content(incoming))| else -1
      ensures r >= 0 ==>
                && dst[..r] + Content(incoming) == old(Content(incoming))
                && EndOf(incoming) == old(EndOf(incoming))
      ensures forall i :: n <= i < dst.Length ==> dst[i] == old(dst[i])
    {
      hide Content, EndOf, RealChunks;
      var nleft := n;
      var at := 0;
      ghost var stream, ending := Content(incoming), EndOf(incoming);
      while nleft > 0
        invariant Valid()
        invariant 0 <= at && 0 <= nleft && at + nleft == n
        invariant dst[..at] + Content(incoming) == stream
        invariant EndOf(incoming) == ending
        invariant forall i :: n <= i < dst.Length ==> dst[i] == old(dst[i])
        decreases nleft, |incoming|
      {
        ghost var before, ahead := dst[..at], Content(incoming);
        var nread, interrupted := Read(dst, at, nleft);
        assert dst[..at] == before;
        if nread < 0 {
          if !interrupted { return -1; }
          nread := 0;
        } else if nread == 0 {
          break;
        } else {
          assert dst[..at + nread] == before + dst[at..at + nread];
          Regrouped(before, dst[at..at + nread], Content(incoming), ahead);
        }
        nleft, at := nleft - nread, at + nread;
      }
      return n - nleft;
    }

    /** writen: all of the message and n, or -1 after a proper prefix of it. */
    method Writen(msg: string) returns (r: int)
      modifies this`outgoing, this`written
      ensures r == if old(Deliver(outgoing, msg)).ok then |msg| else -1
      ensures written == old(written) + old(Deliver(outgoing, msg)).sent
      ensures outgoing == old(Deliver(outgoing, msg)).events
    {
      hide Deliver;
      var todo := msg;
      ghost var done := "";
      while |todo| > 0
        invariant written == old(written) + done
        invariant old(Deliver(outgoing, msg)) == Deliver(outgoing, todo).(sent := done + Deliver(outgoing, todo).sent)
        decreases |outgoing|, |todo|
      {
        DeliverStep(outgoing, todo, done);
        if outgoing == [] {
          written, done, todo := written + todo, done + todo, "";
        } else {
          var event := outgoing[0];
          outgoing := outgoing[1..];
          match event {
            case Again =>
            case Refused =>
              return -1;
            case Accept(room) =>
              var nwritten := if room < |todo| then room else |todo|;
              if nwritten == 0 { return -1; }
              written, done := written + todo[..nwritten], done + todo[..nwritten];
              todo := todo[nwritten..];
          }
        }
      }
      DeliverNothing(outgoing);
      return |msg|;
    }
  }

  lemma DeliverNothing(es: seq<WriteEvent>)
    ensures Deliver(es, "") == Delivery("", true, es)
  {
  }

  /** One write(2) of a message of which `done` is already out. */
  lemma DeliverStep(es: seq<WriteEvent>, todo: string, done: string)
    requires todo != ""
    ensures var d := Deliver(es, todo);
            if es == [] then d == Delivery(todo, true, []) && Deliver(es, "") == Delivery("", true, [])
            else match es[0]
              case Again => d == Deliver(es[1..], todo)
              case Refused => d == Delivery("", false, es[1..])
              case Accept(room) =>
                var k := if room < |todo| then room else |todo|;
                if k == 0 then d == Delivery("", false, es[1..])
                else
                  var more := Deliver(es[1..], todo[k..]);
                  && d.ok == more.ok && d.events == more.events
                  && done + d.sent == (done + todo[..k]) + more.sent
  {
    if es != [] && es[0].Accept? {
      var k := if es[0].room < |todo| then es[0].room else |todo|;
      if k > 0 { Associate(done, todo[..k], Deliver(es[1..], todo[k..]).sent); }
    }
  }

  lemma Associate(a: string, b: string, c: string)
    ensures a + (b + c) == (a + b) + c
  {
  }

  // ---------------------------------------------------------------------------------------
  // readline
  // ---------------------------------------------------------------------------------------

  const MAXLINE: nat := 120

  /** The per-thread read-ahead buffer. `cnt` may be negative after an error, as in the source. */
  class Rline {
    var cnt: int
    var ptr: nat
    const buf: array<char>

    ghost predicate Valid()
      reads this
    {
      buf.Length == MAXLINE && (cnt > 0 ==> ptr + cnt <= buf.Length)
    }

    /** Bytes read from the socket and not yet handed out. */
    ghost function Buffered(): string
      requires Valid()
      reads this, buf
    {
      if cnt <= 0 then "" else buf[ptr..ptr + cnt]
    }

    constructor ()
      ensures Valid() && Buffered() == "" && fresh(buf)
    {
      cnt, ptr := 0, 0;
      buf := new char[MAXLINE];
    }

    /** The refill loop of my_read, entered with an empty buffer. */
    method Refill(fd: Socket)
      requires Valid() && fd.Valid() && cnt <= 0
      modifies this`cnt, this`ptr, buf, fd`incoming
      ensures Valid() && fd.Valid()
      ensures cnt > 0 <==> old(Ahead(fd)) != ""
      ensures cnt > 0 ==> Ahead(fd) == old(Ahead(fd)) && EndOf(fd.incoming) == old(EndOf(fd.incoming))
      ensures cnt == 0 <==> old(Ahead(fd)) == "" && old(EndOf(fd.incoming)) == Eof
      ensures cnt == 0 ==> fd.incoming == [] && Ahead(fd) == "" && EndOf(fd.incoming) == Eof
    {
      hide Content, EndOf, RealChunks;
      ghost var s, e := Content(fd.incoming), EndOf(fd.incoming);
      assert Ahead(fd) == s;
      var got, interrupted := fd.Read(buf, 0, MAXLINE);
      while got == -1 && interrupted
        invariant Valid() && fd.Valid() && -1 <= got <= MAXLINE
        invariant got > 0 ==> buf[0..got] + Content(fd.incoming) == s && EndOf(fd.incoming) == e
        invariant got == 0 ==> s == "" && e == Eof && fd.incoming == []
        invariant got == 0 ==> Content(fd.incoming) == "" && EndOf(fd.incoming) == Eof
        invariant got == -1 && interrupted ==> Content(fd.incoming) == s && EndOf(fd.incoming) == e
        invariant got == -1 && !interrupted ==> s == "" && e == Broken
        decreases if got == -1 && interrupted then 1 + |fd.incoming| else 0
      {
        got, interrupted := fd.Read(buf, 0, MAXLINE);
      }
      cnt := got;
      if cnt > 0 { ptr := 0; }
      assert cnt > 0 ==> Buffered() == buf[0..got];
    }

    /** The last lines of my_read: hand out one byte of a non-empty buffer. */
    method Pop(ghost fd: Socket) returns (c: char)
      requires Valid() && cnt > 0
      modifies this`cnt, this`ptr
      ensures Valid() && old(Ahead(fd)) == [c] + Ahead(fd)
    {
      hide Content, EndOf;
      ghost var ahead := Buffered();
      c := buf[ptr];
      cnt, ptr := cnt - 1, ptr + 1;
      assert ahead == [c] + Buffered();
      Reassociate(c, Buffered(), Content(fd.incoming));
    }

    /** my_read: the next byte of (buffered ++ unread), 0 at end of file, -1 on an error. */
    method MyRead(fd: Socket) returns (rc: int, c: char)
      requires Valid() && fd.Valid()
      modifies this`cnt, this`ptr, buf, fd`incoming
      ensures Valid() && fd.Valid()
      ensures rc == if old(Ahead(fd)) != "" then 1 else if old(EndOf(fd.incoming)) == Eof then 0 else -1
      ensures rc == 1 ==> old(Ahead(fd)) == [c] + Ahead(fd) && EndOf(fd.incoming) == old(EndOf(fd.incoming))
      ensures rc == 0 ==> Ahead(fd) == "" && EndOf(fd.incoming) == Eof && cnt <= 0 && fd.incoming == []
    {
      if cnt > 0 { NotEmpty(fd); }
      hide Content, EndOf, RealChunks, Ahead, Buffered, Socket.Valid;
      c := NUL;
      if cnt <= 0 {
        Refill(fd);
        if cnt < 0 { return -1, c; }
        if cnt == 0 { return 0, c; }
      }
      c := Pop(fd);
      return 1, c;
    }

    lemma NotEmpty(fd: Socket)
      requires Valid() && cnt > 0
      ensures Ahead(fd) != ""
    {
      assert Ahead(fd)[0] == buf[ptr];
    }

    /** readline: exactly TakeLine of (buffered ++ unread), whatever the chunking was. */
    method Readline(fd: Socket, dst: array<char>, maxlen: nat) returns (n: int, ghost t: Taken)
      requires Valid() && fd.Valid() && 0 < maxlen <= dst.Length && dst != buf
      modifies this`cnt, this`ptr, buf, fd`incoming, dst
      ensures Valid() && fd.Valid()
      ensures t == TakeLine(old(Ahead(fd)), old(EndOf(fd.incoming)), maxlen) && n == Returned(t)
      ensures t.Got? ==> |t.text| < dst.Length && Stored(dst[..], old(dst[..]), t.text)
      ensures t.Got? ==> old(Ahead(fd)) == t.text + Ahead(fd) && EndOf(fd.incoming) == old(EndOf(fd.incoming))
      ensures t.Nothing? ==> dst[..] == old(dst[..]) && cnt <= 0 && fd.incoming == []
    {
      hide Content, EndOf, RealChunks, TakeLine, LinePrefix, Collecting, Buffered, Ahead, Terminated;
      ghost var s, e, before := Ahead(fd), EndOf(fd.incoming), dst[..];
      ghost var text := "";
      StartCollecting(s, maxlen);
      var at := 0;
      n := 1;
      while n < maxlen
        invariant Valid() && fd.Valid()
        invariant 1 <= n <= maxlen && |text| == at == n - 1
        invariant Written(dst[..], before, text)
        invariant EndOf(fd.incoming) == e && Collecting(s, text, Ahead(fd), maxlen)
      {
        var rc, c := MyRead(fd);
        if rc == 1 {
          TakeOne(s, e, text, c, Ahead(fd), maxlen);
          dst[at] := c;
          at := at + 1;
          text := text + [c];
          if c == LF { break; }
          n := n + 1;
        } else if rc == 0 {
          CollectedAll(s, e, text, maxlen);
          if n == 1 {
            t := Nothing;
            return 0, t;
          }
          break;
        } else {
          CollectedAll(s, e, text, maxlen);
          t := Error;
          return -1, t;
        }
      }
      if n == maxlen { CollectedFull(s, e, text, Ahead(fd), maxlen); }
      t := Got(text);
      dst[at] := NUL;
    }

    /** Everything the socket will still deliver: buffered, then unread. */
    ghost function Ahead(fd: Socket): string
      requires Valid()
      reads this, buf, fd`incoming
    {
      Buffered() + Content(fd.incoming)
    }
  }

  /** The buffer after `text` was stored at its start. */
  predicate Written(after: string, before: string, text: string) {
    && |after| == |before| && |text| <= |after|
    && (forall i :: 0 <= i < |text| ==> after[i] == text[i])
    && (forall i :: |text| <= i < |after| ==> after[i] == before[i])
  }

  /** The same with a NUL after the text. */
  predicate Stored(after: string, before: string, text: string) {
    && |after| == |before| && |text| < |after|
    && (forall i :: 0 <= i < |text| ==> after[i] == text[i])
    && after[|text|] == NUL
    && (forall i :: |text| < i < |after| ==> after[i] == before[i])
  }
}
