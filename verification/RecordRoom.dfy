/** Names announced in a row and the lines of the form after them: when they overrun the record buffer of
    the server (server/eduserver.c, the copy into regbuf), exactly. */
module RecordRoom {
  import opened Bytes
  import opened Streams
  import opened Records
  import opened Server
  import opened Framing
  import opened Protocol
  import opened ProtocolInvariant
  import opened ProtocolClient
  import opened ProtocolServer
  import opened Announcements

  /** Bytes of record that names announced in a row and lines after them come to. */
  function Amount(names: seq<string>, lines: seq<string>): nat
    requires names != []
  {
    30 * (|names| - 1) + |Pack(lines)|
  }

  /** At some line the buffer is full to the last byte, and the guard gives the file up. */
  predicate GivenUp(names: seq<string>, lines: seq<string>)
    requires names != []
  {
    exists j :: 0 <= j < |lines| && Amount(names, lines[..j]) == MAXINFOSIZE
  }

  /** Names announced in a row, and so many lines of the form announced last, do not fit. */
  predicate Overfull(names: seq<string>, lines: seq<string>) {
    names != [] && (|names| > ROOM || (Amount(names, lines) > MAXINFOSIZE && !GivenUp(names, lines)))
  }

  /** Where names and lines lead. */
  predicate FormLedTo(names: seq<string>, lines: seq<string>, m: Mode)
    requires names != []
  {
    if Overfull(names, lines) then m == Undefined
    else if GivenUp(names, lines) then m.Command? || m.Stopped?
    else m == Body(names[0], Flatten(NameLines(names[1..])) + Flatten(lines),
                   Pack(NameLines(names[1..])) + Pack(lines))
  }

  lemma PackOfFront(lines: seq<string>, j: nat)
    requires j <= |lines|
    ensures |Pack(lines[..j])| <= |Pack(lines)|
  {
    if j < |lines| { PackMonotone(lines, j); } else { assert lines[..j] == lines; }
  }

  lemma OneMoreLine(names: seq<string>, front: seq<string>, last: string)
    requires names != []
    ensures var all := front + [last];
            && Amount(names, all) == Amount(names, front) + |last| + 1
            && (GivenUp(names, all) <==> GivenUp(names, front) || Amount(names, front) == MAXINFOSIZE)
            && (GivenUp(names, front) ==> Amount(names, front) > MAXINFOSIZE)
  {
    var all := front + [last];
    PackSnoc(front, last);
    assert all[..|front|] == front;
    assert forall j :: 0 <= j < |front| ==> all[..j] == front[..j];
    forall j | 0 <= j < |front| ensures Amount(names, front[..j]) < Amount(names, front) {
      PackMonotone(front, j);
    }
    hide Pack;
    if GivenUp(names, front) {
      var j :| 0 <= j < |front| && Amount(names, front[..j]) == MAXINFOSIZE;
      assert Amount(names, all[..j]) == MAXINFOSIZE;
    }
    if Amount(names, front) == MAXINFOSIZE { assert Amount(names, all[..|front|]) == MAXINFOSIZE; }
  }

  lemma FormFurther(names: seq<string>, front: seq<string>, last: string, m: Mode)
    requires StandardNames(names) && names != [] && |names[0]| >= 4 && PlainLine(last) && FormLedTo(names, front, m)
    ensures FormLedTo(names, front + [last], if Listening(m) then OnLine(m, last, GOOD_LUCK).mode else m)
  {
    hide StandardNames, NameLines, Flatten, Pack, PlainLine, GivenUp, OnCommand, OnBody;
    OneMoreLine(names, front, last);
    SwallowedSize(names);
    FlattenSnoc(front, last);
    PackSnoc(front, last);
    if m.Command? {
      CommandRefusesLine(m.name, last, GOOD_LUCK);
    } else if m.Body? {
      BodyTakesLine(m.name, m.text, m.record, last, GOOD_LUCK);
      Regroup(Flatten(NameLines(names[1..])), Flatten(front), last);
      Regroup(Pack(NameLines(names[1..])), Pack(front), last + [NUL]);
    }
  }

  /** Where names announced in a row and lines after them lead, with working files. Names and lines
      that fit are one open body under the first name; where the buffer is hit exactly the file is
      given up; and everything else is an overrun. */
  lemma {:induction false} FoldForm(names: seq<string>, lines: seq<string>)
    requires StandardNames(names) && names != [] && forall k :: 0 <= k < |lines| ==> PlainLine(lines[k])
    ensures FormLedTo(names, lines, Fold(NameLines(names) + lines))
    decreases |lines|
  {
    FirstIsLong(names);
    if lines == [] {
      FoldNames(names);
      SwallowedSize(names);
      assert NameLines(names) + lines == NameLines(names);
      assert Flatten([]) == "" && Pack([]) == "";
      hide Fold, NameLines, Flatten, Pack, StandardNames;
      NothingAdded(Flatten(NameLines(names[1..])), Pack(NameLines(names[1..])));
    } else {
      var front, last := lines[..|lines| - 1], lines[|lines| - 1];
      FoldForm(names, front);
      assert lines == front + [last];
      assert NameLines(names) + lines == (NameLines(names) + front) + [last];
      FoldSnoc(NameLines(names) + front, last);
      hide Fold, FormLedTo, StandardNames, NameLines, PlainLine, OnLine, Listening;
      FormFurther(names, front, last, Fold(NameLines(names) + front));
    }
  }

  lemma NothingAdded(text: string, record: string)
    ensures text + "" == text && record + "" == record
  {
  }

  lemma FirstIsLong(names: seq<string>)
    requires StandardNames(names) && names != []
    ensures |names[0]| >= 4
  {
    hide GoodName;
  }

  /** When the record buffer is overrun, exactly: when more names were announced in a row than have
      room, or when names and lines come to more than the buffer without filling it to the byte at
      the end of a line before. */
  lemma OverrunExactly(names: seq<string>, lines: seq<string>)
    requires StandardNames(names) && forall k :: 0 <= k < |lines| ==> PlainLine(lines[k])
    ensures Fold(NameLines(names) + lines) == Undefined <==> Overfull(names, lines)
  {
    hide Fold, StandardNames, NameLines, PlainLine, Overfull, GivenUp;
    if names == [] {
      NoNames(lines);
    } else {
      FoldForm(names, lines);
    }
  }

  /** Lines without a name never open a body. */
  lemma {:induction false} NoNames(lines: seq<string>)
    requires forall k :: 0 <= k < |lines| ==> PlainLine(lines[k])
    ensures var m := Fold(NameLines([]) + lines); (m.Command? || m.Stopped?) && !Overfull([], lines)
    decreases |lines|
  {
    if lines == [] {
      assert NameLines([]) + lines == [];
    } else {
      var front, last := lines[..|lines| - 1], lines[|lines| - 1];
      NoNames(front);
      assert lines == front + [last];
      assert NameLines([]) + lines == (NameLines([]) + front) + [last];
      FoldSnoc(NameLines([]) + front, last);
      hide Fold, PlainLine, OnCommand, NameLines;
      var m := Fold(NameLines([]) + front);
      if m.Command? { CommandRefusesLine(m.name, last, GOOD_LUCK); }
    }
  }
}
