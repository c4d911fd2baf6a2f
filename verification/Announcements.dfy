/** A form that cannot be reopened after its FILENAME line was sent (project2/src/myfuncs.c,
    apply_form called by apply_forms) leaves its name on the wire. What that does to the forms
    after it, exactly. */
module Announcements {
  import opened Bytes
  import opened Streams
  import opened Records
  import opened Server
  import opened Framing
  import opened Protocol
  import opened ProtocolInvariant
  import opened ProtocolClient
  import opened ProtocolServer

  /** A FILENAME line takes 30 bytes of a record: one name opens a body, 34 more fit into it. */
  const NAME_LENGTH: nat := 19
  const ROOM: nat := 35

  predicate StandardNames(names: seq<string>) {
    forall k :: 0 <= k < |names| ==> GoodName(names[k]) && |names[k]| == NAME_LENGTH
  }

  lemma {:induction false} NamesSize(names: seq<string>)
    requires StandardNames(names)
    ensures |Pack(NameLines(names))| == 30 * |names|
  {
    if names == [] {
      assert NameLines(names) == [];
    } else {
      var front, last := names[..|names| - 1], names[|names| - 1];
      NamesSize(front);
      assert names == front + [last];
      NamesSnoc(front, last);
      PackSnoc(NameLines(front), NameLine(last));
    }
  }

  lemma FoldSnoc(ms: seq<string>, m: string)
    ensures Fold(ms + [m]) == if Listening(Fold(ms)) then OnLine(Fold(ms), m, GOOD_LUCK).mode else Fold(ms)
  {
    var all := ms + [m];
    assert all[..|all| - 1] == ms;
    hide OnLine, Listening;
  }

  /** One more name announced, with no form after it. */
  lemma FoldName(names: seq<string>, name: string)
    requires StandardNames(names + [name])
    ensures var m, m' := Fold(NameLines(names)), Fold(NameLines(names + [name]));
            && (m.Command? ==> m' == Body(name, "", ""))
            && (m.Undefined? ==> m' == Undefined)
            && (m.Body? && |m.name| >= 4 ==>
                  m' == if |m.record| >= MAXINFOSIZE then Command(m.name)
                        else if |m.record| + 30 > MAXINFOSIZE then Undefined
                        else Body(m.name, m.text + NameLine(name), m.record + (NameLine(name) + [NUL])))
  {
    assert (names + [name])[|names|] == name;
    assert |NameLine(name)| + 1 == 30;
    NamesSnoc(names, name);
    FoldSnoc(NameLines(names), NameLine(name));
    var m := Fold(NameLines(names));
    hide Fold, NameLines, NameLine;
    if m.Command? {
      CommandOpens(m.name, name, GOOD_LUCK);
    } else if m.Body? && |m.name| >= 4 {
      BodySwallowsName(m.name, m.text, m.record, name, GOOD_LUCK);
    }
    hide OnCommand, OnBody;
  }

  /** Where a run of announced names leads: the first opens a body, and the body swallows the others
      until one does not fit into the record buffer any more. */
  predicate LedTo(names: seq<string>, m: Mode) {
    if names == [] then m.Command?
    else if |names| > ROOM then m == Undefined
    else m == Body(names[0], Flatten(NameLines(names[1..])), Pack(NameLines(names[1..]))) && |m.name| >= 4
  }

  lemma {:induction false} FoldNames(names: seq<string>)
    requires StandardNames(names)
    ensures LedTo(names, Fold(NameLines(names)))
    decreases |names|
  {
    if names == [] {
      assert NameLines(names) == [];
    } else {
      var front, last := names[..|names| - 1], names[|names| - 1];
      assert names == front + [last];
      StandardFront(front, last);
      FoldNames(front);
      FoldName(front, last);
      var m := Fold(NameLines(front));
      hide Fold, LedTo, StandardNames, NameLines, NameLine;
      LedFurther(front, last, m);
    }
  }

  lemma StandardFront(front: seq<string>, last: string)
    requires StandardNames(front + [last])
    ensures StandardNames(front) && GoodName(last) && |last| >= 4
  {
    forall k | 0 <= k < |front| ensures GoodName(front[k]) && |front[k]| == NAME_LENGTH {
      assert (front + [last])[k] == front[k];
    }
    assert (front + [last])[|front|] == last;
    hide GoodName;
  }

  lemma LedFurther(front: seq<string>, last: string, m: Mode)
    requires StandardNames(front) && |last| >= 4 && LedTo(front, m)
    ensures m.Command? || m.Undefined? || (m.Body? && |m.name| >= 4)
    ensures LedTo(front + [last],
                  if m.Command? then Body(last, "", "")
                  else if m.Undefined? then Undefined
                  else if |m.record| >= MAXINFOSIZE then Command(m.name)
                  else if |m.record| + 30 > MAXINFOSIZE then Undefined
                  else Body(m.name, m.text + NameLine(last), m.record + (NameLine(last) + [NUL])))
  {
    hide StandardNames, NameLines, NameLine, Flatten, Pack;
    if front == [] {
      OpensBody(front + [last]);
    } else {
      SwallowedSize(front);
      SwallowsOne(front, last);
    }
  }

  lemma SwallowedSize(names: seq<string>)
    requires StandardNames(names) && names != []
    ensures |Pack(NameLines(names[1..]))| == 30 * (|names| - 1)
  {
    hide Pack, NameLines;
    NamesSize(names[1..]);
  }

  lemma OpensBody(names: seq<string>)
    requires |names| == 1
    ensures NameLines(names[1..]) == [] && Flatten([]) == "" && Pack([]) == ""
  {
  }

  lemma SwallowsOne(front: seq<string>, last: string)
    requires front != []
    ensures var names := front + [last];
            && Flatten(NameLines(names[1..])) == Flatten(NameLines(front[1..])) + NameLine(last)
            && Pack(NameLines(names[1..])) == Pack(NameLines(front[1..])) + (NameLine(last) + [NUL])
  {
    var names := front + [last];
    assert names[1..] == front[1..] + [last];
    NamesSnoc(front[1..], last);
    FlattenSnoc(NameLines(front[1..]), NameLine(last));
    PackSnoc(NameLines(front[1..]), NameLine(last));
  }

  /** Lines after an open body either all go into it or none of it is ever stored. */
  predicate Carries(m: Mode, m': Mode, lines: seq<string>) {
    m'.Body? && |m'.name| >= 4 ==> m.Body? && m' == Body(m.name, m.text + Flatten(lines), m.record + Pack(lines))
  }

  lemma {:induction false} FoldLines(ms: seq<string>, lines: seq<string>)
    requires forall k :: 0 <= k < |lines| ==> PlainLine(lines[k])
    ensures Carries(Fold(ms), Fold(ms + lines), lines)
    decreases |lines|
  {
    hide Fold, OnLine, PlainLine;
    if lines == [] {
      assert ms + lines == ms;
      CarriesNothing(Fold(ms));
    } else {
      var front, last := lines[..|lines| - 1], lines[|lines| - 1];
      FoldLines(ms, front);
      assert lines == front + [last];
      assert ms + lines == ms + front + [last];
      FoldSnoc(ms + front, last);
      LineTurn(Fold(ms + front), last);
      CarriesOne(Fold(ms), Fold(ms + front), front, last, Fold(ms + lines));
    }
  }

  lemma CarriesNothing(m: Mode)
    ensures Carries(m, m, [])
  {
    if m.Body? { assert m.text + "" == m.text && m.record + "" == m.record; }
  }

  lemma CarriesOne(m: Mode, m1: Mode, front: seq<string>, last: string, m2: Mode)
    requires Carries(m, m1, front)
    requires m2.Body? && |m2.name| >= 4 ==>
               m1.Body? && |m1.name| >= 4 && m2 == Body(m1.name, m1.text + last, m1.record + (last + [NUL]))
    ensures Carries(m, m2, front + [last])
  {
    FlattenSnoc(front, last);
    PackSnoc(front, last);
    hide Flatten, Pack;
  }

  lemma LineTurn(m: Mode, line: string)
    requires PlainLine(line)
    ensures Listening(m) ==>
              var t := OnLine(m, line, GOOD_LUCK).mode;
              t.Body? ==> m.Body? && t == Body(m.name, m.text + line, m.record + (line + [NUL]))
    ensures !Listening(m) && m.Body? ==> |m.name| < 4
  {
    if m.Command? { CommandRefusesLine(m.name, line, GOOD_LUCK); }
    else if Listening(m) { BodyTakesLine(m.name, m.text, m.record, line, GOOD_LUCK); }
    hide OnBody, OnCommand;
  }

  // ---------------------------------------------------------------------------------------
  // Right and wrong puts
  // ---------------------------------------------------------------------------------------

  /** The put is the form announced last: its lines, in both stores, under its own key. */
  predicate Faithful(c: Client, e: Entry) {
    e.names != [] &&
    var n := e.names[|e.names| - 1];
    && n in c.forms && |n| >= 4
    && e.key == KeyOf(n) && e.record == Pack(c.forms[n]) && e.text == Flatten(c.forms[n])
  }

  /** A form announced right after an acknowledgement is always put rightly, whatever the
      server's files do. */
  lemma FaithfulAlone(cfg: Config, e: Entry)
    requires GoodEntry(cfg, e) && |e.names| == 1
    ensures Faithful(cfg.clients[e.client], e)
  {
    var c := cfg.clients[e.client];
    var j: nat :| j < |e.names| && PutFrom(c, e, j);
    assert e.names[j + 1..] == [];
    assert NameLines([]) == [] && [] + LinesOf(c, e.names[0]) == LinesOf(c, e.names[0]);
    hide Flatten, Pack, PutRegularly;
  }

  lemma UnfaithfulIfSwallowed(c: Client, e: Entry, m: Mode)
    requires |e.names| > 1 && StandardNames(e.names) && m.Body?
    requires LedTo(e.names, m) && Carries(m, Body(m.name, e.text, e.record), LinesOf(c, e.names[|e.names| - 1]))
    ensures !Faithful(c, e)
  {
    hide Flatten, Pack, StandardNames, NameLines;
    SwallowedSize(e.names);
  }

  /** With working files on the server a put is right exactly when no name was announced in vain
      before its own. */
  lemma ExactlyWhen(cfg: Config, c: Client, e: Entry)
    requires e.client < |cfg.clients| && c == cfg.clients[e.client]
    requires GoodEntry(cfg, e) && FormFiles(c.forms) && StandardNames(e.names) && e.diskOk
    ensures Faithful(c, e) <==> |e.names| == 1
  {
    hide Fold, NameLines, FormFiles, LinesOf, Faithful, GoodEntry, StandardNames, Carries, LedTo, PutRegularly;
    if |e.names| == 1 {
      FaithfulAlone(cfg, e);
    } else {
      EntryParts(cfg, c, e);
      var lines, ms := LinesOf(c, e.names[|e.names| - 1]), NameLines(e.names);
      LinesArePlain(c, e.names[|e.names| - 1]);
      FoldNames(e.names);
      FoldLines(ms, lines);
      RegularIs(c, e);
      CarriesOn(e.names, Fold(ms), Fold(ms + lines), lines);
      UnfaithfulIfSwallowed(c, e, Fold(ms));
    }
  }

  lemma EntryParts(cfg: Config, c: Client, e: Entry)
    requires e.client < |cfg.clients| && c == cfg.clients[e.client] && GoodEntry(cfg, e)
    ensures e.names != [] && e.names[|e.names| - 1] in c.forms && (e.diskOk ==> PutRegularly(c, e))
  {
    hide PutRegularly, PutFrom, Entitled, CollegeNumber;
  }

  lemma RegularIs(c: Client, e: Entry)
    requires e.names != [] && PutRegularly(c, e)
    ensures var m := Fold(NameLines(e.names) + LinesOf(c, e.names[|e.names| - 1]));
            m.Body? && |m.name| >= 4 && m == Body(m.name, e.text, e.record) && e.key == KeyOf(m.name)
  {
    hide Fold, NameLines, KeyOf;
  }

  /** Only an open body can still be one after the lines. */
  lemma CarriesOn(names: seq<string>, m: Mode, m': Mode, lines: seq<string>)
    requires LedTo(names, m) && Carries(m, m', lines) && m'.Body? && |m'.name| >= 4
    ensures m.Body? && m'.name == m.name
  {
    hide Flatten, Pack, NameLines;
  }

  lemma LinesArePlain(c: Client, name: string)
    requires FormFiles(c.forms) && name in c.forms
    ensures forall k :: 0 <= k < |LinesOf(c, name)| ==> PlainLine(LinesOf(c, name)[k])
  {
    hide PlainLine;
  }
}
