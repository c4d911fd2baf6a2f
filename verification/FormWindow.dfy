/** Loading a form file back into the editor window (project2/src/editor.c, load_student_info),
    and what of a form survives being printed and loaded. */
module FormWindow {
  import opened Bytes
  import opened Streams
  import opened Records
  import opened Framing
  import opened Forms
  import opened FormFile

  /** What one line of the file puts into the window: one box, or the two or three boxes a value
      is split over at '-'. */
  datatype Slot = One(text: string) | Two(first: string, second: string) | Three(day: string, month: string,
      year: string)

  const SLOTS: nat := 37
  const BIRTH: nat := 7
  const SECTION: nat := 9
  const SESSION: nat := 16
  const PHOTO: nat := 36

  // ---------------------------------------------------------------------------------------
  // One line
  // ---------------------------------------------------------------------------------------

  /** sscanf(line, "%s %[^\r\n]", name, value) into cleared buffers. */
  function ValueOf(line: string): string {
    var c := SkipSpace(CStr(line));
    var name := Word(c);
    if name == "" || |name| > |c| then "" else Until(SkipSpace(c[|name|..]), "\r\n")
  }

  /** "%[^-]-%[^-]-%[^-]" and "%[^\n-]-%[^\n-]" into cleared buffers: the conversion stops at
      the first piece that is empty. */
  function Pieces(s: string): (string, string, string) {
    var a := Until(s, "-");
    if a == "" || |a| >= |s| then (a, "", "")
    else
      var s1 := s[|a| + 1..];
      var b := Until(s1, "-");
      if b == "" || |b| >= |s1| then (a, b, "") else (a, b, Until(s1[|b| + 1..], "-"))
  }

  function SlotOf(k: nat, value: string, before: Slot): Slot {
    if k == BIRTH then var (a, b, c) := Pieces(value); Three(a, b, c)
    else if k == SESSION then var (a, b, _) := Pieces(value); Two(a, b)
    else if k == SECTION && value == "" then One(" ")
    else if k == PHOTO && value == "" then before
    else One(value)
  }

  /** Line `i` of the file, counted from 1, shown in the window. */
  function ShowLine(slots: seq<Slot>, i: nat, line: string): (r: seq<Slot>)
    requires |slots| == SLOTS
    ensures |r| == SLOTS
  {
    if 3 <= i < 3 + SLOTS then slots[i - 3 := SlotOf(i - 3, ValueOf(line), slots[i - 3])] else slots
  }

  function ShowLines(slots: seq<Slot>, i: nat, lines: seq<string>): (r: seq<Slot>)
    requires |slots| == SLOTS
    ensures |r| == SLOTS
    decreases |lines|
  {
    if lines == [] then slots else ShowLines(ShowLine(slots, i, lines[0]), i + 1, lines[1..])
  }

  function Drop2(lines: seq<string>): seq<string> {
    if |lines| <= 2 then [] else lines[2..]
  }

  class Window {
    var slots: seq<Slot>

    constructor ()
      ensures slots == seq(SLOTS, _ => One(""))
    {
      slots := seq(SLOTS, _ => One(""));
    }

    /** load_student_info: the header and the blank line are skipped, then every fgets line goes
        to the boxes its number stands for. */
    method LoadStudentInfo(file: string)
      requires |slots| == SLOTS
      modifies this
      ensures slots == ShowLines(old(slots), 3, Drop2(Split(file, Eof, MAXLINE)))
    {
      hide ShowLine, TakeLine;
      ghost var all := Split(file, Eof, MAXLINE);
      var fp := file;
      var i := 0;
      while i < 2
        invariant 0 <= i <= 2 && slots == old(slots)
        invariant Split(fp, Eof, MAXLINE) == if i <= |all| then all[i..] else []
      {
        NextLine(fp);
        fp := AfterLine(fp);
        i := i + 1;
      }
      assert Split(fp, Eof, MAXLINE) == Drop2(all);
      var t := TakeLine(fp, Eof, MAXLINE);
      while t.Got?
        invariant |slots| == SLOTS && i >= 2 && t == TakeLine(fp, Eof, MAXLINE)
        invariant ShowLines(old(slots), 3, Drop2(all)) == ShowLines(slots, i + 1, Split(fp, Eof, MAXLINE))
        decreases |fp|
      {
        NextLine(fp);
        i := i + 1;
        slots := ShowLine(slots, i, t.text);
        fp := AfterLine(fp);
        t := TakeLine(fp, Eof, MAXLINE);
      }
    }
  }

  /** The file after one fgets. */
  function AfterLine(s: string): string {
    var t := TakeLine(s, Eof, MAXLINE);
    if t.Got? && |t.text| <= |s| then s[|t.text|..] else s
  }

  lemma NextLine(s: string)
    ensures var t := TakeLine(s, Eof, MAXLINE);
            if t.Got? then
              && |AfterLine(s)| < |s|
              && Split(s, Eof, MAXLINE) == [t.text] + Split(AfterLine(s), Eof, MAXLINE)
            else Split(s, Eof, MAXLINE) == [] && AfterLine(s) == s
  {
    LinePrefixIs(s, MAXLINE - 1);
  }

  // ---------------------------------------------------------------------------------------
  // What the window shows of a printed form
  // ---------------------------------------------------------------------------------------

  lemma {:induction false} SkipBlanks(v: string, tail: string)
    requires tail != "" && forall i :: 0 <= i < |tail| ==> IsSpace(tail[i])
    ensures SkipSpace(v + tail) == if SkipSpace(v) == "" then "" else SkipSpace(v) + tail
  {
    if v == "" {
      assert v + tail == tail;
      AllBlank(tail);
    } else if IsSpace(v[0]) {
      assert (v + tail)[1..] == v[1..] + tail;
      SkipBlanks(v[1..], tail);
    }
  }

  lemma {:induction false} AllBlank(s: string)
    requires forall i :: 0 <= i < |s| ==> IsSpace(s[i])
    ensures SkipSpace(s) == ""
  {
    if s != "" { AllBlank(s[1..]); }
  }

  lemma {:induction false} SkipIsSuffix(s: string)
    requires Clean(s)
    ensures Clean(SkipSpace(s)) && |SkipSpace(s)| <= |s|
    ensures SkipSpace(s) == s <==> s == "" || !IsSpace(s[0])
  {
    if s != "" && IsSpace(s[0]) {
      SkipIsSuffix(s[1..]);
    }
  }

  lemma ValueText(v: string)
    requires Clean(v)
    ensures Until(SkipSpace(" " + v + "\n"), "\r\n") == SkipSpace(v)
  {
    SkipIsSuffix(v);
    SkipBlanks(v, "\n");
    FirstBlank(v + "\n");
    assert " " + (v + "\n") == " " + v + "\n";
    if SkipSpace(v) != "" { UntilExact(SkipSpace(v), "\n", "\r\n"); }
    hide SkipSpace;
  }

  lemma TagIsWord(tag: string, rest: string)
    requires SafeLabel(tag)
    ensures Word(SkipSpace(tag + (" " + rest))) == tag && SkipSpace(tag + (" " + rest)) == tag + (" " + rest)
  {
    var line := tag + (" " + rest);
    assert line[0] == tag[0];
    assert SkipSpace(line) == line;
    hide SkipSpace;
    WordExact(tag, " " + rest);
  }

  /** The value printed on a line comes back without its leading white space. */
  lemma ValueOfPrint(p: Field)
    requires SafeField(p)
    ensures ValueOf(Print(p)) == SkipSpace(p.value)
  {
    hide SkipSpace, CStr, Word, PlainLine, Until, SafeLabel, Clean;
    var line := Print(p);
    PrintIsCStr(p);
    var rest := p.value + "\n";
    assert line == p.tag + (" " + rest);
    TagIsWord(p.tag, rest);
    LabelNotEmpty(p.tag);
    assert line[|p.tag|..] == " " + rest;
    assert " " + rest == " " + p.value + "\n";
    ValueText(p.value);
  }

  lemma LabelNotEmpty(tag: string)
    requires SafeLabel(tag)
    ensures tag != ""
  {
  }

  lemma PrintIsCStr(p: Field)
    requires SafeField(p)
    ensures CStr(Print(p)) == Print(p)
  {
    SafeLine(p);
    CStrExact(Print(p), "");
    assert Print(p) + "" == Print(p);
  }

  lemma FirstBlank(s: string)
    ensures SkipSpace(" " + s) == SkipSpace(s)
  {
    assert (" " + s)[1..] == s;
  }

  lemma ShowCons(slots: seq<Slot>, i: nat, p: Field, ps: seq<Field>)
    requires |slots| == SLOTS
    ensures ShowLines(slots, i, PrintAll([p] + ps)) == ShowLines(ShowLine(slots, i, Print(p)), i + 1, PrintAll(ps))
  {
    assert ([p] + ps)[1..] == ps;
    assert PrintAll([p] + ps) == [Print(p)] + PrintAll(ps);
    hide Print, ShowLine;
    assert PrintAll([p] + ps)[1..] == PrintAll(ps);
  }

  lemma ShowLineAt(slots: seq<Slot>, j: nat, p: Field, k: nat)
    requires |slots| == SLOTS && j < SLOTS && SafeField(p) && k < SLOTS
    ensures ShowLine(slots, 3 + j, Print(p))[k] == if k == j then SlotOf(k, SkipSpace(p.value), slots[k]) else slots[k]
  {
    hide ValueOf, Print, SlotOf, SkipSpace, SafeField;
    ValueOfPrint(p);
  }

  /** One box after a run of labelled lines was shown. */
  lemma {:induction false} ShowAt(slots: seq<Slot>, j: nat, ps: seq<Field>, k: nat)
    requires |slots| == SLOTS && j + |ps| <= SLOTS && SafeFields(ps) && k < SLOTS
    ensures ShowLines(slots, 3 + j, PrintAll(ps))[k]
         == if j <= k < j + |ps| then SlotOf(k, SkipSpace(ps[k - j].value), slots[k]) else slots[k]
    decreases |ps|
  {
    if ps == [] {
      assert PrintAll(ps) == [];
      ShowNothing(slots, 3 + j);
    } else {
      hide ValueOf, Print, SlotOf, SkipSpace, SafeField, ShowLines, ShowLine, PrintAll;
      assert ps == [ps[0]] + ps[1..];
      ShowCons(slots, 3 + j, ps[0], ps[1..]);
      assert ps[0] in ps;
      ShowLineAt(slots, j, ps[0], k);
      ShowAt(ShowLine(slots, 3 + j, Print(ps[0])), j + 1, ps[1..], k);
    }
  }

  lemma ShowNothing(slots: seq<Slot>, i: nat)
    requires |slots| == SLOTS
    ensures ShowLines(slots, i, []) == slots
  {
  }

  /** What the window shows after loading the file of a form. */
  function Shown(f: Form, before: seq<Slot>): (r: seq<Slot>)
    requires Fits(f) && |before| == SLOTS && |Fields(f)| == SLOTS
    ensures |r| == SLOTS
  {
    seq(SLOTS, k requires 0 <= k < SLOTS => SlotOf(k, SkipSpace(Fields(f)[k].value), before[k]))
  }

  /** Loading what verify_form printed: every box shows its own field, with leading white space
      gone, a blank section restored and the two dates split again. */
  lemma LoadShows(f: Form, sent: int, before: seq<Slot>)
    requires Fits(f) && |before| == SLOTS
    ensures |Fields(f)| == SLOTS
    ensures ShowLines(before, 3, Drop2(Split(FormText(f, sent), Eof, MAXLINE))) == Shown(f, before)
  {
    FieldsSafe(f);
    hide Fields, Fits, Split, ShowLines, PrintAll, SafeFields, Sendable, Flatten, Shown, FormLines, Pack;
    FormIsSendable(f, sent);
    LinesAreSplit(FormLines(f, sent));
    FormLinesFrom2(f, sent);
    ShownIs(f, before);
  }

  lemma ShownIs(f: Form, before: seq<Slot>)
    requires Fits(f) && |before| == SLOTS && |Fields(f)| == SLOTS && SafeFields(Fields(f))
    ensures ShowLines(before, 3, PrintAll(Fields(f))) == Shown(f, before)
  {
    hide Fields, Fits, SlotOf, SkipSpace, ShowLines, PrintAll, SafeFields, Shown;
    FitsNumbers(f);
    var ps := Fields(f);
    var r, s := ShowLines(before, 3, PrintAll(ps)), Shown(f, before);
    forall k | 0 <= k < SLOTS ensures r[k] == s[k] {
      ShowAt(before, 0, ps, k);
      ShownAt(f, before, k);
    }
    assert r == s;
  }

  lemma ShownAt(f: Form, before: seq<Slot>, k: nat)
    requires Fits(f) && |before| == SLOTS && |Fields(f)| == SLOTS && k < SLOTS
    ensures Shown(f, before)[k] == SlotOf(k, SkipSpace(Fields(f)[k].value), before[k])
  {
    hide Fields, Fits, SlotOf, SkipSpace;
  }

  lemma FormLinesFrom2(f: Form, sent: int)
    requires Fits(f) && |FormLines(f, sent)| == TXTLINES
    ensures Drop2(FormLines(f, sent)) == PrintAll(Fields(f))
  {
    hide Fields, PrintAll, HeaderLine, HeaderOf, Fits;
  }

  /** A sendable text splits into exactly its lines. */
  lemma LinesAreSplit(lines: seq<string>)
    requires Sendable(lines)
    ensures Split(Flatten(lines), Eof, MAXLINE) == lines
  {
    hide Pack, Split, Flatten, WholeLine;
    forall p | p in lines ensures Piece(p, MAXLINE) {
      var i :| 0 <= i < |lines| && lines[i] == p;
      PlainIsPiece(lines[i]);
    }
    forall k | 0 <= k < |lines| - 1 ensures Terminated(lines[k]) { PlainIsPiece(lines[k]); }
    SplitIsUnique(Flatten(lines), MAXLINE, lines);
  }

  lemma PlainIsPiece(line: string)
    requires PlainLine(line)
    ensures Piece(line, MAXLINE) && Terminated(line)
  {
  }

  // ---------------------------------------------------------------------------------------
  // What survives the round trip
  // ---------------------------------------------------------------------------------------

  /** The window's boxes as verify_form would collect them again. */
  function Collect(slots: seq<Slot>): Form
    requires |slots| == SLOTS && slots[BIRTH].Three? && slots[SESSION].Two?
    requires forall k :: 0 <= k < SLOTS && k != BIRTH && k != SESSION ==> slots[k].One?
  {
    Form(slots[0].text, slots[1].text, slots[2].text, slots[3].text, slots[4].text, slots[5].text,
         slots[6].text, slots[7].day, slots[7].month, slots[7].year, slots[8].text, slots[9].text,
         slots[10].text, slots[11].text, slots[12].text, slots[13].text, slots[14].text, slots[15].text,
         slots[16].first, slots[16].second, slots[17].text, slots[18].text,
         seq(NUM_TOTAL_SUB, i requires 0 <= i < NUM_TOTAL_SUB => slots[19 + i].text), slots[36].text)
  }

  /** Roll and TOT serial come back with zeros in front, four digits in all. */
  function Padded(f: Form): Form
    requires Number(f.roll, 4) && Number(f.tot, 4)
  {
    f.(roll := Zeroed(f.roll), tot := Zeroed(f.tot))
  }

  predicate Flush(s: string) { s == "" || !IsSpace(s[0]) }

  /** Pieces that a '-'-separated value gives back: none holds a '-', none is followed by a
      non-empty one when it is empty itself, and the first one has no leading white space. */
  predicate Resplits(a: string, b: string, c: string) {
    && Flush(a) && '-' !in a && '-' !in b && '-' !in c
    && (a == "" ==> b == "" && c == "") && (b == "" ==> c == "")
  }

  /** A form every field of which survives printing and loading. */
  predicate Survives(f: Form) {
    && Flush(f.name) && Flush(f.father) && Flush(f.mother) && Flush(f.session) && Flush(f.board)
    && Flush(f.collegeCode) && Flush(f.collegeName) && Flush(f.prevBoard) && Flush(f.prevYear)
    && Flush(f.prevRoll) && Flush(f.prevReg) && Flush(f.religion) && Flush(f.photo)
    && (forall i :: 0 <= i < |f.subs| ==> Flush(f.subs[i]))
    && Resplits(f.day, f.month, f.year)
    && Resplits(f.sessStart, f.sessEnd, "")
  }

  lemma {:induction false} SkipStops(v: string, tail: string)
    requires tail != "" && !IsSpace(tail[0])
    ensures SkipSpace(v + tail) == SkipSpace(v) + tail
  {
    if v == "" {
      assert v + tail == tail;
    } else if IsSpace(v[0]) {
      assert (v + tail)[1..] == v[1..] + tail;
      SkipStops(v[1..], tail);
    }
  }

  lemma {:induction false} UntilHasNone(s: string)
    ensures '-' !in Until(s, "-") && (s != "" && !IsSpace(s[0]) ==> Flush(Until(s, "-")))
  {
    if s != "" && s[0] != '-' { UntilHasNone(s[1..]); }
  }

  lemma PiecesAreResplits(s: string)
    ensures var (a, b, c) := Pieces(SkipSpace(s)); Resplits(a, b, c)
  {
    var t := SkipSpace(s);
    UntilHasNone(t);
    UntilHasNone("");
    assert Until("", "-") == "";
    hide Until, SkipSpace;
    var a := Until(t, "-");
    assert Flush(a) by { if t == "" { assert a == ""; } }
    if a != "" && |a| < |t| {
      var t1 := t[|a| + 1..];
      UntilHasNone(t1);
      var b := Until(t1, "-");
      if b != "" && |b| < |t1| { UntilHasNone(t1[|b| + 1..]); }
    }
  }

  lemma PieceFound(a: string, rest: string)
    requires '-' !in a
    ensures Until(a + ("-" + rest), "-") == a
    ensures (a + ("-" + rest))[|a| + 1..] == rest
  {
    UntilExact(a, "-" + rest, "-");
    hide Until;
  }

  lemma LastPiece(a: string)
    requires '-' !in a
    ensures Until(a, "-") == a
  {
    UntilExact(a, "", "-");
    hide Until;
    assert a + "" == a;
  }

  lemma FlushIsKept(v: string)
    requires Flush(v)
    ensures SkipSpace(v) == v
  {
  }

  /** A date printed as day-month-year comes back exactly when its parts resplit. */
  lemma ThreeResplit(a: string, b: string, c: string)
    ensures Pieces(SkipSpace(a + "-" + b + "-" + c)) == (a, b, c) <==> Resplits(a, b, c)
  {
    PiecesAreResplits(a + "-" + b + "-" + c);
    hide Until, SkipSpace;
    if Resplits(a, b, c) {
      var tail := b + ("-" + c);
      assert a + "-" + b + "-" + c == a + ("-" + tail);
      SkipStops(a, "-" + tail);
      FlushIsKept(a);
      PieceFound(a, tail);
      PieceFound(b, c);
      LastPiece(a);
      LastPiece(b);
      LastPiece(c);
    }
  }

  /** The same for the two years of a session. */
  lemma TwoResplit(a: string, b: string)
    ensures Pieces(SkipSpace(a + "-" + b)).0 == a && Pieces(SkipSpace(a + "-" + b)).1 == b <==> Resplits(a, b, "")
  {
    PiecesAreResplits(a + "-" + b);
    hide Until, SkipSpace;
    if Resplits(a, b, "") {
      assert a + "-" + b == a + ("-" + b);
      SkipStops(a, "-" + b);
      FlushIsKept(a);
      PieceFound(a, b);
      LastPiece(a);
      LastPiece(b);
    }
  }

  lemma FieldValues(f: Form)
    requires Fits(f)
    ensures |Fields(f)| == SLOTS
    ensures var v := Fields(f);
            && v[0].value == f.name && v[1].value == f.father && v[2].value == f.mother
            && v[3].value == f.group && v[4].value == f.session && v[5].value == f.board
            && v[6].value == Zeroed(f.roll) && v[7].value == Birthdate(f)
            && v[8].value == Zeroed(f.tot) && v[9].value == f.section
            && v[10].value == f.collegeCode && v[11].value == f.collegeName && v[12].value == f.prevBoard
            && v[13].value == f.prevYear && v[14].value == f.prevRoll && v[15].value == f.prevReg
            && v[16].value == f.sessStart + "-" + f.sessEnd && v[17].value == f.gender
            && v[18].value == f.religion && v[36].value == f.photo
            && forall i :: 0 <= i < NUM_TOTAL_SUB ==> v[19 + i].value == f.subs[i]
  {
    hide Fits, Subjects, Zeroed;
    FitsNumbers(f);
    SubjectValues(f, NUM_TOTAL_SUB);
    var subs := Subjects(f, NUM_TOTAL_SUB);
    forall i | 0 <= i < NUM_TOTAL_SUB ensures Fields(f)[19 + i].value == f.subs[i] {
      assert Fields(f)[19 + i] == subs[i];
    }
  }

  lemma {:induction false} SubjectValues(f: Form, n: nat)
    requires n <= |f.subs| && n < 99
    ensures |Subjects(f, n)| == n && forall i :: 0 <= i < n ==> Subjects(f, n)[i].value == f.subs[i]
  {
    if n > 0 { SubjectValues(f, n - 1); }
  }

  /** The boxes of a freshly opened window. */
  function Fresh(): seq<Slot> { seq(SLOTS, _ => One("")) }

  lemma DigitsAreFlush(s: string)
    requires AllDigits(s)
    ensures Flush(s)
  {
  }

  lemma NameAndChoicesFlush(f: Form)
    requires Fits(f)
    ensures Flush(f.name) && Flush(f.group) && Flush(f.gender)
    ensures SkipSpace(f.section) == (if f.section == " " then "" else f.section) && f.section != ""
  {
    GroupFlush(f.group);
    SectionShown(f.section);
  }

  lemma GroupFlush(group: string)
    requires group in GROUPS
    ensures Flush(group)
  {
  }

  lemma SectionShown(section: string)
    requires section in SECTIONS
    ensures SkipSpace(section) == (if section == " " then "" else section) && section != ""
  {
    FirstBlank("");
    assert " " + "" == " ";
    if section != " " { assert Flush(section); }
  }

  lemma SkipKeepsFlush(s: string)
    requires Clean(s)
    ensures SkipSpace(s) == s <==> Flush(s)
  {
    SkipIsSuffix(s);
  }

  /** The form a freshly opened window shows after loading the file of `f`. */
  function Reloaded(f: Form): Form
    requires Fits(f)
  {
    ShownShape(f);
    Collect(Shown(f, Fresh()))
  }

  lemma ShownShape(f: Form)
    requires Fits(f)
    ensures |Fields(f)| == SLOTS
    ensures var s := Shown(f, Fresh());
            && s[BIRTH].Three? && s[SESSION].Two?
            && (forall k :: 0 <= k < SLOTS && k != BIRTH && k != SESSION ==> s[k].One?)
  {
    FieldsSafe(f);
    hide Fields, Fits, SkipSpace, Pieces;
  }

  lemma PlainBox(f: Form, k: nat)
    requires Fits(f) && k < SLOTS && k != BIRTH && k != SESSION && k != SECTION
    ensures |Fields(f)| == SLOTS && Shown(f, Fresh())[k] == One(SkipSpace(Fields(f)[k].value))
  {
    FieldsSafe(f);
    hide Fields, Fits, SkipSpace, Pieces;
  }

  lemma DateBoxes(f: Form)
    requires Fits(f)
    ensures |Fields(f)| == SLOTS
    ensures var s := Shown(f, Fresh());
            && s[BIRTH] == (var (a, b, c) := Pieces(SkipSpace(Fields(f)[BIRTH].value)); Three(a, b, c))
            && s[SESSION] == (var (a, b, _) := Pieces(SkipSpace(Fields(f)[SESSION].value)); Two(a, b))
            && s[SECTION] == (var v := SkipSpace(Fields(f)[SECTION].value); One(if v == "" then " " else v))
  {
    FieldsSafe(f);
    hide Fields, Fits, SkipSpace, Pieces;
  }

  /** What each box of any window shows after loading the file of a form: its field without leading
      white space; a blank section as the blank; the dates in their parts, if they resplit; and where
      the file names no photo, what was there before. */
  lemma ShownSays(f: Form, before: seq<Slot>, k: nat)
    requires Fits(f) && |before| == SLOTS && k < SLOTS
    ensures |Fields(f)| == SLOTS
    ensures var s := Shown(f, before)[k];
            && (k == 7 && Resplits(f.day, f.month, f.year) ==> s == Three(f.day, f.month, f.year))
            && (k == 9 ==> s == One(f.section))
            && (k == 16 && Resplits(f.sessStart, f.sessEnd, "") ==> s == Two(f.sessStart, f.sessEnd))
            && (k == 36 ==> s == if SkipSpace(f.photo) == "" then before[36] else One(SkipSpace(f.photo)))
            && (k !in {7, 9, 16, 36} ==> s == One(SkipSpace(Fields(f)[k].value)))
  {
    FieldValues(f);
    NameAndChoicesFlush(f);
    ThreeResplit(f.day, f.month, f.year);
    TwoResplit(f.sessStart, f.sessEnd);
    hide Fields, Fits, SkipSpace, Pieces, Resplits;
  }

  lemma KeepsNames(f: Form)
    requires Fits(f)
    ensures var g := Reloaded(f);
            && g.group == f.group
            && (g.name == f.name && g.father == f.father && g.mother == f.mother && g.session == f.session
                && g.board == f.board
                <==> Flush(f.name) && Flush(f.father) && Flush(f.mother) && Flush(f.session) && Flush(f.board))
  {
    hide Fits, Fields, Shown, SkipSpace, Clean, Flush, Pieces, Zeroed, Birthdate;
    ShownShape(f);
    FieldValues(f);
    FitsClean(f);
    NameAndChoicesFlush(f);
    PlainBox(f, 0);
    PlainBox(f, 1);
    PlainBox(f, 2);
    PlainBox(f, 3);
    PlainBox(f, 4);
    PlainBox(f, 5);
    SkipKeepsFlush(f.name);
    SkipKeepsFlush(f.father);
    SkipKeepsFlush(f.mother);
    SkipKeepsFlush(f.group);
    SkipKeepsFlush(f.session);
    SkipKeepsFlush(f.board);
  }

  lemma KeepsNumbers(f: Form)
    requires Fits(f)
    ensures var g := Reloaded(f);
            g.roll == Zeroed(f.roll) && g.tot == Zeroed(f.tot) && g.section == f.section
  {
    hide Fits, Fields, Shown, SkipSpace, Pieces, Zeroed, Flush, Birthdate;
    FitsNumbers(f);
    ShownShape(f);
    FieldValues(f);
    NameAndChoicesFlush(f);
    PaddedFlush(f.roll);
    PaddedFlush(f.tot);
    PlainBox(f, 6);
    PlainBox(f, 8);
    DateBoxes(f);
  }

  lemma PaddedFlush(s: string)
    requires Number(s, 4)
    ensures SkipSpace(Zeroed(s)) == Zeroed(s)
  {
    DigitsAreFlush(Zeroed(s));
    FlushIsKept(Zeroed(s));
  }

  lemma KeepsDates(f: Form)
    requires Fits(f)
    ensures var g := Reloaded(f);
            && (g.day == f.day && g.month == f.month && g.year == f.year <==> Resplits(f.day, f.month, f.year))
            && (g.sessStart == f.sessStart && g.sessEnd == f.sessEnd <==> Resplits(f.sessStart, f.sessEnd, ""))
  {
    hide Fits, Fields, Shown, SkipSpace, Pieces, Resplits, Zeroed;
    ShownShape(f);
    FieldValues(f);
    DateBoxes(f);
    ThreeResplit(f.day, f.month, f.year);
    TwoResplit(f.sessStart, f.sessEnd);
  }

  lemma KeepsCollege(f: Form)
    requires Fits(f)
    ensures var g := Reloaded(f);
            g.collegeCode == f.collegeCode && g.collegeName == f.collegeName && g.prevBoard == f.prevBoard
            && g.prevYear == f.prevYear && g.prevRoll == f.prevRoll
            <==> Flush(f.collegeCode) && Flush(f.collegeName) && Flush(f.prevBoard) && Flush(f.prevYear)
                 && Flush(f.prevRoll)
  {
    hide Fits, Fields, Shown, SkipSpace, Clean, Flush, Pieces, Zeroed, Birthdate;
    ShownShape(f);
    FieldValues(f);
    FitsClean(f);
    PlainBox(f, 10);
    PlainBox(f, 11);
    PlainBox(f, 12);
    PlainBox(f, 13);
    PlainBox(f, 14);
    SkipKeepsFlush(f.collegeCode);
    SkipKeepsFlush(f.collegeName);
    SkipKeepsFlush(f.prevBoard);
    SkipKeepsFlush(f.prevYear);
    SkipKeepsFlush(f.prevRoll);
  }

  lemma KeepsRest(f: Form)
    requires Fits(f)
    ensures var g := Reloaded(f);
            && g.gender == f.gender
            && (g.prevReg == f.prevReg && g.religion == f.religion && g.photo == f.photo
                <==> Flush(f.prevReg) && Flush(f.religion) && Flush(f.photo))
  {
    hide Fits, Fields, Shown, SkipSpace, Clean, Flush, Pieces, Zeroed, Birthdate;
    ShownShape(f);
    FieldValues(f);
    FitsClean(f);
    NameAndChoicesFlush(f);
    PlainBox(f, 15);
    PlainBox(f, 17);
    PlainBox(f, 18);
    PlainBox(f, 36);
    SkipKeepsFlush(f.prevReg);
    SkipKeepsFlush(f.gender);
    SkipKeepsFlush(f.religion);
    SkipKeepsFlush(f.photo);
  }

  lemma KeepsSubjects(f: Form)
    requires Fits(f)
    ensures |f.subs| == NUM_TOTAL_SUB
    ensures Reloaded(f).subs == f.subs <==> forall i :: 0 <= i < |f.subs| ==> Flush(f.subs[i])
  {
    hide Fits, Fields, Shown, SkipSpace, Clean, Flush, Pieces, Zeroed, Birthdate;
    ShownShape(f);
    FieldValues(f);
    FitsClean(f);
    FitsNumbers(f);
    var g := Reloaded(f);
    forall i | 0 <= i < NUM_TOTAL_SUB ensures g.subs[i] == SkipSpace(f.subs[i]) {
      PlainBox(f, 19 + i);
    }
    hide Reloaded;
    forall i | 0 <= i < NUM_TOTAL_SUB ensures SkipSpace(f.subs[i]) == f.subs[i] <==> Flush(f.subs[i]) {
      SkipKeepsFlush(f.subs[i]);
    }
    SameSubjects(g.subs, f.subs);
  }

  lemma SameSubjects(a: seq<string>, b: seq<string>)
    requires |a| == |b| && forall i :: 0 <= i < |a| ==> a[i] == SkipSpace(b[i])
    requires forall i :: 0 <= i < |b| ==> (SkipSpace(b[i]) == b[i] <==> Flush(b[i]))
    ensures a == b <==> forall i :: 0 <= i < |b| ==> Flush(b[i])
  {
    hide SkipSpace, Flush;
    if a == b {
      forall i | 0 <= i < |b| ensures Flush(b[i]) { assert a[i] == b[i]; }
    } else {
      var i :| 0 <= i < |a| && a[i] != b[i];
    }
  }

  /** Printing and loading a form gives back the same form, with roll and TOT serial padded to
      four digits, exactly when none of its texts starts with white space and its dates resplit. */
  lemma RoundTrip(f: Form, sent: int)
    requires Fits(f)
    ensures |Fields(f)| == SLOTS
    ensures ShowLines(Fresh(), 3, Drop2(Split(FormText(f, sent), Eof, MAXLINE))) == Shown(f, Fresh())
    ensures Reloaded(f) == Padded(f) <==> Survives(f)
  {
    FitsNumbers(f);
    LoadShows(f, sent, Fresh());
    KeepsNames(f);
    KeepsNumbers(f);
    KeepsDates(f);
    KeepsCollege(f);
    KeepsRest(f);
    KeepsSubjects(f);
    hide Fields, Fits, Zeroed, Shown, Flush, Resplits, FormText, Split, ShowLines, Reloaded;
  }

  lemma FitsClean(f: Form)
    requires Fits(f)
    ensures Clean(f.name) && Clean(f.father) && Clean(f.mother) && Clean(f.group) && Clean(f.session)
    ensures Clean(f.board) && Clean(f.collegeCode) && Clean(f.collegeName) && Clean(f.prevBoard)
    ensures Clean(f.prevYear) && Clean(f.prevRoll) && Clean(f.prevReg) && Clean(f.gender) && Clean(f.religion)
    ensures Clean(f.photo) && forall i :: 0 <= i < |f.subs| ==> Clean(f.subs[i])
  {
    CleanGroup(f);
    ChoicesAreClean(f);
    hide Clean, NameOk, GROUPS, SECTIONS;
  }

  /** What the checks of verify_form leave in the boxes when none is switched off; subject codes,
      day and month as the lists offer them, the previous session filled in or left out. */
  predicate Verified(f: Form) {
    && NameOk(f.father) && NameOk(f.mother) && AllDigits(f.session) && AllDigits(f.collegeCode)
    && AllDigits(f.prevYear) && AllDigits(f.prevRoll) && AllDigits(f.prevReg)
    && (forall i :: 0 <= i < |f.subs| ==> AllDigits(f.subs[i]))
    && f.day != "" && AllDigits(f.day) && f.year != "" && AllDigits(f.year)
    && f.month != "" && (forall i :: 0 <= i < |f.month| ==> IsAlpha(f.month[i]))
    && AllDigits(f.sessStart) && AllDigits(f.sessEnd) && (f.sessStart == "" ==> f.sessEnd == "")
  }

  /** Texts taken from lists and files, which verify_form does not look at. */
  predicate Chosen(f: Form) {
    Flush(f.board) && Flush(f.collegeName) && Flush(f.prevBoard) && Flush(f.religion) && Flush(f.photo)
  }

  /** Every verified form comes back as it was, but for the zeros in front of roll and TOT serial. */
  lemma VerifiedComesBack(f: Form)
    requires Fits(f) && Verified(f) && Chosen(f)
    ensures Number(f.roll, 4) && Number(f.tot, 4) && Reloaded(f) == Padded(f)
  {
    hide Fits, Fields, FormText, Reloaded, Padded;
    FitsNumbers(f);
    FitsName(f);
    NoDash(f.day);
    NoDash(f.year);
    NoDash(f.sessStart);
    NoDash(f.sessEnd);
    assert Survives(f);
    hide Survives, Verified, Chosen;
    RoundTrip(f, 0);
  }

  lemma FitsName(f: Form)
    requires Fits(f)
    ensures NameOk(f.name)
  {
    hide NameOk, Text, Number;
  }

  lemma NoDash(s: string)
    requires AllDigits(s)
    ensures '-' !in s && Flush(s)
  {
  }
}
