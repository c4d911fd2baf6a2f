/** The registration form as text: what verify_form prints, its header line and its file name
    (project2/src/myfuncs.c, project2/src/defines.h). */
module Forms {
  import opened Bytes
  import opened Streams
  import opened Records
  import opened Framing

  const NUM_TOTAL_SUB: nat := 17

  /** The texts of the widgets, as verify_form collects them. `photo` is the path printed on the
      last line, empty when no photo was loaded. */
  datatype Form = Form(
    name: string, father: string, mother: string, group: string, session: string, board: string,
    roll: string, day: string, month: string, year: string, tot: string, section: string,
    collegeCode: string, collegeName: string, prevBoard: string, prevYear: string,
    prevRoll: string, prevReg: string, sessStart: string, sessEnd: string,
    gender: string, religion: string, subs: seq<string>, photo: string)

  const GROUPS: seq<string> := ["Science", "Social Science", "Arts", "Commerce", "Agriculture",
                                "Home Economics", "Islamic Studies", "Music", "Business"]
  const SECTIONS: seq<string> := [" ", "A", "B", "C", "D", "E", "F"]

  // ---------------------------------------------------------------------------------------
  // What the widgets can hold
  // ---------------------------------------------------------------------------------------

  /** Nothing that would break a line or end a C string. */
  predicate Clean(s: string) {
    NulFree(s) && LF !in s && CR !in s
  }

  /** A one-line text of at most `width` bytes. */
  predicate Text(s: string, width: nat) {
    |s| <= width && Clean(s)
  }

  predicate Number(s: string, width: nat) {
    |s| <= width && AllDigits(s)
  }

  /** verify_name: a letter, then letters, '.', '-' and single blanks. */
  predicate NameOk(s: string) {
    && s != "" && IsAlpha(s[0])
    && (forall i :: 0 <= i < |s| ==> IsAlpha(s[i]) || s[i] == '.' || s[i] == '-' || IsSpace(s[i]))
    && (forall i :: 0 <= i < |s| - 1 ==> !(IsSpace(s[i]) && IsSpace(s[i + 1])))
  }

  /** Widget widths and the checks of verify_form that matter for the text. */
  predicate Fits(f: Form) {
    && Text(f.name, 40) && NameOk(f.name) && Text(f.father, 40) && Text(f.mother, 40)
    && f.group in GROUPS && Text(f.session, 4) && Text(f.board, 10)
    && Number(f.roll, 4) && Text(f.day, 2) && Text(f.month, 3) && Text(f.year, 4) && Number(f.tot, 4)
    && f.section in SECTIONS && Text(f.collegeCode, 4) && Text(f.collegeName, 70)
    && Text(f.prevBoard, 10) && Text(f.prevYear, 4) && Text(f.prevRoll, 6) && Text(f.prevReg, 6)
    && Text(f.sessStart, 4) && Text(f.sessEnd, 4)
    && (f.gender == "Male" || f.gender == "Female") && Text(f.religion, 10)
    && |f.subs| == NUM_TOTAL_SUB && (forall i :: 0 <= i < |f.subs| ==> Text(f.subs[i], 3))
    && Text(f.photo, 79)
  }

  /** atoi of a number box; at most four digits, so it fits "%04d". */
  function Value4(s: string): nat
    requires Number(s, 4)
    ensures Value4(s) <= 9999
  {
    DecimalBound(s);
    DecimalValue(s)
  }

  /** A number box's text with zeros in front, four characters in all. */
  function Zeroed(s: string): (r: string)
    requires |s| <= 4
    ensures |r| == 4 && (AllDigits(s) ==> AllDigits(r))
  {
    seq(4 - |s|, _ => '0') + s
  }

  /** Printing the number of a box with "%04d" is putting zeros in front of its text. */
  lemma PaddedText(s: string)
    requires Number(s, 4)
    ensures Pad4(Value4(s)) == Zeroed(s) && Print04(Value4(s)) == Zeroed(s)
  {
    Print04IsPad4(Value4(s));
    ZerosCountNothing(s, 4 - |s|);
    var z := Zeroed(s);
    assert z == [z[0], z[1], z[2], z[3]];
    FourDigits(z[0], z[1], z[2], z[3]);
    hide DecimalValue, Print04, Zeroed;
    DigitsOfFour(z[0], z[1], z[2], z[3], Value4(s));
  }

  lemma {:induction false} ZerosCountNothing(s: string, k: nat)
    requires AllDigits(s)
    ensures var z := seq(k, _ => '0') + s; AllDigits(z) && DecimalValue(z) == DecimalValue(s)
    decreases |s|
  {
    var z := seq(k, _ => '0') + s;
    if s == "" {
      OnlyZeros(k);
      assert z == seq(k, _ => '0');
    } else {
      var front, last := s[..|s| - 1], s[|s| - 1];
      ZerosCountNothing(front, k);
      assert z == (seq(k, _ => '0') + front) + [last];
      DecimalSnoc(seq(k, _ => '0') + front, last);
    }
  }

  lemma {:induction false} OnlyZeros(k: nat)
    ensures DecimalValue(seq(k, _ => '0')) == 0
  {
    if k > 0 {
      OnlyZeros(k - 1);
      assert seq(k, _ => '0') == seq(k - 1, _ => '0') + ['0'];
      DecimalSnoc(seq(k - 1, _ => '0'), '0');
    }
  }

  lemma DigitsOfFour(a: char, b: char, c: char, d: char, n: nat)
    requires IsDigit(a) && IsDigit(b) && IsDigit(c) && IsDigit(d)
    requires n == 1000 * DigitValue(a) + 100 * DigitValue(b) + 10 * DigitValue(c) + DigitValue(d)
    ensures n <= 9999 && Pad4(n) == [a, b, c, d]
  {
    assert n / 10 == 100 * DigitValue(a) + 10 * DigitValue(b) + DigitValue(c);
    assert n / 10 / 10 == 10 * DigitValue(a) + DigitValue(b);
    assert n / 10 / 10 / 10 == DigitValue(a);
  }

  /** verify_name accepts exactly the names NameOk describes. */
  method VerifyName(str: string) returns (err: int)
    ensures err == 0 <==> NameOk(str)
  {
    if str == "" || !IsAlpha(str[0]) { return 1; }
    var numSpace := 0;
    var at := 1;
    while at < |str|
      invariant 1 <= at <= |str|
      invariant forall i :: 0 <= i < at ==> IsAlpha(str[i]) || str[i] == '.' || str[i] == '-' || IsSpace(str[i])
      invariant forall i :: 0 <= i < at - 1 ==> !(IsSpace(str[i]) && IsSpace(str[i + 1]))
      invariant numSpace == if IsSpace(str[at - 1]) then 1 else 0
    {
      if IsAlpha(str[at]) || str[at] == '.' || str[at] == '-' {
        numSpace := 0;
      } else if IsSpace(str[at]) && numSpace < 1 {
        numSpace := numSpace + 1;
      } else {
        assert IsSpace(str[at]) ==> IsSpace(str[at - 1]) && IsSpace(str[at - 1 + 1]);
        return 1;
      }
      at := at + 1;
    }
    return 0;
  }

  // ---------------------------------------------------------------------------------------
  // The header line
  // ---------------------------------------------------------------------------------------

  datatype Header = Header(gender: string, roll: int, section: string, tot: int, group: string, sent: int, name: string)

  /** HEADPATTERN without its second newline. The flag is 0 or 1 wherever it is printed. */
  function HeaderLine(h: Header): string {
    h.gender + ":" + Print04(h.roll) + ":" + h.section + ":" + Print04(h.tot) + ":" + h.group + ":"
    + Flag(h.sent) + ":" + h.name + "\n"
  }

  function Flag(sent: int): string {
    if sent == 0 then "0" else "1"
  }

  /** A header whose fields the scanning format can find again. */
  predicate Scannable(h: Header) {
    && h.gender != "" && ':' !in h.gender && h.section != "" && ':' !in h.section
    && h.group != "" && ':' !in h.group && h.name != "" && CR !in h.name && LF !in h.name
    && 0 <= h.roll <= 9999 && 0 <= h.tot <= 9999 && (h.sent == 0 || h.sent == 1)
  }

  /** "%[^stop]": fails on an empty match. */
  function ScanText(s: string, stop: string): Option<(string, string)> {
    var t := Until(s, stop);
    if t == "" || |t| > |s| then None else Some((t, s[|t|..]))
  }

  /** "%d": white space, a sign, digits; at least one digit. */
  function ScanNumber(s: string): Option<(int, string)> {
    var t := SkipSpace(s);
    if t != "" && (t[0] == '-' || t[0] == '+') then ScanDigits(t[1..], if t[0] == '-' then -1 else 1)
    else ScanDigits(t, 1)
  }

  function ScanDigits(t: string, sign: int): Option<(int, string)> {
    var ds := Digits(t);
    if ds == "" || |ds| > |t| then None else Some((sign * DecimalValue(ds), t[|ds|..]))
  }

  function ScanColon(s: string): Option<string> {
    if s != "" && s[0] == ':' then Some(s[1..]) else None
  }

  /** "%[^:]:" */
  function ScanTextField(s: string): Option<(string, string)> {
    match ScanText(s, ":")
    case None => None
    case Some((t, r)) => match ScanColon(r) case None => None case Some(r') => Some((t, r'))
  }

  /** "%d:" */
  function ScanNumberField(s: string): Option<(int, string)> {
    match ScanNumber(s)
    case None => None
    case Some((n, r)) => match ScanColon(r) case None => None case Some(r') => Some((n, r'))
  }

  /** The fields up to and including the sent flag, and the rest of the line. */
  function ScanFields(s: string): Option<(string, int, string, int, string, int, string)> {
    match ScanTextField(s) case None => None case Some((gender, s1)) =>
    match ScanNumberField(s1) case None => None case Some((roll, s2)) =>
    match ScanTextField(s2) case None => None case Some((section, s3)) =>
    match ScanNumberField(s3) case None => None case Some((tot, s4)) =>
    match ScanTextField(s4) case None => None case Some((group, s5)) =>
    match ScanNumberField(s5) case None => None case Some((sent, s6)) =>
      Some((gender, roll, section, tot, group, sent, s6))
  }

  /** The whole scanning format; the name ends at CR or LF. */
  function ScanHeader(s: string): Option<Header> {
    match ScanFields(s)
    case None => None
    case Some((gender, roll, section, tot, group, sent, rest)) =>
      var name := Until(rest, "\r\n");
      if name == "" then None else Some(Header(gender, roll, section, tot, group, sent, name))
  }

  lemma TextFieldIs(t: string, rest: string)
    requires t != "" && ':' !in t
    ensures ScanTextField(t + ":" + rest) == Some((t, rest))
  {
    var s := t + ":" + rest;
    assert s == t + (":" + rest);
    UntilExact(t, ":" + rest, ":");
    hide Until;
    assert s[|t|..] == ":" + rest;
    assert (":" + rest)[1..] == rest;
  }

  lemma NumberFieldIs(ds: string, rest: string)
    requires ds != "" && AllDigits(ds)
    ensures ScanNumberField(ds + ":" + rest) == Some((DecimalValue(ds), rest))
  {
    var s := ds + ":" + rest;
    assert s == ds + (":" + rest);
    assert s[0] == ds[0] && IsDigit(s[0]);
    assert SkipSpace(s) == s;
    DigitsExact(ds, ":" + rest);
    hide Digits, SkipSpace, DecimalValue;
    assert s[|ds|..] == ":" + rest;
    assert (":" + rest)[1..] == rest;
  }

  lemma FieldsAreFound(h: Header)
    requires Scannable(h)
    ensures ScanFields(HeaderLine(h))
         == Some((h.gender, h.roll, h.section, h.tot, h.group, h.sent, h.name + "\n"))
  {
    NumberIsFound(h.roll);
    NumberIsFound(h.tot);
    DecimalOne('0');
    DecimalOne('1');
    hide ScanTextField, ScanNumberField, Print04, DecimalValue, AllDigits;
    var s6 := h.name + "\n";
    var s5 := Flag(h.sent) + ":" + s6;
    var s4 := h.group + ":" + s5;
    var s3 := Print04(h.tot) + ":" + s4;
    var s2 := h.section + ":" + s3;
    var s1 := Print04(h.roll) + ":" + s2;
    HeaderParts(h.gender, Print04(h.roll), h.section, Print04(h.tot), h.group, Flag(h.sent), h.name);
    TextFieldIs(h.gender, s1);
    NumberFieldIs(Print04(h.roll), s2);
    TextFieldIs(h.section, s3);
    NumberFieldIs(Print04(h.tot), s4);
    TextFieldIs(h.group, s5);
    FlagDigits(h.sent);
    NumberFieldIs(Flag(h.sent), s6);
  }

  lemma FlagDigits(sent: int)
    requires sent == 0 || sent == 1
    ensures AllDigits(Flag(sent)) && DecimalValue(Flag(sent)) == sent
  {
    DecimalOne(if sent == 0 then '0' else '1');
  }

  lemma NumberIsFound(n: int)
    requires 0 <= n <= 9999
    ensures Print04(n) != "" && AllDigits(Print04(n)) && DecimalValue(Print04(n)) == n
  {
    Print04IsPad4(n);
    Pad4Value(n);
    hide Print04, Pad4, DecimalValue;
  }

  lemma HeaderParts(a: string, b: string, c: string, d: string, e: string, f: string, g: string)
    ensures a + ":" + b + ":" + c + ":" + d + ":" + e + ":" + f + ":" + g + "\n"
         == a + ":" + (b + ":" + (c + ":" + (d + ":" + (e + ":" + (f + ":" + (g + "\n"))))))
  {
  }

  /** Scanning a printed header gives the header back, whatever follows its line. */
  lemma HeaderRoundTrip(h: Header)
    requires Scannable(h)
    ensures ScanHeader(HeaderLine(h)) == Some(h)
  {
    FieldsAreFound(h);
    UntilExact(h.name, "\n", "\r\n");
  }

  // ---------------------------------------------------------------------------------------
  // The lines of a form
  // ---------------------------------------------------------------------------------------

  /** A line of the file: its label and what is printed after it. */
  datatype Field = Field(tag: string, value: string)

  function Print(p: Field): string { p.tag + " " + p.value + "\n" }

  function PrintAll(ps: seq<Field>): seq<string> {
    if ps == [] then [] else [Print(ps[0])] + PrintAll(ps[1..])
  }

  function Personal(f: Form): seq<Field> {
    [Field("STUDENTS_NAME", f.name), Field("FATHERS_NAME", f.father), Field("MOTHERS_NAME", f.mother),
     Field("GROUP", f.group), Field("SESSION", f.session)]
  }

  function Birthdate(f: Form): string { f.day + "-" + f.month + "-" + f.year }

  function Exam(f: Form): seq<Field>
    requires Number(f.roll, 4) && Number(f.tot, 4)
  {
    [Field("BOARD", f.board), Field("CLASS_ROLL", Zeroed(f.roll)), Field("BIRTHDATE", Birthdate(f)),
     Field("TOT_LIST", Zeroed(f.tot)), Field("SECTION", f.section)]
  }

  function College(f: Form): seq<Field> {
    [Field("INSTITUTE_CODE", f.collegeCode), Field("INSTITUTE_NAME", f.collegeName),
     Field("PREVIOUS_BOARD", f.prevBoard), Field("PREVIOUS_YEAR", f.prevYear), Field("PREVIOUS_ROLL", f.prevRoll)]
  }

  function Previous(f: Form): seq<Field> {
    [Field("PREVIOUS_REG", f.prevReg), Field("PREVIOUS_SESSION", f.sessStart + "-" + f.sessEnd),
     Field("GENDER", f.gender), Field("RELIGION", f.religion)]
  }

  function SubLabel(i: nat): string
    requires i < 100
  {
    "SUB_" + [DigitChar(i / 10), DigitChar(i % 10)]
  }

  /** The label of a subject line ends with its number in two digits. */
  lemma SubLabelSays(i: nat)
    requires i < 100
    ensures var l := SubLabel(i);
            |l| == 6 && l[..4] == "SUB_" && AllDigits(l[4..]) && DecimalValue(l[4..]) == i
  {
    var a, b := DigitChar(i / 10), DigitChar(i % 10);
    assert SubLabel(i)[4..] == [a, b] == [a] + [b];
    hide DecimalValue;
    DecimalOne(a);
    DecimalSnoc([a], b);
  }

  /** The subject lines from subject `i` (counted from 0) up to `n`. */
  function Subjects(f: Form, n: nat): seq<Field>
    requires n <= |f.subs| && n < 99
  {
    if n == 0 then [] else Subjects(f, n - 1) + [Field(SubLabel(n), f.subs[n - 1])]
  }

  /** The 37 labelled lines of a form. */
  function Fields(f: Form): seq<Field>
    requires Number(f.roll, 4) && Number(f.tot, 4) && |f.subs| == NUM_TOTAL_SUB
  {
    Personal(f) + Exam(f) + College(f) + Previous(f) + Subjects(f, NUM_TOTAL_SUB) + [Field("PHOTO", f.photo)]
  }

  function HeaderOf(f: Form, sent: int): Header
    requires Number(f.roll, 4) && Number(f.tot, 4)
  {
    Header(f.gender, Value4(f.roll), f.section, Value4(f.tot), f.group, sent, f.name)
  }

  /** The file verify_form writes, line by line. */
  function FormLines(f: Form, sent: int): seq<string>
    requires Fits(f)
  {
    [HeaderLine(HeaderOf(f, sent)), "\n"] + PrintAll(Fields(f))
  }

  function FormText(f: Form, sent: int): string
    requires Fits(f)
  {
    Flatten(FormLines(f, sent))
  }

  lemma {:induction false} PrintAllAppend(a: seq<Field>, b: seq<Field>)
    ensures PrintAll(a + b) == PrintAll(a) + PrintAll(b)
  {
    if a == [] {
      assert a + b == b;
    } else {
      PrintAllAppend(a[1..], b);
      assert (a + b)[1..] == a[1..] + b;
    }
  }

  lemma {:induction false} PrintAllIs(ps: seq<Field>)
    ensures |PrintAll(ps)| == |ps| && forall i :: 0 <= i < |ps| ==> PrintAll(ps)[i] == Print(ps[i])
  {
    if ps != [] {
      PrintAllIs(ps[1..]);
      forall i | 0 <= i < |ps| ensures PrintAll(ps)[i] == Print(ps[i]) {
        if i > 0 { assert PrintAll(ps)[i] == PrintAll(ps[1..])[i - 1]; }
      }
    }
  }

  // ---------------------------------------------------------------------------------------
  // Every line is safe to send, and all of them fit the record
  // ---------------------------------------------------------------------------------------

  /** A label no server command starts with. */
  predicate SafeLabel(tag: string) {
    && |tag| >= 3 && tag[0] != '.'
    && !(tag[0] == 'Q') && !(tag[0] == 'B' && tag[1] == 'I' && tag[2] == 'N')
    && !(tag[0] == 'F' && tag[1] == 'I')
    && NulFree(tag) && forall i :: 0 <= i < |tag| ==> !IsSpace(tag[i])
  }

  predicate SafeField(p: Field) {
    SafeLabel(p.tag) && Text(p.value, 90) && |p.tag| <= 16
  }

  predicate SafeFields(ps: seq<Field>) {
    forall p :: p in ps ==> SafeField(p)
  }

  function Width(ps: seq<Field>): nat {
    if ps == [] then 0 else |Print(ps[0])| + Width(ps[1..])
  }

  lemma {:induction false} WidthAppend(a: seq<Field>, b: seq<Field>)
    ensures Width(a + b) == Width(a) + Width(b)
  {
    if a == [] {
      assert a + b == b;
    } else {
      WidthAppend(a[1..], b);
      assert (a + b)[1..] == a[1..] + b;
    }
  }

  lemma {:induction false} WidthIs(ps: seq<Field>)
    ensures |Flatten(PrintAll(ps))| == Width(ps)
  {
    if ps != [] {
      WidthIs(ps[1..]);
      assert PrintAll(ps)[1..] == PrintAll(ps[1..]);
    }
  }

  lemma SafeLine(p: Field)
    requires SafeField(p)
    ensures PlainLine(Print(p))
  {
    var line := Print(p);
    assert line[0] == p.tag[0] && line[1] == p.tag[1] && line[2] == p.tag[2];
    forall i | 0 <= i < |line| - 1 ensures line[i] != LF && line[i] != NUL {
      if i < |p.tag| {
        assert line[i] == p.tag[i];
      } else if i > |p.tag| {
        assert line[i] == p.value[i - |p.tag| - 1];
      }
    }
    assert line[|line| - 1] == LF;
    assert Server.DOT[0] == '.' && Server.QUIT[0] == 'Q';
    assert "BINARY "[0] == 'B' && "BINARY "[1] == 'I' && "BINARY "[2] == 'N';
    assert Server.FILENAME[0] == 'F' && Server.FILENAME[1] == 'I';
  }

  lemma CleanGroup(f: Form)
    requires f.group in GROUPS
    ensures |f.group| <= 15 && f.group != "" && Clean(f.group)
  {
    GroupLength(f.group);
    GroupLines(f.group);
  }

  lemma GroupLength(group: string)
    requires group in GROUPS
    ensures |group| <= 15 && group != ""
  {
  }

  lemma GroupLines(group: string)
    requires group in GROUPS
    ensures Clean(group)
  {
    forall c | c in group ensures c != NUL && c != LF && c != CR {
      GroupChars(group, c);
    }
  }

  lemma GroupChars(group: string, c: char)
    requires group in GROUPS && c in group
    ensures c != NUL && c != LF && c != CR && c != ':'
  {
  }

  lemma ChoicesAreClean(f: Form)
    requires f.section in SECTIONS && (f.gender == "Male" || f.gender == "Female")
    ensures |f.section| == 1 && Clean(f.section) && ':' !in f.section
    ensures 4 <= |f.gender| <= 6 && Clean(f.gender) && ':' !in f.gender
    ensures f.gender[0] == 'M' || (f.gender[0] == 'F' && f.gender[1] == 'e')
  {
  }

  lemma DigitsAreClean(s: string)
    requires AllDigits(s)
    ensures Clean(s)
  {
  }

  lemma JoinedIsClean(a: string, b: string)
    requires Clean(a) && Clean(b)
    ensures Clean(a + "-" + b)
  {
  }

  lemma PersonalTags()
    ensures SafeLabel("STUDENTS_NAME") && SafeLabel("FATHERS_NAME") && SafeLabel("MOTHERS_NAME")
    ensures SafeLabel("GROUP") && SafeLabel("SESSION")
  {
  }

  lemma ExamTags()
    ensures SafeLabel("BOARD") && SafeLabel("CLASS_ROLL") && SafeLabel("BIRTHDATE")
    ensures SafeLabel("TOT_LIST") && SafeLabel("SECTION")
  {
  }

  lemma CollegeTags()
    ensures SafeLabel("INSTITUTE_CODE") && SafeLabel("INSTITUTE_NAME") && SafeLabel("PREVIOUS_BOARD")
    ensures SafeLabel("PREVIOUS_YEAR") && SafeLabel("PREVIOUS_ROLL")
  {
  }

  lemma PreviousTags()
    ensures SafeLabel("PREVIOUS_REG") && SafeLabel("PREVIOUS_SESSION") && SafeLabel("GENDER")
    ensures SafeLabel("RELIGION") && SafeLabel("PHOTO")
  {
  }

  lemma PersonalSafe(f: Form)
    requires Fits(f)
    ensures SafeFields(Personal(f)) && Width(Personal(f)) <= 198
  {
    hide SafeLabel, Clean, Width, GROUPS, SECTIONS;
    CleanGroup(f);
    PersonalTags();
    Width5(Personal(f));
  }

  lemma Width5(ps: seq<Field>)
    requires 4 <= |ps| <= 5
    ensures Width(ps) == |Print(ps[0])| + |Print(ps[1])| + |Print(ps[2])| + |Print(ps[3])|
                       + if |ps| == 5 then |Print(ps[4])| else 0
  {
    hide Print;
    assert ps[1..][1..] == ps[2..] && ps[2..][1..] == ps[3..] && ps[3..][1..] == ps[4..];
    assert Width(ps[3..]) == |Print(ps[3])| + Width(ps[4..]);
    assert Width(ps[2..]) == |Print(ps[2])| + Width(ps[3..]);
    assert Width(ps[1..]) == |Print(ps[1])| + Width(ps[2..]);
    if |ps| == 5 {
      assert ps[4..][1..] == [];
      assert Width(ps[4..]) == |Print(ps[4])| + Width([]);
    } else {
      assert ps[4..] == [];
    }
  }

  lemma ExamSafe(f: Form)
    requires Fits(f)
    ensures SafeFields(Exam(f)) && Width(Exam(f)) <= 79
  {
    hide SafeLabel, Clean, Width, GROUPS, SECTIONS, NameOk, Zeroed;
    ChoicesAreClean(f);
    DigitsAreClean(Zeroed(f.roll));
    DigitsAreClean(Zeroed(f.tot));
    JoinedIsClean(f.day, f.month);
    JoinedIsClean(f.day + "-" + f.month, f.year);
    ExamTags();
    Width5(Exam(f));
  }

  lemma CollegeSafe(f: Form)
    requires Fits(f)
    ensures SafeFields(College(f)) && Width(College(f)) <= 172
  {
    hide SafeLabel, Clean, Width, GROUPS, SECTIONS, NameOk;
    CollegeTags();
    Width5(College(f));
  }

  lemma PreviousSafe(f: Form)
    requires Fits(f)
    ensures SafeFields(Previous(f)) && Width(Previous(f)) <= 81
  {
    hide SafeLabel, Clean, Width, GROUPS, SECTIONS, NameOk;
    ChoicesAreClean(f);
    JoinedIsClean(f.sessStart, f.sessEnd);
    PreviousTags();
    Width5(Previous(f));
  }

  lemma {:induction false} SubjectsSafe(f: Form, n: nat)
    requires Fits(f) && n <= NUM_TOTAL_SUB
    ensures SafeFields(Subjects(f, n)) && Width(Subjects(f, n)) <= 11 * n && |Subjects(f, n)| == n
  {
    if n > 0 {
      SubjectsSafe(f, n - 1);
      var p := Field(SubLabel(n), f.subs[n - 1]);
      WidthAppend(Subjects(f, n - 1), [p]);
      assert Width([p]) == |Print(p)| + Width([]);
      SubLabelSafe(n);
    }
  }

  lemma SubLabelSafe(n: nat)
    requires n < 100
    ensures SafeLabel(SubLabel(n)) && |SubLabel(n)| == 6
  {
    var l := SubLabel(n);
    assert l[0] == 'S' && l[1] == 'U' && l[2] == 'B' && l[3] == '_' && IsDigit(l[4]) && IsDigit(l[5]);
  }

  lemma FieldsSafe(f: Form)
    requires Fits(f)
    ensures SafeFields(Fields(f)) && Width(Fields(f)) <= 803 && |Fields(f)| == 37
  {
    PersonalSafe(f);
    ExamSafe(f);
    CollegeSafe(f);
    PreviousSafe(f);
    SubjectsSafe(f, NUM_TOTAL_SUB);
    PhotoSafe(f);
    var a, b, c, d, e := Personal(f), Exam(f), College(f), Previous(f), Subjects(f, NUM_TOTAL_SUB);
    var photo := [Field("PHOTO", f.photo)];
    assert |a| == 5 && |b| == 5 && |c| == 5 && |d| == 4;
    assert Fields(f) == a + b + c + d + e + photo;
    hide Fields, Personal, Exam, College, Previous, Subjects, Print, Width, Fits, SafeField;
    WidthAppend(a, b);
    WidthAppend(a + b, c);
    WidthAppend(a + b + c, d);
    WidthAppend(a + b + c + d, e);
    WidthAppend(a + b + c + d + e, photo);
  }

  lemma PhotoSafe(f: Form)
    requires Fits(f)
    ensures SafeFields([Field("PHOTO", f.photo)]) && Width([Field("PHOTO", f.photo)]) <= 86
  {
    hide SafeLabel, Clean, GROUPS, SECTIONS, NameOk;
    PreviousTags();
    var ps := [Field("PHOTO", f.photo)];
    assert Width(ps) == |Print(ps[0])| + Width([]);
  }

  lemma HeaderSafe(f: Form, sent: int)
    requires Fits(f)
    ensures Scannable(HeaderOf(f, if sent == 0 then 0 else 1))
    ensures PlainLine(HeaderLine(HeaderOf(f, sent))) && |HeaderLine(HeaderOf(f, sent))| <= 78
  {
    hide GROUPS, SECTIONS, NameOk, Print04, Value4, PlainLine;
    var roll, tot := Value4(f.roll), Value4(f.tot);
    Print04IsPad4(roll);
    Print04IsPad4(tot);
    CleanGroup(f);
    ChoicesAreClean(f);
    NameIsText(f);
    forall c | c in f.group ensures c != ':' { GroupChars(f.group, c); }
    DigitsAreClean(Pad4(roll));
    DigitsAreClean(Pad4(tot));
    HeaderLineIsPlain(f.gender, Pad4(roll), f.section, Pad4(tot), f.group, Flag(sent), f.name);
  }

  lemma NameIsText(f: Form)
    requires Fits(f)
    ensures f.name != ""
  {
    hide Text, Number;
  }

  lemma HeaderLineIsPlain(gender: string, roll: string, section: string, tot: string, group: string,
                          flag: string, name: string)
    requires Clean(gender) && Clean(roll) && Clean(section) && Clean(tot) && Clean(group) && Clean(name)
    requires 4 <= |gender| <= 6 && |roll| == 4 && |section| == 1 && |tot| == 4 && |group| <= 15 && |name| <= 40
    requires gender[0] == 'M' || (gender[0] == 'F' && gender[1] == 'e')
    requires flag == "0" || flag == "1"
    ensures var line := gender + ":" + roll + ":" + section + ":" + tot + ":" + group + ":" + flag + ":" + name + "\n";
            PlainLine(line) && |line| <= 78
  {
    var body := gender + ":" + roll + ":" + section + ":" + tot + ":" + group + ":" + flag + ":" + name;
    var line := body + "\n";
    CleanJoin(gender, roll);
    CleanJoin(gender + ":" + roll, section);
    CleanJoin(gender + ":" + roll + ":" + section, tot);
    CleanJoin(gender + ":" + roll + ":" + section + ":" + tot, group);
    CleanJoin(gender + ":" + roll + ":" + section + ":" + tot + ":" + group, flag);
    CleanJoin(gender + ":" + roll + ":" + section + ":" + tot + ":" + group + ":" + flag, name);
    assert body[0] == gender[0] && body[1] == gender[1];
    CleanLineIsPlain(body);
  }

  lemma CleanJoin(a: string, b: string)
    requires Clean(a) && Clean(b)
    ensures Clean(a + ":" + b)
  {
  }

  lemma CleanLineIsPlain(body: string)
    requires Clean(body) && 2 <= |body| < 100
    requires body[0] == 'M' || (body[0] == 'F' && body[1] == 'e')
    ensures PlainLine(body + "\n")
  {
    var line := body + "\n";
    assert line[|line| - 1] == LF && line[0] == body[0] && line[1] == body[1];
    assert forall i :: 0 <= i < |line| - 1 ==> line[i] == body[i];
    assert Server.DOT[0] == '.' && Server.QUIT[0] == 'Q' && "BINARY "[0] == 'B';
    assert Server.FILENAME[0] == 'F' && Server.FILENAME[1] == 'I';
  }

  /** Every form within the widget widths has exactly 39 lines of at most 119 bytes that the
      server cannot mistake for a command, and its record stays at 921 bytes or less: the size
      guard never fires and every copy ends inside the 1024-byte buffer. */
  lemma FormIsSendable(f: Form, sent: int)
    requires Fits(f)
    ensures |FormLines(f, sent)| == TXTLINES && Sendable(FormLines(f, sent))
    ensures |Pack(FormLines(f, sent))| <= 921
  {
    var lines, ps := FormLines(f, sent), Fields(f);
    FieldsSafe(f);
    HeaderSafe(f, sent);
    PrintAllIs(ps);
    WidthIs(ps);
    PackSize(lines);
    var head := HeaderLine(HeaderOf(f, sent));
    hide Fields, Print, Flatten, HeaderLine, HeaderOf, SafeLabel, Text, Width, Fits, PlainLine;
    FlattenAppend([head, "\n"], PrintAll(ps));
    TwoLines(head, "\n");
    BlankLine();
    forall i | 0 <= i < |lines| ensures PlainLine(lines[i]) {
      if i >= 2 {
        assert lines[i] == Print(ps[i - 2]) && ps[i - 2] in ps;
        SafeLine(ps[i - 2]);
      }
    }
  }

  /** The bytes of a form that are not the same in every form; gender, group and name stand in the
      header line too. */
  function Letters(f: Form): nat {
    2 * |f.name| + 2 * |f.group| + 2 * |f.gender| + |f.father| + |f.mother| + |f.session| + |f.board|
    + |Birthdate(f)| + |f.section| + |f.collegeCode| + |f.collegeName| + |f.prevBoard| + |f.prevYear| + |f.prevRoll|
    + |f.prevReg| + |f.sessStart| + |f.sessEnd| + |f.religion| + SubjectLetters(f.subs) + |f.photo|
  }

  function SubjectLetters(subs: seq<string>): nat {
    if subs == [] then 0 else SubjectLetters(subs[..|subs| - 1]) + |subs[|subs| - 1]|
  }

  lemma {:induction false} SubjectsSize(f: Form, n: nat)
    requires n <= |f.subs| && n < 99
    ensures Width(Subjects(f, n)) == 8 * n + SubjectLetters(f.subs[..n])
  {
    if n > 0 {
      SubjectsSize(f, n - 1);
      var p := Field(SubLabel(n), f.subs[n - 1]);
      WidthAppend(Subjects(f, n - 1), [p]);
      assert Width([p]) == |Print(p)| + Width([]);
      assert f.subs[..n][..n - 1] == f.subs[..n - 1];
    }
  }

  lemma PartSizes(f: Form)
    requires Fits(f)
    ensures Width(Personal(f)) == 59 + |f.name| + |f.father| + |f.mother| + |f.group| + |f.session|
    ensures Width(Exam(f)) == 57 + |f.board| + |Birthdate(f)| + |f.section|
    ensures Width(College(f)) == 78 + |f.collegeCode| + |f.collegeName| + |f.prevBoard| + |f.prevYear| + |f.prevRoll|
    ensures Width(Previous(f)) == 51 + |f.prevReg| + |f.sessStart| + |f.sessEnd| + |f.gender| + |f.religion|
    ensures Width([Field("PHOTO", f.photo)]) == 7 + |f.photo|
  {
    hide Width, Zeroed, Birthdate, Text, NameOk, GROUPS, SECTIONS;
    Width5(Personal(f));
    Width5(Exam(f));
    Width5(College(f));
    Width5(Previous(f));
    OneField(Field("PHOTO", f.photo));
  }

  lemma OneField(p: Field)
    ensures Width([p]) == |Print(p)|
  {
    assert Width([p]) == |Print(p)| + Width([]);
  }

  lemma FieldsSize(f: Form)
    requires Fits(f)
    ensures Width(Fields(f)) == 388 + Letters(f) - |f.name| - |f.group| - |f.gender|
  {
    var a, b, c, d, e := Personal(f), Exam(f), College(f), Previous(f), Subjects(f, NUM_TOTAL_SUB);
    var photo := [Field("PHOTO", f.photo)];
    PartSizes(f);
    SubjectsSize(f, NUM_TOTAL_SUB);
    assert f.subs[..NUM_TOTAL_SUB] == f.subs;
    assert Fields(f) == a + b + c + d + e + photo;
    hide Fields, Personal, Exam, College, Previous, Subjects, Print, Width, Fits, Birthdate, SubjectLetters;
    WidthAppend(a, b);
    WidthAppend(a + b, c);
    WidthAppend(a + b + c, d);
    WidthAppend(a + b + c + d, e);
    WidthAppend(a + b + c + d + e, photo);
  }

  /** The size of a form's record, exactly. */
  lemma RecordSize(f: Form, sent: int)
    requires Fits(f)
    ensures |Pack(FormLines(f, sent))| == 445 + Letters(f)
  {
    var lines, ps := FormLines(f, sent), Fields(f);
    var head := HeaderLine(HeaderOf(f, sent));
    FormIsSendable(f, sent);
    HeaderSize(f, sent);
    SectionIsOne(f);
    FieldsSize(f);
    PackSize(lines);
    WidthIs(ps);
    assert lines == [head, "\n"] + PrintAll(ps);
    hide Fields, Print, Flatten, HeaderLine, HeaderOf, Width, Fits, Letters, Pack, FormLines, Sendable;
    FlattenAppend([head, "\n"], PrintAll(ps));
    TwoLines(head, "\n");
  }

  lemma SectionIsOne(f: Form)
    requires Fits(f)
    ensures |f.section| == 1
  {
    hide GROUPS, Text, NameOk, Number;
  }

  lemma HeaderSize(f: Form, sent: int)
    requires Fits(f)
    ensures |HeaderLine(HeaderOf(f, sent))| == 16 + |f.gender| + |f.section| + |f.group| + |f.name|
  {
    hide GROUPS, SECTIONS, NameOk, Print04, Value4;
    Print04IsPad4(Value4(f.roll));
    Print04IsPad4(Value4(f.tot));
  }

  /** The header line of a form, spelled out. */
  lemma HeaderText(f: Form, sent: int)
    requires Fits(f)
    ensures HeaderLine(HeaderOf(f, sent))
         == f.gender + ":" + Zeroed(f.roll) + ":" + f.section + ":" + Zeroed(f.tot) + ":" + f.group + ":"
            + (if sent == 0 then "0" else "1") + ":" + f.name + "\n"
  {
    hide GROUPS, SECTIONS, NameOk, Print04, Value4, Zeroed;
    PaddedText(f.roll);
    PaddedText(f.tot);
  }

  lemma TwoLines(a: string, b: string)
    ensures |Flatten([a, b])| == |a| + |b|
  {
    assert [a, b][1..] == [b] && [b][1..] == [];
    assert Flatten([b]) == b + Flatten([]);
  }

  lemma BlankLine()
    ensures PlainLine("\n")
  {
    assert "\n"[0] == LF;
    assert Server.DOT[0] == '.' && Server.QUIT[0] == 'Q' && "BINARY "[0] == 'B' && Server.FILENAME[0] == 'F';
  }
}
