/** The form file on the client's disk: written once, marked sent in place, loaded back into the
    editor window, and named after its student. */
module FormFile {
  import opened Bytes
  import opened Streams
  import opened Records
  import opened Framing
  import opened Forms

  // ---------------------------------------------------------------------------------------
  // Marking a form sent, in place
  // ---------------------------------------------------------------------------------------

  /** The first line fgets reads from a file. */
  function FirstLine(text: string): string {
    LinePrefix(text, MAXLINE - 1)
  }

  /** The bytes of a file after `s` was written over its beginning. */
  function Overwritten(text: string, s: string): string {
    s + (if |s| <= |text| then text[|s|..] else "")
  }

  /** The sent flag apply_forms reads; None when the header cannot be scanned. */
  function SentFlag(text: string): Option<int> {
    match ScanFields(CStr(FirstLine(text)))
    case None => None
    case Some(h) => Some(h.5)
  }

  /** What apply_form makes of the file of an acknowledged form. */
  function Marked(text: string): string {
    match ScanHeader(CStr(FirstLine(text)))
    case None => text
    case Some(h) => Overwritten(text, HeaderLine(h.(sent := 1)))
  }

  class TextFile {
    var content: string

    constructor (content: string)
      ensures this.content == content
    {
      this.content := content;
    }

    /** Reopened for update: read and scan the first line, rewind, print it with sent = 1. The file
        of a form becomes the file of the form as saved sent: of the same length, with one byte
        changed. When the header cannot be scanned the source prints whatever its variables held
        before; the file is then left as it is here. */
    method MarkSent()
      modifies this
      ensures forall f, sent :: Fits(f) && (sent == 0 || sent == 1) && old(content) == FormText(f, sent) ==>
                && content == FormText(f, 1)
                && FlagAt(f) < |old(content)| && content == old(content)[FlagAt(f) := '1']
      ensures SentFlag(old(content)).None? ==> content == old(content)
      ensures content == Marked(old(content))
    {
      hide HeaderLine, ScanFields, Fits, FormText, FlagAt;
      var buffer := FirstLine(content);
      var scanned := ScanHeader(CStr(buffer));
      if scanned.Some? {
        content := Overwritten(content, HeaderLine(scanned.value.(sent := 1)));
      }
      forall f, sent | Fits(f) && (sent == 0 || sent == 1) && old(content) == FormText(f, sent)
        ensures content == FormText(f, 1)
        ensures FlagAt(f) < |old(content)| && content == old(content)[FlagAt(f) := '1']
      {
        MarkingIsOneByte(f);
      }
    }
  }

  /** The header line of a written form and the rest of its file. */
  lemma FileParts(f: Form, sent: int)
    requires Fits(f)
    ensures var head := HeaderLine(HeaderOf(f, sent));
            && FormText(f, sent) == head + BodyText(f)
            && FirstLine(FormText(f, sent)) == head && CStr(head) == head
  {
    HeaderSafe(f, sent);
    var head := HeaderLine(HeaderOf(f, sent));
    hide HeaderLine, Fits, Fields, HeaderOf, PrintAll, CStr, LinePrefix;
    TextIs(head, f, sent);
    HeadIsFirst(head, BodyText(f));
  }

  /** Everything after the header line; it does not depend on the sent flag. */
  function BodyText(f: Form): string
    requires Fits(f)
  {
    Flatten(["\n"] + PrintAll(Fields(f)))
  }

  lemma TextIs(head: string, f: Form, sent: int)
    requires Fits(f) && head == HeaderLine(HeaderOf(f, sent))
    ensures FormText(f, sent) == head + BodyText(f)
  {
    hide HeaderLine, Fits, Fields, HeaderOf, PrintAll;
    FitsNumbers(f);
    FlattenCons(head, ["\n"] + PrintAll(Fields(f)));
    assert FormLines(f, sent) == [head] + (["\n"] + PrintAll(Fields(f)));
    hide Flatten;
  }

  lemma FlattenCons(line: string, lines: seq<string>)
    ensures Flatten([line] + lines) == line + Flatten(lines)
  {
    assert ([line] + lines)[1..] == lines;
  }

  lemma HeadIsFirst(head: string, rest: string)
    requires PlainLine(head)
    ensures FirstLine(head + rest) == head && CStr(head) == head
  {
    LinePrefixOfWhole(head, rest, MAXLINE - 1);
    CStrExact(head, "");
    assert head + "" == head;
  }

  lemma MarkedIs(text: string, head: string, rest: string, h: Header)
    requires text == head + rest && FirstLine(text) == head && CStr(head) == head && ScanHeader(head) == Some(h)
    requires |HeaderLine(h.(sent := 1))| == |head|
    ensures Marked(text) == HeaderLine(h.(sent := 1)) + rest
  {
    hide HeaderLine, ScanHeader, FirstLine, CStr;
  }

  /** A form is skipped exactly when its file says it was sent. */
  lemma FlagIsRead(f: Form, sent: int)
    requires Fits(f) && (sent == 0 || sent == 1)
    ensures SentFlag(FormText(f, sent)) == Some(sent)
  {
    FileParts(f, sent);
    HeaderSafe(f, sent);
    hide HeaderLine, ScanFields, Fits, FormText, FormLines;
    FieldsAreFound(HeaderOf(f, sent));
  }

  /** Where the sent flag stands in the file of a form. */
  function FlagAt(f: Form): nat { |f.gender| + |f.section| + |f.group| + 13 }

  /** Marking a written form sent gives the form as it would have been written sent: the file
      keeps its length and changes in exactly one byte, so every later line is untouched. */
  lemma MarkingIsOneByte(f: Form)
    requires Fits(f)
    ensures var before, after := FormText(f, 0), FormText(f, 1);
            && Marked(before) == after && Marked(after) == after
            && |after| == |before|
            && FlagAt(f) < |before| && before[FlagAt(f)] == '0' && after[FlagAt(f)] == '1'
            && forall i :: 0 <= i < |before| && i != FlagAt(f) ==> after[i] == before[i]
  {
    FileParts(f, 0);
    FileParts(f, 1);
    HeaderSafe(f, 0);
    HeaderSafe(f, 1);
    HeaderRoundTrip(HeaderOf(f, 0));
    HeaderRoundTrip(HeaderOf(f, 1));
    FlagByte(f);
    assert HeaderOf(f, 0).(sent := 1) == HeaderOf(f, 1) && HeaderOf(f, 1).(sent := 1) == HeaderOf(f, 1);
    var h0, h1 := HeaderLine(HeaderOf(f, 0)), HeaderLine(HeaderOf(f, 1));
    hide HeaderLine, HeaderOf, ScanHeader, Fits, FormText, CStr, FirstLine, BodyText, Scannable, PlainLine, Marked,
        FlagAt;
    MarkedIs(FormText(f, 0), h0, BodyText(f), HeaderOf(f, 0));
    MarkedIs(FormText(f, 1), h1, BodyText(f), HeaderOf(f, 1));
    OneByteApart(h0, h1, BodyText(f), FlagAt(f));
  }

  lemma OneByteApart(a: string, b: string, rest: string, k: nat)
    requires |a| == |b| && k < |a| && forall i :: 0 <= i < |a| && i != k ==> a[i] == b[i]
    ensures var s, t := a + rest, b + rest;
            |s| == |t| && k < |s| && s[k] == a[k] && t[k] == b[k]
            && forall i :: 0 <= i < |s| && i != k ==> t[i] == s[i]
  {
  }

  lemma FlagByte(f: Form)
    requires Fits(f)
    ensures var h0, h1 := HeaderLine(HeaderOf(f, 0)), HeaderLine(HeaderOf(f, 1));
            && |h0| == |h1| && FlagAt(f) < |h0| && h0[FlagAt(f)] == '0' && h1[FlagAt(f)] == '1'
            && forall i :: 0 <= i < |h0| && i != FlagAt(f) ==> h0[i] == h1[i]
  {
    var roll, tot := Value4(f.roll), Value4(f.tot);
    Print04IsPad4(roll);
    Print04IsPad4(tot);
    hide Print04, Fits, Value4;
    var pre := f.gender + ":" + Pad4(roll) + ":" + f.section + ":" + Pad4(tot) + ":" + f.group + ":";
    var post := ":" + f.name + "\n";
    assert |pre| == FlagAt(f);
    assert HeaderLine(HeaderOf(f, 0)) == pre + "0" + post;
    assert HeaderLine(HeaderOf(f, 1)) == pre + "1" + post;
  }

  // ---------------------------------------------------------------------------------------
  // Writing the file
  // ---------------------------------------------------------------------------------------

  /** The file being written, with the fields printed to it so far. */
  class FormWriter {
    var fp: string
    ghost var done: seq<Field>

    ghost predicate Valid()
      reads this
    {
      fp == Flatten(PrintAll(done))
    }

    constructor ()
      ensures Valid() && done == []
    {
      fp, done := "", [];
    }

    /** fprintf(fp, "LABEL %s\n", value) */
    method Put(tag: string, value: string)
      requires Valid()
      modifies this
      ensures Valid() && done == old(done) + [Field(tag, value)]
    {
      hide PrintAll, Flatten;
      OneMore(done, Field(tag, value));
      fp := fp + tag + " " + value + "\n";
      done := done + [Field(tag, value)];
    }
  }

  lemma OneMore(ps: seq<Field>, p: Field)
    ensures Flatten(PrintAll(ps + [p])) == Flatten(PrintAll(ps)) + Print(p)
  {
    PrintAllAppend(ps, [p]);
    assert [p][1..] == [];
    assert PrintAll([p]) == [Print(p)];
    FlattenSnoc(PrintAll(ps), Print(p));
    hide Print, Flatten;
  }

  /** The printing part of verify_form, a few lines at a time. */
  method WritePersonal(w: FormWriter, f: Form)
    requires w.Valid()
    modifies w
    ensures w.Valid() && w.done == old(w.done) + Personal(f)
  {
    hide FormWriter.Valid;
    w.Put("STUDENTS_NAME", f.name);
    w.Put("FATHERS_NAME", f.father);
    w.Put("MOTHERS_NAME", f.mother);
    w.Put("GROUP", f.group);
    w.Put("SESSION", f.session);
  }

  method WriteExam(w: FormWriter, f: Form)
    requires w.Valid() && Number(f.roll, 4) && Number(f.tot, 4)
    modifies w
    ensures w.Valid() && w.done == old(w.done) + Exam(f)
  {
    PaddedText(f.roll);
    PaddedText(f.tot);
    hide FormWriter.Valid, Print04, Value4, Zeroed;
    w.Put("BOARD", f.board);
    w.Put("CLASS_ROLL", Print04(Value4(f.roll)));
    w.Put("BIRTHDATE", f.day + "-" + f.month + "-" + f.year);
    w.Put("TOT_LIST", Print04(Value4(f.tot)));
    w.Put("SECTION", f.section);
  }

  method WriteCollege(w: FormWriter, f: Form)
    requires w.Valid()
    modifies w
    ensures w.Valid() && w.done == old(w.done) + College(f)
  {
    hide FormWriter.Valid;
    w.Put("INSTITUTE_CODE", f.collegeCode);
    w.Put("INSTITUTE_NAME", f.collegeName);
    w.Put("PREVIOUS_BOARD", f.prevBoard);
    w.Put("PREVIOUS_YEAR", f.prevYear);
    w.Put("PREVIOUS_ROLL", f.prevRoll);
  }

  method WritePrevious(w: FormWriter, f: Form)
    requires w.Valid()
    modifies w
    ensures w.Valid() && w.done == old(w.done) + Previous(f)
  {
    hide FormWriter.Valid;
    w.Put("PREVIOUS_REG", f.prevReg);
    w.Put("PREVIOUS_SESSION", f.sessStart + "-" + f.sessEnd);
    w.Put("GENDER", f.gender);
    w.Put("RELIGION", f.religion);
  }

  /** The loop over the subject boxes. */
  method WriteSubjects(w: FormWriter, f: Form)
    requires w.Valid() && |f.subs| == NUM_TOTAL_SUB
    modifies w
    ensures w.Valid() && w.done == old(w.done) + Subjects(f, NUM_TOTAL_SUB)
  {
    hide FormWriter.Valid, SubLabel;
    ghost var before := w.done;
    var i := 0;
    while i < NUM_TOTAL_SUB
      invariant 0 <= i <= NUM_TOTAL_SUB && w.Valid()
      invariant w.done == before + Subjects(f, i)
    {
      w.Put(SubLabel(i + 1), f.subs[i]);
      i := i + 1;
    }
  }

  /** The whole file: header, labelled lines, the subject boxes, the photo line. */
  method WriteForm(f: Form) returns (text: string)
    requires Fits(f)
    ensures text == FormText(f, 0)
  {
    FitsNumbers(f);
    hide Print, PrintAll, Flatten, HeaderLine, Fits, FormWriter.Valid, Personal, Exam, College, Previous, Subjects,
        FormText;
    var w := new FormWriter();
    WritePersonal(w, f);
    assert w.done == Personal(f);
    WriteExam(w, f);
    WriteCollege(w, f);
    WritePrevious(w, f);
    WriteSubjects(w, f);
    w.Put("PHOTO", f.photo);
    assert w.done == Fields(f);
    text := HeaderLine(HeaderOf(f, 0)) + "\n" + w.fp;
    WriterText(w);
    TextOfParts(f, w.fp);
  }

  lemma FitsNumbers(f: Form)
    requires Fits(f)
    ensures Number(f.roll, 4) && Number(f.tot, 4) && |f.subs| == NUM_TOTAL_SUB
  {
  }

  lemma WriterText(w: FormWriter)
    requires w.Valid()
    ensures w.fp == Flatten(PrintAll(w.done))
  {
  }

  lemma TextOfParts(f: Form, body: string)
    requires Fits(f) && body == Flatten(PrintAll(Fields(f)))
    ensures FormText(f, 0) == HeaderLine(HeaderOf(f, 0)) + "\n" + body
  {
    hide HeaderLine, Fields, Fits, PrintAll, HeaderOf, Flatten;
    FitsNumbers(f);
    var head, rest := HeaderLine(HeaderOf(f, 0)), PrintAll(Fields(f));
    assert FormLines(f, 0) == [head] + (["\n"] + rest);
    FlattenCons(head, ["\n"] + rest);
    FlattenCons("\n", rest);
    assert head + ("\n" + body) == head + "\n" + body;
  }
}
