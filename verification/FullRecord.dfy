/** One college, five forms, and a run in which the server writes past the record buffer although
    no connection breaks and no file of the server fails. */
module FullRecord {
  import opened Bytes
  import opened Streams
  import opened Records
  import opened Server
  import opened Framing
  import opened Forms
  import opened FileNames
  import opened Protocol
  import opened ProtocolInvariant
  import opened Announcements
  import opened RecordRoom
  import opened ProtocolTheorems
  import opened ProtocolOverruns
  import opened Registration
  import LostForm

  const SHEETS: nat := 5

  function Filled(c: char, n: nat): (r: string)
    ensures |r| == n && forall i :: 0 <= i < n ==> r[i] == c
  {
    seq(n, _ => c)
  }

  function SectionAt(i: nat): string
    requires i < SHEETS
  {
    ["A", "B", "C", "D", "E"][i]
  }

  /** A form with every field as long as its widget lets it be. */
  function Wide(i: nat): Form
    requires i < SHEETS
  {
    Form(Filled('A', 40), Filled('B', 40), Filled('C', 40), "Islamic Studies", "2004", Filled('D', 10),
         "1", "31", "Dec", "1990", "1", SectionAt(i), "0101", Filled('E', 70), Filled('D', 10), "2003",
         "123456", "123456", "2001", "2002", "Female", Filled('F', 10), seq(NUM_TOTAL_SUB, _ => "101"), Filled('G', 79))
  }

  lemma FilledIs(c: char, n: nat)
    requires IsAlpha(c)
    ensures Text(Filled(c, n), n) && (n > 0 ==> NameOk(Filled(c, n)))
  {
  }

  lemma WideFits(i: nat)
    requires i < SHEETS
    ensures Fits(Wide(i)) && |Wide(i).photo| == 79
  {
    FilledIs('A', 40);
    FilledIs('B', 40);
    FilledIs('C', 40);
    FilledIs('D', 10);
    FilledIs('E', 70);
    FilledIs('F', 10);
    FilledIs('G', 79);
    assert GROUPS[6] == "Islamic Studies" && SECTIONS[i + 1] == SectionAt(i);
    hide Filled, NameOk, SectionAt;
    ShortTexts();
    hide GROUPS, SECTIONS, Text, Number;
  }

  lemma ShortTexts()
    ensures Text("2004", 4) && Number("1", 4) && Text("31", 2) && Text("Dec", 3) && Text("1990", 4) && Text("0101", 4)
    ensures Text("2003", 4) && Text("123456", 6) && Text("2001", 4) && Text("2002", 4) && Text("101", 3)
  {
  }

  lemma {:induction false} SubjectsFull(subs: seq<string>)
    requires forall i :: 0 <= i < |subs| ==> |subs[i]| == 3
    ensures SubjectLetters(subs) == 3 * |subs|
    decreases |subs|
  {
    if subs != [] { SubjectsFull(subs[..|subs| - 1]); }
  }

  /** The most a record of the editor can come to. */
  lemma WideIsFull(i: nat)
    requires i < SHEETS
    ensures Letters(Wide(i)) == 476
  {
    SubjectsFull(Wide(i).subs);
    hide SubjectLetters, Filled;
    assert |SectionAt(i)| == 1;
  }

  function NameAt(i: nat): string
    requires i < SHEETS
  {
    WideFits(i);
    NameOf(Wide(i))
  }

  function LinesAt(i: nat): seq<string>
    requires i < SHEETS
  {
    WideFits(i);
    FormLines(Wide(i), 0)
  }

  lemma NamesDiffer(i: nat, j: nat)
    requires i < j < SHEETS
    ensures NameAt(i) != NameAt(j)
  {
    var f, g := Wide(i), Wide(j);
    WideFits(i);
    WideFits(j);
    FormIsChoosable(f);
    FormIsChoosable(g);
    assert SectionAt(i) != SectionAt(j);
    hide Fits, Choosable, ConstructFilename, Value4, SectionAt;
    if NameAt(i) == NameAt(j) {
      NameIsStandard(f.gender, Value4(f.roll), f.section, Value4(f.tot), f.group);
      KeysAreDistinct(f.gender, Value4(f.roll), f.section, Value4(f.tot), f.group,
                      g.gender, Value4(g.roll), g.section, Value4(g.tot), g.group);
    }
  }

  /** The files of the first `k` sheets. */
  function Files(k: nat): map<string, seq<string>>
    requires k <= SHEETS
  {
    if k == 0 then map[] else Files(k - 1)[NameAt(k - 1) := LinesAt(k - 1)]
  }

  lemma {:induction false} FilesAre(k: nat)
    requires k <= SHEETS
    ensures forall i :: 0 <= i < k ==> NameAt(i) in Files(k) && Files(k)[NameAt(i)] == LinesAt(i)
    ensures forall n :: n in Files(k) ==> exists i :: 0 <= i < k && n == NameAt(i)
  {
    hide NameAt, LinesAt;
    if k > 0 {
      FilesAre(k - 1);
      forall i | 0 <= i < k - 1 ensures NameAt(i) != NameAt(k - 1) { NamesDiffer(i, k - 1); }
    }
  }

  function Clerk(): Client { LostForm.ClerkWith(Files(SHEETS)) }

  function Office(): Config { LostForm.OfficeOf(Clerk()) }

  lemma SheetIsSaved(i: nat)
    requires i < SHEETS
    ensures SavedForm(Clerk(), NameAt(i), Wide(i))
  {
    WideFits(i);
    FilesAre(SHEETS);
    hide Fits, Wide, FormLines, Files, NameOf;
  }

  lemma OfficeIsASystem()
    ensures System(Office()) && |Office().clients| == 1 && Office().clients[0] == Clerk()
    ensures Entitled(Office(), Clerk()) && |Clerk().login| == 4
  {
    hide NameAt, LinesAt, Files, SavedForm, Wide;
    FilesAre(SHEETS);
    forall n | n in Clerk().forms ensures exists f :: SavedForm(Clerk(), n, f) {
      var i :| 0 <= i < SHEETS && n == NameAt(i);
      SheetIsSaved(i);
    }
    LostForm.KnownClerk(Files(SHEETS));
    LostForm.SystemOf(Clerk());
  }

  function Names(): seq<string> { seq(SHEETS, i requires 0 <= i < SHEETS => NameAt(i)) }

  lemma NamesAreAnnounceable()
    ensures Announceable(Clerk(), Names())
  {
    hide NameAt, LinesAt, Files, FormDirectory, SavedForm, Wide, Sendable, Pack;
    var c, names := Clerk(), Names();
    forall i | 0 <= i < SHEETS ensures names[i] in c.forms && GoodName(names[i]) && |names[i]| == NAME_LENGTH {
      SheetIsSaved(i);
      SavedFormIsGood(c, NameAt(i), Wide(i));
      SavedIsThere(c, NameAt(i), Wide(i));
    }
    forall i, j | 0 <= i < j < SHEETS ensures names[i] != names[j] { NamesDiffer(i, j); }
  }

  lemma SavedIsThere(c: Client, n: string, f: Form)
    requires SavedForm(c, n, f)
    ensures Fits(f) && n in c.forms && c.forms[n] == FormLines(f, 0)
  {
    hide Fits, NameOf, FormLines;
  }

  lemma NamesOverrun()
    ensures |Names()| == 5 && Names()[4] in Clerk().forms && Overfull(Names(), Clerk().forms[Names()[4]])
  {
    hide Wide, Clerk, SavedForm, Fits, FormLines, NameAt, Overfull, Letters, Names;
    LastName();
    WideFits(4);
    WideIsFull(4);
    SheetIsSaved(4);
    SavedIsThere(Clerk(), NameAt(4), Wide(4));
    FiveNamesOverrun(Names(), Wide(4));
  }

  /** Four forms that cannot be opened again, and the fifth, as long as the editor allows, make their
      thread write past the record buffer: 4 names of 30 bytes and a record of 921 bytes are 1041. */
  lemma FiveFormsOverrun() returns (w: World)
    ensures Reachable(Office(), w) && |w.sessions| == 1
    ensures var s := w.sessions[0];
            s.up && s.diskOk && s.server.Talking? && s.server.mode.Undefined? && s.names <= Names()
    ensures |Names()| == 5
  {
    hide System, Sound, Entitled, Reachable, Names, Clerk, Office, Announceable, Overfull;
    NamesOverrun();
    OfficeIsASystem();
    SystemIsSound(Office());
    NamesAreAnnounceable();
    w := OverrunRun(Office(), 0, Names());
  }

  lemma FullRecordIs(i: nat)
    requires i < SHEETS
    ensures Fits(Wide(i)) && |Pack(FormLines(Wide(i), 0))| == 921
  {
    hide Wide, Fits, Pack, FormLines, Letters;
    WideFits(i);
    WideIsFull(i);
    RecordSize(Wide(i), 0);
  }

  lemma LastName()
    ensures |Names()| == 5 && Names()[4] == NameAt(4)
  {
    hide NameAt;
  }
}
