/** The whole way of a registration form: verified and saved by the editor, sent by apply_forms,
    stored by the server, read back by the database tools. */
module Registration {
  import opened Bytes
  import opened Streams
  import opened Records
  import opened Server
  import opened Framing
  import opened Forms
  import FormFile
  import FormWindow
  import opened FileNames
  import opened Protocol
  import opened ProtocolInvariant
  import opened ProtocolServer
  import ProtocolRuns
  import opened Announcements
  import opened RecordRoom
  import opened ProtocolTheorems
  import opened ProtocolProgress
  import opened ProtocolSessions
  import opened ProtocolScripts
  import opened ProtocolOverruns

  /** The file verify_form saves a form in. */
  function NameOf(f: Form): string
    requires Number(f.roll, 4) && Number(f.tot, 4)
  {
    ConstructFilename(f.gender, Value4(f.roll), f.section, Value4(f.tot), f.group)
  }

  lemma FormIsChoosable(f: Form)
    requires Fits(f)
    ensures Number(f.roll, 4) && Number(f.tot, 4)
    ensures Choosable(f.gender, Value4(f.roll), f.section, Value4(f.tot), f.group)
  {
    hide Text, GROUPS, SECTIONS, NameOk;
  }

  /** File `n` holds a form as verify_form saved it. */
  predicate SavedForm(c: Client, n: string, f: Form) {
    Fits(f) && n == NameOf(f) && n in c.forms && c.forms[n] == FormLines(f, 0)
  }

  /** A client whose directory holds what verify_form saved there. */
  ghost predicate FormDirectory(c: Client) {
    forall n :: n in c.forms ==> exists f :: SavedForm(c, n, f)
  }

  lemma SavedFormIsGood(c: Client, n: string, f: Form)
    requires SavedForm(c, n, f)
    ensures GoodName(n) && |n| == NAME_LENGTH && ".txt" == n[|n| - 4..]
    ensures Sendable(c.forms[n]) && |Pack(c.forms[n])| <= 921 && |c.forms[n]| == TXTLINES
  {
    FormIsChoosable(f);
    FormIsSendable(f, 0);
    NameIsStandard(f.gender, Value4(f.roll), f.section, Value4(f.tot), f.group);
    hide Fits, FormLines, ConstructFilename, Sendable, GoodName, Pack;
  }

  /** What the protocol asks of form files holds of all files verify_form can save: names of 19
      characters, 39 lines, nothing that looks like a command, at most 921 bytes of record. */
  lemma DirectoryIsGood(c: Client)
    requires FormDirectory(c)
    ensures FormFiles(c.forms) && Bounded(c, TXTLINES)
    ensures forall n :: n in c.forms ==> |n| == NAME_LENGTH && |Pack(c.forms[n])| <= 921
  {
    hide SavedForm, Sendable, GoodName, Pack;
    forall n | n in c.forms
      ensures GoodName(n) && |n| == NAME_LENGTH && ".txt" == n[|n| - 4..] && Sendable(c.forms[n])
              && |Pack(c.forms[n])| <= 921 && |c.forms[n]| == TXTLINES
    {
      var f :| SavedForm(c, n, f);
      SavedFormIsGood(c, n, f);
    }
  }

  /** What the name of a form's file spells, character by character. */
  lemma NameSpells(f: Form)
    requires Fits(f)
    ensures Number(f.roll, 4) && Number(f.tot, 4) && |NameOf(f)| == 19
    ensures var n := NameOf(f);
            && n[0] == (if f.gender == "Male" then 'M' else 'F')
            && n[2..6] == Zeroed(f.roll) && n[9..13] == Zeroed(f.tot)
            && n[7] == (if f.section == " " then '_' else f.section[0])
            && (if f.group == "Home Economics" then n[14] == 'u'
                else IsDigit(n[14]) && DigitValue(n[14]) < |GROUPS| && GROUPS[DigitValue(n[14])] == f.group)
  {
    FormIsChoosable(f);
    GenderIs(f);
    var n := NameOf(f);
    hide Fits, NameOf, Choosable, Value4, GROUPS, Zeroed;
    NameSays(f.gender, Value4(f.roll), f.section, Value4(f.tot), f.group);
    NumberInName(f.roll, n[2..6]);
    NumberInName(f.tot, n[9..13]);
  }

  lemma GenderIs(f: Form)
    requires Fits(f)
    ensures f.gender == "Male" || f.gender == "Female"
  {
    hide Text, Number, GROUPS, SECTIONS;
  }

  lemma NumberInName(s: string, digits: string)
    requires Number(s, 4) && |digits| == 4 && AllDigits(digits) && DecimalValue(digits) == Value4(s)
    ensures digits == Zeroed(s)
  {
    PaddedText(s);
    assert digits == [digits[0], digits[1], digits[2], digits[3]];
    FourDigits(digits[0], digits[1], digits[2], digits[3]);
    hide DecimalValue, Zeroed;
    DigitsOfFour(digits[0], digits[1], digits[2], digits[3], Value4(s));
  }

  /** Only forms of the same student, by gender, rolls, section and group, share a file and a key. */
  lemma SameKeySameStudent(f: Form, g: Form)
    requires Fits(f) && Fits(g) && |NameOf(f)| == 19 && |NameOf(g)| == 19 && KeyOf(NameOf(f)) == KeyOf(NameOf(g))
    ensures Number(f.roll, 4) && Number(g.roll, 4) && Number(f.tot, 4) && Number(g.tot, 4)
    ensures f.gender == g.gender && Zeroed(f.roll) == Zeroed(g.roll) && f.section == g.section
            && Zeroed(f.tot) == Zeroed(g.tot) && f.group == g.group
  {
    FormIsChoosable(f);
    FormIsChoosable(g);
    PaddedText(f.roll);
    PaddedText(g.roll);
    PaddedText(f.tot);
    PaddedText(g.tot);
    hide Fits, ConstructFilename, Choosable, Value4, Zeroed;
    KeysAreDistinct(f.gender, Value4(f.roll), f.section, Value4(f.tot), f.group,
                    g.gender, Value4(g.roll), g.section, Value4(g.tot), g.group);
  }

  // ---------------------------------------------------------------------------------------
  // The system
  // ---------------------------------------------------------------------------------------

  /** A server with its accounts, and clients that saved their forms with verify_form. */
  ghost predicate System(cfg: Config) {
    && |cfg.magic| == DIGEST
    && (forall u :: u in cfg.accounts ==>
          |cfg.accounts[u].digest| == DIGEST && ClockText(cfg.accounts[u].startText)
              && ClockText(cfg.accounts[u].endText))
    && (forall p :: 0 <= p < |cfg.clients| ==>
          |cfg.clients[p].login| == 4 && |cfg.clients[p].digest| == DIGEST && FormDirectory(cfg.clients[p]))
  }

  lemma SystemIsSound(cfg: Config)
    requires System(cfg)
    ensures Sound(cfg)
  {
    hide FormFiles, ClockText, FormDirectory;
    forall p | 0 <= p < |cfg.clients| ensures GoodClient(cfg.clients[p]) {
      DirectoryIsGood(cfg.clients[p]);
    }
  }

  lemma SystemClient(cfg: Config, p: nat)
    requires System(cfg) && p < |cfg.clients|
    ensures |cfg.clients[p].login| == 4 && FormDirectory(cfg.clients[p])
  {
    hide FormDirectory, ClockText;
  }

  /** End to end, from the form to the database tools: once the file of a form says sent, in any run
      in which its client could reopen the forms it announced, the college's database gives back exactly the
      39 lines verify_form saved - to reg_getdb line by line, to show_raw_data as the text of the
      file - unless another client put the key since. */
  lemma RegisteredForm(cfg: Config, es: seq<Event>, w: World, p: nat, n: string, f: Form)
    requires System(cfg) && p < |cfg.clients| && SavedForm(cfg.clients[p], n, f)
    requires ReopeningRun(cfg, es, w, p) && (p, n) in w.sent
    ensures |n| >= 4 && |cfg.clients[p].login| == 4 && Fits(f)
    ensures ProtocolRuns.HasPut(w.log, p, n)
    ensures forall k :: 0 <= k < |w.log| && ProtocolRuns.PutOf(w.log[k], p, n) && OwnSince(w.log, k) ==>
              GivesBack(Db(w.log, CollegeNumber(cfg.clients[p])), KeyOf(n), f)
  {
    hide System, Fits, NameOf, ReopeningRun, OwnSince, CollegeNumber, Unpack, Plain, FormLines, KeyOf, Pack, Db, Sound,
      SavedForm, Flatten, ProtocolRuns.HasPut, ProtocolRuns.PutOf;
    SystemIsSound(cfg);
    EndToEnd(cfg, es, w, p, n);
    SavedLines(cfg.clients[p], n, f);
  }

  /** The tools read the form under that key as it was saved. */
  ghost predicate GivesBack(db: map<string, string>, key: string, f: Form)
    requires Fits(f)
  {
    && key in db
    && Unpack(db[key], 0, TXTLINES) == Some(FormLines(f, 0))
    && Plain(db[key]) == Some(FormText(f, 0))
  }

  /** The database object of a college after the puts of a log, each made by reg_insertdb as the
      server calls it, with `confirm`. */
  method Replay(log: seq<Entry>, college: int) returns (db: RegDb)
    ensures fresh(db) && db.content == Db(log, college)
  {
    db := new RegDb();
    for k := 0 to |log|
      invariant fresh(db) && db.content == Db(log[..k], college)
    {
      assert log[..k + 1][..k] == log[..k];
      if log[k].college == college {
        var _ := db.Insert(log[k].key, log[k].record, true);
      }
    }
    assert log[..|log|] == log;
  }

  /** The same end to end through the database's own operations: reg_getdb finds the key of a form
      marked sent and comes back with the lines verify_form saved. */
  method Fetch(ghost cfg: Config, ghost es: seq<Event>, w: World, ghost p: nat, n: string, ghost f: Form,
               ghost k: nat, college: int)
    returns (r: Fetched)
    requires System(cfg) && p < |cfg.clients| && SavedForm(cfg.clients[p], n, f)
    requires ReopeningRun(cfg, es, w, p) && (p, n) in w.sent
    requires k < |w.log| && ProtocolRuns.PutOf(w.log[k], p, n) && OwnSince(w.log, k)
    requires |n| >= 4 && |cfg.clients[p].login| == 4 && college == CollegeNumber(cfg.clients[p])
    ensures Fits(f) && r == Lines(FormLines(f, 0))
  {
    hide System, Fits, NameOf, ReopeningRun, OwnSince, CollegeNumber, Unpack, Plain, FormLines, KeyOf, Db, SavedForm,
      ProtocolRuns.PutOf;
    RegisteredForm(cfg, es, w, p, n, f);
    var db := Replay(w.log, college);
    r := db.Get(KeyOf(n));
  }

  lemma SavedLines(c: Client, n: string, f: Form)
    requires SavedForm(c, n, f)
    ensures Fits(f) && n in c.forms
    ensures Unpack(Pack(c.forms[n]), 0, TXTLINES) == Some(FormLines(f, 0))
    ensures Plain(Pack(c.forms[n])) == Some(FormText(f, 0))
  {
    hide Fits, NameOf, Unpack, Plain, FormLines, Pack, Flatten;
    FormIsSendable(f, 0);
    var lines := FormLines(f, 0);
    SendableIsNulFree(lines);
    UnpackPack(lines);
    PlainPack(lines);
    assert lines[..TXTLINES] == lines;
  }

  lemma SendableIsNulFree(lines: seq<string>)
    requires Sendable(lines)
    ensures AllNulFree(lines)
  {
    forall i | 0 <= i < |lines| ensures NulFree(lines[i]) { assert PlainLine(lines[i]); }
  }

  /** When a put of a saved form is right, exactly: every name the editor makes has 19 characters. */
  lemma RightExactly(cfg: Config, w: World, k: nat)
    requires System(cfg) && Reachable(cfg, w) && k < |w.log| && w.log[k].diskOk
    ensures w.log[k].client < |cfg.clients|
    ensures Faithful(cfg.clients[w.log[k].client], w.log[k]) <==> |w.log[k].names| == 1
  {
    hide System, Sound, Reachable, Faithful, FormDirectory, ProtocolRuns.WorldInv, GoodEntry;
    SystemIsSound(cfg);
    ReachableIs(cfg, w);
    GoodAt(cfg, w, k);
    ClientOf(cfg, w.log[k]);
    SystemClient(cfg, w.log[k].client);
    DirectoryNames(cfg, cfg.clients[w.log[k].client], w.log[k]);
    RightExactlyWhen(cfg, w, k);
  }

  lemma DirectoryNames(cfg: Config, c: Client, e: Entry)
    requires e.client < |cfg.clients| && c == cfg.clients[e.client] && FormDirectory(c) && GoodEntry(cfg, e)
    ensures StandardNames(e.names)
  {
    hide FormDirectory, PutFrom, PutRegularly, Entitled, CollegeNumber, Sendable, Pack;
    DirectoryIsGood(c);
    forall i | 0 <= i < |e.names| ensures GoodName(e.names[i]) && |e.names[i]| == NAME_LENGTH { }
  }

  /** When a thread has overrun its record buffer, exactly, for the forms the editor makes. */
  lemma RecordOverruns(cfg: Config, w: World, i: nat)
    requires System(cfg) && Reachable(cfg, w) && i < |w.sessions|
    requires var s := w.sessions[i]; Live(s) && s.server.Talking? && s.diskOk && OnItsWay(s)
    ensures var s := w.sessions[i];
            && s.owner < |cfg.clients|
            && (s.server.mode.Undefined? <==> Overfull(NamesTaken(s), LinesTaken(cfg.clients[s.owner], s)))
  {
    hide System, Sound, Reachable, FormDirectory, ProtocolRuns.WorldInv, Overfull, SessionInv;
    SystemIsSound(cfg);
    ReachableIs(cfg, w);
    ProtocolRuns.InvOf(cfg, w, i);
    SystemClient(cfg, w.sessions[i].owner);
    AnnouncedNames(cfg, cfg.clients[w.sessions[i].owner], w.sessions[i], w.log);
    ThreadOverruns(cfg, w, i);
  }

  lemma AnnouncedNames(cfg: Config, c: Client, s: Session, log: seq<Entry>)
    requires SessionInv(cfg, s, log) && s.owner < |cfg.clients| && c == cfg.clients[s.owner] && FormDirectory(c)
    ensures StandardNames(s.names)
  {
    hide SessionInv, FormDirectory, StandardNames;
    AllAnnounced(cfg, c, s, log);
    FormNames(c, s.names);
  }

  lemma FormNames(c: Client, names: seq<string>)
    requires FormDirectory(c) && forall k :: 0 <= k < |names| ==> names[k] in c.forms
    ensures StandardNames(names)
  {
    hide FormDirectory, Sendable, Pack;
    DirectoryIsGood(c);
    forall i | 0 <= i < |names| ensures GoodName(names[i]) && |names[i]| == NAME_LENGTH { }
  }

  lemma AllAnnounced(cfg: Config, c: Client, s: Session, log: seq<Entry>)
    requires SessionInv(cfg, s, log) && s.owner < |cfg.clients| && c == cfg.clients[s.owner]
    ensures forall k :: 0 <= k < |s.names| ==> s.names[k] in c.forms
  {
    hide Carried, Answered, InStep, Followed, Admitted, Settled, GoodClient, Placed, Logged, Exact;
  }

  /** Four names announced in vain are enough for forms whose fields are nearly full. */
  lemma FiveNamesOverrun(names: seq<string>, f: Form)
    requires |names| == 5 && Fits(f) && Letters(f) >= 460 && |f.photo| >= 10
    ensures Overfull(names, FormLines(f, 0))
  {
    hide Pack, FormLines, Letters, Fits, Sendable, Overfull;
    var lines := FormLines(f, 0);
    FormIsSendable(f, 0);
    RecordSize(f, 0);
    LastLine(f);
    PackMonotone(lines, TXTLINES - 1);
    JustTooMuch(names, lines, TXTLINES - 1);
  }

  lemma JustTooMuch(names: seq<string>, lines: seq<string>, k: nat)
    requires names != [] && |lines| == k + 1 && Amount(names, lines) > MAXINFOSIZE
    requires Amount(names, lines[..k]) < MAXINFOSIZE
    ensures Overfull(names, lines)
  {
    forall j | 0 <= j < |lines| ensures Amount(names, lines[..j]) != MAXINFOSIZE {
      PackOfFront(lines[..k], j);
      assert lines[..j] == lines[..k][..j];
    }
    hide Pack;
  }

  lemma LastLine(f: Form)
    requires Fits(f)
    ensures |FormLines(f, 0)| == TXTLINES && |FormLines(f, 0)[TXTLINES - 1]| == 7 + |f.photo|
  {
    FormIsSendable(f, 0);
    FieldsSafe(f);
    PrintAllIs(Fields(f));
    var photo := Field("PHOTO", f.photo);
    assert Fields(f)[36] == photo;
    assert |Print(photo)| == 7 + |f.photo|;
    hide Fields, Fits, Print, HeaderLine, HeaderOf, Sendable, Pack;
  }

  // ---------------------------------------------------------------------------------------
  // The files behind the marks
  // ---------------------------------------------------------------------------------------

  /** The form files of all clients, as bytes. */
  type Files = map<(nat, string), string>

  /** What an event does to them: the client that marks a form rewrites the header of its file. */
  function FilesAfter(w: World, e: Event, files: Files): Files {
    if e.ClientActs? && e.i < |w.sessions| && w.sessions[e.i].pc.Marking? && e.choice.works then
      var file := (w.sessions[e.i].owner, w.sessions[e.i].pc.name);
      if file in files then files[file := FormFile.Marked(files[file])] else files
    else files
  }

  function FilesAtEnd(cfg: Config, w: World, es: seq<Event>, files: Files): Files
    decreases |es|
  {
    if es == [] || Next(cfg, w, es[0]).None? then files
    else FilesAtEnd(cfg, Next(cfg, w, es[0]).value, es[1..], FilesAfter(w, es[0], files))
  }

  /** Every file is the form it was saved as, with the flag that goes with the mark. */
  ghost predicate FilesTell(cfg: Config, sent: set<(nat, string)>, files: Files) {
    forall p: nat, n, f :: p < |cfg.clients| && SavedForm(cfg.clients[p], n, f) ==>
      (p, n) in files && files[(p, n)] == FormText(f, if (p, n) in sent then 1 else 0)
  }

  lemma MarksAre(cfg: Config, s: Session, buf: string, sent: set<(nat, string)>, ch: Choice, a: Acted)
    requires s.owner < |cfg.clients| && ClientStep(cfg, s, buf, sent, ch) == Some(a)
    ensures a.marks == if s.pc.Marking? && ch.works then {s.pc.name} else {}
  {
    hide Sends, Wrote, Receive, Returned, StartsWith, Strtol, CStr, Missed, Over, UserLine, PassLine;
  }

  /** What an event adds to the marks. */
  lemma SentAfter(cfg: Config, w: World, e: Event, w': World)
    requires Next(cfg, w, e) == Some(w')
    ensures if e.ClientActs? && e.i < |w.sessions| && w.sessions[e.i].pc.Marking? && e.choice.works
            then w'.sent == w.sent + {(w.sessions[e.i].owner, w.sessions[e.i].pc.name)}
            else w'.sent == w.sent
  {
    hide ClientStep, ServerStep, Idle, Connected;
    if e.ClientActs? {
      var a := ProtocolRuns.ClientActsIs(cfg, w, e.i, e.choice, w');
      MarksAre(cfg, w.sessions[e.i], w.bufs[w.sessions[e.i].owner], w.sent, e.choice, a);
    }
  }

  lemma MarkingTells(cfg: Config, sent: set<(nat, string)>, files: Files, p: nat, n: string)
    requires FilesTell(cfg, sent, files)
    ensures FilesTell(cfg, sent + {(p, n)},
                      if (p, n) in files then files[(p, n) := FormFile.Marked(files[(p, n)])] else files)
  {
    hide SavedForm, FormText, FormFile.Marked, Fits;
    var sent' := sent + {(p, n)};
    var files' := if (p, n) in files then files[(p, n) := FormFile.Marked(files[(p, n)])] else files;
    forall q: nat, m, f | q < |cfg.clients| && SavedForm(cfg.clients[q], m, f)
      ensures (q, m) in files' && Fits(f) && files'[(q, m)] == FormText(f, if (q, m) in sent' then 1 else 0)
    {
      SavedFits(cfg.clients[q], m, f);
      FormFile.MarkingIsOneByte(f);
    }
  }

  lemma SavedFits(c: Client, n: string, f: Form)
    requires SavedForm(c, n, f)
    ensures Fits(f)
  {
  }

  lemma {:induction false} FilesTellAtEnd(cfg: Config, w: World, es: seq<Event>, w': World, files: Files)
    requires Exec(cfg, w, es) == Some(w') && FilesTell(cfg, w.sent, files)
    ensures FilesTell(cfg, w'.sent, FilesAtEnd(cfg, w, es, files))
    decreases |es|
  {
    hide Next, FilesTell, FormFile.Marked;
    if es != [] {
      var w1 := Next(cfg, w, es[0]).value;
      SentAfter(cfg, w, es[0], w1);
      if es[0].ClientActs? && es[0].i < |w.sessions| && w.sessions[es[0].i].pc.Marking? && es[0].choice.works {
        MarkingTells(cfg, w.sent, files, w.sessions[es[0].i].owner, w.sessions[es[0].i].pc.name);
      }
      FilesTellAtEnd(cfg, w1, es[1..], w', FilesAfter(w, es[0], files));
    }
  }

  /** The marks of the protocol are the flags in the files: after every run of clients that started
      with unsent forms, a file is the form as saved but for its flag; apply_forms reads that flag as
      sent exactly when the form was marked; and of an unsent file apply_form reads exactly the lines
      the protocol sends. */
  lemma FilesTellSent(cfg: Config, es: seq<Event>, w: World, files: Files, p: nat, n: string, f: Form)
    requires Exec(cfg, Init(cfg), es) == Some(w) && FilesTell(cfg, {}, files)
    requires p < |cfg.clients| && SavedForm(cfg.clients[p], n, f)
    ensures Fits(f) && n in cfg.clients[p].forms && (p, n) in FilesAtEnd(cfg, Init(cfg), es, files)
    ensures var text := FilesAtEnd(cfg, Init(cfg), es, files)[(p, n)];
            && text == FormText(f, if (p, n) in w.sent then 1 else 0)
            && FormFile.SentFlag(text) == Some(if (p, n) in w.sent then 1 else 0)
            && ((p, n) !in w.sent ==> Split(text, Eof, MAXLINE) == cfg.clients[p].forms[n])
  {
    hide Exec, FilesTell, FilesAtEnd, SavedForm, Fits, FormFile.SentFlag, FormText, Split, FormLines;
    FilesTellAtEnd(cfg, Init(cfg), es, w, files);
    TellsOne(cfg, w.sent, FilesAtEnd(cfg, Init(cfg), es, files), p, n, f);
    FormFile.FlagIsRead(f, if (p, n) in w.sent then 1 else 0);
    SavedReadsBack(cfg.clients[p], n, f);
  }

  lemma TellsOne(cfg: Config, sent: set<(nat, string)>, files: Files, p: nat, n: string, f: Form)
    requires FilesTell(cfg, sent, files) && p < |cfg.clients| && SavedForm(cfg.clients[p], n, f)
    ensures Fits(f) && (p, n) in files && files[(p, n)] == FormText(f, if (p, n) in sent then 1 else 0)
  {
    hide FormText;
  }

  lemma SavedReadsBack(c: Client, n: string, f: Form)
    requires SavedForm(c, n, f)
    ensures Fits(f) && n in c.forms && Split(FormText(f, 0), Eof, MAXLINE) == c.forms[n]
  {
    hide Fits, Split, FormLines, NameOf, Flatten;
    FormIsSendable(f, 0);
    FormWindow.LinesAreSplit(FormLines(f, 0));
  }

  /** And without that condition the promise fails for real forms too: of any two forms one can be
      marked sent while the database has no record under its key. */
  lemma AFormCanBeLost(cfg: Config, p: nat, a: string, f: Form, b: string, g: Form) returns (w: World)
    requires System(cfg) && p < |cfg.clients| && Entitled(cfg, cfg.clients[p]) && a != b
    requires SavedForm(cfg.clients[p], a, f) && SavedForm(cfg.clients[p], b, g)
    ensures |b| >= 4 && |cfg.clients[p].login| == 4
    ensures Reachable(cfg, w) && (p, b) in w.sent && KeyOf(b) !in Db(w.log, CollegeNumber(cfg.clients[p]))
  {
    hide Fits, NameOf, Sound, Reachable, Entitled, Db, CollegeNumber, KeyOf, Pack, FormLines, FormDirectory, System,
        SavedForm;
    SystemIsSound(cfg);
    SystemClient(cfg, p);
    SavedName(cfg.clients[p], a, f);
    SavedName(cfg.clients[p], b, g);
    w := MarkedButNotStored(cfg, p, a, b);
  }

  lemma SavedName(c: Client, n: string, f: Form)
    requires SavedForm(c, n, f)
    ensures n in c.forms && |n| >= 4 && |Pack(c.forms[n])| <= 990
  {
    hide Fits, NameOf, Pack, FormLines;
    SavedFormIsGood(c, n, f);
  }
}
