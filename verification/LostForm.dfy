/** One college, two forms, and a run after which one of them counts as sent and is nowhere. */
module LostForm {
  import opened Bytes
  import opened Streams
  import opened Records
  import opened Server
  import opened Framing
  import opened Forms
  import opened FileNames
  import opened Protocol
  import opened ProtocolInvariant
  import opened ProtocolTheorems
  import opened Registration

  /** A form with a name, a roll and a group, and nothing else filled in. */
  function Sheet(roll: string): Form {
    Form("A", "", "", "Arts", "", "", roll, "", "", "", "1", " ", "", "", "", "", "", "", "", "",
         "Male", "", seq(NUM_TOTAL_SUB, _ => ""), "")
  }

  predicate Roll(roll: string) { roll == "1" || roll == "2" }

  lemma SheetFits(roll: string)
    requires Roll(roll)
    ensures Fits(Sheet(roll))
  {
  }

  function SheetName(roll: string): string
    requires Roll(roll)
  {
    SheetFits(roll);
    NameOf(Sheet(roll))
  }

  function SheetLines(roll: string): seq<string>
    requires Roll(roll)
  {
    SheetFits(roll);
    FormLines(Sheet(roll), 0)
  }

  const DIGEST_TEXT: string := "0123456789ABCDEFGHIJ"
  const TIME_TEXT: string := "now\n"

  function ClerkWith(forms: map<string, seq<string>>): Client {
    Client("0101", DIGEST_TEXT, forms)
  }

  function Clerk(): Client {
    ClerkWith(map[SheetName("1") := SheetLines("1")][SheetName("2") := SheetLines("2")])
  }

  function OfficeOf(c: Client): Config {
    Config(DIGEST_TEXT, map["0101" := Account(DIGEST_TEXT, 0, 0, 1, TIME_TEXT, TIME_TEXT)], [c])
  }

  function Office(): Config { OfficeOf(Clerk()) }

  lemma SheetNames()
    ensures SheetName("1") != SheetName("2")
  {
    SheetFits("1");
    SheetFits("2");
    var f, g := Sheet("1"), Sheet("2");
    FormIsChoosable(f);
    FormIsChoosable(g);
    RollsDiffer();
    hide Fits, Choosable, ConstructFilename, Value4;
    if SheetName("1") == SheetName("2") {
      NameIsStandard(f.gender, Value4(f.roll), f.section, Value4(f.tot), f.group);
      KeysAreDistinct(f.gender, Value4(f.roll), f.section, Value4(f.tot), f.group,
                      g.gender, Value4(g.roll), g.section, Value4(g.tot), g.group);
    }
  }

  lemma RollsDiffer()
    ensures Value4("1") == 1 && Value4("2") == 2
  {
    DecimalOne('1');
    DecimalOne('2');
  }

  lemma SheetIsSaved(c: Client, roll: string)
    requires Roll(roll) && SheetName(roll) in c.forms && c.forms[SheetName(roll)] == SheetLines(roll)
    ensures SavedForm(c, SheetName(roll), Sheet(roll))
  {
    SheetFits(roll);
    hide Fits, Sheet, FormLines;
  }

  lemma SheetsAreSaved()
    ensures SavedForm(Clerk(), SheetName("1"), Sheet("1")) && SavedForm(Clerk(), SheetName("2"), Sheet("2"))
    ensures FormDirectory(Clerk())
  {
    hide SheetName, SheetLines, Sheet, SavedForm;
    SheetNames();
    var c := Clerk();
    SheetIsSaved(c, "1");
    SheetIsSaved(c, "2");
    forall n | n in c.forms ensures exists f :: SavedForm(c, n, f) {
      if n == SheetName("1") { assert SavedForm(c, n, Sheet("1")); } else { assert SavedForm(c, n, Sheet("2")); }
    }
  }

  lemma KnownClerk(forms: map<string, seq<string>>)
    ensures var c := ClerkWith(forms); |c.login| == 4 && UserOfClient(c) == "0101" && Entitled(OfficeOf(c), c)
  {
    var c := ClerkWith(forms);
    var field := "USER " + "0101" + "\n";
    assert UserLine(c) == field;
    assert field[5..] == "0101" + "\n";
    CStrExact("0101" + "\n", "");
    assert "0101" + "\n" + "" == "0101" + "\n";
    assert ("0101" + "\n")[0] == '0';
    assert SkipSpace("0101" + "\n") == "0101" + "\n";
    WordExact("0101", "\n");
  }

  lemma ClerkIsKnown()
    ensures UserOfClient(Clerk()) == "0101" && Entitled(Office(), Clerk())
  {
    KnownClerk(Clerk().forms);
    hide SheetName, SheetLines, UserOfClient, Entitled;
  }

  lemma SystemOf(c: Client)
    requires FormDirectory(c) && |c.login| == 4 && c.digest == DIGEST_TEXT
    ensures System(OfficeOf(c)) && |OfficeOf(c).clients| == 1 && OfficeOf(c).clients[0] == c
  {
    hide FormDirectory;
    assert TIME_TEXT[3] == LF && TIME_TEXT[0] == 'n' && TIME_TEXT[1] == 'o' && TIME_TEXT[2] == 'w';
    assert ClockText(TIME_TEXT);
  }

  lemma OfficeIsASystem()
    ensures System(Office()) && |Office().clients| == 1 && Office().clients[0] == Clerk() && Clerk().login == "0101"
  {
    SheetsAreSaved();
    hide FormDirectory, SheetName, SheetLines, Sheet, SavedForm, System;
    SystemOf(Clerk());
  }

  lemma ClerksCollege()
    ensures Clerk().login == "0101" && CollegeNumber(Clerk()) == 101
  {
    ClerkIsKnown();
    hide SheetName, SheetLines, UserOfClient, Entitled;
    StrtolOfDigits("0101", "");
    assert "0101" + "" == "0101";
    FourDigits('0', '1', '0', '1');
    hide Strtol, DecimalValue;
  }

  /** After some run the form of roll 2 is marked sent and its key is not in the database. */
  lemma RollTwoIsLost() returns (w: World)
    ensures Reachable(Office(), w) && (0, SheetName("2")) in w.sent
    ensures |SheetName("2")| >= 4 && KeyOf(SheetName("2")) !in Db(w.log, 101)
  {
    hide SheetName, SheetLines, Sheet, SavedForm, System, Entitled, Reachable, Db, KeyOf, FormDirectory, UserOfClient,
      CollegeNumber, Office, Clerk;
    SheetNames();
    SheetsAreSaved();
    ClerkIsKnown();
    OfficeIsASystem();
    ClerksCollege();
    w := AFormCanBeLost(Office(), 0, SheetName("1"), Sheet("1"), SheetName("2"), Sheet("2"));
  }
}
