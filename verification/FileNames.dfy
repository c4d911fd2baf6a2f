/** The name of a form's file, which without ".txt" is also its key in the college's database
    (project2/src/myfuncs.c, construct_filename). */
module FileNames {
  import opened Bytes
  import opened Streams
  import opened Records
  import opened Server
  import opened Framing
  import opened Forms

  function GroupLetter(group: string): char {
    if group == "Science" then '0'
    else if group == "Social Science" then '1'
    else if group == "Arts" then '2'
    else if group == "Commerce" then '3'
    else if group == "Agriculture" then '4'
    else if group == "home_eco" then '5'
    else if group == "Islamic Studies" then '6'
    else if group == "Music" then '7'
    else if group == "Business" then '8'
    else 'u'
  }

  function GenderLetter(gender: string): char {
    if gender == "Male" then 'M' else 'F'
  }

  function SectionText(section: string): string {
    if section == " " then "_" else section
  }

  function ConstructFilename(gender: string, roll: int, section: string, tot: int, group: string): string {
    [GenderLetter(gender)] + "_" + Print04(roll) + "_" + SectionText(section) + "_" + Print04(tot) + "_"
    + [GroupLetter(group)] + ".txt"
  }

  /** What the widgets can choose from. */
  predicate Choosable(gender: string, roll: int, section: string, tot: int, group: string) {
    && (gender == "Male" || gender == "Female") && section in SECTIONS && group in GROUPS
    && 0 <= roll <= 9999 && 0 <= tot <= 9999
  }

  /** The name, character by character. */
  function Shape(g: char, roll: string, s: char, tot: string, grp: char): string
    requires |roll| == 4 && |tot| == 4
  {
    [g, '_', roll[0], roll[1], roll[2], roll[3], '_', s, '_', tot[0], tot[1], tot[2], tot[3], '_', grp, '.', 't',
        'x', 't']
  }

  lemma SectionIsOneLetter(section: string)
    requires section in SECTIONS
    ensures |SectionText(section)| == 1 && (SectionText(section)[0] == '_' || 'A' <= SectionText(section)[0] <= 'F')
  {
  }

  lemma NameShape(gender: string, roll: int, section: string, tot: int, group: string)
    requires Choosable(gender, roll, section, tot, group)
    ensures |SectionText(section)| == 1
    ensures ConstructFilename(gender, roll, section, tot, group)
         == Shape(GenderLetter(gender), Pad4(roll), SectionText(section)[0], Pad4(tot), GroupLetter(group))
  {
    SectionIsOneLetter(section);
    Print04IsPad4(roll);
    Print04IsPad4(tot);
    hide GenderLetter, GroupLetter, SectionText, Print04, Pad4, GROUPS, SECTIONS;
    Assemble(GenderLetter(gender), Pad4(roll), SectionText(section), Pad4(tot), GroupLetter(group));
  }

  lemma Assemble(g: char, roll: string, s: string, tot: string, grp: char)
    requires |roll| == 4 && |s| == 1 && |tot| == 4
    ensures [g] + "_" + roll + "_" + s + "_" + tot + "_" + [grp] + ".txt" == Shape(g, roll, s[0], tot, grp)
  {
  }

  /** Every name has 19 characters, ends in ".txt" and fits the server's buffers. */
  lemma NameIsStandard(gender: string, roll: int, section: string, tot: int, group: string)
    requires Choosable(gender, roll, section, tot, group)
    ensures var n := ConstructFilename(gender, roll, section, tot, group);
            |n| == 19 && GoodName(n) && n[15..] == ".txt"
  {
    NameShape(gender, roll, section, tot, group);
    SectionIsOneLetter(section);
    LettersArePlain(gender, group);
    hide ConstructFilename, GROUPS, SECTIONS, GenderLetter, GroupLetter, SectionText, Pad4;
    ShapeIsGood(GenderLetter(gender), Pad4(roll), SectionText(section)[0], Pad4(tot), GroupLetter(group));
  }

  predicate Mark(c: char) { c == '_' || c == '.' || IsDigit(c) || IsAlpha(c) }

  lemma LettersArePlain(gender: string, group: string)
    ensures Mark(GenderLetter(gender)) && Mark(GroupLetter(group))
  {
  }

  lemma ShapeIsGood(g: char, roll: string, s: char, tot: string, grp: char)
    requires |roll| == 4 && |tot| == 4 && AllDigits(roll) && AllDigits(tot) && Mark(g) && Mark(s) && Mark(grp)
    ensures var n := Shape(g, roll, s, tot, grp); |n| == 19 && GoodName(n) && n[15..] == ".txt"
  {
    var n := Shape(g, roll, s, tot, grp);
    forall i | 0 <= i < |n| ensures Mark(n[i]) {
      assert forall k :: 0 <= k < 4 ==> IsDigit(roll[k]) && IsDigit(tot[k]);
    }
    assert forall c :: c in n ==> Mark(c);
  }

  /** What each place of a name says: gender, roll, section, TOT serial, and the place of the group in
      the list of groups, with the letter u for the group that the code spells otherwise. */
  lemma NameSays(gender: string, roll: int, section: string, tot: int, group: string)
    requires Choosable(gender, roll, section, tot, group)
    ensures var n := ConstructFilename(gender, roll, section, tot, group);
            && |n| == 19
            && (n[0] == 'M' <==> gender == "Male") && (n[0] == 'F' <==> gender == "Female")
            && n[1] == n[6] == n[8] == n[13] == '_'
            && AllDigits(n[2..6]) && DecimalValue(n[2..6]) == roll
            && AllDigits(n[9..13]) && DecimalValue(n[9..13]) == tot
            && n[7] == (if section == " " then '_' else section[0])
            && (if group == "Home Economics" then n[14] == 'u'
                else IsDigit(n[14]) && DigitValue(n[14]) < |GROUPS| && GROUPS[DigitValue(n[14])] == group)
  {
    NameShape(gender, roll, section, tot, group);
    SectionIsOneLetter(section);
    GroupPlace(group);
    Pad4Value(roll);
    Pad4Value(tot);
    hide ConstructFilename, GROUPS, SECTIONS, GroupLetter, Pad4, DecimalValue, Shape;
    ShapeSays(GenderLetter(gender), Pad4(roll), SectionText(section)[0], Pad4(tot), GroupLetter(group));
  }

  lemma ShapeSays(g: char, roll: string, s: char, tot: string, grp: char)
    requires |roll| == 4 && |tot| == 4
    ensures var n := Shape(g, roll, s, tot, grp);
            && |n| == 19 && n[0] == g && n[1] == n[6] == n[8] == n[13] == '_'
            && n[2..6] == roll && n[7] == s && n[9..13] == tot && n[14] == grp
  {
  }

  lemma GroupPlace(group: string)
    requires group in GROUPS
    ensures var c := GroupLetter(group);
            if group == "Home Economics" then c == 'u'
            else IsDigit(c) && DigitValue(c) < |GROUPS| && GROUPS[DigitValue(c)] == group
  {
  }

  lemma GroupsDiffer(a: string, b: string)
    requires a in GROUPS && b in GROUPS && GroupLetter(a) == GroupLetter(b)
    ensures a == b
  {
  }

  lemma SectionsDiffer(a: string, b: string)
    requires a in SECTIONS && b in SECTIONS && SectionText(a) == SectionText(b)
    ensures a == b
  {
    SectionIsOneLetter(a);
    SectionIsOneLetter(b);
  }

  lemma ShapeDecides(g: char, roll: string, s: char, tot: string, grp: char,
                     g': char, roll': string, s': char, tot': string, grp': char)
    requires |roll| == 4 && |tot| == 4 && |roll'| == 4 && |tot'| == 4
    requires Shape(g, roll, s, tot, grp)[..15] == Shape(g', roll', s', tot', grp')[..15]
    ensures g == g' && roll == roll' && s == s' && tot == tot' && grp == grp'
  {
    var n, m := Shape(g, roll, s, tot, grp), Shape(g', roll', s', tot', grp');
    assert forall i :: 0 <= i < 15 ==> n[i] == n[..15][i] && m[i] == m[..15][i];
    assert n[0] == m[0] && n[2] == m[2] && n[3] == m[3] && n[4] == m[4] && n[5] == m[5] && n[7] == m[7];
    assert n[9] == m[9] && n[10] == m[10] && n[11] == m[11] && n[12] == m[12] && n[14] == m[14];
  }

  /** Different students never share a key: the name without ".txt" decides all five parts.
      "Home Economics" is spelled otherwise in the code and gets the letter u, but no other group
      of the list does. */
  lemma KeysAreDistinct(gender: string, roll: int, section: string, tot: int, group: string,
                        gender': string, roll': int, section': string, tot': int, group': string)
    requires Choosable(gender, roll, section, tot, group) && Choosable(gender', roll', section', tot', group')
    requires ConstructFilename(gender, roll, section, tot, group)[..15]
          == ConstructFilename(gender', roll', section', tot', group')[..15]
    ensures gender == gender' && roll == roll' && section == section' && tot == tot' && group == group'
  {
    NameShape(gender, roll, section, tot, group);
    NameShape(gender', roll', section', tot', group');
    hide ConstructFilename, GroupLetter, SectionText, Pad4, Shape, GROUPS, SECTIONS;
    ShapeDecides(GenderLetter(gender), Pad4(roll), SectionText(section)[0], Pad4(tot), GroupLetter(group),
                 GenderLetter(gender'), Pad4(roll'), SectionText(section')[0], Pad4(tot'), GroupLetter(group'));
    Pad4Injective(roll, roll');
    Pad4Injective(tot, tot');
    GroupsDiffer(group, group');
    assert SectionText(section) == [SectionText(section)[0]] && SectionText(section') == [SectionText(section')[0]];
    SectionsDiffer(section, section');
  }
}
