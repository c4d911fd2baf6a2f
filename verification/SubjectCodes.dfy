/** The subject-code checker of the editor (project2/src/myfuncs.c, verify_subject_codes_by_group):
    17 entry boxes against three code lists and the pair rules. */
module SubjectCodes {
  import opened Bytes
  import opened Streams
  import opened Records
  import Forms
  import opened NumberLists
  import opened PairRules

  const BOXES: nat := 17
  const WITH_FOURTH: nat := 12
  const WITHOUT_FOURTH: nat := 10

  // ---------------------------------------------------------------------------------------
  // Code lists
  // ---------------------------------------------------------------------------------------

  lemma {:induction false} SkipIsShorter(s: string)
    ensures |SkipSpace(s)| <= |s|
    decreases |s|
  {
    if s != "" && IsSpace(s[0]) { SkipIsShorter(s[1..]); }
  }

  lemma ScanShrinks(s: string)
    ensures Forms.ScanNumber(s).Some? ==> |Forms.ScanNumber(s).value.1| < |s|
  {
    SkipIsShorter(s);
    hide SkipSpace, Digits, DecimalValue;
  }

  /** What the fscanf loop reads from a list file: numbers up to the first thing that is none. */
  function ReadInts(text: string): seq<int>
    decreases |text|
  {
    ScanShrinks(text);
    match Forms.ScanNumber(text)
    case None => []
    case Some((v, rest)) => [v] + ReadInts(rest)
  }

  /** Every number of a list file is read, in order, up to the first thing that is none. */
  lemma {:induction false} ListIsRead(lead: string, items: seq<int>, seps: seq<string>, rest: string)
    requires |seps| == |items| && White(lead) && Separated(seps, rest) && Forms.ScanNumber(rest).None?
    ensures ReadInts(lead + Listing(items, seps) + rest) == items
    decreases |items|
  {
    hide Forms.ScanNumber, White;
    if items == [] {
      NoNumberAfter(lead, rest);
      assert lead + Listing(items, seps) + rest == lead + rest;
    } else {
      FirstReads(lead, items, seps, rest);
      SeparatedTail(items, seps, rest);
      ListIsRead(seps[0], items[1..], seps[1..], rest);
      hide Listing, Separated;
      assert [items[0]] + items[1..] == items;
    }
  }

  method ReadList(text: string) returns (list: seq<int>)
    ensures list == ReadInts(text)
  {
    hide Forms.ScanNumber;
    list := [];
    var fp := text;
    var next := Forms.ScanNumber(fp);
    while next.Some?
      invariant next == Forms.ScanNumber(fp) && list + ReadInts(fp) == ReadInts(text)
      decreases |fp|
    {
      ScanShrinks(fp);
      assert list + ([next.value.0] + ReadInts(next.value.1)) == (list + [next.value.0]) + ReadInts(next.value.1);
      list := list + [next.value.0];
      fp := next.value.1;
      next := Forms.ScanNumber(fp);
    }
  }

  // ---------------------------------------------------------------------------------------
  // What the checker asks of the boxes
  // ---------------------------------------------------------------------------------------

  function Fourth(codes: seq<string>): int
    requires |codes| == BOXES
  {
    Strtol(codes[BOXES - 1])
  }

  function CountSpecial(codes: seq<string>, special: seq<int>): nat {
    if codes == [] then 0
    else CountSpecial(codes[..|codes| - 1], special) + if Strtol(codes[|codes| - 1]) in special then 1 else 0
  }

  predicate FourthFits(codes: seq<string>, fourths: seq<int>)
    requires |codes| == BOXES
  {
    Fourth(codes) == 0 || (Fourth(codes) >= 100 && Fourth(codes) in fourths)
  }

  /** How many boxes must be filled: one more for every special code in any box. */
  function Needed(codes: seq<string>, special: seq<int>): nat
    requires |codes| == BOXES
  {
    (if Fourth(codes) == 0 then 10 else 12) + CountSpecial(codes, special)
  }

  /** The first `n` boxes hold codes of the group, all different. */
  ghost predicate GoodBoxes(codes: seq<string>, group: seq<int>, n: nat)
    requires n <= |codes|
  {
    && (forall i :: 0 <= i < n ==> |codes[i]| >= 3 && Strtol(codes[i]) in group)
    && (forall i, j :: 0 <= i < j < n ==> Strtol(codes[i]) != Strtol(codes[j]))
  }

  function Filled(codes: seq<string>, n: nat): (r: seq<int>)
    requires n <= |codes|
    ensures |r| == n && forall i :: 0 <= i < n ==> r[i] == Strtol(codes[i])
  {
    seq(n, i requires 0 <= i < n => Strtol(codes[i]))
  }

  ghost predicate ValidCodes(codes: seq<string>, group: seq<int>, fourths: seq<int>, special: seq<int>,
                             table: Option<map<int, seq<int>>>)
    requires |codes| == BOXES
  {
    var k := Needed(codes, special);
    && FourthFits(codes, fourths)
    && k <= BOXES && GoodBoxes(codes, group, k)
    && table.Some? && AllFine(table.value, Filled(codes, k))
    && (k >= 12 ==> Fourth(codes) in Filled(codes, k))
    && (forall i :: k <= i < BOXES - 1 ==> codes[i] == "")
  }

  /** The checker reads past the 17 boxes: more are needed than there are, and all of them are good. */
  ghost predicate Overruns(codes: seq<string>, group: seq<int>, fourths: seq<int>, special: seq<int>)
    requires |codes| == BOXES
  {
    FourthFits(codes, fourths) && Needed(codes, special) > BOXES && GoodBoxes(codes, group, BOXES)
  }

  datatype Verdict = Accepted | Declined | ReadPastBoxes

  /** The loop that counts special codes over all boxes. */
  method CountBoxes(codes: seq<string>, special: seq<int>, start: nat) returns (total: nat)
    ensures total == start + CountSpecial(codes, special)
  {
    hide Strtol;
    total := start;
    var i := 0;
    while i < |codes|
      invariant 0 <= i <= |codes| && total == start + CountSpecial(codes[..i], special)
    {
      CountOne(codes, special, i);
      if Strtol(codes[i]) in special { total := total + 1; }
      i := i + 1;
    }
    assert codes[..|codes|] == codes;
  }

  lemma CountOne(codes: seq<string>, special: seq<int>, i: nat)
    requires i < |codes|
    ensures CountSpecial(codes[..i + 1], special)
         == CountSpecial(codes[..i], special) + if Strtol(codes[i]) in special then 1 else 0
  {
    hide Strtol;
    var front := codes[..i + 1];
    assert front[..|front| - 1] == codes[..i] && front[|front| - 1] == codes[i];
  }

  /** The loop over the boxes that must be filled. `list` is the list of codes filled in. */
  method CollectCodes(codes: seq<string>, group: seq<int>, total: nat) returns (v: Verdict, list: seq<int>)
    requires |codes| == BOXES
    ensures v == Accepted <==> total <= BOXES && GoodBoxes(codes, group, total)
    ensures v == ReadPastBoxes <==> total > BOXES && GoodBoxes(codes, group, BOXES)
    ensures v == Accepted ==> list == Filled(codes, total)
  {
    hide Strtol;
    list := [];
    var subidx := 0;
    while subidx < total
      invariant 0 <= subidx <= total && subidx <= BOXES
      invariant GoodBoxes(codes, group, subidx) && list == Filled(codes, subidx)
    {
      if subidx == BOXES { return ReadPastBoxes, list; }
      var len := |codes[subidx]|;
      if len == 0 { return Declined, list; }
      if len < 3 { return Declined, list; }
      var codeval := Strtol(codes[subidx]);
      if codeval !in group { return Declined, list; }
      if codeval in list {
        var i :| 0 <= i < subidx && list[i] == codeval;
        assert Strtol(codes[i]) == Strtol(codes[subidx]);
        return Declined, list;
      }
      assert forall i :: 0 <= i < subidx ==> list[i] in list;
      list := list + [codeval];
      subidx := subidx + 1;
    }
    return Accepted, list;
  }

  /** The loop over the boxes that must be empty. */
  method ExtraBoxes(codes: seq<string>, start: nat) returns (extra: bool)
    requires |codes| == BOXES
    ensures !extra <==> forall i :: start <= i < BOXES - 1 ==> codes[i] == ""
  {
    var subidx := start;
    while subidx < BOXES - 1
      invariant start <= subidx && forall i :: start <= i < subidx && i < BOXES - 1 ==> codes[i] == ""
      decreases BOXES - subidx
    {
      if |codes[subidx]| > 0 { return true; }
      subidx := subidx + 1;
    }
    return false;
  }

  /** The table paircheck will find. */
  function TableAfter(before: Option<map<int, seq<int>>>, file: Option<string>): Option<map<int, seq<int>>> {
    if before.Some? || file.None? then before else Some(TableOf(Split(file.value, Eof, PAIR_BUFFER)))
  }

  /** verify_subject_codes_by_group, a file being None when it cannot be opened: the answer is 0
      exactly when the boxes are valid, and index 17 is read exactly when they overrun. */
  method VerifySubjectCodes(codes: seq<string>, groupFile: Option<string>, fourthFile: Option<string>,
                            specialFile: Option<string>, pairs: PairTable, pairFile: Option<string>)
    returns (v: Verdict)
    requires |codes| == BOXES
    modifies pairs
    ensures pairs.pairhtable == old(pairs.pairhtable) || pairs.pairhtable == TableAfter(old(pairs.pairhtable), pairFile)
    ensures v == Accepted <==>
              && groupFile.Some? && fourthFile.Some? && specialFile.Some?
              && ValidCodes(codes, ReadInts(groupFile.value), ReadInts(fourthFile.value), ReadInts(specialFile.value),
                            TableAfter(old(pairs.pairhtable), pairFile))
    ensures v == ReadPastBoxes <==>
              && groupFile.Some? && fourthFile.Some? && specialFile.Some?
              && Overruns(codes, ReadInts(groupFile.value), ReadInts(fourthFile.value), ReadInts(specialFile.value))
  {
    hide Strtol, GoodBoxes, AllFine, ReadInts, CountSpecial, TableOf, Split, Filled;
    if groupFile.None? { return Declined; }
    var group := ReadList(groupFile.value);
    if fourthFile.None? { return Declined; }
    var fourths := ReadList(fourthFile.value);
    var fourth := Strtol(codes[BOXES - 1]);
    var total := WITHOUT_FOURTH;
    if fourth != 0 {
      if fourth < 100 { return Declined; }
      if fourth !in fourths { return Declined; }
      total := WITH_FOURTH;
    }
    if specialFile.None? { return Declined; }
    var special := ReadList(specialFile.value);
    total := CountBoxes(codes, special, total);
    var collected, list := CollectCodes(codes, group, total);
    if collected != Accepted { return collected; }
    pairs.Create(pairFile);
    var ret := PairCheck(pairs.pairhtable, list);
    FilledSome(codes, total);
    if ret != 0 { return Declined; }
    if total >= WITH_FOURTH && fourth !in list { return Declined; }
    var extra := ExtraBoxes(codes, total);
    return if extra then Declined else Accepted;
  }

  lemma FilledSome(codes: seq<string>, n: nat)
    requires 0 < n <= |codes|
    ensures Filled(codes, n) != []
  {
    hide Strtol;
  }

  /** Two special codes without a fourth subject are only accepted if the group lists the code 0:
      10 + 2 boxes bring in the check that the fourth code, here 0, is among the filled ones. */
  lemma TwoSpecialNeedAFourth(codes: seq<string>, group: seq<int>, fourths: seq<int>, special: seq<int>,
                              table: Option<map<int, seq<int>>>)
    requires |codes| == BOXES && Fourth(codes) == 0 && CountSpecial(codes, special) >= 2
    requires ValidCodes(codes, group, fourths, special, table)
    ensures 0 in group
  {
    hide Strtol, CountSpecial, AllFine;
  }

  // ---------------------------------------------------------------------------------------
  // Pigeonhole
  // ---------------------------------------------------------------------------------------

  function Distinct(list: seq<int>): set<int> {
    set v | v in list
  }

  /** The special codes in the boxes, as a set. */
  function SpecialIn(codes: seq<string>, special: seq<int>): set<int> {
    set i | 0 <= i < |codes| && Strtol(codes[i]) in special :: Strtol(codes[i])
  }

  /** Different codes can be counted as a set. */
  lemma {:induction false} CountIsSize(codes: seq<string>, special: seq<int>)
    requires forall i, j :: 0 <= i < j < |codes| ==> Strtol(codes[i]) != Strtol(codes[j])
    ensures CountSpecial(codes, special) == |SpecialIn(codes, special)|
    decreases |codes|
  {
    hide Strtol;
    if codes == [] {
      assert SpecialIn(codes, special) == {};
    } else {
      var n := |codes| - 1;
      var front, v := codes[..n], Strtol(codes[n]);
      CountIsSize(front, special);
      SpecialGrows(codes, special);
      assert v !in SpecialIn(front, special);
    }
  }

  lemma SpecialGrows(codes: seq<string>, special: seq<int>)
    requires codes != []
    ensures var n := |codes| - 1;
            SpecialIn(codes, special)
            == SpecialIn(codes[..n], special) + if Strtol(codes[n]) in special then {Strtol(codes[n])} else {}
  {
    hide Strtol;
    var n := |codes| - 1;
    var a, b := SpecialIn(codes, special), SpecialIn(codes[..n], special);
    forall v | v in a ensures v in b || (v == Strtol(codes[n]) && v in special) {
      var i :| 0 <= i < |codes| && Strtol(codes[i]) in special && Strtol(codes[i]) == v;
      if i < n { assert codes[..n][i] == codes[i]; }
    }
    forall v | v in b ensures v in a {
      var i :| 0 <= i < n && Strtol(codes[..n][i]) in special && Strtol(codes[..n][i]) == v;
      assert codes[..n][i] == codes[i];
    }
  }

  lemma SizeBound(codes: seq<string>, special: seq<int>)
    ensures |SpecialIn(codes, special)| <= |Distinct(special)|
  {
    hide Strtol;
    var a, b := SpecialIn(codes, special), Distinct(special);
    assert a <= b;
    Smaller(a, b);
  }

  lemma Smaller(a: set<int>, b: set<int>)
    requires a <= b
    ensures |a| <= |b|
  {
    assert b == (b - a) + a && (b - a) * a == {};
  }

  /** Although more boxes may be asked for than there are, index 17 is never read when the list of
      special codes has five different ones or fewer: the loop then always stops at a bad or
      duplicate entry before. */
  lemma FiveAreSafe(codes: seq<string>, group: seq<int>, fourths: seq<int>, special: seq<int>)
    requires |codes| == BOXES && |Distinct(special)| <= 5
    ensures !Overruns(codes, group, fourths, special)
  {
    if Overruns(codes, group, fourths, special) {
      CountIsSize(codes, special);
      SizeBound(codes, special);
      hide Strtol, CountSpecial, SpecialIn, Distinct;
    }
  }

  // ---------------------------------------------------------------------------------------
  // Boxes that overrun
  // ---------------------------------------------------------------------------------------

  /** A text of at least three characters for any code, of exactly three where they suffice. */
  function CodeText(v: int): string {
    if v < 0 then "-" + Zeros(2 - |Decimal(-v)|) + Decimal(-v) else Zeros(3 - |Decimal(v)|) + Decimal(v)
  }

  lemma {:induction false} ZerosAdd(k: int, ds: string)
    requires AllDigits(ds) && ds != ""
    ensures AllDigits(Zeros(k) + ds) && DecimalValue(Zeros(k) + ds) == DecimalValue(ds)
    ensures |Zeros(k)| == if k <= 0 then 0 else k
    decreases if k <= 0 then 0 else k, |ds|
  {
    if k > 0 {
      ZerosAdd(k - 1, ds);
      LeadingZero(Zeros(k - 1) + ds);
      assert Zeros(k) + ds == "0" + (Zeros(k - 1) + ds);
    } else {
      assert Zeros(k) + ds == ds;
    }
  }

  lemma {:induction false} LeadingZero(ds: string)
    requires AllDigits(ds)
    ensures AllDigits("0" + ds) && DecimalValue("0" + ds) == DecimalValue(ds)
    decreases |ds|
  {
    if ds == "" {
      DecimalOne('0');
      assert "0" + ds == ['0'];
    } else {
      var front, last := ds[..|ds| - 1], ds[|ds| - 1];
      LeadingZero(front);
      assert "0" + ds == ("0" + front) + [last];
      DecimalSnoc("0" + front, last);
    }
  }

  lemma SignedIs(ds: string)
    requires AllDigits(ds) && ds != ""
    ensures Strtol("-" + ds) == -(DecimalValue(ds) as int) && Strtol(ds) == DecimalValue(ds)
  {
    hide DecimalValue;
    DigitsExact(ds, "");
    assert ("-" + ds)[1..] == ds && ds + "" == ds && SkipSpace("-" + ds) == "-" + ds;
    StrtolOfDigits(ds, "");
  }

  lemma CodeTextIs(v: int)
    ensures Strtol(CodeText(v)) == v && |CodeText(v)| >= 3
    ensures -99 <= v <= 999 ==> |CodeText(v)| == 3
  {
    hide Decimal, DecimalValue, Zeros, Strtol, AllDigits;
    assert CodeText(v) == if v < 0 then "-" + (Zeros(2 - |Decimal(-v)|) + Decimal(-v))
                          else Zeros(3 - |Decimal(v)|) + Decimal(v);
    hide CodeText;
    var n, room := if v < 0 then -v else v, if v < 0 then 2 else 3;
    DecimalIs(n);
    ZerosAdd(room - |Decimal(n)|, Decimal(n));
    var ds := Zeros(room - |Decimal(n)|) + Decimal(n);
    SignedIs(ds);
  }

  predicate AllDifferent(list: seq<int>) {
    forall i, j :: 0 <= i < j < |list| ==> list[i] != list[j]
  }

  /** The list without repetitions. */
  function Different(list: seq<int>): seq<int> {
    if list == [] then []
    else
      var d := Different(list[..|list| - 1]);
      if list[|list| - 1] in d then d else d + [list[|list| - 1]]
  }

  lemma {:induction false} DifferentIs(list: seq<int>)
    ensures AllDifferent(Different(list)) && |Different(list)| == |Distinct(list)|
    ensures forall v :: v in Different(list) <==> v in list
    decreases |list|
  {
    if list == [] {
      assert Distinct(list) == {};
    } else {
      var front, last := list[..|list| - 1], list[|list| - 1];
      DifferentIs(front);
      assert list == front + [last];
      assert Distinct(list) == Distinct(front) + {last};
    }
  }

  lemma {:induction false} DistinctAtMost(list: seq<int>)
    ensures |Distinct(list)| <= |list|
    ensures AllDifferent(list) ==> |Distinct(list)| == |list|
    decreases |list|
  {
    if list == [] {
      assert Distinct(list) == {};
    } else {
      var front, last := list[..|list| - 1], list[|list| - 1];
      DistinctAtMost(front);
      assert list == front + [last];
      assert Distinct(list) == Distinct(front) + {last};
    }
  }

  /** With fewer than 17 codes in use one of 100 to 116 is free. */
  lemma FreeCode(list: seq<int>) returns (v: int)
    requires |list| < BOXES
    ensures 100 <= v <= 116 && v !in list
  {
    var hundreds := seq(BOXES, i => 100 + i);
    DistinctAtMost(list);
    DistinctAtMost(hundreds);
    if Distinct(hundreds) <= Distinct(list) { Smaller(Distinct(hundreds), Distinct(list)); }
    v :| v in Distinct(hundreds) && v !in Distinct(list);
  }

  lemma {:induction false} FillUp(list: seq<int>) returns (all: seq<int>)
    requires AllDifferent(list) && |list| <= BOXES
    ensures |all| == BOXES && list <= all && AllDifferent(all)
    ensures forall k :: |list| <= k < BOXES ==> 100 <= all[k] <= 116
    decreases BOXES - |list|
  {
    all := list;
    if |list| < BOXES {
      var v := FreeCode(list);
      all := FillUp(list + [v]);
    }
  }

  /** With six different special codes index 17 can be read: six of them in the first boxes, eleven
      other codes in the rest, the last one a fourth subject. Three characters in every box are
      enough when no special code has more than three digits. */
  lemma SixOverrun(special: seq<int>) returns (codes: seq<string>, group: seq<int>, fourths: seq<int>)
    requires |Distinct(special)| >= 6
    ensures |codes| == BOXES && Overruns(codes, group, fourths, special)
    ensures (forall v :: v in special ==> -99 <= v <= 999) ==> forall i :: 0 <= i < BOXES ==> |codes[i]| == 3
  {
    hide Strtol, CodeText, CountSpecial;
    DifferentIs(special);
    var six := Different(special)[..6];
    group := FillUp(six);
    fourths := [group[BOXES - 1]];
    codes := seq(BOXES, i requires 0 <= i < BOXES => CodeText(group[i]));
    forall i | 0 <= i < BOXES ensures Strtol(codes[i]) == group[i] && |codes[i]| >= 3 && Strtol(codes[i]) in group
      ensures -99 <= group[i] <= 999 ==> |codes[i]| == 3
    {
      CodeTextIs(group[i]);
    }
    SixCounted(codes, group, six, special);
    assert forall i :: 0 <= i < 6 ==> group[i] == six[i] && six[i] in special;
    hide Different, Distinct;
  }

  lemma SixCounted(codes: seq<string>, group: seq<int>, six: seq<int>, special: seq<int>)
    requires |six| == 6 && AllDifferent(six) && |group| == |codes| && six <= group && AllDifferent(group)
    requires forall v :: v in six ==> v in special
    requires forall i :: 0 <= i < |codes| ==> Strtol(codes[i]) == group[i]
    ensures CountSpecial(codes, special) >= 6
  {
    hide Strtol, CountSpecial;
    CountIsSize(codes, special);
    DistinctAtMost(six);
    forall v | v in Distinct(six) ensures v in SpecialIn(codes, special) {
      var i :| 0 <= i < |six| && six[i] == v;
      assert group[i] == six[i] && Strtol(codes[i]) == v;
    }
    Smaller(Distinct(six), SpecialIn(codes, special));
  }

  /** Which lists of special codes are safe, exactly: some boxes, group and fourth subjects make the
      checker read index 17 if and only if at least six special codes are different. */
  lemma SafeExactly(special: seq<int>)
    ensures (exists codes: seq<string>, group, fourths ::
               |codes| == BOXES && Overruns(codes, group, fourths, special)) <==> |Distinct(special)| >= 6
  {
    hide Overruns, Distinct;
    if |Distinct(special)| >= 6 {
      var codes, group, fourths := SixOverrun(special);
    } else {
      forall codes: seq<string>, group, fourths | |codes| == BOXES ensures !Overruns(codes, group, fourths, special) {
        FiveAreSafe(codes, group, fourths, special);
      }
    }
  }
}
