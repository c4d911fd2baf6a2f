/** The rules that say which subject codes must go together (project2/src/myfuncs.c, paircheck
    and create_pair_hash_table). */
module PairRules {
  import opened Bytes
  import opened Streams
  import opened Records
  import Forms
  import opened NumberLists

  // ---------------------------------------------------------------------------------------
  // What one rule asks for
  // ---------------------------------------------------------------------------------------

  const ANY: int := 1
  const TWO: int := 2

  /** A code of a rule that is among the filled ones. The markers are no codes. */
  predicate Listed(v: int, filled: seq<int>) {
    v != 1 && v != 2 && v in filled
  }

  /** Some code before the first marker 2 is filled in. */
  ghost predicate AnyOf(rule: seq<int>, filled: seq<int>) {
    exists i :: 0 <= i < |rule| && Listed(rule[i], filled) && 2 !in rule[..i]
  }

  /** Two codes with no marker 2 in front of either are filled in. */
  ghost predicate TwoFirst(rule: seq<int>, filled: seq<int>) {
    exists i, j :: 0 <= i < j < |rule| && Listed(rule[i], filled) && Listed(rule[j], filled) && 2 !in rule[..j]
  }

  /** Two codes after the same marker 2 are filled in. */
  ghost predicate TwoOf(rule: seq<int>, filled: seq<int>) {
    exists i, j :: 0 <= i < j < |rule| && Listed(rule[i], filled) && Listed(rule[j], filled)
                   && 2 in rule[..i] && 2 !in rule[i..j]
  }

  /** A rule is met by one listed code before any marker 2, or by two after the same one. */
  ghost predicate Satisfied(rule: seq<int>, filled: seq<int>) {
    AnyOf(rule, filled) || TwoOf(rule, filled)
  }

  /** The walk over a rule: `matched` is -1 before any marker TWO, then counts. */
  function Walk(rule: seq<int>, filled: seq<int>, matched: int): bool {
    if rule == [] then false
    else if rule[0] == TWO then Walk(rule[1..], filled, 0)
    else if rule[0] == ANY || rule[0] !in filled then Walk(rule[1..], filled, matched)
    else if matched < 0 || matched + 1 == 2 then true
    else Walk(rule[1..], filled, matched + 1)
  }

  lemma ConsSlices(v: int, rest: seq<int>, i: nat, j: nat)
    requires i <= j <= |rest|
    ensures ([v] + rest)[..j + 1] == [v] + rest[..j] && ([v] + rest)[i + 1..j + 1] == rest[i..j]
  {
  }

  lemma AnyCons(v: int, rest: seq<int>, filled: seq<int>)
    ensures AnyOf([v] + rest, filled) <==> v != TWO && (Listed(v, filled) || AnyOf(rest, filled))
  {
    var rule := [v] + rest;
    if AnyOf(rule, filled) {
      var i :| 0 <= i < |rule| && Listed(rule[i], filled) && TWO !in rule[..i];
      if i > 0 {
        ConsSlices(v, rest, 0, i - 1);
        assert rule[0] in rule[..i];
        assert Listed(rest[i - 1], filled) && TWO !in rest[..i - 1];
      }
    }
    if Listed(v, filled) {
      assert rule[..0] == [] && Listed(rule[0], filled);
    } else if v != TWO && AnyOf(rest, filled) {
      var i :| 0 <= i < |rest| && Listed(rest[i], filled) && TWO !in rest[..i];
      ConsSlices(v, rest, 0, i);
      assert Listed(rule[i + 1], filled) && TWO !in rule[..i + 1];
    }
  }

  lemma TwoFirstCons(v: int, rest: seq<int>, filled: seq<int>)
    ensures TwoFirst([v] + rest, filled)
       <==> v != TWO && (if Listed(v, filled) then AnyOf(rest, filled) else TwoFirst(rest, filled))
  {
    var rule := [v] + rest;
    if TwoFirst(rule, filled) {
      var i, j :| 0 <= i < j < |rule| && Listed(rule[i], filled) && Listed(rule[j], filled) && TWO !in rule[..j];
      hide TwoFirst;
      ConsSlices(v, rest, 0, j - 1);
      assert rule[0] in rule[..j];
      assert Listed(rest[j - 1], filled) && TWO !in rest[..j - 1];
      hide Listed;
      if i > 0 { TwoFirstFrom(rest, filled, i - 1, j - 1); }
    } else {
      TwoFirstInto(v, rest, filled);
      hide TwoFirst, AnyOf;
    }
  }

  lemma TwoFirstFrom(rest: seq<int>, filled: seq<int>, i: nat, j: nat)
    requires i < j < |rest| && Listed(rest[i], filled) && Listed(rest[j], filled) && TWO !in rest[..j]
    ensures TwoFirst(rest, filled)
  {
    hide Listed;
  }

  lemma TwoFirstInto(v: int, rest: seq<int>, filled: seq<int>)
    ensures v != TWO && (if Listed(v, filled) then AnyOf(rest, filled) else TwoFirst(rest, filled))
        ==> TwoFirst([v] + rest, filled)
  {
    var rule := [v] + rest;
    if v != TWO && Listed(v, filled) && AnyOf(rest, filled) {
      var j :| 0 <= j < |rest| && Listed(rest[j], filled) && TWO !in rest[..j];
      ConsSlices(v, rest, 0, j);
      TwoFirstFrom(rule, filled, 0, j + 1);
    }
    if v != TWO && !Listed(v, filled) && TwoFirst(rest, filled) {
      var i, j :| 0 <= i < j < |rest| && Listed(rest[i], filled) && Listed(rest[j], filled) && TWO !in rest[..j];
      ConsSlices(v, rest, 0, j);
      TwoFirstFrom(rule, filled, i + 1, j + 1);
    }
  }

  lemma TwoCons(v: int, rest: seq<int>, filled: seq<int>)
    ensures TwoOf([v] + rest, filled) <==> TwoOf(rest, filled) || (v == TWO && TwoFirst(rest, filled))
  {
    var rule := [v] + rest;
    if TwoOf(rule, filled) {
      var i, j :| 0 <= i < j < |rule| && Listed(rule[i], filled) && Listed(rule[j], filled)
                  && TWO in rule[..i] && TWO !in rule[i..j];
      hide TwoOf, TwoFirst, Listed;
      assert i > 0;
      assert rule[i] == rest[i - 1] && rule[j] == rest[j - 1];
      TwoFromCons(v, rest, filled, i - 1, j - 1);
    } else {
      TwoIntoCons(v, rest, filled);
      hide TwoOf, TwoFirst;
    }
  }

  lemma TwoIntoCons(v: int, rest: seq<int>, filled: seq<int>)
    ensures TwoOf(rest, filled) || (v == TWO && TwoFirst(rest, filled)) ==> TwoOf([v] + rest, filled)
  {
    if TwoOf(rest, filled) {
      var i, j :| 0 <= i < j < |rest| && Listed(rest[i], filled) && Listed(rest[j], filled)
                  && TWO in rest[..i] && TWO !in rest[i..j];
      hide TwoOf, TwoFirst, Listed;
      TwoAt(v, rest, filled, i, j);
    } else if v == TWO && TwoFirst(rest, filled) {
      var i, j :| 0 <= i < j < |rest| && Listed(rest[i], filled) && Listed(rest[j], filled) && TWO !in rest[..j];
      hide TwoOf, TwoFirst, Listed;
      NoneInside(rest, i, j);
      TwoAt(v, rest, filled, i, j);
    }
  }

  lemma TwoAt(v: int, rest: seq<int>, filled: seq<int>, i: nat, j: nat)
    requires i < j < |rest| && Listed(rest[i], filled) && Listed(rest[j], filled)
    requires (v == TWO || TWO in rest[..i]) && TWO !in rest[i..j]
    ensures TwoOf([v] + rest, filled)
  {
    var rule := [v] + rest;
    hide Listed;
    ConsSlices(v, rest, i, j);
    ConsSlices(v, rest, 0, i);
    assert rule[i + 1] == rest[i] && rule[j + 1] == rest[j];
    assert TWO in rule[..i + 1] && TWO !in rule[i + 1..j + 1];
  }

  lemma NoneInside(rest: seq<int>, i: nat, j: nat)
    requires i <= j <= |rest| && TWO !in rest[..j]
    ensures TWO !in rest[i..j] && TWO !in rest[..i]
  {
    assert forall k :: i <= k < j ==> rest[k] in rest[..j];
    assert forall k :: 0 <= k < i ==> rest[k] in rest[..j];
  }

  lemma TwoFromCons(v: int, rest: seq<int>, filled: seq<int>, i: nat, j: nat)
    requires i < j < |rest| && Listed(rest[i], filled) && Listed(rest[j], filled)
    requires var rule := [v] + rest; TWO in rule[..i + 1] && TWO !in rule[i + 1..j + 1]
    ensures TwoOf(rest, filled) || (v == TWO && TwoFirst(rest, filled))
  {
    ConsSlices(v, rest, i, j);
    ConsSlices(v, rest, 0, i);
    if TWO !in rest[..i] {
      assert v == TWO;
      assert rest[..j] == rest[..i] + rest[i..j];
      assert TWO !in rest[..j];
    }
  }

  /** The walk finds a rule met exactly when it is. */
  lemma {:induction false} WalkIs(rule: seq<int>, filled: seq<int>)
    ensures Walk(rule, filled, -1) <==> Satisfied(rule, filled)
    ensures Walk(rule, filled, 0) <==> TwoFirst(rule, filled) || TwoOf(rule, filled)
    ensures Walk(rule, filled, 1) <==> Satisfied(rule, filled)
    decreases |rule|
  {
    if rule != [] {
      var v, rest := rule[0], rule[1..];
      assert rule == [v] + rest;
      WalkIs(rest, filled);
      AnyCons(v, rest, filled);
      TwoFirstCons(v, rest, filled);
      TwoCons(v, rest, filled);
      hide AnyOf, TwoFirst, TwoOf;
    }
  }

  // ---------------------------------------------------------------------------------------
  // All filled codes
  // ---------------------------------------------------------------------------------------

  /** A code has no rule, or its rule is met. An empty box counts as code 0. */
  ghost predicate Fine(table: map<int, seq<int>>, filled: seq<int>, code: int) {
    code == 0 || code !in table || Satisfied(table[code], filled)
  }

  ghost predicate AllFine(table: map<int, seq<int>>, filled: seq<int>) {
    forall k :: 0 <= k < |filled| ==> Fine(table, filled, filled[k])
  }

  /** paircheck: -1 without a table or without codes; 0 when every code is fine; else the place,
      counted from 1, of the first code that is not. */
  method PairCheck(pairhtable: Option<map<int, seq<int>>>, filled: seq<int>) returns (r: int)
    ensures r == -1 <==> pairhtable.None? || filled == []
    ensures pairhtable.Some? && filled != [] ==>
              && 0 <= r <= |filled|
              && (r == 0 <==> AllFine(pairhtable.value, filled))
              && (r > 0 ==> !Fine(pairhtable.value, filled, filled[r - 1])
                            && forall k :: 0 <= k < r - 1 ==> Fine(pairhtable.value, filled, filled[k]))
  {
    hide Satisfied;
    if pairhtable.None? { return -1; }
    if filled == [] { return -1; }
    var table := pairhtable.value;
    var index := 0;
    while index < |filled|
      invariant 0 <= index <= |filled|
      invariant forall k :: 0 <= k < index ==> Fine(table, filled, filled[k])
    {
      var found := true;
      var val := filled[index];
      index := index + 1;
      if val != 0 && val in table {
        var matched := -1;
        var values := table[val];
        var at := 0;
        found := false;
        WalkIs(values, filled);
        while !found && at < |values|
          invariant 0 <= at <= |values| && -1 <= matched <= 2 && (matched == 2 ==> found)
          invariant Walk(values, filled, -1) == (found || Walk(values[at..], filled, matched))
        {
          var tempval := values[at];
          at := at + 1;
          WalkOne(values, filled, matched, at - 1);
          if tempval == TWO {
            matched := 0;
          } else if tempval != ANY && tempval in filled {
            if matched >= 0 {
              matched := matched + 1;
              found := matched == 2;
            } else {
              found := true;
            }
          }
        }
      }
      if !found { return index; }
    }
    return 0;
  }

  lemma WalkOne(values: seq<int>, filled: seq<int>, matched: int, at: nat)
    requires at < |values|
    ensures Walk(values[at..], filled, matched)
         == (var v := values[at];
             if v == TWO then Walk(values[at + 1..], filled, 0)
             else if v == ANY || v !in filled then Walk(values[at + 1..], filled, matched)
             else if matched < 0 || matched + 1 == 2 then true
             else Walk(values[at + 1..], filled, matched + 1))
  {
    assert values[at..][1..] == values[at + 1..];
  }

  /** Whether all codes are fine does not depend on their order. */
  lemma OrderDoesNotMatter(table: map<int, seq<int>>, a: seq<int>, b: seq<int>)
    requires multiset(a) == multiset(b)
    ensures AllFine(table, a) <==> AllFine(table, b)
  {
    hide AllFine;
    if AllFine(table, a) { FineFor(table, a, b); }
    if AllFine(table, b) { FineFor(table, b, a); }
  }

  lemma FineFor(table: map<int, seq<int>>, a: seq<int>, b: seq<int>)
    requires multiset(a) == multiset(b) && AllFine(table, a)
    ensures AllFine(table, b)
  {
    forall k | 0 <= k < |b| ensures Fine(table, b, b[k]) {
      SameCodes(a, b, b[k]);
      var i :| 0 <= i < |a| && a[i] == b[k];
      assert Fine(table, a, a[i]);
      if b[k] != 0 && b[k] in table { SameRule(table[b[k]], a, b); }
    }
  }

  lemma SameCodes(a: seq<int>, b: seq<int>, v: int)
    requires multiset(a) == multiset(b)
    ensures v in a <==> v in b
  {
    assert v in a <==> v in multiset(a);
    assert v in b <==> v in multiset(b);
  }

  lemma SameRule(rule: seq<int>, a: seq<int>, b: seq<int>)
    requires multiset(a) == multiset(b)
    ensures Satisfied(rule, a) <==> Satisfied(rule, b)
  {
    WalkIs(rule, a);
    WalkIs(rule, b);
    hide Satisfied;
    SameWalk(rule, a, b, -1);
  }

  lemma {:induction false} SameWalk(rule: seq<int>, a: seq<int>, b: seq<int>, matched: int)
    requires multiset(a) == multiset(b)
    ensures Walk(rule, a, matched) == Walk(rule, b, matched)
    decreases |rule|
  {
    if rule != [] {
      SameCodes(a, b, rule[0]);
      SameWalk(rule[1..], a, b, 0);
      SameWalk(rule[1..], a, b, matched);
      SameWalk(rule[1..], a, b, matched + 1);
    }
  }

  // ---------------------------------------------------------------------------------------
  // The table
  // ---------------------------------------------------------------------------------------

  const PAIR_BUFFER: nat := 60
  const PAIR_ITEMS: nat := 10

  /** The first numbers of a text, at most `n` of them: what repeated "%d" conversions read. */
  function ScanInts(s: string, n: nat): seq<int>
    decreases n
  {
    if n == 0 then []
    else match Forms.ScanNumber(s)
      case None => []
      case Some((v, rest)) => [v] + ScanInts(rest, n - 1)
  }

  /** A line is a rule when it holds a key and at least one code. */
  function RuleOf(piece: string): Option<(int, seq<int>)> {
    var items := ScanInts(CStr(piece), PAIR_ITEMS);
    if |items| > 1 then Some((items[0], items[1..])) else None
  }

  /** The first `n` numbers of a line are read, in order, up to the first thing that is none. */
  lemma {:induction false} LineIsScanned(lead: string, items: seq<int>, seps: seq<string>, rest: string, n: nat)
    requires |seps| == |items| && White(lead) && Separated(seps, rest) && Forms.ScanNumber(rest).None?
    ensures ScanInts(lead + Listing(items, seps) + rest, n) == if |items| < n then items else items[..n]
    decreases |items|
  {
    hide Forms.ScanNumber, White;
    if items == [] {
      NoNumberAfter(lead, rest);
      assert lead + Listing(items, seps) + rest == lead + rest;
    } else if n > 0 {
      FirstReads(lead, items, seps, rest);
      SeparatedTail(items, seps, rest);
      LineIsScanned(seps[0], items[1..], seps[1..], rest, n - 1);
      hide Listing, Separated;
      FrontOf(items, n);
    }
  }

  lemma FrontOf(items: seq<int>, n: nat)
    requires items != [] && n > 0
    ensures [items[0]] + (if |items[1..]| < n - 1 then items[1..] else items[1..][..n - 1])
         == if |items| < n then items else items[..n]
  {
  }

  /** A line with these numbers in front of anything that is no number. */
  ghost predicate Shows(line: string, items: seq<int>) {
    exists lead: string, seps: seq<string>, rest: string ::
      && |seps| == |items| && White(lead) && Separated(seps, rest) && Forms.ScanNumber(rest).None? && NulFree(rest)
      && line == lead + Listing(items, seps) + rest
  }

  /** The rule of a line: the first number is the key, up to nine more are its codes in the order of
      the line. A line with fewer than two numbers is none. */
  lemma RuleIsRead(line: string, items: seq<int>)
    requires Shows(line, items)
    ensures RuleOf(line)
         == if |items| < 2 then None else Some((items[0], if |items| <= 10 then items[1..] else items[1..10]))
  {
    var lead: string, seps: seq<string>, rest: string :|
      && |seps| == |items| && White(lead) && Separated(seps, rest) && Forms.ScanNumber(rest).None? && NulFree(rest)
      && line == lead + Listing(items, seps) + rest;
    hide RuleOf, Listing, Separated, White, ScanInts, Forms.ScanNumber;
    LineIsScanned(lead, items, seps, rest, 10);
    LineIsClean(lead, items, seps, rest);
    RuleIs(line);
    if items != [] { FirstTen(items); }
  }

  lemma FirstTen(items: seq<int>)
    requires items != []
    ensures (items[..if |items| < 10 then |items| else 10])[1..] == if |items| <= 10 then items[1..] else items[1..10]
  {
  }

  lemma LineIsClean(lead: string, items: seq<int>, seps: seq<string>, rest: string)
    requires |seps| == |items| && White(lead) && Separated(seps, rest) && NulFree(rest)
    ensures var line := lead + Listing(items, seps) + rest; CStr(line) == line
  {
    ListingIsClean(items, seps, rest);
    var line := lead + (Listing(items, seps) + rest);
    assert NUL !in lead;
    CStrExact(line, "");
    hide CStr, Listing, Separated;
    assert line + "" == line && line == lead + Listing(items, seps) + rest;
  }

  /** Line `i` has a rule for the key, and no later line has. */
  predicate LastOf(items: seq<seq<int>>, i: nat, key: int, rule: seq<int>) {
    && i < |items| && |items[i]| >= 2 && items[i][0] == key
    && rule == (if |items[i]| <= 10 then items[i][1..] else items[i][1..10])
    && forall j :: i < j < |items| ==> |items[j]| < 2 || items[j][0] != key
  }

  /** A pair file of lines shorter than the buffer: the table has a rule for a key exactly when some
      line shows the key and then the codes of the rule, and no later line is a rule for that key. */
  lemma PairFileIsRead(lines: seq<string>, items: seq<seq<int>>, key: int, rule: seq<int>)
    requires |lines| == |items|
    requires forall i :: 0 <= i < |lines| ==> WholeLine(lines[i]) && |lines[i]| < 60 && Shows(lines[i], items[i])
    ensures var table := TableOf(Split(Flatten(lines), Eof, 60));
            key in table && table[key] == rule <==> exists i: nat :: LastOf(items, i, key, rule)
  {
    hide Shows, RuleOf, TableOf, WholeLine, Split;
    LinesSplit(lines);
    LastLineWins(lines, key, rule);
    forall i | 0 <= i < |lines|
      ensures RuleOf(lines[i]) == if |items[i]| < 2 then None
                                  else Some((items[i][0], if |items[i]| <= 10 then items[i][1..] else items[i][1..10]))
    {
      RuleIsRead(lines[i], items[i]);
    }
    forall i: nat ensures LastRule(lines, i, key, rule) <==> LastOf(items, i, key, rule) { }
    hide LastRule, LastOf;
  }

  lemma LinesSplit(lines: seq<string>)
    requires forall i :: 0 <= i < |lines| ==> WholeLine(lines[i]) && |lines[i]| < PAIR_BUFFER
    ensures Split(Flatten(lines), Eof, PAIR_BUFFER) == lines
  {
    hide Split, Flatten;
    forall p | p in lines ensures Piece(p, PAIR_BUFFER) {
      var i :| 0 <= i < |lines| && lines[i] == p;
      assert WholeLine(lines[i]);
    }
    forall k | 0 <= k < |lines| - 1 ensures Terminated(lines[k]) { assert WholeLine(lines[k]); }
    SplitIsUnique(Flatten(lines), PAIR_BUFFER, lines);
  }

  function TableOf(pieces: seq<string>): map<int, seq<int>> {
    if pieces == [] then map[]
    else
      var before := TableOf(pieces[..|pieces| - 1]);
      match RuleOf(pieces[|pieces| - 1])
      case None => before
      case Some((key, rule)) => before[key := rule]
  }

  /** Piece `i` is the last rule for this key. */
  predicate LastRule(pieces: seq<string>, i: nat, key: int, rule: seq<int>) {
    && i < |pieces| && RuleOf(pieces[i]) == Some((key, rule))
    && forall j :: i < j < |pieces| ==> RuleOf(pieces[j]).None? || RuleOf(pieces[j]).value.0 != key
  }

  /** For a repeated key the last line wins, and nothing else gets into the table. */
  lemma {:induction false} LastLineWins(pieces: seq<string>, key: int, rule: seq<int>)
    ensures key in TableOf(pieces) && TableOf(pieces)[key] == rule <==> exists i: nat :: LastRule(pieces, i, key, rule)
    decreases |pieces|
  {
    if pieces == [] {
    } else {
      var front := pieces[..|pieces| - 1];
      LastLineWins(front, key, rule);
      hide RuleOf;
      var last := RuleOf(pieces[|pieces| - 1]);
      if last.Some? && last.value.0 == key {
        OnlyTheLast(pieces, key, rule);
      } else {
        LastOfFront(pieces, front, key, rule);
      }
      hide LastRule;
    }
  }

  lemma OnlyTheLast(pieces: seq<string>, key: int, rule: seq<int>)
    requires pieces != [] && RuleOf(pieces[|pieces| - 1]).Some? && RuleOf(pieces[|pieces| - 1]).value.0 == key
    ensures (exists i: nat :: LastRule(pieces, i, key, rule)) <==> RuleOf(pieces[|pieces| - 1]).value.1 == rule
  {
    hide RuleOf;
    if RuleOf(pieces[|pieces| - 1]).value.1 == rule {
      assert LastRule(pieces, |pieces| - 1, key, rule);
    }
  }

  lemma LastOfFront(pieces: seq<string>, front: seq<string>, key: int, rule: seq<int>)
    requires pieces != [] && front == pieces[..|pieces| - 1]
    requires (RuleOf(pieces[|pieces| - 1]).None? || RuleOf(pieces[|pieces| - 1]).value.0 != key)
    ensures (exists i: nat :: LastRule(pieces, i, key, rule)) <==> (exists i: nat :: LastRule(front, i, key, rule))
  {
    hide RuleOf;
    if exists i: nat :: LastRule(pieces, i, key, rule) {
      var i: nat :| LastRule(pieces, i, key, rule);
      assert front[i] == pieces[i];
      assert LastRule(front, i, key, rule);
    }
    if exists i: nat :: LastRule(front, i, key, rule) {
      var i: nat :| LastRule(front, i, key, rule);
      assert forall j :: 0 <= j < |front| ==> front[j] == pieces[j];
      assert LastRule(pieces, i, key, rule);
    }
  }

  /** The static table, read once. */
  class PairTable {
    var pairhtable: Option<map<int, seq<int>>>

    constructor ()
      ensures pairhtable == None
    {
      pairhtable := None;
    }

    /** create_pair_hash_table; `file` is None when the file cannot be opened. */
    method Create(file: Option<string>)
      modifies this
      ensures pairhtable == if old(pairhtable).Some? || file.None? then old(pairhtable)
                            else Some(TableOf(Split(file.value, Eof, 60)))
    {
      if pairhtable.Some? { return; }
      if file.None? { return; }
      var table := ReadTable(file.value);
      pairhtable := Some(table);
    }
  }

  /** The fgets loop over the pair file. */
  method ReadTable(file: string) returns (table: map<int, seq<int>>)
    ensures table == TableOf(Split(file, Eof, PAIR_BUFFER))
  {
    hide TakeLine, RuleOf, TableOf, Split, ScanInts, CStr;
    NoPieces();
    ghost var pieces, more := Split(file, Eof, PAIR_BUFFER), Split(file, Eof, PAIR_BUFFER);
    ghost var done: seq<string> := [];
    assert done + more == pieces;
    var fp := file;
    table := map[];
    var t := TakeLine(fp, Eof, PAIR_BUFFER);
    while t.Got?
      invariant t == TakeLine(fp, Eof, PAIR_BUFFER) && more == Split(fp, Eof, PAIR_BUFFER)
      invariant table == TableOf(done) && done + more == pieces
      decreases |fp|
    {
      OnePiece(fp, t.text);
      var items := ScanInts(CStr(t.text), PAIR_ITEMS);
      RuleIs(t.text);
      TableSnoc(done, t.text);
      if |items| > 1 { table := table[items[0] := items[1..]]; }
      fp := fp[|t.text|..];
      more := Split(fp, Eof, PAIR_BUFFER);
      Regroup(done, t.text, more);
      done := done + [t.text];
      t := TakeLine(fp, Eof, PAIR_BUFFER);
    }
    NoPiece(fp);
    assert done + [] == done;
  }

  lemma NoPieces()
    ensures TableOf([]) == map[]
  {
  }

  lemma TableSnoc(done: seq<string>, piece: string)
    ensures TableOf(done + [piece])
         == (match RuleOf(piece) case None => TableOf(done) case Some((key, rule)) => TableOf(done)[key := rule])
  {
    assert (done + [piece])[..|done|] == done;
    hide RuleOf;
  }

  lemma Regroup(done: seq<string>, piece: string, more: seq<string>)
    ensures done + ([piece] + more) == (done + [piece]) + more
  {
  }

  lemma RuleIs(piece: string)
    ensures var items := ScanInts(CStr(piece), PAIR_ITEMS);
            RuleOf(piece) == if |items| > 1 then Some((items[0], items[1..])) else None
  {
  }

  lemma OnePiece(fp: string, text: string)
    requires TakeLine(fp, Eof, PAIR_BUFFER) == Got(text)
    ensures 0 < |text| <= |fp| && Split(fp, Eof, PAIR_BUFFER) == [text] + Split(fp[|text|..], Eof, PAIR_BUFFER)
  {
    LinePrefixIs(fp, PAIR_BUFFER - 1);
  }

  lemma NoPiece(fp: string)
    requires !TakeLine(fp, Eof, PAIR_BUFFER).Got?
    ensures Split(fp, Eof, PAIR_BUFFER) == []
  {
  }
}
