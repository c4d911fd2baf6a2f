/** Lists of numbers in text files, as the scanning loops of the editor read them. */
module NumberLists {
  import opened Bytes
  import opened Streams
  import opened Records
  import opened Forms

  /** Blanks, tabs, newlines and the like. */
  predicate White(s: string) {
    forall i :: 0 <= i < |s| ==> s[i] == ' ' || 9 <= s[i] as int <= 13
  }

  /** printf("%d", v) */
  function PrintInt(v: int): string {
    if v < 0 then "-" + Decimal(-v) else Decimal(v)
  }

  /** Numbers, each followed by its own separator. */
  function Listing(items: seq<int>, seps: seq<string>): string
    requires |seps| == |items|
  {
    if items == [] then "" else PrintInt(items[0]) + seps[0] + Listing(items[1..], seps[1..])
  }

  /** White space between the numbers; the last one may be followed at once by something that is no
      digit, or by nothing. */
  predicate Separated(seps: seq<string>, rest: string) {
    && (forall i :: 0 <= i < |seps| ==> White(seps[i]) && (i < |seps| - 1 ==> seps[i] != ""))
    && (seps != [] && seps[|seps| - 1] == "" ==> rest == "" || !IsDigit(rest[0]))
  }

  lemma {:induction false} SkipsWhite(lead: string, t: string)
    requires White(lead) && t != "" && !IsSpace(t[0])
    ensures SkipSpace(lead + t) == t
    decreases |lead|
  {
    if lead == "" {
      assert lead + t == t;
    } else {
      assert IsSpace(lead[0]) && (lead + t)[1..] == lead[1..] + t;
      SkipsWhite(lead[1..], t);
    }
  }

  lemma DigitsRead(ds: string, rest: string, sign: int)
    requires AllDigits(ds) && ds != "" && (rest == "" || !IsDigit(rest[0]))
    ensures ScanDigits(ds + rest, sign) == Some((sign * DecimalValue(ds), rest))
  {
    DigitsExact(ds, rest);
    assert (ds + rest)[|ds|..] == rest;
    hide DecimalValue;
  }

  /** strtol and "%d" read the same: white space, one sign or none, and all the digits there are. */
  lemma SignedReads(lead: string, sign: string, ds: string, rest: string)
    requires White(lead) && (sign == "" || sign == "+" || sign == "-")
    requires AllDigits(ds) && ds != "" && (rest == "" || !IsDigit(rest[0]))
    ensures var v: int := if sign == "-" then -(DecimalValue(ds) as int) else DecimalValue(ds);
            && Strtol(lead + sign + ds + rest) == v
            && ScanNumber(lead + sign + ds + rest) == Some((v, rest))
  {
    hide ScanDigits, DecimalValue, SkipSpace, White;
    var t := sign + (ds + rest);
    assert lead + sign + ds + rest == lead + t;
    assert t[0] == (if sign == "" then ds[0] else sign[0]) && IsDigit(ds[0]);
    assert (sign == "" ==> t == ds + rest) && (sign != "" ==> t[1..] == ds + rest);
    DigitsRead(ds, rest, if sign == "-" then -1 else 1);
    DigitsExact(ds, rest);
    SkipsWhite(lead, t);
  }

  /** A printed number is scanned as itself, wherever it stands. */
  lemma NumberReads(lead: string, v: int, rest: string)
    requires White(lead) && (rest == "" || !IsDigit(rest[0]))
    ensures ScanNumber(lead + PrintInt(v) + rest) == Some((v, rest))
  {
    hide ScanDigits, Decimal, DecimalValue, SkipSpace, White;
    var ds := Decimal(if v < 0 then -v else v);
    DecimalIs(if v < 0 then -v else v);
    var t := PrintInt(v) + rest;
    assert lead + PrintInt(v) + rest == lead + t;
    DigitsRead(ds, rest, if v < 0 then -1 else 1);
    if v < 0 {
      assert t == "-" + (ds + rest) && t[1..] == ds + rest && t[0] == '-';
    } else {
      assert t == ds + rest && IsDigit(t[0]);
    }
    SkipsWhite(lead, t);
  }

  /** What follows a number in a listing starts with no digit. */
  lemma SeparatedTail(items: seq<int>, seps: seq<string>, rest: string)
    requires items != [] && |seps| == |items| && Separated(seps, rest)
    ensures Separated(seps[1..], rest) && White(seps[0])
    ensures var more := Listing(items[1..], seps[1..]) + rest;
            && Listing(items, seps) + rest == PrintInt(items[0]) + (seps[0] + more)
            && (seps[0] + more == "" || !IsDigit((seps[0] + more)[0]))
  {
    hide PrintInt, White;
    var first, sep, tail := PrintInt(items[0]), seps[0], Listing(items[1..], seps[1..]);
    Regroup(first, sep, tail);
    Regroup(first, sep + tail, rest);
    Regroup(sep, tail, rest);
    assert Listing(items, seps) == first + sep + tail;
    if sep == "" {
      assert |seps| == 1;
      NothingListed(items[1..], seps[1..]);
      assert sep + (tail + rest) == rest;
    } else {
      WhiteIsNoDigit(sep, tail + rest);
    }
  }

  lemma NothingListed(items: seq<int>, seps: seq<string>)
    requires |seps| == |items| == 0
    ensures Listing(items, seps) == ""
  {
  }

  lemma WhiteIsNoDigit(sep: string, more: string)
    requires White(sep) && sep != ""
    ensures sep + more != "" && !IsDigit((sep + more)[0])
  {
    assert (sep + more)[0] == sep[0];
  }

  /** The first step of reading a listing. */
  lemma FirstReads(lead: string, items: seq<int>, seps: seq<string>, rest: string)
    requires items != [] && |seps| == |items| && White(lead) && Separated(seps, rest)
    ensures ScanNumber(lead + Listing(items, seps) + rest)
         == Some((items[0], seps[0] + Listing(items[1..], seps[1..]) + rest))
  {
    hide PrintInt, ScanNumber, Listing, Separated, White;
    SeparatedTail(items, seps, rest);
    var after := seps[0] + (Listing(items[1..], seps[1..]) + rest);
    NumberReads(lead, items[0], after);
    assert lead + Listing(items, seps) + rest == lead + (Listing(items, seps) + rest);
    assert lead + PrintInt(items[0]) + after == lead + (PrintInt(items[0]) + after);
    assert after == seps[0] + Listing(items[1..], seps[1..]) + rest;
  }

  /** Nothing after the white space is no number. */
  lemma {:induction false} NoNumberAfter(lead: string, rest: string)
    requires White(lead) && ScanNumber(rest).None?
    ensures ScanNumber(lead + rest).None?
    decreases |lead|
  {
    if lead == "" {
      assert lead + rest == rest;
    } else {
      assert IsSpace(lead[0]) && (lead + rest)[1..] == lead[1..] + rest;
      NoNumberAfter(lead[1..], rest);
      assert SkipSpace(lead + rest) == SkipSpace(lead[1..] + rest);
    }
  }

  lemma {:induction false} ListingIsClean(items: seq<int>, seps: seq<string>, rest: string)
    requires |seps| == |items| && Separated(seps, rest) && NulFree(rest)
    ensures NulFree(Listing(items, seps) + rest)
    decreases |items|
  {
    if items == [] {
      assert Listing(items, seps) + rest == rest;
    } else {
      SeparatedTail(items, seps, rest);
      ListingIsClean(items[1..], seps[1..], rest);
      DecimalIs(if items[0] < 0 then -items[0] else items[0]);
      hide Decimal, DecimalValue, Listing;
      assert NUL !in PrintInt(items[0]) && NUL !in seps[0];
    }
  }
}
