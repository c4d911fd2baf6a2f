/** The flat database record: one NUL after every line. Packing, the two walkers that take it
    apart again, and the database they work on (server/regdb.c, server/showregdb.c). */
module Records {
  import opened Bytes

  const TXTLINES: nat := 39

  datatype Option<T> = None | Some(value: T)

  function Pack(lines: seq<string>): string {
    if lines == [] then "" else lines[0] + [NUL] + Pack(lines[1..])
  }

  lemma {:induction false} PackAppend(a: seq<string>, b: seq<string>)
    ensures Pack(a + b) == Pack(a) + Pack(b)
  {
    if a == [] {
      assert a + b == b;
    } else {
      PackAppend(a[1..], b);
      assert (a + b)[1..] == a[1..] + b;
      assert Pack(a + b) == (a[0] + [NUL]) + (Pack(a[1..]) + Pack(b));
    }
  }

  lemma PackSnoc(a: seq<string>, line: string)
    ensures Pack(a + [line]) == Pack(a) + (line + [NUL])
  {
    PackAppend(a, [line]);
    assert Pack([line]) == line + [NUL] + Pack([]);
  }

  /** A record is as long as its lines and their count together. */
  lemma {:induction false} PackSize(lines: seq<string>)
    ensures |Pack(lines)| == |Flatten(lines)| + |lines|
  {
    if lines != [] { PackSize(lines[1..]); }
  }

  predicate AllNulFree(lines: seq<string>) {
    forall i :: 0 <= i < |lines| ==> NulFree(lines[i])
  }

  // ---------------------------------------------------------------------------------------
  // Taking a record apart
  // ---------------------------------------------------------------------------------------

  /** Where the C string that starts at data[at] ends; |data| when it runs past the record. */
  function StringEnd(data: string, at: nat): (r: nat)
    requires at <= |data|
    ensures at <= r <= |data|
    decreases |data| - at
  {
    if at == |data| || data[at] == NUL then at else StringEnd(data, at + 1)
  }

  /** The next `n` C strings from data[at..], or None when one of them runs past the record. */
  function Unpack(data: string, at: nat, n: nat): Option<seq<string>>
    requires at <= |data|
    decreases n
  {
    var end := StringEnd(data, at);
    if n == 0 then Some([])
    else if end == |data| then None
    else match Unpack(data, end + 1, n - 1)
      case None => None
      case Some(more) => Some([data[at..end]] + more)
  }

  /** Every byte but the NULs, or None when the last string runs past the record. */
  function Plain(data: string): Option<string> {
    if data == "" then Some("")
    else if data[|data| - 1] != NUL then None
    else Some(WithoutNul(data))
  }

  function WithoutNul(data: string): string {
    if data == "" then ""
    else (if data[0] == NUL then "" else [data[0]]) + WithoutNul(data[1..])
  }

  function CountNul(data: string): nat {
    if data == "" then 0 else (if data[0] == NUL then 1 else 0) + CountNul(data[1..])
  }

  lemma {:induction false} StringEndIs(data: string, at: nat, end: nat)
    requires at <= end <= |data|
    requires forall i :: at <= i < end ==> data[i] != NUL
    requires end == |data| || data[end] == NUL
    ensures StringEnd(data, at) == end
    decreases end - at
  {
    if at < end { StringEndIs(data, at + 1, end); }
  }

  lemma {:induction false} StringEndFinds(data: string, at: nat)
    requires at <= |data|
    ensures var end := StringEnd(data, at);
            (forall i :: at <= i < end ==> data[i] != NUL) && (end < |data| ==> data[end] == NUL)
    decreases |data| - at
  {
    if at < |data| && data[at] != NUL { StringEndFinds(data, at + 1); }
  }

  lemma OnePacked(before: string, lines: seq<string>)
    requires lines != []
    ensures before + Pack(lines) == before + lines[0] + [NUL] + Pack(lines[1..])
  {
    assert Pack(lines) == lines[0] + [NUL] + Pack(lines[1..]);
    hide Pack;
  }

  /** Unpacking is the inverse of packing, with anything before and after the record. */
  lemma {:induction false} UnpackAfter(before: string, lines: seq<string>, n: nat)
    requires AllNulFree(lines) && n <= |lines|
    ensures Unpack(before + Pack(lines), |before|, n) == Some(lines[..n])
    decreases n
  {
    if n > 0 {
      var line, more := lines[0], lines[1..];
      var data := before + Pack(lines);
      var next := before + line + [NUL];
      OnePacked(before, lines);
      hide Pack;
      forall i | |before| <= i < |before| + |line| ensures data[i] != NUL {
        assert data[i] == line[i - |before|];
      }
      StringEndIs(data, |before|, |before| + |line|);
      UnpackAfter(next, more, n - 1);
      assert data[|before|..|before| + |line|] == line;
      assert lines[..n] == [line] + more[..n - 1];
    }
  }

  /** reg_getdb gives back the first 39 packed lines. */
  lemma UnpackPack(lines: seq<string>)
    requires AllNulFree(lines) && |lines| >= TXTLINES
    ensures Unpack(Pack(lines), 0, TXTLINES) == Some(lines[..TXTLINES])
  {
    UnpackAfter("", lines, TXTLINES);
    assert "" + Pack(lines) == Pack(lines);
  }

  /** Two different line lists never pack to the same record. */
  lemma PackInjective(a: seq<string>, b: seq<string>)
    requires AllNulFree(a) && AllNulFree(b) && |a| <= |b| && Pack(a) == Pack(b)
    ensures a == b
  {
    hide Unpack, Pack, Flatten, AllNulFree;
    UnpackAfter("", a, |a|);
    UnpackAfter("", b, |a|);
    assert "" + Pack(a) == Pack(a);
    var rest := b[|a|..];
    assert a == a[..|a|] == b[..|a|];
    assert b == a + rest;
    PackAppend(a, rest);
    PackSize(rest);
  }

  /** The walk of reg_getdb stays inside the record exactly when it holds 39 NULs. */
  lemma {:induction false} UnpackWithin(data: string, at: nat, n: nat)
    requires at <= |data|
    ensures Unpack(data, at, n).Some? <==> CountNul(data[at..]) >= n
    decreases n
  {
    if n > 0 {
      var end := StringEnd(data, at);
      StringEndFinds(data, at);
      CountToEnd(data, at, end);
      if end < |data| { UnpackWithin(data, end + 1, n - 1); }
    }
  }

  lemma {:induction false} CountToEnd(data: string, at: nat, end: nat)
    requires at <= end <= |data|
    requires forall i :: at <= i < end ==> data[i] != NUL
    ensures end < |data| && data[end] == NUL ==> CountNul(data[at..]) == 1 + CountNul(data[end + 1..])
    ensures end == |data| ==> CountNul(data[at..]) == 0
    decreases end - at
  {
    if at < end {
      assert data[at..][1..] == data[at + 1..];
      CountToEnd(data, at + 1, end);
    } else if end < |data| {
      assert data[at..][1..] == data[at + 1..];
    }
  }

  lemma {:induction false} WithoutNulAppend(a: string, b: string)
    ensures WithoutNul(a + b) == WithoutNul(a) + WithoutNul(b)
  {
    if a == "" {
      assert a + b == b;
    } else {
      assert (a + b)[1..] == a[1..] + b;
      WithoutNulAppend(a[1..], b);
    }
  }

  lemma {:induction false} WithoutNulOfFree(a: string)
    requires NulFree(a)
    ensures WithoutNul(a) == a
  {
    if a != "" { WithoutNulOfFree(a[1..]); }
  }

  lemma WithoutNulString(line: string)
    requires NulFree(line)
    ensures WithoutNul(line + [NUL]) == line
  {
    WithoutNulAppend(line, [NUL]);
    WithoutNulOfFree(line);
    assert WithoutNul([NUL]) == WithoutNul("");
  }

  lemma {:induction false} WithoutNulPack(lines: seq<string>)
    requires AllNulFree(lines)
    ensures WithoutNul(Pack(lines)) == Flatten(lines)
  {
    if lines != [] {
      WithoutNulPack(lines[1..]);
      WithoutNulString(lines[0]);
      WithoutNulAppend(lines[0] + [NUL], Pack(lines[1..]));
      hide WithoutNul;
    }
  }

  /** Printing a packed record gives the lines back as one text. */
  lemma PlainPack(lines: seq<string>)
    requires AllNulFree(lines)
    ensures Plain(Pack(lines)) == Some(Flatten(lines))
  {
    WithoutNulPack(lines);
    if lines != [] {
      var front, last := lines[..|lines| - 1], lines[|lines| - 1];
      PackSnoc(front, last);
      assert front + [last] == lines;
    }
  }

  // ---------------------------------------------------------------------------------------
  // The walkers and the database
  // ---------------------------------------------------------------------------------------

  /** show_raw_data, with printf of each string taken as plain output. `inside` is false when
      a string runs past the record, where the source reads memory that is not its own. */
  method ShowRawData(data: string) returns (out: string, inside: bool)
    ensures inside <==> Plain(data).Some?
    ensures inside ==> out == Plain(data).value
  {
    out := "";
    var totlen := 0;
    assert WithoutNul(data[..0]) == "";
    hide WithoutNul, StringEnd;
    while totlen < |data|
      invariant 0 <= totlen <= |data|
      invariant out == WithoutNul(data[..totlen])
      invariant totlen > 0 ==> data[totlen - 1] == NUL
    {
      var temp := totlen;
      var end := StringEnd(data, temp);
      StringEndFinds(data, temp);
      if end == |data| { return out, false; }
      out := out + data[temp..end];
      totlen := end + 1;
      OneString(data, temp, end);
    }
    assert data[..|data|] == data;
    return out, true;
  }

  lemma OneString(data: string, at: nat, end: nat)
    requires at <= end < |data| && data[end] == NUL && forall i :: at <= i < end ==> data[i] != NUL
    ensures WithoutNul(data[..end + 1]) == WithoutNul(data[..at]) + data[at..end]
  {
    assert data[..end + 1] == data[..at] + (data[at..end] + [NUL]);
    WithoutNulAppend(data[..at], data[at..end] + [NUL]);
    WithoutNulString(data[at..end]);
    hide WithoutNul;
  }

  /** What reg_getdb comes back with. `Overrun` stands for reading past the stored record. */
  datatype Fetched = NoSuchKey | Overrun | Lines(lines: seq<string>)

  class RegDb {
    var content: map<string, string>

    constructor ()
      ensures content == map[]
    {
      content := map[];
    }

    /** reg_insertdb: with `confirm` the new record replaces the old one, without it an
        existing key stays as it is and the call answers DB_KEYEXIST. */
    method Insert(key: string, data: string, confirm: bool) returns (stored: bool)
      modifies this
      ensures stored <==> confirm || key !in old(content)
      ensures content == if stored then old(content)[key := data] else old(content)
    {
      if !confirm && key in content { return false; }
      content := content[key := data];
      return true;
    }

    /** reg_getdb */
    method Get(key: string) returns (r: Fetched)
      ensures r.NoSuchKey? <==> key !in content
      ensures key in content ==>
                match Unpack(content[key], 0, TXTLINES)
                case None => r == Overrun
                case Some(lines) => r == Lines(lines)
    {
      if key !in content { return NoSuchKey; }
      hide Unpack;
      var buffer := content[key];
      var lines: seq<string> := [];
      AfterNothing(Unpack(buffer, 0, TXTLINES));
      var temp := 0;
      var i := 0;
      while i < TXTLINES
        invariant 0 <= i <= TXTLINES && 0 <= temp <= |buffer|
        invariant Unpack(buffer, 0, TXTLINES) == After(lines, Unpack(buffer, temp, TXTLINES - i))
      {
        var end := StringEnd(buffer, temp);
        UnpackOne(buffer, temp, TXTLINES - i, lines);
        if end == |buffer| { return Overrun; }
        lines := lines + [buffer[temp..end]];
        temp := end + 1;
        i := i + 1;
      }
      UnpackNone(buffer, temp);
      return Lines(lines);
    }
  }

  function After(lines: seq<string>, more: Option<seq<string>>): Option<seq<string>> {
    match more
    case None => None
    case Some(rest) => Some(lines + rest)
  }

  lemma AfterNothing(more: Option<seq<string>>)
    ensures After([], more) == more
  {
    if more.Some? { assert [] + more.value == more.value; }
  }

  lemma UnpackNone(data: string, at: nat)
    requires at <= |data|
    ensures Unpack(data, at, 0) == Some([])
  {
  }

  lemma UnpackOne(data: string, at: nat, n: nat, lines: seq<string>)
    requires at <= |data| && n > 0
    ensures var end := StringEnd(data, at);
            if end == |data| then Unpack(data, at, n) == None
            else After(lines, Unpack(data, at, n)) == After(lines + [data[at..end]], Unpack(data, end + 1, n - 1))
  {
    var end := StringEnd(data, at);
    if end < |data| && Unpack(data, end + 1, n - 1).Some? {
      var rest := Unpack(data, end + 1, n - 1).value;
      assert lines + ([data[at..end]] + rest) == (lines + [data[at..end]]) + rest;
    }
  }
}
