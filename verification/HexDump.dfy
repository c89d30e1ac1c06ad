/** hex_dump of rsdebug.cc: lines of eight bytes, in hexadecimal and, if asked for, as text. */
module HexDump {
  import opened Wrappers

  const LINE: nat := 8

  function Digit(n: int): char
    requires 0 <= n < 16
  {
    "0123456789abcdef"[n]
  }

  function Hex(b: byte): string {
    [Digit(b / 16), Digit(b % 16), ' ']
  }

  /** isprint in the C locale, or a dot. */
  function Shown(b: byte): char {
    if 32 <= b < 127 then b as char else '.'
  }

  function HexColumns(bs: seq<byte>): string {
    if bs == [] then "" else Hex(bs[0]) + HexColumns(bs[1..])
  }

  function Text(bs: seq<byte>): string {
    seq(|bs|, i requires 0 <= i < |bs| => Shown(bs[i]))
  }

  function Blanks(n: nat): string {
    if n == 0 then "" else "   " + Blanks(n - 1)
  }

  /** A line without its newline. */
  function Body(bs: seq<byte>, show: bool): string
    requires |bs| <= LINE
  {
    HexColumns(bs) + if show then Blanks(LINE - |bs|) + " | " + Text(bs) else ""
  }

  /** The reference: split into lines of eight, print each. */
  function Dump(bs: seq<byte>, show: bool): string {
    if bs == [] then ""
    else if |bs| <= LINE then Body(bs, show) + "\n"
    else Body(bs[..LINE], show) + "\n" + Dump(bs[LINE..], show)
  }

  // ---- The loop ----

  lemma {:induction false} HexColumnsGrow(bs: seq<byte>, b: byte)
    ensures HexColumns(bs + [b]) == HexColumns(bs) + Hex(b)
  {
    if bs == [] {
      assert [b][1..] == [];
    } else {
      assert (bs + [b])[1..] == bs[1..] + [b];
      HexColumnsGrow(bs[1..], b);
    }
  }

  lemma {:induction false} BlanksGrow(n: nat)
    ensures Blanks(n + 1) == Blanks(n) + "   "
  {
    if n > 0 {
      BlanksGrow(n - 1);
    }
  }

  lemma DumpOfCons(first: seq<byte>, rest: seq<byte>, show: bool)
    requires |first| == LINE
    ensures Dump(first + rest, show) == Body(first, show) + "\n" + Dump(rest, show)
  {
    if rest == [] {
      assert first + rest == first;
    } else {
      assert (first + rest)[..LINE] == first && (first + rest)[LINE..] == rest;
    }
  }

  /** Full lines followed by one more line. */
  lemma {:induction false} DumpGrows(done: seq<byte>, line: seq<byte>, show: bool)
    requires |done| % LINE == 0 && 0 < |line| <= LINE
    ensures Dump(done + line, show) == Dump(done, show) + (Body(line, show) + "\n")
    decreases |done|
  {
    if done == [] {
      assert done + line == line;
    } else {
      var first, rest := done[..LINE], done[LINE..];
      assert done + line == first + (rest + line) && done == first + rest;
      DumpOfCons(first, rest + line, show);
      DumpOfCons(first, rest, show);
      DumpGrows(rest, line, show);
      Associative(Body(first, show) + "\n", Dump(rest, show), Body(line, show) + "\n");
    }
  }

  /** What has been printed when the line that begins at `start` has its hexadecimal columns up to
      `end`. */
  function Printed(buf: seq<byte>, start: nat, end: nat, show: bool): string
    requires start <= end <= |buf|
  {
    Dump(buf[..start], show) + HexColumns(buf[start..end])
  }

  lemma PrintedGrows(buf: seq<byte>, start: nat, end: nat, show: bool)
    requires start <= end < |buf|
    ensures Printed(buf, start, end + 1, show) == Printed(buf, start, end, show) + Hex(buf[end])
    ensures buf[start..end + 1] == buf[start..end] + [buf[end]]
  {
    assert buf[start..end + 1] == buf[start..end] + [buf[end]];
    HexColumnsGrow(buf[start..end], buf[end]);
    Associative(Dump(buf[..start], show), HexColumns(buf[start..end]), Hex(buf[end]));
  }

  /** What follows the hexadecimal columns of a line. */
  function LineTail(line: seq<byte>, show: bool): string
    requires |line| <= LINE
  {
    (if show then Blanks(LINE - |line|) + " | " + Text(line) else "") + "\n"
  }

  /** It completes the dump of everything up to the end of the line. */
  lemma LineEnds(buf: seq<byte>, start: nat, end: nat, show: bool)
    requires start % LINE == 0 && start < end <= |buf| && end - start <= LINE
    ensures Printed(buf, start, end, show) + LineTail(buf[start..end], show) == Printed(buf, end, end, show)
    ensures Printed(buf, end, end, show) == Dump(buf[..end], show)
  {
    var line := buf[start..end];
    var tail := if show then Blanks(LINE - |line|) + " | " + Text(line) else "";
    assert buf[..end] == buf[..start] + line;
    DumpGrows(buf[..start], line, show);
    Associative(Dump(buf[..start], show), HexColumns(line), LineTail(line, show));
    Associative(HexColumns(line), tail, "\n");
    assert buf[end..end] == [];
  }

  /** The padding after the text has been terminated: one blank column for each byte missing. */
  method Pad(renderString: array<char>, shown: nat) returns (os: string)
    requires renderString.Length == LINE + 1 && shown < LINE
    modifies renderString
    ensures os == Blanks(LINE - shown) && renderString[..shown] == old(renderString[..shown])
  {
    os := "";
    var rsptr := shown;
    renderString[rsptr] := '\0';
    assert renderString[..shown] == old(renderString[..shown]);
    rsptr := rsptr + 1;
    while rsptr != LINE + 1
      invariant shown < rsptr <= LINE + 1
      invariant os == Blanks(rsptr - shown - 1)
      invariant renderString[..shown] == old(renderString[..shown])
      decreases LINE + 1 - rsptr
    {
      BlanksGrow(rsptr - shown - 1);
      os := os + "   ";
      rsptr := rsptr + 1;
    }
  }

  /** One character for the text column. */
  method PutText(renderString: array<char>, rsptr: nat, b: byte, ghost line: seq<byte>)
    requires renderString.Length == LINE + 1 && rsptr <= LINE && renderString[..rsptr] == Text(line)
    modifies renderString
    ensures renderString[..rsptr + 1] == Text(line + [b])
  {
    renderString[rsptr] := Shown(b);
    assert renderString[..rsptr] == Text(line);
    assert Text(line + [b]) == Text(line) + [Shown(b)];
  }

  /** One byte: its column, and its character. */
  method PutByte(renderString: array<char>, rsptr: nat, b: byte, show: bool, ghost buf: seq<byte>, ghost start: nat)
    returns (os: string)
    requires renderString.Length == LINE + 1 && rsptr <= LINE && start + rsptr < |buf| && b == buf[start + rsptr]
    requires renderString[..rsptr] == Text(buf[start..start + rsptr])
    modifies renderString
    ensures renderString[..rsptr + 1] == Text(buf[start..start + rsptr + 1])
    ensures Printed(buf, start, start + rsptr, show) + os == Printed(buf, start, start + rsptr + 1, show)
  {
    PrintedGrows(buf, start, start + rsptr, show);
    os := Hex(b);
    PutText(renderString, rsptr, b, buf[start..start + rsptr]);
  }

  /** The end of a full line: the terminator goes to the last place of the buffer. */
  method EndLine(renderString: array<char>, rsptr: nat, show: bool, ghost line: seq<byte>) returns (os: string)
    requires renderString.Length == LINE + 1 && rsptr == LINE == |line| && renderString[..rsptr] == Text(line)
    modifies renderString
    ensures os == LineTail(line, show)
  {
    os := "";
    renderString[rsptr] := '\0';
    assert renderString[..rsptr] == Text(line);
    if show {
      os := os + " | " + renderString[..rsptr];
    }
    os := os + "\n";
  }

  /** The same, in terms of what has been printed. */
  method EndLineOf(renderString: array<char>, rsptr: nat, show: bool, ghost buf: seq<byte>, ghost start: nat)
    returns (os: string)
    requires renderString.Length == LINE + 1 && rsptr == LINE && start + LINE <= |buf| && start % LINE == 0
    requires renderString[..rsptr] == Text(buf[start..start + LINE])
    modifies renderString
    ensures Printed(buf, start, start + LINE, show) + os == Printed(buf, start + LINE, start + LINE, show)
  {
    LineEnds(buf, start, start + LINE, show);
    os := EndLine(renderString, rsptr, show, buf[start..start + LINE]);
  }

  /** The end of a shorter last line. */
  method EndLastLine(renderString: array<char>, rsptr: nat, show: bool, ghost line: seq<byte>) returns (os: string)
    requires renderString.Length == LINE + 1 && rsptr == |line| < LINE && renderString[..rsptr] == Text(line)
    modifies renderString
    ensures os == LineTail(line, show)
  {
    os := "";
    if show {
      os := Pad(renderString, rsptr);
      os := os + " | " + renderString[..rsptr];
    }
    os := os + "\n";
  }

  /** The counters while the line that begins at `start` has rsptr of its columns: linecount is what
      is missing to eight, or, on a line that the buffer does not fill, something it never uses up. */
  predicate Counted(n: nat, start: nat, rsptr: nat, linecount: nat) {
    && start % LINE == 0 && rsptr < LINE && 0 < linecount && linecount + rsptr <= LINE && start + rsptr <= n
    && (n - start >= LINE ==> linecount + rsptr == LINE)
    && (n - start < LINE ==> n - start < linecount + rsptr)
  }

  lemma CountersAdvance(n: nat, start: nat, rsptr: nat, linecount: nat)
    requires Counted(n, start, rsptr, linecount) && start + rsptr < n
    ensures linecount > 1 ==> Counted(n, start, rsptr + 1, linecount - 1)
    ensures linecount == 1 ==>
      && rsptr + 1 == LINE
      && (var bufsize := n - (start + rsptr);
          Counted(n, start + rsptr + 1, 0, if LINE <= bufsize then LINE else bufsize))
  {
  }

  lemma NothingPrinted(buf: seq<byte>, show: bool)
    ensures Printed(buf, 0, 0, show) == ""
  {
    assert buf[..0] == [] && buf[0..0] == [];
  }

  /** The loop: everything is in its columns, and the last line, begun at `start`, may still need its
      text. The reload of linecount looks at bufsize before it is decremented, so on a last, shorter
      line it is one too large and the loop does not end that line. */
  method PrintColumns(buf: seq<byte>, show: bool, renderString: array<char>) returns (os: string, rsptr: nat)
    requires renderString.Length == LINE + 1
    modifies renderString
    ensures rsptr < LINE && rsptr <= |buf| && (|buf| - rsptr) % LINE == 0
    ensures renderString[..rsptr] == Text(buf[|buf| - rsptr..|buf|])
    ensures os == Printed(buf, |buf| - rsptr, |buf|, show)
  {
    os, rsptr := "", 0;
    var linecount: nat, bufsize: nat, i: nat := LINE, |buf|, 0;
    NothingPrinted(buf, show);
    ghost var start: nat := 0;
    while bufsize > 0
      invariant i + bufsize == |buf| && start + rsptr == i && Counted(|buf|, start, rsptr, linecount)
      invariant renderString[..rsptr] == Text(buf[start..i])
      invariant os == Printed(buf, start, i, show)
    {
      CountersAdvance(|buf|, start, rsptr, linecount);
      var column := PutByte(renderString, rsptr, buf[i], show, buf, start);
      os := os + column;
      rsptr := rsptr + 1;
      linecount := linecount - 1;
      if linecount == 0 {
        var end := EndLineOf(renderString, rsptr, show, buf, start);
        os := os + end;
        rsptr := 0;
        start := i + 1;
        linecount := if LINE <= bufsize then LINE else bufsize;
        assert Text(buf[start..i + 1]) == [];
      }
      bufsize := bufsize - 1;
      i := i + 1;
    }
  }

  /** hex_dump with its pointer, counters and nine-character render buffer; a null buffer prints
      nothing. */
  method Print(buffer: Option<seq<byte>>, show: bool) returns (os: string)
    ensures os == if buffer.None? then "" else Dump(buffer.value, show)
  {
    if buffer.None? {
      return "";
    }
    var buf := buffer.value;
    var renderString := new char[LINE + 1];
    var rsptr: nat;
    os, rsptr := PrintColumns(buf, show, renderString);
    ghost var start := |buf| - rsptr;
    assert buf[..|buf|] == buf;
    if rsptr != 0 {
      LineEnds(buf, start, |buf|, show);
      var end := EndLastLine(renderString, rsptr, show, buf[start..|buf|]);
      os := os + end;
    } else {
      assert buf[start..|buf|] == [];
    }
  }

  // ---- What the dump is ----

  /** The lines of a dump, without their newlines. */
  function Lines(bs: seq<byte>, show: bool): seq<string> {
    if bs == [] then []
    else if |bs| <= LINE then [Body(bs, show)]
    else [Body(bs[..LINE], show)] + Lines(bs[LINE..], show)
  }

  function Joined(lines: seq<string>): string {
    if lines == [] then "" else lines[0] + "\n" + Joined(lines[1..])
  }

  lemma {:induction false} ColumnsLength(bs: seq<byte>)
    ensures |HexColumns(bs)| == 3 * |bs|
  {
    if bs != [] {
      ColumnsLength(bs[1..]);
    }
  }

  lemma {:induction false} BlanksLength(n: nat)
    ensures |Blanks(n)| == 3 * n
  {
    if n > 0 {
      BlanksLength(n - 1);
    }
  }

  lemma {:induction false} NoNewlineInColumns(bs: seq<byte>)
    ensures '\n' !in HexColumns(bs)
  {
    if bs != [] {
      NoNewlineInColumns(bs[1..]);
    }
  }

  lemma {:induction false} NoNewlineInBlanks(n: nat)
    ensures '\n' !in Blanks(n)
  {
    if n > 0 {
      NoNewlineInBlanks(n - 1);
    }
  }

  /** Every line keeps to one line, and with text shown its separator stands in the same column. */
  lemma BodyLayout(bs: seq<byte>, show: bool)
    requires 0 < |bs| <= LINE
    ensures '\n' !in Body(bs, show)
    ensures show ==> |Body(bs, show)| == 3 * LINE + 3 + |bs| && Body(bs, show)[3 * LINE..3 * LINE + 3] == " | "
    ensures show ==> Body(bs, show)[3 * LINE + 3..] == Text(bs)
    ensures !show ==> |Body(bs, show)| == 3 * |bs|
  {
    ColumnsLength(bs);
    BlanksLength(LINE - |bs|);
    NoNewlineInColumns(bs);
    NoNewlineInBlanks(LINE - |bs|);
    if show {
      var left := HexColumns(bs) + Blanks(LINE - |bs|);
      assert Body(bs, show) == left + " | " + Text(bs);
    }
  }

  function First(bs: seq<byte>): seq<byte> {
    if |bs| <= LINE then bs else bs[..LINE]
  }

  function Rest(bs: seq<byte>): seq<byte> {
    if |bs| <= LINE then [] else bs[LINE..]
  }

  lemma DumpSplits(bs: seq<byte>, show: bool)
    requires bs != []
    ensures First(bs) + Rest(bs) == bs && 0 < |First(bs)| <= LINE && |Rest(bs)| < |bs|
    ensures Dump(bs, show) == Body(First(bs), show) + "\n" + Dump(Rest(bs), show)
    ensures Lines(bs, show) == [Body(First(bs), show)] + Lines(Rest(bs), show)
  {
  }

  lemma JoinedOfCons(l: string, ls: seq<string>)
    ensures Joined([l] + ls) == l + "\n" + Joined(ls)
  {
    assert ([l] + ls)[1..] == ls;
  }

  /** Shape: a dump of n bytes has ceil(n/8) lines, none of which contains a newline, and with text
      shown every separator is in column 24. */
  lemma {:induction false} DumpShape(bs: seq<byte>, show: bool)
    ensures Dump(bs, show) == Joined(Lines(bs, show))
    ensures |Lines(bs, show)| == (|bs| + 7) / 8
    ensures forall l | l in Lines(bs, show) :: '\n' !in l && (show ==> |l| > 27 && l[24..27] == " | ")
    decreases |bs|
  {
    if bs != [] {
      DumpSplits(bs, show);
      BodyLayout(First(bs), show);
      DumpShape(Rest(bs), show);
      JoinedOfCons(Body(First(bs), show), Lines(Rest(bs), show));
    }
  }

  // ---- Reading a dump back ----

  function DigitValue(c: char): Option<int> {
    if '0' <= c <= '9' then Some(c as int - '0' as int)
    else if 'a' <= c <= 'f' then Some(c as int - 'a' as int + 10)
    else None
  }

  /** The bytes of the hexadecimal columns at the start of a line. */
  function DecodeLine(s: string): seq<byte> {
    if |s| < 3 || DigitValue(s[0]).None? || DigitValue(s[1]).None? || s[2] != ' ' then []
    else [16 * DigitValue(s[0]).value + DigitValue(s[1]).value] + DecodeLine(s[3..])
  }

  function UpTo(s: string, c: char): (k: nat)
    ensures k <= |s| && c !in s[..k] && (k < |s| ==> s[k] == c)
  {
    if s == [] || s[0] == c then 0 else 1 + UpTo(s[1..], c)
  }

  function Decode(s: string): seq<byte> {
    if s == "" then []
    else
      var k := UpTo(s, '\n');
      DecodeLine(s[..k]) + if k < |s| then Decode(s[k + 1..]) else []
  }

  lemma DigitsRoundTrip(b: byte)
    ensures DigitValue(Digit(b / 16)) == Some(b / 16) && DigitValue(Digit(b % 16)) == Some(b % 16)
  {
    DigitRoundTrip(b / 16);
    DigitRoundTrip(b % 16);
  }

  lemma DigitRoundTrip(n: int)
    requires 0 <= n < 16
    ensures DigitValue(Digit(n)) == Some(n)
  {
    assert n in {0, 1, 2, 3, 4, 5, 6, 7, 8, 9, 10, 11, 12, 13, 14, 15};
  }

  lemma DecodeOfHex(b: byte, t: string)
    ensures DecodeLine(Hex(b) + t) == [b] + DecodeLine(t)
  {
    DigitsRoundTrip(b);
    assert (Hex(b) + t)[3..] == t;
  }

  lemma {:induction false} LineRoundTrip(bs: seq<byte>, rest: string)
    requires rest == "" || rest[0] == ' '
    ensures DecodeLine(HexColumns(bs) + rest) == bs
  {
    if bs == [] {
      assert HexColumns(bs) + rest == rest;
    } else {
      Associative(Hex(bs[0]), HexColumns(bs[1..]), rest);
      DecodeOfHex(bs[0], HexColumns(bs[1..]) + rest);
      LineRoundTrip(bs[1..], rest);
    }
  }

  lemma BodyRoundTrip(bs: seq<byte>, show: bool)
    requires |bs| <= LINE
    ensures DecodeLine(Body(bs, show)) == bs
  {
    var rest := if show then Blanks(LINE - |bs|) + " | " + Text(bs) else "";
    LineRoundTrip(bs, rest);
  }

  lemma {:induction false} FirstLine(l: string, rest: string)
    requires '\n' !in l
    ensures UpTo(l + "\n" + rest, '\n') == |l|
    ensures (l + "\n" + rest)[..|l|] == l && (l + "\n" + rest)[|l| + 1..] == rest
  {
    if l != "" {
      assert (l + "\n" + rest)[1..] == l[1..] + "\n" + rest;
      FirstLine(l[1..], rest);
    }
  }

  /** Round trip: the hexadecimal columns of a dump give back the buffer, with or without text. */
  lemma {:induction false} DumpRoundTrip(bs: seq<byte>, show: bool)
    ensures Decode(Dump(bs, show)) == bs
    decreases |bs|
  {
    if bs != [] {
      DumpSplits(bs, show);
      BodyLayout(First(bs), show);
      FirstLine(Body(First(bs), show), Dump(Rest(bs), show));
      BodyRoundTrip(First(bs), show);
      DumpRoundTrip(Rest(bs), show);
    }
  }
}
