/** What stands where in the lines of hex_dump. */
module DumpLayout {
  import opened Wrappers
  import opened HexDump

  predicate Printable(b: byte) {
    ' ' as int <= b <= '~' as int
  }

  /** Byte b is the k-th of line l: its two digits and a blank stand from column 3k; and with text shown,
      column 27 + k has b itself, or a dot. */
  predicate ShowsAt(l: string, b: byte, show: bool, k: nat) {
    && 3 * k + 2 < |l|
    && DigitValue(l[3 * k]) == Some(b / 16) && DigitValue(l[3 * k + 1]) == Some(b % 16) && l[3 * k + 2] == ' '
    && (show ==> 27 + k < |l| && l[27 + k] == if Printable(b) then b as char else '.')
  }

  /** A line shows its bytes; with text, a separator stands in column 24, and nothing but blanks where a
      short line has no bytes. */
  predicate IsLine(l: string, bs: seq<byte>, show: bool) {
    && |l| == (if show then 27 + |bs| else 3 * |bs|)
    && (forall k: nat | k < |bs| :: ShowsAt(l, bs[k], show, k))
    && (show ==> l[24..27] == " | " && forall k: nat | 3 * |bs| <= k < 24 :: l[k] == ' ')
  }

  lemma {:induction false} ColumnOf(bs: seq<byte>, k: nat)
    requires k < |bs|
    ensures |HexColumns(bs)| == 3 * |bs| && HexColumns(bs)[3 * k..3 * k + 3] == Hex(bs[k])
  {
    ColumnsLength(bs);
    if k > 0 {
      ColumnOf(bs[1..], k - 1);
      ColumnsLength(bs[1..]);
      var rest := HexColumns(bs[1..]);
      assert HexColumns(bs)[3 * k..3 * k + 3] == rest[3 * (k - 1)..3 * (k - 1) + 3];
    }
  }

  lemma {:induction false} OnlyBlanks(n: nat, k: nat)
    requires k < 3 * n
    ensures |Blanks(n)| == 3 * n && Blanks(n)[k] == ' '
  {
    BlanksLength(n);
    if k >= 3 {
      OnlyBlanks(n - 1, k - 3);
    }
  }

  lemma ThreeOf(l: string, k: nat, h: string)
    requires 3 * k + 3 <= |l| && |h| == 3 && l[3 * k..3 * k + 3] == h
    ensures l[3 * k] == h[0] && l[3 * k + 1] == h[1] && l[3 * k + 2] == h[2]
  {
  }

  lemma BodyShows(bs: seq<byte>, show: bool, k: nat)
    requires k < |bs| <= LINE
    ensures ShowsAt(Body(bs, show), bs[k], show, k)
  {
    var l := Body(bs, show);
    BodyLayout(bs, show);
    ColumnOf(bs, k);
    assert l[3 * k..3 * k + 3] == HexColumns(bs)[3 * k..3 * k + 3];
    ThreeOf(l, k, Hex(bs[k]));
    DigitsRoundTrip(bs[k]);
    assert show ==> l[27 + k] == l[27..][k];
  }

  lemma BodyPads(bs: seq<byte>, k: nat)
    requires 3 * |bs| <= k < 24
    ensures |Body(bs, true)| > 24 && Body(bs, true)[k] == ' '
  {
    ColumnsLength(bs);
    BlanksLength(LINE - |bs|);
    OnlyBlanks(LINE - |bs|, k - 3 * |bs|);
    assert Body(bs, true)[k] == Blanks(LINE - |bs|)[k - 3 * |bs|];
  }

  lemma BodyIsLine(bs: seq<byte>, show: bool)
    requires 0 < |bs| <= LINE
    ensures IsLine(Body(bs, show), bs, show)
  {
    BodyLayout(bs, show);
    forall k: nat | k < |bs| ensures ShowsAt(Body(bs, show), bs[k], show, k) {
      BodyShows(bs, show, k);
    }
    if show {
      forall k: nat | 3 * |bs| <= k < 24 ensures Body(bs, show)[k] == ' ' {
        BodyPads(bs, k);
      }
    }
  }

  /** The bytes of line j. */
  function LineOf(bs: seq<byte>, j: nat): seq<byte>
    requires 8 * j < |bs|
  {
    bs[8 * j..if 8 * j + 8 <= |bs| then 8 * j + 8 else |bs|]
  }

  lemma LineOfRest(bs: seq<byte>, j: nat)
    requires 8 * (j + 1) < |bs|
    ensures 8 * j < |Rest(bs)| && LineOf(bs, j + 1) == LineOf(Rest(bs), j)
  {
    var end := if 8 * j + 16 <= |bs| then 8 * j + 16 else |bs|;
    assert Rest(bs) == bs[8..];
    SliceOfSlice(bs, 8, 8 * j, end - 8);
  }

  lemma SliceOfSlice(bs: seq<byte>, n: nat, a: nat, b: nat)
    requires a <= b && n + b <= |bs|
    ensures bs[n..][a..b] == bs[n + a..n + b]
  {
  }

  /** Every line shows its eight bytes, or what is left of them, in hexadecimal and, if asked for, as
      text. */
  lemma {:induction false} LineLayout(bs: seq<byte>, show: bool, j: nat)
    requires 8 * j < |bs|
    ensures j < |Lines(bs, show)| && IsLine(Lines(bs, show)[j], LineOf(bs, j), show)
    decreases j
  {
    DumpSplits(bs, show);
    if j == 0 {
      BodyIsLine(First(bs), show);
      assert LineOf(bs, 0) == First(bs);
    } else {
      LineOfRest(bs, j - 1);
      LineLayout(Rest(bs), show, j - 1);
    }
  }

  // ---- Reading the text back ----

  /** The text columns of the lines, one after the other. */
  function Texts(lines: seq<string>): string {
    if lines == [] then "" else (if |lines[0]| < 27 then "" else lines[0][27..]) + Texts(lines[1..])
  }

  /** text has one character for each byte: the byte, or a dot where that cannot be printed. */
  predicate ReadsAs(text: string, bs: seq<byte>) {
    && |text| == |bs|
    && forall i: nat | i < |bs| :: text[i] == if Printable(bs[i]) then bs[i] as char else '.'
  }

  lemma ReadsJoin(a: string, bs: seq<byte>, b: string, cs: seq<byte>)
    requires ReadsAs(a, bs) && ReadsAs(b, cs)
    ensures ReadsAs(a + b, bs + cs)
  {
  }

  lemma LineReads(l: string, bs: seq<byte>)
    requires IsLine(l, bs, true)
    ensures ReadsAs(l[27..], bs)
  {
    forall i: nat | i < |bs| ensures l[27..][i] == if Printable(bs[i]) then bs[i] as char else '.' {
      assert ShowsAt(l, bs[i], true, i);
    }
  }

  lemma {:induction false} TextsRead(bs: seq<byte>)
    ensures ReadsAs(Texts(Lines(bs, true)), bs)
    decreases |bs|
  {
    if bs != [] {
      var l, ls := Body(First(bs), true), Lines(Rest(bs), true);
      DumpSplits(bs, true);
      BodyIsLine(First(bs), true);
      LineReads(l, First(bs));
      TextsRead(Rest(bs));
      assert ([l] + ls)[1..] == ls;
      ReadsJoin(l[27..], First(bs), Texts(ls), Rest(bs));
    }
  }

  /** Read one after the other, the text columns have one character for each byte: the byte, or a dot
      where that cannot be printed. So they are the buffer if and only if all of it can be printed. */
  lemma TextRoundTrip(bs: seq<byte>)
    ensures var text := Texts(Lines(bs, true));
      && |text| == |bs|
      && (forall i: nat | i < |bs| :: text[i] == if Printable(bs[i]) then bs[i] as char else '.')
      && ((forall i: nat | i < |bs| :: text[i] as int == bs[i]) <==> forall b | b in bs :: Printable(b))
  {
    var text := Texts(Lines(bs, true));
    TextsRead(bs);
    forall i: nat | i < |bs| ensures text[i] as int == bs[i] <==> Printable(bs[i]) {
      assert text[i] == if Printable(bs[i]) then bs[i] as char else '.';
    }
    if forall i: nat | i < |bs| :: text[i] as int == bs[i] {
      forall b | b in bs ensures Printable(b) {
        var i: nat :| i < |bs| && bs[i] == b;
        assert text[i] as int == bs[i];
      }
    }
  }
}
