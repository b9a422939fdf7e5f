/**
  The header's layout on the wire, character by character: which characters of the text
  denote which field, for the writer and, independently, for the reader.
 */
module HeaderLayout {
  import opened Options
  import opened Decimal
  import opened HeaderCodec

  /** Digits, or a minus sign and digits. */
  predicate Numeral(s: string) {
    s != "" && if s[0] == '-' then |s| > 1 && AllDigits(s[1..]) else AllDigits(s)
  }

  /** The number a numeral denotes. */
  function Denoted(s: string): int
    requires Numeral(s)
  {
    if s[0] == '-' then 0 - Value(s[1..]) else Value(s)
  }

  predicate Denotes(s: string, v: int) { Numeral(s) && Denoted(s) == v }

  /** Characters from..to of a header. */
  function Part(s: string, from: nat, to: nat): string
    requires from <= to <= |s|
  {
    s[from..to]
  }

  // ------------------------------------------------------------------ the writer

  lemma TextDenotes(f: Field)
    requires f.Ok() && f.Fits()
    ensures |f.Print()| == f.width && Denotes(f.Print(), f.value)
  {
    hide Pad, Digits, Value;
    if f.value < 0 {
      SignedText(f.width, -f.value);
      PaddedExactly(f.width - 1, -f.value);
      BehindMinus(Pad(f.width - 1, Digits(-f.value)));
    } else {
      if f.signed { SignedAsUnsigned(f.width, f.value); }
      InRange(f.value);
      PaddedExactly(f.width, f.value);
      DigitsAreNumeral(Pad(f.width, Digits(f.value)));
    }
  }

  lemma BehindMinus(p: string)
    requires p != "" && AllDigits(p)
    ensures Denotes("-" + p, 0 - Value(p))
  {
    assert ("-" + p)[1..] == p;
  }

  lemma DigitsAreNumeral(p: string)
    requires p != "" && AllDigits(p)
    ensures Denotes(p, Value(p))
  {
    assert IsDigit(p[0]);
  }

  /** The first field's characters, and the text of the others behind them. */
  lemma HeadText(fs: seq<Field>, s: string)
    requires fs != [] && (forall i :: 0 <= i < |fs| ==> fs[i].Ok()) && fs[0].Fits()
    requires Begins(s, Print(fs), Total(fs))
    ensures fs[0].width <= |s| && Denotes(s[..fs[0].width], fs[0].value)
    ensures Begins(s[fs[0].width..], Print(fs[1..]), Total(fs[1..]))
  {
    hide Print, Denotes;
    RestBegins(fs, s, Total(fs));
    TextDenotes(fs[0]);
    assert s[..fs[0].width] == fs[0].Print();
  }

  /** Where field i starts. */
  function Start(fs: seq<Field>, i: nat): (n: nat)
    requires i <= |fs|
    decreases i
  {
    if i == 0 then 0 else fs[0].width + Start(fs[1..], i - 1)
  }

  lemma {:induction false} FieldText(fs: seq<Field>, s: string, i: nat)
    requires i < |fs| && (forall k :: 0 <= k < |fs| ==> fs[k].Ok()) && (forall k :: 0 <= k <= i ==> fs[k].Fits())
    requires Begins(s, Print(fs), Total(fs))
    ensures var n := Start(fs, i); n + fs[i].width <= |s| && Denotes(s[n..n + fs[i].width], fs[i].value)
    decreases i
  {
    hide Print, Denotes, Begins;
    HeadText(fs, s);
    if i > 0 {
      assert fs[0].Fits();
      FieldText(fs[1..], s[fs[0].width..], i - 1);
      var n := Start(fs[1..], i - 1);
      var w := fs[i].width;
      assert s[fs[0].width..][n..n + w] == s[fs[0].width + n..fs[0].width + n + w];
    }
  }

  lemma Starts(fs: seq<Field>)
    requires |fs| == 7
    ensures Start(fs, 0) == 0 && Start(fs, 1) == fs[0].width
    ensures Start(fs, 2) == fs[0].width + fs[1].width
    ensures Start(fs, 3) == fs[0].width + fs[1].width + fs[2].width
    ensures Start(fs, 4) == fs[0].width + fs[1].width + fs[2].width + fs[3].width
    ensures Start(fs, 5) == fs[0].width + fs[1].width + fs[2].width + fs[3].width + fs[4].width
  {
    StartNext(fs, 1);
    StartNext(fs, 2);
    StartNext(fs, 3);
    StartNext(fs, 4);
    StartNext(fs, 5);
  }

  lemma {:induction false} StartNext(fs: seq<Field>, i: nat)
    requires 0 < i <= |fs|
    ensures Start(fs, i) == Start(fs, i - 1) + fs[i - 1].width
    decreases i
  {
    if i > 1 { StartNext(fs[1..], i - 1); }
  }

  /**
    Within the widths every field of the header stands in its own characters: count,
    bytes, datatype, destination, tag, sender.
   */
  lemma SerializedLayout(h: Header)
    requires h.Ok() && WithinWidths(h)
    ensures var s := Serialize(h);
            && Denotes(Part(s, 0, 6), h.count)
            && Denotes(Part(s, 6, 13), h.countBytes)
            && Denotes(Part(s, 13, 23), h.dt)
            && Denotes(Part(s, 23, 28), h.dest)
            && Denotes(Part(s, 28, 33), h.tag)
            && Denotes(Part(s, 33, 38), h.sender)
  {
    hide Serialize, Print, Denotes, Begins, Start;
    var s, fs := Serialize(h), Fields(h);
    SerializedBegins(h);
    FieldShapes(h);
    Starts(fs);
    FieldText(fs, s, 0);
    FieldText(fs, s, 1);
    FieldText(fs, s, 2);
    FieldText(fs, s, 3);
    FieldText(fs, s, 4);
    FieldText(fs, s, 5);
  }

  // ------------------------------------------------------------------ the reader

  lemma ScanNumeral(s: string, from: nat, w: nat)
    requires 1 < w && from + w <= |s| && Numeral(s[from..from + w])
    ensures Scan(s[from..], w) == Some((Denoted(s[from..from + w]), s[from + w..]))
  {
    hide Scan, Value;
    var p := s[from..];
    assert p[..w] == s[from..from + w] && p[w..] == s[from + w..];
    if p[0] == '-' {
      assert p[1..w] == p[..w][1..];
      ScanNegative(p, w);
    } else {
      ScanDigits(p, w);
    }
  }

  /** From the scan of the rest to the scan from one field further to the front. */
  lemma ScanNext(s: string, from: nat, w: nat, ws: seq<nat>, vs: seq<int>, ws': seq<nat>, vs': seq<int>)
    requires 1 < w && from + w <= |s| && Numeral(s[from..from + w])
    requires ScanFields(s[from + w..], ws) == Some(vs)
    requires ws' == [w] + ws && vs' == [Denoted(s[from..from + w])] + vs
    ensures ScanFields(s[from..], ws') == Some(vs')
  {
    hide Scan, Denoted, Numeral;
    ScanNumeral(s, from, w);
    assert ws'[1..] == ws;
  }

  /** Seven numerals of the widths of the format. */
  predicate SevenNumerals(s: string) {
    && |s| >= 43
    && Numeral(Part(s, 0, 6)) && Numeral(Part(s, 6, 13)) && Numeral(Part(s, 13, 23)) && Numeral(Part(s, 23, 28))
    && Numeral(Part(s, 28, 33)) && Numeral(Part(s, 33, 38)) && Numeral(Part(s, 38, 43))
  }

  lemma ScannedLayout(s: string)
    requires SevenNumerals(s)
    ensures ScanFields(s, FieldWidths) ==
            Some([Denoted(Part(s, 0, 6)), Denoted(Part(s, 6, 13)), Denoted(Part(s, 13, 23)), Denoted(Part(s, 23, 28)),
                  Denoted(Part(s, 28, 33)), Denoted(Part(s, 33, 38)), Denoted(Part(s, 38, 43))])
  {
    hide Scan, Denoted, Numeral, ScanFields;
    NothingToScan(s[43..]);
    var g := [Denoted(Part(s, 38, 43))];
    ScanNext(s, 38, 5, [], [], [5], g);
    var f := [Denoted(Part(s, 33, 38))] + g;
    ScanNext(s, 33, 5, [5], g, [5, 5], f);
    var e := [Denoted(Part(s, 28, 33))] + f;
    ScanNext(s, 28, 5, [5, 5], f, [5, 5, 5], e);
    var d := [Denoted(Part(s, 23, 28))] + e;
    ScanNext(s, 23, 5, [5, 5, 5], e, [5, 5, 5, 5], d);
    var c := [Denoted(Part(s, 13, 23))] + d;
    ScanNext(s, 13, 10, [5, 5, 5, 5], d, [10, 5, 5, 5, 5], c);
    var b := [Denoted(Part(s, 6, 13))] + c;
    ScanNext(s, 6, 7, [10, 5, 5, 5, 5], c, [7, 10, 5, 5, 5, 5], b);
    var a := [Denoted(Part(s, 0, 6)), Denoted(Part(s, 6, 13)), Denoted(Part(s, 13, 23)), Denoted(Part(s, 23, 28)),
              Denoted(Part(s, 28, 33)), Denoted(Part(s, 33, 38)), Denoted(Part(s, 38, 43))];
    assert a == [Denoted(Part(s, 0, 6))] + b;
    ScanNext(s, 0, 6, [7, 10, 5, 5, 5, 5], b, FieldWidths, a);
    assert s[0..] == s;
  }

  lemma NothingToScan(s: string)
    ensures ScanFields(s, []) == Some([])
  {
  }

  /** A numeral of at most nine characters denotes an int. */
  lemma ShortIsInt(s: string)
    requires Numeral(s) && |s| <= 9
    ensures AsInt(Denoted(s)) == Denoted(s)
  {
    hide Value;
    Pow10Nine();
    if s[0] == '-' {
      ValueFits(s[1..]);
      Pow10Up(|s| - 1, 9);
    } else {
      ValueFits(s);
      Pow10Up(|s|, 9);
    }
  }

  lemma Pow10Nine()
    ensures Pow10(9) == 1_000_000_000
  {
    assert Pow10(4) == 10_000;
  }

  lemma {:induction false} Pow10Up(a: nat, b: nat)
    requires a <= b
    ensures Pow10(a) <= Pow10(b)
  {
    if a < b { Pow10Up(a, b - 1); }
  }

  /**
    Of any seven numerals of the format's widths, the parser stores each field from its
    own characters, the datatype modulo 2^32, or stops at the check on the counts.
   */
  lemma ParsedLayout(s: string)
    requires SevenNumerals(s)
    ensures var count, bytes := Denoted(Part(s, 0, 6)), Denoted(Part(s, 6, 13));
            Parse(s) ==
            if count == 0 then DivisionByZero
            else if bytes % count != 0 then CheckFailed
            else Parsed(Header(count, bytes, Denoted(Part(s, 13, 23)) % Two32, Denoted(Part(s, 23, 28)),
                               Denoted(Part(s, 28, 33)), Denoted(Part(s, 33, 38))),
                        Denoted(Part(s, 38, 43)))
  {
    hide ScanFields, Denoted, Numeral, AsInt;
    ScannedLayout(s);
    ShortIsInt(Part(s, 0, 6));
    ShortIsInt(Part(s, 6, 13));
    ShortIsInt(Part(s, 23, 28));
    ShortIsInt(Part(s, 28, 33));
    ShortIsInt(Part(s, 33, 38));
    ShortIsInt(Part(s, 38, 43));
  }
}
