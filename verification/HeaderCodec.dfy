/** Decimal numbers as printf and scanf write and read them. */
module Decimal {
  import opened Options

  function Pow10(w: nat): (r: nat)
    ensures r > 0
  {
    if w == 0 then 1 else 10 * Pow10(w - 1)
  }

  predicate IsDigit(c: char) { '0' <= c <= '9' }

  predicate AllDigits(s: string) { forall i :: 0 <= i < |s| ==> IsDigit(s[i]) }

  function DigitValue(c: char): nat
    requires IsDigit(c)
  {
    c as nat - '0' as nat
  }

  /** The number a digit string denotes. */
  function Value(s: string): nat
    requires AllDigits(s)
  {
    if s == "" then 0 else 10 * Value(s[..|s| - 1]) + DigitValue(s[|s| - 1])
  }

  /** Without leading zeros. */
  function Digits(v: nat): (s: string)
    ensures AllDigits(s) && Value(s) == v && s != ""
  {
    var last := ['0' + (v % 10) as char];
    if v < 10 then
      assert last[..0] == "";
      last
    else
      var s := Digits(v / 10) + last;
      assert s[..|s| - 1] == Digits(v / 10);
      s
  }

  lemma {:induction false} DigitsFit(v: nat, w: nat)
    requires w >= 1
    ensures |Digits(v)| <= w <==> v < Pow10(w)
  {
    assert Pow10(1) == 10;
    if w > 1 && v >= 10 {
      DigitsFit(v / 10, w - 1);
    } else if w == 1 && v >= 10 {
      assert |Digits(v / 10)| >= 1;
    } else {
      Pow10Grows(w);
    }
  }

  lemma {:induction false} Pow10Grows(w: nat)
    requires w >= 1
    ensures Pow10(w) >= 10
  {
    if w > 1 { Pow10Grows(w - 1); }
  }

  lemma {:induction false} ValueFits(s: string)
    requires AllDigits(s)
    ensures Value(s) < Pow10(|s|)
  {
    if s != "" { ValueFits(s[..|s| - 1]); }
  }

  function Zeros(n: nat): (z: string)
    ensures |z| == n && AllDigits(z)
  {
    if n == 0 then "" else Zeros(n - 1) + "0"
  }

  /** printf's %0wu of an unsigned value. */
  function Pad(w: nat, s: string): (p: string)
    ensures |p| == if |s| < w then w else |s|
    ensures AllDigits(s) ==> AllDigits(p)
  {
    if |s| < w then Zeros(w - |s|) + s else s
  }

  lemma {:induction false} ZerosAdd(n: nat, s: string)
    requires AllDigits(s)
    ensures AllDigits(Zeros(n) + s) && Value(Zeros(n) + s) == Value(s)
  {
    if s == "" {
      ZerosAreZero(n);
      assert Zeros(n) + s == Zeros(n);
    } else {
      ZerosAdd(n, s[..|s| - 1]);
      assert (Zeros(n) + s)[..n + |s| - 1] == Zeros(n) + s[..|s| - 1];
    }
  }

  lemma {:induction false} ZerosAreZero(n: nat)
    ensures Value(Zeros(n)) == 0
  {
    if n > 0 {
      ZerosAreZero(n - 1);
      assert Zeros(n)[..n - 1] == Zeros(n - 1);
    }
  }

  lemma PadValue(w: nat, v: nat)
    ensures AllDigits(Pad(w, Digits(v))) && Value(Pad(w, Digits(v))) == v
  {
    if |Digits(v)| < w { ZerosAdd(w - |Digits(v)|, Digits(v)); }
  }

  // ------------------------------------------------------------------ scanning

  /** The longest run of at most w digits at the front. */
  function DigitRun(s: string, w: nat): (n: nat)
    ensures n <= w && n <= |s| && AllDigits(s[..n])
    ensures n == w || n == |s| || !IsDigit(s[n])
  {
    if w == 0 || s == "" || !IsDigit(s[0]) then 0
    else
      var n := DigitRun(s[1..], w - 1);
      assert s[..n + 1] == [s[0]] + s[1..][..n];
      n + 1
  }

  function SkipSpace(s: string): string {
    if s != "" && (s[0] == ' ' || '\t' <= s[0] <= '\r') then SkipSpace(s[1..]) else s
  }

  /** scanf's %wu or %wd: blanks, a sign, digits, at most w characters after the blanks. */
  function Scan(s: string, w: nat): Option<(int, string)> {
    var t := SkipSpace(s);
    var signed := t != "" && w > 0 && (t[0] == '-' || t[0] == '+');
    var body := if signed then t[1..] else t;
    var n := DigitRun(body, if signed then w - 1 else w);
    if n == 0 then None
    else Some((if signed && t[0] == '-' then 0 - Value(body[..n]) else Value(body[..n]), body[n..]))
  }

  /** A field of at least w digits is read as its first w. */
  lemma {:induction false} RunOfDigits(p: string, w: nat)
    requires w <= |p| && AllDigits(p[..w])
    ensures DigitRun(p, w) == w
  {
    if w > 0 {
      assert p[..w][0] == p[0];
      assert p[1..][..w - 1] == p[..w][1..];
      RunOfDigits(p[1..], w - 1);
    }
  }

  lemma ScanDigits(p: string, w: nat)
    requires 0 < w <= |p| && AllDigits(p[..w])
    ensures Scan(p, w) == Some((Value(p[..w]), p[w..]))
  {
    assert IsDigit(p[..w][0]);
    RunOfDigits(p, w);
  }

  lemma ScanNegative(p: string, w: nat)
    requires 1 < w <= |p| && p[0] == '-' && AllDigits(p[1..w])
    ensures Scan(p, w) == Some((0 - Value(p[1..w]), p[w..]))
  {
    assert p[1..][..w - 1] == p[1..w];
    RunOfDigits(p[1..], w - 1);
    assert p[1..][w - 1..] == p[w..];
  }
}

/** The fixed-width header in front of a bundled MPI message. */
module HeaderCodec {
  import opened Options
  import opened Decimal

  const Two32: nat := 0x1_0000_0000

  predicate IsInt(v: int) { -0x8000_0000 <= v < 0x8000_0000 }

  /** `datatype` is MPI's handle as an unsigned int. */
  datatype Header = Header(count: int, countBytes: int, dt: nat, dest: int, tag: int, sender: int) {
    predicate Ok() {
      IsInt(count) && IsInt(countBytes) && dt < Two32 && IsInt(dest) && IsInt(tag) && IsInt(sender)
    }
  }

  /** What Parse leaves: all seven fields, or the reason it stops. */
  datatype Result =
    | Parsed(h: Header, seqId: int)
    | TooFewFields
    | DivisionByZero       // the check takes the remainder by a zero count
    | CheckFailed          // the bytes are no multiple of the count

  const MetadataNumChars: nat := 43

  function Unsigned(v: int): nat { v % Two32 }

  /** A 32-bit value as an int. */
  function AsInt(v: int): int { var u := v % Two32; if u < 0x8000_0000 then u else u - Two32 }

  /** %0wu. */
  function PrintU(w: nat, v: int): (s: string)
    ensures |s| >= w
  {
    Pad(w, Digits(Unsigned(v)))
  }

  /** %0wd: the sign, then zeros, then digits. */
  function PrintD(w: nat, v: int): (s: string)
    requires w >= 1
    ensures |s| >= w
  {
    if v < 0 then "-" + Pad(w - 1, Digits(-v)) else Pad(w, Digits(v))
  }

  /** One conversion of the format string with its argument. */
  datatype Field = Field(width: nat, value: int, signed: bool) {
    predicate Ok() { width >= 2 && IsInt32or(value) }

    function Print(): (s: string)
      requires Ok()
      ensures |s| >= width
    {
      if signed then PrintD(width, value) else PrintU(width, value)
    }

    /** The value needs no more characters than the field's width. */
    predicate Fits() {
      if signed then width >= 2 && 0 - Pow10(width - 1) < value < Pow10(width) else 0 <= value < Pow10(width)
    }
  }

  predicate IsInt32or(v: int) { -0x8000_0000 <= v < Two32 }

  function Print(fs: seq<Field>): (s: string)
    requires forall i :: 0 <= i < |fs| ==> fs[i].Ok()
  {
    if fs == [] then "" else fs[0].Print() + Print(fs[1..])
  }

  function Widths(fs: seq<Field>): (ws: seq<nat>)
    ensures |ws| == |fs|
  {
    seq(|fs|, i requires 0 <= i < |fs| => fs[i].width)
  }

  /** The format "%06u%07u%010u%05u%05d%05u%05u" with the arguments Serialize gives it. */
  function Fields(h: Header): seq<Field> {
    [Field(6, h.count, false), Field(7, h.countBytes, false), Field(10, h.dt, false), Field(5, h.dest, false),
     Field(5, h.tag, true), Field(5, h.sender, false), Field(5, -1000, false)]
  }

  /** snprintf keeps what fits before the terminator. */
  function Serialize(h: Header): (s: string)
    requires h.Ok()
    ensures |s| == MetadataNumChars
  {
    TotalOf(Fields(h));
    PrintLength(Fields(h), MetadataNumChars);
    Print(Fields(h))[..MetadataNumChars]
  }

  /** sscanf of the fields, one after the other. */
  function ScanFields(s: string, ws: seq<nat>): (r: Option<seq<int>>)
    ensures r.Some? ==> |r.value| == |ws|
    decreases |ws|
  {
    if ws == [] then Some([])
    else
      match Scan(s, ws[0])
      case None => None
      case Some((v, rest)) =>
        match ScanFields(rest, ws[1..])
        case None => None
        case Some(vs) => Some([v] + vs)
  }

  const FieldWidths: seq<nat> := [6, 7, 10, 5, 5, 5, 5]

  /** The six real fields as Parse stores them. */
  function Stored(vs: seq<int>): Header
    requires |vs| == 7
  {
    Header(AsInt(vs[0]), AsInt(vs[1]), Unsigned(vs[2]), AsInt(vs[3]), AsInt(vs[4]), AsInt(vs[5]))
  }

  function Parse(s: string): Result {
    match ScanFields(s, FieldWidths)
    case None => TooFewFields
    case Some(vs) =>
      var h := Stored(vs);
      if h.count == 0 then DivisionByZero
      else if h.countBytes % h.count != 0 then CheckFailed
      else Parsed(h, AsInt(vs[6]))
  }

  // ------------------------------------------------------------------ one field at a time

  /** s begins with the first n characters of t. */
  predicate Begins(s: string, t: string, n: nat) { n <= |s| && n <= |t| && s[..n] == t[..n] }

  lemma UnsignedFits(w: nat, v: int, s: string)
    requires 1 <= w && 0 <= v < Two32 && v < Pow10(w) && Begins(s, PrintU(w, v), w)
    ensures |PrintU(w, v)| == w && Scan(s, w) == Some((v, s[w..]))
  {
    InRange(v);
    hide Unsigned;
    DigitsFit(v, w);
    PadValue(w, v);
    assert s[..w] == PrintU(w, v);
    ScanDigits(s, w);
  }

  /** What does not fit comes back cut to its first w digits, and so smaller. */
  lemma UnsignedCut(w: nat, v: int, s: string)
    requires 1 <= w && Begins(s, PrintU(w, v), w)
    ensures var r := Scan(s, w); r.Some? && 0 <= r.value.0 < Pow10(w)
  {
    PadValue(w, Unsigned(v));
    assert AllDigits(PrintU(w, v)[..w]);
    ScanDigits(s, w);
    ValueFits(s[..w]);
  }

  lemma NegativeFits(w: nat, v: nat, s: string)
    requires 2 <= w && 0 < v < Pow10(w - 1) && Begins(s, PrintD(w, 0 - v), w)
    ensures |PrintD(w, 0 - v)| == w && Scan(s, w) == Some((0 - v, s[w..]))
  {
    hide *;
    SignedText(w, v);
    PaddedExactly(w - 1, v);
    ScanSigned(s, Pad(w - 1, Digits(v)), w);
  }

  lemma SignedText(w: nat, v: nat)
    requires 1 <= w && 0 < v
    ensures PrintD(w, 0 - v) == "-" + Pad(w - 1, Digits(v))
  {
  }

  lemma ScanSigned(s: string, p: string, w: nat)
    requires w >= 2 && |p| == w - 1 && AllDigits(p) && Begins(s, "-" + p, w)
    ensures Scan(s, w) == Some((0 - Value(p), s[w..]))
  {
    hide Scan, Value;
    BehindSign(s, p, w);
    assert s[1..w] == p;
    ScanNegative(s, w);
  }

  lemma PaddedExactly(w: nat, v: nat)
    requires 1 <= w && v < Pow10(w)
    ensures |Pad(w, Digits(v))| == w && AllDigits(Pad(w, Digits(v))) && Value(Pad(w, Digits(v))) == v
  {
    DigitsFit(v, w);
    PadValue(w, v);
  }

  lemma BehindSign(s: string, p: string, w: nat)
    requires w >= 1 && |p| >= w - 1 && Begins(s, "-" + p, w)
    ensures s[0] == '-' && s[1..w] == p[..w - 1]
  {
    assert s[1..w] == s[..w][1..] == ("-" + p)[..w][1..];
  }

  lemma NegativeCut(w: nat, v: nat, s: string)
    requires 2 <= w && 0 < v && Begins(s, PrintD(w, 0 - v), w)
    ensures var r := Scan(s, w); r.Some? && 0 - Pow10(w - 1) < r.value.0 <= 0
  {
    PadValue(w - 1, v);
    BehindSign(s, Pad(w - 1, Digits(v)), w);
    ScanNegative(s, w);
    ValueFits(s[1..w]);
  }

  /** A field comes back exactly when it fits. */
  lemma FieldExact(f: Field, s: string)
    requires f.Ok() && Begins(s, f.Print(), f.width)
    ensures Scan(s, f.width).Some?
    ensures f.Fits() ==> |f.Print()| == f.width && Scan(s, f.width) == Some((f.value, s[f.width..]))
    ensures !f.Fits() ==> Scan(s, f.width).value.0 != f.value
    ensures 0 - Pow10(f.width) < Scan(s, f.width).value.0 < Pow10(f.width)
  {
    var w, v := f.width, f.value;
    Pow10Mono(w);
    hide Begins, Scan, PrintU, PrintD, Pow10, Unsigned;
    if f.signed && v < 0 {
      NegativeCut(w, -v, s);
      if f.Fits() { NegativeFits(w, -v, s); }
    } else if f.signed {
      SignedAsUnsigned(w, v);
      UnsignedCut(w, v, s);
      if f.Fits() { UnsignedFits(w, v, s); }
    } else {
      UnsignedCut(w, v, s);
      if f.Fits() { UnsignedFits(w, v, s); }
    }
  }

  lemma Pow10Mono(w: nat)
    requires w >= 1
    ensures Pow10(w - 1) < Pow10(w)
  {
  }

  lemma SignedAsUnsigned(w: nat, v: int)
    requires w >= 1 && 0 <= v < Two32
    ensures PrintD(w, v) == PrintU(w, v)
  {
    hide Pad, Digits;
    InRange(v);
  }

  lemma InRange(v: int)
    requires 0 <= v < Two32
    ensures Unsigned(v) == v
  {
  }

  // ------------------------------------------------------------------ all fields

  function Total(fs: seq<Field>): (n: nat) {
    if fs == [] then 0 else fs[0].width + Total(fs[1..])
  }

  lemma {:induction false} PrintLength(fs: seq<Field>, n: nat)
    requires forall i :: 0 <= i < |fs| ==> fs[i].Ok()
    requires n <= Total(fs)
    ensures |Print(fs)| >= n
  {
    if fs != [] && n > fs[0].width { PrintLength(fs[1..], n - fs[0].width); }
  }

  lemma Shift(s: string, t: string, p: string, rest: string, n: nat)
    requires Begins(s, t, n) && t == p + rest && |p| <= n
    ensures Begins(s[|p|..], rest, n - |p|)
  {
    assert s[|p|..][..n - |p|] == s[..n][|p|..];
    assert rest[..n - |p|] == t[..n][|p|..];
  }

  /** Behind a field that fits, the rest of the text is the rest of the fields. */
  lemma RestBegins(fs: seq<Field>, s: string, n: nat)
    requires fs != [] && forall i :: 0 <= i < |fs| ==> fs[i].Ok()
    requires Begins(s, Print(fs), n) && n >= fs[0].width
    ensures fs[0].width <= |s| && Begins(s, fs[0].Print(), fs[0].width)
    ensures |fs[0].Print()| == fs[0].width ==> Begins(s[fs[0].width..], Print(fs[1..]), n - fs[0].width)
  {
    hide PrintU, PrintD;
    var p, w := fs[0].Print(), fs[0].width;
    assert Print(fs) == p + Print(fs[1..]);
    assert s[..w] == s[..n][..w] == Print(fs)[..n][..w] == p[..w];
    if |p| == w {
      Shift(s, Print(fs), p, Print(fs[1..]), n);
    }
  }

  /** Scanning the first field, when it fits, leaves the text of the others. */
  lemma HeadField(fs: seq<Field>, s: string)
    requires fs != [] && forall i :: 0 <= i < |fs| ==> fs[i].Ok()
    requires Begins(s, Print(fs), Total(fs))
    ensures var w := fs[0].width;
            var r := Scan(s, w);
            && r.Some? && w <= |s| && Begins(s, fs[0].Print(), w)
            && (fs[0].Fits() <==> r.value.0 == fs[0].value)
            && 0 - Pow10(w) < r.value.0 < Pow10(w)
            && (fs[0].Fits() ==> r.value.1 == s[w..] && Begins(r.value.1, Print(fs[1..]), Total(fs[1..])))
            && Widths(fs)[0] == w && Widths(fs)[1..] == Widths(fs[1..])
  {
    hide Begins, Pow10, Print, Scan;
    RestBegins(fs, s, Total(fs));
    FieldExact(fs[0], s);
  }

  /** All fields but the last come back exactly if they all fit. */
  lemma {:induction false} AllFit(fs: seq<Field>, s: string)
    requires fs != [] && forall i :: 0 <= i < |fs| ==> fs[i].Ok()
    requires Begins(s, Print(fs), Total(fs))
    requires forall i :: 0 <= i < |fs| - 1 ==> fs[i].Fits()
    ensures var r := ScanFields(s, Widths(fs));
            r.Some? && forall i :: 0 <= i < |fs| - 1 ==> r.value[i] == fs[i].value
  {
    hide Begins, Pow10, Print, Scan, Widths;
    HeadField(fs, s);
    if |fs| > 1 {
      assert fs[0].Fits();
      AllFit(fs[1..], s[fs[0].width..]);
    }
  }

  /** The first field that does not fit comes back changed, if scanning gets to the end at all. */
  lemma {:induction false} FirstMisfit(fs: seq<Field>, s: string, i: nat)
    requires i < |fs| && forall k :: 0 <= k < |fs| ==> fs[k].Ok()
    requires Begins(s, Print(fs), Total(fs))
    requires (forall k :: 0 <= k < i ==> fs[k].Fits()) && !fs[i].Fits()
    ensures var r := ScanFields(s, Widths(fs));
            r.Some? ==> r.value[i] != fs[i].value && 0 - Pow10(fs[i].width) < r.value[i] < Pow10(fs[i].width)
    decreases i
  {
    hide Begins, Pow10, Print, Scan, Widths;
    HeadField(fs, s);
    if i > 0 {
      assert fs[0].Fits();
      FirstMisfit(fs[1..], s[fs[0].width..], i - 1);
    }
  }

  // ------------------------------------------------------------------ the header

  /** Every real field within its declared width; the datatype always is. */
  predicate WithinWidths(h: Header) {
    && 0 <= h.count <= 999_999 && 0 <= h.countBytes <= 9_999_999
    && 0 <= h.dest <= 99_999 && -9_999 <= h.tag <= 99_999 && 0 <= h.sender <= 99_999
  }

  lemma Powers()
    ensures Pow10(4) == 10_000 && Pow10(5) == 100_000 && Pow10(6) == 1_000_000 && Pow10(7) == 10_000_000
    ensures Pow10(10) == 10_000_000_000
  {
    assert Pow10(7) == 10_000_000;
    assert Pow10(8) == 100_000_000;
    assert Pow10(9) == 1_000_000_000;
  }

  lemma FieldShapes(h: Header)
    requires h.Ok()
    ensures var fs := Fields(h);
            && (forall i :: 0 <= i < 7 ==> fs[i].Ok())
            && Widths(fs) == FieldWidths && Total(fs) == MetadataNumChars
            && (WithinWidths(h) <==> forall i :: 0 <= i < 6 ==> fs[i].Fits())
            && fs[2].Fits() && !fs[6].Fits()
  {
    var fs := Fields(h);
    Powers();
    TotalOf(fs);
    assert fs[2].Fits();
    if forall i :: 0 <= i < 6 ==> fs[i].Fits() {
      assert fs[0].Fits() && fs[1].Fits() && fs[3].Fits() && fs[4].Fits() && fs[5].Fits();
    }
  }

  lemma TotalOf(fs: seq<Field>)
    requires |fs| == 7
    ensures Total(fs) == fs[0].width + fs[1].width + fs[2].width + fs[3].width + fs[4].width + fs[5].width + fs[6].width
  {
    var a, b, c, d, e, f := fs[1..], fs[2..], fs[3..], fs[4..], fs[5..], fs[6..];
    assert a[1..] == b && b[1..] == c && c[1..] == d && d[1..] == e && e[1..] == f && f[1..] == [];
    assert Total(f) == fs[6].width;
    assert Total(d) == fs[4].width + fs[5].width + fs[6].width;
    assert Total(b) == fs[2].width + fs[3].width + Total(d);
  }

  lemma AsIntSame(v: int)
    requires IsInt(v)
    ensures AsInt(v) == v
  {
  }

  /** The six real fields survive exactly when each is within its declared width. */
  lemma RoundTripIff(h: Header)
    requires h.Ok()
    ensures var r := ScanFields(Serialize(h), FieldWidths);
            (r.Some? && Stored(r.value) == h) <==> WithinWidths(h)
  {
    hide Serialize, ScanFields, Widths, AsInt, Unsigned, Pow10;
    var s, fs := Serialize(h), Fields(h);
    SerializedBegins(h);
    FieldShapes(h);
    Ints(h);
    if WithinWidths(h) {
      AllFit(fs, s);
    } else {
      var i := FirstOut(h);
      FirstMisfit(fs, s, i);
      var r := ScanFields(s, FieldWidths);
      if r.Some? { Powers(); SmallIsInt(fs[i].width, r.value[i]); }
    }
  }

  lemma SerializedBegins(h: Header)
    requires h.Ok()
    ensures forall i :: 0 <= i < 7 ==> Fields(h)[i].Ok()
    ensures Begins(Serialize(h), Print(Fields(h)), MetadataNumChars)
  {
    hide Print;
    TotalOf(Fields(h));
    PrintLength(Fields(h), MetadataNumChars);
  }

  lemma Ints(h: Header)
    requires h.Ok()
    ensures AsInt(h.count) == h.count && AsInt(h.countBytes) == h.countBytes && Unsigned(h.dt) == h.dt
    ensures AsInt(h.dest) == h.dest && AsInt(h.tag) == h.tag && AsInt(h.sender) == h.sender
  {
  }

  lemma SmallIsInt(w: nat, v: int)
    requires (w == 5 || w == 6 || w == 7) && 0 - Pow10(w) < v < Pow10(w)
    ensures AsInt(v) == v
  {
    Powers();
  }

  lemma FirstOut(h: Header) returns (i: nat)
    requires h.Ok() && !WithinWidths(h)
    ensures i < 6 && i != 2 && !Fields(h)[i].Fits() && forall k :: 0 <= k < i ==> Fields(h)[k].Fits()
  {
    FieldShapes(h);
    var fs := Fields(h);
    i := 0;
    while i < 6 && fs[i].Fits()
      invariant i <= 6 && forall k :: 0 <= k < i ==> fs[k].Fits()
    {
      i := i + 1;
    }
  }

  /** The seventh field, -1000 printed unsigned, is cut to five digits. */
  lemma LastFieldCut(s: string)
    requires Begins(s, PrintU(5, -1000), 5)
    ensures Scan(s, 5).Some? && Scan(s, 5).value.0 == 42949
  {
    assert Unsigned(-1000) == 4294966296;
    assert Digits(4294966296)[..5] == Digits(42949) by { LeadingDigits(); }
    assert s[..5] == Digits(42949);
    ScanDigits(s, 5);
  }

  lemma LeadingDigits()
    ensures Digits(4294966296)[..5] == Digits(42949) && |Digits(42949)| == 5
  {
    hide Digits;
    Front(4294966296, 429496629);
    Front(429496629, 42949662);
    Front(42949662, 4294966);
    Front(4294966, 429496);
    Front(429496, 42949);
    Front(42949, 4294);
    Front(4294, 429);
    Front(429, 42);
    Front(42, 4);
    OneDigit(4);
  }

  lemma Front(v: nat, front: nat)
    requires v >= 10 && front == v / 10
    ensures |Digits(v)| == |Digits(front)| + 1 && Digits(v)[..|Digits(front)|] == Digits(front)
  {
  }

  lemma OneDigit(v: nat)
    requires v < 10
    ensures |Digits(v)| == 1
  {
  }

  lemma {:induction false} LastCut(fs: seq<Field>, s: string)
    requires fs != [] && (forall i :: 0 <= i < |fs| ==> fs[i].Ok()) && fs[|fs| - 1] == Field(5, -1000, false)
    requires Begins(s, Print(fs), Total(fs))
    requires forall i :: 0 <= i < |fs| - 1 ==> fs[i].Fits()
    ensures var r := ScanFields(s, Widths(fs)); r.Some? && r.value[|fs| - 1] == 42949
  {
    hide Begins, Pow10, Print, Scan, Widths;
    HeadField(fs, s);
    if |fs| > 1 {
      assert fs[0].Fits();
      LastCut(fs[1..], s[fs[0].width..]);
    } else {
      LastFieldCut(s);
    }
  }

  /** Parsing a serialized header within the widths: its six fields, or the check on the counts. */
  lemma ParseSerialized(h: Header)
    requires h.Ok() && WithinWidths(h)
    ensures Parse(Serialize(h)) ==
            if h.count == 0 then DivisionByZero
            else if h.countBytes % h.count != 0 then CheckFailed
            else Parsed(h, 42949)
  {
    hide Serialize, ScanFields, Stored;
    RoundTripIff(h);
    SerializedBegins(h);
    FieldShapes(h);
    LastCut(Fields(h), Serialize(h));
    AsIntSame(42949);
  }
}
