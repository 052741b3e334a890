/**
 The printed object key `{user}/{file}/{version}/{segment}/{chunk}` and its
 injectivity: two chunk rows share a key text only if all five parts agree.
 */
module ObjectKeys {
  import opened Core
  import opened Schema

  // ------------------------------------------------------------- printing

  function HexDigit(d: nat): char
    requires d < 16
  {
    "0123456789abcdef"[d]
  }

  /** The low `width` hexadecimal digits of `n`. */
  function Hex(n: nat, width: nat): string
    ensures |Hex(n, width)| == width
    ensures forall i :: 0 <= i < width ==> Hex(n, width)[i] in "0123456789abcdef"
  {
    if width == 0 then "" else Hex(n / 16, width - 1) + [HexDigit(n % 16)]
  }

  /** The hyphenated 8-4-4-4-12 form of a UUID. */
  function UuidText(id: Uuid): (s: string)
    ensures |s| == 36 && '/' !in s
  {
    var h := Hex(id, 32);
    h[..8] + "-" + h[8..12] + "-" + h[12..16] + "-" + h[16..20] + "-" + h[20..]
  }

  function Decimal(n: nat): (s: string)
    ensures |s| > 0 && forall i :: 0 <= i < |s| ==> s[i] in "0123456789"
  {
    if n < 10 then ["0123456789"[n]] else Decimal(n / 10) + ["0123456789"[n % 10]]
  }

  /** `chunk_key`. */
  function KeyText(k: Key): string {
    UuidText(k.user) + "/" + UuidText(k.file) + "/" + UuidText(k.version) + "/" + Decimal(k.segment) + "/" + Decimal(k.index)
  }

  // ---------------------------------------------------------- injectivity

  function Pow16(w: nat): nat {
    if w == 0 then 1 else 16 * Pow16(w - 1)
  }

  lemma UuidFits(id: Uuid)
    ensures id < Pow16(32)
  {
    assert Pow16(8) == 0x1_0000_0000;
    assert Pow16(16) == 0x1_0000_0000_0000_0000;
    assert Pow16(24) == 0x1_0000_0000_0000_0000_0000_0000;
    assert Pow16(32) == 0x1_0000_0000_0000_0000_0000_0000_0000_0000;
  }

  lemma UuidTextInjective(a: Uuid, b: Uuid)
    requires UuidText(a) == UuidText(b)
    ensures a == b
  {
    hide UuidText, ValueOf;
    UuidReadsBack(a);
    UuidReadsBack(b);
  }

  lemma DecimalInjective(m: nat, n: nat)
    requires Decimal(m) == Decimal(n)
    ensures m == n
  {
    hide Decimal, ValueOf;
    DecimalReadsBack(m);
    DecimalReadsBack(n);
  }

  /** A separator that cannot occur in the first part splits the text in one way only. */
  lemma SplitOnce(a: string, b: string, x: string, y: string)
    requires '/' !in a && '/' !in x
    requires a + "/" + b == x + "/" + y
    ensures a == x && b == y
  {
    var s := a + "/" + b;
    assert s[|a|] == '/' && s[|x|] == '/';
    assert forall i :: 0 <= i < |a| ==> s[i] == a[i];
    assert forall i :: 0 <= i < |x| ==> s[i] == x[i];
    assert |a| == |x|;
    assert s[..|a|] == a && s[..|x|] == x;
    assert s[|a| + 1..] == b && s[|x| + 1..] == y;
  }

  lemma KeyTextNested(k: Key)
    ensures KeyText(k) == UuidText(k.user) + "/" + (UuidText(k.file) + "/" + (UuidText(k.version) + "/" + (Decimal(k.segment) + "/" + Decimal(k.index))))
  {
  }

  lemma DecimalHasNoSlash(n: nat)
    ensures '/' !in Decimal(n)
  {
  }

  /** Equal key texts come from equal keys. */
  lemma KeyTextInjective(j: Key, k: Key)
    requires KeyText(j) == KeyText(k)
    ensures j == k
  {
    KeyTextNested(j);
    KeyTextNested(k);
    DecimalHasNoSlash(j.segment);
    DecimalHasNoSlash(k.segment);
    hide *;
    var j4, k4 := Decimal(j.segment) + "/" + Decimal(j.index), Decimal(k.segment) + "/" + Decimal(k.index);
    var j3, k3 := UuidText(j.version) + "/" + j4, UuidText(k.version) + "/" + k4;
    var j2, k2 := UuidText(j.file) + "/" + j3, UuidText(k.file) + "/" + k3;
    SplitOnce(UuidText(j.user), j2, UuidText(k.user), k2);
    SplitOnce(UuidText(j.file), j3, UuidText(k.file), k3);
    SplitOnce(UuidText(j.version), j4, UuidText(k.version), k4);
    SplitOnce(Decimal(j.segment), Decimal(j.index), Decimal(k.segment), Decimal(k.index));
    UuidTextInjective(j.user, k.user);
    UuidTextInjective(j.file, k.file);
    UuidTextInjective(j.version, k.version);
    DecimalInjective(j.segment, k.segment);
    DecimalInjective(j.index, k.index);
  }

  // -------------------------------------------------------- reading it back

  function DigitValue(c: char): nat {
    if '0' <= c <= '9' then (c as int) - ('0' as int)
    else if 'a' <= c <= 'f' then (c as int) - ('a' as int) + 10 else 0
  }

  /** The number a string of digits stands for, hyphens skipped. */
  function ValueOf(s: string, base: nat): nat {
    if s == "" then 0
    else if s[|s| - 1] == '-' then ValueOf(s[..|s| - 1], base)
    else base * ValueOf(s[..|s| - 1], base) + DigitValue(s[|s| - 1])
  }

  lemma {:induction false} HexReadsBack(n: nat, width: nat)
    requires n < Pow16(width)
    ensures ValueOf(Hex(n, width), 16) == n
    decreases width
  {
    hide Hex, Pow16, ValueOf;
    HexBounds(n, width);
    if width > 0 {
      HexReadsBack(n / 16, width - 1);
      LastDigit(n, width);
      ValueLast(Hex(n, width), 16);
    }
  }

  lemma HexBounds(n: nat, width: nat)
    requires n < Pow16(width)
    ensures width == 0 ==> n == 0 && ValueOf(Hex(n, width), 16) == 0
    ensures width > 0 ==> n / 16 < Pow16(width - 1)
  {
  }

  lemma ValueLast(s: string, base: nat)
    requires s != "" && s[|s| - 1] != '-'
    ensures ValueOf(s, base) == base * ValueOf(s[..|s| - 1], base) + DigitValue(s[|s| - 1])
  {
  }

  lemma LastDigit(n: nat, width: nat)
    requires width > 0
    ensures Hex(n, width)[..width - 1] == Hex(n / 16, width - 1) && DigitValue(Hex(n, width)[width - 1]) == n % 16
    ensures Hex(n, width)[width - 1] != '-'
  {
    hide Hex;
    HexUnfold(n, width);
  }

  lemma HexUnfold(n: nat, width: nat)
    requires width > 0
    ensures Hex(n, width) == Hex(n / 16, width - 1) + [HexDigit(n % 16)]
  {
  }

  lemma {:induction false} DecimalReadsBack(n: nat)
    ensures ValueOf(Decimal(n), 10) == n
    decreases n
  {
    hide ValueOf, Decimal, DigitValue;
    DecimalUnfold(n);
    var front := if n < 10 then "" else Decimal(n / 10);
    var last := "0123456789"[n % 10];
    DigitReadsBack(n % 10);
    ValueAppend(front, last, 10);
    if n < 10 {
      ValueEmpty(10);
    } else {
      DecimalReadsBack(n / 10);
    }
  }

  lemma DecimalUnfold(n: nat)
    ensures Decimal(n) == (if n < 10 then "" else Decimal(n / 10)) + ["0123456789"[n % 10]]
  {
  }

  lemma DigitReadsBack(d: nat)
    requires d < 10
    ensures "0123456789"[d] != '-' && DigitValue("0123456789"[d]) == d
  {
  }

  lemma ValueEmpty(base: nat)
    ensures ValueOf("", base) == 0
  {
  }

  lemma ValueAppend(s: string, c: char, base: nat)
    requires c != '-'
    ensures ValueOf(s + [c], base) == base * ValueOf(s, base) + DigitValue(c)
  {
    assert (s + [c])[..|s|] == s;
  }

  lemma {:induction false} HyphenSkipped(s: string, t: string, base: nat)
    ensures ValueOf(s + "-" + t, base) == ValueOf(s + t, base)
    decreases |t|
  {
    var u := s + "-" + t;
    if t == "" {
      assert s + t == s && u[..|u| - 1] == s;
    } else {
      var r := t[..|t| - 1];
      assert u[..|u| - 1] == s + "-" + r && (s + t)[..|s + t| - 1] == s + r;
      HyphenSkipped(s, r, base);
    }
  }

  /** A hyphen before the last part, and the parts before it already joined. */
  lemma JoinLast(s: string, t: string, joined: string, base: nat)
    requires ValueOf(s + t, base) == ValueOf(joined + t, base)
    ensures ValueOf(s + "-" + t, base) == ValueOf(joined + t, base)
  {
    HyphenSkipped(s, t, base);
  }

  /** Leading parts may be exchanged for others of the same value. */
  lemma {:induction false} SamePrefix(s: string, s': string, t: string, base: nat)
    requires ValueOf(s, base) == ValueOf(s', base)
    ensures ValueOf(s + t, base) == ValueOf(s' + t, base)
    decreases |t|
  {
    if t == "" {
      assert s + t == s && s' + t == s';
    } else {
      var r := t[..|t| - 1];
      assert (s + t)[..|s + t| - 1] == s + r && (s' + t)[..|s' + t| - 1] == s' + r;
      SamePrefix(s, s', r, base);
    }
  }

  /** One more hyphenated part: `s` stands for `h[..m]`, and `h[m..n]` is added. */
  lemma AddPart(h: string, s: string, m: nat, n: nat)
    requires m <= n <= |h| && ValueOf(s, 16) == ValueOf(h[..m], 16)
    ensures ValueOf(s + "-" + h[m..n], 16) == ValueOf(h[..n], 16)
  {
    SamePrefix(s, h[..m], h[m..n], 16);
    JoinLast(s, h[m..n], h[..m], 16);
    assert h[..m] + h[m..n] == h[..n];
  }

  lemma Hyphenated(h: string)
    requires |h| == 32
    ensures ValueOf(h[..8] + "-" + h[8..12] + "-" + h[12..16] + "-" + h[16..20] + "-" + h[20..], 16) == ValueOf(h, 16)
  {
    hide ValueOf;
    var a := h[..8] + "-" + h[8..12];
    var b := a + "-" + h[12..16];
    var c := b + "-" + h[16..20];
    AddPart(h, h[..8], 8, 12);
    AddPart(h, a, 12, 16);
    AddPart(h, b, 16, 20);
    AddPart(h, c, 20, 32);
    assert h[20..32] == h[20..] && h[..32] == h;
  }

  lemma UuidReadsBack(id: Uuid)
    ensures ValueOf(UuidText(id), 16) == id
  {
    hide Hex, ValueOf, Pow16;
    UuidFits(id);
    HexReadsBack(id, 32);
    Hyphenated(Hex(id, 32));
  }

  lemma HyphenPlaces(id: Uuid)
    ensures UuidText(id)[8] == UuidText(id)[13] == UuidText(id)[18] == UuidText(id)[23] == '-'
  {
    hide Hex;
  }

  /** The five parts of a key can be read back from its text, in the order of the layout. */
  lemma KeyTextReadsBack(k: Key)
    ensures var t := KeyText(k);
      && |t| > 112 && t[36] == t[73] == t[110] == '/'
      && ValueOf(t[..36], 16) == k.user && ValueOf(t[37..73], 16) == k.file && ValueOf(t[74..110], 16) == k.version
      && exists i :: 111 < i < |t| - 1 && t[i] == '/' && ValueOf(t[111..i], 10) == k.segment && ValueOf(t[i + 1..], 10) == k.index
  {
    UuidReadsBack(k.user);
    UuidReadsBack(k.file);
    UuidReadsBack(k.version);
    DecimalReadsBack(k.segment);
    DecimalReadsBack(k.index);
    hide UuidText, Decimal, ValueOf;
    var t := KeyText(k);
    var u, f, v, s, n := UuidText(k.user), UuidText(k.file), UuidText(k.version), Decimal(k.segment), Decimal(k.index);
    assert t[..36] == u && t[37..73] == f && t[74..110] == v;
    var i := 111 + |s|;
    assert t[111..i] == s && t[i] == '/' && t[i + 1..] == n;
  }
}
