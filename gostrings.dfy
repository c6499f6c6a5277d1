/**
 * The part of Go's `strings`, `strconv` and `unicode` packages that the
 * client and the code generator rely on, over strings as sequences of
 * characters. Each function states the property the Go documentation
 * promises, so that callers reason from contracts rather than bodies.
 */
module GoStrings {
  import opened Wrappers

  /** `strings.IndexByte(s, c)`: the first index of c, or -1. */
  function IndexOf(s: string, c: char): (r: int)
    ensures -1 <= r < |s|
    ensures r == -1 <==> c !in s
    ensures 0 <= r ==> s[r] == c && c !in s[..r]
  {
    if |s| == 0 then -1
    else if s[0] == c then 0
    else
      var k := IndexOf(s[1..], c);
      assert s[1..][..k + 1] == s[1..k + 2];
      if k == -1 then -1 else k + 1
  }

  /** The three results of `strings.Cut`. */
  datatype CutResult = CutResult(before: string, after: string, found: bool)

  /** `strings.Cut(s, sep)` for a one-character separator. */
  function Cut(s: string, sep: char): (r: CutResult)
    ensures r.found <==> sep in s
    ensures r.found ==> s == r.before + [sep] + r.after && sep !in r.before
    ensures !r.found ==> r.before == s && r.after == ""
  {
    var i := IndexOf(s, sep);
    if i == -1 then CutResult(s, "", false)
    else
      assert s == s[..i] + [sep] + s[i + 1..];
      CutResult(s[..i], s[i + 1..], true)
  }

  /** A string split at a separator that does not occur before it is cut back into the same two halves. */
  lemma CutOfSplit(before: string, sep: char, after: string)
    requires sep !in before
    ensures Cut(before + [sep] + after, sep) == CutResult(before, after, true)
  {
    var s := before + [sep] + after;
    assert s[|before|] == sep;
    assert s[..|before|] == before;
  }

  /** The part before the first separator is s exactly when s followed by the separator starts the string and s holds no separator. */
  lemma CutBefore(text: string, sep: char, s: string)
    ensures (Cut(text, sep).found && Cut(text, sep).before == s) <==> (s + [sep] <= text && sep !in s)
  {
    if s + [sep] <= text && sep !in s {
      var after := text[|s| + 1..];
      assert text == s + [sep] + after;
      CutOfSplit(s, sep, after);
    }
    if Cut(text, sep).found && Cut(text, sep).before == s {
      var c := Cut(text, sep);
      assert text == s + [sep] + c.after;
      assert (s + [sep] + c.after)[..|s| + 1] == s + [sep];
    }
  }

  /** `strings.HasSuffix`. (`strings.HasPrefix(s, p)` is Dafny's `p <= s`.) */
  predicate HasSuffix(s: string, suffix: string) {
    |suffix| <= |s| && s[|s| - |suffix|..] == suffix
  }

  /** `strings.TrimPrefix`: drops p once when s starts with it. */
  function TrimPrefix(s: string, p: string): (r: string)
    ensures p <= s ==> s == p + r
    ensures !(p <= s) ==> r == s
  {
    if p <= s then s[|p|..] else s
  }

  /** `strings.Contains`: sub occurs somewhere in s. */
  predicate Contains(s: string, sub: string)
    decreases |s|
  {
    sub <= s || (|s| > 0 && Contains(s[1..], sub))
  }

  /** `strings.Contains` holds exactly when sub starts at some index of s. */
  lemma {:induction false} ContainsAt(s: string, sub: string)
    ensures Contains(s, sub) <==> exists i :: 0 <= i <= |s| && sub <= s[i..]
    decreases |s|
  {
    if sub <= s {
      assert s[0..] == s;
    } else if |s| > 0 {
      ContainsAt(s[1..], sub);
      if Contains(s[1..], sub) {
        var i :| 0 <= i <= |s| - 1 && sub <= s[1..][i..];
        assert s[1..][i..] == s[i + 1..];
      }
      if exists i :: 0 <= i <= |s| && sub <= s[i..] {
        var i :| 0 <= i <= |s| && sub <= s[i..];
        assert i != 0;
        assert s[1..][i - 1..] == s[i..];
      }
    }
  }

  /** sub occurs in s at index i. */
  predicate StartsAt(s: string, sub: string, i: nat)
    requires i <= |s|
  {
    sub <= s[i..]
  }

  /** No occurrence of sep in `x + sep` starts inside x, given the conditions of `CutBeforeSuffix`. */
  lemma NoEarlyStart(x: string, sep: string)
    requires sep != "" && !Contains(x, sep)
    requires forall j :: 1 <= j < |sep| ==> sep[j] != sep[0]
    ensures forall i :: 0 <= i < |x| ==> !StartsAt(x + sep, sep, i)
  {
    var name := x + sep;
    ContainsAt(x, sep);
    forall i | 0 <= i < |x|
      ensures !StartsAt(name, sep, i)
    {
      if i + |sep| <= |x| {
        assert name[i..i + |sep|] == x[i..i + |sep|];
        assert !(sep <= x[i..]);
      } else {
        assert name[|x|] == sep[0];
        assert name[i..][|x| - i] == name[|x|];
      }
    }
  }

  /**
   * Cutting `x + sep` at sep gives x back when sep does not occur in x and
   * its first character occurs nowhere else in it (as for `_id`), so that
   * no occurrence can straddle the end of x.
   */
  lemma CutBeforeSuffix(x: string, sep: string)
    requires sep != "" && !Contains(x, sep)
    requires forall j :: 1 <= j < |sep| ==> sep[j] != sep[0]
    ensures CutString(x + sep, sep) == CutResult(x, "", true)
  {
    var name := x + sep;
    assert StartsAt(name, sep, |x|) by {
      assert name[|x|..] == sep;
    }
    NoEarlyStart(x, sep);
    var c := CutString(name, sep);
    var k := |c.before|;
    assert name == c.before + sep + c.after;
    assert StartsAt(name, sep, k) by {
      assert name[k..] == sep + c.after;
    }
    assert k == |x|;
    assert c.before == name[..k] == x;
    assert |c.after| == 0;
  }

  /** `strings.Index(s, sub)` scanning from index k: the first index from k on at which sub starts, or -1. */
  function IndexFrom(s: string, sub: string, k: nat): (r: int)
    requires k <= |s|
    ensures r == -1 || k <= r <= |s|
    ensures r == -1 <==> forall i :: k <= i <= |s| ==> !StartsAt(s, sub, i)
    ensures 0 <= r ==> StartsAt(s, sub, r) && forall i :: k <= i < r ==> !StartsAt(s, sub, i)
    decreases |s| - k
  {
    if StartsAt(s, sub, k) then k
    else if k == |s| then -1
    else IndexFrom(s, sub, k + 1)
  }

  /** `strings.Index(s, sub)`: the first index at which sub starts, or -1. */
  function IndexOfSub(s: string, sub: string): (r: int)
    ensures -1 <= r <= |s|
    ensures r == -1 <==> forall i :: 0 <= i <= |s| ==> !StartsAt(s, sub, i)
    ensures 0 <= r ==> StartsAt(s, sub, r) && forall i :: 0 <= i < r ==> !StartsAt(s, sub, i)
  {
    IndexFrom(s, sub, 0)
  }

  /** `strings.Cut(s, sep)` for a separator string. */
  function CutString(s: string, sep: string): (r: CutResult)
    ensures r.found <==> exists i :: 0 <= i <= |s| && StartsAt(s, sep, i)
    ensures r.found ==> s == r.before + sep + r.after && forall i :: 0 <= i < |r.before| ==> !StartsAt(s, sep, i)
    ensures !r.found ==> r.before == s && r.after == ""
  {
    var i := IndexOfSub(s, sep);
    if i == -1 then CutResult(s, "", false)
    else
      assert StartsAt(s, sep, i) && sep <= s[i..];
      var j := i + |sep|;
      assert j <= |s|;
      assert s[i..] == sep + s[j..];
      assert s == s[..i] + sep + s[j..];
      CutResult(s[..i], s[j..], true)
  }

  /** `unicode.IsSpace`, the separator class of `strings.Fields`. */
  predicate IsSpace(c: char) {
    c == '\t' || c == '\n' || c == '\U{000B}' || c == '\U{000C}' || c == '\r' || c == ' '
    || c == '\U{0085}' || c == '\U{00A0}' || c == '\U{1680}'
    || ('\U{2000}' <= c <= '\U{200A}')
    || c == '\U{2028}' || c == '\U{2029}' || c == '\U{202F}' || c == '\U{205F}' || c == '\U{3000}'
  }

  predicate NoSpace(s: string) {
    forall i :: 0 <= i < |s| ==> !IsSpace(s[i])
  }

  predicate AllSpace(s: string) {
    forall i :: 0 <= i < |s| ==> IsSpace(s[i])
  }

  /** The longest prefix of s that holds no space. */
  function Word(s: string): (w: string)
    ensures |w| <= |s|
    ensures |s| > 0 && !IsSpace(s[0]) ==> |w| > 0
  {
    if |s| == 0 || IsSpace(s[0]) then "" else [s[0]] + Word(s[1..])
  }

  /** The word is a space-free prefix that ends at a space or at the end. */
  lemma {:induction false} WordShape(s: string)
    ensures Word(s) <= s && NoSpace(Word(s))
    ensures |Word(s)| < |s| ==> IsSpace(s[|Word(s)|])
  {
    if |s| > 0 && !IsSpace(s[0]) {
      WordShape(s[1..]);
      assert Word(s) == [s[0]] + Word(s[1..]);
    }
  }

  /** A space-free word followed by nothing or by a space is read back whole. */
  lemma {:induction false} WordOf(w: string, t: string)
    requires NoSpace(w)
    requires t == "" || IsSpace(t[0])
    ensures Word(w + t) == w
  {
    if w != "" {
      assert (w + t)[1..] == w[1..] + t;
      WordOf(w[1..], t);
    }
  }

  /** `strings.Fields`: the maximal runs of non-space characters, in order. */
  function Fields(s: string): (r: seq<string>)
    decreases |s|
  {
    if |s| == 0 then []
    else if IsSpace(s[0]) then
      Fields(s[1..])
    else
      var w := Word(s);
      [w] + Fields(s[|w|..])
  }

  /** `strings.Fields` gives no field exactly for an all-space string. */
  lemma {:induction false} FieldsEmpty(s: string)
    ensures Fields(s) == [] <==> AllSpace(s)
    decreases |s|
  {
    if |s| > 0 && IsSpace(s[0]) {
      FieldsEmpty(s[1..]);
      assert forall i :: 1 <= i < |s| ==> s[1..][i - 1] == s[i];
    }
  }

  /** Every field is a non-empty, space-free word. */
  lemma {:induction false} FieldsWords(s: string)
    ensures forall i :: 0 <= i < |Fields(s)| ==> Fields(s)[i] != "" && NoSpace(Fields(s)[i])
    decreases |s|
  {
    if |s| > 0 {
      if IsSpace(s[0]) {
        FieldsWords(s[1..]);
      } else {
        WordShape(s);
        FieldsWords(s[|Word(s)|..]);
      }
    }
  }

  /** The first word of a + t, when t is empty or starts with a space, is the first word of a. */
  lemma {:induction false} WordAppend(a: string, t: string)
    requires t == "" || IsSpace(t[0])
    ensures Word(a + t) == Word(a)
  {
    if a == "" {
      assert a + t == t;
    } else if !IsSpace(a[0]) {
      assert (a + t)[1..] == a[1..] + t;
      WordAppend(a[1..], t);
    }
  }

  /** A leading space adds no field. */
  lemma FieldsSpaceCons(x: string)
    ensures Fields(" " + x) == Fields(x)
  {
    assert (" " + x)[1..] == x;
  }

  /** A leading space of a + t is dropped on both sides. */
  lemma FieldsAppendSpace(a: string, t: string)
    requires a != "" && IsSpace(a[0])
    ensures Fields(a + t) == Fields(a[1..] + t)
  {
    assert (a + t)[0] == a[0];
    assert (a + t)[1..] == a[1..] + t;
  }

  /** A string starting with a word has that word as its first field. */
  lemma FieldsWordHead(x: string)
    requires x != "" && !IsSpace(x[0])
    ensures Fields(x) == [Word(x)] + Fields(x[|Word(x)|..])
  {
  }

  /** A leading word of a is the leading field of a + t. */
  lemma FieldsAppendWord(a: string, t: string)
    requires a != "" && !IsSpace(a[0])
    requires t == "" || IsSpace(t[0])
    ensures Fields(a + t) == [Word(a)] + Fields(a[|Word(a)|..] + t)
  {
    var x := a + t;
    assert x[0] == a[0];
    FieldsWordHead(x);
    WordAppend(a, t);
    var w := Word(a);
    assert x[|w|..] == a[|w|..] + t;
  }

  /** A space boundary splits the fields: `Fields(a + t)` is `Fields(a)` followed by `Fields(t)`. */
  lemma {:induction false} FieldsAppend(a: string, t: string)
    requires t == "" || IsSpace(t[0])
    ensures Fields(a + t) == Fields(a) + Fields(t)
    decreases |a|
  {
    if a == "" {
      assert a + t == t;
    } else if IsSpace(a[0]) {
      FieldsAppendSpace(a, t);
      FieldsAppend(a[1..], t);
    } else {
      FieldsAppendWord(a, t);
      FieldsAppend(a[|Word(a)|..], t);
    }
  }

  /** `strings.Join`. */
  function Join(ws: seq<string>, sep: string): string {
    if |ws| == 0 then "" else if |ws| == 1 then ws[0] else ws[0] + sep + Join(ws[1..], sep)
  }

  /** A word followed by a space is the first field; the rest is split on its own. */
  lemma FieldsOfCons(w: string, rest: string)
    requires w != "" && NoSpace(w)
    ensures Fields(w + " " + rest) == [w] + Fields(rest)
  {
    var s := w + " " + rest;
    assert s == w + (" " + rest);
    WordOf(w, " " + rest);
    assert s[|w|..] == " " + rest;
    assert (" " + rest)[1..] == rest;
  }

  /** Splitting words joined by single spaces gives the words back: `Fields` inverts `Join(_, " ")`. */
  lemma {:induction false} FieldsOfJoin(ws: seq<string>)
    requires forall i :: 0 <= i < |ws| ==> ws[i] != "" && NoSpace(ws[i])
    ensures Fields(Join(ws, " ")) == ws
  {
    if |ws| == 1 {
      WordOf(ws[0], "");
      assert ws[0] == ws[0] + "";
      assert ws[0][|ws[0]|..] == "";
    } else if |ws| > 1 {
      FieldsOfCons(ws[0], Join(ws[1..], " "));
      FieldsOfJoin(ws[1..]);
      assert [ws[0]] + ws[1..] == ws;
    }
  }

  /** `strings.Repeat`. */
  function Repeat(s: string, n: nat): (r: string)
    ensures |r| == n * |s|
  {
    if n == 0 then "" else s + Repeat(s, n - 1)
  }

  /** One more factor of a sum adds the other factor once. */
  lemma MulSucc(a: int, m: int)
    ensures (a + 1) * m == a * m + m
  {
  }

  /** Multiplying by a non-negative factor keeps the order. */
  lemma {:induction false} MulMono(a: nat, b: nat, m: nat)
    requires a <= b
    ensures a * m <= b * m
    decreases b - a
  {
    if a < b {
      MulMono(a, b - 1, m);
      MulSucc(b - 1, m);
    }
  }

  /** The k-th block of `strings.Repeat(s, n)` is s. */
  lemma {:induction false} RepeatCopy(s: string, n: nat, k: nat)
    requires k < n
    ensures k * |s| + |s| == (k + 1) * |s| <= |Repeat(s, n)|
    ensures Repeat(s, n)[k * |s|..(k + 1) * |s|] == s
  {
    var m := |s|;
    MulSucc(k, m);
    MulMono(k + 1, n, m);
    var rest := Repeat(s, n - 1);
    assert Repeat(s, n) == s + rest;
    if k > 0 {
      RepeatCopy(s, n - 1, k - 1);
      MulSucc(k - 1, m);
      assert (s + rest)[k * m..(k + 1) * m] == rest[(k - 1) * m..k * m];
    }
  }

  /** `strings.Repeat(s, n)` is n copies of s, one after the other. */
  lemma RepeatCopies(s: string, n: nat)
    ensures |Repeat(s, n)| == n * |s|
    ensures forall k :: 0 <= k < n ==> Repeat(s, n)[k * |s|..(k + 1) * |s|] == s
  {
    forall k | 0 <= k < n
      ensures Repeat(s, n)[k * |s|..(k + 1) * |s|] == s
    {
      RepeatCopy(s, n, k);
    }
  }

  /** `strings.TrimLeft` with a set of cut characters. */
  function TrimLeft(s: string, cutset: string): (r: string)
    ensures |r| <= |s|
  {
    if |s| > 0 && s[0] in cutset then TrimLeft(s[1..], cutset) else s
  }

  /** `strings.TrimRight` with a set of cut characters. */
  function TrimRight(s: string, cutset: string): (r: string)
    ensures |r| <= |s|
  {
    if |s| > 0 && s[|s| - 1] in cutset then TrimRight(s[..|s| - 1], cutset) else s
  }

  /** `strings.Trim`: drops the cut characters at both ends. */
  function Trim(s: string, cutset: string): string {
    TrimRight(TrimLeft(s, cutset), cutset)
  }

  /** `strings.TrimLeft` drops a prefix and stops at a character outside the cut set. */
  lemma {:induction false} TrimLeftShape(s: string, cutset: string)
    ensures var r := TrimLeft(s, cutset); r == s[|s| - |r|..] && (r != "" ==> r[0] !in cutset)
  {
    if |s| > 0 && s[0] in cutset {
      TrimLeftShape(s[1..], cutset);
      var r := TrimLeft(s, cutset);
      assert s[1..][|s| - 1 - |r|..] == s[|s| - |r|..];
    }
  }

  /** `strings.TrimRight` keeps a prefix and stops at a character outside the cut set. */
  lemma {:induction false} TrimRightShape(s: string, cutset: string)
    ensures var r := TrimRight(s, cutset); r <= s && (r != "" ==> r[|r| - 1] !in cutset)
  {
    if |s| > 0 && s[|s| - 1] in cutset {
      TrimRightShape(s[..|s| - 1], cutset);
    }
  }

  /** `strings.Trim` changes s exactly when s starts or ends with a cut character. */
  lemma TrimChanges(s: string, cutset: string)
    ensures Trim(s, cutset) != s <==> (s != "" && (s[0] in cutset || s[|s| - 1] in cutset))
  {
    var l := TrimLeft(s, cutset);
    if s != "" && s[0] in cutset {
      assert |l| < |s|;
      assert |TrimRight(l, cutset)| <= |l|;
    } else {
      assert l == s;
      if s != "" && s[|s| - 1] in cutset {
        assert |TrimRight(l, cutset)| < |l|;
      }
    }
  }

  /** ASCII upper-casing, the model of `unicode.ToTitle`. */
  function ToUpper(c: char): (r: char)
    ensures 'a' <= c <= 'z' ==> 'A' <= r <= 'Z' && r as int == c as int - 32
    ensures !('a' <= c <= 'z') ==> r == c
  {
    if 'a' <= c <= 'z' then (c as int - 32) as char else c
  }

  /** ASCII lower-casing, the model of `strings.ToLower` on one byte. */
  function ToLower(c: char): (r: char)
    ensures 'A' <= c <= 'Z' ==> 'a' <= r <= 'z' && r as int == c as int + 32
    ensures !('A' <= c <= 'Z') ==> r == c
  {
    if 'A' <= c <= 'Z' then (c as int + 32) as char else c
  }

  // ---- strconv: decimal integers ----

  const MinInt64: int := -0x8000_0000_0000_0000
  const MaxInt64: int := 0x7FFF_FFFF_FFFF_FFFF

  predicate IsInt64(n: int) {
    MinInt64 <= n <= MaxInt64
  }

  /** Go's `int64`. */
  type Int64 = n: int | IsInt64(n)

  /** Two's-complement wrap-around of an `int64` result. */
  function WrapInt64(n: int): (r: Int64)
    ensures IsInt64(n) ==> r == n
    ensures (r - n) % 0x1_0000_0000_0000_0000 == 0
  {
    (n - MinInt64) % 0x1_0000_0000_0000_0000 + MinInt64
  }

  predicate IsDigit(c: char) {
    '0' <= c <= '9'
  }

  predicate AllDigits(s: string) {
    forall i :: 0 <= i < |s| ==> IsDigit(s[i])
  }

  function DigitChar(d: nat): (c: char)
    requires d < 10
    ensures IsDigit(c) && c as int - '0' as int == d
  {
    ('0' as int + d) as char
  }

  /** The decimal digits of n, most significant first, without leading zeros. */
  function Digits(n: nat): (r: string)
    ensures r != "" && AllDigits(r)
    ensures r[0] != '0' || n == 0
  {
    if n < 10 then [DigitChar(n)] else Digits(n / 10) + [DigitChar(n % 10)]
  }

  /** The value of a string of decimal digits. */
  function DecimalValue(s: string): nat
    requires AllDigits(s)
  {
    if |s| == 0 then 0 else DecimalValue(s[..|s| - 1]) * 10 + (s[|s| - 1] as int - '0' as int)
  }

  /** `strconv.FormatInt(n, 10)`. */
  function FormatInt(n: int): (r: string)
    ensures r != ""
    ensures r[0] == '-' || IsDigit(r[0])
    ensures r[0] == '-' <==> n < 0
  {
    if n < 0 then "-" + Digits(-n) else Digits(n)
  }

  /** The digits of a decimal literal: the string without one leading sign. */
  function Unsigned(s: string): (r: string)
    ensures r == s || (s != "" && r == s[1..] && (s[0] == '+' || s[0] == '-'))
  {
    if s != "" && (s[0] == '+' || s[0] == '-') then s[1..] else s
  }

  /**
   * `strconv.ParseInt(s, 10, 64)`: an optional sign and one or more digits
   * whose value fits in 64 bits; `None` is the error.
   */
  function ParseInt(s: string): (r: Option<int>)
    ensures r.Some? ==> IsInt64(r.value)
    // rejected: no digits, or anything but a digit after the sign
    ensures Unsigned(s) == "" || !AllDigits(Unsigned(s)) ==> r.None?
    // accepted: the signed value, exactly when it fits
    ensures Unsigned(s) != "" && AllDigits(Unsigned(s)) ==>
      var v := if s[0] == '-' then -(DecimalValue(Unsigned(s)) as int) else DecimalValue(Unsigned(s)) as int;
      r == if IsInt64(v) then Some(v) else None
  {
    if s == "" then None
    else
      var body := if s[0] == '+' || s[0] == '-' then s[1..] else s;
      if body == "" || !AllDigits(body) then None
      else
        var d: int := DecimalValue(body);
        var v := if s[0] == '-' then -d else d;
        if IsInt64(v) then Some(v) else None
  }

  /** A character that is neither a digit nor a leading sign makes `strconv.ParseInt` fail. */
  lemma ParseIntRejects(s: string, i: nat)
    requires i < |s| && !IsDigit(s[i])
    requires i > 0 || (s[0] != '+' && s[0] != '-')
    ensures ParseInt(s).None?
  {
    var body := Unsigned(s);
    if s[0] == '+' || s[0] == '-' {
      assert body[i - 1] == s[i];
    } else {
      assert body[i] == s[i];
    }
  }

  lemma {:induction false} DecimalValueOfDigits(n: nat)
    ensures DecimalValue(Digits(n)) == n
  {
    var r := Digits(n);
    if n >= 10 {
      DecimalValueOfDigits(n / 10);
      assert r[..|r| - 1] == Digits(n / 10);
    }
  }

  /** `strconv.ParseInt` reads back what `strconv.FormatInt` wrote. */
  lemma ParseFormat(n: int)
    requires IsInt64(n)
    ensures ParseInt(FormatInt(n)) == Some(n)
  {
    var r := FormatInt(n);
    if n < 0 {
      var d := Digits(-n);
      assert r == "-" + d;
      assert Unsigned(r) == r[1..] == d;
      DecimalValueOfDigits(-n);
    } else {
      var d := Digits(n);
      assert r == d && IsDigit(d[0]);
      assert Unsigned(r) == d;
      DecimalValueOfDigits(n);
    }
  }
}
