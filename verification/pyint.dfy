/** The two Python primitives the publish route uses to correlate entries
    with messages: `str(i)` on a natural number, `int(s)` on a string, and
    indexing a list with a possibly negative index.

    `int(s)` is modelled on ASCII input: surrounding whitespace is stripped,
    an optional sign is accepted, and the digits may be separated by single
    underscores. */
module PyInt {
  import opened Wrappers

  predicate IsDigit(c: char) {
    '0' <= c <= '9'
  }

  /** The ASCII whitespace `int()` strips: tab, line feed, vertical tab,
      form feed, carriage return and space. The separators 28-31, which
      `str.isspace` also accepts, are not stripped from ASCII text. */
  predicate IsSpace(c: char) {
    9 <= c as int <= 13 || c == ' '
  }

  function DigitChar(d: nat): (c: char)
    requires d < 10
    ensures IsDigit(c)
    ensures c as int - '0' as int == d
  {
    ('0' as int + d) as char
  }

  /** `str(n)` for a natural number: shortest decimal form. */
  function ShowNat(n: nat): (r: string)
    ensures 0 < |r|
    ensures forall i :: 0 <= i < |r| ==> IsDigit(r[i])
    ensures |r| > 1 ==> r[0] != '0'
    decreases n
  {
    if n < 10 then [DigitChar(n)] else ShowNat(n / 10) + [DigitChar(n % 10)]
  }

  function StripLeading(s: string): string
    decreases |s|
  {
    if |s| > 0 && IsSpace(s[0]) then StripLeading(s[1..]) else s
  }

  function StripTrailing(s: string): string
    decreases |s|
  {
    if |s| > 0 && IsSpace(s[|s| - 1]) then StripTrailing(s[..|s| - 1]) else s
  }

  /** The digit part Python's `int` accepts: digits, possibly with single
      underscores between two digits. */
  predicate WellFormedDigits(t: string) {
    && 0 < |t|
    && IsDigit(t[0])
    && IsDigit(t[|t| - 1])
    && (forall i :: 0 <= i < |t| ==> IsDigit(t[i]) || t[i] == '_')
    && (forall i :: 0 <= i < |t| - 1 ==> IsDigit(t[i]) || IsDigit(t[i + 1]))
  }

  /** Decimal value of the digits of `t`, underscores ignored. */
  function DigitsValue(t: string): nat
    requires forall i :: 0 <= i < |t| ==> IsDigit(t[i]) || t[i] == '_'
  {
    if |t| == 0 then 0
    else
      var last := t[|t| - 1];
      assert IsDigit(last) || last == '_';
      if last == '_' then DigitsValue(t[..|t| - 1])
      else DigitsValue(t[..|t| - 1]) * 10 + (last as int - '0' as int)
  }

  /** `int(s)`: `None` where Python raises `ValueError`. */
  function ParseInt(s: string): Option<int>
  {
    var t := StripTrailing(StripLeading(s));
    if |t| > 0 && (t[0] == '+' || t[0] == '-') then
      var u := t[1..];
      if WellFormedDigits(u) then
        var magnitude: int := DigitsValue(u);
        Some(if t[0] == '-' then -magnitude else magnitude)
      else None
    else if WellFormedDigits(t) then Some(DigitsValue(t))
    else None
  }

  lemma {:induction false} DigitsValueShowNat(n: nat)
    ensures DigitsValue(ShowNat(n)) == n
    decreases n
  {
    var r := ShowNat(n);
    if n >= 10 {
      DigitsValueShowNat(n / 10);
      assert r[..|r| - 1] == ShowNat(n / 10);
      assert r[|r| - 1] == DigitChar(n % 10);
    } else {
      assert r[..|r| - 1] == [];
    }
  }

  /** `int(str(n)) == n`: the correlation Id of an entry parses back to its
      position. */
  lemma ParseShowNat(n: nat)
    ensures ParseInt(ShowNat(n)) == Some(n)
  {
    var r := ShowNat(n);
    assert StripLeading(r) == r by {
      assert !IsSpace(r[0]);
    }
    assert StripTrailing(r) == r by {
      assert !IsSpace(r[|r| - 1]);
    }
    assert WellFormedDigits(r);
    DigitsValueShowNat(n);
  }

  /** `int` strips surrounding ASCII whitespace, but an information
      separator is a character of the number and makes it raise. */
  lemma ParseIntWhitespace()
    ensures ParseInt(" \t7\n") == Some(7)
    ensures ParseInt("-1_0") == Some(-10)
    ensures ParseInt("\U{1C}0") == None
    ensures ParseInt("1__0") == None
  {
    assert StripLeading(" \t7\n") == "7\n" by {
      assert " \t7\n"[1..] == "\t7\n";
      assert "\t7\n"[1..] == "7\n";
    }
    assert StripTrailing("7\n") == "7" by {
      assert "7\n"[..1] == "7";
    }
    assert DigitsValue("7") == 7 by {
      assert "7"[..0] == "";
    }
    assert DigitsValue("1_0") == 10 by {
      assert "1_0"[..2] == "1_";
      assert "1_"[..1] == "1";
      assert "1"[..0] == "";
    }
    assert "-1_0"[1..] == "1_0";
    assert !WellFormedDigits("1__0") by {
      assert !(IsDigit("1__0"[1]) || IsDigit("1__0"[2]));
    }
  }

  predicate AllSpace(w: string) {
    forall i :: 0 <= i < |w| ==> IsSpace(w[i])
  }

  /** Leading whitespace is stripped whatever follows it. */
  lemma {:induction false} StripLeadingSpace(w: string, s: string)
    requires AllSpace(w)
    ensures StripLeading(w + s) == StripLeading(s)
  {
    if |w| > 0 {
      assert (w + s)[0] == w[0];
      assert (w + s)[1..] == w[1..] + s;
      StripLeadingSpace(w[1..], s);
    } else {
      assert w + s == s;
    }
  }

  /** Trailing whitespace is stripped whatever precedes it. */
  lemma {:induction false} StripTrailingSpace(s: string, w: string)
    requires AllSpace(w)
    ensures StripTrailing(s + w) == StripTrailing(s)
  {
    if |w| > 0 {
      var last := |s + w| - 1;
      assert (s + w)[last] == w[|w| - 1];
      assert (s + w)[..last] == s + w[..|w| - 1];
      StripTrailingSpace(s, w[..|w| - 1]);
    } else {
      assert s + w == s;
    }
  }

  /** Stripping the front of `s + w` reaches into `w` only when `s` is all
      whitespace. */
  lemma {:induction false} StripLeadingAppend(s: string, w: string)
    ensures StripLeading(s + w) == if StripLeading(s) == [] then StripLeading(w) else StripLeading(s) + w
  {
    if |s| == 0 {
      assert s + w == w;
    } else {
      assert (s + w)[0] == s[0];
      assert (s + w)[1..] == s[1..] + w;
      if IsSpace(s[0]) {
        StripLeadingAppend(s[1..], w);
      }
    }
  }

  /** `int(w1 + s + w2) == int(s)` for whitespace `w1` and `w2`: surrounding
      whitespace never changes the outcome, success or `ValueError`. */
  lemma ParseIntIgnoresSurroundingSpace(w1: string, s: string, w2: string)
    requires AllSpace(w1) && AllSpace(w2)
    ensures ParseInt(w1 + s + w2) == ParseInt(s)
  {
    assert w1 + s + w2 == w1 + (s + w2);
    StripLeadingSpace(w1, s + w2);
    StripLeadingAppend(s, w2);
    if StripLeading(s) == [] {
      StripLeadingSpace(w2, []);
      assert w2 + [] == w2;
    } else {
      StripTrailingSpace(StripLeading(s), w2);
    }
  }

  /** `s[k]` on a Python list: negative `k` counts from the end, and an
      index outside `-|s| .. |s|-1` raises `IndexError`. */
  function PyIndex<T>(s: seq<T>, k: int): (r: PyResult<T>)
    ensures r.Ok? <==> -|s| <= k < |s|
    ensures r.Ok? ==> r.value == (if k >= 0 then s[k] else s[|s| + k])
    ensures r.Ok? ==> r.value in s
  {
    if 0 <= k < |s| then Ok(s[k])
    else if -|s| <= k < 0 then Ok(s[|s| + k])
    else Raise
  }
}
