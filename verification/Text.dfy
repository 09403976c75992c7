/** The string functions the program takes from its standard library: trimming,
    splitting, and printing and parsing of unsigned decimal numbers. */
module Text {

  datatype Option<+T> = None | Some(value: T)

  // ---- white space ----

  /** The code points with the Unicode property White_Space, which `str::trim` removes. */
  predicate IsSpace(c: char) {
    || '\U{0009}' <= c <= '\U{000D}' || c == ' ' || c == '\U{0085}' || c == '\U{00A0}'
    || c == '\U{1680}' || '\U{2000}' <= c <= '\U{200A}' || c == '\U{2028}' || c == '\U{2029}'
    || c == '\U{202F}' || c == '\U{205F}' || c == '\U{3000}'
  }

  ghost predicate AllSpace(s: string) {
    forall i :: 0 <= i < |s| ==> IsSpace(s[i])
  }

  /** No white space at either end. */
  predicate NoEdgeSpace(s: string) {
    s == "" || (!IsSpace(s[0]) && !IsSpace(s[|s| - 1]))
  }

  function TrimStart(s: string): string {
    if s != "" && IsSpace(s[0]) then TrimStart(s[1..]) else s
  }

  function TrimEnd(s: string): string {
    if s != "" && IsSpace(s[|s| - 1]) then TrimEnd(s[..|s| - 1]) else s
  }

  function Trim(s: string): string {
    TrimEnd(TrimStart(s))
  }

  lemma {:induction false} TrimStartStrips(pre: string, s: string)
    requires AllSpace(pre) && (s == "" || !IsSpace(s[0]))
    ensures TrimStart(pre + s) == s
  {
    if pre == "" {
      assert pre + s == s;
    } else {
      assert (pre + s)[1..] == pre[1..] + s;
      TrimStartStrips(pre[1..], s);
    }
  }

  lemma {:induction false} TrimEndStrips(s: string, post: string)
    requires AllSpace(post) && (s == "" || !IsSpace(s[|s| - 1]))
    ensures TrimEnd(s + post) == s
  {
    if post == "" {
      assert s + post == s;
    } else {
      var n := |post| - 1;
      assert (s + post)[..|s + post| - 1] == s + post[..n];
      TrimEndStrips(s, post[..n]);
    }
  }

  /** Trimming takes off the white space around a text and nothing else. */
  lemma TrimStrips(pre: string, s: string, post: string)
    requires AllSpace(pre) && AllSpace(post) && NoEdgeSpace(s)
    ensures Trim(pre + s + post) == s
  {
    if s == "" {
      assert pre + s + post == (pre + post) + "";
      TrimStartStrips(pre + post, "");
    } else {
      assert pre + s + post == pre + (s + post);
      TrimStartStrips(pre, s + post);
    }
    TrimEndStrips(s, if s == "" then "" else post);
    assert s == "" ==> s + "" == s;
  }

  lemma TrimKeeps(s: string)
    requires NoEdgeSpace(s)
    ensures Trim(s) == s
  {
    TrimStrips("", s, "");
    assert "" + s + "" == s;
  }

  lemma {:induction false} TrimEndEdge(s: string)
    ensures TrimEnd(s) == "" || !IsSpace(TrimEnd(s)[|TrimEnd(s)| - 1])
    ensures TrimEnd(s) <= s
  {
    if s != "" && IsSpace(s[|s| - 1]) { TrimEndEdge(s[..|s| - 1]); }
  }

  lemma {:induction false} TrimStartEdge(s: string)
    ensures TrimStart(s) == "" || !IsSpace(TrimStart(s)[0])
  {
    if s != "" && IsSpace(s[0]) { TrimStartEdge(s[1..]); }
  }

  /** A trimmed text has no white space at either end, so trimming twice is trimming once. */
  lemma TrimIdempotent(s: string)
    ensures NoEdgeSpace(Trim(s)) && Trim(Trim(s)) == Trim(s)
  {
    TrimStartEdge(s);
    TrimEndEdge(TrimStart(s));
    TrimKeeps(Trim(s));
  }

  /** The 25 code points the property holds of. */
  lemma WhiteSpaceIs(c: char)
    ensures IsSpace(c) <==>
            (c as int) in {0x9, 0xA, 0xB, 0xC, 0xD, 0x20, 0x85, 0xA0, 0x1680, 0x2000, 0x2001, 0x2002, 0x2003, 0x2004,
                           0x2005, 0x2006, 0x2007, 0x2008, 0x2009, 0x200A, 0x2028, 0x2029, 0x202F, 0x205F, 0x3000}
  {
  }

  /** `t` is `s` less the white space at its ends. */
  ghost predicate Stripped(s: string, t: string) {
    NoEdgeSpace(t) && exists pre, post :: AllSpace(pre) && AllSpace(post) && s == pre + t + post
  }

  lemma {:induction false} TrimStartSplits(s: string) returns (pre: string)
    ensures AllSpace(pre) && s == pre + TrimStart(s)
  {
    pre := "";
    if s != "" && IsSpace(s[0]) {
      var rest := TrimStartSplits(s[1..]);
      pre := [s[0]] + rest;
      assert s == [s[0]] + s[1..];
    }
  }

  lemma {:induction false} TrimEndSplits(s: string) returns (post: string)
    ensures AllSpace(post) && s == TrimEnd(s) + post
  {
    post := "";
    if s != "" && IsSpace(s[|s| - 1]) {
      var n := |s| - 1;
      var rest := TrimEndSplits(s[..n]);
      post := rest + [s[n]];
      assert s == s[..n] + [s[n]];
    }
  }

  /** Every text has one stripped form, and trimming finds it. */
  lemma TrimIs(s: string, t: string)
    ensures Trim(s) == t <==> Stripped(s, t)
  {
    var pre := TrimStartSplits(s);
    var post := TrimEndSplits(TrimStart(s));
    TrimIdempotent(s);
    assert s == pre + Trim(s) + post;
    if Stripped(s, t) {
      var x, y :| AllSpace(x) && AllSpace(y) && s == x + t + y;
      TrimStrips(x, t, y);
    }
  }

  // ---- searching and splitting ----

  /** Index of the first occurrence of `c`, or the length of `s` when there is none. */
  function Find(s: string, c: char): (i: nat)
    ensures i <= |s| && (i < |s| ==> s[i] == c) && forall k :: 0 <= k < i ==> s[k] != c
  {
    if s == "" || s[0] == c then 0
    else 1 + Find(s[1..], c)
  }

  lemma FindAt(a: string, c: char, rest: string)
    requires c !in a
    ensures Find(a + [c] + rest, c) == |a|
  {
    var s := a + [c] + rest;
    var i := Find(s, c);
    assert s[|a|] == c;
    assert forall k :: 0 <= k < |a| ==> s[k] == a[k] && a[k] in a;
  }

  lemma FindNone(a: string, c: char)
    requires c !in a
    ensures Find(a, c) == |a|
  {
  }

  function Split(s: string, c: char): (parts: seq<string>)
    ensures parts != []
    decreases |s|
  {
    var i := Find(s, c);
    if i == |s| then [s] else [s[..i]] + Split(s[i + 1..], c)
  }

  function Join(parts: seq<string>, sep: string): string {
    if parts == [] then ""
    else if |parts| == 1 then parts[0]
    else parts[0] + sep + Join(parts[1..], sep)
  }

  /** Splitting at a character undoes joining with it. */
  lemma {:induction false} SplitJoin(parts: seq<string>, c: char)
    requires parts != [] && forall i :: 0 <= i < |parts| ==> c !in parts[i]
    ensures Split(Join(parts, [c]), c) == parts
  {
    if |parts| == 1 {
      FindNone(parts[0], c);
    } else {
      var rest := Join(parts[1..], [c]);
      FindAt(parts[0], c, rest);
      var s := parts[0] + [c] + rest;
      assert s[..|parts[0]|] == parts[0] && s[|parts[0]| + 1..] == rest;
      SplitJoin(parts[1..], c);
    }
  }

  // ---- decimal numbers ----

  predicate IsDigit(c: char) { '0' <= c <= '9' }

  predicate AllDigits(s: string) {
    forall i :: 0 <= i < |s| ==> IsDigit(s[i])
  }

  function DigitChar(d: nat): (c: char)
    requires d < 10
    ensures IsDigit(c) && DigitValue(c) == d
  {
    '0' + d as char
  }

  function DigitValue(c: char): (d: nat)
    requires IsDigit(c)
    ensures d < 10
  {
    (c - '0') as nat
  }

  function Decimal(n: nat): (s: string)
    ensures s != "" && AllDigits(s)
  {
    if n < 10 then [DigitChar(n)] else Decimal(n / 10) + [DigitChar(n % 10)]
  }

  function DigitsValue(s: string): nat
    requires AllDigits(s)
  {
    if s == "" then 0 else 10 * DigitsValue(s[..|s| - 1]) + DigitValue(s[|s| - 1])
  }

  lemma {:induction false} DecimalValue(n: nat)
    ensures DigitsValue(Decimal(n)) == n
  {
    if n < 10 {
      assert [DigitChar(n)][..0] == "";
    } else {
      var s := Decimal(n);
      assert s[..|s| - 1] == Decimal(n / 10);
      DecimalValue(n / 10);
    }
  }

  const U16_LIMIT: nat := 0x1_0000
  const U64_LIMIT: nat := 0x1_0000_0000_0000_0000

  /** `str::parse` for an unsigned type whose values are below `limit`: an optional `+`,
      then one or more digits; a value outside the type is an error. */
  function ParseUnsigned(s: string, limit: nat): Option<nat> {
    var digits := if s != "" && s[0] == '+' then s[1..] else s;
    if digits != "" && AllDigits(digits) && DigitsValue(digits) < limit
    then Some(DigitsValue(digits)) else None
  }

  /** Parsing inverts printing for every value of the type. */
  lemma ParsePrinted(n: nat, limit: nat)
    requires n < limit
    ensures ParseUnsigned(Decimal(n), limit) == Some(n)
    ensures NoEdgeSpace(Decimal(n))
  {
    DecimalValue(n);
    var s := Decimal(n);
    assert IsDigit(s[0]) && IsDigit(s[|s| - 1]);
  }

  /** Leading zeros count for nothing. */
  lemma {:induction false} LeadingZero(s: string)
    requires AllDigits(s)
    ensures DigitsValue("0" + s) == DigitsValue(s)
  {
    if s == "" {
      assert "0" + s == "0" && "0"[..0] == "";
    } else {
      var n := |s| - 1;
      LeadingZero(s[..n]);
      assert ("0" + s)[..n + 1] == "0" + s[..n];
    }
  }

  /** The text is white space, an optional `+`, one or more digits of value `n`, and white space. */
  ghost predicate Spells(s: string, n: nat) {
    exists pre, plus, digits, post ::
      && AllSpace(pre) && (plus == "" || plus == "+") && digits != "" && AllDigits(digits) && AllSpace(post)
      && s == pre + plus + digits + post && DigitsValue(digits) == n
  }

  lemma SpellsStripped(pre: string, plus: string, digits: string, post: string)
    requires AllSpace(pre) && (plus == "" || plus == "+") && digits != "" && AllDigits(digits) && AllSpace(post)
    ensures Trim(pre + plus + digits + post) == plus + digits
  {
    var text := plus + digits;
    assert text[0] == (if plus == "" then digits[0] else '+') && text[|text| - 1] == digits[|digits| - 1];
    assert IsDigit(digits[0]) && IsDigit(digits[|digits| - 1]);
    Regrouped(pre, plus, digits, post);
    TrimStrips(pre, text, post);
  }

  lemma SpellsBy(pre: string, plus: string, digits: string, post: string)
    requires AllSpace(pre) && (plus == "" || plus == "+") && digits != "" && AllDigits(digits) && AllSpace(post)
    ensures Spells(pre + plus + digits + post, DigitsValue(digits))
  {
    hide AllSpace, AllDigits, DigitsValue;
  }

  lemma Regrouped(pre: string, plus: string, digits: string, post: string)
    ensures pre + plus + digits + post == pre + (plus + digits) + post
  {
    assert pre + plus + digits == pre + (plus + digits);
  }

  lemma ParsedIsSpelled(s: string, limit: nat, n: nat)
    requires ParseUnsigned(Trim(s), limit) == Some(n)
    ensures Spells(s, n)
  {
    var t := Trim(s);
    TrimIs(s, t);
    hide Trim, DigitsValue, NoEdgeSpace, AllSpace;
    var plus := if t[0] == '+' then "+" else "";
    var digits := t[|plus|..];
    var pre, post :| AllSpace(pre) && AllSpace(post) && s == pre + t + post;
    assert t == plus + digits;
    SpellsBy(pre, plus, digits, post);
    Regrouped(pre, plus, digits, post);
  }

  lemma SpelledIsParsed(s: string, limit: nat, n: nat)
    requires n < limit && Spells(s, n)
    ensures ParseUnsigned(Trim(s), limit) == Some(n)
  {
    hide Trim, DigitsValue;
    var pre, plus, digits, post :|
      && AllSpace(pre) && (plus == "" || plus == "+") && digits != "" && AllDigits(digits) && AllSpace(post)
      && s == pre + plus + digits + post && DigitsValue(digits) == n;
    SpellsStripped(pre, plus, digits, post);
    var t := plus + digits;
    assert t[0] == (if plus == "" then digits[0] else '+') && IsDigit(digits[0]);
    assert (if t[0] == '+' then t[1..] else t) == digits;
  }

  /** Trimming and parsing reads exactly the texts that spell a number of the type. */
  lemma ReadsSpelled(s: string, limit: nat, n: nat)
    ensures ParseUnsigned(Trim(s), limit) == Some(n) <==> n < limit && Spells(s, n)
  {
    if ParseUnsigned(Trim(s), limit) == Some(n) { ParsedIsSpelled(s, limit, n); }
    if n < limit && Spells(s, n) { SpelledIsParsed(s, limit, n); }
  }

  // ---- case ----

  function ToLower(s: string): (r: string)
    ensures |r| == |s|
  {
    seq(|s|, i requires 0 <= i < |s| => if 'A' <= s[i] <= 'Z' then s[i] + ('a' - 'A') else s[i])
  }
}
