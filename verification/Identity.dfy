/** Scalar JSON values and their text form. */
module Json {
  import opened Text

  datatype Json = Null | Bool(b: bool) | Num(n: int) | Str(s: string)

  function IntText(n: int): (s: string)
    ensures s != "" && s[0] != '"' && ',' !in s
  {
    if n >= 0 then Decimal(n) else "-" + Decimal(-n)
  }

  function HexDigit(d: nat): (c: char)
    requires d < 16
  {
    if d < 10 then '0' + d as char else 'a' + (d - 10) as char
  }

  /** Escaping inside a JSON string: section 7 of RFC 8259, short forms where they exist. */
  function EscapeChar(c: char): (s: string)
    ensures s != ""
    ensures s[0] == '\\' ==> |s| >= 2
    ensures s[0] != '\\' ==> s == [c] && c != '"'
  {
    match c
    case '"' => "\\\""
    case '\\' => "\\\\"
    case '\U{0008}' => "\\b"
    case '\U{000C}' => "\\f"
    case '\n' => "\\n"
    case '\r' => "\\r"
    case '\t' => "\\t"
    case _ =>
      if c < ' ' then "\\u00" + [HexDigit(c as nat / 16), HexDigit(c as nat % 16)] else [c]
  }

  function Escape(s: string): string {
    if s == "" then "" else EscapeChar(s[0]) + Escape(s[1..])
  }

  /** The text `serde_json` displays for a scalar. */
  function Render(v: Json): string {
    match v
    case Null => "null"
    case Bool(b) => if b then "true" else "false"
    case Num(n) => IntText(n)
    case Str(s) => "\"" + Escape(s) + "\""
  }

  // ---- a scalar's text delimits itself ----

  /** `t` is the rest of a quoted string: it has exactly one bare quote, at its end. */
  predicate ClosesQuote(t: string) {
    t != "" &&
    if t[0] == '"' then t == "\""
    else if t[0] == '\\' then |t| >= 2 && ClosesQuote(t[2..])
    else ClosesQuote(t[1..])
  }

  /** A quoted JSON string, or a bare token without a comma. */
  predicate IsScalarText(v: string) {
    v != "" && if v[0] == '"' then ClosesQuote(v[1..]) else ',' !in v
  }

  predicate AtSeparator(rest: string) {
    rest == "" || rest[0] == ','
  }

  lemma {:induction false} EscapeCloses(s: string)
    ensures ClosesQuote(Escape(s) + "\"")
  {
    if s != "" {
      var e, t := EscapeChar(s[0]), Escape(s[1..]) + "\"";
      EscapeCloses(s[1..]);
      assert Escape(s) + "\"" == e + t;
      if e[0] != '\\' {
        assert (e + t)[1..] == t;
      } else if |e| == 2 {
        assert (e + t)[2..] == t;
      } else {
        SkipPlain(e[2..], t);
        assert (e + t)[2..] == e[2..] + t;
      }
    }
  }

  lemma {:induction false} SkipPlain(plain: string, t: string)
    requires ClosesQuote(t)
    requires forall i :: 0 <= i < |plain| ==> plain[i] != '"' && plain[i] != '\\'
    ensures ClosesQuote(plain + t)
  {
    if plain == "" {
      assert plain + t == t;
    } else {
      SkipPlain(plain[1..], t);
      assert (plain + t)[1..] == plain[1..] + t;
    }
  }

  lemma RenderIsScalarText(v: Json)
    ensures IsScalarText(Render(v))
  {
    hide Decimal, Escape, ClosesQuote;
    if v.Str? {
      EscapeCloses(v.s);
      assert Render(v)[1..] == Escape(v.s) + "\"";
    }
  }

  lemma {:induction false} ClosesQuotePrefixFree(a: string, x: string, b: string, y: string)
    requires ClosesQuote(a) && ClosesQuote(b) && a + x == b + y
    ensures a == b
  {
    assert a[0] == (a + x)[0] == (b + y)[0] == b[0];
    if a[0] == '\\' {
      assert a[1] == (a + x)[1] == (b + y)[1] == b[1];
      assert a[2..] + x == (a + x)[2..] == (b + y)[2..] == b[2..] + y;
      ClosesQuotePrefixFree(a[2..], x, b[2..], y);
      assert a == a[..2] + a[2..] && b == b[..2] + b[2..];
    } else if a[0] != '"' {
      assert a[1..] + x == (a + x)[1..] == (b + y)[1..] == b[1..] + y;
      ClosesQuotePrefixFree(a[1..], x, b[1..], y);
      assert a == [a[0]] + a[1..] && b == [b[0]] + b[1..];
    }
  }

  lemma BareLength(v: string, x: string)
    requires ',' !in v && AtSeparator(x)
    ensures Find(v + x, ',') == |v|
  {
    if x == "" {
      assert v + x == v;
      FindNone(v, ',');
    } else {
      assert v + x == v + [','] + x[1..];
      FindAt(v, ',', x[1..]);
    }
  }

  /** Followed by the end or a comma, a scalar's text can be read off in one way only. */
  lemma ScalarPrefixFree(v: string, x: string, w: string, y: string)
    requires IsScalarText(v) && IsScalarText(w)
    requires AtSeparator(x) && AtSeparator(y) && v + x == w + y
    ensures v == w && x == y
  {
    assert v[0] == (v + x)[0] == (w + y)[0] == w[0];
    if v[0] == '"' {
      assert v[1..] + x == (v + x)[1..] == (w + y)[1..] == w[1..] + y;
      ClosesQuotePrefixFree(v[1..], x, w[1..], y);
      assert v == [v[0]] + v[1..] && w == [w[0]] + w[1..];
    } else {
      BareLength(v, x);
      BareLength(w, y);
      assert v == (v + x)[..|v|] == (w + y)[..|w|] == w;
    }
    assert x == (v + x)[|v|..] == (w + y)[|w|..] == y;
  }

  // ---- what a scalar's text says ----

  function HexValue(c: char): Option<nat> {
    if '0' <= c <= '9' then Some((c - '0') as nat)
    else if 'a' <= c <= 'f' then Some(10 + (c - 'a') as nat)
    else if 'A' <= c <= 'F' then Some(10 + (c - 'A') as nat)
    else None
  }

  /** The character after a backslash, in its short form. */
  function ShortEscape(c: char): Option<char> {
    match c
    case '"' => Some('"')
    case '\\' => Some('\\')
    case '/' => Some('/')
    case 'b' => Some('\U{0008}')
    case 'f' => Some('\U{000C}')
    case 'n' => Some('\U{000A}')
    case 'r' => Some('\U{000D}')
    case 't' => Some('\U{0009}')
    case _ => None
  }

  /** The character four hexadecimal digits name, below the surrogates. */
  function HexEscape(t: string): Option<char>
    requires |t| >= 4
  {
    match (HexValue(t[0]), HexValue(t[1]), HexValue(t[2]), HexValue(t[3]))
    case (Some(a), Some(b), Some(c), Some(d)) =>
      var n := 4096 * a + 256 * b + 16 * c + d;
      if n < 0xD800 then Some(n as char) else None
    case _ => None
  }

  function Prepend(c: Option<char>, rest: Option<string>): Option<string> {
    if c.Some? && rest.Some? then Some([c.value] + rest.value) else None
  }

  /** The string a JSON text stands for, after its opening quote: section 7 of RFC 8259. */
  function Unquoted(t: string): Option<string> {
    if t == "" then None
    else if t[0] == '"' then if |t| == 1 then Some("") else None
    else if t[0] != '\\' then Prepend(Some(t[0]), Unquoted(t[1..]))
    else if |t| < 2 then None
    else if t[1] != 'u' then Prepend(ShortEscape(t[1]), Unquoted(t[2..]))
    else if |t| < 6 then None
    else Prepend(HexEscape(t[2..6]), Unquoted(t[6..]))
  }

  function ReadInt(t: string): Option<Json> {
    if t != "" && AllDigits(t) then Some(Num(DigitsValue(t)))
    else if |t| > 1 && t[0] == '-' && AllDigits(t[1..]) then Some(Num(0 - DigitsValue(t[1..])))
    else None
  }

  function ReadScalar(t: string): Option<Json> {
    if t == "null" then Some(Null)
    else if t == "true" then Some(Bool(true))
    else if t == "false" then Some(Bool(false))
    else if t != "" && t[0] == '"' then
      (match Unquoted(t[1..]) case Some(s) => Some(Str(s)) case None => None)
    else ReadInt(t)
  }

  lemma EscapeReads(c: char, t: string)
    ensures Unquoted(EscapeChar(c) + t) == Prepend(Some(c), Unquoted(t))
  {
    var e := EscapeChar(c);
    var text := e + t;
    if |e| == 1 {
      assert text[1..] == t;
    } else if |e| == 2 {
      assert text[2..] == t && text[1] == e[1];
    } else {
      assert text[2..6] == e[2..6] && text[6..] == t && text[1] == 'u';
      HexReads(c);
    }
  }

  lemma HexReads(c: char)
    requires c < ' ' && |EscapeChar(c)| == 6
    ensures HexEscape(EscapeChar(c)[2..6]) == Some(c)
  {
    var n := c as nat;
    assert EscapeChar(c)[2..6] == "00" + [HexDigit(n / 16), HexDigit(n % 16)];
    assert HexValue(HexDigit(n / 16)) == Some(n / 16) && HexValue(HexDigit(n % 16)) == Some(n % 16);
  }

  lemma {:induction false} UnquotedEscape(s: string)
    ensures Unquoted(Escape(s) + "\"") == Some(s)
  {
    if s != "" {
      UnquotedEscape(s[1..]);
      EscapeReads(s[0], Escape(s[1..]) + "\"");
      assert Escape(s) + "\"" == EscapeChar(s[0]) + (Escape(s[1..]) + "\"");
      assert s == [s[0]] + s[1..];
    }
  }

  /** A rendered scalar is JSON that says that scalar. */
  lemma ReadRendered(v: Json)
    ensures ReadScalar(Render(v)) == Some(v)
  {
    hide Unquoted, Escape, Decimal, DigitsValue;
    WordsDiffer();
    match v
    case Str(s) => ReadQuoted(s);
    case Num(n) => ReadPrinted(n);
    case _ =>
  }

  lemma RenderInjective(v: Json, w: Json)
    requires Render(v) == Render(w)
    ensures v == w
  {
    hide Render, ReadScalar;
    ReadRendered(v);
    ReadRendered(w);
  }

  lemma ReadQuoted(s: string)
    ensures ReadScalar("\"" + Escape(s) + "\"") == Some(Str(s))
  {
    hide Unquoted, Escape, ReadInt;
    UnquotedEscape(s);
    var text := "\"" + Escape(s) + "\"";
    assert text[1..] == Escape(s) + "\"";
    assert text[0] == '"' && "null"[0] == 'n' && "true"[0] == 't' && "false"[0] == 'f';
  }

  lemma WordsDiffer()
    ensures "null" != "true" && "null" != "false" && "true" != "false"
  {
    assert "null"[0] == 'n' && "true"[0] == 't' && "false"[0] == 'f';
  }

  lemma ReadPrinted(n: int)
    ensures ReadScalar(IntText(n)) == Some(Num(n))
  {
    hide Unquoted, Decimal, DigitsValue;
    var t := Decimal(if n >= 0 then n else -n);
    DecimalValue(if n >= 0 then n else -n);
    assert IsDigit(t[0]);
    var text := IntText(n);
    assert text[0] == (if n >= 0 then t[0] else '-');
    assert "null"[0] == 'n' && "true"[0] == 't' && "false"[0] == 'f';
    if n < 0 { assert text[1..] == t; }
  }
}

/** Point identities and the string key the browser knows them by. */
module Identity {
  import opened Text
  import opened Json

  /** A protocol's typed address fields, by field name. */
  type Addressing = map<string, Json>

  /** What `PointIdentity` keeps of an addressing: field names in order, each with its rendered value. */
  type PointIdentity = seq<(string, string)>

  // ---- field names in lexical order ----

  predicate Le(s: string, t: string) {
    s == "" || (t != "" && (s[0] < t[0] || (s[0] == t[0] && Le(s[1..], t[1..]))))
  }

  lemma {:induction false} LeTotal(s: string, t: string)
    ensures Le(s, t) || Le(t, s)
    ensures Le(s, t) && Le(t, s) ==> s == t
  {
    if s != "" && t != "" && s[0] == t[0] {
      LeTotal(s[1..], t[1..]);
      assert s == [s[0]] + s[1..] && t == [t[0]] + t[1..];
    }
  }

  lemma {:induction false} LeTransitive(s: string, t: string, u: string)
    requires Le(s, t) && Le(t, u)
    ensures Le(s, u)
  {
    if s != "" && s[0] == t[0] == u[0] { LeTransitive(s[1..], t[1..], u[1..]); }
  }

  lemma SameStart(s: string, t: string, i: nat)
    requires i < |s| && i < |t| && s[..i] == t[..i]
    ensures i == 0 || s[0] == t[0]
  {
    if i > 0 { assert s[0] == s[..i][0] && t[0] == t[..i][0]; }
  }

  /** The order is that of the first character in which the names differ; a beginning comes first. */
  lemma {:induction false} LeIsLexical(s: string, t: string)
    ensures Le(s, t) <==> s <= t || exists i :: 0 <= i < |s| && i < |t| && s[..i] == t[..i] && s[i] < t[i]
  {
    if s != "" && t != "" && s[0] == t[0] {
      var x, y := s[1..], t[1..];
      LeIsLexical(x, y);
      assert s == [s[0]] + x && t == [t[0]] + y;
      assert x <= y <==> s <= t by {
        if x <= y { assert t[..|s|] == [t[0]] + y[..|x|]; }
        if s <= t { assert y[..|x|] == t[1..|s|]; }
      }
      if i :| 0 <= i < |x| && i < |y| && x[..i] == y[..i] && x[i] < y[i] {
        assert s[..i + 1] == [s[0]] + x[..i] && t[..i + 1] == [t[0]] + y[..i];
        assert s[i + 1] < t[i + 1];
      }
      if i :| 0 <= i < |s| && i < |t| && s[..i] == t[..i] && s[i] < t[i] {
        assert i > 0 && x[..i - 1] == s[1..i] && y[..i - 1] == t[1..i];
        assert s[1..i] == s[..i][1..] && t[1..i] == t[..i][1..];
        assert x[i - 1] < y[i - 1];
      }
    } else if s != "" && t != "" {
      if s[0] < t[0] { assert s[..0] == t[..0]; }
      if i :| 0 <= i < |s| && i < |t| && s[..i] == t[..i] && s[i] < t[i] {
        SameStart(s, t, i);
      }
    }
  }

  lemma {:induction false} LeastExists(keys: set<string>)
    requires keys != {}
    ensures exists k :: k in keys && forall x :: x in keys ==> Le(k, x)
  {
    hide Le;
    var k :| k in keys;
    LeTotal(k, k);
    if keys != {k} {
      LeastExists(keys - {k});
      var m :| m in keys - {k} && forall x :: x in keys - {k} ==> Le(m, x);
      LeTotal(k, m);
      var least := if Le(k, m) then k else m;
      forall x | x in keys ensures Le(least, x) {
        if x != k && Le(k, m) { LeTransitive(k, m, x); }
      }
    }
  }

  function Least(keys: set<string>): (k: string)
    requires keys != {}
    ensures k in keys && forall x :: x in keys ==> Le(k, x)
  {
    LeastExists(keys);
    assert forall k, m | k in keys && m in keys && Le(k, m) && Le(m, k) :: k == m by {
      forall k, m | k in keys && m in keys && Le(k, m) && Le(m, k) ensures k == m { LeTotal(k, m); }
    }
    var k :| k in keys && forall x :: x in keys ==> Le(k, x);
    k
  }

  /** `PointIdentity::from_point`: the addressing's entries, in field order, with values rendered. */
  function Identify(a: Addressing): PointIdentity
    decreases |a|
  {
    if |a| == 0 then []
    else
      var k := Least(a.Keys);
      assert a.Keys - {k} == (a - {k}).Keys;
      [(k, Render(a[k]))] + Identify(a - {k})
  }

  /** The key in status events and point listings: `name=value` pairs joined by commas. */
  function Key(id: PointIdentity): string {
    Join(Pairs(id), ",")
  }

  function Pairs(id: PointIdentity): (pairs: seq<string>)
    ensures |pairs| == |id|
  {
    seq(|id|, i requires 0 <= i < |id| => id[i].0 + "=" + id[i].1)
  }

  // ---- injectivity ----

  /** Field names are free of `=`, so that the first `=` of an entry ends its name. */
  predicate PlainNames(a: Addressing) {
    forall k :: k in a ==> '=' !in k
  }

  predicate WellFormed(id: PointIdentity) {
    forall i :: 0 <= i < |id| ==> '=' !in id[i].0 && IsScalarText(id[i].1)
  }

  lemma {:induction false} IdentifyWellFormed(a: Addressing)
    requires PlainNames(a)
    ensures WellFormed(Identify(a))
    decreases |a|
  {
    if |a| != 0 {
      var k := Least(a.Keys);
      RenderIsScalarText(a[k]);
      assert a.Keys - {k} == (a - {k}).Keys;
      IdentifyWellFormed(a - {k});
    }
  }

  lemma {:induction false} IdentifyInjective(a: Addressing, b: Addressing)
    requires Identify(a) == Identify(b)
    ensures a == b
    decreases |a|
  {
    hide Render, Le;
    if |a| != 0 && |b| != 0 {
      var k := Least(a.Keys);
      assert Identify(a)[0] == (k, Render(a[k]));
      assert Identify(b)[0] == (k, Render(b[k]));
      RenderInjective(a[k], b[k]);
      assert a.Keys - {k} == (a - {k}).Keys;
      assert Identify(a)[1..] == Identify(a - {k}) && Identify(b)[1..] == Identify(b - {k});
      IdentifyInjective(a - {k}, b - {k});
      assert a == (a - {k})[k := a[k]] && b == (b - {k})[k := b[k]];
    }
  }

  /** An identity lists the addressing's fields in strictly increasing order of name. */
  predicate Ordered(id: PointIdentity) {
    forall i, j :: 0 <= i < j < |id| ==> Le(id[i].0, id[j].0) && id[i].0 != id[j].0
  }

  /** Exactly the addressing's fields, in order of name, each with its rendered value. */
  lemma {:induction false} IdentifyEntries(a: Addressing)
    ensures Ordered(Identify(a))
    ensures forall k, v :: (k, v) in Identify(a) <==> k in a && v == Render(a[k])
    decreases |a|
  {
    hide Render, Le;
    if |a| != 0 {
      var k := Least(a.Keys);
      assert a.Keys - {k} == (a - {k}).Keys;
      var rest := Identify(a - {k});
      IdentifyEntries(a - {k});
      var id := [(k, Render(a[k]))] + rest;
      forall i, j | 0 <= i < j < |id| ensures Le(id[i].0, id[j].0) && id[i].0 != id[j].0 {
        assert id[j] == rest[j - 1];
        assert (rest[j - 1].0, rest[j - 1].1) in rest;
        if i > 0 { assert id[i] == rest[i - 1]; }
      }
      forall x, v ensures (x, v) in id <==> x in a && v == Render(a[x]) {
        assert (x, v) in id <==> (x, v) == id[0] || (x, v) in rest;
      }
    }
  }

  /** What follows the first entry of a key: nothing, or a comma and the key of the rest. */
  function Tail(id: PointIdentity): (t: string)
    requires id != []
    ensures AtSeparator(t)
  {
    if |id| == 1 then "" else "," + Key(id[1..])
  }

  lemma KeyUnfolds(id: PointIdentity)
    requires id != []
    ensures Key(id) == id[0].0 + "=" + (id[0].1 + Tail(id))
  {
    assert Pairs(id)[1..] == Pairs(id[1..]);
    assert Pairs(id)[0] == id[0].0 + "=" + id[0].1;
    if |id| == 1 {
      assert id[0].1 + Tail(id) == id[0].1;
    } else {
      assert Key(id) == Pairs(id)[0] + "," + Key(id[1..]);
    }
  }

  lemma FirstEntry(a: PointIdentity, b: PointIdentity)
    requires WellFormed(a) && WellFormed(b) && a != [] && b != [] && Key(a) == Key(b)
    ensures a[0] == b[0] && Tail(a) == Tail(b)
  {
    KeyUnfolds(a);
    KeyUnfolds(b);
    var va, vb := a[0].1 + Tail(a), b[0].1 + Tail(b);
    hide Key, Tail, Find, IsScalarText;
    FindAt(a[0].0, '=', va);
    FindAt(b[0].0, '=', vb);
    assert Key(a)[..|a[0].0|] == a[0].0 && Key(b)[..|b[0].0|] == b[0].0;
    assert Key(a)[|a[0].0| + 1..] == va && Key(b)[|b[0].0| + 1..] == vb;
    ScalarPrefixFree(a[0].1, Tail(a), b[0].1, Tail(b));
  }

  lemma {:induction false} KeyInjective(a: PointIdentity, b: PointIdentity)
    requires WellFormed(a) && WellFormed(b) && Key(a) == Key(b)
    ensures a == b
  {
    if a == [] || b == [] {
      hide Tail, IsScalarText;
      if a != [] { KeyUnfolds(a); }
      if b != [] { KeyUnfolds(b); }
    } else {
      hide Key, IsScalarText;
      FirstEntry(a, b);
      if |a| > 1 && |b| > 1 {
        assert Tail(a)[1..] == Key(a[1..]) && Tail(b)[1..] == Key(b[1..]);
        KeyInjective(a[1..], b[1..]);
      } else {
        assert |a| == |b| == 1;
      }
      assert a == [a[0]] + a[1..] && b == [b[0]] + b[1..];
    }
  }

  /** Two addressings with the same key are the same addressing, whatever commas and
      equals signs their string values contain. */
  lemma AddressingKeyInjective(a: Addressing, b: Addressing)
    requires PlainNames(a) && PlainNames(b)
    requires Key(Identify(a)) == Key(Identify(b))
    ensures a == b
  {
    IdentifyWellFormed(a);
    IdentifyWellFormed(b);
    KeyInjective(Identify(a), Identify(b));
    IdentifyInjective(a, b);
  }

  lemma IdentifyFirst(a: Addressing, k: string)
    requires k in a && forall x :: x in a ==> Le(k, x)
    ensures Identify(a) == [(k, Render(a[k]))] + Identify(a - {k})
  {
    LeTotal(k, Least(a.Keys));
    assert k in a.Keys;
  }

  lemma IdentifyOne(k: string, n: nat)
    requires n < 10
    ensures Identify(map[k := Num(n)]) == [(k, [DigitChar(n)])]
  {
    var a: Addressing := map[k := Num(n)];
    LeTotal(k, k);
    IdentifyFirst(a, k);
    assert a - {k} == map[];
  }

  lemma KeyOfOne(k: string, n: nat)
    requires n < 10
    ensures Key(Identify(map[k := Num(n)])) == k + "=" + [DigitChar(n)]
  {
    IdentifyOne(k, n);
    var id := Identify(map[k := Num(n)]);
    hide Identify, Key;
    KeyUnfolds(id);
    assert [DigitChar(n)] + "" == [DigitChar(n)];
  }

  lemma KeyOfMore(a: Addressing, k: string, n: nat)
    requires k in a && a[k] == Num(n) && n < 10 && a - {k} != map[]
    requires forall x :: x in a ==> Le(k, x)
    ensures Key(Identify(a)) == k + "=" + ([DigitChar(n)] + ("," + Key(Identify(a - {k}))))
  {
    IdentifyFirst(a, k);
    var id, rest := Identify(a), Identify(a - {k});
    assert rest != [];
    hide Identify, Key;
    assert id[1..] == rest && Render(Num(n)) == [DigitChar(n)];
    KeyUnfolds(id);
  }

  lemma KeyOfTwo(k: string, m: string)
    requires Le(k, m) && k != m
    ensures Key(Identify(map[m := Num(2)][k := Num(1)])) == k + "=" + ("1" + ("," + (m + "=" + "2")))
  {
    var c: Addressing := map[m := Num(2)];
    var b := c[k := Num(1)];
    assert b - {k} == c;
    assert c != map[] by { assert m in c; }
    LeTotal(k, k);
    KeyOfOne(m, 2);
    KeyOfMore(b, k, 1);
    hide Key, Identify, Le;
    assert [DigitChar(1)] == "1" && [DigitChar(2)] == "2";
  }

  lemma Regroup(k: string, m: string)
    ensures k + "=" + ("1" + ("," + (m + "=" + "2"))) == k + "=1," + m + "=" + "2"
  {
    var l, r := k + "=" + ("1" + ("," + (m + "=" + "2"))), k + "=1," + m + "=" + "2";
    assert |l| == |r|;
  }

  /** The condition on names cannot just be dropped: any two fields with plain names have the key of
      one field whose name reads as the first of them and the start of the second. */
  lemma NameWithEqualsCollides(k: string, m: string)
    requires Le(k, m) && k != m && '=' !in k && '=' !in m
    ensures var a: Addressing := map[k + "=1," + m := Num(2)];
            var b: Addressing := map[m := Num(2)][k := Num(1)];
            a != b && PlainNames(b) && Key(Identify(a)) == Key(Identify(b))
  {
    hide Key, Identify, Le;
    var name := k + "=1," + m;
    KeyOfTwo(k, m);
    KeyOfOne(name, 2);
    assert [DigitChar(2)] == "2";
    Regroup(k, m);
    assert name[|k|] == '=';
    assert name in map[name := Num(2)];
  }
}
