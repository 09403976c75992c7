/** The session cookie: its printing and the parsing of a Cookie header. */
module Cookie {
  import opened Text

  const SESSION_COOKIE := "republisher_sid"

  // ---- parsing ----

  /** The value a header segment gives the session cookie, if it names it. */
  function SegmentValue(segment: string): Option<string> {
    var pair := Trim(segment);
    var i := Find(pair, '=');
    if i == |pair| then None
    else if pair[..i] == SESSION_COOKIE then Some(pair[i + 1..])
    else None
  }

  function FindMap(segments: seq<string>): Option<string> {
    if segments == [] then None
    else if SegmentValue(segments[0]).Some? then SegmentValue(segments[0])
    else FindMap(segments[1..])
  }

  function SessionFromCookieHeader(header: string): Option<string> {
    FindMap(Split(header, ';'))
  }

  const PATH := "; Path=/"
  const HTTP_ONLY := "; HttpOnly"
  const SAME_SITE := "; SameSite=Strict"

  function Attributes(extra: string, secure: bool): (s: string)
    ensures s != "" && s[0] == ';'
  {
    PATH + HTTP_ONLY + SAME_SITE + extra + if secure then "; Secure" else ""
  }

  function SessionCookie(token: string, secure: bool): string {
    SESSION_COOKIE + "=" + token + Attributes("", secure)
  }

  function ClearCookie(secure: bool): string {
    SESSION_COOKIE + "=" + Attributes("; Max-Age=0", secure)
  }

  // ---- what a header says ----

  /** One segment of a Cookie header: a named value, or text without `=`, with optional
      white space around it. */
  datatype Crumb =
    | Pair(before: string, name: string, value: string, after: string)
    | Bare(before: string, text: string, after: string)
  {
    function Content(): string {
      if Pair? then name + "=" + value else text
    }

    function Print(): string {
      before + Content() + after
    }

    ghost predicate Legal() {
      && AllSpace(before) && AllSpace(after) && ';' !in before && ';' !in after
      && NoEdgeSpace(Content()) && ';' !in Content()
      && if Pair? then '=' !in name else '=' !in text
    }
  }

  ghost predicate AllLegal(crumbs: seq<Crumb>) {
    forall i :: 0 <= i < |crumbs| ==> crumbs[i].Legal()
  }

  function Printed(crumbs: seq<Crumb>): (texts: seq<string>)
    ensures |texts| == |crumbs|
  {
    seq(|crumbs|, i requires 0 <= i < |crumbs| => crumbs[i].Print())
  }

  /** The meaning of a header: the value of its first session pair. */
  function FirstSession(crumbs: seq<Crumb>): Option<string> {
    if crumbs == [] then None
    else if crumbs[0].Pair? && crumbs[0].name == SESSION_COOKIE then Some(crumbs[0].value)
    else FirstSession(crumbs[1..])
  }

  lemma SegmentReads(c: Crumb)
    requires c.Legal()
    ensures SegmentValue(c.Print()) ==
            if c.Pair? && c.name == SESSION_COOKIE then Some(c.value) else None
  {
    TrimStrips(c.before, c.Content(), c.after);
    assert c.before + c.Content() + c.after == c.Print();
    if c.Pair? {
      FindAt(c.name, '=', c.value);
      assert c.name + "=" + c.value == c.Content();
      assert c.Content()[..|c.name|] == c.name && c.Content()[|c.name| + 1..] == c.value;
    } else {
      FindNone(c.text, '=');
    }
  }

  lemma {:induction false} FindMapReads(crumbs: seq<Crumb>)
    requires AllLegal(crumbs)
    ensures FindMap(Printed(crumbs)) == FirstSession(crumbs)
  {
    hide SegmentValue, Crumb.Print, Crumb.Legal;
    if crumbs != [] {
      SegmentReads(crumbs[0]);
      assert Printed(crumbs)[1..] == Printed(crumbs[1..]);
      FindMapReads(crumbs[1..]);
    }
  }

  /** Parsing a printed header finds the first session value, whatever else the header holds:
      other pairs, values containing `=`, segments without `=`, and any spacing. */
  lemma ParsingInvertsPrinting(crumbs: seq<Crumb>)
    requires crumbs != [] && AllLegal(crumbs)
    ensures SessionFromCookieHeader(Join(Printed(crumbs), ";")) == FirstSession(crumbs)
  {
    var texts := Printed(crumbs);
    forall i | 0 <= i < |texts| ensures ';' !in texts[i] {
      assert crumbs[i].Legal();
    }
    SplitJoin(texts, ';');
    FindMapReads(crumbs);
  }

  /** The cookie set at login carries its token: the value the browser stores is the one the
      parser finds, and the attributes after it never hide it. */
  lemma SetCookieCarriesToken(token: string, secure: bool)
    requires ';' !in token && (token == "" || !IsSpace(token[|token| - 1]))
    ensures SessionFromCookieHeader(SessionCookie(token, secure)) == Some(token)
    ensures SessionFromCookieHeader(SESSION_COOKIE + "=" + token) == Some(token)
    ensures SessionFromCookieHeader(ClearCookie(secure)) == Some("")
  {
    LeadingPair(token, "");
    assert SESSION_COOKIE + "=" + token + "" == SESSION_COOKIE + "=" + token;
    LeadingPair(token, Attributes("", secure));
    LeadingPair("", Attributes("; Max-Age=0", secure));
    assert SESSION_COOKIE + "=" + "" == SESSION_COOKIE + "=";
  }

  lemma SplitFirst(first: string, rest: string)
    requires ';' !in first
    ensures Split(first + ";" + rest, ';') == [first] + Split(rest, ';')
  {
    FindAt(first, ';', rest);
    var text := first + ";" + rest;
    assert text[..|first|] == first && text[|first| + 1..] == rest;
  }

  lemma SplitOne(text: string)
    requires ';' !in text
    ensures Split(text, ';') == [text]
  {
    FindNone(text, ';');
  }

  lemma Grouped(a: string, b: string, c: string)
    ensures a + ";" + b + ";" + c == a + ";" + (b + ";" + c)
  {
  }

  lemma CutAt(text: string, i: nat)
    requires i < |text| && text[i] == ';'
    ensures text == text[..i] + ";" + text[i + 1..]
  {
  }

  lemma {:induction false} SplitLast(text: string, last: string)
    requires ';' !in last
    ensures Split(text + ";" + last, ';') == Split(text, ';') + [last]
    decreases |text|
  {
    var i := Find(text, ';');
    hide Split, Find;
    if i == |text| {
      SplitOne(text);
      SplitOne(last);
      SplitFirst(text, last);
    } else {
      var first, rest := text[..i], text[i + 1..];
      CutAt(text, i);
      Grouped(first, rest, last);
      SplitFirst(first, rest);
      SplitFirst(first, rest + ";" + last);
      SplitLast(rest, last);
      assert [first] + (Split(rest, ';') + [last]) == [first] + Split(rest, ';') + [last];
    }
  }

  /** An attribute and the segment it is read as; or none. */
  predicate Adds(text: string, segments: seq<string>) {
    || (text == "" && segments == [])
    || (|segments| == 1 && ';' !in segments[0] && text == ";" + segments[0])
  }

  lemma OneMore(text: string, attribute: string, segments: seq<string>)
    requires Adds(attribute, segments)
    ensures Split(text + attribute, ';') == Split(text, ';') + segments
  {
    hide Split;
    if segments == [] {
      assert text + attribute == text;
    } else {
      assert text + attribute == text + ";" + segments[0];
      SplitLast(text, segments[0]);
      assert segments == [segments[0]];
    }
  }

  lemma Spread(a: string, b: string, c: string, d: string, e: string, f: string)
    ensures a + (b + c + d + e + f) == a + b + c + d + e + f
  {
  }

  lemma FiveMore(first: string, a: string, b: string, c: string, d: string, e: string,
                 sa: seq<string>, sb: seq<string>, sc: seq<string>, sd: seq<string>, se: seq<string>)
    requires ';' !in first && Adds(a, sa) && Adds(b, sb) && Adds(c, sc) && Adds(d, sd) && Adds(e, se)
    ensures Split(first + (a + b + c + d + e), ';') == [first] + sa + sb + sc + sd + se
  {
    hide Split, Adds;
    Spread(first, a, b, c, d, e);
    OneMore(first, a, sa);
    OneMore(first + a, b, sb);
    OneMore(first + a + b, c, sc);
    OneMore(first + a + b + c, d, sd);
    OneMore(first + a + b + c + d, e, se);
    SplitOne(first);
  }

  lemma AttributeTexts(secure: bool)
    ensures Adds(PATH, [" Path=/"]) && Adds(HTTP_ONLY, [" HttpOnly"]) && Adds(SAME_SITE, [" SameSite=Strict"])
    ensures Adds("; Max-Age=0", [" Max-Age=0"]) && Adds("", [])
    ensures Adds(if secure then "; Secure" else "", if secure then [" Secure"] else [])
    ensures SESSION_COOKIE + "=" == "republisher_sid="
  {
  }

  /** The attributes each cookie is set with, as a reader of the header splits them: the cookie is for
      the whole site, out of reach of scripts and of other sites, secure exactly when it is to be, and
      the clearing one expires at once. */
  lemma CookieSegments(token: string, secure: bool)
    requires ';' !in token
    ensures Split(SessionCookie(token, secure), ';') ==
            ["republisher_sid=" + token] + [" Path=/"] + [" HttpOnly"] + [" SameSite=Strict"]
            + (if secure then [" Secure"] else [])
    ensures Split(ClearCookie(secure), ';') ==
            ["republisher_sid="] + [" Path=/"] + [" HttpOnly"] + [" SameSite=Strict"] + [" Max-Age=0"]
            + (if secure then [" Secure"] else [])
  {
    hide Split, Adds;
    AttributeTexts(secure);
    var last, text := if secure then [" Secure"] else [], if secure then "; Secure" else "";
    FiveMore("republisher_sid=" + token, PATH, HTTP_ONLY, SAME_SITE, "", text,
             [" Path=/"], [" HttpOnly"], [" SameSite=Strict"], [], last);
    FiveMore("republisher_sid=", PATH, HTTP_ONLY, SAME_SITE, "; Max-Age=0", text,
             [" Path=/"], [" HttpOnly"], [" SameSite=Strict"], [" Max-Age=0"], last);
    var kept := ["republisher_sid=" + token] + [" Path=/"] + [" HttpOnly"] + [" SameSite=Strict"];
    assert kept + [] == kept;
  }

  lemma SessionPair(token: string)
    requires ';' !in token && (token == "" || !IsSpace(token[|token| - 1]))
    ensures ';' !in SESSION_COOKIE + "=" + token
    ensures SegmentValue(SESSION_COOKIE + "=" + token) == Some(token)
  {
    var c := Pair("", SESSION_COOKIE, token, "");
    var text := SESSION_COOKIE + "=" + token;
    assert c.Print() == text && c.Content() == text;
    assert text[0] == 'r';
    assert text[|text| - 1] == if token == "" then '=' else token[|token| - 1];
    hide Trim, SegmentValue, Find;
    SegmentReads(c);
  }

  lemma LeadingPair(token: string, rest: string)
    requires ';' !in token && (token == "" || !IsSpace(token[|token| - 1]))
    requires rest == "" || rest[0] == ';'
    ensures SessionFromCookieHeader(SESSION_COOKIE + "=" + token + rest) == Some(token)
  {
    hide SegmentValue, Find;
    var text := SESSION_COOKIE + "=" + token;
    SessionPair(token);
    if rest == "" {
      assert text + rest == text;
      FindNone(text, ';');
    } else {
      assert text + rest == text + [';'] + rest[1..];
      FindAt(text, ';', rest[1..]);
      assert (text + rest)[..|text|] == text;
    }
  }
}
