/** The settings form as a lens over the configuration: the redacted view it is filled from,
    the request it submits, and the update the daemon makes. */
module Settings {
  import opened Text
  import opened Coercion
  import opened Model

  datatype SettingsReq = SettingsReq(
    host: string, port: nat, useTls: bool, clientId: string, topicPrefix: string, healthTopic: string,
    username: Option<string>, password: Option<string>,
    caCertPath: Option<string>, clientCertPath: Option<string>, clientKeyPath: Option<string>,
    clientKeyPassphrase: Option<string>, rememberSecrets: bool, retain: bool, keepAliveSecs: nat,
    payloadFormat: PayloadFormat, deviceTopicPrefix: string, autostart: bool,
    theme: Option<Theme>, discoverOnStart: Option<bool>)

  // ---- the daemon's update ----

  /** The trimmed text, or nothing when that is empty. */
  function NonEmpty(value: Option<string>): Option<string> {
    if value.Some? && Trim(value.value) != "" then Some(Trim(value.value)) else None
  }

  /** Absent keeps the stored secret, the empty text clears it, any other text replaces it. */
  function ApplySecret(current: Option<string>, update: Option<string>): Option<string> {
    match update
    case None => current
    case Some(text) => if text == "" then None else Some(text)
  }

  function GetOr<T>(value: Option<T>, fallback: T): T {
    if value.Some? then value.value else fallback
  }

  function AtLeastOne(n: nat): nat {
    if n == 0 then 1 else n
  }

  function Put(c: Config, r: SettingsReq): Config {
    c.(mqtt := c.mqtt.(
         host := r.host, port := r.port, useTls := r.useTls, clientId := r.clientId,
         topicPrefix := r.topicPrefix, healthTopic := r.healthTopic,
         username := NonEmpty(r.username), password := ApplySecret(c.mqtt.password, r.password),
         caCertPath := NonEmpty(r.caCertPath), clientCertPath := NonEmpty(r.clientCertPath),
         clientKeyPath := NonEmpty(r.clientKeyPath),
         clientKeyPassphrase := ApplySecret(c.mqtt.clientKeyPassphrase, r.clientKeyPassphrase),
         rememberSecrets := r.rememberSecrets, retain := r.retain,
         keepAliveSecs := AtLeastOne(r.keepAliveSecs), payloadFormat := r.payloadFormat,
         deviceTopicPrefix := r.deviceTopicPrefix, autostart := r.autostart),
       discoverOnStart := GetOr(r.discoverOnStart, c.discoverOnStart),
       theme := GetOr(r.theme, c.theme))
  }

  // ---- the browser's form ----

  /** A secret's input starts empty and counts only once it has been touched. */
  datatype SecretInput = SecretInput(text: string, dirty: bool)

  datatype Form = Form(
    host: string, port: string, useTls: bool, clientId: string, topicPrefix: string, healthTopic: string,
    username: string, password: SecretInput, caCert: string, clientCert: string, clientKey: string,
    passphrase: SecretInput, remember: bool, retain: bool, keepAlive: string,
    payload: PayloadFormat, deviceTopic: string, autostart: bool, theme: Theme, discoverOnStart: bool)

  function FormOf(b: Browser, view: Redacted): Form {
    var m := view.config.mqtt;
    Form(m.host, b.numberText(m.port), m.useTls, m.clientId, m.topicPrefix, m.healthTopic,
         GetOr(m.username, ""), SecretInput("", false),
         GetOr(m.caCertPath, ""), GetOr(m.clientCertPath, ""), GetOr(m.clientKeyPath, ""),
         SecretInput("", false), m.rememberSecrets, m.retain, b.numberText(m.keepAliveSecs),
         m.payloadFormat, m.deviceTopicPrefix, m.autostart, view.config.theme, view.config.discoverOnStart)
  }

  function DigitPrefix(s: string): (d: string)
    ensures AllDigits(d)
  {
    if s != "" && IsDigit(s[0]) then [s[0]] + DigitPrefix(s[1..]) else ""
  }

  /** `parseInt(s, 10) || fallback`: leading space and a sign are allowed, the digits end at the
      first other character, and both no number and zero give the fallback. */
  function ParseIntOr(s: string, fallback: int): int {
    var t := TrimStart(s);
    var body := if t != "" && (t[0] == '+' || t[0] == '-') then t[1..] else t;
    var value: int := DigitsValue(DigitPrefix(body));
    if value == 0 then fallback else if t[0] == '-' then -value else value
  }

  function SecretUpdate(input: SecretInput): Option<string> {
    if input.dirty then Some(input.text) else None
  }

  /** A number as it arrives: the browser prints it, and the daemon reads it into an unsigned field
      whose values are below `limit`, or refuses the request. */
  function Arriving(b: Browser, n: int, limit: nat): Option<nat> {
    var text := b.numberText(n);
    if n >= 0 && text != "" && AllDigits(text) && DigitsValue(text) < limit then Some(DigitsValue(text)) else None
  }

  function PortSent(b: Browser, f: Form): Option<nat> {
    Arriving(b, ParseIntOr(f.port, 0), U16_LIMIT)
  }

  function KeepAliveSent(b: Browser, f: Form): Option<nat> {
    var secs := ParseIntOr(f.keepAlive, 30);
    Arriving(b, if secs < 1 then 1 else secs, U64_LIMIT)
  }

  /** The request the form makes; none when a number does not fit its field and the daemon refuses
      the body, which changes nothing. */
  function Submit(b: Browser, f: Form): Option<SettingsReq> {
    match (PortSent(b, f), KeepAliveSent(b, f))
    case (Some(port), Some(keepAlive)) =>
      Some(SettingsReq(f.host, port, f.useTls, f.clientId, f.topicPrefix, f.healthTopic,
                       Some(f.username), SecretUpdate(f.password),
                       Some(f.caCert), Some(f.clientCert), Some(f.clientKey),
                       SecretUpdate(f.passphrase), f.remember, f.retain, keepAlive,
                       f.payload, f.deviceTopic, f.autostart, Some(f.theme), Some(f.discoverOnStart)))
    case _ => None
  }

  /** The configuration after the form has been saved, or refused. */
  function Saved(b: Browser, c: Config, f: Form): Config {
    if Submit(b, f).Some? then Put(c, Submit(b, f).value) else c
  }

  // ---- saving an unedited form ----

  /** Sizes the fields have in the program, and the range in which a browser holds a number exactly. */
  predicate InRange(c: Config) {
    c.mqtt.port < U16_LIMIT && c.mqtt.keepAliveSecs <= SAFE_INTEGER
  }

  /** An optional text as the daemon stores it: absent, or not empty and without edge space. */
  predicate NormalText(value: Option<string>) {
    value.Some? ==> value.value != "" && NoEdgeSpace(value.value)
  }

  predicate Normalised(c: Config) {
    && NormalText(c.mqtt.username) && NormalText(c.mqtt.caCertPath)
    && NormalText(c.mqtt.clientCertPath) && NormalText(c.mqtt.clientKeyPath)
    && c.mqtt.keepAliveSecs >= 1
  }

  lemma {:induction false} DigitPrefixAll(s: string)
    requires AllDigits(s)
    ensures DigitPrefix(s) == s
  {
    if s != "" { DigitPrefixAll(s[1..]); }
  }

  lemma ParseIntPrinted(n: nat, fallback: int)
    ensures ParseIntOr(Decimal(n), fallback) == if n == 0 then fallback else n
  {
    var s := Decimal(n);
    assert IsDigit(s[0]);
    DigitPrefixAll(s);
    DecimalValue(n);
  }

  lemma NonEmptyFixed(value: Option<string>)
    ensures NonEmpty(Some(GetOr(value, ""))) == value <==> NormalText(value)
    ensures NormalText(NonEmpty(value))
  {
    var text := GetOr(value, "");
    TrimIdempotent(text);
    if NoEdgeSpace(text) { TrimKeeps(text); }
  }

  lemma ArrivesExactly(b: Browser, n: nat, limit: nat)
    requires Interoperable(b) && n <= SAFE_INTEGER && n < limit
    ensures Arriving(b, n, limit) == Some(n)
  {
    DecimalValue(n);
  }

  lemma PortArrives(b: Browser, c: Config)
    requires Interoperable(b) && c.mqtt.port < U16_LIMIT
    ensures PortSent(b, FormOf(b, Redact(c))) == Some(c.mqtt.port)
  {
    ParseIntPrinted(c.mqtt.port, 0);
    ArrivesExactly(b, c.mqtt.port, U16_LIMIT);
  }

  lemma SmallKeepAliveArrives(b: Browser, c: Config)
    requires Interoperable(b) && c.mqtt.keepAliveSecs <= SAFE_INTEGER
    ensures KeepAliveSent(b, FormOf(b, Redact(c))) ==
            Some(if c.mqtt.keepAliveSecs == 0 then 30 else c.mqtt.keepAliveSecs)
  {
    ParseIntPrinted(c.mqtt.keepAliveSecs, 30);
    ArrivesExactly(b, if c.mqtt.keepAliveSecs == 0 then 30 else c.mqtt.keepAliveSecs, U64_LIMIT);
    hide ParseIntOr, Arriving;
  }

  /** A configuration with the fields an unedited save can change. */
  function WithEdges(c: Config, username: Option<string>, ca: Option<string>, cert: Option<string>,
                     key: Option<string>, secs: nat): Config {
    c.(mqtt := c.mqtt.(username := username, caCertPath := ca, clientCertPath := cert, clientKeyPath := key,
                       keepAliveSecs := secs))
  }

  lemma SameEdges(c: Config, username: Option<string>, ca: Option<string>, cert: Option<string>,
                  key: Option<string>, secs: nat)
    ensures WithEdges(c, username, ca, cert, key, secs) == c <==>
            username == c.mqtt.username && ca == c.mqtt.caCertPath && cert == c.mqtt.clientCertPath
            && key == c.mqtt.clientKeyPath && secs == c.mqtt.keepAliveSecs
  {
    if WithEdges(c, username, ca, cert, key, secs) == c {
      assert WithEdges(c, username, ca, cert, key, secs).mqtt == c.mqtt;
    }
  }

  function Again(value: Option<string>): Option<string> {
    NonEmpty(Some(GetOr(value, "")))
  }

  lemma UneditedPut(b: Browser, c: Config)
    requires Submit(b, FormOf(b, Redact(c))).Some? && PortSent(b, FormOf(b, Redact(c))) == Some(c.mqtt.port)
    ensures var m := c.mqtt;
            Put(c, Submit(b, FormOf(b, Redact(c))).value) ==
            WithEdges(c, Again(m.username), Again(m.caCertPath), Again(m.clientCertPath), Again(m.clientKeyPath),
                      AtLeastOne(KeepAliveSent(b, FormOf(b, Redact(c))).value))
  {
    hide NonEmpty, PortSent, KeepAliveSent, AtLeastOne;
  }

  /** Saving the form as it was shown leaves the configuration alone, with the secrets the form
      never saw, exactly when the keep-alive time does not fit its field and the save is refused, or
      the configuration is normalised and the time arrives as it was. */
  lemma UneditedSaveIff(b: Browser, c: Config)
    requires Interoperable(b) && c.mqtt.port < U16_LIMIT
    ensures var form := FormOf(b, Redact(c));
            var secs := KeepAliveSent(b, form);
            && (Submit(b, form).Some? <==> secs.Some?)
            && (Saved(b, c, form) == c <==> secs.None? || (Normalised(c) && secs == Some(c.mqtt.keepAliveSecs)))
  {
    PortArrives(b, c);
    var m, secs := c.mqtt, KeepAliveSent(b, FormOf(b, Redact(c)));
    if m.keepAliveSecs <= SAFE_INTEGER { SmallKeepAliveArrives(b, c); }
    hide PortSent, KeepAliveSent, FormOf, Redact, WithEdges, Put, NonEmpty, NormalText;
    if secs.Some? {
      UneditedPut(b, c);
      SameEdges(c, Again(m.username), Again(m.caCertPath), Again(m.clientCertPath), Again(m.clientKeyPath),
                AtLeastOne(secs.value));
      NonEmptyFixed(m.username);
      NonEmptyFixed(m.caCertPath);
      NonEmptyFixed(m.clientCertPath);
      NonEmptyFixed(m.clientKeyPath);
    }
  }

  /** Within the range a browser prints exactly the form is always saved, and normalised is all it takes. */
  lemma UneditedSaveIffNormalised(b: Browser, c: Config)
    requires Interoperable(b) && InRange(c)
    ensures Submit(b, FormOf(b, Redact(c))).Some?
    ensures Put(c, Submit(b, FormOf(b, Redact(c))).value) == c <==> Normalised(c)
  {
    hide Put, Submit, NormalText, KeepAliveSent;
    UneditedSaveIff(b, c);
    SmallKeepAliveArrives(b, c);
  }

  /** The largest times are beyond what arrives: a browser prints 2^64 - 1 as a number that does
      not fit, so a form that shows it cannot be saved at all. */
  lemma LargestKeepAliveIsRefused(b: Browser, c: Config)
    requires c.mqtt.keepAliveSecs == U64_LIMIT - 1
    requires var printed := b.numberText(U64_LIMIT - 1);
             && AllDigits(printed) && DigitsValue(printed) >= U64_LIMIT
             && b.numberText(DigitsValue(printed)) == printed
    ensures Submit(b, FormOf(b, Redact(c))) == None
  {
    ParseDigits(b.numberText(U64_LIMIT - 1), 30);
  }

  lemma ParseDigits(s: string, fallback: int)
    requires s != "" && AllDigits(s) && DigitsValue(s) != 0
    ensures ParseIntOr(s, fallback) == DigitsValue(s)
  {
    assert IsDigit(s[0]);
    assert TrimStart(s) == s;
    DigitPrefixAll(s);
    hide TrimStart, DigitPrefix, DigitsValue, AllDigits;
  }

  // ---- what is put is what is shown ----

  /** A request as the form would state it after it has been saved. */
  function Settled(c: Config, r: SettingsReq): SettingsReq {
    r.(username := Some(GetOr(NonEmpty(r.username), "")), password := None,
       caCertPath := Some(GetOr(NonEmpty(r.caCertPath), "")),
       clientCertPath := Some(GetOr(NonEmpty(r.clientCertPath), "")),
       clientKeyPath := Some(GetOr(NonEmpty(r.clientKeyPath), "")),
       clientKeyPassphrase := None, keepAliveSecs := AtLeastOne(r.keepAliveSecs),
       theme := Some(GetOr(r.theme, c.theme)), discoverOnStart := Some(GetOr(r.discoverOnStart, c.discoverOnStart)))
  }

  lemma SavedForm(b: Browser, c: Config, r: SettingsReq)
    requires Interoperable(b) && r.port < U16_LIMIT && r.keepAliveSecs <= SAFE_INTEGER
    ensures Submit(b, FormOf(b, Redact(Put(c, r)))) == Some(Settled(c, r))
  {
    hide PortSent, KeepAliveSent, NonEmpty, ApplySecret, Interoperable;
    PortArrives(b, Put(c, r));
    SmallKeepAliveArrives(b, Put(c, r));
  }

  lemma PutIsNormalised(c: Config, r: SettingsReq)
    ensures Normalised(Put(c, r))
  {
    NonEmptyFixed(r.username);
    NonEmptyFixed(r.caCertPath);
    NonEmptyFixed(r.clientCertPath);
    NonEmptyFixed(r.clientKeyPath);
    hide NonEmpty, NormalText;
  }

  /** After a save the form shows the request, trimmed and with nothing of a secret but whether
      one is set; what the save stored is normalised, and saving again changes nothing. */
  lemma SavedIsShown(b: Browser, c: Config, r: SettingsReq)
    requires Interoperable(b) && r.port < U16_LIMIT && r.keepAliveSecs <= SAFE_INTEGER
    ensures var view := Redact(Put(c, r));
            && Submit(b, FormOf(b, view)) == Some(Settled(c, r))
            && view.config.mqtt.password == None && view.config.mqtt.clientKeyPassphrase == None
            && (view.secrets.passwordSet <==>
                if r.password.Some? then r.password.value != "" else c.mqtt.password.Some?)
            && (view.secrets.passphraseSet <==>
                if r.clientKeyPassphrase.Some? then r.clientKeyPassphrase.value != ""
                else c.mqtt.clientKeyPassphrase.Some?)
    ensures Normalised(Put(c, r)) && Put(Put(c, r), Settled(c, r)) == Put(c, r)
  {
    SavedForm(b, c, r);
    PutIsNormalised(c, r);
    UneditedSaveIffNormalised(b, Put(c, r));
    hide Submit, FormOf, Settled, NonEmpty, Normalised, Interoperable;
  }

  // ---- what is stored, field by field ----

  /** An optional text as it is stored for the text sent: without the white space at its ends,
      and absent if nothing is left or none was sent. */
  ghost predicate StoredText(sent: Option<string>, stored: Option<string>) {
    match stored
    case Some(text) => text != "" && sent.Some? && Stripped(sent.value, text)
    case None => sent.Some? ==> AllSpace(sent.value)
  }

  /** An update that is absent keeps the secret; an empty one clears it; any other is the new secret. */
  predicate StoredSecret(before: Option<string>, sent: Option<string>, stored: Option<string>) {
    && (sent == None ==> stored == before)
    && (sent == Some("") ==> stored == None)
    && (sent.Some? && sent != Some("") ==> stored == sent)
  }

  lemma BlankStrips(s: string)
    ensures Stripped(s, "") <==> AllSpace(s)
  {
    if AllSpace(s) { assert s == "" + "" + s; }
  }

  lemma NonEmptyIs(sent: Option<string>, stored: Option<string>)
    ensures NonEmpty(sent) == stored <==> StoredText(sent, stored)
  {
    if sent.Some? {
      TrimIs(sent.value, "");
      BlankStrips(sent.value);
      TrimIs(sent.value, if stored.Some? then stored.value else "");
    }
    hide Trim, Stripped;
  }

  /** The broker's settings after a save, each from its own field of the request. */
  lemma PutStores(c: Config, r: SettingsReq)
    ensures var after := Put(c, r);
            var m := after.mqtt;
            && m.host == r.host && m.port == r.port && m.useTls == r.useTls && m.clientId == r.clientId
            && m.topicPrefix == r.topicPrefix && m.healthTopic == r.healthTopic
            && StoredText(r.username, m.username) && StoredText(r.caCertPath, m.caCertPath)
            && StoredText(r.clientCertPath, m.clientCertPath) && StoredText(r.clientKeyPath, m.clientKeyPath)
            && StoredSecret(c.mqtt.password, r.password, m.password)
            && StoredSecret(c.mqtt.clientKeyPassphrase, r.clientKeyPassphrase, m.clientKeyPassphrase)
            && m.passwordEnv == c.mqtt.passwordEnv && m.rememberSecrets == r.rememberSecrets && m.retain == r.retain
            && m.keepAliveSecs >= 1 && (r.keepAliveSecs >= 1 ==> m.keepAliveSecs == r.keepAliveSecs)
            && (r.keepAliveSecs == 0 ==> m.keepAliveSecs == 1)
            && m.payloadFormat == r.payloadFormat && m.deviceTopicPrefix == r.deviceTopicPrefix
            && m.autostart == r.autostart
            && after.discoverOnStart == (if r.discoverOnStart.Some? then r.discoverOnStart.value else c.discoverOnStart)
            && after.theme == (if r.theme.Some? then r.theme.value else c.theme)
            && after.protocol == c.protocol && after.connections == c.connections && after.points == c.points
  {
    var m := Put(c, r).mqtt;
    NonEmptyIs(r.username, m.username);
    NonEmptyIs(r.caCertPath, m.caCertPath);
    NonEmptyIs(r.clientCertPath, m.clientCertPath);
    NonEmptyIs(r.clientKeyPath, m.clientKeyPath);
    hide NonEmpty, StoredText;
  }

  // ---- what an edited form stores ----

  /** `s` begins with this number, in the way of the browser's `parseInt`: white space, an optional
      sign, one or more digits, and after them anything but a digit. */
  ghost predicate Begins(s: string, v: int) {
    exists pre, sign, digits, rest ::
      && AllSpace(pre) && (sign == "" || sign == "+" || sign == "-") && digits != "" && AllDigits(digits)
      && (rest == "" || !IsDigit(rest[0])) && s == pre + (sign + (digits + rest))
      && v == if sign == "-" then 0 - DigitsValue(digits) else DigitsValue(digits)
  }

  lemma {:induction false} DigitPrefixIs(digits: string, rest: string)
    requires AllDigits(digits) && (rest == "" || !IsDigit(rest[0]))
    ensures DigitPrefix(digits + rest) == digits
  {
    if digits == "" {
      assert digits + rest == rest;
    } else {
      assert (digits + rest)[1..] == digits[1..] + rest;
      DigitPrefixIs(digits[1..], rest);
      assert digits == [digits[0]] + digits[1..];
    }
  }

  lemma {:induction false} DigitPrefixSplits(s: string) returns (rest: string)
    ensures s == DigitPrefix(s) + rest && (rest == "" || !IsDigit(rest[0]))
  {
    rest := s;
    if s != "" && IsDigit(s[0]) {
      rest := DigitPrefixSplits(s[1..]);
      assert s == [s[0]] + s[1..];
    }
  }

  lemma BeginsRead(s: string, v: int, fallback: int)
    requires Begins(s, v)
    ensures ParseIntOr(s, fallback) == if v == 0 then fallback else v
  {
    var pre, sign, digits, rest :|
      && AllSpace(pre) && (sign == "" || sign == "+" || sign == "-") && digits != "" && AllDigits(digits)
      && (rest == "" || !IsDigit(rest[0])) && s == pre + (sign + (digits + rest))
      && v == if sign == "-" then 0 - DigitsValue(digits) else DigitsValue(digits);
    var t := sign + (digits + rest);
    assert t[0] == (if sign == "" then digits[0] else sign[0]) && IsDigit(digits[0]);
    TrimStartStrips(pre, t);
    assert (if sign == "" then t else t[1..]) == digits + rest;
    DigitPrefixIs(digits, rest);
    hide TrimStart, DigitPrefix, DigitsValue;
  }

  /** A text with no number at its start, or with zero there, gives the fallback. */
  lemma NothingRead(s: string, fallback: int)
    requires forall v :: Begins(s, v) ==> v == 0
    ensures ParseIntOr(s, fallback) == fallback
  {
    var pre := TrimStartSplits(s);
    var t := TrimStart(s);
    var sign := if t != "" && (t[0] == '+' || t[0] == '-') then [t[0]] else "";
    var body := t[|sign|..];
    assert t == sign + body;
    var digits := DigitPrefix(body);
    var rest := DigitPrefixSplits(body);
    if digits == "" {
      assert DigitsValue("") == 0;
    } else {
      var v: int := if sign == "-" then 0 - DigitsValue(digits) else DigitsValue(digits);
      assert s == pre + (sign + (digits + rest));
      hide TrimStart, DigitPrefix, DigitsValue;
      assert Begins(s, v);
    }
  }

  lemma ReadFrom(s: string, fallback: int) returns (v: int)
    ensures ParseIntOr(s, fallback) == if v == 0 then fallback else v
    ensures v != 0 ==> Begins(s, v)
    ensures forall x :: Begins(s, x) ==> x == v
  {
    v := 0;
    if x :| Begins(s, x) && x != 0 {
      v := x;
      BeginsRead(s, v, fallback);
    } else {
      NothingRead(s, fallback);
    }
    forall x | Begins(s, x) ensures x == v { BeginsOnce(s, x, v); }
  }

  lemma BeginsOnce(s: string, x: int, v: int)
    requires Begins(s, x) && (Begins(s, v) || (v == 0 && forall y :: Begins(s, y) ==> y == 0))
    ensures x == v
  {
    hide ParseIntOr, Begins;
    if Begins(s, v) {
      BeginsRead(s, x, 0);
      BeginsRead(s, v, 0);
    }
  }

  /** The numbers a form sends, by what its texts begin with, in the range a browser prints exactly.
      A port outside 16 bits is refused; no port is 0. A keep-alive time is at least 1; none, or 0, is 30. */
  lemma NumbersSent(b: Browser, f: Form, v: int)
    requires Interoperable(b) && v <= SAFE_INTEGER
    ensures Begins(f.port, v) ==> PortSent(b, f) == if 0 <= v < 65536 then Some(v) else None
    ensures (forall x :: !Begins(f.port, x)) ==> PortSent(b, f) == Some(0)
    ensures Begins(f.keepAlive, v) ==> KeepAliveSent(b, f) == Some(if v == 0 then 30 else if v < 0 then 1 else v)
    ensures (forall x :: !Begins(f.keepAlive, x)) ==> KeepAliveSent(b, f) == Some(30)
  {
    var port := ReadFrom(f.port, 0);
    var secs := ReadFrom(f.keepAlive, 30);
    hide ParseIntOr, Begins;
    ArrivesIf(b, v, U16_LIMIT);
    ArrivesIf(b, 0, U16_LIMIT);
    ArrivesIf(b, v, U64_LIMIT);
    ArrivesIf(b, 1, U64_LIMIT);
    ArrivesIf(b, 30, U64_LIMIT);
    hide Arriving;
  }

  lemma ArrivesIf(b: Browser, v: int, limit: nat)
    requires Interoperable(b) && v <= SAFE_INTEGER
    ensures Arriving(b, v, limit) == if 0 <= v < limit then Some(v) else None
  {
    if v >= 0 { DecimalValue(v); }
  }

  /** What can happen to a secret's input: a text is typed into it, or a Clear button, which only the
      password has, is pressed. */
  datatype Touch = Type(text: string) | PressClear

  function Touched(input: SecretInput, touches: seq<Touch>): SecretInput {
    if touches == [] then input
    else match touches[|touches| - 1]
      case Type(text) => SecretInput(text, true)
      case PressClear => SecretInput("", true)
  }

  /** What a submitted form stores, however it has been edited: each setting is what its own input
      says, and numbers are read from the start of their texts. */
  lemma FormStored(b: Browser, c: Config, f: Form)
    requires Submit(b, f).Some?
    ensures var m, after := Saved(b, c, f).mqtt, Saved(b, c, f);
            && m.host == f.host && Some(m.port) == PortSent(b, f) && m.useTls == f.useTls && m.clientId == f.clientId
            && m.topicPrefix == f.topicPrefix && m.healthTopic == f.healthTopic
            && StoredText(Some(f.username), m.username) && StoredText(Some(f.caCert), m.caCertPath)
            && StoredText(Some(f.clientCert), m.clientCertPath) && StoredText(Some(f.clientKey), m.clientKeyPath)
            && m.rememberSecrets == f.remember && m.retain == f.retain
            && KeepAliveSent(b, f).Some? && m.keepAliveSecs == (if KeepAliveSent(b, f).value == 0 then 1
                                                                else KeepAliveSent(b, f).value)
            && m.payloadFormat == f.payload && m.deviceTopicPrefix == f.deviceTopic && m.autostart == f.autostart
            && after.theme == f.theme && after.discoverOnStart == f.discoverOnStart
  {
    hide PortSent, KeepAliveSent, Put, StoredText;
    PutStores(c, Submit(b, f).value);
  }

  /** A secret whose input was not touched stays; otherwise the last touch decides: a text typed is
      the new secret, and an input left empty, by the Clear button or by hand, clears it. */
  lemma SecretsStored(b: Browser, c: Config, f: Form, password: seq<Touch>, passphrase: seq<Touch>)
    requires f.password == Touched(SecretInput("", false), password)
    requires f.passphrase == Touched(SecretInput("", false), passphrase)
    requires Submit(b, f).Some?
    ensures var m := Saved(b, c, f).mqtt;
            && m.password == AfterTouches(c.mqtt.password, password)
            && m.clientKeyPassphrase == AfterTouches(c.mqtt.clientKeyPassphrase, passphrase)
  {
    hide PortSent, KeepAliveSent, Put, StoredText;
    PutStores(c, Submit(b, f).value);
  }

  function AfterTouches(secret: Option<string>, touches: seq<Touch>): Option<string> {
    if touches == [] then secret
    else
      var last := touches[|touches| - 1];
      if last.PressClear? || last.text == "" then None else Some(last.text)
  }

  // ---- saves compose ----

  /** Keep, clear and replace compose: a later update wins unless it keeps. */
  function ThenUpdate<T>(first: Option<T>, second: Option<T>): Option<T> {
    if second.Some? then second else first
  }

  function Then(first: SettingsReq, second: SettingsReq): SettingsReq {
    second.(password := ThenUpdate(first.password, second.password),
            clientKeyPassphrase := ThenUpdate(first.clientKeyPassphrase, second.clientKeyPassphrase),
            theme := ThenUpdate(first.theme, second.theme),
            discoverOnStart := ThenUpdate(first.discoverOnStart, second.discoverOnStart))
  }

  lemma ThenAssociative(p: SettingsReq, q: SettingsReq, r: SettingsReq)
    ensures Then(Then(p, q), r) == Then(p, Then(q, r))
  {
  }

  function PutAll(c: Config, reqs: seq<SettingsReq>): Config
    decreases |reqs|
  {
    if reqs == [] then c else PutAll(Put(c, reqs[0]), reqs[1..])
  }

  function Composed(reqs: seq<SettingsReq>): SettingsReq
    requires reqs != []
  {
    if |reqs| == 1 then reqs[0] else Then(reqs[0], Composed(reqs[1..]))
  }

  lemma TwoSaves(c: Config, first: SettingsReq, second: SettingsReq)
    ensures Put(Put(c, first), second) == Put(c, Then(first, second))
  {
    hide NonEmpty, AtLeastOne;
  }

  /** Any run of saves is one save. */
  lemma {:induction false} SavesCompose(c: Config, reqs: seq<SettingsReq>)
    requires reqs != []
    ensures PutAll(c, reqs) == Put(c, Composed(reqs))
    decreases |reqs|
  {
    hide Put, Then;
    if |reqs| > 1 {
      SavesCompose(Put(c, reqs[0]), reqs[1..]);
      TwoSaves(c, reqs[0], Composed(reqs[1..]));
    } else {
      assert PutAll(Put(c, reqs[0]), reqs[1..]) == Put(c, reqs[0]);
    }
  }
}
