/** The environment's overrides of the stored configuration, applied at every start. */
module EnvConfig {
  import opened Text
  import opened Identity
  import opened Model
  import opened Points
  import Settings

  /** The `REPUBLISHER_` variables, in the order they are read. */
  datatype Key =
    | ProtocolVar | HostVar | PortVar | TlsVar | ClientIdVar | TopicPrefixVar | HealthTopicVar
    | UsernameVar | PasswordVar | PasswordEnvVar | CaCertVar | ClientCertVar | ClientKeyVar | PassphraseVar
    | RetainVar | KeepAliveVar | PayloadFormatVar | DeviceTopicPrefixVar | AutostartVar | DiscoverVar
    | ConnectionVar | PointsVar

  const KEYS: nat := 22

  function Rank(k: Key): (n: nat)
    ensures n < KEYS
  {
    match k
    case ProtocolVar => 0 case HostVar => 1 case PortVar => 2 case TlsVar => 3 case ClientIdVar => 4
    case TopicPrefixVar => 5 case HealthTopicVar => 6 case UsernameVar => 7 case PasswordVar => 8
    case PasswordEnvVar => 9 case CaCertVar => 10 case ClientCertVar => 11 case ClientKeyVar => 12
    case PassphraseVar => 13 case RetainVar => 14 case KeepAliveVar => 15 case PayloadFormatVar => 16
    case DeviceTopicPrefixVar => 17 case AutostartVar => 18 case DiscoverVar => 19 case ConnectionVar => 20
    case PointsVar => 21
  }

  /** The environment: the variables, the lookup `password_env` names a secret in, and JSON parsing. */
  datatype World = World(
    vars: map<Key, string>, secret: string -> Option<string>,
    parseObject: string -> Option<Addressing>, parsePoints: string -> Option<seq<PointConfig>>)

  // ---- reading one variable ----

  /** A variable that is unset or blank has no value. */
  function Env(w: World, k: Key): Option<string> {
    if k in w.vars && Trim(w.vars[k]) != "" then Some(w.vars[k]) else None
  }

  function ParseFlag(raw: string): Option<bool> {
    var word := ToLower(Trim(raw));
    if word == "1" || word == "true" || word == "yes" || word == "on" then Some(true)
    else if word == "0" || word == "false" || word == "no" || word == "off" then Some(false)
    else None
  }

  function ParsePort(raw: string): Option<nat> {
    ParseUnsigned(Trim(raw), U16_LIMIT)
  }

  function ParseSeconds(raw: string): Option<nat> {
    var secs := ParseUnsigned(Trim(raw), U64_LIMIT);
    if secs.Some? then Some(Settings.AtLeastOne(secs.value)) else None
  }

  function ParseFormat(raw: string): Option<PayloadFormat> {
    var word := ToLower(Trim(raw));
    if word == "scalar" then Some(Scalar)
    else if word == "netix_envelope" || word == "envelope" then Some(NetixEnvelope)
    else None
  }

  // ---- what the readers accept ----

  /** The text is this word, in any case, with white space around it. */
  ghost predicate IsWord(raw: string, word: string) {
    exists t :: Stripped(raw, t) && SameLetters(t, word)
  }

  /** The same letters, where `t` may have some of them in upper case. */
  predicate SameLetters(t: string, word: string) {
    && |t| == |word|
    && forall i :: 0 <= i < |word| ==>
         t[i] == word[i] || ('A' <= t[i] <= 'Z' && word[i] as int == t[i] as int + 32)
  }

  predicate LowerCase(word: string) {
    forall i :: 0 <= i < |word| ==> !('A' <= word[i] <= 'Z')
  }

  lemma LoweredIs(t: string, word: string)
    requires LowerCase(word)
    ensures ToLower(t) == word <==> SameLetters(t, word)
  {
    var lowered := ToLower(t);
    if lowered == word {
      forall i | 0 <= i < |word|
        ensures t[i] == word[i] || ('A' <= t[i] <= 'Z' && word[i] as int == t[i] as int + 32)
      {
        assert word[i] == lowered[i];
      }
    }
    if SameLetters(t, word) {
      forall i | 0 <= i < |word| ensures lowered[i] == word[i] {
        assert !('A' <= word[i] <= 'Z');
      }
    }
  }

  lemma WordIs(raw: string, word: string)
    requires LowerCase(word)
    ensures ToLower(Trim(raw)) == word <==> IsWord(raw, word)
  {
    hide ToLower, Trim, Stripped, SameLetters;
    LoweredIs(Trim(raw), word);
    TrimIs(raw, Trim(raw));
    if IsWord(raw, word) {
      var t :| Stripped(raw, t) && SameLetters(t, word);
      TrimIs(raw, t);
    }
  }

  ghost predicate SaysTrue(raw: string) {
    IsWord(raw, "1") || IsWord(raw, "true") || IsWord(raw, "yes") || IsWord(raw, "on")
  }

  ghost predicate SaysFalse(raw: string) {
    IsWord(raw, "0") || IsWord(raw, "false") || IsWord(raw, "no") || IsWord(raw, "off")
  }

  lemma FlagWords(raw: string)
    ensures ParseFlag(raw) == Some(true) <==> SaysTrue(raw)
    ensures ParseFlag(raw) == Some(false) <==> SaysFalse(raw)
    ensures ParseFlag(raw).None? <==> !SaysTrue(raw) && !SaysFalse(raw)
  {
    hide ToLower, Trim, IsWord;
    WordIs(raw, "1");
    WordIs(raw, "true");
    WordIs(raw, "yes");
    WordIs(raw, "on");
    WordIs(raw, "0");
    WordIs(raw, "false");
    WordIs(raw, "no");
    WordIs(raw, "off");
  }

  lemma FormatWords(raw: string)
    ensures ParseFormat(raw) == Some(Scalar) <==> IsWord(raw, "scalar")
    ensures ParseFormat(raw) == Some(NetixEnvelope) <==> IsWord(raw, "netix_envelope") || IsWord(raw, "envelope")
    ensures ParseFormat(raw).None? <==>
            !IsWord(raw, "scalar") && !IsWord(raw, "netix_envelope") && !IsWord(raw, "envelope")
  {
    hide ToLower, Trim, IsWord;
    WordIs(raw, "scalar");
    WordIs(raw, "netix_envelope");
    WordIs(raw, "envelope");
  }

  /** A port is a spelled number of 16 bits, a time one of 64 bits that counts as 1 at least. */
  lemma NumbersRead(raw: string, n: nat)
    ensures ParsePort(raw) == Some(n) <==> n < 65536 && Spells(raw, n)
    ensures ParseSeconds(raw) == Some(n) <==>
            || (2 <= n < 0x1_0000_0000_0000_0000 && Spells(raw, n))
            || (n == 1 && (Spells(raw, 0) || Spells(raw, 1)))
  {
    hide Trim, ParseUnsigned, Spells;
    ReadsSpelled(raw, U16_LIMIT, n);
    ReadsSpelled(raw, U64_LIMIT, n);
    ReadsSpelled(raw, U64_LIMIT, 0);
    ReadsSpelled(raw, U64_LIMIT, 1);
  }

  /** A variable has a value when it holds more than white space. */
  lemma SetWhen(w: World, k: Key)
    ensures Env(w, k) == if k in w.vars && !AllSpace(w.vars[k]) then Some(w.vars[k]) else None
  {
    if k in w.vars {
      hide Trim;
      TrimIs(w.vars[k], "");
      Settings.BlankStrips(w.vars[k]);
    }
  }

  datatype Fault = Unreadable(key: Key) | NoProtocol

  function FaultKey(f: Fault): Key {
    match f
    case Unreadable(key) => key
    case NoProtocol => ConnectionVar
  }

  predicate Readable(w: World, k: Key, raw: string) {
    match k
    case PortVar => ParsePort(raw).Some?
    case KeepAliveVar => ParseSeconds(raw).Some?
    case PayloadFormatVar => ParseFormat(raw).Some?
    case ConnectionVar => w.parseObject(raw).Some?
    case PointsVar => w.parsePoints(raw).Some?
    case _ => (k.TlsVar? || k.RetainVar? || k.AutostartVar? || k.DiscoverVar?) ==> ParseFlag(raw).Some?
  }

  /** Why a set variable is refused, if it is. */
  function FaultOf(w: World, c: Config, k: Key): Option<Fault> {
    if Env(w, k).None? then None
    else if !Readable(w, k, Env(w, k).value) then Some(Unreadable(k))
    else if k.ConnectionVar? && ProtocolAfter(w, KEYS, c) == "" then Some(NoProtocol)
    else None
  }

  lemma NumberUnread(raw: string)
    ensures ParsePort(raw).None? <==> forall n: nat :: n < 65536 ==> !Spells(raw, n)
    ensures ParseSeconds(raw).None? <==> forall n: nat :: n < 0x1_0000_0000_0000_0000 ==> !Spells(raw, n)
  {
    hide Spells, Trim;
    forall n: nat ensures ParseUnsigned(Trim(raw), U16_LIMIT) == Some(n) <==> n < 65536 && Spells(raw, n) {
      ReadsSpelled(raw, U16_LIMIT, n);
    }
    forall n: nat
      ensures ParseUnsigned(Trim(raw), U64_LIMIT) == Some(n) <==> n < 0x1_0000_0000_0000_0000 && Spells(raw, n)
    {
      ReadsSpelled(raw, U64_LIMIT, n);
    }
    hide ParseUnsigned;
  }

  lemma BlankProtocol(w: World, c: Config)
    ensures ProtocolAfter(w, KEYS, c) == "" <==>
            if Env(w, ProtocolVar).Some? then AllSpace(Env(w, ProtocolVar).value) else c.protocol == ""
  {
    assert Value(w, KEYS, ProtocolVar) == Env(w, ProtocolVar);
    if Env(w, ProtocolVar).Some? {
      TrimIs(Env(w, ProtocolVar).value, "");
      Settings.BlankStrips(Env(w, ProtocolVar).value);
    }
    hide Env, Trim;
  }

  /** Exactly when a set variable is refused, by the text it holds; a connection is also refused when
      the overrides leave no protocol for it. */
  lemma RefusedWhen(w: World, c: Config, k: Key)
    ensures FaultOf(w, c, k).Some? <==>
            Env(w, k).Some? &&
            var raw := Env(w, k).value;
            match k
            case PortVar => forall n: nat :: n < 65536 ==> !Spells(raw, n)
            case KeepAliveVar => forall n: nat :: n < 0x1_0000_0000_0000_0000 ==> !Spells(raw, n)
            case PayloadFormatVar =>
              !IsWord(raw, "scalar") && !IsWord(raw, "netix_envelope") && !IsWord(raw, "envelope")
            case ConnectionVar =>
              w.parseObject(raw).None? ||
              (if Env(w, ProtocolVar).Some? then AllSpace(Env(w, ProtocolVar).value) else c.protocol == "")
            case PointsVar => w.parsePoints(raw).None?
            case _ =>
              && (k.TlsVar? || k.RetainVar? || k.AutostartVar? || k.DiscoverVar?)
              && !SaysTrue(raw) && !SaysFalse(raw)
  {
    hide Env, Spells, IsWord, SaysTrue, SaysFalse, ParsePort, ParseSeconds, ParseFlag, ParseFormat, ProtocolAfter;
    if Env(w, k).Some? {
      NumberUnread(Env(w, k).value);
      FlagWords(Env(w, k).value);
      FormatWords(Env(w, k).value);
      BlankProtocol(w, c);
    }
  }

  // ---- the overridden configuration, field by field ----

  /** The value of a variable among the first `n`. */
  function Value(w: World, n: nat, k: Key): Option<string> {
    if Rank(k) < n then Env(w, k) else None
  }

  function Plain(w: World, n: nat, k: Key, stored: string): string {
    Settings.GetOr(Value(w, n, k), stored)
  }

  function Optional(w: World, n: nat, k: Key, stored: Option<string>): Option<string> {
    if Value(w, n, k).Some? then Value(w, n, k) else stored
  }

  function Flag(w: World, n: nat, k: Key, stored: bool): bool {
    var value := Value(w, n, k);
    if value.Some? then Settings.GetOr(ParseFlag(value.value), stored) else stored
  }

  function Port(w: World, n: nat, stored: nat): nat {
    var value := Value(w, n, PortVar);
    if value.Some? then Settings.GetOr(ParsePort(value.value), stored) else stored
  }

  function KeepAlive(w: World, n: nat, stored: nat): nat {
    var value := Value(w, n, KeepAliveVar);
    if value.Some? then Settings.GetOr(ParseSeconds(value.value), stored) else stored
  }

  function Format(w: World, n: nat, stored: PayloadFormat): PayloadFormat {
    var value := Value(w, n, PayloadFormatVar);
    if value.Some? then Settings.GetOr(ParseFormat(value.value), stored) else stored
  }

  function ProtocolAfter(w: World, n: nat, c: Config): string {
    var value := Value(w, n, ProtocolVar);
    if value.Some? then Trim(value.value) else c.protocol
  }

  /** The secret `password_env` names if there is one, else the password given directly, else the stored one. */
  function PasswordAfter(w: World, n: nat, stored: Option<string>): Option<string> {
    var name := Value(w, n, PasswordEnvVar);
    if name.Some? && w.secret(name.value).Some? then w.secret(name.value) else Optional(w, n, PasswordVar, stored)
  }

  /** The stored fields of a protocol, then those the environment gives. */
  function ConnectionsAfter(w: World, n: nat, c: Config): map<string, Addressing> {
    var value := Value(w, n, ConnectionVar);
    if value.Some? && w.parseObject(value.value).Some? then
      var target := ProtocolAfter(w, n, c);
      var stored := if target in c.connections then c.connections[target] else map[];
      c.connections[target := stored + w.parseObject(value.value).value]
    else c.connections
  }

  function PointsAfter(w: World, n: nat, c: Config): seq<PointConfig> {
    var value := Value(w, n, PointsVar);
    if value.Some? && w.parsePoints(value.value).Some? then Merge(c.points, w.parsePoints(value.value).value)
    else c.points
  }

  predicate BrokerOverridden(w: World, n: nat, m: Mqtt, after: Mqtt) {
    && after.host == Plain(w, n, HostVar, m.host) && after.port == Port(w, n, m.port)
    && after.useTls == Flag(w, n, TlsVar, m.useTls) && after.clientId == Plain(w, n, ClientIdVar, m.clientId)
    && after.topicPrefix == Plain(w, n, TopicPrefixVar, m.topicPrefix)
    && after.healthTopic == Plain(w, n, HealthTopicVar, m.healthTopic)
  }

  predicate SecretsOverridden(w: World, n: nat, m: Mqtt, after: Mqtt) {
    && after.username == Optional(w, n, UsernameVar, m.username)
    && after.password == PasswordAfter(w, n, m.password)
    && after.passwordEnv == Optional(w, n, PasswordEnvVar, m.passwordEnv)
    && after.caCertPath == Optional(w, n, CaCertVar, m.caCertPath)
    && after.clientCertPath == Optional(w, n, ClientCertVar, m.clientCertPath)
    && after.clientKeyPath == Optional(w, n, ClientKeyVar, m.clientKeyPath)
    && after.clientKeyPassphrase == Optional(w, n, PassphraseVar, m.clientKeyPassphrase)
    && after.rememberSecrets == m.rememberSecrets
  }

  predicate PublishingOverridden(w: World, n: nat, m: Mqtt, after: Mqtt) {
    && after.retain == Flag(w, n, RetainVar, m.retain) && after.keepAliveSecs == KeepAlive(w, n, m.keepAliveSecs)
    && after.payloadFormat == Format(w, n, m.payloadFormat)
    && after.deviceTopicPrefix == Plain(w, n, DeviceTopicPrefixVar, m.deviceTopicPrefix)
    && after.autostart == Flag(w, n, AutostartVar, m.autostart)
  }

  predicate DataOverridden(w: World, n: nat, c: Config, after: Config) {
    && after.protocol == ProtocolAfter(w, n, c) && after.theme == c.theme
    && after.discoverOnStart == Flag(w, n, DiscoverVar, c.discoverOnStart)
    && after.connections == ConnectionsAfter(w, n, c) && after.points == PointsAfter(w, n, c)
  }

  /** After the first `n` variables each field is the parsed value if its variable is set, else
      the stored one. */
  predicate Overridden(w: World, n: nat, c: Config, after: Config) {
    && BrokerOverridden(w, n, c.mqtt, after.mqtt) && SecretsOverridden(w, n, c.mqtt, after.mqtt)
    && PublishingOverridden(w, n, c.mqtt, after.mqtt) && DataOverridden(w, n, c, after)
  }

  // ---- one assignment at a time ----

  datatype Note = Note(key: Key, unresolved: bool)

  function NoteOf(w: World, k: Key): Note {
    Note(k, k.PasswordEnvVar? && Env(w, k).Some? && w.secret(Env(w, k).value).None?)
  }

  predicate IsBroker(k: Key) {
    k.HostVar? || k.PortVar? || k.TlsVar? || k.ClientIdVar? || k.TopicPrefixVar? || k.HealthTopicVar?
  }

  predicate IsSecret(k: Key) {
    k.UsernameVar? || k.PasswordVar? || k.PasswordEnvVar? || k.CaCertVar? || k.ClientCertVar?
    || k.ClientKeyVar? || k.PassphraseVar?
  }

  predicate IsPublishing(k: Key) {
    k.RetainVar? || k.KeepAliveVar? || k.PayloadFormatVar? || k.DeviceTopicPrefixVar? || k.AutostartVar?
  }

  predicate IsData(k: Key) {
    k.ProtocolVar? || k.DiscoverVar? || k.ConnectionVar? || k.PointsVar?
  }

  function AssignBroker(m: Mqtt, k: Key, raw: string): Mqtt
    requires IsBroker(k)
  {
    match k
    case HostVar => m.(host := raw)
    case PortVar => m.(port := Settings.GetOr(ParsePort(raw), m.port))
    case TlsVar => m.(useTls := Settings.GetOr(ParseFlag(raw), m.useTls))
    case ClientIdVar => m.(clientId := raw)
    case TopicPrefixVar => m.(topicPrefix := raw)
    case HealthTopicVar => m.(healthTopic := raw)
  }

  function AssignSecret(w: World, m: Mqtt, k: Key, raw: string): Mqtt
    requires IsSecret(k)
  {
    match k
    case UsernameVar => m.(username := Some(raw))
    case PasswordVar => m.(password := Some(raw))
    case PasswordEnvVar =>
      m.(passwordEnv := Some(raw), password := if w.secret(raw).Some? then w.secret(raw) else m.password)
    case CaCertVar => m.(caCertPath := Some(raw))
    case ClientCertVar => m.(clientCertPath := Some(raw))
    case ClientKeyVar => m.(clientKeyPath := Some(raw))
    case PassphraseVar => m.(clientKeyPassphrase := Some(raw))
  }

  function AssignPublishing(m: Mqtt, k: Key, raw: string): Mqtt
    requires IsPublishing(k)
  {
    match k
    case RetainVar => m.(retain := Settings.GetOr(ParseFlag(raw), m.retain))
    case KeepAliveVar => m.(keepAliveSecs := Settings.GetOr(ParseSeconds(raw), m.keepAliveSecs))
    case PayloadFormatVar => m.(payloadFormat := Settings.GetOr(ParseFormat(raw), m.payloadFormat))
    case DeviceTopicPrefixVar => m.(deviceTopicPrefix := raw)
    case AutostartVar => m.(autostart := Settings.GetOr(ParseFlag(raw), m.autostart))
  }

  function AssignData(w: World, c: Config, k: Key, raw: string): Config
    requires IsData(k)
  {
    match k
    case ProtocolVar => c.(protocol := Trim(raw))
    case DiscoverVar => c.(discoverOnStart := Settings.GetOr(ParseFlag(raw), c.discoverOnStart))
    case ConnectionVar =>
      if w.parseObject(raw).Some? then
        c.(connections := c.connections[c.protocol := Connection(c) + w.parseObject(raw).value])
      else c
    case PointsVar =>
      if w.parsePoints(raw).Some? then c.(points := Merge(c.points, w.parsePoints(raw).value)) else c
  }

  /** What is assigned when a variable is set and readable. */
  function Assigned(w: World, c: Config, k: Key, raw: string): Config {
    if IsBroker(k) then c.(mqtt := AssignBroker(c.mqtt, k, raw))
    else if IsSecret(k) then c.(mqtt := AssignSecret(w, c.mqtt, k, raw))
    else if IsPublishing(k) then c.(mqtt := AssignPublishing(c.mqtt, k, raw))
    else AssignData(w, c, k, raw)
  }

  lemma ValueGrows(w: World, k: Key)
    ensures forall j :: Value(w, Rank(k) + 1, j) == if j == k then Env(w, k) else Value(w, Rank(k), j)
    ensures Value(w, Rank(k), k) == None
  {
    hide Env;
  }

  /** The configuration after one more variable. */
  function Stepped(w: World, c: Config, k: Key): Config {
    if Env(w, k).Some? then Assigned(w, c, k, Env(w, k).value) else c
  }

  // Each group of fields is the concern of its own variables only.

  predicate SameBroker(m: Mqtt, after: Mqtt) {
    && after.host == m.host && after.port == m.port && after.useTls == m.useTls && after.clientId == m.clientId
    && after.topicPrefix == m.topicPrefix && after.healthTopic == m.healthTopic
  }

  predicate SameSecrets(m: Mqtt, after: Mqtt) {
    && after.username == m.username && after.password == m.password && after.passwordEnv == m.passwordEnv
    && after.caCertPath == m.caCertPath && after.clientCertPath == m.clientCertPath
    && after.clientKeyPath == m.clientKeyPath && after.clientKeyPassphrase == m.clientKeyPassphrase
    && after.rememberSecrets == m.rememberSecrets
  }

  predicate SamePublishing(m: Mqtt, after: Mqtt) {
    && after.retain == m.retain && after.keepAliveSecs == m.keepAliveSecs && after.payloadFormat == m.payloadFormat
    && after.deviceTopicPrefix == m.deviceTopicPrefix && after.autostart == m.autostart
  }

  lemma BrokerFrame(m: Mqtt, k: Key, raw: string)
    requires IsBroker(k)
    ensures SameSecrets(m, AssignBroker(m, k, raw)) && SamePublishing(m, AssignBroker(m, k, raw))
  {
    hide ParsePort, ParseFlag;
  }

  lemma SecretFrame(w: World, m: Mqtt, k: Key, raw: string)
    requires IsSecret(k)
    ensures SameBroker(m, AssignSecret(w, m, k, raw)) && SamePublishing(m, AssignSecret(w, m, k, raw))
  {
  }

  lemma PublishingFrame(m: Mqtt, k: Key, raw: string)
    requires IsPublishing(k)
    ensures SameBroker(m, AssignPublishing(m, k, raw)) && SameSecrets(m, AssignPublishing(m, k, raw))
  {
    hide ParseSeconds, ParseFormat, ParseFlag;
  }

  lemma BrokerStep(w: World, m: Mqtt, now: Mqtt, k: Key, raw: string)
    requires BrokerOverridden(w, Rank(k), m, now) && IsBroker(k) && Env(w, k) == Some(raw)
    ensures BrokerOverridden(w, Rank(k) + 1, m, AssignBroker(now, k, raw))
  {
    ValueGrows(w, k);
    hide Value, Rank, Env, ParseFlag, ParsePort;
  }

  lemma OptionalGrows(w: World, k: Key, j: Key, stored: Option<string>)
    ensures Optional(w, Rank(k) + 1, j, stored) ==
            if j == k && Env(w, k).Some? then Env(w, k) else Optional(w, Rank(k), j, stored)
  {
    ValueGrows(w, k);
    hide Value, Rank, Env;
  }

  lemma PasswordGrows(w: World, k: Key, raw: string, stored: Option<string>)
    requires IsSecret(k) && Env(w, k) == Some(raw)
    ensures PasswordAfter(w, Rank(k) + 1, stored) ==
            if k.PasswordVar? then Some(raw)
            else if k.PasswordEnvVar? && w.secret(raw).Some? then w.secret(raw)
            else PasswordAfter(w, Rank(k), stored)
  {
    ValueGrows(w, k);
    assert k.PasswordVar? ==> Value(w, Rank(k), PasswordEnvVar) == None;
    hide Value, Rank, Env;
  }

  lemma SecretStep(w: World, m: Mqtt, now: Mqtt, k: Key, raw: string)
    requires SecretsOverridden(w, Rank(k), m, now) && IsSecret(k) && Env(w, k) == Some(raw)
    ensures SecretsOverridden(w, Rank(k) + 1, m, AssignSecret(w, now, k, raw))
  {
    hide Optional, PasswordAfter, Rank, Env;
    PasswordGrows(w, k, raw, m.password);
    OptionalGrows(w, k, UsernameVar, m.username);
    OptionalGrows(w, k, PasswordEnvVar, m.passwordEnv);
    OptionalGrows(w, k, CaCertVar, m.caCertPath);
    OptionalGrows(w, k, ClientCertVar, m.clientCertPath);
    OptionalGrows(w, k, ClientKeyVar, m.clientKeyPath);
    OptionalGrows(w, k, PassphraseVar, m.clientKeyPassphrase);
  }

  lemma PublishingStep(w: World, m: Mqtt, now: Mqtt, k: Key, raw: string)
    requires PublishingOverridden(w, Rank(k), m, now) && IsPublishing(k) && Env(w, k) == Some(raw)
    ensures PublishingOverridden(w, Rank(k) + 1, m, AssignPublishing(now, k, raw))
  {
    ValueGrows(w, k);
    hide Value, Rank, Env, ParseFlag, ParseFormat, ParseSeconds;
  }

  lemma ConnectionStep(w: World, c: Config, now: Config, raw: string)
    requires DataOverridden(w, Rank(ConnectionVar), c, now) && Env(w, ConnectionVar) == Some(raw)
    ensures DataOverridden(w, Rank(ConnectionVar) + 1, c, AssignData(w, now, ConnectionVar, raw))
  {
    ValueGrows(w, ConnectionVar);
    hide Value, Rank, Env, Trim, ParseFlag, Merge;
  }

  lemma DataStep(w: World, c: Config, now: Config, k: Key, raw: string)
    requires DataOverridden(w, Rank(k), c, now) && IsData(k) && Env(w, k) == Some(raw)
    ensures DataOverridden(w, Rank(k) + 1, c, AssignData(w, now, k, raw))
  {
    if k.ConnectionVar? {
      hide *;
      ConnectionStep(w, c, now, raw);
    } else {
      ValueGrows(w, k);
      assert ConnectionsAfter(w, Rank(k) + 1, c) == ConnectionsAfter(w, Rank(k), c) by {
        assert k.ProtocolVar? ==> Value(w, Rank(k), ConnectionVar) == None;
        hide Value, Rank, Env;
      }
      hide Value, Rank, Env, Trim, ParseFlag, Merge, ConnectionsAfter;
    }
  }

  lemma BrokerIdle(w: World, m: Mqtt, now: Mqtt, after: Mqtt, k: Key)
    requires BrokerOverridden(w, Rank(k), m, now) && SameBroker(now, after) && (!IsBroker(k) || Env(w, k).None?)
    ensures BrokerOverridden(w, Rank(k) + 1, m, after)
  {
    ValueGrows(w, k);
    hide Value, Rank, Env, ParseFlag, ParsePort;
  }

  lemma PasswordIdle(w: World, k: Key, stored: Option<string>)
    requires (k != PasswordVar && k != PasswordEnvVar) || Env(w, k).None?
    ensures PasswordAfter(w, Rank(k) + 1, stored) == PasswordAfter(w, Rank(k), stored)
  {
    ValueGrows(w, k);
    hide Value, Rank, Env;
  }

  lemma SecretsIdle(w: World, m: Mqtt, now: Mqtt, after: Mqtt, k: Key)
    requires SecretsOverridden(w, Rank(k), m, now) && SameSecrets(now, after) && (!IsSecret(k) || Env(w, k).None?)
    ensures SecretsOverridden(w, Rank(k) + 1, m, after)
  {
    hide Optional, PasswordAfter, Rank, Env;
    OptionalGrows(w, k, UsernameVar, m.username);
    PasswordIdle(w, k, m.password);
    OptionalGrows(w, k, PasswordEnvVar, m.passwordEnv);
    OptionalGrows(w, k, CaCertVar, m.caCertPath);
    OptionalGrows(w, k, ClientCertVar, m.clientCertPath);
    OptionalGrows(w, k, ClientKeyVar, m.clientKeyPath);
    OptionalGrows(w, k, PassphraseVar, m.clientKeyPassphrase);
  }

  lemma PublishingIdle(w: World, m: Mqtt, now: Mqtt, after: Mqtt, k: Key)
    requires PublishingOverridden(w, Rank(k), m, now) && SamePublishing(now, after)
    requires !IsPublishing(k) || Env(w, k).None?
    ensures PublishingOverridden(w, Rank(k) + 1, m, after)
  {
    ValueGrows(w, k);
    hide Value, Rank, Env, ParseFlag, ParseFormat, ParseSeconds;
  }

  lemma DataIdle(w: World, c: Config, now: Config, after: Config, k: Key)
    requires DataOverridden(w, Rank(k), c, now) && after == now.(mqtt := after.mqtt)
    requires !IsData(k) || Env(w, k).None?
    ensures DataOverridden(w, Rank(k) + 1, c, after)
  {
    ValueGrows(w, k);
    hide Value, Rank, Env, ParseFlag, Merge, Trim;
  }

  lemma DataFrame(w: World, c: Config, k: Key, raw: string)
    requires IsData(k)
    ensures AssignData(w, c, k, raw).mqtt == c.mqtt
  {
    hide Merge, ParseFlag, Trim;
  }

  lemma BrokerCase(w: World, c: Config, now: Config, k: Key, raw: string)
    requires Overridden(w, Rank(k), c, now) && IsBroker(k) && Env(w, k) == Some(raw)
    ensures Overridden(w, Rank(k) + 1, c, Assigned(w, now, k, raw))
  {
    hide Env, Rank, AssignBroker, AssignSecret, AssignPublishing, AssignData,
         BrokerOverridden, SecretsOverridden, PublishingOverridden, DataOverridden,
         SameBroker, SameSecrets, SamePublishing;
    var after := Assigned(w, now, k, raw);
    BrokerStep(w, c.mqtt, now.mqtt, k, raw);
    BrokerFrame(now.mqtt, k, raw);
    SecretsIdle(w, c.mqtt, now.mqtt, after.mqtt, k);
    PublishingIdle(w, c.mqtt, now.mqtt, after.mqtt, k);
    DataIdle(w, c, now, after, k);
  }

  lemma SecretCase(w: World, c: Config, now: Config, k: Key, raw: string)
    requires Overridden(w, Rank(k), c, now) && IsSecret(k) && Env(w, k) == Some(raw)
    ensures Overridden(w, Rank(k) + 1, c, Assigned(w, now, k, raw))
  {
    hide Env, Rank, AssignBroker, AssignSecret, AssignPublishing, AssignData,
         BrokerOverridden, SecretsOverridden, PublishingOverridden, DataOverridden,
         SameBroker, SameSecrets, SamePublishing;
    var after := Assigned(w, now, k, raw);
    SecretStep(w, c.mqtt, now.mqtt, k, raw);
    SecretFrame(w, now.mqtt, k, raw);
    BrokerIdle(w, c.mqtt, now.mqtt, after.mqtt, k);
    PublishingIdle(w, c.mqtt, now.mqtt, after.mqtt, k);
    DataIdle(w, c, now, after, k);
  }

  lemma PublishingCase(w: World, c: Config, now: Config, k: Key, raw: string)
    requires Overridden(w, Rank(k), c, now) && IsPublishing(k) && Env(w, k) == Some(raw)
    ensures Overridden(w, Rank(k) + 1, c, Assigned(w, now, k, raw))
  {
    hide Env, Rank, AssignBroker, AssignSecret, AssignPublishing, AssignData,
         BrokerOverridden, SecretsOverridden, PublishingOverridden, DataOverridden,
         SameBroker, SameSecrets, SamePublishing;
    var after := Assigned(w, now, k, raw);
    PublishingStep(w, c.mqtt, now.mqtt, k, raw);
    PublishingFrame(now.mqtt, k, raw);
    BrokerIdle(w, c.mqtt, now.mqtt, after.mqtt, k);
    SecretsIdle(w, c.mqtt, now.mqtt, after.mqtt, k);
    DataIdle(w, c, now, after, k);
  }

  lemma DataCase(w: World, c: Config, now: Config, k: Key, raw: string)
    requires Overridden(w, Rank(k), c, now) && IsData(k) && Env(w, k) == Some(raw)
    ensures Overridden(w, Rank(k) + 1, c, Assigned(w, now, k, raw))
  {
    hide Env, Rank, AssignBroker, AssignSecret, AssignPublishing, AssignData,
         BrokerOverridden, SecretsOverridden, PublishingOverridden, DataOverridden;
    var after := Assigned(w, now, k, raw);
    DataStep(w, c, now, k, raw);
    DataFrame(w, now, k, raw);
    BrokerIdle(w, c.mqtt, now.mqtt, after.mqtt, k);
    SecretsIdle(w, c.mqtt, now.mqtt, after.mqtt, k);
    PublishingIdle(w, c.mqtt, now.mqtt, after.mqtt, k);
  }

  lemma UnsetCase(w: World, c: Config, now: Config, k: Key)
    requires Overridden(w, Rank(k), c, now) && Env(w, k).None?
    ensures Overridden(w, Rank(k) + 1, c, now)
  {
    hide Env, Rank, BrokerOverridden, SecretsOverridden, PublishingOverridden, DataOverridden;
    BrokerIdle(w, c.mqtt, now.mqtt, now.mqtt, k);
    SecretsIdle(w, c.mqtt, now.mqtt, now.mqtt, k);
    PublishingIdle(w, c.mqtt, now.mqtt, now.mqtt, k);
    DataIdle(w, c, now, now, k);
  }

  /** One assignment keeps every field in step with the variables read. */
  lemma Step(w: World, c: Config, now: Config, k: Key)
    requires Overridden(w, Rank(k), c, now)
    ensures Overridden(w, Rank(k) + 1, c, Stepped(w, now, k))
  {
    hide Env, Rank, Assigned, Overridden;
    if Env(w, k).None? {
      UnsetCase(w, c, now, k);
    } else {
      var raw := Env(w, k).value;
      if IsBroker(k) { BrokerCase(w, c, now, k, raw); }
      else if IsSecret(k) { SecretCase(w, c, now, k, raw); }
      else if IsPublishing(k) { PublishingCase(w, c, now, k, raw); }
      else { DataCase(w, c, now, k, raw); }
    }
  }

  // ---- the bootstrap ----

  datatype Result<T> = Success(value: T) | Failure(fault: Fault)

  const ORDER: seq<Key> := [
    ProtocolVar, HostVar, PortVar, TlsVar, ClientIdVar, TopicPrefixVar, HealthTopicVar, UsernameVar,
    PasswordVar, PasswordEnvVar, CaCertVar, ClientCertVar, ClientKeyVar, PassphraseVar, RetainVar,
    KeepAliveVar, PayloadFormatVar, DeviceTopicPrefixVar, AutostartVar, DiscoverVar, ConnectionVar, PointsVar]

  /** A note for each set variable among the first `n`, in the order they are read. */
  function Notes(w: World, n: nat): seq<Note>
    requires n <= KEYS
  {
    if n == 0 then []
    else Notes(w, n - 1) + if Env(w, ORDER[n - 1]).Some? then [NoteOf(w, ORDER[n - 1])] else []
  }

  /** The first `n` variables have been read without fault. */
  ghost predicate Reached(w: World, stored: Config, n: nat, config: Config, notes: seq<Note>) {
    && n <= KEYS && Overridden(w, n, stored, config) && notes == Notes(w, n)
    && forall k :: Rank(k) < n ==> FaultOf(w, stored, k).None?
  }

  /** The fault is the first in reading order, and no later variable has been read. */
  ghost predicate FailedAt(w: World, stored: Config, config: Config, fault: Fault) {
    var k := FaultKey(fault);
    && FaultOf(w, stored, k) == Some(fault) && Overridden(w, Rank(k), stored, config)
    && forall j :: Rank(j) < Rank(k) ==> FaultOf(w, stored, j).None?
  }

  ghost predicate Outcome(w: World, stored: Config, n: nat, config: Config, notes: seq<Note>, fault: Option<Fault>) {
    match fault
    case None => Reached(w, stored, n, config, notes)
    case Some(f) => FailedAt(w, stored, config, f)
  }

  lemma RankOrder(k: Key)
    ensures ORDER[Rank(k)] == k
  {
  }

  /** A variable is set and readable, or unset, and its assignment has been made. */
  lemma Advance(w: World, stored: Config, k: Key, before: Config, after: Config, done: seq<Note>, notes: seq<Note>)
    requires Reached(w, stored, Rank(k), before, done) && FaultOf(w, stored, k).None?
    requires after == Stepped(w, before, k)
    requires notes == if Env(w, k).Some? then done + [NoteOf(w, k)] else done
    ensures Reached(w, stored, Rank(k) + 1, after, notes)
  {
    hide Overridden, FaultOf, Assigned, Env, NoteOf;
    RankOrder(k);
    Step(w, stored, before, k);
    RankOnce(k);
  }

  lemma RankOnce(k: Key)
    ensures forall j :: Rank(j) < Rank(k) + 1 <==> Rank(j) < Rank(k) || j == k
  {
  }

  /** The protocol is settled before the connection is read. */
  lemma ProtocolReached(w: World, stored: Config, config: Config, notes: seq<Note>)
    requires Reached(w, stored, Rank(ConnectionVar), config, notes)
    ensures config.protocol == ProtocolAfter(w, KEYS, stored)
  {
    hide Env, Trim;
  }

  lemma StartReached(w: World, stored: Config)
    ensures Reached(w, stored, 0, stored, [])
  {
    hide Env;
  }

  lemma ReachedEnd(w: World, stored: Config, config: Config, notes: seq<Note>, fault: Option<Fault>)
    requires Outcome(w, stored, KEYS, config, notes, fault)
    ensures fault.None? ==> forall k :: FaultOf(w, stored, k).None?
    ensures fault.None? ==> Overridden(w, KEYS, stored, config) && notes == Notes(w, KEYS)
    ensures fault.Some? ==> FaultOf(w, stored, FaultKey(fault.value)).Some?
  {
    hide FaultOf, Overridden, Notes;
  }

  /** The configuration object the bootstrap edits in place. */
  class Loaded {
    var config: Config

    constructor (config: Config)
      ensures this.config == config
    {
      this.config := config;
    }

    method AssignBrokerField(w: World, k: Key, raw: string) returns (ok: bool)
      requires IsBroker(k)
      modifies this
      ensures ok == Readable(w, k, raw)
      ensures config == if ok then old(config).(mqtt := AssignBroker(old(config.mqtt), k, raw)) else old(config)
    {
      hide ParsePort, ParseFlag;
      ok := true;
      match k
      case HostVar => config := config.(mqtt := config.mqtt.(host := raw));
      case PortVar =>
        var port := ParsePort(raw);
        ok := port.Some?;
        if ok { config := config.(mqtt := config.mqtt.(port := port.value)); }
      case TlsVar =>
        var tls := ParseFlag(raw);
        ok := tls.Some?;
        if ok { config := config.(mqtt := config.mqtt.(useTls := tls.value)); }
      case ClientIdVar => config := config.(mqtt := config.mqtt.(clientId := raw));
      case TopicPrefixVar => config := config.(mqtt := config.mqtt.(topicPrefix := raw));
      case HealthTopicVar => config := config.(mqtt := config.mqtt.(healthTopic := raw));
    }

    method AssignSecretField(w: World, k: Key, raw: string) returns (unresolved: bool)
      requires IsSecret(k)
      modifies this
      ensures unresolved == (k.PasswordEnvVar? && w.secret(raw).None?)
      ensures config == old(config).(mqtt := AssignSecret(w, old(config.mqtt), k, raw))
    {
      unresolved := false;
      match k
      case UsernameVar => config := config.(mqtt := config.mqtt.(username := Some(raw)));
      case PasswordVar => config := config.(mqtt := config.mqtt.(password := Some(raw)));
      case PasswordEnvVar =>
        config := config.(mqtt := config.mqtt.(passwordEnv := Some(raw)));
        var secret := w.secret(raw);
        if secret.Some? {
          config := config.(mqtt := config.mqtt.(password := secret));
        } else {
          unresolved := true;
        }
      case CaCertVar => config := config.(mqtt := config.mqtt.(caCertPath := Some(raw)));
      case ClientCertVar => config := config.(mqtt := config.mqtt.(clientCertPath := Some(raw)));
      case ClientKeyVar => config := config.(mqtt := config.mqtt.(clientKeyPath := Some(raw)));
      case PassphraseVar => config := config.(mqtt := config.mqtt.(clientKeyPassphrase := Some(raw)));
    }

    method AssignPublishingField(w: World, k: Key, raw: string) returns (ok: bool)
      requires IsPublishing(k)
      modifies this
      ensures ok == Readable(w, k, raw)
      ensures config == if ok then old(config).(mqtt := AssignPublishing(old(config.mqtt), k, raw)) else old(config)
    {
      hide ParseSeconds, ParseFlag, ParseFormat;
      ok := true;
      match k
      case RetainVar =>
        var retain := ParseFlag(raw);
        ok := retain.Some?;
        if ok { config := config.(mqtt := config.mqtt.(retain := retain.value)); }
      case KeepAliveVar =>
        var secs := ParseSeconds(raw);
        ok := secs.Some?;
        if ok { config := config.(mqtt := config.mqtt.(keepAliveSecs := secs.value)); }
      case PayloadFormatVar =>
        var format := ParseFormat(raw);
        ok := format.Some?;
        if ok { config := config.(mqtt := config.mqtt.(payloadFormat := format.value)); }
      case DeviceTopicPrefixVar => config := config.(mqtt := config.mqtt.(deviceTopicPrefix := raw));
      case AutostartVar =>
        var autostart := ParseFlag(raw);
        ok := autostart.Some?;
        if ok { config := config.(mqtt := config.mqtt.(autostart := autostart.value)); }
    }

    /** Inserts each given field into the connection of the selected protocol. */
    method MergeConnection(fields: Addressing)
      modifies this
      ensures config == old(config).(
                connections := old(config.connections)[old(config.protocol) := Connection(old(config)) + fields])
    {
      var connection := Connection(config);
      var rest := fields.Keys;
      ghost var done: set<string> := {};
      while rest != {}
        invariant done !! rest && done + rest == fields.Keys
        invariant connection == Connection(config) + map k | k in done :: fields[k]
      {
        var key :| key in rest;
        connection := connection[key := fields[key]];
        rest, done := rest - {key}, done + {key};
      }
      assert (map k | k in done :: fields[k]) == fields;
      config := config.(connections := config.connections[config.protocol := connection]);
    }

    method AssignDataField(w: World, k: Key, raw: string) returns (fault: Option<Fault>)
      requires IsData(k)
      modifies this
      ensures fault == if !Readable(w, k, raw) then Some(Unreadable(k))
                       else if k.ConnectionVar? && old(config.protocol) == "" then Some(NoProtocol) else None
      ensures config == if fault.None? then AssignData(w, old(config), k, raw) else old(config)
    {
      hide ParseFlag, Trim, Connection, Merge;
      fault := None;
      match k
      case ProtocolVar => config := config.(protocol := Trim(raw));
      case DiscoverVar =>
        var discover := ParseFlag(raw);
        if discover.None? { return Some(Unreadable(k)); }
        config := config.(discoverOnStart := discover.value);
      case ConnectionVar =>
        var fields := w.parseObject(raw);
        if fields.None? { return Some(Unreadable(k)); }
        if config.protocol == "" { return Some(NoProtocol); }
        MergeConnection(fields.value);
      case PointsVar =>
        var imported := w.parsePoints(raw);
        if imported.None? { return Some(Unreadable(k)); }
        config := config.(points := Merge(config.points, imported.value));
    }

    method Assign(w: World, k: Key, raw: string) returns (fault: Option<Fault>, unresolved: bool)
      modifies this
      ensures fault == if !Readable(w, k, raw) then Some(Unreadable(k))
                       else if k.ConnectionVar? && old(config.protocol) == "" then Some(NoProtocol) else None
      ensures config == if fault.None? then Assigned(w, old(config), k, raw) else old(config)
      ensures unresolved == (k.PasswordEnvVar? && w.secret(raw).None?)
    {
      hide ParseFlag, ParseFormat, ParsePort, ParseSeconds, AssignBroker, AssignSecret, AssignPublishing, AssignData;
      fault, unresolved := None, false;
      if IsBroker(k) {
        var ok := AssignBrokerField(w, k, raw);
        fault := if ok then None else Some(Unreadable(k));
      } else if IsSecret(k) {
        unresolved := AssignSecretField(w, k, raw);
      } else if IsPublishing(k) {
        var ok := AssignPublishingField(w, k, raw);
        fault := if ok then None else Some(Unreadable(k));
      } else {
        fault := AssignDataField(w, k, raw);
      }
    }

    /** Reads one variable; a refused one changes nothing. */
    method Override(w: World, k: Key, ghost stored: Config, done: seq<Note>)
      returns (notes: seq<Note>, fault: Option<Fault>)
      requires Reached(w, stored, Rank(k), config, done)
      modifies this
      ensures Outcome(w, stored, Rank(k) + 1, config, notes, fault)
    {
      hide Overridden, Env, Readable, Assigned, Rank, ProtocolAfter;
      notes, fault := done, None;
      var raw := Env(w, k);
      if raw.Some? {
        if k.ConnectionVar? { ProtocolReached(w, stored, config, done); }
        var unresolved;
        fault, unresolved := Assign(w, k, raw.value);
        if fault.None? { notes := notes + [Note(k, unresolved)]; }
      }
      if fault.None? { Advance(w, stored, k, old(config), config, done, notes); }
    }

    method ReadBroker(w: World, ghost stored: Config, done: seq<Note>)
      returns (notes: seq<Note>, fault: Option<Fault>)
      requires Reached(w, stored, Rank(ProtocolVar), config, done)
      modifies this
      ensures Outcome(w, stored, Rank(UsernameVar), config, notes, fault)
    {
      hide Reached, FailedAt;
      notes, fault := done, None;
      if fault.None? { notes, fault := Override(w, ProtocolVar, stored, notes); }
      if fault.None? { notes, fault := Override(w, HostVar, stored, notes); }
      if fault.None? { notes, fault := Override(w, PortVar, stored, notes); }
      if fault.None? { notes, fault := Override(w, TlsVar, stored, notes); }
      if fault.None? { notes, fault := Override(w, ClientIdVar, stored, notes); }
      if fault.None? { notes, fault := Override(w, TopicPrefixVar, stored, notes); }
      if fault.None? { notes, fault := Override(w, HealthTopicVar, stored, notes); }
    }

    method ReadSecrets(w: World, ghost stored: Config, done: seq<Note>)
      returns (notes: seq<Note>, fault: Option<Fault>)
      requires Reached(w, stored, Rank(UsernameVar), config, done)
      modifies this
      ensures Outcome(w, stored, Rank(RetainVar), config, notes, fault)
    {
      hide Reached, FailedAt;
      notes, fault := done, None;
      if fault.None? { notes, fault := Override(w, UsernameVar, stored, notes); }
      if fault.None? { notes, fault := Override(w, PasswordVar, stored, notes); }
      if fault.None? { notes, fault := Override(w, PasswordEnvVar, stored, notes); }
      if fault.None? { notes, fault := Override(w, CaCertVar, stored, notes); }
      if fault.None? { notes, fault := Override(w, ClientCertVar, stored, notes); }
      if fault.None? { notes, fault := Override(w, ClientKeyVar, stored, notes); }
      if fault.None? { notes, fault := Override(w, PassphraseVar, stored, notes); }
    }

    method ReadPublishing(w: World, ghost stored: Config, done: seq<Note>)
      returns (notes: seq<Note>, fault: Option<Fault>)
      requires Reached(w, stored, Rank(RetainVar), config, done)
      modifies this
      ensures Outcome(w, stored, Rank(DiscoverVar), config, notes, fault)
    {
      hide Reached, FailedAt;
      notes, fault := done, None;
      if fault.None? { notes, fault := Override(w, RetainVar, stored, notes); }
      if fault.None? { notes, fault := Override(w, KeepAliveVar, stored, notes); }
      if fault.None? { notes, fault := Override(w, PayloadFormatVar, stored, notes); }
      if fault.None? { notes, fault := Override(w, DeviceTopicPrefixVar, stored, notes); }
      if fault.None? { notes, fault := Override(w, AutostartVar, stored, notes); }
    }

    method ReadData(w: World, ghost stored: Config, done: seq<Note>)
      returns (notes: seq<Note>, fault: Option<Fault>)
      requires Reached(w, stored, Rank(DiscoverVar), config, done)
      modifies this
      ensures Outcome(w, stored, KEYS, config, notes, fault)
    {
      hide Reached, FailedAt;
      notes, fault := done, None;
      if fault.None? { notes, fault := Override(w, DiscoverVar, stored, notes); }
      if fault.None? { notes, fault := Override(w, ConnectionVar, stored, notes); }
      if fault.None? { notes, fault := Override(w, PointsVar, stored, notes); }
    }

    /** The overrides succeed exactly when every set variable is readable, and then each field is
        its variable's value or the stored one; else they stop at the first that is not. */
    method ApplyEnvOverrides(w: World) returns (r: Result<seq<Note>>)
      modifies this
      ensures r.Success? <==> forall k :: FaultOf(w, old(config), k).None?
      ensures r.Success? ==> Overridden(w, KEYS, old(config), config) && r.value == Notes(w, KEYS)
      ensures r.Failure? ==> FailedAt(w, old(config), config, r.fault)
    {
      hide Reached, FailedAt, FaultOf, Notes;
      ghost var stored := config;
      StartReached(w, stored);
      var notes, fault := ReadBroker(w, stored, []);
      if fault.None? { notes, fault := ReadSecrets(w, stored, notes); }
      if fault.None? { notes, fault := ReadPublishing(w, stored, notes); }
      if fault.None? { notes, fault := ReadData(w, stored, notes); }
      ReachedEnd(w, stored, config, notes, fault);
      r := if fault.None? then Success(notes) else Failure(fault.value);
    }
  }

  // ---- the overridden configuration, from the environment's texts alone ----

  /** The text of a variable that holds more than white space. */
  ghost function Given(w: World, k: Key): Option<string> {
    if k in w.vars && !AllSpace(w.vars[k]) then Some(w.vars[k]) else None
  }

  ghost function GivenText(w: World, k: Key, stored: string): string {
    if Given(w, k).Some? then Given(w, k).value else stored
  }

  ghost function GivenPath(w: World, k: Key, stored: Option<string>): Option<string> {
    if Given(w, k).Some? then Given(w, k) else stored
  }

  ghost predicate Switch(w: World, k: Key, stored: bool, after: bool) {
    after <==> if Given(w, k).Some? then SaysTrue(Given(w, k).value) else stored
  }

  lemma GivenIs(w: World)
    ensures forall k :: Env(w, k) == Given(w, k) == Value(w, KEYS, k)
  {
    forall k ensures Env(w, k) == Given(w, k) == Value(w, KEYS, k) {
      SetWhen(w, k);
      assert Rank(k) < KEYS;
    }
  }

  lemma SwitchIs(w: World, c: Config, k: Key, stored: bool)
    requires k.TlsVar? || k.RetainVar? || k.AutostartVar? || k.DiscoverVar?
    requires FaultOf(w, c, k).None?
    ensures Switch(w, k, stored, Flag(w, KEYS, k, stored))
  {
    GivenIs(w);
    if Env(w, k).Some? { FlagWords(Env(w, k).value); }
    hide Env, Given, SaysTrue, SaysFalse, ParseFlag, Value;
  }

  /** What the broker settings are after overrides that were all read. */
  lemma BrokerGiven(w: World, c: Config, after: Config)
    requires Overridden(w, KEYS, c, after) && forall k :: FaultOf(w, c, k).None?
    ensures var m, n := c.mqtt, after.mqtt;
            && n.host == GivenText(w, HostVar, m.host) && n.clientId == GivenText(w, ClientIdVar, m.clientId)
            && n.topicPrefix == GivenText(w, TopicPrefixVar, m.topicPrefix)
            && n.healthTopic == GivenText(w, HealthTopicVar, m.healthTopic)
            && Switch(w, TlsVar, m.useTls, n.useTls)
            && (Given(w, PortVar).None? ==> n.port == m.port)
            && (Given(w, PortVar).Some? ==> n.port < 65536 && Spells(Given(w, PortVar).value, n.port))
  {
    GivenIs(w);
    SwitchIs(w, c, TlsVar, c.mqtt.useTls);
    if Env(w, PortVar).Some? {
      assert FaultOf(w, c, PortVar).None?;
      NumbersRead(Env(w, PortVar).value, after.mqtt.port);
    }
    hide Env, Given, Value, SaysTrue, SaysFalse, ParseFlag, ParsePort, Spells, SecretsOverridden,
         PublishingOverridden, DataOverridden, Flag, Switch;
  }

  lemma KeepAliveGiven(w: World, c: Config, stored: nat)
    requires FaultOf(w, c, KeepAliveVar).None?
    ensures var secs := KeepAlive(w, KEYS, stored);
            if Given(w, KeepAliveVar).None? then secs == stored
            else (secs >= 1 && Spells(Given(w, KeepAliveVar).value, secs))
                 || (secs == 1 && Spells(Given(w, KeepAliveVar).value, 0))
  {
    GivenIs(w);
    if Env(w, KeepAliveVar).Some? { NumbersRead(Env(w, KeepAliveVar).value, KeepAlive(w, KEYS, stored)); }
    hide Env, Given, Value, ParseSeconds, Spells;
  }

  lemma FormatGiven(w: World, c: Config, stored: PayloadFormat)
    requires FaultOf(w, c, PayloadFormatVar).None?
    ensures Format(w, KEYS, stored) == Scalar <==>
            if Given(w, PayloadFormatVar).Some? then IsWord(Given(w, PayloadFormatVar).value, "scalar")
            else stored == Scalar
  {
    GivenIs(w);
    if Env(w, PayloadFormatVar).Some? { FormatWords(Env(w, PayloadFormatVar).value); }
    hide Env, Given, Value, ParseFormat, IsWord;
  }

  /** What the publishing settings are then. */
  lemma PublishingGiven(w: World, c: Config, after: Config)
    requires Overridden(w, KEYS, c, after) && forall k :: FaultOf(w, c, k).None?
    ensures var m, n := c.mqtt, after.mqtt;
            && Switch(w, RetainVar, m.retain, n.retain) && Switch(w, AutostartVar, m.autostart, n.autostart)
            && Switch(w, DiscoverVar, c.discoverOnStart, after.discoverOnStart)
            && n.deviceTopicPrefix == GivenText(w, DeviceTopicPrefixVar, m.deviceTopicPrefix)
            && (if Given(w, KeepAliveVar).None? then n.keepAliveSecs == m.keepAliveSecs
                else (n.keepAliveSecs >= 1 && Spells(Given(w, KeepAliveVar).value, n.keepAliveSecs))
                     || (n.keepAliveSecs == 1 && Spells(Given(w, KeepAliveVar).value, 0)))
            && (n.payloadFormat == Scalar <==>
                  if Given(w, PayloadFormatVar).Some? then IsWord(Given(w, PayloadFormatVar).value, "scalar")
                  else m.payloadFormat == Scalar)
  {
    hide FaultOf, Flag, Switch, KeepAlive, Format, Env, Given, Value, Spells, IsWord, BrokerOverridden,
         SecretsOverridden;
    SwitchIs(w, c, RetainVar, c.mqtt.retain);
    SwitchIs(w, c, AutostartVar, c.mqtt.autostart);
    SwitchIs(w, c, DiscoverVar, c.discoverOnStart);
    KeepAliveGiven(w, c, c.mqtt.keepAliveSecs);
    FormatGiven(w, c, c.mqtt.payloadFormat);
    GivenIs(w);
  }

  /** What the login and certificate settings are then: a secret named and found goes before a password. */
  lemma SecretsGiven(w: World, c: Config, after: Config)
    requires Overridden(w, KEYS, c, after)
    ensures var m, n := c.mqtt, after.mqtt;
            && n.username == GivenPath(w, UsernameVar, m.username)
            && n.passwordEnv == GivenPath(w, PasswordEnvVar, m.passwordEnv)
            && n.caCertPath == GivenPath(w, CaCertVar, m.caCertPath)
            && n.clientCertPath == GivenPath(w, ClientCertVar, m.clientCertPath)
            && n.clientKeyPath == GivenPath(w, ClientKeyVar, m.clientKeyPath)
            && n.clientKeyPassphrase == GivenPath(w, PassphraseVar, m.clientKeyPassphrase)
            && n.rememberSecrets == m.rememberSecrets
            && n.password == (if Given(w, PasswordEnvVar).Some? && w.secret(Given(w, PasswordEnvVar).value).Some?
                              then w.secret(Given(w, PasswordEnvVar).value) else GivenPath(w, PasswordVar, m.password))
  {
    GivenIs(w);
    hide Env, Given, Value, BrokerOverridden, PublishingOverridden, DataOverridden;
  }

  /** What is left of the configuration then; where the connection goes is below. */
  lemma DataGiven(w: World, c: Config, after: Config)
    requires Overridden(w, KEYS, c, after) && forall k :: FaultOf(w, c, k).None?
    ensures after.theme == c.theme
    ensures if Given(w, ProtocolVar).None? then after.protocol == c.protocol
            else Stripped(Given(w, ProtocolVar).value, after.protocol)
    ensures Given(w, ConnectionVar).None? ==> after.connections == c.connections
    ensures Given(w, PointsVar).None? ==> after.points == c.points
    ensures Given(w, PointsVar).Some? ==>
              var imported := w.parsePoints(Given(w, PointsVar).value);
              imported.Some? && after.points == Merge(c.points, imported.value)
  {
    GivenIs(w);
    assert FaultOf(w, c, PointsVar).None?;
    if Given(w, ProtocolVar).Some? {
      TrimIs(Given(w, ProtocolVar).value, Trim(Given(w, ProtocolVar).value));
    }
    hide Env, Given, Value, Trim, Stripped, Merge, Flag, BrokerOverridden, SecretsOverridden, PublishingOverridden;
  }

  // ---- applying the overrides at every start ----

  lemma SameMqtt(m: Mqtt, after: Mqtt)
    requires SameBroker(m, after) && SameSecrets(m, after) && SamePublishing(m, after)
    ensures after == m
  {
  }

  lemma MqttTwice(w: World, m: Mqtt, once: Mqtt, twice: Mqtt)
    requires BrokerOverridden(w, KEYS, m, once) && BrokerOverridden(w, KEYS, once, twice)
    requires SecretsOverridden(w, KEYS, m, once) && SecretsOverridden(w, KEYS, once, twice)
    requires PublishingOverridden(w, KEYS, m, once) && PublishingOverridden(w, KEYS, once, twice)
    ensures twice == once
  {
    hide Value, ParseFlag, ParsePort, ParseSeconds, ParseFormat;
    SameMqtt(once, twice);
  }

  lemma DataTwice(w: World, c: Config, once: Config, twice: Config)
    requires DataOverridden(w, KEYS, c, once) && DataOverridden(w, KEYS, once, twice)
    ensures twice == once.(mqtt := twice.mqtt)
  {
    hide Value, ParseFlag, Merge, Trim;
    var points := Value(w, KEYS, PointsVar);
    if points.Some? && w.parsePoints(points.value).Some? {
      MergeIdempotent(c.points, w.parsePoints(points.value).value);
    }
    var raw := Value(w, KEYS, ConnectionVar);
    if raw.Some? && w.parseObject(raw.value).Some? {
      var fields, target := w.parseObject(raw.value).value, once.protocol;
      assert once.connections[target] + fields == once.connections[target];
      assert twice.connections == once.connections[target := once.connections[target]];
      assert twice.connections == once.connections;
    }
    assert twice.points == once.points && twice.protocol == once.protocol;
  }

  /** A second application never fails and changes nothing: a start after the operator has saved
      the overridden configuration sees the same configuration. */
  lemma OverridesIdempotent(w: World, stored: Config, once: Config, twice: Config)
    requires forall k :: FaultOf(w, stored, k).None?
    requires Overridden(w, KEYS, stored, once) && Overridden(w, KEYS, once, twice)
    ensures twice == once
    ensures forall k :: FaultOf(w, once, k).None?
  {
    hide BrokerOverridden, SecretsOverridden, PublishingOverridden;
    MqttTwice(w, stored.mqtt, once.mqtt, twice.mqtt);
    DataTwice(w, stored, once, twice);
    forall k ensures FaultOf(w, once, k).None? {
      hide Env, Readable, DataOverridden, Trim;
      assert FaultOf(w, stored, k).None?;
      assert ProtocolAfter(w, KEYS, once) == ProtocolAfter(w, KEYS, stored) by {
        assert DataOverridden(w, KEYS, stored, once);
      }
    }
  }

  /** The fields given go to the protocol that is selected after the overrides; every other
      protocol keeps its connection. */
  lemma MergeTargetsNewProtocol(w: World, stored: Config, after: Config, fields: Addressing)
    requires Overridden(w, KEYS, stored, after)
    requires Env(w, ConnectionVar).Some? && w.parseObject(Env(w, ConnectionVar).value) == Some(fields)
    ensures Env(w, ProtocolVar).Some? ==> after.protocol == Trim(Env(w, ProtocolVar).value)
    ensures Connection(after) == Connection(stored.(protocol := after.protocol)) + fields
    ensures forall p :: p != after.protocol ==>
              Connection(after.(protocol := p)) == Connection(stored.(protocol := p))
  {
    hide BrokerOverridden, SecretsOverridden, PublishingOverridden, Env, Trim;
    assert Value(w, KEYS, ConnectionVar) == Env(w, ConnectionVar);
    assert Value(w, KEYS, ProtocolVar) == Env(w, ProtocolVar);
  }
}
