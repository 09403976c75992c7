/** Field values as strings in the browser and as typed JSON in the configuration. */
module Coercion {
  import opened Text
  import opened Json
  import opened Identity

  datatype FieldKind = Text | U32 | Bool | Enum(options: seq<string>) | Secret

  datatype FieldSpec = FieldSpec(key: string, kind: FieldKind, fallback: Option<Json>)

  /** How the browser prints a JSON number, which it holds as an IEEE 754 double. */
  datatype Browser = Browser(numberText: int -> string)

  const SAFE_INTEGER: nat := 0x20_0000_0000_0000

  /** Numbers up to 2^53 are exact in a double: section 6 of RFC 8259. */
  ghost predicate Interoperable(b: Browser) {
    forall n :: 0 <= n <= SAFE_INTEGER ==> b.numberText(n) == Decimal(n)
  }

  // ---- strings to typed values ----

  function Coerce(kind: FieldKind, raw: string): Json {
    match kind
    case U32 =>
      (match ParseUnsigned(Trim(raw), U64_LIMIT)
       case Some(n) => Num(n)
       case None => Str(raw))
    case Bool => Json.Bool(raw == "true")
    case _ => Str(raw)
  }

  function RawValue(values: map<string, string>, key: string): string {
    if key in values then values[key] else ""
  }

  /** The addressing after the specs have been handled in order; a later spec with the same key wins. */
  function Built(specs: seq<FieldSpec>, values: map<string, string>): Addressing {
    if specs == [] then map[]
    else
      var last := specs[|specs| - 1];
      Built(specs[..|specs| - 1], values)[last.key := Coerce(last.kind, RawValue(values, last.key))]
  }

  method BuildAddressing(specs: seq<FieldSpec>, values: map<string, string>) returns (addressing: Addressing)
    ensures addressing == Built(specs, values)
  {
    addressing := map[];
    for i := 0 to |specs|
      invariant addressing == Built(specs[..i], values)
    {
      var raw := if specs[i].key in values then values[specs[i].key] else "";
      addressing := addressing[specs[i].key := Coerce(specs[i].kind, raw)];
      assert specs[..i + 1][..i] == specs[..i];
    }
    assert specs[..|specs|] == specs;
  }

  // ---- typed values to strings ----

  function JsonScalar(b: Browser, v: Json): string {
    match v
    case Null => ""
    case Str(s) => s
    case Num(n) => b.numberText(n)
    case Bool(t) => if t then "true" else "false"
  }

  function DefaultFieldString(b: Browser, spec: FieldSpec): string {
    if spec.fallback.Some? then JsonScalar(b, spec.fallback.value) else ""
  }

  function FieldString(b: Browser, spec: FieldSpec, existing: Addressing): string {
    if spec.key in existing then JsonScalar(b, existing[spec.key]) else DefaultFieldString(b, spec)
  }

  function FieldStrings(b: Browser, specs: seq<FieldSpec>, existing: Addressing): map<string, string> {
    if specs == [] then map[]
    else
      var last := specs[|specs| - 1];
      FieldStrings(b, specs[..|specs| - 1], existing)[last.key := FieldString(b, last, existing)]
  }

  method ConnectionStrings(b: Browser, specs: seq<FieldSpec>, existing: Addressing)
    returns (values: map<string, string>)
    ensures values == FieldStrings(b, specs, existing)
  {
    values := map[];
    for i := 0 to |specs|
      invariant values == FieldStrings(b, specs[..i], existing)
    {
      values := values[specs[i].key :=
        if specs[i].key in existing then JsonScalar(b, existing[specs[i].key])
        else DefaultFieldString(b, specs[i])];
      assert specs[..i + 1][..i] == specs[..i];
    }
    assert specs[..|specs|] == specs;
  }

  // ---- the two directions agree ----

  predicate Declares(specs: seq<FieldSpec>, key: string) {
    exists i :: 0 <= i < |specs| && specs[i].key == key
  }

  /** The kind that decides a key's value: that of the last spec declaring it. */
  function KindOf(specs: seq<FieldSpec>, key: string): FieldKind
    requires Declares(specs, key)
  {
    var last := specs[|specs| - 1];
    if last.key == key then last.kind else KindOf(specs[..|specs| - 1], key)
  }

  /** A value the coercion of a field of this kind can produce. */
  predicate CoercedValue(kind: FieldKind, v: Json) {
    match kind
    case U32 =>
      || (v.Num? && 0 <= v.n < U64_LIMIT)
      || (v.Str? && ParseUnsigned(Trim(v.s), U64_LIMIT).None?)
    case Bool => v.Bool?
    case _ => v.Str?
  }

  /** An addressing with exactly the declared fields, each a value its kind can have. */
  predicate Normal(specs: seq<FieldSpec>, a: Addressing) {
    && (forall k :: k in a ==> Declares(specs, k))
    && (forall i :: 0 <= i < |specs| ==> specs[i].key in a)
    && (forall k :: k in a ==> CoercedValue(KindOf(specs, k), a[k]))
  }

  predicate SafeNumbers(a: Addressing) {
    forall k :: k in a && a[k].Num? ==> a[k].n <= SAFE_INTEGER
  }

  lemma {:induction false} BuiltAt(specs: seq<FieldSpec>, values: map<string, string>, key: string)
    ensures key in Built(specs, values) <==> Declares(specs, key)
    ensures Declares(specs, key) ==>
              Built(specs, values)[key] == Coerce(KindOf(specs, key), RawValue(values, key))
  {
    if specs != [] {
      var rest := specs[..|specs| - 1];
      BuiltAt(rest, values, key);
      assert Declares(rest, key) ==> Declares(specs, key) by {
        if Declares(rest, key) {
          var i :| 0 <= i < |rest| && rest[i].key == key;
          assert specs[i].key == key;
        }
      }
      assert specs[|specs| - 1].key == key ==> Declares(specs, key);
      if specs[|specs| - 1].key != key && Declares(specs, key) {
        var i :| 0 <= i < |specs| && specs[i].key == key;
        assert rest[i].key == key;
      }
    }
  }

  /** Spec `i` is the last of its field name. */
  predicate LastSpec(specs: seq<FieldSpec>, i: nat) {
    i < |specs| && forall j :: i < j < |specs| ==> specs[j].key != specs[i].key
  }

  lemma {:induction false} LastDecides(specs: seq<FieldSpec>, i: nat)
    requires LastSpec(specs, i)
    ensures Declares(specs, specs[i].key) && KindOf(specs, specs[i].key) == specs[i].kind
  {
    var n := |specs| - 1;
    assert Declares(specs, specs[i].key);
    if i < n {
      LastDecides(specs[..n], i);
      assert specs[n].key != specs[i].key;
    }
  }

  /** What a field of a kind stores for a text: a flag is set by `true` alone; a number field holds
      the number its text spells if that is below 2^64, else the text as it came; other fields
      hold the text as it came. */
  ghost predicate Stored(kind: FieldKind, text: string, v: Json) {
    match kind
    case Bool => v == Json.Bool(text == "true")
    case U32 =>
      || (v.Num? && 0 <= v.n < 0x1_0000_0000_0000_0000 && Spells(text, v.n))
      || (v == Str(text) && forall n: nat :: n < 0x1_0000_0000_0000_0000 ==> !Spells(text, n))
    case _ => v == Str(text)
  }

  lemma CoercedIsStored(kind: FieldKind, text: string, v: Json)
    ensures Coerce(kind, text) == v <==> Stored(kind, text, v)
  {
    hide Trim, ParseUnsigned, Spells;
    if kind.U32? {
      forall n: nat
        ensures ParseUnsigned(Trim(text), U64_LIMIT) == Some(n) <==> n < U64_LIMIT && Spells(text, n)
      {
        ReadsSpelled(text, U64_LIMIT, n);
      }
      ParsedInRange(Trim(text), U64_LIMIT);
    }
  }

  /** A text that spells a number is not blank. */
  lemma SpelledIsNotBlank(text: string, n: nat)
    requires Spells(text, n)
    ensures !AllSpace(text)
  {
    var pre, plus, digits, post :|
      && AllSpace(pre) && (plus == "" || plus == "+") && digits != "" && AllDigits(digits) && AllSpace(post)
      && text == pre + plus + digits + post && DigitsValue(digits) == n;
    hide DigitsValue, AllSpace;
    assert IsDigit(digits[0]) && text[|pre| + |plus|] == digits[0];
    DigitIsNotSpace(text, |pre| + |plus|);
  }

  lemma DigitIsNotSpace(text: string, i: nat)
    requires i < |text| && IsDigit(text[i])
    ensures !AllSpace(text)
  {
    assert !IsSpace(text[i]);
  }

  lemma BlankStored(kind: FieldKind, text: string, v: Json)
    requires AllSpace(text) && Stored(kind, text, v)
    ensures v == if kind.Bool? then Json.Bool(false) else Str(text)
  {
    if kind.Bool? {
      assert text == "true" ==> !IsSpace(text[0]);
    } else if kind.U32? && v.Num? {
      SpelledIsNotBlank(text, v.n);
    }
  }

  /** What is stored for every declared field, whatever was sent: the last spec of its name decides,
      and a field that was not sent counts as the empty text. */
  lemma FieldsStored(specs: seq<FieldSpec>, values: map<string, string>, i: nat)
    requires LastSpec(specs, i)
    ensures var key, built := specs[i].key, Built(specs, values);
            && key in built && Stored(specs[i].kind, if key in values then values[key] else "", built[key])
            && (key !in values || AllSpace(values[key]) ==>
                  built[key] == if specs[i].kind.Bool? then Json.Bool(false)
                                else Str(if key in values then values[key] else ""))
    ensures forall k :: k in Built(specs, values) <==> Declares(specs, k)
  {
    var key := specs[i].key;
    var text := RawValue(values, key);
    LastDecides(specs, i);
    BuiltAt(specs, values, key);
    CoercedIsStored(specs[i].kind, text, Built(specs, values)[key]);
    hide Built, Coerce, KindOf, Stored;
    if AllSpace(text) { BlankStored(specs[i].kind, text, Built(specs, values)[key]); }
    assert AllSpace("");
    forall k ensures k in Built(specs, values) <==> Declares(specs, k) { BuiltAt(specs, values, k); }
  }

  /** What the form shows for every declared field: the stored value, or else the default of the last
      spec of its name, as text; nothing when there is neither. */
  lemma {:induction false} FieldsShown(b: Browser, specs: seq<FieldSpec>, existing: Addressing, i: nat)
    requires LastSpec(specs, i)
    ensures var key, shown := specs[i].key, FieldStrings(b, specs, existing);
            var value: Option<Json> := if key in existing then Some(existing[key]) else specs[i].fallback;
            && key in shown
            && shown[key] == match value
                             case None => ""
                             case Some(Null) => ""
                             case Some(Str(text)) => text
                             case Some(Num(n)) => b.numberText(n)
                             case Some(Bool(on)) => if on then "true" else "false"
    ensures forall k :: k in FieldStrings(b, specs, existing) ==> Declares(specs, k)
  {
    var n := |specs| - 1;
    var rest := specs[..n];
    ShownIsDeclared(b, specs, existing);
    if i < n {
      assert specs[n].key != specs[i].key;
      FieldsShown(b, rest, existing, i);
    }
  }

  lemma {:induction false} ShownIsDeclared(b: Browser, specs: seq<FieldSpec>, existing: Addressing)
    ensures forall k :: k in FieldStrings(b, specs, existing) ==> Declares(specs, k)
  {
    hide FieldString;
    if specs != [] {
      var n := |specs| - 1;
      ShownIsDeclared(b, specs[..n], existing);
      forall k | k in FieldStrings(b, specs, existing) ensures Declares(specs, k) {
        if k == specs[n].key {
          assert Declares(specs, k);
        } else {
          assert Declares(specs[..n], k);
          var j :| 0 <= j < n && specs[..n][j].key == k;
          assert specs[j].key == k;
        }
      }
    }
  }

  lemma {:induction false} StringAt(b: Browser, specs: seq<FieldSpec>, existing: Addressing, key: string)
    requires Declares(specs, key) && key in existing
    ensures key in FieldStrings(b, specs, existing)
    ensures FieldStrings(b, specs, existing)[key] == JsonScalar(b, existing[key])
  {
    var rest := specs[..|specs| - 1];
    if specs[|specs| - 1].key != key {
      var i :| 0 <= i < |specs| && specs[i].key == key;
      assert rest[i].key == key;
      StringAt(b, rest, existing, key);
    }
  }

  /** The text a browser prints for each number is read back as that number. */
  predicate PrintsBack(b: Browser, a: Addressing) {
    forall k :: k in a && a[k].Num? ==> Coerce(U32, b.numberText(a[k].n)) == a[k]
  }

  lemma CoercePrinted(b: Browser, kind: FieldKind, v: Json)
    ensures Coerce(kind, JsonScalar(b, v)) == v <==>
            CoercedValue(kind, v) && (v.Num? ==> Coerce(U32, b.numberText(v.n)) == v)
  {
    hide Trim, ParseUnsigned;
    if v.Num? { ParsedInRange(Trim(b.numberText(v.n)), U64_LIMIT); }
  }

  lemma ParsedInRange(s: string, limit: nat)
    ensures ParseUnsigned(s, limit).Some? ==> ParseUnsigned(s, limit).value < limit
  {
  }

  lemma BuiltIsNormal(specs: seq<FieldSpec>, values: map<string, string>)
    ensures Normal(specs, Built(specs, values))
  {
    var a := Built(specs, values);
    forall i | 0 <= i < |specs| ensures specs[i].key in a { BuiltAt(specs, values, specs[i].key); }
    forall k | k in a ensures Declares(specs, k) && CoercedValue(KindOf(specs, k), a[k]) {
      BuiltAt(specs, values, k);
    }
  }

  /** Showing a stored addressing in the form and saving it untouched gives it back exactly when
      it is in normal form and the browser prints its numbers so that they are read back. */
  lemma UneditedSaveIff(b: Browser, specs: seq<FieldSpec>, a: Addressing)
    ensures Built(specs, FieldStrings(b, specs, a)) == a <==> Normal(specs, a) && PrintsBack(b, a)
  {
    hide Trim, ParseUnsigned, Built, FieldStrings, CoercedValue, KindOf, Coerce;
    var strings := FieldStrings(b, specs, a);
    var again := Built(specs, strings);
    BuiltIsNormal(specs, strings);
    if Normal(specs, a) {
      forall k ensures k in again <==> k in a { BuiltAt(specs, strings, k); }
      forall k | k in a
        ensures again[k] == a[k] <==> (a[k].Num? ==> Coerce(U32, b.numberText(a[k].n)) == a[k])
      {
        BuiltAt(specs, strings, k);
        StringAt(b, specs, a, k);
        CoercePrinted(b, KindOf(specs, k), a[k]);
      }
    }
  }

  lemma SafePrintsBack(b: Browser, specs: seq<FieldSpec>, a: Addressing)
    requires Interoperable(b) && SafeNumbers(a) && Normal(specs, a)
    ensures PrintsBack(b, a)
  {
    hide Trim, ParseUnsigned, Declares, KindOf;
    forall k | k in a && a[k].Num? ensures Coerce(U32, b.numberText(a[k].n)) == a[k] {
      CoerceDecimal(a[k].n);
    }
  }

  /** For numbers up to 2^53 normal form is all it takes. */
  lemma UneditedSaveIffNormal(b: Browser, specs: seq<FieldSpec>, a: Addressing)
    requires Interoperable(b) && SafeNumbers(a)
    ensures Built(specs, FieldStrings(b, specs, a)) == a <==> Normal(specs, a)
  {
    hide Built, FieldStrings, Normal, PrintsBack;
    UneditedSaveIff(b, specs, a);
    if Normal(specs, a) { SafePrintsBack(b, specs, a); }
  }

  /** Whatever was typed, saving the form again without an edit changes nothing exactly when the
      browser prints each stored number so that it is read back. */
  lemma StableIff(b: Browser, specs: seq<FieldSpec>, values: map<string, string>)
    ensures Built(specs, FieldStrings(b, specs, Built(specs, values))) == Built(specs, values) <==>
            PrintsBack(b, Built(specs, values))
  {
    hide Built, FieldStrings, Normal, PrintsBack;
    BuiltIsNormal(specs, values);
    UneditedSaveIff(b, specs, Built(specs, values));
  }

  /** So coercion reaches its normal form at once for numbers up to 2^53. */
  lemma CoercionIsStable(b: Browser, specs: seq<FieldSpec>, values: map<string, string>)
    requires Interoperable(b) && SafeNumbers(Built(specs, values))
    ensures Built(specs, FieldStrings(b, specs, Built(specs, values))) == Built(specs, values)
  {
    hide Built, FieldStrings, Normal, PrintsBack;
    BuiltIsNormal(specs, values);
    SafePrintsBack(b, specs, Built(specs, values));
    StableIff(b, specs, values);
  }

  const PORT_FIELD: seq<FieldSpec> := [FieldSpec("port", U32, None)]

  /** Beyond 2^53 it fails: 2^53 and 2^53 + 1 are one double, so a browser prints one text for
      both, and an untouched form changes the larger number. */
  lemma LargeNumberDrifts(b: Browser)
    requires Interoperable(b)
    requires b.numberText(SAFE_INTEGER + 1) == b.numberText(SAFE_INTEGER)
    ensures var typed := map["port" := Decimal(SAFE_INTEGER + 1)];
            var stored := Built(PORT_FIELD, typed);
            && stored == map["port" := Num(SAFE_INTEGER + 1)]
            && Built(PORT_FIELD, FieldStrings(b, PORT_FIELD, stored)) == map["port" := Num(SAFE_INTEGER)]
  {
    PrintedAsDrifts(b, SAFE_INTEGER + 1, SAFE_INTEGER);
  }

  lemma PrintedAsDrifts(b: Browser, n: nat, m: nat)
    requires n < U64_LIMIT && m < U64_LIMIT && b.numberText(n) == Decimal(m)
    ensures var stored := Built(PORT_FIELD, map["port" := Decimal(n)]);
            && stored == map["port" := Num(n)]
            && Built(PORT_FIELD, FieldStrings(b, PORT_FIELD, stored)) == map["port" := Num(m)]
  {
    hide Built, FieldStrings, Decimal;
    OnePort(map["port" := Decimal(n)], n);
    var stored: Addressing := map["port" := Num(n)];
    assert PORT_FIELD[0].key == "port";
    StringAt(b, PORT_FIELD, stored, "port");
    OnePort(FieldStrings(b, PORT_FIELD, stored), m);
  }

  lemma OnePort(values: map<string, string>, n: nat)
    requires n < U64_LIMIT && "port" in values && values["port"] == Decimal(n)
    ensures Built(PORT_FIELD, values) == map["port" := Num(n)]
  {
    hide Coerce, Decimal;
    assert PORT_FIELD[..0] == [];
    CoerceDecimal(n);
  }

  lemma CoerceDecimal(n: nat)
    requires n < U64_LIMIT
    ensures Coerce(U32, Decimal(n)) == Num(n)
  {
    ParsePrinted(n, U64_LIMIT);
    TrimKeeps(Decimal(n));
  }
}
