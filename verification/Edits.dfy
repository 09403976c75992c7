/** The configuration after each edit, field by field, from the request alone and whatever its save does. */
module Edits {
  import opened Text
  import opened Identity
  import opened Coercion
  import opened Model
  import opened Points
  import opened Server
  import opened PointList
  import opened Views
  import Settings

  /** Protocol `p` is the one in use: the first of its name. */
  predicate InUse(core: Core, config: Config, p: nat) {
    && p < |core.capabilities| && core.capabilities[p].id == config.protocol
    && forall j :: 0 <= j < p ==> core.capabilities[j].id != config.protocol
  }

  /** An addressing that holds exactly the declared fields, each what its text stores. */
  ghost predicate HoldsFields(specs: seq<FieldSpec>, values: map<string, string>, a: Addressing) {
    && (forall k :: k in a <==> exists i :: 0 <= i < |specs| && specs[i].key == k)
    && (forall i: nat :: LastSpec(specs, i) ==>
          specs[i].key in a && Stored(specs[i].kind, if specs[i].key in values then values[specs[i].key] else "",
                                      a[specs[i].key]))
  }

  lemma BuiltHolds(specs: seq<FieldSpec>, values: map<string, string>)
    ensures HoldsFields(specs, values, Built(specs, values))
  {
    hide Built, Stored;
    var a := Built(specs, values);
    forall k ensures k in a <==> exists i :: 0 <= i < |specs| && specs[i].key == k {
      BuiltAt(specs, values, k);
    }
    forall i: nat | LastSpec(specs, i)
      ensures specs[i].key in a
              && Stored(specs[i].kind, if specs[i].key in values then values[specs[i].key] else "", a[specs[i].key])
    {
      FieldsStored(specs, values, i);
    }
  }

  /** The point a form describes. */
  ghost predicate Describes(specs: seq<FieldSpec>, req: PointReq, point: PointConfig) {
    && point.enabled == req.enabled
    && Stripped(req.deviceKey, point.deviceKey) && Stripped(req.tagPath, point.tagPath)
    && (req.pollIntervalSecs >= 1 ==> point.pollIntervalSecs == req.pollIntervalSecs)
    && (req.pollIntervalSecs == 0 ==> point.pollIntervalSecs == 1)
    && HoldsFields(specs, req.addressing, point.addressing)
  }

  lemma RequestedDescribes(specs: seq<FieldSpec>, req: PointReq)
    ensures Describes(specs, req, RequestedPoint(specs, req))
  {
    hide HoldsFields, Built, Trim, Stripped;
    BuiltHolds(specs, req.addressing);
    TrimIs(req.deviceKey, Trim(req.deviceKey));
    TrimIs(req.tagPath, Trim(req.tagPath));
  }

  /** The list differs at most at `i`, and there has the point. */
  predicate PutAt(before: seq<PointConfig>, after: seq<PointConfig>, i: nat, point: PointConfig) {
    && i <= |before| && |after| == (if i < |before| then |before| else |before| + 1)
    && after[i] == point && forall j :: 0 <= j < |before| && j != i ==> after[j] == before[j]
  }

  /** A saved form: its point takes the place of the edited one, or comes last, and all else stays. */
  lemma SavedPoint(core: Core, o: Out, req: PointReq, disk: Option<string>, p: nat)
    requires InUse(core, o.s.config, p)
    requires req.index.Some? ==> req.index.value < |o.s.config.points|
    ensures var before, after := o.s.config, Next(core, o, Http(SavePoint(req), disk)).s.config;
            var i := if req.index.Some? then req.index.value else |before.points|;
            && i < |after.points| && PutAt(before.points, after.points, i, after.points[i])
            && Describes(core.capabilities[p].addressingFields, req, after.points[i])
            && after.(points := before.points) == before
  {
    hide Next, Describes, RequestedPoint;
    RequestConfig(core, o, SavePoint(req), disk);
    FoundIs(core.capabilities, o.s.config.protocol, p);
    RequestedDescribes(core.capabilities[p].addressingFields, req);
  }

  /** Adding from browse: the point found, enabled and polled every ten seconds, takes the place of the
      first point with its addressing's identity, or comes last, and all else stays. */
  lemma AddedPoint(core: Core, o: Out, found: nat, disk: Option<string>)
    requires found < |o.s.browsed|
    ensures var before, after := o.s.config, Next(core, o, Http(AddBrowsedPoint(found), disk)).s.config;
            var from := o.s.browsed[found];
            && after.(points := before.points) == before
            && exists i: nat ::
                 && PutAt(before.points, after.points, i,
                          PointConfig(true, from.deviceKey, from.addressing, from.suggestedTagPath, 10))
                 && (i < |before.points| ==> Identify(before.points[i].addressing) == Identify(from.addressing))
                 && forall j :: 0 <= j < i ==> Identify(before.points[j].addressing) != Identify(from.addressing)
  {
    hide Next, Identify;
    RequestConfig(core, o, AddBrowsedPoint(found), disk);
    var before, from := o.s.config.points, o.s.browsed[found];
    var point := PointConfig(true, from.deviceKey, from.addressing, from.suggestedTagPath, 10);
    var i := Slot(before, Identify(from.addressing));
    assert PointIdentityOf(point) == Identify(from.addressing);
    assert PutAt(before, Upsert(before, point), i, point);
    assert forall j :: 0 <= j < i ==> PointIdentityOf(before[j]) == Identify(before[j].addressing);
  }

  /** A toggle sets one point's switch, and a deletion takes one point out; out of range they do nothing. */
  lemma ToggledAndDeleted(core: Core, o: Out, i: nat, enabled: bool, disk: Option<string>)
    ensures var before := o.s.config;
            var toggled := Next(core, o, Http(TogglePoint(i, enabled), disk)).s.config;
            var deleted := Next(core, o, Http(DeletePoint(i), disk)).s.config;
            if i >= |before.points| then toggled == deleted == before
            else
              && toggled.(points := before.points) == deleted.(points := before.points) == before
              && PutAt(before.points, toggled.points, i, before.points[i].(enabled := enabled))
              && |deleted.points| == |before.points| - 1
              && (forall j :: 0 <= j < i ==> deleted.points[j] == before.points[j])
              && (forall j :: i < j < |before.points| ==> deleted.points[j - 1] == before.points[j])
  {
    hide Next;
    RequestConfig(core, o, TogglePoint(i, enabled), disk);
    RequestConfig(core, o, DeletePoint(i), disk);
  }

  /** Clearing takes all points out and nothing else. */
  lemma Cleared(core: Core, o: Out, disk: Option<string>)
    ensures Next(core, o, Http(ClearPoints, disk)).s.config == o.s.config.(points := [])
  {
    hide Next;
    RequestConfig(core, o, ClearPoints, disk);
  }

  /** A saved connection form: the protocol in use has exactly its declared fields, every other protocol
      and all else stay. */
  lemma SavedConnection(core: Core, o: Out, values: map<string, string>, disk: Option<string>, p: nat)
    requires InUse(core, o.s.config, p)
    ensures var before, after := o.s.config, Next(core, o, Http(SetConnection(values), disk)).s.config;
            && after.(connections := before.connections) == before
            && before.protocol in after.connections
            && HoldsFields(core.capabilities[p].connectionFields, values, after.connections[before.protocol])
            && forall q :: q != before.protocol ==>
                 (q in after.connections <==> q in before.connections)
                 && (q in before.connections ==> after.connections[q] == before.connections[q])
  {
    hide Next, HoldsFields, Built;
    RequestConfig(core, o, SetConnection(values), disk);
    FoundIs(core.capabilities, o.s.config.protocol, p);
    BuiltHolds(core.capabilities[p].connectionFields, values);
  }

  /** Saved settings: each secret is kept, cleared or replaced as its own update says, texts are stored
      without their edge space, and the points, connections and protocol stay. */
  lemma SavedSettings(core: Core, o: Out, req: Settings.SettingsReq, disk: Option<string>)
    ensures var before, after := o.s.config, Next(core, o, Http(PutSettings(req), disk)).s.config;
            && after == Settings.Put(before, req)
            && Settings.StoredSecret(before.mqtt.password, req.password, after.mqtt.password)
            && Settings.StoredSecret(before.mqtt.clientKeyPassphrase, req.clientKeyPassphrase,
                                     after.mqtt.clientKeyPassphrase)
            && Settings.StoredText(req.username, after.mqtt.username)
            && after.points == before.points && after.connections == before.connections
            && after.protocol == before.protocol
  {
    hide Next, Settings.Put, Settings.StoredText;
    RequestConfig(core, o, PutSettings(req), disk);
    Settings.PutStores(o.s.config, req);
  }

  /** A switch to a protocol there is changes the protocol and nothing else; any other changes nothing. */
  lemma SwitchedProtocol(core: Core, o: Out, id: string, disk: Option<string>)
    ensures Next(core, o, Http(SetProtocol(id), disk)).s.config ==
            if exists i :: 0 <= i < |core.capabilities| && core.capabilities[i].id == id
            then o.s.config.(protocol := id) else o.s.config
  {
    hide Next;
    RequestConfig(core, o, SetProtocol(id), disk);
    FoundNone(core.capabilities, id);
  }
}
