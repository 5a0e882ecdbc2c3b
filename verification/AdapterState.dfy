/**
 The opaque state the adapter hands back to its caller between operations:
 its JSON codec and the served-version history.

 A JSON document is modelled by its value. Object keys are matched exactly and
 occur once.
 */
module AdapterState {
  import opened Wrappers

  datatype Json =
    | Null
    | Num(n: int)
    | Str(s: string)
    | Arr(items: seq<Json>)
    | Obj(fields: map<string, Json>)
    | Other(text: string)  // booleans and numbers that are not integers

  /** What the caller passes as prior state: nothing, text that is not JSON, or a document. */
  datatype RawState = Absent | Malformed | Doc(json: Json)

  datatype StateError = NotJson | WrongShape | TooNew(version: int)

  const STATE_VERSION := 1
  const MAX_PRIOR_VERSIONS := 20

  datatype InFlightVersion = InFlightVersion(version: string, packHash: string, configHash: string)

  datatype State = State(
    version: int,
    adapterVersion: string,
    packHash: string,
    configHash: string,
    agentName: string,
    servedVersion: string,
    priorVersions: seq<string>,  // newest first
    stagedPackUri: string,
    inFlight: Option<InFlightVersion>,
    unknown: map<string, Json>)

  const FRESH_STATE := State(STATE_VERSION, "", "", "", "", "", [], "", None, map[])

  const KNOWN_FIELDS: set<string> := {
    "version", "adapter_version", "pack_hash", "config_hash", "agent_name",
    "served_version", "prior_versions", "staged_pack_uri", "in_flight" }

  // ---------------------------------------------------------------- decoding

  /** A string field: absent and null both leave the zero value. */
  function DecodeString(doc: map<string, Json>, key: string): Result<string, StateError> {
    if key !in doc || doc[key].Null? then Success("")
    else if doc[key].Str? then Success(doc[key].s)
    else Failure(WrongShape)
  }

  function DecodeInt(doc: map<string, Json>, key: string): Result<int, StateError> {
    if key !in doc || doc[key].Null? then Success(0)
    else if doc[key].Num? then Success(doc[key].n)
    else Failure(WrongShape)
  }

  /** The elements of a string list; a null element leaves the zero value. */
  function DecodeItems(items: seq<Json>): Result<seq<string>, StateError> {
    if items == [] then Success([])
    else
      var rest :- DecodeItems(items[1..]);
      match items[0]
      case Str(s) => Success([s] + rest)
      case Null => Success([""] + rest)
      case _ => Failure(WrongShape)
  }

  function DecodeList(doc: map<string, Json>, key: string): Result<seq<string>, StateError> {
    if key !in doc || doc[key].Null? then Success([])
    else if doc[key].Arr? then DecodeItems(doc[key].items)
    else Failure(WrongShape)
  }

  function DecodeInFlight(doc: map<string, Json>): Result<Option<InFlightVersion>, StateError> {
    if "in_flight" !in doc || doc["in_flight"].Null? then Success(None)
    else if doc["in_flight"].Obj? then
      var nested := doc["in_flight"].fields;
      var version :- DecodeString(nested, "version");
      var packHash :- DecodeString(nested, "pack_hash");
      var configHash :- DecodeString(nested, "config_hash");
      Success(Some(InFlightVersion(version, packHash, configHash)))
    else Failure(WrongShape)
  }

  function Unrecognized(doc: map<string, Json>): map<string, Json> {
    map k | k in doc && k !in KNOWN_FIELDS :: doc[k]
  }

  function DecodeFields(doc: map<string, Json>): Result<State, StateError> {
    var version :- DecodeInt(doc, "version");
    var adapterVersion :- DecodeString(doc, "adapter_version");
    var packHash :- DecodeString(doc, "pack_hash");
    var configHash :- DecodeString(doc, "config_hash");
    var agentName :- DecodeString(doc, "agent_name");
    var servedVersion :- DecodeString(doc, "served_version");
    var priorVersions :- DecodeList(doc, "prior_versions");
    var stagedPackUri :- DecodeString(doc, "staged_pack_uri");
    var inFlight :- DecodeInFlight(doc);
    if version > STATE_VERSION then Failure(TooNew(version))
    else Success(State(version, adapterVersion, packHash, configHash, agentName, servedVersion,
                       priorVersions, stagedPackUri, inFlight, Unrecognized(doc)))
  }

  /** The meaning of parseState: a null document decodes like an empty object. */
  function Decode(raw: RawState): Result<State, StateError> {
    match raw
    case Absent => Success(FRESH_STATE)
    case Malformed => Failure(NotJson)
    case Doc(Obj(doc)) => DecodeFields(doc)
    case Doc(Null) => DecodeFields(map[])
    case Doc(_) => Failure(WrongShape)
  }

  /** parseState: the unknown fields are collected by ranging over the document. */
  method ParseState(raw: RawState) returns (r: Result<State, StateError>)
    ensures r == Decode(raw)
  {
    if raw.Absent? {
      return Success(FRESH_STATE);
    }
    if raw.Malformed? {
      return Failure(NotJson);
    }
    if !raw.json.Obj? && !raw.json.Null? {
      return Failure(WrongShape);
    }
    var probe := if raw.json.Obj? then raw.json.fields else map[];
    var decoded := DecodeFields(probe);
    if decoded.Failure? {
      return decoded;
    }
    var unknown: map<string, Json> := map[];
    var keys := probe.Keys;
    while keys != {}
      invariant keys <= probe.Keys
      invariant unknown == map k | k in probe && k !in keys && k !in KNOWN_FIELDS :: probe[k]
    {
      var k :| k in keys;
      if k !in KNOWN_FIELDS {
        unknown := unknown[k := probe[k]];
      }
      keys := keys - {k};
    }
    assert unknown == Unrecognized(probe);
    r := Success(decoded.value.(unknown := unknown));
  }

  // ---------------------------------------------------------------- encoding

  function StrField(value: string): Option<Json> {
    if value == "" then None else Some(Str(value))
  }

  function EncodeItems(items: seq<string>): Json {
    Arr(seq(|items|, i requires 0 <= i < |items| => Str(items[i])))
  }

  function WithStr(fields: map<string, Json>, key: string, value: string): map<string, Json> {
    if value == "" then fields else fields[key := Str(value)]
  }

  function EncodeInFlight(f: InFlightVersion): Json {
    Obj(WithStr(WithStr(map["version" := Str(f.version)], "pack_hash", f.packHash), "config_hash", f.configHash))
  }

  /** What the encoder emits for one owned field, if anything. */
  function KnownField(s: State, key: string): Option<Json> {
    match key
    case "version" => Some(Num(s.version))
    case "adapter_version" => StrField(s.adapterVersion)
    case "pack_hash" => StrField(s.packHash)
    case "config_hash" => StrField(s.configHash)
    case "agent_name" => StrField(s.agentName)
    case "served_version" => StrField(s.servedVersion)
    case "prior_versions" => if s.priorVersions == [] then None else Some(EncodeItems(s.priorVersions))
    case "staged_pack_uri" => StrField(s.stagedPackUri)
    case "in_flight" => if s.inFlight.None? then None else Some(EncodeInFlight(s.inFlight.value))
    case _ => None
  }

  function EncodeKnown(s: State): map<string, Json> {
    map k | k in KNOWN_FIELDS && KnownField(s, k).Some? :: KnownField(s, k).value
  }

  /** The meaning of Marshal: preserved fields are copied over the encoded ones. */
  function Encode(s: State): map<string, Json> {
    EncodeKnown(s) + s.unknown
  }

  /** What parsing guarantees: the owned keys and the preserved keys are apart. */
  ghost predicate Valid(s: State) {
    s.version <= STATE_VERSION && s.unknown.Keys !! KNOWN_FIELDS
  }

  lemma DecodedIsValid(raw: RawState)
    requires Decode(raw).Success?
    ensures Valid(Decode(raw).value)
  {
  }

  lemma {:induction false} ItemsRoundTrip(items: seq<string>)
    ensures DecodeItems(EncodeItems(items).items) == Success(items)
  {
    if items != [] {
      ItemsRoundTrip(items[1..]);
      assert EncodeItems(items).items[1..] == EncodeItems(items[1..]).items;
      assert items == [items[0]] + items[1..];
    }
  }

  /** Preserved unknowns never overwrite an owned field. */
  lemma OwnedFieldsWin(s: State, key: string)
    requires Valid(s) && key in KNOWN_FIELDS
    ensures key in Encode(s) <==> KnownField(s, key).Some?
    ensures key in Encode(s) ==> Encode(s)[key] == KnownField(s, key).value
  {
    assert key !in s.unknown.Keys;
  }

  lemma StringFieldRoundTrip(s: State, key: string, value: string)
    requires Valid(s) && key in KNOWN_FIELDS && KnownField(s, key) == StrField(value)
    ensures DecodeString(Encode(s), key) == Success(value)
  {
    OwnedFieldsWin(s, key);
  }

  lemma InFlightRoundTrip(s: State)
    requires Valid(s)
    ensures DecodeInFlight(Encode(s)) == Success(s.inFlight)
  {
    hide Encode;
    OwnedFieldsWin(s, "in_flight");
  }

  lemma ListRoundTrip(s: State)
    requires Valid(s)
    ensures DecodeList(Encode(s), "prior_versions") == Success(s.priorVersions)
  {
    OwnedFieldsWin(s, "prior_versions");
    ItemsRoundTrip(s.priorVersions);
  }

  lemma UnknownRoundTrip(s: State)
    requires Valid(s)
    ensures Unrecognized(Encode(s)) == s.unknown
  {
  }

  /** Parsing a marshalled state gives the state back. */
  lemma StateRoundTrip(s: State)
    requires Valid(s)
    ensures Decode(Doc(Obj(Encode(s)))) == Success(s)
  {
    OwnedFieldsWin(s, "version");
    StringFieldRoundTrip(s, "adapter_version", s.adapterVersion);
    StringFieldRoundTrip(s, "pack_hash", s.packHash);
    StringFieldRoundTrip(s, "config_hash", s.configHash);
    StringFieldRoundTrip(s, "agent_name", s.agentName);
    StringFieldRoundTrip(s, "served_version", s.servedVersion);
    ListRoundTrip(s);
    StringFieldRoundTrip(s, "staged_pack_uri", s.stagedPackUri);
    InFlightRoundTrip(s);
    UnknownRoundTrip(s);
  }

  // ------------------------------------------- reading and rewriting a document

  /** A string as the decoder leaves it: null and absent become empty. */
  function Text(j: Json): string {
    if j.Str? then j.s else ""
  }

  lemma {:induction false} DecodedItems(items: seq<Json>)
    requires DecodeItems(items).Success?
    ensures |DecodeItems(items).value| == |items|
    ensures forall i :: 0 <= i < |items| ==> DecodeItems(items).value[i] == Text(items[i])
  {
    if items != [] {
      DecodedItems(items[1..]);
    }
  }

  function TextAt(doc: map<string, Json>, key: string): string {
    if key in doc then Text(doc[key]) else ""
  }

  predicate TextOrNull(j: Json) {
    j.Str? || j.Null?
  }

  const TEXT_FIELDS: set<string> := {
    "adapter_version", "pack_hash", "config_hash", "agent_name", "served_version", "staged_pack_uri" }

  /** Every field the record owns is absent, null, or of its own type. */
  predicate WellShaped(doc: map<string, Json>) {
    && (forall k :: k in TEXT_FIELDS && k in doc ==> TextOrNull(doc[k]))
    && ("version" in doc ==> doc["version"].Num? || doc["version"].Null?)
    && ("prior_versions" in doc ==>
          || doc["prior_versions"].Null?
          || (doc["prior_versions"].Arr? && forall j :: j in doc["prior_versions"].items ==> TextOrNull(j)))
    && ("in_flight" in doc ==>
          || doc["in_flight"].Null?
          || (doc["in_flight"].Obj? &&
                var nested := doc["in_flight"].fields;
                forall k :: k in IN_FLIGHT_FIELDS && k in nested ==> TextOrNull(nested[k])))
  }

  lemma {:induction false} ItemsDecodeExactly(items: seq<Json>)
    ensures DecodeItems(items).Success? <==> forall j :: j in items ==> TextOrNull(j)
    ensures DecodeItems(items).Failure? ==> DecodeItems(items).error == WrongShape
  {
    if items != [] {
      ItemsDecodeExactly(items[1..]);
      assert items[0] in items;
      assert DecodeItems(items).Success? <==> DecodeItems(items[1..]).Success? && TextOrNull(items[0]);
      assert forall j :: j in items <==> j == items[0] || j in items[1..];
    }
  }

  lemma StringDecodes(doc: map<string, Json>, key: string)
    ensures DecodeString(doc, key) ==
            if key in doc && !TextOrNull(doc[key]) then Failure(WrongShape) else Success(TextAt(doc, key))
  {
  }

  lemma ListDecodes(doc: map<string, Json>)
    ensures
      var r := DecodeList(doc, "prior_versions");
      && (r.Success? <==> ("prior_versions" in doc ==>
            || doc["prior_versions"].Null?
            || (doc["prior_versions"].Arr? && forall j :: j in doc["prior_versions"].items ==> TextOrNull(j))))
      && (r.Failure? ==> r.error == WrongShape)
  {
    if "prior_versions" in doc && doc["prior_versions"].Arr? {
      ItemsDecodeExactly(doc["prior_versions"].items);
    }
  }

  lemma InFlightDecodes(doc: map<string, Json>)
    ensures
      var r := DecodeInFlight(doc);
      && (r.Success? <==> ("in_flight" in doc ==>
            || doc["in_flight"].Null?
            || (doc["in_flight"].Obj? &&
                  var nested := doc["in_flight"].fields;
                  forall k :: k in IN_FLIGHT_FIELDS && k in nested ==> TextOrNull(nested[k]))))
      && (r.Failure? ==> r.error == WrongShape)
  {
    if "in_flight" in doc && doc["in_flight"].Obj? {
      hide DecodeString;
      forall k {
        StringDecodes(doc["in_flight"].fields, k);
      }
    }
  }

  lemma FieldsDecodeExactly(doc: map<string, Json>)
    ensures
      var r, v := DecodeFields(doc), if "version" in doc && doc["version"].Num? then doc["version"].n else 0;
      && (!WellShaped(doc) ==> r == Failure(WrongShape))
      && (WellShaped(doc) && v > 1 ==> r == Failure(TooNew(v)))
      && (WellShaped(doc) && v <= 1 ==> r.Success?)
  {
    hide DecodeString, DecodeList, DecodeInFlight, TextOrNull, Text, TextAt;
    forall k {
      StringDecodes(doc, k);
    }
    ListDecodes(doc);
    InFlightDecodes(doc);
  }

  /**
   What can be recorded and what is refused, for every text: no text is a fresh
   state, text that is not JSON is an error, and so is a document that is neither
   an object nor null; an object is refused exactly when a field the record owns
   is of another type, or, that being in order, when its version is above 1.
   */
  lemma DecodesExactly(raw: RawState)
    ensures raw.Absent? ==> Decode(raw) == Success(State(1, "", "", "", "", "", [], "", None, map[]))
    ensures raw.Malformed? ==> Decode(raw) == Failure(NotJson)
    ensures raw.Doc? && !raw.json.Obj? && !raw.json.Null? ==> Decode(raw) == Failure(WrongShape)
    ensures raw.Doc? && raw.json.Null? ==> Decode(raw) == Decode(Doc(Obj(map[]))) && Decode(raw).Success?
    ensures raw.Doc? && raw.json.Obj? ==>
              var doc := raw.json.fields;
              var v := if "version" in doc && doc["version"].Num? then doc["version"].n else 0;
              && (Decode(raw).Failure? <==> !WellShaped(doc) || v > 1)
              && (!WellShaped(doc) ==> Decode(raw) == Failure(WrongShape))
              && (WellShaped(doc) && v > 1 ==> Decode(raw) == Failure(TooNew(v)))
  {
    hide DecodeFields, WellShaped;
    assert DecodeFields(map[]).Success? by { FieldsDecodeExactly(map[]); EmptyIsWellShaped(); }
    if raw.Doc? && raw.json.Obj? {
      FieldsDecodeExactly(raw.json.fields);
    }
  }

  lemma EmptyIsWellShaped()
    ensures WellShaped(map[])
  {
  }

  /** Each field of the state comes from its own key. */
  lemma DecodedFields(doc: map<string, Json>)
    requires DecodeFields(doc).Success?
    ensures
      var s := DecodeFields(doc).value;
      && s.version == (if "version" in doc && doc["version"].Num? then doc["version"].n else 0)
      && s.adapterVersion == TextAt(doc, "adapter_version") && s.packHash == TextAt(doc, "pack_hash")
      && s.configHash == TextAt(doc, "config_hash") && s.agentName == TextAt(doc, "agent_name")
      && s.servedVersion == TextAt(doc, "served_version") && s.stagedPackUri == TextAt(doc, "staged_pack_uri")
      && (if "prior_versions" in doc && doc["prior_versions"].Arr? then
            var items := doc["prior_versions"].items;
            |s.priorVersions| == |items| && forall i :: 0 <= i < |items| ==> s.priorVersions[i] == Text(items[i])
          else s.priorVersions == [])
      && (if "in_flight" in doc && doc["in_flight"].Obj? then
            var nested := doc["in_flight"].fields;
            s.inFlight == Some(InFlightVersion(TextAt(nested, "version"), TextAt(nested, "pack_hash"),
                                               TextAt(nested, "config_hash")))
          else s.inFlight.None?)
  {
    if "prior_versions" in doc && doc["prior_versions"].Arr? {
      DecodedItems(doc["prior_versions"].items);
    }
  }

  /** What is written: the version always, every other owned field exactly when it is not empty. */
  lemma EncodedKeys(s: State)
    requires Valid(s)
    ensures
      var out := Encode(s);
      && "version" in out && ("adapter_version" in out <==> s.adapterVersion != "")
      && ("pack_hash" in out <==> s.packHash != "") && ("config_hash" in out <==> s.configHash != "")
      && ("agent_name" in out <==> s.agentName != "") && ("served_version" in out <==> s.servedVersion != "")
      && ("prior_versions" in out <==> s.priorVersions != []) && ("staged_pack_uri" in out <==> s.stagedPackUri != "")
      && ("in_flight" in out <==> s.inFlight.Some?)
  {
    hide Encode;
    forall k | k in KNOWN_FIELDS {
      OwnedFieldsWin(s, k);
    }
    assert {"version", "adapter_version", "pack_hash", "config_hash", "agent_name", "served_version",
            "prior_versions", "staged_pack_uri", "in_flight"} == KNOWN_FIELDS;
  }

  const IN_FLIGHT_FIELDS: set<string> := {"version", "pack_hash", "config_hash"}

  /** One owned string field, of which the record keeps `value`. */
  lemma StringFieldSurvives(doc: map<string, Json>, key: string)
    requires DecodeFields(doc).Success?
    requires key in doc && key in KNOWN_FIELDS && doc[key].Str? && doc[key].s != ""
    ensures key in Encode(DecodeFields(doc).value) && Encode(DecodeFields(doc).value)[key] == doc[key]
  {
    var s := DecodeFields(doc).value;
    assert key != "version" && key != "prior_versions" && key != "in_flight";
    assert KnownField(s, key) == StrField(DecodeString(doc, key).value);
    OwnedFieldsWin(s, key);
  }

  lemma OtherFieldsSurvive(doc: map<string, Json>)
    requires DecodeFields(doc).Success?
    ensures
      var out := Encode(DecodeFields(doc).value);
      && ("version" in doc && doc["version"].Num? ==> "version" in out && out["version"] == doc["version"])
      && ("prior_versions" in doc && doc["prior_versions"].Arr? && doc["prior_versions"].items != [] ==>
            && "prior_versions" in out
            && out["prior_versions"] == EncodeItems(DecodeItems(doc["prior_versions"].items).value))
  {
    var s := DecodeFields(doc).value;
    OwnedFieldsWin(s, "version");
    OwnedFieldsWin(s, "prior_versions");
    if "prior_versions" in doc && doc["prior_versions"].Arr? {
      DecodedItems(doc["prior_versions"].items);
    }
  }

  /**
   Rewriting a document of a supported version: what an older adapter in the
   loop keeps. Every unrecognized key survives verbatim and none appears; every
   non-empty owned string survives; a second reading sees the same state.
   */
  lemma DocumentSurvives(doc: map<string, Json>)
    requires DecodeFields(doc).Success?
    ensures
      var out := Encode(DecodeFields(doc).value);
      && (forall k :: k !in KNOWN_FIELDS ==> (k in out <==> k in doc) && (k in doc ==> out[k] == doc[k]))
      && (forall k :: k in doc && k in KNOWN_FIELDS && doc[k].Str? && doc[k].s != "" ==> k in out && out[k] == doc[k])
      && DecodeFields(out) == DecodeFields(doc)
  {
    forall k | k in doc && k in KNOWN_FIELDS && doc[k].Str? && doc[k].s != ""
      ensures k in Encode(DecodeFields(doc).value) && Encode(DecodeFields(doc).value)[k] == doc[k]
    {
      StringFieldSurvives(doc, k);
    }
    StateRoundTrip(DecodeFields(doc).value);
  }

  /**
   The one place where rewriting drops something: a nested field of in_flight
   survives exactly when it is one of the three the record owns and not empty
   (the version is written even when empty).
   */
  lemma NestedInFlightFields(doc: map<string, Json>, k: string)
    requires DecodeFields(doc).Success?
    requires "in_flight" in doc && doc["in_flight"].Obj?
    ensures
      var nested, out := doc["in_flight"].fields, Encode(DecodeFields(doc).value);
      && "in_flight" in out && out["in_flight"].Obj?
      && (k in out["in_flight"].fields <==>
            k == "version" || (k in IN_FLIGHT_FIELDS && k in nested && Text(nested[k]) != ""))
      && (k in out["in_flight"].fields && k in nested ==> out["in_flight"].fields[k] == Str(Text(nested[k])))
  {
    hide Encode;
    OwnedFieldsWin(DecodeFields(doc).value, "in_flight");
  }

  // ---------------------------------------------------------------- history

  /** recordVersion on the value of the record. */
  function Recorded(s: State, version: string): State {
    if s.servedVersion == version then s
    else if s.servedVersion == "" then s.(servedVersion := version)
    else
      var pushed := [s.servedVersion] + s.priorVersions;
      s.(servedVersion := version,
         priorVersions := if |pushed| > MAX_PRIOR_VERSIONS then pushed[..MAX_PRIOR_VERSIONS] else pushed)
  }

  /** Every version the state remembers serving, newest first. */
  function History(s: State): seq<string> {
    if s.servedVersion == "" then s.priorVersions else [s.servedVersion] + s.priorVersions
  }

  function Cut<T>(s: seq<T>, n: nat): seq<T> {
    if |s| <= n then s else s[..n]
  }

  /** The record as the adapter holds it: fields updated in place. */
  class StateRecord {
    var version: int
    var adapterVersion: string
    var packHash: string
    var configHash: string
    var agentName: string
    var servedVersion: string
    var priorVersions: seq<string>
    var stagedPackUri: string
    var inFlight: Option<InFlightVersion>
    var unknown: map<string, Json>

    function View(): State
      reads this
    {
      State(version, adapterVersion, packHash, configHash, agentName, servedVersion,
            priorVersions, stagedPackUri, inFlight, unknown)
    }

    /** The copy an apply starts from. */
    constructor (s: State)
      ensures View() == s
    {
      version, adapterVersion := s.version, s.adapterVersion;
      packHash, configHash := s.packHash, s.configHash;
      agentName, servedVersion, priorVersions := s.agentName, s.servedVersion, s.priorVersions;
      stagedPackUri, inFlight, unknown := s.stagedPackUri, s.inFlight, s.unknown;
    }

    method RecordVersion(version: string)
      modifies this`servedVersion, this`priorVersions
      ensures View() == Recorded(old(View()), version)
    {
      if servedVersion == version {
        return;
      }
      if servedVersion != "" {
        priorVersions := [servedVersion] + priorVersions;
        if |priorVersions| > MAX_PRIOR_VERSIONS {
          priorVersions := priorVersions[..MAX_PRIOR_VERSIONS];
        }
      }
      servedVersion := version;
    }

    /** Marshal: nothing preserved means nothing to merge. */
    method Marshal() returns (out: map<string, Json>)
      ensures out == Encode(View())
    {
      var encoded := EncodeKnown(View());
      if unknown == map[] {
        return encoded;
      }
      var merged := encoded;
      var keys := unknown.Keys;
      while keys != {}
        invariant keys <= unknown.Keys
        invariant merged == encoded + map k | k in unknown && k !in keys :: unknown[k]
      {
        var k :| k in keys;
        merged := merged[k := unknown[k]];
        keys := keys - {k};
      }
      assert unknown == map k | k in unknown && k !in keys :: unknown[k];
      out := merged;
    }
  }

  /**
   Promoting a version prepends it to the remembered history and cuts the
   history to the served version and its twenty predecessors.
   */
  lemma RecordingExtendsHistory(s: State, version: string)
    requires version != "" && version != s.servedVersion
    requires s.servedVersion == "" ==> s.priorVersions == []
    ensures History(Recorded(s, version)) == Cut([version] + History(s), 21)
    ensures Recorded(s, version).servedVersion == version
  {
  }

  /** Promoting what is already served changes nothing, and no promotion touches anything but these two fields. */
  lemma RecordingIsLocal(s: State, version: string)
    ensures version == s.servedVersion ==> Recorded(s, version) == s
    ensures Recorded(s, version).servedVersion == version
    ensures Recorded(s, version).(servedVersion := s.servedVersion, priorVersions := s.priorVersions) == s
  {
  }
}
