/**
 * The configuration resolvers of lib/config.js: the model-alias map, the credential,
 * the session id and the leak-guard term list.
 */
module Config {
  import opened Wrappers
  import opened Text
  import opened Js
  import opened Seqs

  const DEFAULT_SESSION := "default-session"
  /** The longest session id `resolveSessionId` returns. */
  const SESSION_ID_MAX: nat := 80

  /**
   * One `[model, characterId]` pair of `Object.entries` of the parsed model-map JSON.
   * JSON object keys are always strings; the value may be anything.
   */
  datatype Entry = Entry(model: string, characterId: Value)

  /** The filter of `parseModelMap`: a non-blank model name mapped to a non-blank string id. */
  predicate UsableEntry(e: Entry) {
    !Blank(e.model) && NonBlankString(e.characterId)
  }

  /**
   * The names every plain object inherits from `Object.prototype`. Reading one of them from
   * the model map gives a function or an object, which is truthy and not a string.
   */
  const INHERITED_NAMES: set<string> := {
    "constructor", "hasOwnProperty", "isPrototypeOf", "propertyIsEnumerable",
    "toLocaleString", "toString", "valueOf", "__proto__",
    "__defineGetter__", "__defineSetter__", "__lookupGetter__", "__lookupSetter__"}

  /** Assigning a string to `obj["__proto__"]` goes to the inherited setter, which ignores it. */
  const PROTO := "__proto__"

  /** `obj[key]` on the plain object behind a model map: its own entry, an inherited member, or `undefined`. */
  function PlainLookup(m: map<string, string>, key: string): Value {
    if key in m then Str(m[key]) else if key in INHERITED_NAMES then OtherValue(true) else Missing
  }

  /** An entry that passes the filter and whose assignment is not swallowed by the `__proto__` setter. */
  predicate StoredEntry(e: Entry) {
    UsableEntry(e) && Trim(e.model) != PROTO
  }

  /** The assignment `map[model.trim()] = characterId.trim()` an entry makes, if it passes the filter and takes effect. */
  function Assignment(e: Entry): Option<(string, string)> {
    if StoredEntry(e) then Some((Trim(e.model), Trim(e.characterId.s))) else None
  }

  /** The map `parseModelMap` has built after the first `n` entries (later entries overwrite earlier ones). */
  function ModelMapOf(entries: seq<Entry>, n: nat): map<string, string>
    requires n <= |entries|
  {
    Assemble(entries, Assignment, n)
  }

  /**
   * A model name is in the map exactly when it is not "__proto__" and some usable entry
   * trims to it, and its id is the trimmed id of the last such entry; names and ids are
   * trimmed and non-empty.
   */
  lemma ModelMapOfMeaning(entries: seq<Entry>, name: string)
    ensures name in ModelMapOf(entries, |entries|) <==>
      name != PROTO && exists i :: 0 <= i < |entries| && UsableEntry(entries[i]) && Trim(entries[i].model) == name
    ensures name in ModelMapOf(entries, |entries|) ==>
      var last := LastKeyed(entries, Assignment, name, |entries|).value;
      UsableEntry(entries[last]) && Trim(entries[last].model) == name &&
      ModelMapOf(entries, |entries|)[name] == Trim(entries[last].characterId.s) &&
      forall j :: last < j < |entries| ==> !(UsableEntry(entries[j]) && Trim(entries[j].model) == name)
    ensures name in ModelMapOf(entries, |entries|) ==>
      name != "" && IsTrimmed(name) && ModelMapOf(entries, |entries|)[name] != "" && IsTrimmed(ModelMapOf(entries, |entries|)[name])
  {
    var n := |entries|;
    AssembleMeaning(entries, Assignment, name, n);
    var last := LastKeyed(entries, Assignment, name, n);
    forall j | 0 <= j < n ensures KeyedBy(Assignment, name, entries[j]) <==> name != PROTO && UsableEntry(entries[j]) && Trim(entries[j].model) == name {
    }
    if last.Some? {
      assert NonBlankString(entries[last.value].characterId);
    }
  }

  /** A "__proto__" entry never reaches the map, whatever its id. */
  lemma ProtoEntryDropped(entries: seq<Entry>)
    ensures PROTO !in ModelMapOf(entries, |entries|)
  {
    ModelMapOfMeaning(entries, PROTO);
  }

  /** One more entry: its assignment, when it takes effect, on top of the map so far. */
  lemma ModelMapOfStep(entries: seq<Entry>, n: nat)
    requires n < |entries|
    ensures ModelMapOf(entries, n + 1) ==
      if StoredEntry(entries[n]) then ModelMapOf(entries, n)[Trim(entries[n].model) := Trim(entries[n].characterId.s)]
      else ModelMapOf(entries, n)
  {
  }

  /** The loop of `parseModelMap` over the entries of an object; `None` is input that is missing, not JSON or not an object. */
  method ParseModelMap(parsed: Option<seq<Entry>>) returns (m: map<string, string>)
    ensures parsed.None? ==> m == map[]
    ensures parsed.Some? ==> m == ModelMapOf(parsed.value, |parsed.value|)
  {
    m := map[];
    if parsed.None? {
      return;
    }
    var entries := parsed.value;
    for n := 0 to |entries|
      invariant m == ModelMapOf(entries, n)
    {
      var e := entries[n];
      ModelMapOfStep(entries, n);
      if UsableEntry(e) {
        var key := Trim(e.model);
        // The inherited `__proto__` setter ignores a string, so that assignment changes nothing.
        if key != PROTO {
          m := m[key := Trim(e.characterId.s)];
        }
      }
    }
  }

  /**
   * The module-level `modelMap`, built once when the module loads: the parsed map plus,
   * when `CAI_CHARACTER_ID` is set and the default alias reads as falsy, that alias. An alias
   * that names an inherited member reads as truthy, so it is never added.
   */
  class ModelRegistry {
    var models: map<string, string>
    const defaultAlias: string

    /** `CAI_MODEL_ALIAS || "cai-default"`. */
    static function DefaultAliasOf(aliasEnv: string): string {
      if aliasEnv == "" then "cai-default" else aliasEnv
    }

    constructor (modelMapJson: Option<seq<Entry>>, aliasEnv: string, characterIdEnv: string)
      ensures defaultAlias == DefaultAliasOf(aliasEnv)
      ensures var parsed := if modelMapJson.Some? then ModelMapOf(modelMapJson.value, |modelMapJson.value|) else map[];
        models == (if characterIdEnv != "" && defaultAlias !in parsed && defaultAlias !in INHERITED_NAMES
                   then parsed[defaultAlias := characterIdEnv] else parsed)
    {
      defaultAlias := DefaultAliasOf(aliasEnv);
      var m := ParseModelMap(modelMapJson);
      if modelMapJson.Some? {
        ModelMapOfMeaning(modelMapJson.value, DefaultAliasOf(aliasEnv));
      }
      if characterIdEnv != "" && !Truthy(PlainLookup(m, DefaultAliasOf(aliasEnv))) {
        m := m[DefaultAliasOf(aliasEnv) := characterIdEnv];
      }
      models := m;
    }

    /**
     * `resolveCharacterId`: `modelMap[trimmed] || null`. That is the id mapped to the trimmed
     * model name; for a name inherited from `Object.prototype` it is the inherited member
     * (`OtherValue(true)`); otherwise `null` (`Missing`).
     */
    function ResolveCharacterId(model: Value): (r: Value)
      reads this
      ensures r.Str? || r.Missing? || r == OtherValue(true)
      ensures r.Str? <==> NonBlankString(model) && Trim(model.s) in models && models[Trim(model.s)] != ""
      ensures r.Str? ==> r.s == models[Trim(model.s)]
      ensures r.OtherValue? <==> NonBlankString(model) && Trim(model.s) !in models && Trim(model.s) in INHERITED_NAMES
    {
      if !model.Str? then Missing
      else
        var trimmed := Trim(model.s);
        if trimmed == "" then Missing
        else
          var found := PlainLookup(models, trimmed);
          if Truthy(found) then found else Missing
    }
  }

  /** The argument of `resolveToken`: a header object, or any other value. */
  datatype AuthSource = Headers(headers: map<string, Value>) | Plain(value: Value)

  const BEARER := "Bearer "

  /** The token of a "Bearer " credential, when it is a string with that prefix and a non-blank rest. */
  function BearerToken(v: Value): (r: Option<string>)
    ensures r.Some? ==> r.value != "" && IsTrimmed(r.value)
    ensures r.Some? <==> v.Str? && StartsWith(v.s, BEARER) && !Blank(v.s[|BEARER|..])
  {
    if v.Str? && StartsWith(v.s, BEARER) && !Blank(v.s[|BEARER|..]) then Some(Trim(v.s[|BEARER|..])) else None
  }

  function AuthorizationHeader(h: map<string, Value>): Value {
    FirstTruthy([Get(h, "authorization"), Get(h, "Authorization"), Get(h, "authorization"), Get(h, "Authorization")])
  }

  function ApiKeyHeader(h: map<string, Value>): Value {
    FirstTruthy([Get(h, "x-api-key"), Get(h, "X-API-Key"), Get(h, "x_api_key"), Get(h, "X_API_KEY")])
  }

  /** The credential carried by the request alone. */
  function ClientToken(auth: AuthSource): (r: Option<string>)
  {
    match auth
    case Headers(h) =>
      if BearerToken(AuthorizationHeader(h)).Some? then BearerToken(AuthorizationHeader(h))
      else if NonBlankString(ApiKeyHeader(h)) then Some(Trim(ApiKeyHeader(h).s))
      else None
    case Plain(v) => BearerToken(v)
  }

  /**
   * `resolveToken`: the request's credential; otherwise, when `CAI_ALLOW_SERVER_TOKEN`
   * reads "true", the trimmed server token `CAI_TOKEN`; otherwise none.
   */
  function ResolveToken(auth: AuthSource, allowServerTokenEnv: string, serverToken: Value): (r: Option<string>)
    ensures r.Some? ==> r.value != "" && IsTrimmed(r.value)
    ensures ClientToken(auth).Some? ==> r == ClientToken(auth)
    ensures ClientToken(auth).None? && !EnvFlagTrue(allowServerTokenEnv) ==> r.None?
    ensures ClientToken(auth).None? && EnvFlagTrue(allowServerTokenEnv) ==>
      (r.Some? <==> NonBlankString(serverToken)) && (r.Some? ==> r.value == Trim(serverToken.s))
  {
    var client := ClientToken(auth);
    if client.Some? then client
    else if EnvFlagTrue(allowServerTokenEnv) && NonBlankString(serverToken) then Some(Trim(serverToken.s))
    else None
  }

  /** A valid Bearer header wins over an API-key header, whatever the latter holds. */
  lemma BearerBeatsApiKey(h: map<string, Value>, token: string, apiKey: Value, allowServerTokenEnv: string, serverToken: Value)
    requires "authorization" in h && h["authorization"] == Str(BEARER + token) && !Blank(token)
    ensures ResolveToken(Headers(h[("x-api-key") := apiKey]), allowServerTokenEnv, serverToken) == Some(Trim(token))
  {
    var h2 := h[("x-api-key") := apiKey];
    assert AuthorizationHeader(h2) == Str(BEARER + token);
    assert (BEARER + token)[|BEARER|..] == token;
  }

  /**
   * `resolveSessionId`: the first truthy session header (so a whitespace-only `x-session-id`
   * hides a later `x-conversation-id`), else the session candidate the handler takes from the
   * body, else the default; the first of these that is a non-blank string, trimmed and cut to
   * 80 characters.
   */
  function ResolveSessionId(headers: map<string, Value>, sessionCandidate: Value): (r: string)
    ensures 0 < |r| <= SESSION_ID_MAX && !IsSpace(r[0])
    ensures var header := FirstTruthy([Get(headers, "x-session-id"), Get(headers, "X-Session-Id"),
                                        Get(headers, "x-conversation-id"), Get(headers, "X-Conversation-Id")]);
      (NonBlankString(header) ==> r == Take(Trim(header.s), SESSION_ID_MAX)) &&
      (!NonBlankString(header) && NonBlankString(sessionCandidate) ==> r == Take(Trim(sessionCandidate.s), SESSION_ID_MAX)) &&
      (!NonBlankString(header) && !NonBlankString(sessionCandidate) ==> r == DEFAULT_SESSION)
  {
    var header := FirstTruthy([Get(headers, "x-session-id"), Get(headers, "X-Session-Id"),
                               Get(headers, "x-conversation-id"), Get(headers, "X-Conversation-Id")]);
    if NonBlankString(header) then Take(Trim(header.s), SESSION_ID_MAX)
    else if NonBlankString(sessionCandidate) then Take(Trim(sessionCandidate.s), SESSION_ID_MAX)
    else DEFAULT_SESSION
  }

  /** A session id that is already short and trimmed comes back unchanged. */
  lemma ResolveSessionIdKeepsCleanId(headers: map<string, Value>, sessionCandidate: Value, id: string)
    requires "x-session-id" in headers && headers["x-session-id"] == Str(id)
    requires id != "" && IsTrimmed(id) && |id| <= SESSION_ID_MAX
    ensures ResolveSessionId(headers, sessionCandidate) == id
  {
    TrimOfTrimmed(id);
  }

  /** The comma-separated `CAI_LEAK_GUARD_TERMS` entries, trimmed, blanks dropped. */
  function ExtraTerms(parts: seq<string>): (r: seq<string>)
    ensures |r| <= |parts|
    ensures forall i :: 0 <= i < |r| ==> r[i] != "" && IsTrimmed(r[i])
  {
    if parts == [] then []
    else
      var init := ExtraTerms(parts[..|parts| - 1]);
      var value := Trim(parts[|parts| - 1]);
      if value != "" then init + [value] else init
  }

  /** `getLeakGuardTerms`: the trimmed character id, then the extra terms. */
  function LeakGuardTerms(characterId: Value, extra: Value): seq<string>
  {
    (if NonBlankString(characterId) then [Trim(characterId.s)] else []) +
    (if NonBlankString(extra) then ExtraTerms(Split(extra.s, ',')) else [])
  }

  /** The loop of `getLeakGuardTerms` over the comma-separated parts, pushing each non-blank one trimmed. */
  method CollectExtraTerms(parts: seq<string>) returns (terms: seq<string>)
    ensures terms == ExtraTerms(parts)
  {
    terms := [];
    for n := 0 to |parts|
      invariant terms == ExtraTerms(parts[..n])
    {
      var value := Trim(parts[n]);
      assert parts[..n + 1][..n] == parts[..n];
      if value != "" {
        terms := terms + [value];
      }
    }
    assert parts[..|parts|] == parts;
  }

  /** `getLeakGuardTerms`. */
  method GetLeakGuardTerms(characterId: Value, extra: Value) returns (terms: seq<string>)
    ensures terms == LeakGuardTerms(characterId, extra)
  {
    terms := [];
    if characterId.Str? && !Blank(characterId.s) {
      terms := [Trim(characterId.s)];
    }
    if extra.Str? && !Blank(extra.s) {
      var more := CollectExtraTerms(Split(extra.s, ','));
      terms := terms + more;
    }
  }

  /** Terms written as a comma list, each already trimmed, non-empty and comma-free, are read back exactly. */
  lemma {:induction false} LeakGuardTermsRoundTrip(characterId: Value, terms: seq<string>)
    requires terms != []
    requires forall i :: 0 <= i < |terms| ==> terms[i] != "" && IsTrimmed(terms[i]) && ',' !in terms[i]
    ensures LeakGuardTerms(characterId, Str(Join(terms, ","))) ==
      (if NonBlankString(characterId) then [Trim(characterId.s)] else []) + terms
  {
    SplitJoin(terms, ',');
    ExtraTermsOfClean(terms);
    assert !Blank(Join(terms, ",")) by {
      JoinStartsWithFirst(terms, ",");
      TrimOfTrimmed(terms[0]);
      NonBlankPrefix(terms[0], Join(terms, ","));
    }
  }

  lemma {:induction false} ExtraTermsOfClean(terms: seq<string>)
    requires forall i :: 0 <= i < |terms| ==> terms[i] != "" && IsTrimmed(terms[i])
    ensures ExtraTerms(terms) == terms
  {
    if terms != [] {
      var n := |terms| - 1;
      var init := terms[..n];
      assert forall i :: 0 <= i < |init| ==> init[i] == terms[i];
      ExtraTermsOfClean(init);
      TrimOfTrimmed(terms[n]);
      assert ExtraTerms(terms) == ExtraTerms(init) + [terms[n]];
      assert init + [terms[n]] == terms;
    }
  }
}
