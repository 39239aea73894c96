/**
 * Session identity: the insertion-ordered, size-capped maps the handler keeps in process
 * memory (runtime state, token-model aliases and context aliases), the keys and hashes that
 * name a conversation, and the resolution of the session id for a request.
 * SHA-1 is the parameter `sha1Hex`, the hex digest of its input; the clock and the random
 * seed of an ephemeral id are parameters too.
 */
module Identity {
  import opened Wrappers
  import opened Seqs
  import opened Text
  import opened Js
  import opened Turns
  import Memory
  import Config

  // ---------------------------------------------------------------------------------------
  // The capped stores.

  predicate NoDuplicates(keys: seq<string>) {
    forall i, j :: 0 <= i < j < |keys| ==> keys[i] != keys[j]
  }

  /** `Map.set`'s effect on the key order: an existing key keeps its place, a new one goes last. */
  function Inserted(keys: seq<string>, key: string): (r: seq<string>)
    ensures key in r
    ensures forall k :: k in r <==> k in keys || k == key
  {
    if key in keys then keys else keys + [key]
  }

  /** The eviction after a `set`: past the cap, the oldest key goes, unless it is the (falsy) empty string. */
  function Evicted(keys: seq<string>, limit: nat): (r: seq<string>)
    ensures |r| <= |keys|
  {
    if |keys| > limit && keys[0] != "" then keys[1..] else keys
  }

  /** With a cap of at least one and a map within it, the key just set is never the one evicted. */
  lemma NewestSurvives(keys: seq<string>, key: string, limit: nat)
    requires limit >= 1 && |keys| <= limit
    ensures key in Evicted(Inserted(keys, key), limit)
  {
    var inserted := Inserted(keys, key);
    if |inserted| > limit && inserted[0] != "" {
      assert inserted == keys + [key];
      assert inserted[1..][|keys| - 1] == key;
    }
  }

  /** Setting a non-empty key in a map of non-empty keys within the cap keeps it within the cap. */
  lemma SetKeepsBound(keys: seq<string>, key: string, limit: nat)
    requires |keys| <= limit && key != "" && forall i :: 0 <= i < |keys| ==> keys[i] != ""
    ensures var r := Evicted(Inserted(keys, key), limit);
      |r| <= limit && forall i :: 0 <= i < |r| ==> r[i] != ""
  {
  }

  /** A new key in a full map pushes out the oldest one and goes last. */
  lemma FullMapDropsOldest(keys: seq<string>, key: string, limit: nat)
    requires |keys| == limit && key !in keys && keys != [] && keys[0] != ""
    ensures Evicted(Inserted(keys, key), limit) == keys[1..] + [key]
  {
  }

  /**
   * A JavaScript `Map` used as a bounded cache: `keys` is its iteration (insertion) order,
   * `entries` its contents, `limit` the size past which `set` drops the oldest entry.
   */
  class BoundedMap<V> {
    var keys: seq<string>
    var entries: map<string, V>
    const limit: nat

    ghost predicate Valid()
      reads this
    {
      NoDuplicates(keys) && (forall k :: k in entries <==> k in keys)
    }

    /** Within the cap, with no empty key (the one key the eviction check cannot delete). */
    predicate Bounded()
      reads this
    {
      |keys| <= limit && forall i :: 0 <= i < |keys| ==> keys[i] != ""
    }

    constructor (limit: nat)
      ensures Valid()
      ensures keys == [] && entries == map[] && this.limit == limit
    {
      keys := [];
      entries := map[];
      this.limit := limit;
    }

    /** `map.get(key)`. */
    function Get(key: string): Option<V>
      reads this
    {
      if key in entries then Some(entries[key]) else None
    }

    /** `map.set(key, value)`. */
    method Put(key: string, value: V)
      requires Valid()
      modifies this
      ensures Valid()
      ensures keys == Inserted(old(keys), key)
      ensures entries == old(entries)[key := value]
    {
      ghost var before := keys;
      entries := entries[key := value];
      if key !in keys {
        keys := keys + [key];
        forall i, j | 0 <= i < j < |keys| ensures keys[i] != keys[j] {
          if j == |keys| - 1 {
            assert keys[i] in before;
          } else {
            assert keys[i] == before[i] && keys[j] == before[j];
          }
        }
      }
    }

    /** The eviction check: past the cap, the first key in iteration order is deleted unless it is "". */
    method EvictOldest()
      requires Valid()
      modifies this
      ensures Valid()
      ensures keys == Evicted(old(keys), limit)
      ensures forall k :: k in entries ==> k in old(entries) && entries[k] == old(entries)[k]
    {
      if |keys| > limit {
        var firstKey := keys[0];
        if firstKey != "" {
          ghost var before := keys;
          entries := map k | k in entries && k != firstKey :: entries[k];
          keys := keys[1..];
          forall i | 0 <= i < |keys| ensures keys[i] != firstKey {
            assert keys[i] == before[i + 1];
          }
          forall k | k in before && k != firstKey ensures k in keys {
            var i :| 0 <= i < |before| && before[i] == k;
            assert keys[i - 1] == k;
          }
          forall i, j | 0 <= i < j < |keys| ensures keys[i] != keys[j] {
            assert keys[i] == before[i + 1] && keys[j] == before[j + 1];
          }
        }
      }
    }

    /** `map.set(key, value)` followed by the eviction check of the handler. */
    method Set(key: string, value: V)
      requires Valid()
      modifies this
      ensures Valid()
      ensures keys == Evicted(Inserted(old(keys), key), limit)
      ensures forall k :: k in entries ==> k in old(entries)[key := value] && entries[k] == old(entries)[key := value][k]
      ensures limit >= 1 && |old(keys)| <= limit ==> Get(key) == Some(value)
      ensures key != "" && old(Bounded()) ==> Bounded()
    {
      ghost var before := keys;
      Put(key, value);
      EvictOldest();
      if limit >= 1 && |before| <= limit {
        NewestSurvives(before, key, limit);
      }
      if key != "" && |before| <= limit && forall i :: 0 <= i < |before| ==> before[i] != "" {
        SetKeepsBound(before, key, limit);
      }
    }
  }

  // ---------------------------------------------------------------------------------------
  // `getRuntimeState` and `setRuntimeState`.

  const RUNTIME_STORE_LIMIT: nat := 2000
  const ALIAS_STORE_LIMIT: nat := 5000
  const CONTEXT_ALIAS_STORE_LIMIT: nat := 10000

  /** What the handler remembers about an upstream thread between requests. */
  datatype RuntimeState = RuntimeState(bootstrapped: bool, systemText: string)

  /** The record `setRuntimeState` stores, stamped with the time of the write. */
  datatype RuntimeRecord = RuntimeRecord(bootstrapped: bool, systemText: string, updatedAt: int)

  /** `getRuntimeState`: the stored flags, or a thread not yet bootstrapped and no system text. */
  function GetRuntimeState(store: BoundedMap<RuntimeRecord>, sessionKey: string): RuntimeState
    reads store
  {
    match store.Get(sessionKey)
    case None => RuntimeState(false, "")
    case Some(record) => RuntimeState(record.bootstrapped, record.systemText)
  }

  /** `setRuntimeState`; `now` is `Date.now()`. */
  method SetRuntimeState(store: BoundedMap<RuntimeRecord>, sessionKey: string, state: RuntimeState, now: int)
    requires store.Valid() && store.limit == RUNTIME_STORE_LIMIT
    modifies store
    ensures store.Valid()
    ensures store.keys == Evicted(Inserted(old(store.keys), sessionKey), store.limit)
    ensures |old(store.keys)| <= RUNTIME_STORE_LIMIT ==> GetRuntimeState(store, sessionKey) == state
    ensures sessionKey != "" && old(store.Bounded()) ==> store.Bounded() && |store.keys| <= RUNTIME_STORE_LIMIT
    ensures forall k :: k in store.entries && k != sessionKey ==> k in old(store.entries) && store.entries[k] == old(store.entries)[k]
  {
    store.Set(sessionKey, RuntimeRecord(state.bootstrapped, state.systemText, now));
  }

  // ---------------------------------------------------------------------------------------
  // `normalizeHashText`.

  /** Whitespace only as single plain spaces. */
  predicate SingleSpaced(s: string) {
    forall i :: 0 <= i < |s| && IsSpace(s[i]) ==> s[i] == ' ' && (i + 1 < |s| ==> !IsSpace(s[i + 1]))
  }

  lemma CollapseSpacesHead(s: string)
    requires s != [] && !IsSpace(s[0])
    ensures CollapseSpaces(s) != [] && CollapseSpaces(s)[0] == s[0]
  {
  }

  lemma {:induction false} CollapseSpacesSingleSpaced(s: string)
    ensures SingleSpaced(CollapseSpaces(s))
    decreases |s|
  {
    if s != [] {
      if IsSpace(s[0]) {
        var t := TrimStart(s);
        TrimStartParts(s);
        CollapseSpacesSingleSpaced(t);
        if t != [] {
          CollapseSpacesHead(t);
        }
        var r := CollapseSpaces(s);
        assert r == [' '] + CollapseSpaces(t);
        forall i | 0 <= i < |r| && IsSpace(r[i]) ensures r[i] == ' ' && (i + 1 < |r| ==> !IsSpace(r[i + 1])) {
          if i > 0 {
            assert r[i] == CollapseSpaces(t)[i - 1];
          }
        }
      } else {
        CollapseSpacesSingleSpaced(s[1..]);
        var r := CollapseSpaces(s);
        assert r == [s[0]] + CollapseSpaces(s[1..]);
        forall i | 0 <= i < |r| && IsSpace(r[i]) ensures r[i] == ' ' && (i + 1 < |r| ==> !IsSpace(r[i + 1])) {
          assert r[i] == CollapseSpaces(s[1..])[i - 1];
        }
      }
    }
  }

  lemma SingleSpacedSlice(s: string, a: nat, b: nat)
    requires SingleSpaced(s) && a <= b <= |s|
    ensures SingleSpaced(s[a..b])
  {
    var t := s[a..b];
    forall i | 0 <= i < |t| && IsSpace(t[i]) ensures t[i] == ' ' && (i + 1 < |t| ==> !IsSpace(t[i + 1])) {
      assert t[i] == s[a + i];
      if i + 1 < |t| {
        assert t[i + 1] == s[a + i + 1];
      }
    }
  }

  lemma SingleSpacedTrim(s: string)
    requires SingleSpaced(s)
    ensures SingleSpaced(Trim(s))
  {
    var t := TrimStart(s);
    SingleSpacedSlice(s, LeadingSpace(s), |s|);
    SingleSpacedSlice(t, 0, TrailingSpaceStart(t));
  }

  /**
   * `normalizeHashText`: the trimmed text with every whitespace run made one space, cut to
   * `maxLength` characters when that is not 0.
   */
  function NormalizeHashText(value: string, maxLength: nat): (r: string)
    ensures r == "" <==> Blank(value)
    ensures maxLength > 0 ==> |r| <= maxLength
    ensures SingleSpaced(r)
    ensures r != "" ==> !IsSpace(r[0])
  {
    var text := Trim(value);
    if text == "" then ""
    else
      var compact := Trim(CollapseSpaces(text));
      CollapseSpacesHead(text);
      assert CollapseSpaces(text)[..1] == text[..1];
      NonBlankPrefix(text[..1], CollapseSpaces(text));
      CollapseSpacesSingleSpaced(text);
      SingleSpacedTrim(CollapseSpaces(text));
      if maxLength == 0 || |compact| <= maxLength then compact
      else
        SingleSpacedSlice(compact, 0, maxLength);
        compact[..maxLength]
  }

  /**
   * `normalizeHashText` keeps the text: its non-whitespace characters are a prefix of the
   * input's, and all of them when the input fits the cap.
   */
  lemma NormalizeHashTextKeepsText(value: string, maxLength: nat)
    ensures StartsWith(NonSpaceChars(value), NonSpaceChars(NormalizeHashText(value, maxLength)))
    ensures maxLength == 0 || |value| <= maxLength ==>
      NonSpaceChars(NormalizeHashText(value, maxLength)) == NonSpaceChars(value)
  {
    var r := NormalizeHashText(value, maxLength);
    var compact := Trim(CollapseSpaces(Trim(value)));
    NormalizeHashTextCases(value, maxLength);
    CompactKeepsText(value);
    if r == compact {
    } else if r == "" {
      NonSpaceCharsTrim(value);
    } else {
      NonSpaceCharsPrefix(compact, maxLength);
    }
  }

  lemma NormalizeHashTextCases(value: string, maxLength: nat)
    ensures var r := NormalizeHashText(value, maxLength);
      var compact := Trim(CollapseSpaces(Trim(value)));
      (Trim(value) == "" && r == "") ||
      (r == compact && (maxLength == 0 || |compact| <= maxLength)) ||
      (maxLength < |compact| && r == compact[..maxLength])
  {
  }

  lemma CompactKeepsText(value: string)
    ensures var compact := Trim(CollapseSpaces(Trim(value)));
      NonSpaceChars(compact) == NonSpaceChars(value) && |compact| <= |value|
  {
    NonSpaceCharsTrim(value);
    NonSpaceCharsCollapse(Trim(value));
    NonSpaceCharsTrim(CollapseSpaces(Trim(value)));
  }

  /** How wide a whitespace run inside the text is does not change `normalizeHashText`. */
  lemma NormalizeHashTextIgnoresRunWidth(a: string, w1: string, w2: string, b: string, maxLength: nat)
    requires a != [] && b != [] && IsTrimmed(a) && IsTrimmed(b)
    requires w1 != [] && w2 != [] && AllSpace(w1) && AllSpace(w2)
    ensures NormalizeHashText(a + w1 + b, maxLength) == NormalizeHashText(a + w2 + b, maxLength)
  {
    assert a + w1 + b == a + (w1 + b) && a + w2 + b == a + (w2 + b);
    assert IsTrimmed(a + w1 + b) && IsTrimmed(a + w2 + b);
    TrimOfTrimmed(a + w1 + b);
    TrimOfTrimmed(a + w2 + b);
    CollapseSpacesWiden(a, w1, w2, b);
  }

  // ---------------------------------------------------------------------------------------
  // Alias keys and session ids.

  const DEFAULT_MODEL := "default-model"
  const CONTEXT_SEPARATOR := "\n---\n"
  const AUTO_PREFIX := "auto-"

  /** `makeSessionAliasKey`: "<token fingerprint>::<model>". */
  function MakeSessionAliasKey(sha1Hex: string -> string, token: string, model: string): string {
    Memory.TokenFingerprint(sha1Hex, token) + "::" + Memory.SafeName(model, DEFAULT_MODEL)
  }

  /** The 16-digit hash of the conversation's opening: its system text and first user message. */
  function ContextHash(sha1Hex: string -> string, systemText: string, firstUserMessage: string): string {
    Take(sha1Hex(NormalizeHashText(systemText, 800) + CONTEXT_SEPARATOR + NormalizeHashText(firstUserMessage, 700)), 16)
  }

  /** `makeSessionContextAliasKey`: the alias key extended with the hash of the conversation's opening. */
  function MakeSessionContextAliasKey(sha1Hex: string -> string, token: string, model: string, systemText: string, firstUserMessage: string): (key: string)
    ensures StartsWith(key, MakeSessionAliasKey(sha1Hex, token, model) + "::ctx-")
  {
    var key := MakeSessionAliasKey(sha1Hex, token, model) + "::ctx-" + ContextHash(sha1Hex, systemText, firstUserMessage);
    assert key[..|MakeSessionAliasKey(sha1Hex, token, model) + "::ctx-"|] == MakeSessionAliasKey(sha1Hex, token, model) + "::ctx-";
    key
  }

  /** Whitespace around the system text or the first user message does not change the context key. */
  lemma ContextKeyIgnoresSurroundingSpace(sha1Hex: string -> string, token: string, model: string, systemText: string, firstUserMessage: string)
    ensures MakeSessionContextAliasKey(sha1Hex, token, model, Trim(systemText), Trim(firstUserMessage)) ==
            MakeSessionContextAliasKey(sha1Hex, token, model, systemText, firstUserMessage)
  {
    NormalizeHashTextOfTrim(systemText, 800);
    NormalizeHashTextOfTrim(firstUserMessage, 700);
  }

  lemma NormalizeHashTextOfTrim(value: string, maxLength: nat)
    ensures NormalizeHashText(Trim(value), maxLength) == NormalizeHashText(value, maxLength)
  {
    TrimIdempotent(value);
  }

  /** `createEphemeralSessionId`: "auto-" and 16 hex digits of the hash of `seed`, the clock and random part. */
  function CreateEphemeralSessionId(sha1Hex: string -> string, seed: string): (id: string)
    ensures StartsWith(id, AUTO_PREFIX)
  {
    var id := AUTO_PREFIX + Take(sha1Hex(seed), 16);
    assert id[..|AUTO_PREFIX|] == AUTO_PREFIX;
    id
  }

  /** An "auto-" id is never the default session id. */
  lemma AutoIsNotDefault(id: string)
    requires StartsWith(id, AUTO_PREFIX)
    ensures id != Config.DEFAULT_SESSION
  {
    assert id[0] == 'a';
    assert Config.DEFAULT_SESSION[0] == 'd';
  }

  // ---------------------------------------------------------------------------------------
  // `firstUserTurnContent`, `deriveImplicitSessionId`, `hasContextForImplicitSession`.

  /** A user turn whose content is not blank. */
  predicate IsUserWithText(t: Turn) {
    t.role == User && !Blank(t.content)
  }

  /** The trimmed content of the first user turn with text, else the trimmed fallback. */
  function FirstUserText(turns: seq<Turn>, fallback: string): (r: string)
    ensures IsTrimmed(r)
    ensures r == "" <==> (forall i :: 0 <= i < |turns| ==> !IsUserWithText(turns[i])) && Blank(fallback)
  {
    match FirstWhere(turns, IsUserWithText, None, 0)
    case Some(i) => Trim(turns[i].content)
    case None => Trim(fallback)
  }

  /** `firstUserTurnContent`, with its loop. */
  method FirstUserTurnContent(turns: seq<Turn>, fallback: string) returns (r: string)
    ensures r == FirstUserText(turns, fallback)
  {
    for i := 0 to |turns|
      invariant FirstWhere(turns[..i], IsUserWithText, None, 0) == None
    {
      FirstWhereSnoc(turns, IsUserWithText, None, i);
      if turns[i].role == User && !Blank(turns[i].content) {
        FirstWhereOfPrefix(turns, IsUserWithText, None, i + 1);
        return Trim(turns[i].content);
      }
    }
    assert turns[..|turns|] == turns;
    return Trim(fallback);
  }

  predicate IsUserTurn(t: Turn) {
    t.role == User
  }

  /** The text `deriveImplicitSessionId` hashes for the user: the first user turn's content, else the user message. */
  function ImplicitUserSource(turns: seq<Turn>, userMessage: string): string {
    var userTurns := Filter(Dialogue(turns), IsUserTurn);
    if userTurns != [] then userTurns[0].content else userMessage
  }

  predicate NonEmpty(s: string) {
    s != ""
  }

  lemma FilterPair(a: string, b: string)
    ensures Filter([a, b], NonEmpty) == [] <==> a == "" && b == ""
  {
    assert [a, b] == [a] + [b];
    FilterConcat([a], [b], NonEmpty);
    assert [a][1..] == [] && [b][1..] == [];
  }

  /**
   * `deriveImplicitSessionId`: "auto-" and 16 hex digits of the hash of the normalised system
   * text and first user message (the empty ones left out), or the default session id when
   * both are blank.
   */
  function DeriveImplicitSessionId(sha1Hex: string -> string, systemText: string, turns: seq<Turn>, userMessage: string): (id: string)
    ensures id == Config.DEFAULT_SESSION <==> Blank(systemText) && Blank(ImplicitUserSource(turns, userMessage))
    ensures id != Config.DEFAULT_SESSION ==> StartsWith(id, AUTO_PREFIX)
  {
    var firstUser := NormalizeHashText(ImplicitUserSource(turns, userMessage), 900);
    var normalizedSystem := NormalizeHashText(systemText, 1500);
    var signatureParts := Filter([normalizedSystem, firstUser], NonEmpty);
    FilterPair(normalizedSystem, firstUser);
    if signatureParts == [] then Config.DEFAULT_SESSION
    else
      var id := AUTO_PREFIX + Take(sha1Hex(Join(signatureParts, CONTEXT_SEPARATOR)), 16);
      assert id[..|AUTO_PREFIX|] == AUTO_PREFIX;
      AutoIsNotDefault(id);
      id
  }

  /** `hasContextForImplicitSession`: system text, or a reply, or more than one turn. */
  predicate HasContextForImplicitSession(systemText: string, turns: seq<Turn>) {
    !Blank(systemText) ||
    (turns != [] && ((exists i :: 0 <= i < |turns| && turns[i].role == Assistant && turns[i].content != "") || |turns| > 1))
  }

  /** `hasExplicitSessionRequest`: a session header with text (one of the entries when repeated), or a session field in the body. */
  predicate HasExplicitSessionRequest(headers: map<string, Value>, sessionCandidate: Value) {
    var headerValue := FirstTruthy([Get(headers, "x-session-id"), Get(headers, "X-Session-Id"),
                                    Get(headers, "x-conversation-id"), Get(headers, "X-Conversation-Id")]);
    NonBlankString(headerValue) ||
    (headerValue.StrList? && exists i :: 0 <= i < |headerValue.items| && !Blank(headerValue.items[i])) ||
    NonBlankString(sessionCandidate)
  }

  /** `sessionCandidate`: the body's conversation or chat id, or its `user` when `CAI_SESSION_USE_BODY_USER` allows it. */
  function SessionCandidate(body: map<string, Value>, allowBodyUser: bool): Value {
    FirstTruthy([Get(body, "conversation_id"), Get(body, "conversationId"), Get(body, "chat_id"), Get(body, "chatId"),
                 if allowBodyUser then Get(body, "user") else Str("")])
  }

  // ---------------------------------------------------------------------------------------
  // Session resolution in the handler.

  /** Where the session id of a request came from. */
  datatype SessionSource = Explicit | ContextAlias | ImplicitContext | AliasFallback | FallbackEphemeral

  datatype Resolution = Resolution(sessionId: string, source: SessionSource)

  /** A remembered session id that is a non-blank string. */
  predicate Usable(remembered: Option<string>) {
    remembered.Some? && !Blank(remembered.value)
  }

  /**
   * The precedence of the handler: an explicit id, else the id remembered for the
   * conversation's opening, else one derived from that opening, else (when enabled) the id
   * last used with this token and model, else a fresh ephemeral id. Each later step only
   * runs while the id is still the default one.
   */
  function ResolvedSession(explicitId: string, canUseContextAlias: bool, contextMapped: Option<string>,
                           implicitContext: bool, implicitId: string,
                           aliasFallback: bool, remembered: Option<string>, ephemeralId: string): (r: Resolution)
    ensures ephemeralId != Config.DEFAULT_SESSION ==> r.sessionId != Config.DEFAULT_SESSION
  {
    var first := Resolution(explicitId, Explicit);
    var second := if first.sessionId == Config.DEFAULT_SESSION && canUseContextAlias && Usable(contextMapped)
                  then Resolution(Trim(contextMapped.value), ContextAlias) else first;
    var third := if second.sessionId == Config.DEFAULT_SESSION && implicitContext
                 then Resolution(implicitId, ImplicitContext) else second;
    var fourth := if third.sessionId == Config.DEFAULT_SESSION && aliasFallback && Usable(remembered)
                  then Resolution(Trim(remembered.value), AliasFallback) else third;
    if fourth.sessionId == Config.DEFAULT_SESSION then Resolution(ephemeralId, FallbackEphemeral) else fourth
  }

  /** An explicit session id always wins. */
  lemma ExplicitWins(explicitId: string, canUseContextAlias: bool, contextMapped: Option<string>,
                     implicitContext: bool, implicitId: string, aliasFallback: bool, remembered: Option<string>, ephemeralId: string)
    requires explicitId != Config.DEFAULT_SESSION
    ensures ResolvedSession(explicitId, canUseContextAlias, contextMapped, implicitContext, implicitId, aliasFallback, remembered, ephemeralId)
      == Resolution(explicitId, Explicit)
  {
  }

  /** Without an explicit id, the session remembered for the same opening comes back, ahead of every other source. */
  lemma ContextAliasReturns(canUseContextAlias: bool, contextMapped: Option<string>,
                            implicitContext: bool, implicitId: string, aliasFallback: bool, remembered: Option<string>, ephemeralId: string)
    requires canUseContextAlias && Usable(contextMapped) && Trim(contextMapped.value) != Config.DEFAULT_SESSION
    ensures ResolvedSession(Config.DEFAULT_SESSION, canUseContextAlias, contextMapped, implicitContext, implicitId, aliasFallback, remembered, ephemeralId)
      == Resolution(Trim(contextMapped.value), ContextAlias)
  {
  }

  /** A request with nothing to go on gets a fresh ephemeral id. */
  lemma NothingGivesEphemeral(contextMapped: Option<string>, implicitId: string, remembered: Option<string>, ephemeralId: string)
    ensures ResolvedSession(Config.DEFAULT_SESSION, false, contextMapped, false, implicitId, false, remembered, ephemeralId)
      == Resolution(ephemeralId, FallbackEphemeral)
  {
  }

  /** `shortHistoryStart`: no explicit session, at most two turns with at most one of each role, and a user message. */
  predicate ShortHistoryStart(explicitRequested: bool, incomingTurns: seq<Turn>, userMessage: string) {
    !explicitRequested && |incomingTurns| <= 2 && CountRole(incomingTurns, User) <= 1 &&
    CountRole(incomingTurns, Assistant) <= 1 && !Blank(userMessage)
  }

  /** The two writes after resolution: the token-model alias when enabled, the context alias when there is an opening. */
  method RememberSession(contextAliases: BoundedMap<string>, aliases: BoundedMap<string>,
                         canUseContextAlias: bool, contextKey: string, aliasFallback: bool, aliasKey: string, sessionId: string)
    requires contextAliases != aliases && contextAliases.Valid() && aliases.Valid()
    requires contextAliases.limit == CONTEXT_ALIAS_STORE_LIMIT && aliases.limit == ALIAS_STORE_LIMIT
    requires sessionId != Config.DEFAULT_SESSION
    modifies contextAliases, aliases
    ensures contextAliases.Valid() && aliases.Valid()
    ensures contextKey != "" && old(contextAliases.Bounded()) ==> contextAliases.Bounded() && |contextAliases.keys| <= CONTEXT_ALIAS_STORE_LIMIT
    ensures aliasKey != "" && old(aliases.Bounded()) ==> aliases.Bounded() && |aliases.keys| <= ALIAS_STORE_LIMIT
    ensures canUseContextAlias ==> contextAliases.keys == Evicted(Inserted(old(contextAliases.keys), contextKey), contextAliases.limit)
    ensures !canUseContextAlias ==> contextAliases.keys == old(contextAliases.keys)
    ensures aliasFallback ==> aliases.keys == Evicted(Inserted(old(aliases.keys), aliasKey), aliases.limit)
    ensures !aliasFallback ==> aliases.keys == old(aliases.keys)
    ensures canUseContextAlias && |old(contextAliases.keys)| <= CONTEXT_ALIAS_STORE_LIMIT ==>
      contextAliases.Get(contextKey) == Some(sessionId)
    ensures aliasFallback && |old(aliases.keys)| <= ALIAS_STORE_LIMIT ==> aliases.Get(aliasKey) == Some(sessionId)
    ensures forall k :: k in contextAliases.entries && k != contextKey ==>
      k in old(contextAliases.entries) && contextAliases.entries[k] == old(contextAliases.entries)[k]
    ensures forall k :: k in aliases.entries && k != aliasKey ==> k in old(aliases.entries) && aliases.entries[k] == old(aliases.entries)[k]
    ensures !canUseContextAlias ==> contextAliases.entries == old(contextAliases.entries)
    ensures !aliasFallback ==> aliases.entries == old(aliases.entries)
  {
    if aliasFallback {
      aliases.Set(aliasKey, sessionId);
    }
    if canUseContextAlias && sessionId != Config.DEFAULT_SESSION {
      contextAliases.Set(contextKey, sessionId);
    }
  }

  /**
   * The session-resolution block of the handler: resolves the id from the request and the
   * two alias stores, then records it in them. `aliasFallback` is `CAI_SESSION_ALIAS_FALLBACK`
   * read as a switch, `ephemeralSeed` the clock and random part of an ephemeral id.
   */
  method ResolveSession(contextAliases: BoundedMap<string>, aliases: BoundedMap<string>, sha1Hex: string -> string,
                        headers: map<string, Value>, sessionCandidate: Value, token: string, model: string,
                        incomingSystemText: string, incomingTurns: seq<Turn>, userMessage: string,
                        aliasFallback: bool, ephemeralSeed: string)
    returns (r: Resolution, forceFreshReset: bool)
    requires contextAliases != aliases && contextAliases.Valid() && aliases.Valid()
    requires contextAliases.limit == CONTEXT_ALIAS_STORE_LIMIT && aliases.limit == ALIAS_STORE_LIMIT
    modifies contextAliases, aliases
    ensures contextAliases.Valid() && aliases.Valid()
    ensures old(contextAliases.Bounded()) ==> contextAliases.Bounded() && |contextAliases.keys| <= CONTEXT_ALIAS_STORE_LIMIT
    ensures old(aliases.Bounded()) ==> aliases.Bounded() && |aliases.keys| <= ALIAS_STORE_LIMIT
    ensures var firstUser := FirstUserText(incomingTurns, userMessage);
      var canUse := !Blank(incomingSystemText) || firstUser != "";
      var contextKey := MakeSessionContextAliasKey(sha1Hex, token, model, incomingSystemText, firstUser);
      var aliasKey := MakeSessionAliasKey(sha1Hex, token, model);
      r == ResolvedSession(Config.ResolveSessionId(headers, sessionCandidate), canUse,
                           if canUse then old(contextAliases.Get(contextKey)) else None,
                           HasContextForImplicitSession(incomingSystemText, incomingTurns),
                           DeriveImplicitSessionId(sha1Hex, incomingSystemText, incomingTurns, userMessage),
                           aliasFallback, if aliasFallback then old(aliases.Get(aliasKey)) else None,
                           CreateEphemeralSessionId(sha1Hex, ephemeralSeed)) &&
      (canUse ==> contextAliases.keys == Evicted(Inserted(old(contextAliases.keys), contextKey), contextAliases.limit)) &&
      (!canUse ==> contextAliases.keys == old(contextAliases.keys)) &&
      (aliasFallback ==> aliases.keys == Evicted(Inserted(old(aliases.keys), aliasKey), aliases.limit)) &&
      (!aliasFallback ==> aliases.keys == old(aliases.keys)) &&
      (canUse && |old(contextAliases.keys)| <= CONTEXT_ALIAS_STORE_LIMIT ==>
         contextAliases.Get(contextKey) == Some(r.sessionId)) &&
      (aliasFallback && |old(aliases.keys)| <= ALIAS_STORE_LIMIT ==> aliases.Get(aliasKey) == Some(r.sessionId)) &&
      (forall k :: k in contextAliases.entries && k != contextKey ==>
         k in old(contextAliases.entries) && contextAliases.entries[k] == old(contextAliases.entries)[k]) &&
      (forall k :: k in aliases.entries && k != aliasKey ==> k in old(aliases.entries) && aliases.entries[k] == old(aliases.entries)[k]) &&
      (!canUse ==> contextAliases.entries == old(contextAliases.entries)) &&
      (!aliasFallback ==> aliases.entries == old(aliases.entries))
    ensures r.sessionId != Config.DEFAULT_SESSION
    ensures forceFreshReset == (ShortHistoryStart(HasExplicitSessionRequest(headers, sessionCandidate), incomingTurns, userMessage) &&
                                r.source != Explicit)
  {
    var sessionAliasKey := MakeSessionAliasKey(sha1Hex, token, model);
    var firstIncomingUserMessage := FirstUserTurnContent(incomingTurns, userMessage);
    var canUseContextAlias := !Blank(incomingSystemText) || firstIncomingUserMessage != "";
    var contextAliasKey := if canUseContextAlias
      then MakeSessionContextAliasKey(sha1Hex, token, model, incomingSystemText, firstIncomingUserMessage) else "";
    var hasImplicitSessionContext := HasContextForImplicitSession(incomingSystemText, incomingTurns);
    var explicitSessionRequested := HasExplicitSessionRequest(headers, sessionCandidate);
    var shortHistoryStart := ShortHistoryStart(explicitSessionRequested, incomingTurns, userMessage);

    var mapped := if canUseContextAlias then contextAliases.Get(contextAliasKey) else None;
    var remembered := if aliasFallback then aliases.Get(sessionAliasKey) else None;
    var ephemeralId := CreateEphemeralSessionId(sha1Hex, ephemeralSeed);
    AutoIsNotDefault(ephemeralId);
    r := ResolvedSession(Config.ResolveSessionId(headers, sessionCandidate), canUseContextAlias, mapped,
                         hasImplicitSessionContext,
                         DeriveImplicitSessionId(sha1Hex, incomingSystemText, incomingTurns, userMessage),
                         aliasFallback, remembered, ephemeralId);

    RememberSession(contextAliases, aliases, canUseContextAlias, contextAliasKey, aliasFallback, sessionAliasKey, r.sessionId);
    forceFreshReset := shortHistoryStart && r.source != Explicit;
  }
}
