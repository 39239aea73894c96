/**
 * The turn store of lib/memory.js: one bounded, cleaned turn log per session key,
 * the session-key builder and the plain-text history block.
 */
module Memory {
  import opened Text
  import opened Seqs
  import opened Turns

  /** Defaults of `CAI_MEMORY_MAX_TURNS` and `CAI_MEMORY_MAX_CHARS`. */
  const DEFAULT_MAX_TURNS: nat := 24
  const DEFAULT_MAX_CONTENT_CHARS: nat := 8000
  /** How many turns `buildHistoryBlock` shows at most. */
  const HISTORY_BLOCK_TURNS: nat := 14
  const NO_PRIOR_TURNS := "No prior turns."

  /**
   * A cap as `Number(...)` reads it from the environment. A fractional value is given by its
   * truncation toward zero: `clampText` compares a whole length with it and `slice` truncates
   * it, and both then see only that integer.
   */
  datatype Limit = Finite(n: int) | PosInfinity | NegInfinity | NaN

  /** A cap that is a whole number of zero or more, as the defaults are. */
  predicate Natural(limit: Limit) {
    limit.Finite? && limit.n >= 0
  }

  /** A turn cap under which `slice(-MAX_TURNS)` keeps the newest turn: a whole number, +Infinity or NaN. */
  predicate KeepsNewest(maxTurns: Limit) {
    Natural(maxTurns) || maxTurns.PosInfinity? || maxTurns.NaN?
  }

  /** `length <= limit`; false for NaN. */
  predicate Within(length: nat, limit: Limit) {
    match limit
    case Finite(n) => length <= n
    case PosInfinity => true
    case NegInfinity => false
    case NaN => false
  }

  /** `-limit`. */
  function Negate(limit: Limit): Limit {
    match limit
    case Finite(n) => Finite(-n)
    case PosInfinity => NegInfinity
    case NegInfinity => PosInfinity
    case NaN => NaN
  }

  /**
   * The position `slice` makes of an argument for a list of `length` items: NaN is 0, a
   * negative value counts back from the end, and the position is clamped to the list.
   */
  function SliceIndex(length: nat, limit: Limit): (i: nat)
    ensures i <= length
  {
    match limit
    case Finite(n) => if n < 0 then (if length + n < 0 then 0 else length + n) else if n < length then n else length
    case PosInfinity => length
    case NegInfinity => 0
    case NaN => 0
  }

  /**
   * `clampText`: the trimmed text, cut with `slice(0, maxChars)` plus "..." when it is not
   * within the cap. A negative cap cuts that many characters off the end; NaN and -Infinity
   * turn every non-blank text into "...".
   */
  function ClampText(value: string, maxChars: Limit): (r: string)
    ensures IsTrimmed(r)
    ensures r == "" <==> Trim(value) == ""
    ensures Within(|Trim(value)|, maxChars) ==> r == Trim(value)
    ensures Trim(value) != "" && !Within(|Trim(value)|, maxChars) ==>
      |r| >= 3 && |r| - 3 < |Trim(value)| && r == Trim(value)[..|r| - 3] + "..."
    ensures Natural(maxChars) && |Trim(value)| > maxChars.n ==>
      r == Trim(value)[..maxChars.n] + "..." && |r| == maxChars.n + 3
    ensures maxChars.Finite? && maxChars.n < 0 && Trim(value) != "" ==>
      |r| == (if |Trim(value)| + maxChars.n < 0 then 0 else |Trim(value)| + maxChars.n) + 3
    ensures (maxChars.NaN? || maxChars.NegInfinity?) && Trim(value) != "" ==> r == "..."
  {
    var text := Trim(value);
    if text == "" then ""
    else if Within(|text|, maxChars) then text
    else text[..SliceIndex(|text|, maxChars)] + "..."
  }

  /** Under a whole-number cap, a clamped text is its own clamp: clamping twice is clamping once. */
  lemma ClampTextIdempotent(value: string, maxChars: nat)
    ensures ClampText(ClampText(value, Finite(maxChars)), Finite(maxChars)) == ClampText(value, Finite(maxChars))
  {
    var text := Trim(value);
    var once := ClampText(value, Finite(maxChars));
    if text != "" && |text| > maxChars {
      TrimOfTrimmed(once);
      assert once[..maxChars] == text[..maxChars];
    } else {
      TrimOfTrimmed(once);
    }
  }

  /** The roles `setSessionTurns` keeps. */
  predicate Storable(t: Turn) {
    t.role == User || t.role == Assistant || t.role == System
  }

  /** A turn as the store holds it under any cap: a kept role and non-empty, trimmed content. */
  predicate StoredTurn(t: Turn) {
    Storable(t) && t.content != "" && IsTrimmed(t.content)
  }

  /** A turn as the store holds it under a whole-number cap: content that clamping leaves alone. */
  predicate Clean(t: Turn, maxChars: nat) {
    StoredTurn(t) &&
    (|t.content| <= maxChars || (|t.content| == maxChars + 3 && t.content[maxChars..] == "..."))
  }

  /** Clamping yields a clean text, and leaves a clean text as it is. */
  lemma ClampTextClean(t: Turn, maxChars: nat)
    ensures Storable(t) && ClampText(t.content, Finite(maxChars)) != "" ==>
      Clean(Turn(t.role, ClampText(t.content, Finite(maxChars))), maxChars)
    ensures Clean(t, maxChars) ==> ClampText(t.content, Finite(maxChars)) == t.content
  {
    var c := ClampText(t.content, Finite(maxChars));
    var text := Trim(t.content);
    if |text| > maxChars {
      assert c[maxChars..] == "...";
    }
    if Clean(t, maxChars) {
      TrimOfTrimmed(t.content);
      if |t.content| > maxChars {
        assert t.content == t.content[..maxChars] + "...";
      }
    }
  }

  /** The `map` step of `setSessionTurns`: the same role with clamped content. */
  function ClampTurn(t: Turn, maxChars: Limit): Turn {
    Turn(t.role, ClampText(t.content, maxChars))
  }

  predicate HasContent(t: Turn) {
    t.content != ""
  }

  /** The filter/map/filter chain of `setSessionTurns`, before the `slice(-MAX_TURNS)`. */
  function CleanTurns(turns: seq<Turn>, maxChars: Limit): (r: seq<Turn>)
  {
    Filter(Map(Filter(turns, Storable), t => ClampTurn(t, maxChars)), HasContent)
  }

  /** Every turn the chain lets through is a stored turn, and clean under a whole-number cap. */
  lemma CleanTurnsClean(turns: seq<Turn>, maxChars: Limit)
    ensures |CleanTurns(turns, maxChars)| <= |turns|
    ensures forall i :: 0 <= i < |CleanTurns(turns, maxChars)| ==> StoredTurn(CleanTurns(turns, maxChars)[i])
    ensures Natural(maxChars) ==>
      forall i :: 0 <= i < |CleanTurns(turns, maxChars)| ==> Clean(CleanTurns(turns, maxChars)[i], maxChars.n)
  {
    var kept := Filter(turns, Storable);
    var clamped := Map(kept, t => ClampTurn(t, maxChars));
    var r := CleanTurns(turns, maxChars);
    forall i | 0 <= i < |r|
      ensures StoredTurn(r[i]) && (Natural(maxChars) ==> Clean(r[i], maxChars.n))
    {
      assert r[i] in clamped && HasContent(r[i]);
      var k :| 0 <= k < |clamped| && clamped[k] == r[i];
      assert Storable(kept[k]);
      if Natural(maxChars) {
        ClampTextClean(kept[k], maxChars.n);
      }
    }
  }

  lemma CleanTurnsConcat(a: seq<Turn>, b: seq<Turn>, maxChars: Limit)
    ensures CleanTurns(a + b, maxChars) == CleanTurns(a, maxChars) + CleanTurns(b, maxChars)
  {
    var f := t => ClampTurn(t, maxChars);
    FilterConcat(a, b, Storable);
    MapConcat(Filter(a, Storable), Filter(b, Storable), f);
    FilterConcat(Map(Filter(a, Storable), f), Map(Filter(b, Storable), f), HasContent);
  }

  /** Under a whole-number cap, cleaning a log whose turns are already clean changes nothing. */
  lemma CleanTurnsOfClean(turns: seq<Turn>, maxChars: nat)
    requires forall i :: 0 <= i < |turns| ==> Clean(turns[i], maxChars)
    ensures CleanTurns(turns, Finite(maxChars)) == turns
  {
    FilterKeepsAll(turns, Storable);
    var f := t => ClampTurn(t, Finite(maxChars));
    forall i | 0 <= i < |turns| ensures f(turns[i]) == turns[i] {
      ClampTextClean(turns[i], maxChars);
    }
    assert Map(turns, f) == turns;
    FilterKeepsAll(turns, HasContent);
  }

  /** What `setSessionTurns` stores for `turns`: the cleaned turns from `slice(-MAX_TURNS)` on. */
  function NormalizeTurns(turns: seq<Turn>, maxTurns: Limit, maxChars: Limit): (r: seq<Turn>)
  {
    var cleaned := CleanTurns(turns, maxChars);
    cleaned[SliceIndex(|cleaned|, Negate(maxTurns))..]
  }

  /**
   * A log the store may hold: stored turns; clean ones under a whole-number character cap,
   * and no more than `maxTurns` of them under a whole-number turn cap of at least one.
   */
  predicate StoredLog(log: seq<Turn>, maxTurns: Limit, maxChars: Limit) {
    (Natural(maxTurns) && maxTurns.n >= 1 ==> |log| <= maxTurns.n) &&
    (forall i :: 0 <= i < |log| ==> StoredTurn(log[i])) &&
    (Natural(maxChars) ==> forall i :: 0 <= i < |log| ==> Clean(log[i], maxChars.n))
  }

  /**
   * `slice(-maxTurns)` on a list: the newest `maxTurns` items for a whole-number cap of at
   * least one, all of them for 0, +Infinity or NaN; a negative cap drops that many of the
   * oldest items instead, and -Infinity drops every item.
   */
  lemma SliceNewest(c: seq<Turn>, maxTurns: Limit)
    ensures var r := c[SliceIndex(|c|, Negate(maxTurns))..];
      (Natural(maxTurns) ==> r == KeepLast(c, maxTurns.n)) &&
      (Natural(maxTurns) && maxTurns.n >= 1 && |c| > maxTurns.n ==> r == c[|c| - maxTurns.n..] && |r| == maxTurns.n) &&
      ((maxTurns == Finite(0) || maxTurns == PosInfinity || maxTurns == NaN ||
        (Natural(maxTurns) && |c| <= maxTurns.n)) ==> r == c) &&
      (maxTurns.Finite? && maxTurns.n < 0 ==>
         (-maxTurns.n <= |c| ==> r == c[-maxTurns.n..]) && (-maxTurns.n > |c| ==> r == [])) &&
      (maxTurns == NegInfinity ==> r == [])
  {
  }

  /**
   * The stored log is one the store may hold, and it is the cleaned input from
   * `slice(-maxTurns)` on, whose cases `SliceNewest` states.
   */
  lemma NormalizeTurnsBounded(turns: seq<Turn>, maxTurns: Limit, maxChars: Limit)
    ensures StoredLog(NormalizeTurns(turns, maxTurns, maxChars), maxTurns, maxChars)
    ensures var c := CleanTurns(turns, maxChars);
      var r := NormalizeTurns(turns, maxTurns, maxChars);
      (Natural(maxTurns) ==> r == KeepLast(c, maxTurns.n)) &&
      (Natural(maxTurns) && maxTurns.n >= 1 && |c| > maxTurns.n ==> r == c[|c| - maxTurns.n..] && |r| == maxTurns.n) &&
      ((maxTurns == Finite(0) || maxTurns == PosInfinity || maxTurns == NaN ||
        (Natural(maxTurns) && |c| <= maxTurns.n)) ==> r == c) &&
      (maxTurns.Finite? && maxTurns.n < 0 ==>
         (-maxTurns.n <= |c| ==> r == c[-maxTurns.n..]) && (-maxTurns.n > |c| ==> r == [])) &&
      (maxTurns == NegInfinity ==> r == [])
  {
    var c := CleanTurns(turns, maxChars);
    CleanTurnsClean(turns, maxChars);
    var start := SliceIndex(|c|, Negate(maxTurns));
    assert NormalizeTurns(turns, maxTurns, maxChars) == c[start..];
    SliceNewest(c, maxTurns);
    SuffixStoredLog(c, start, maxTurns, maxChars);
  }

  /** A suffix of stored turns within the turn cap is a log the store may hold. */
  lemma SuffixStoredLog(c: seq<Turn>, start: nat, maxTurns: Limit, maxChars: Limit)
    requires start <= |c|
    requires forall i :: 0 <= i < |c| ==> StoredTurn(c[i])
    requires Natural(maxChars) ==> forall i :: 0 <= i < |c| ==> Clean(c[i], maxChars.n)
    requires Natural(maxTurns) && maxTurns.n >= 1 ==> |c| - start <= maxTurns.n
    ensures StoredLog(c[start..], maxTurns, maxChars)
  {
    var r := c[start..];
    forall i | 0 <= i < |r| ensures r[i] == c[start + i] {
    }
  }

  /** Every stored turn, under any cap, is a system, user or assistant turn with non-empty, trimmed-at-the-start content. */
  lemma StoredTurnsValid(turns: seq<Turn>, maxTurns: Limit, maxChars: Limit, i: nat)
    requires i < |NormalizeTurns(turns, maxTurns, maxChars)|
    ensures var t := NormalizeTurns(turns, maxTurns, maxChars)[i];
      (t.role == User || t.role == Assistant || t.role == System) && t.content != "" && !IsSpace(t.content[0])
  {
    NormalizeTurnsBounded(turns, maxTurns, maxChars);
  }

  /** Under whole-number caps, storing a log that is already stored stores it unchanged. */
  lemma NormalizeTurnsIdempotent(turns: seq<Turn>, maxTurns: nat, maxChars: nat)
    ensures var once := NormalizeTurns(turns, Finite(maxTurns), Finite(maxChars));
      NormalizeTurns(once, Finite(maxTurns), Finite(maxChars)) == once
  {
    var once := NormalizeTurns(turns, Finite(maxTurns), Finite(maxChars));
    NormalizeTurnsBounded(turns, Finite(maxTurns), Finite(maxChars));
    CleanTurnsOfClean(once, maxChars);
    NormalizeTurnsBounded(once, Finite(maxTurns), Finite(maxChars));
  }

  /**
   * Under whole-number caps, appending to a stored log keeps the newest turns: the result is
   * the last `maxTurns` of the old log followed by the cleaned new turns.
   */
  lemma AppendKeepsNewest(stored: seq<Turn>, added: seq<Turn>, maxTurns: nat, maxChars: nat)
    requires StoredLog(stored, Finite(maxTurns), Finite(maxChars))
    ensures NormalizeTurns(stored + added, Finite(maxTurns), Finite(maxChars))
      == KeepLast(stored + CleanTurns(added, Finite(maxChars)), maxTurns)
  {
    CleanTurnsConcat(stored, added, Finite(maxChars));
    CleanTurnsOfClean(stored, maxChars);
    NormalizeTurnsBounded(stored + added, Finite(maxTurns), Finite(maxChars));
  }

  /**
   * The process-wide `sessionStore` map. `maxTurns` and `maxChars` are the numbers
   * `MAX_TURNS` and `MAX_CONTENT_CHARS` read from the environment when the module loads.
   */
  class SessionStore {
    var sessions: map<string, seq<Turn>>
    const maxTurns: Limit
    const maxChars: Limit

    /** Every log in the store is one `setSessionTurns` could have produced. */
    ghost predicate Valid()
      reads this
    {
      forall k :: k in sessions ==> StoredLog(sessions[k], maxTurns, maxChars)
    }

    constructor (maxTurns: Limit, maxChars: Limit)
      ensures Valid()
      ensures sessions == map[] && this.maxTurns == maxTurns && this.maxChars == maxChars
    {
      sessions := map[];
      this.maxTurns := maxTurns;
      this.maxChars := maxChars;
    }

    /** The log under `key`, empty when the key was never written. */
    function Lookup(key: string): seq<Turn>
      reads this
    {
      if key in sessions then sessions[key] else []
    }

    /** `getSessionTurns`: a copy of the stored log, or [] for a key never written. */
    method GetSessionTurns(key: string) returns (turns: seq<Turn>)
      ensures key !in sessions ==> turns == []
      ensures key in sessions ==> turns == sessions[key]
    {
      turns := if key in sessions then sessions[key] else [];
    }

    /** `setSessionTurns`: stores the cleaned, capped log under `key` and returns it. */
    method SetSessionTurns(key: string, turns: seq<Turn>) returns (stored: seq<Turn>)
      requires Valid()
      modifies this
      ensures Valid()
      ensures stored == NormalizeTurns(turns, maxTurns, maxChars)
      ensures sessions == old(sessions)[key := stored]
    {
      stored := NormalizeTurns(turns, maxTurns, maxChars);
      NormalizeTurnsBounded(turns, maxTurns, maxChars);
      assert StoredLog(stored, maxTurns, maxChars);
      ghost var before := sessions;
      sessions := sessions[key := stored];
      forall k | k in sessions ensures StoredLog(sessions[k], maxTurns, maxChars) {
        if k != key {
          assert sessions[k] == before[k];
        }
      }
    }

    /** `appendSessionTurns`: `setSessionTurns(key, getSessionTurns(key).concat(turns))`. */
    method AppendSessionTurns(key: string, turns: seq<Turn>) returns (stored: seq<Turn>)
      requires Valid()
      modifies this
      ensures Valid()
      ensures stored == NormalizeTurns(old(Lookup(key)) + turns, maxTurns, maxChars)
      ensures Natural(maxTurns) && Natural(maxChars) ==>
        stored == KeepLast(old(Lookup(key)) + CleanTurns(turns, maxChars), maxTurns.n)
      ensures sessions == old(sessions)[key := stored]
    {
      var existing := GetSessionTurns(key);
      if Natural(maxTurns) && Natural(maxChars) {
        AppendKeepsNewest(existing, turns, maxTurns.n, maxChars.n);
      }
      stored := SetSessionTurns(key, existing + turns);
    }
  }

  /** `value.trim() || fallback` for the two name parts of a session key. */
  function SafeName(value: string, fallback: string): string {
    if Blank(value) then fallback else Trim(value)
  }

  /** `tokenFingerprint`: the first 12 hex digits of the token's SHA-1, the hash being a parameter. */
  function TokenFingerprint(sha1Hex: string -> string, token: string): string {
    Take(sha1Hex(token), 12)
  }

  /** `makeSessionKey`: "<fingerprint>::<model>::<session>". */
  function MakeSessionKey(sha1Hex: string -> string, token: string, model: string, sessionId: string): (key: string)
    ensures StartsWith(key, TokenFingerprint(sha1Hex, token) + "::")
  {
    TokenFingerprint(sha1Hex, token) + "::" + SafeName(model, "default-model") + "::" + SafeName(sessionId, "default-session")
  }

  lemma DefaultModelTrimmed()
    ensures Trim("default-model") == "default-model" && !Blank("default-model")
  {
    TrimOfTrimmed("default-model");
  }

  lemma DefaultSessionTrimmed()
    ensures Trim("default-session") == "default-session" && !Blank("default-session")
  {
    TrimOfTrimmed("default-session");
  }

  /** A blank model or session id gives the same key as the literal defaults. */
  lemma SessionKeyDefaults(sha1Hex: string -> string, token: string, model: string, sessionId: string)
    ensures Blank(model) ==> MakeSessionKey(sha1Hex, token, model, sessionId) == MakeSessionKey(sha1Hex, token, "default-model", sessionId)
    ensures Blank(sessionId) ==> MakeSessionKey(sha1Hex, token, model, sessionId) == MakeSessionKey(sha1Hex, token, model, "default-session")
  {
    DefaultModelTrimmed();
    DefaultSessionTrimmed();
  }

  /** For one credential and model, distinct (trimmed) session ids never share a key. */
  lemma SessionKeySeparatesSessions(sha1Hex: string -> string, token: string, model: string, s1: string, s2: string)
    requires MakeSessionKey(sha1Hex, token, model, s1) == MakeSessionKey(sha1Hex, token, model, s2)
    ensures SafeName(s1, "default-session") == SafeName(s2, "default-session")
  {
    var prefix := TokenFingerprint(sha1Hex, token) + "::" + SafeName(model, "default-model") + "::";
    var a := SafeName(s1, "default-session");
    var b := SafeName(s2, "default-session");
    assert prefix + a == MakeSessionKey(sha1Hex, token, model, s1);
    assert prefix + b == MakeSessionKey(sha1Hex, token, model, s2);
    assert a == (prefix + a)[|prefix|..];
    assert b == (prefix + b)[|prefix|..];
  }

  function HistoryLine(t: Turn): string {
    (if t.role == User then "User: " else "Assistant: ") + t.content
  }

  /** The lines of `buildHistoryBlock`: one per turn among the newest 14 user/assistant turns. */
  function HistoryLines(turns: seq<Turn>): (lines: seq<string>)
  {
    var relevant := KeepLast(Filter(turns, IsUserOrAssistant), HISTORY_BLOCK_TURNS);
    seq(|relevant|, i requires 0 <= i < |relevant| => HistoryLine(relevant[i]))
  }

  /** `buildHistoryBlock`. */
  function BuildHistoryBlock(turns: seq<Turn>): (r: string)
    ensures turns == [] ==> r == NO_PRIOR_TURNS
  {
    var lines := HistoryLines(turns);
    if turns == [] || lines == [] then NO_PRIOR_TURNS else Join(lines, "\n")
  }

  /**
   * The block has at most 14 lines, one per user/assistant turn among the newest 14,
   * each labelled "User: " or "Assistant: "; with no such turn it is "No prior turns.".
   */
  lemma HistoryBlockShape(turns: seq<Turn>)
    ensures var dialogue := Filter(turns, IsUserOrAssistant);
      var lines := HistoryLines(turns);
      |lines| <= HISTORY_BLOCK_TURNS &&
      |lines| == (if |dialogue| < HISTORY_BLOCK_TURNS then |dialogue| else HISTORY_BLOCK_TURNS) &&
      (dialogue == [] ==> BuildHistoryBlock(turns) == NO_PRIOR_TURNS) &&
      (dialogue != [] ==>
        BuildHistoryBlock(turns) == Join(lines, "\n") && lines[|lines| - 1] == HistoryLine(dialogue[|dialogue| - 1])) &&
      (forall i :: 0 <= i < |lines| ==> StartsWith(lines[i], "User: ") || StartsWith(lines[i], "Assistant: "))
  {
    var dialogue := Filter(turns, IsUserOrAssistant);
    var lines := HistoryLines(turns);
    forall i | 0 <= i < |lines| ensures StartsWith(lines[i], "User: ") || StartsWith(lines[i], "Assistant: ") {
      var relevant := KeepLast(dialogue, HISTORY_BLOCK_TURNS);
      if relevant[i].role == User {
        assert lines[i] == "User: " + relevant[i].content;
      } else {
        assert lines[i] == "Assistant: " + relevant[i].content;
      }
    }
  }
}
