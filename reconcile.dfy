/**
 * The rules that decide whether an incoming history continues, extends or rewrites the stored
 * one: `isAppendOnly`, `commonPrefixLength`, `hasExplicitRewriteSignal`, `shouldApplyRewrite`,
 * `ensureTrailingUserTurn`, `looksLikeContinuationTurn`, `clampAssistantText`, the sync-mode and
 * environment switches, and the handler's reconciliation ladder over the session store.
 */
module Reconcile {
  import opened Seqs
  import opened Text
  import opened Js
  import opened Turns
  import Memory
  import Messages

  // ---------------------------------------------------------------------------------------
  // `isAppendOnly` and `commonPrefixLength`.

  /** `next` keeps every turn of `previous`, in place, and possibly adds more after them. */
  predicate AppendOnly(previous: seq<Turn>, next: seq<Turn>) {
    |next| >= |previous| && next[..|previous|] == previous
  }

  /** `isAppendOnly`, with its turn-by-turn loop. */
  method IsAppendOnly(previous: seq<Turn>, next: seq<Turn>) returns (r: bool)
    ensures r == AppendOnly(previous, next)
  {
    if |next| < |previous| {
      return false;
    }
    for i := 0 to |previous|
      invariant next[..i] == previous[..i]
    {
      if previous[i].role != next[i].role || previous[i].content != next[i].content {
        return false;
      }
      assert next[..i + 1] == next[..i] + [next[i]];
      assert previous[..i + 1] == previous[..i] + [previous[i]];
    }
    assert previous[..|previous|] == previous;
    return true;
  }

  /** The length of the longest common prefix of the two histories. */
  function CommonPrefix(previous: seq<Turn>, next: seq<Turn>): (k: nat)
    ensures k <= |previous| && k <= |next|
    ensures previous[..k] == next[..k]
    ensures k < |previous| && k < |next| ==> previous[k] != next[k]
  {
    if previous == [] || next == [] || previous[0] != next[0] then 0
    else
      var k := 1 + CommonPrefix(previous[1..], next[1..]);
      assert previous[..k] == [previous[0]] + previous[1..][..k - 1];
      assert next[..k] == [next[0]] + next[1..][..k - 1];
      k
  }

  /** Any length with the three properties of `CommonPrefix` is `CommonPrefix`. */
  lemma CommonPrefixUnique(previous: seq<Turn>, next: seq<Turn>, k: nat)
    requires k <= |previous| && k <= |next| && previous[..k] == next[..k]
    requires k < |previous| && k < |next| ==> previous[k] != next[k]
    ensures k == CommonPrefix(previous, next)
  {
    var c := CommonPrefix(previous, next);
    forall i | 0 <= i < c ensures previous[i] == next[i] {
      assert previous[..c][i] == next[..c][i];
    }
    forall i | 0 <= i < k ensures previous[i] == next[i] {
      assert previous[..k][i] == next[..k][i];
    }
  }

  /** `commonPrefixLength`, with its loop that stops at the first differing turn. */
  method CommonPrefixLength(previous: seq<Turn>, next: seq<Turn>) returns (matched: nat)
    ensures matched == CommonPrefix(previous, next)
  {
    var limit := if |previous| < |next| then |previous| else |next|;
    matched := 0;
    for i := 0 to limit
      invariant matched == i
      invariant previous[..i] == next[..i]
    {
      if previous[i].role != next[i].role || previous[i].content != next[i].content {
        break;
      }
      assert previous[..i + 1] == previous[..i] + [previous[i]];
      assert next[..i + 1] == next[..i] + [next[i]];
      matched := matched + 1;
    }
    CommonPrefixUnique(previous, next, matched);
  }

  /** Append-only is the same as sharing all of `previous` as a common prefix. */
  lemma AppendOnlyIffFullPrefix(previous: seq<Turn>, next: seq<Turn>)
    ensures AppendOnly(previous, next) <==> |next| >= |previous| && CommonPrefix(previous, next) == |previous|
  {
    if AppendOnly(previous, next) {
      CommonPrefixUnique(previous, next, |previous|);
    }
  }

  // ---------------------------------------------------------------------------------------
  // `hasExplicitRewriteSignal`.

  /** The body fields whose value `true` asks for a rewrite. */
  const BOOLEAN_SIGNALS: seq<string> := [
    "regenerate", "is_regenerate", "isRegenerate", "is_regen", "isRegen",
    "rewrite", "is_rewrite", "isRewrite", "edited", "is_edited", "isEdited",
    "deleted", "is_deleted", "isDeleted", "replace_last", "replaceLast"]

  /** The body fields whose text may name a rewrite. */
  const TEXT_SIGNAL_FIELDS: seq<string> := ["action", "operation", "event", "mode"]

  /** The alternatives of `/(regen|regenerate|rewrite|edit|delete|remove)/`. */
  const REWRITE_WORDS: seq<string> := ["regen", "regenerate", "rewrite", "edit", "delete", "remove"]

  /** A string field whose trimmed, lower-cased text contains one of the rewrite words. */
  predicate TextSignal(v: Value) {
    v.Str? && exists w :: w in REWRITE_WORDS && Contains(Lower(Trim(v.s)), w)
  }

  predicate BooleanSignal(body: map<string, Value>) {
    exists i :: 0 <= i < |BOOLEAN_SIGNALS| && Get(body, BOOLEAN_SIGNALS[i]) == Flag(true)
  }

  predicate TextSignalled(body: map<string, Value>) {
    exists j :: 0 <= j < |TEXT_SIGNAL_FIELDS| && TextSignal(Get(body, TEXT_SIGNAL_FIELDS[j]))
  }

  /** The request asks for a rewrite: a boolean field that is exactly `true`, or a text field naming one. */
  predicate RewriteSignalled(body: map<string, Value>) {
    BooleanSignal(body) || TextSignalled(body)
  }

  /** `hasExplicitRewriteSignal`, with its loop over the boolean fields. */
  method HasExplicitRewriteSignal(body: map<string, Value>) returns (r: bool)
    ensures r == RewriteSignalled(body)
  {
    for i := 0 to |BOOLEAN_SIGNALS|
      invariant forall k :: 0 <= k < i ==> Get(body, BOOLEAN_SIGNALS[k]) != Flag(true)
    {
      if Get(body, BOOLEAN_SIGNALS[i]) == Flag(true) {
        return true;
      }
    }
    r := TextSignal(Get(body, "action")) || TextSignal(Get(body, "operation")) ||
         TextSignal(Get(body, "event")) || TextSignal(Get(body, "mode"));
    assert r == TextSignalled(body) by {
      assert TEXT_SIGNAL_FIELDS[0] == "action" && TEXT_SIGNAL_FIELDS[1] == "operation";
      assert TEXT_SIGNAL_FIELDS[2] == "event" && TEXT_SIGNAL_FIELDS[3] == "mode";
    }
  }

  /** Only fields that are exactly `true` count: a body whose boolean fields are all something else, and whose text fields are absent, asks for nothing. */
  lemma OnlyTrueSignals(body: map<string, Value>)
    requires forall key :: key in body ==> !body[key].Flag? || !body[key].b
    requires forall j :: 0 <= j < |TEXT_SIGNAL_FIELDS| ==> TEXT_SIGNAL_FIELDS[j] !in body
    ensures !RewriteSignalled(body)
  {
  }

  /** Any one of the listed fields set to `true` asks for a rewrite. */
  lemma BooleanFieldSignals(body: map<string, Value>, i: nat)
    requires i < |BOOLEAN_SIGNALS| && BOOLEAN_SIGNALS[i] in body && body[BOOLEAN_SIGNALS[i]] == Flag(true)
    ensures RewriteSignalled(body)
  {
  }

  // ---------------------------------------------------------------------------------------
  // `shouldApplyRewrite`. The rewrite signal of the body is passed in as `signal`.

  function Min(a: nat, b: nat): nat {
    if a < b then a else b
  }

  /**
   * `shouldApplyRewrite`: with a signal, any pair of non-empty histories; without one, the
   * histories share at least one turn and all but at most the last two of the shorter one,
   * their last turns differ, and `next` is no longer than `previous` or contains an
   * assistant turn.
   */
  function ShouldApplyRewrite(previous: seq<Turn>, next: seq<Turn>, signal: bool): (r: bool)
    ensures r ==> previous != [] && next != []
    ensures previous != [] && next != [] && signal ==> r
    ensures !signal ==> (r <==>
      (previous != [] && next != [] && CommonPrefix(previous, next) >= 1 &&
       CommonPrefix(previous, next) + 2 >= Min(|previous|, |next|) &&
       previous[|previous| - 1] != next[|next| - 1] &&
       (|next| <= |previous| || HasRole(next, Assistant))))
  {
    if previous == [] || next == [] then false
    else if signal then true
    else
      var prefix := CommonPrefix(previous, next);
      var minLen := Min(|previous|, |next|);
      if prefix < 1 then false
      else if !(prefix + 2 >= minLen) then false
      else if previous[|previous| - 1] == next[|next| - 1] then false
      else if |next| <= |previous| then true
      else HasRole(next, Assistant)
  }

  /**
   * Without a signal, a rewrite needs a shared first turn, a change within the last two
   * turns, a different last turn, and an incoming history that is no longer than the stored
   * one or that holds a reply.
   */
  lemma RewriteNeedsNearTailChange(previous: seq<Turn>, next: seq<Turn>)
    requires ShouldApplyRewrite(previous, next, false)
    ensures previous[0] == next[0]
    ensures CommonPrefix(previous, next) + 2 >= Min(|previous|, |next|)
    ensures previous[|previous| - 1] != next[|next| - 1]
    ensures |next| <= |previous| || HasRole(next, Assistant)
  {
    assert previous[..1] == next[..1] by {
      assert previous[..CommonPrefix(previous, next)][..1] == previous[..1];
      assert next[..CommonPrefix(previous, next)][..1] == next[..1];
    }
    assert previous[..1][0] == next[..1][0];
  }

  /**
   * Conversely, a shared first turn, a change within the last two turns and a different last
   * turn make a rewrite without a signal, when the incoming history is no longer than the
   * stored one or holds a reply.
   */
  lemma NearTailChangeIsRewrite(previous: seq<Turn>, next: seq<Turn>)
    requires previous != [] && next != [] && previous[0] == next[0]
    requires CommonPrefix(previous, next) + 2 >= Min(|previous|, |next|)
    requires previous[|previous| - 1] != next[|next| - 1]
    requires |next| <= |previous| || HasRole(next, Assistant)
    ensures ShouldApplyRewrite(previous, next, false)
  {
  }

  /** The same history sent again is a rewrite only when the body asks for one. */
  lemma SameHistoryIsNoRewrite(turns: seq<Turn>, signal: bool)
    ensures ShouldApplyRewrite(turns, turns, signal) == (turns != [] && signal)
  {
  }

  /** Editing the last turn of a history is a rewrite. */
  lemma EditedLastTurnIsRewrite(context: seq<Turn>, before: Turn, after: Turn, signal: bool)
    requires context != [] && before != after
    ensures ShouldApplyRewrite(context + [before], context + [after], signal)
  {
    var p := context + [before];
    var n := context + [after];
    assert p[..|context|] == context && n[..|context|] == context;
    CommonPrefixUnique(p, n, |context|);
  }

  /** Deleting turns from the end is a rewrite when it changes the last turn. */
  lemma TruncationIsRewrite(previous: seq<Turn>, k: nat, signal: bool)
    requires 1 <= k < |previous| && previous[k - 1] != previous[|previous| - 1]
    ensures ShouldApplyRewrite(previous, previous[..k], signal)
  {
    CommonPrefixUnique(previous, previous[..k], k);
  }

  /** A history that differs from the stored one already in its first turn is never taken for a rewrite without a signal. */
  lemma DifferentStartIsNoRewrite(previous: seq<Turn>, next: seq<Turn>)
    requires previous != [] && next != [] && previous[0] != next[0]
    ensures !ShouldApplyRewrite(previous, next, false)
  {
    CommonPrefixUnique(previous, next, 0);
  }

  // ---------------------------------------------------------------------------------------
  // `ensureTrailingUserTurn`.

  /** `ensureTrailingUserTurn`: the dialogue turns, with the user message added unless it is already the last turn. */
  function EnsureTrailingUserTurn(turns: seq<Turn>, userMessage: string): (r: seq<Turn>)
    ensures forall i :: 0 <= i < |r| ==> IsDialogue(r[i])
    ensures r == Dialogue(turns) || r == Dialogue(turns) + [Turn(User, userMessage)]
    ensures userMessage == "" ==> r == Dialogue(turns)
    ensures userMessage != "" ==> r != [] && r[|r| - 1] == Turn(User, userMessage)
  {
    var normalized := Dialogue(turns);
    if userMessage == "" then normalized
    else if normalized != [] && normalized[|normalized| - 1] == Turn(User, userMessage) then normalized
    else normalized + [Turn(User, userMessage)]
  }

  /** A second application changes nothing. */
  lemma EnsureTrailingUserTurnIdempotent(turns: seq<Turn>, userMessage: string)
    ensures EnsureTrailingUserTurn(EnsureTrailingUserTurn(turns, userMessage), userMessage) ==
      EnsureTrailingUserTurn(turns, userMessage)
  {
    var once := EnsureTrailingUserTurn(turns, userMessage);
    FilterKeepsAll(once, IsDialogue);
    assert Dialogue(once) == once;
    if userMessage != "" {
      assert once[|once| - 1] == Turn(User, userMessage);
    }
  }

  // ---------------------------------------------------------------------------------------
  // `looksLikeContinuationTurn`.

  /**
   * `looksLikeContinuationTurn`: the stored history ends with the assistant, the incoming one
   * ends with the trimmed user message, and the incoming one has at least one more user turn
   * and no fewer assistant turns, or more user turns and no fewer turns in all.
   */
  function LooksLikeContinuationTurn(previous: seq<Turn>, next: seq<Turn>, userMessage: string): (r: bool)
    ensures r ==> previous != [] && next != [] && !Blank(userMessage)
  {
    var message := Trim(userMessage);
    if previous == [] || next == [] || message == "" then false
    else if previous[|previous| - 1].role != Assistant then false
    else if next[|next| - 1] != Turn(User, message) then false
    else
      var previousUsers := CountRole(previous, User);
      var nextUsers := CountRole(next, User);
      (nextUsers >= previousUsers + 1 && CountRole(next, Assistant) >= CountRole(previous, Assistant)) ||
      (nextUsers > previousUsers && |next| >= |previous|)
  }

  lemma {:induction false} CountRoleConcat(a: seq<Turn>, b: seq<Turn>, role: Role)
    ensures CountRole(a + b, role) == CountRole(a, role) + CountRole(b, role)
  {
    if a != [] {
      assert (a + b)[1..] == a[1..] + b;
      CountRoleConcat(a[1..], b, role);
    } else {
      assert a + b == b;
    }
  }

  /** A continuation adds a user turn after an assistant reply. */
  lemma ContinuationShape(previous: seq<Turn>, next: seq<Turn>, userMessage: string)
    requires LooksLikeContinuationTurn(previous, next, userMessage)
    ensures previous[|previous| - 1].role == Assistant
    ensures next[|next| - 1] == Turn(User, Trim(userMessage))
    ensures CountRole(next, User) > CountRole(previous, User)
  {
  }

  /** The stored history ending with a reply, followed by the new user message, is a continuation. */
  lemma ReplyThenMessageIsContinuation(previous: seq<Turn>, userMessage: string)
    requires previous != [] && previous[|previous| - 1].role == Assistant
    requires userMessage != "" && IsTrimmed(userMessage)
    ensures LooksLikeContinuationTurn(previous, previous + [Turn(User, userMessage)], userMessage)
  {
    TrimOfTrimmed(userMessage);
    CountRoleConcat(previous, [Turn(User, userMessage)], User);
    CountRoleConcat(previous, [Turn(User, userMessage)], Assistant);
  }

  // ---------------------------------------------------------------------------------------
  // `clampAssistantText`, `normalizeSyncMode` and the environment switches.

  /**
   * `clampAssistantText` for the setting `maxChars` (`CAI_MAX_ASSISTANT_CHARS`, 0 when unset):
   * the trimmed reply, cut to `maxChars` characters with "..." added when the setting is
   * positive and the reply longer.
   */
  function ClampAssistantText(text: string, maxChars: int): (r: string)
    ensures IsTrimmed(r)
    ensures r == "" <==> Blank(text)
    ensures maxChars <= 0 || |Trim(text)| <= maxChars ==> r == Trim(text)
    ensures maxChars > 0 && |Trim(text)| > maxChars ==> r == Trim(text)[..maxChars] + "..." && |r| == maxChars + 3
  {
    if maxChars <= 0 then Trim(text) else Memory.ClampText(text, Memory.Finite(maxChars))
  }

  const REPLAY := "replay"
  const PROMPT := "prompt"

  /** `normalizeSyncMode`: "replay" for any spelling of it, "prompt" for everything else. */
  function NormalizeSyncMode(value: string): (r: string)
    ensures r == REPLAY || r == PROMPT
    ensures r == REPLAY <==> Lower(Trim(value)) == REPLAY
  {
    if Lower(Trim(value)) == REPLAY then REPLAY else PROMPT
  }

  lemma ReplayNormal()
    ensures Lower(Trim(REPLAY)) == REPLAY
  {
    TrimOfTrimmed(REPLAY);
  }

  lemma PromptNormal()
    ensures Lower(Trim(PROMPT)) == PROMPT
  {
    TrimOfTrimmed(PROMPT);
  }

  /** A normalised mode normalises to itself. */
  lemma NormalizeSyncModeIdempotent(value: string)
    ensures NormalizeSyncMode(NormalizeSyncMode(value)) == NormalizeSyncMode(value)
  {
    ReplayNormal();
    PromptNormal();
  }

  /** `resolveSyncMode`: the header, then the body's `proxy_sync_mode` or `sync_mode`, then `CAI_SYNC_MODE`; "" stands for absent. */
  function ResolveSyncMode(headerMode: string, bodyMode: string, envMode: string): (r: string)
    ensures r == REPLAY || r == PROMPT
    ensures headerMode != "" ==> r == NormalizeSyncMode(headerMode)
    ensures headerMode == "" && bodyMode == "" && envMode == "" ==> r == PROMPT
  {
    PromptNormal();
    NormalizeSyncMode(if headerMode != "" then headerMode else if bodyMode != "" then bodyMode
                      else if envMode != "" then envMode else PROMPT)
  }

  /** `CAI_AUTHORITATIVE_HISTORY`, on unless it says "false"; "" stands for unset. */
  predicate AuthoritativeIncomingHistory(env: string) {
    Lower(Trim(if env == "" then "true" else env)) != "false"
  }

  /** `CAI_REPLAY_AUTHORITATIVE_HISTORY`, off unless it says "true". */
  predicate AllowReplayAuthoritativeMode(env: string) {
    EnvFlagTrue(env)
  }

  /** `CAI_REPLAY_ASSUME_CONTINUATION`, on when unset or blank, otherwise unless it says "false". */
  predicate AssumeReplayContinuation(env: string) {
    var raw := Lower(Trim(env));
    if raw == "" then true else raw != "false"
  }

  lemma TrueIsNotFalse()
    ensures Lower(Trim("true")) != "false"
  {
    TrimOfTrimmed("true");
  }

  /** The two switches that default to on are off for exactly the same settings: those reading "false". */
  lemma DefaultOnSwitchesAgree(env: string)
    ensures AuthoritativeIncomingHistory(env) == AssumeReplayContinuation(env)
    ensures AssumeReplayContinuation(env) <==> Lower(Trim(env)) != "false"
  {
    TrueIsNotFalse();
  }

  // ---------------------------------------------------------------------------------------
  // The handler's reconciliation ladder.

  /**
   * What the ladder reads: the incoming dialogue turns and user message, the request body
   * (for its rewrite signal), whether the upstream thread was already bootstrapped, the
   * resolved sync mode, the switches that depend on it, and whether this request is a fresh
   * start under a session that was not named by the client.
   */
  datatype Request = Request(
    incoming: seq<Turn>,
    userMessage: string,
    body: map<string, Value>,
    bootstrapped: bool,
    replay: bool,
    authoritative: bool,
    assumeContinuation: bool,
    forceFresh: bool)

  /** What the ladder does to the stored log: nothing, replace it, or append the user message. */
  datatype Write = Keep | Store(turns: seq<Turn>) | AppendUser

  datatype Plan = Plan(write: Write, resetConversation: bool, fullSyncNeeded: bool, rewriteApplied: bool, rewriteRequested: bool)

  /** `replayCanAssumeContinuation`: a first replay request whose history already holds a reply. */
  predicate ReplayCanAssumeContinuation(req: Request) {
    req.replay && req.assumeContinuation && !req.bootstrapped && HasRole(req.incoming, Assistant)
  }

  /** `incomingHasHistory`: more than one turn, or any reply. */
  predicate IncomingHasHistory(incoming: seq<Turn>) {
    |incoming| > 1 || HasRole(incoming, Assistant)
  }

  /** `isDuplicateUser`: the stored dialogue already ends with this very user message. */
  predicate EndsWithUserMessage(turns: seq<Turn>, userMessage: string) {
    turns != [] && turns[|turns| - 1] == Turn(User, userMessage)
  }

  /** The initial `fullSyncNeeded`: a thread never bootstrapped, unless replay may assume it continues. */
  predicate InitialFullSync(req: Request) {
    !req.bootstrapped && !ReplayCanAssumeContinuation(req)
  }

  /** `rewriteRequested` for the normalised incoming turns. */
  predicate RewriteRequested(previous: seq<Turn>, normalized: seq<Turn>, req: Request) {
    RewriteSignalled(req.body) ||
    (ShouldApplyRewrite(previous, normalized, RewriteSignalled(req.body)) &&
     !LooksLikeContinuationTurn(previous, normalized, req.userMessage))
  }

  /** The branch for an incoming history, given its normalised turns and whether a rewrite was requested. */
  function Ladder(previous: seq<Turn>, normalized: seq<Turn>, requested: bool, req: Request): Plan {
    var fullSync := InitialFullSync(req);
    if req.authoritative && |normalized| >= 2 then Plan(Store(normalized), req.bootstrapped, true, false, requested)
    else if previous == [] || AppendOnly(previous, normalized) then Plan(Store(normalized), false, fullSync, false, requested)
    else if requested then Plan(Store(normalized), true, true, true, requested)
    else if EndsWithUserMessage(previous, req.userMessage) then Plan(Keep, false, fullSync, false, requested)
    else Plan(AppendUser, false, fullSync, false, requested)
  }

  /** The `if (incomingHasHistory) … else …` ladder, on the stored dialogue `previous`. */
  function HistoryPlan(previous: seq<Turn>, req: Request): Plan {
    if IncomingHasHistory(req.incoming) then
      var normalized := EnsureTrailingUserTurn(req.incoming, req.userMessage);
      Ladder(previous, normalized, RewriteRequested(previous, normalized, req), req)
    else if EndsWithUserMessage(previous, req.userMessage) then Plan(Keep, false, InitialFullSync(req), false, false)
    else Plan(AppendUser, false, InitialFullSync(req), false, false)
  }

  /** `freshTurns`, with the two fall-backs for an empty result. */
  function FreshTurns(incoming: seq<Turn>, userMessage: string): seq<Turn> {
    var turns := EnsureTrailingUserTurn(incoming, userMessage);
    if turns != [] then turns else if userMessage != "" then [Turn(User, userMessage)] else []
  }

  /** The ladder, then the fresh-start override, then the replay reset. */
  function FinalPlan(previous: seq<Turn>, req: Request): (p: Plan)
    ensures req.replay && p.fullSyncNeeded ==> p.resetConversation
  {
    var ladder := HistoryPlan(previous, req);
    var overridden := if req.forceFresh then Plan(Store(FreshTurns(req.incoming, req.userMessage)), true, true, false, ladder.rewriteRequested)
                 else ladder;
    if req.replay && overridden.fullSyncNeeded then overridden.(resetConversation := true) else overridden
  }

  // ---------------------------------------------------------------------------------------
  // The switches as the handler sets them for one request.

  /** The body's sync mode: `proxy_sync_mode` when it is a string, else `sync_mode` when it is one, else "". */
  function BodySyncMode(body: map<string, Value>): string {
    if Get(body, "proxy_sync_mode").Str? then Get(body, "proxy_sync_mode").s
    else if Get(body, "sync_mode").Str? then Get(body, "sync_mode").s
    else ""
  }

  /**
   * The environment the handler reads for reconciliation: `CAI_SYNC_MODE`,
   * `CAI_AUTHORITATIVE_HISTORY`, `CAI_REPLAY_AUTHORITATIVE_HISTORY` and
   * `CAI_REPLAY_ASSUME_CONTINUATION`; "" stands for unset.
   */
  datatype Environment = Environment(syncMode: string, authoritativeHistory: string,
                                     replayAuthoritativeHistory: string, replayAssumeContinuation: string)

  /**
   * The request as the handler sets it up: the sync mode resolved from the header, the body
   * and the environment; `authoritativeForThisRequest`, which in replay mode is
   * `CAI_REPLAY_AUTHORITATIVE_HISTORY` (off unless "true") and otherwise
   * `CAI_AUTHORITATIVE_HISTORY` (on unless "false"); and `runtime.bootstrapped`.
   */
  function RequestOf(incoming: seq<Turn>, userMessage: string, body: map<string, Value>, headerMode: string,
                     env: Environment, bootstrapped: bool, forceFresh: bool): (req: Request)
    ensures req.incoming == incoming && req.userMessage == userMessage && req.body == body
    ensures req.bootstrapped == bootstrapped && req.forceFresh == forceFresh
    ensures req.replay <==> ResolveSyncMode(headerMode, BodySyncMode(body), env.syncMode) == REPLAY
    ensures req.replay ==> (req.authoritative <==> Lower(Trim(env.replayAuthoritativeHistory)) == "true")
    ensures !req.replay ==> (req.authoritative <==> Lower(Trim(env.authoritativeHistory)) != "false")
    ensures req.assumeContinuation <==> Lower(Trim(env.replayAssumeContinuation)) != "false"
  {
    var replay := ResolveSyncMode(headerMode, BodySyncMode(body), env.syncMode) == REPLAY;
    DefaultOnSwitchesAgree(env.authoritativeHistory);
    DefaultOnSwitchesAgree(env.replayAssumeContinuation);
    Request(incoming, userMessage, body, bootstrapped, replay,
            if replay then AllowReplayAuthoritativeMode(env.replayAuthoritativeHistory)
            else AuthoritativeIncomingHistory(env.authoritativeHistory),
            AssumeReplayContinuation(env.replayAssumeContinuation), forceFresh)
  }

  /** No setting at all. */
  const UNSET := Environment("", "", "", "")

  /** In replay mode with `CAI_REPLAY_AUTHORITATIVE_HISTORY` unset, no request is authoritative; in prompt mode with `CAI_AUTHORITATIVE_HISTORY` unset, every one is. */
  lemma AuthoritativeDefaults(incoming: seq<Turn>, userMessage: string, body: map<string, Value>, headerMode: string,
                              env: Environment, bootstrapped: bool, forceFresh: bool)
    ensures var req := RequestOf(incoming, userMessage, body, headerMode, env, bootstrapped, forceFresh);
      (req.replay && env.replayAuthoritativeHistory == "" ==> !req.authoritative) &&
      (!req.replay && env.authoritativeHistory == "" ==> req.authoritative)
  {
    assert Trim("") == "";
  }

  /**
   * With nothing set and the header asking for replay, an incoming history that extends the
   * stored one of a bootstrapped thread is stored without a reset and without a full sync.
   */
  lemma DefaultReplayExtensionKeepsThread(previous: seq<Turn>, incoming: seq<Turn>, userMessage: string, body: map<string, Value>)
    requires previous != [] && IncomingHasHistory(incoming)
    requires AppendOnly(previous, EnsureTrailingUserTurn(incoming, userMessage))
    ensures var req := RequestOf(incoming, userMessage, body, REPLAY, UNSET, true, false);
      var p := FinalPlan(previous, req);
      p.write == Store(EnsureTrailingUserTurn(incoming, userMessage)) &&
      !p.resetConversation && !p.fullSyncNeeded && !p.rewriteApplied
  {
    ReplayNormal();
    AuthoritativeDefaults(incoming, userMessage, body, REPLAY, UNSET, true, false);
  }

  /**
   * With nothing set and no sync mode asked for, an incoming history of two or more turns
   * replaces the log of a bootstrapped thread, resets the thread and resends everything.
   */
  lemma DefaultPromptHistoryResets(previous: seq<Turn>, incoming: seq<Turn>, userMessage: string, body: map<string, Value>)
    requires BodySyncMode(body) == "" && IncomingHasHistory(incoming)
    requires |EnsureTrailingUserTurn(incoming, userMessage)| >= 2
    ensures var req := RequestOf(incoming, userMessage, body, "", UNSET, true, false);
      var p := FinalPlan(previous, req);
      p.write == Store(EnsureTrailingUserTurn(incoming, userMessage)) &&
      p.resetConversation && p.fullSyncNeeded && !p.rewriteApplied
  {
    AuthoritativeDefaults(incoming, userMessage, body, "", UNSET, true, false);
  }

  /** The log the request continues from: what was stored, what was written, or what was appended. */
  function Effective(stored: seq<Turn>, write: Write, userMessage: string, maxTurns: Memory.Limit, maxChars: Memory.Limit): seq<Turn> {
    match write
    case Keep => Dialogue(stored)
    case Store(turns) => Memory.NormalizeTurns(turns, maxTurns, maxChars)
    case AppendUser => Memory.NormalizeTurns(stored + [Turn(User, userMessage)], maxTurns, maxChars)
  }

  datatype Outcome = Outcome(
    effectiveTurns: seq<Turn>,
    resetConversation: bool,
    fullSyncNeeded: bool,
    rewriteApplied: bool,
    rewriteRequested: bool,
    useReplayFullSync: bool)

  /** The outcome of the request for the log `stored` that the session held before it. */
  function OutcomeOf(stored: seq<Turn>, req: Request, maxTurns: Memory.Limit, maxChars: Memory.Limit): Outcome {
    var p := FinalPlan(Dialogue(stored), req);
    Outcome(Effective(stored, p.write, req.userMessage, maxTurns, maxChars),
            p.resetConversation, p.fullSyncNeeded, p.rewriteApplied, p.rewriteRequested,
            req.replay && p.fullSyncNeeded)
  }

  /** The branches for an incoming history, writing through the store as the handler does. */
  method StoreIncomingHistory(store: Memory.SessionStore, key: string, normalized: seq<Turn>, requested: bool, req: Request)
    returns (effective: seq<Turn>, p: Plan)
    requires store.Valid()
    modifies store
    ensures store.Valid()
    ensures p == Ladder(Dialogue(old(store.Lookup(key))), normalized, requested, req)
    ensures effective == Effective(old(store.Lookup(key)), p.write, req.userMessage, store.maxTurns, store.maxChars)
    ensures store.sessions == if p.write.Keep? then old(store.sessions) else old(store.sessions)[key := effective]
  {
    var previousTurns := Dialogue(store.Lookup(key));
    var fullSyncNeeded := InitialFullSync(req);
    var appendOnly := IsAppendOnly(previousTurns, normalized);
    if req.authoritative && |normalized| >= 2 {
      effective := store.SetSessionTurns(key, normalized);
      p := Plan(Store(normalized), req.bootstrapped, true, false, requested);
    } else if previousTurns == [] || appendOnly {
      effective := store.SetSessionTurns(key, normalized);
      p := Plan(Store(normalized), false, fullSyncNeeded, false, requested);
    } else if requested {
      effective := store.SetSessionTurns(key, normalized);
      p := Plan(Store(normalized), true, true, true, requested);
    } else if EndsWithUserMessage(previousTurns, req.userMessage) {
      effective := previousTurns;
      p := Plan(Keep, false, fullSyncNeeded, false, requested);
    } else {
      effective := store.AppendSessionTurns(key, [Turn(User, req.userMessage)]);
      p := Plan(AppendUser, false, fullSyncNeeded, false, requested);
    }
  }

  /** The user message appended unless the stored dialogue already ends with it: the branch for a request without history. */
  method AppendUserMessage(store: Memory.SessionStore, key: string, req: Request) returns (effective: seq<Turn>, p: Plan)
    requires store.Valid()
    modifies store
    ensures store.Valid()
    ensures p.write.Keep? || p.write.AppendUser?
    ensures p == (if EndsWithUserMessage(Dialogue(old(store.Lookup(key))), req.userMessage) then Plan(Keep, false, InitialFullSync(req), false, false)
                  else Plan(AppendUser, false, InitialFullSync(req), false, false))
    ensures effective == Effective(old(store.Lookup(key)), p.write, req.userMessage, store.maxTurns, store.maxChars)
    ensures store.sessions == if p.write.Keep? then old(store.sessions) else old(store.sessions)[key := effective]
  {
    var previousTurns := Dialogue(store.Lookup(key));
    if EndsWithUserMessage(previousTurns, req.userMessage) {
      effective := previousTurns;
      p := Plan(Keep, false, InitialFullSync(req), false, false);
    } else {
      effective := store.AppendSessionTurns(key, [Turn(User, req.userMessage)]);
      p := Plan(AppendUser, false, InitialFullSync(req), false, false);
    }
  }

  /** The `if (incomingHasHistory) … else …` block of the handler. */
  method ReconcileHistory(store: Memory.SessionStore, key: string, req: Request) returns (effective: seq<Turn>, p: Plan)
    requires store.Valid()
    modifies store
    ensures store.Valid()
    ensures p == HistoryPlan(Dialogue(old(store.Lookup(key))), req)
    ensures effective == Effective(old(store.Lookup(key)), p.write, req.userMessage, store.maxTurns, store.maxChars)
    ensures store.sessions == if p.write.Keep? then old(store.sessions) else old(store.sessions)[key := effective]
  {
    var previousTurns := Dialogue(store.Lookup(key));
    if IncomingHasHistory(req.incoming) {
      var normalized := EnsureTrailingUserTurn(req.incoming, req.userMessage);
      var explicitSignal := HasExplicitRewriteSignal(req.body);
      var likelyContinuation := LooksLikeContinuationTurn(previousTurns, normalized, req.userMessage);
      var heuristicRewrite := ShouldApplyRewrite(previousTurns, normalized, explicitSignal) && !likelyContinuation;
      var rewriteRequested := explicitSignal || heuristicRewrite;
      assert rewriteRequested == RewriteRequested(previousTurns, normalized, req);
      effective, p := StoreIncomingHistory(store, key, normalized, rewriteRequested, req);
    } else {
      effective, p := AppendUserMessage(store, key, req);
    }
  }

  /** The `forceFreshReset` override: the session restarts from the incoming turns. */
  method FreshStart(store: Memory.SessionStore, key: string, req: Request) returns (effective: seq<Turn>)
    requires store.Valid()
    modifies store
    ensures store.Valid()
    ensures effective == Effective(old(store.Lookup(key)), Store(FreshTurns(req.incoming, req.userMessage)), req.userMessage, store.maxTurns, store.maxChars)
    ensures store.sessions == old(store.sessions)[key := effective]
  {
    var freshTurns := EnsureTrailingUserTurn(req.incoming, req.userMessage);
    if freshTurns != [] {
      effective := store.SetSessionTurns(key, freshTurns);
    } else {
      // The handler's middle fall-back, a lone user turn, needs a non-empty user message, and
      // then `freshTurns` already ends with it: only the empty log remains.
      effective := store.SetSessionTurns(key, []);
    }
  }

  lemma WriteTwice(sessions: map<string, seq<Turn>>, key: string, first: seq<Turn>, second: seq<Turn>)
    ensures sessions[key := first][key := second] == sessions[key := second]
  {
  }

  /** The reconciliation block of the handler: the ladder, the fresh-start override and the replay reset. */
  method Reconcile(store: Memory.SessionStore, key: string, req: Request) returns (o: Outcome)
    requires store.Valid()
    modifies store
    ensures store.Valid()
    ensures o == OutcomeOf(old(store.Lookup(key)), req, store.maxTurns, store.maxChars)
    ensures store.sessions == if FinalPlan(Dialogue(old(store.Lookup(key))), req).write.Keep? then old(store.sessions)
                              else old(store.sessions)[key := o.effectiveTurns]
  {
    ghost var stored := store.Lookup(key);
    ghost var before := store.sessions;
    var effective, p := ReconcileHistory(store, key, req);
    if req.forceFresh {
      ghost var first := effective;
      effective := FreshStart(store, key, req);
      if !p.write.Keep? {
        WriteTwice(before, key, first, effective);
      }
      p := Plan(Store(FreshTurns(req.incoming, req.userMessage)), true, true, false, p.rewriteRequested);
    }
    ghost var written := p.write;
    assert effective == Effective(stored, written, req.userMessage, store.maxTurns, store.maxChars);
    assert store.sessions == if written.Keep? then before else before[key := effective];
    var useReplayFullSync := req.replay && p.fullSyncNeeded;
    if useReplayFullSync {
      p := p.(resetConversation := true);
    }
    assert p.write == written;
    assert p == FinalPlan(Dialogue(stored), req);
    o := Outcome(effective, p.resetConversation, p.fullSyncNeeded, p.rewriteApplied, p.rewriteRequested, useReplayFullSync);
  }

  // ---------------------------------------------------------------------------------------
  // What the ladder guarantees.

  /** Only an explicit or detected rewrite, outside the authoritative path, is applied; it always resets and resyncs. */
  lemma RewriteAppliedShape(previous: seq<Turn>, req: Request)
    ensures var p := FinalPlan(previous, req);
      p.rewriteApplied ==> p.rewriteRequested && p.resetConversation && p.fullSyncNeeded && !req.forceFresh
  {
  }

  /** Why the upstream thread is reset: a fresh start, a replay full sync, an applied rewrite, or an authoritative history for a bootstrapped thread. */
  lemma ResetReasons(previous: seq<Turn>, req: Request)
    ensures var p := FinalPlan(previous, req);
      p.resetConversation ==>
        req.forceFresh || (req.replay && p.fullSyncNeeded) || p.rewriteApplied ||
        (req.bootstrapped && req.authoritative && IncomingHasHistory(req.incoming))
  {
  }

  /** Why the whole history is sent: a thread not yet bootstrapped, a fresh start, an applied rewrite, or an authoritative history. */
  lemma FullSyncReasons(previous: seq<Turn>, req: Request)
    ensures var p := FinalPlan(previous, req);
      p.fullSyncNeeded ==>
        InitialFullSync(req) || req.forceFresh || p.rewriteApplied ||
        (req.authoritative && IncomingHasHistory(req.incoming))
  {
  }

  /** A fresh start replaces the log with the incoming turns and user message and resyncs a new thread. */
  lemma FreshStartResets(previous: seq<Turn>, req: Request)
    requires req.forceFresh
    ensures var p := FinalPlan(previous, req);
      p.write == Store(FreshTurns(req.incoming, req.userMessage)) &&
      p.resetConversation && p.fullSyncNeeded && !p.rewriteApplied
  {
  }

  /** An authoritative history of two or more turns replaces the log and resyncs, resetting a bootstrapped (or replayed) thread. */
  lemma AuthoritativeReplaces(previous: seq<Turn>, req: Request)
    requires IncomingHasHistory(req.incoming) && !req.forceFresh && req.authoritative
    requires |EnsureTrailingUserTurn(req.incoming, req.userMessage)| >= 2
    ensures var p := FinalPlan(previous, req);
      p.write == Store(EnsureTrailingUserTurn(req.incoming, req.userMessage)) &&
      p.fullSyncNeeded && !p.rewriteApplied && p.resetConversation == (req.bootstrapped || req.replay)
  {
  }

  /** An incoming history that only extends the stored one (or starts it) replaces the log without a reset in prompt mode. */
  lemma ExtensionIsStored(previous: seq<Turn>, req: Request)
    requires IncomingHasHistory(req.incoming) && !req.forceFresh
    requires var normalized := EnsureTrailingUserTurn(req.incoming, req.userMessage);
      !(req.authoritative && |normalized| >= 2) && (previous == [] || AppendOnly(previous, normalized))
    ensures var p := FinalPlan(previous, req);
      p.write == Store(EnsureTrailingUserTurn(req.incoming, req.userMessage)) && !p.rewriteApplied &&
      p.fullSyncNeeded == InitialFullSync(req) && p.resetConversation == (req.replay && InitialFullSync(req))
  {
  }

  /** A requested rewrite of a stored history replaces the log, resets the thread and resyncs. */
  lemma RewriteReplaces(previous: seq<Turn>, req: Request)
    requires IncomingHasHistory(req.incoming) && !req.forceFresh
    requires var normalized := EnsureTrailingUserTurn(req.incoming, req.userMessage);
      !(req.authoritative && |normalized| >= 2) && previous != [] && !AppendOnly(previous, normalized) &&
      RewriteRequested(previous, normalized, req)
    ensures var p := FinalPlan(previous, req);
      p.write == Store(EnsureTrailingUserTurn(req.incoming, req.userMessage)) &&
      p.resetConversation && p.fullSyncNeeded && p.rewriteApplied
  {
  }

  /** A continuation of the stored dialogue is never taken for a rewrite unless the body asks for one. */
  lemma ContinuationIsNoRewrite(previous: seq<Turn>, normalized: seq<Turn>, req: Request)
    requires !RewriteSignalled(req.body) && LooksLikeContinuationTurn(previous, normalized, req.userMessage)
    ensures !RewriteRequested(previous, normalized, req)
  {
  }

  /** A user message that the stored dialogue already ends with is not appended again. */
  lemma DuplicateNotAppended(previous: seq<Turn>, req: Request)
    requires !IncomingHasHistory(req.incoming) && !req.forceFresh
    requires EndsWithUserMessage(previous, req.userMessage)
    ensures FinalPlan(previous, req).write == Keep
  {
  }

  /** The log is kept as it is only when it already ends with the user message. */
  lemma KeepMeansDuplicate(previous: seq<Turn>, req: Request)
    requires FinalPlan(previous, req).write.Keep?
    ensures EndsWithUserMessage(previous, req.userMessage)
  {
  }

  /** Every list the ladder stores ends with the user message. */
  lemma StoredEndsWithUserMessage(previous: seq<Turn>, req: Request)
    requires req.userMessage != ""
    requires FinalPlan(previous, req).write.Store?
    ensures EndsWithUserMessage(FinalPlan(previous, req).write.turns, req.userMessage)
  {
    var normalized := EnsureTrailingUserTurn(req.incoming, req.userMessage);
    assert FreshTurns(req.incoming, req.userMessage) == normalized;
    if !req.forceFresh {
      var h := HistoryPlan(previous, req);
      assert h.write == FinalPlan(previous, req).write;
      assert IncomingHasHistory(req.incoming);
      LadderStoresNormalized(previous, normalized, RewriteRequested(previous, normalized, req), req);
    }
  }

  lemma LadderStoresNormalized(previous: seq<Turn>, normalized: seq<Turn>, requested: bool, req: Request)
    ensures Ladder(previous, normalized, requested, req).write.Store? ==>
      Ladder(previous, normalized, requested, req).write.turns == normalized
  {
  }

  /** Storing keeps a last turn that clamping leaves alone as the last turn, under a cap that keeps the newest turn. */
  lemma NormalizeKeepsCleanLast(turns: seq<Turn>, maxTurns: Memory.Limit, maxChars: Memory.Limit)
    requires turns != [] && Memory.StoredTurn(turns[|turns| - 1])
    requires Memory.Within(|turns[|turns| - 1].content|, maxChars) && Memory.KeepsNewest(maxTurns)
    ensures var r := Memory.NormalizeTurns(turns, maxTurns, maxChars);
      r != [] && r[|r| - 1] == turns[|turns| - 1]
  {
    var n := |turns| - 1;
    var last := turns[n];
    assert turns == turns[..n] + [last];
    Memory.CleanTurnsConcat(turns[..n], [last], maxChars);
    TrimOfTrimmed(last.content);
    assert Memory.ClampTurn(last, maxChars) == last;
    assert Memory.CleanTurns([last], maxChars) == [last];
    Memory.NormalizeTurnsBounded(turns, maxTurns, maxChars);
  }

  /**
   * After reconciliation the session's log ends with the current user message, whichever way
   * the ladder went, as long as the character cap leaves the message as it is and the turn
   * cap keeps the newest turn.
   */
  lemma UserMessageIsLast(stored: seq<Turn>, req: Request, maxTurns: Memory.Limit, maxChars: Memory.Limit)
    requires req.userMessage != "" && IsTrimmed(req.userMessage)
    requires Memory.Within(|req.userMessage|, maxChars) && Memory.KeepsNewest(maxTurns)
    ensures var e := OutcomeOf(stored, req, maxTurns, maxChars).effectiveTurns;
      EndsWithUserMessage(e, req.userMessage)
  {
    var previous := Dialogue(stored);
    var w := FinalPlan(previous, req).write;
    if w.Keep? {
      KeepMeansDuplicate(previous, req);
    }
    if w.Store? {
      StoredEndsWithUserMessage(previous, req);
    }
    EffectiveEndsWithUserMessage(stored, w, req.userMessage, maxTurns, maxChars);
  }

  lemma EffectiveEndsWithUserMessage(stored: seq<Turn>, w: Write, userMessage: string, maxTurns: Memory.Limit, maxChars: Memory.Limit)
    requires userMessage != "" && IsTrimmed(userMessage)
    requires Memory.Within(|userMessage|, maxChars) && Memory.KeepsNewest(maxTurns)
    requires w.Keep? ==> EndsWithUserMessage(Dialogue(stored), userMessage)
    requires w.Store? ==> EndsWithUserMessage(w.turns, userMessage)
    ensures EndsWithUserMessage(Effective(stored, w, userMessage, maxTurns, maxChars), userMessage)
  {
    var message := Turn(User, userMessage);
    if !w.Keep? {
      var turns := if w.Store? then w.turns else stored + [message];
      assert turns[|turns| - 1] == message;
      assert Memory.StoredTurn(message);
      NormalizeKeepsCleanLast(turns, maxTurns, maxChars);
      assert Effective(stored, w, userMessage, maxTurns, maxChars) == Memory.NormalizeTurns(turns, maxTurns, maxChars);
    }
  }

  // ---------------------------------------------------------------------------------------
  // The message sent upstream.

  /** `incomingSystemText || runtime.systemText || ""`. */
  function SystemTextFor(incomingSystemText: string, runtimeSystemText: string): (r: string)
    ensures incomingSystemText != "" ==> r == incomingSystemText
    ensures incomingSystemText == "" ==> r == runtimeSystemText
  {
    if incomingSystemText != "" then incomingSystemText else runtimeSystemText
  }

  /** `upstreamMessage`: nothing for a replay full sync, the transcript for a prompt full sync, the user message otherwise. */
  function UpstreamMessage(o: Outcome, systemText: string, userMessage: string): string {
    if o.useReplayFullSync then ""
    else if o.fullSyncNeeded then Messages.TranscriptPrompt(systemText, o.effectiveTurns)
    else userMessage
  }

  lemma DialogueOfDialogueEnd(turns: seq<Turn>)
    requires turns != [] && IsDialogue(turns[|turns| - 1])
    ensures Dialogue(turns) != []
  {
    var n := |turns| - 1;
    assert turns == turns[..n] + [turns[n]];
    FilterConcat(turns[..n], [turns[n]], IsDialogue);
  }

  /**
   * The handler's "No valid messages to send upstream" error cannot arise once the log ends
   * with the (non-empty) user message: outside a replay full sync the message is never empty.
   */
  lemma UpstreamMessageNonEmpty(o: Outcome, systemText: string, userMessage: string)
    requires userMessage != "" && EndsWithUserMessage(o.effectiveTurns, userMessage)
    ensures !o.useReplayFullSync ==> UpstreamMessage(o, systemText, userMessage) != ""
  {
    DialogueOfDialogueEnd(o.effectiveTurns);
    Messages.TranscriptPromptEmpty(systemText, o.effectiveTurns);
  }
}
