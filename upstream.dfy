/**
 * The upstream client of `lib/cai.js`: the client cache and its keys, the replay that re-seeds a
 * conversation from the user turns of the history, and the retry-once policy of the two send
 * operations. The character service is an oracle: the outcomes of its logins and of the messages
 * sent through it are scripted in advance, and every call to it is recorded as an event.
 */
module Upstream {
  import opened Wrappers
  import opened Seqs
  import opened Text
  import opened Turns
  import Messages

  // ---------------------------------------------------------------------------------------
  // Cache keys.

  /** `cacheKey`: one cached client per account token, character and session. */
  function CacheKey(token: string, characterId: string, sessionId: string): string {
    token + "::" + characterId + "::" + sessionId
  }

  /** Two sessions of the same account and character never share a cached client. */
  lemma CacheKeySeparatesSessions(token: string, characterId: string, a: string, b: string)
    requires a != b
    ensures CacheKey(token, characterId, a) != CacheKey(token, characterId, b)
  {
    var p := token + "::" + characterId + "::";
    assert CacheKey(token, characterId, a) == p + a && CacheKey(token, characterId, b) == p + b;
    assert (p + a)[|p|..] == a && (p + b)[|p|..] == b;
  }

  /** Two characters never share a cached client for the same account and session. */
  lemma CacheKeySeparatesCharacters(token: string, a: string, b: string, sessionId: string)
    requires a != b
    ensures CacheKey(token, a, sessionId) != CacheKey(token, b, sessionId)
  {
    var p := token + "::";
    var ka := CacheKey(token, a, sessionId);
    var kb := CacheKey(token, b, sessionId);
    assert ka == p + a + "::" + sessionId && kb == p + b + "::" + sessionId;
    if |a| == |b| {
      assert ka[|p|..|p| + |a|] == a && kb[|p|..|p| + |b|] == b;
    } else {
      assert |ka| != |kb|;
    }
  }

  // ---------------------------------------------------------------------------------------
  // The replay settings and messages.

  /**
   * `getReplayUserTurnsLimit` on the number read from `CAI_REPLAY_MAX_USER_TURNS` (0 when
   * unset); `None` stands for a value that is not a finite number. Zero means no limit.
   */
  function ReplayUserTurnsLimit(setting: Option<real>): (limit: nat)
    ensures setting.None? || setting.value <= 0.0 ==> limit == 0
    ensures setting.Some? && setting.value > 0.0 ==> limit as real <= setting.value < limit as real + 1.0
  {
    if setting.None? || setting.value <= 0.0 then 0 else setting.value.Floor
  }

  /** What `clampReplayUserTurns` returns. */
  datatype Clamped = Clamped(turns: seq<string>, truncated: bool)

  /**
   * `clampReplayUserTurns`: with a limit, only the newest `limit` user turns are kept, and the
   * result says whether any were dropped.
   */
  function ClampReplayUserTurns(turns: seq<string>, limit: nat): (r: Clamped)
    ensures r.truncated <==> 0 < limit < |turns|
    ensures |r.turns| == if r.truncated then limit else |turns|
    ensures r.turns == turns[|turns| - |r.turns|..]
  {
    if limit == 0 || |turns| <= limit then Clamped(turns, false) else Clamped(turns[|turns| - limit..], true)
  }

  predicate IsUserTurn(t: Turn) {
    t.role == User
  }

  function TrimmedContent(t: Turn): string {
    Trim(t.content)
  }

  predicate NonEmpty(s: string) {
    s != ""
  }

  /** `normalizeReplayUserTurns`: the trimmed contents of the user turns, blank ones dropped. */
  function NormalizeReplayUserTurns(turns: seq<Turn>): (r: seq<string>)
    ensures forall i :: 0 <= i < |r| ==> r[i] != "" && IsTrimmed(r[i])
  {
    var contents := Map(Filter(turns, IsUserTurn), TrimmedContent);
    assert forall x :: x in contents ==> IsTrimmed(x);
    Filter(contents, NonEmpty)
  }

  lemma NormalizeReplayUserTurnsConcat(a: seq<Turn>, b: seq<Turn>)
    ensures NormalizeReplayUserTurns(a + b) == NormalizeReplayUserTurns(a) + NormalizeReplayUserTurns(b)
  {
    FilterConcat(a, b, IsUserTurn);
    MapConcat(Filter(a, IsUserTurn), Filter(b, IsUserTurn), TrimmedContent);
    FilterConcat(Map(Filter(a, IsUserTurn), TrimmedContent), Map(Filter(b, IsUserTurn), TrimmedContent), NonEmpty);
  }

  /** There is nothing to replay exactly when no user turn has any non-whitespace content. */
  lemma {:induction false} NormalizeReplayUserTurnsEmpty(turns: seq<Turn>)
    ensures NormalizeReplayUserTurns(turns) == [] <==>
      forall i :: 0 <= i < |turns| && turns[i].role == User ==> Blank(turns[i].content)
  {
    if turns != [] {
      assert turns == [turns[0]] + turns[1..];
      NormalizeReplayUserTurnsConcat([turns[0]], turns[1..]);
      NormalizeReplayUserTurnsEmpty(turns[1..]);
      forall i | 1 <= i < |turns| ensures turns[i] == turns[1..][i - 1] {
      }
    }
  }

  /** `shouldInjectSystemIntoReplay` on `CAI_REPLAY_INCLUDE_SYSTEM`: on when unset, and unless it says "false". */
  predicate InjectSystemIntoReplay(env: string) {
    var raw := Lower(Trim(env));
    if raw == "" then true else raw != "false"
  }

  predicate EndsWith(s: string, suffix: string) {
    |suffix| <= |s| && s[|s| - |suffix|..] == suffix
  }

  /**
   * `makeReplayBootstrapMessage`: the first replayed message carries the system text ahead of
   * the user's words when there is system text and injection is on.
   */
  function MakeReplayBootstrapMessage(systemText: string, userMessage: string, inject: bool): (r: string)
    ensures r == "" <==> Blank(userMessage)
    ensures IsTrimmed(r)
    ensures EndsWith(r, Trim(userMessage))
    ensures Blank(systemText) || !inject ==> r == Trim(userMessage)
    ensures !Blank(systemText) && inject && !Blank(userMessage) ==>
      StartsWith(r, Messages.SYSTEM_HEADER + Trim(systemText))
  {
    var cleanUser := Trim(userMessage);
    if cleanUser == "" then ""
    else
      var cleanSystem := Trim(systemText);
      if cleanSystem == "" || !inject then cleanUser
      else
        var head := Messages.SYSTEM_HEADER + cleanSystem;
        var r := head + "\n\n" + Messages.USER_HEADER + cleanUser;
        assert r[..|head|] == head;
        assert r[|r| - |cleanUser|..] == cleanUser;
        assert r[0] == 'S' && r[|r| - 1] == cleanUser[|cleanUser| - 1];
        r
  }

  /** The messages a replay sends: the first kept user turn as the bootstrap message, the others as they are. */
  function ReplayMessages(systemText: string, kept: seq<string>, inject: bool): seq<string> {
    seq(|kept|, i requires 0 <= i < |kept| =>
      if i == 0 then MakeReplayBootstrapMessage(systemText, kept[i], inject) else kept[i])
  }

  /** Non-empty trimmed user turns give non-empty replay messages; only the first one changes. */
  lemma ReplayMessagesOf(systemText: string, kept: seq<string>, inject: bool)
    requires kept != []
    requires forall i :: 0 <= i < |kept| ==> kept[i] != "" && IsTrimmed(kept[i])
    ensures var messages := ReplayMessages(systemText, kept, inject);
      && |messages| == |kept|
      && (forall i :: 0 <= i < |messages| ==> messages[i] != "")
      && EndsWith(messages[0], kept[0])
      && messages[1..] == kept[1..]
  {
    TrimOfTrimmed(kept[0]);
    var messages := ReplayMessages(systemText, kept, inject);
    assert messages[1..] == kept[1..];
  }

  /** The replay `runReplaySync` sends: its messages, and whether the limit cut the history. */
  datatype ReplayPlan = ReplayPlan(messages: seq<string>, truncated: bool)

  /** The replay built from the history, or `None` when it has no user turn to replay. */
  function PlanReplay(systemText: string, turns: seq<Turn>, limit: nat, inject: bool): Option<ReplayPlan> {
    var raw := NormalizeReplayUserTurns(turns);
    if raw == [] then None
    else
      var limited := ClampReplayUserTurns(raw, limit);
      Some(ReplayPlan(ReplayMessages(systemText, limited.turns, inject), limited.truncated))
  }

  /** The replay messages built from non-empty trimmed user turns, whatever the limit. */
  lemma ClampedReplay(systemText: string, raw: seq<string>, limit: nat, inject: bool)
    requires raw != []
    requires forall i :: 0 <= i < |raw| ==> raw[i] != "" && IsTrimmed(raw[i])
    ensures var kept := ClampReplayUserTurns(raw, limit).turns;
      var messages := ReplayMessages(systemText, kept, inject);
      && messages != []
      && (forall i :: 0 <= i < |messages| ==> messages[i] != "")
      && |messages| == |kept|
      && EndsWith(messages[0], raw[|raw| - |messages|])
      && messages[1..] == raw[|raw| - |messages| + 1..]
  {
    var kept := ClampReplayUserTurns(raw, limit).turns;
    KeptTurns(raw, limit);
    ReplayMessagesOf(systemText, kept, inject);
  }

  /** The kept user turns are a non-empty suffix of non-empty trimmed turns. */
  lemma KeptTurns(raw: seq<string>, limit: nat)
    requires raw != []
    requires forall i :: 0 <= i < |raw| ==> raw[i] != "" && IsTrimmed(raw[i])
    ensures var kept := ClampReplayUserTurns(raw, limit).turns;
      && kept != []
      && (forall i :: 0 <= i < |kept| ==> kept[i] != "" && IsTrimmed(kept[i]))
      && kept[0] == raw[|raw| - |kept|]
      && kept[1..] == raw[|raw| - |kept| + 1..]
  {
    var kept := ClampReplayUserTurns(raw, limit).turns;
    forall i | 0 <= i < |kept| ensures kept[i] != "" && IsTrimmed(kept[i]) {
      assert kept[i] == raw[|raw| - |kept| + i];
    }
  }

  /**
   * There is a replay exactly when the history has a user turn to replay; it sends at most
   * `limit` messages (when there is a limit), none of them empty, so the "failed to build" error
   * is never raised; and it is flagged as truncated exactly when the limit dropped user turns.
   */
  lemma PlanReplayShape(systemText: string, turns: seq<Turn>, limit: nat, inject: bool)
    ensures PlanReplay(systemText, turns, limit, inject).None? <==> NormalizeReplayUserTurns(turns) == []
    ensures PlanReplay(systemText, turns, limit, inject).Some? ==>
      var raw := NormalizeReplayUserTurns(turns);
      var plan := PlanReplay(systemText, turns, limit, inject).value;
      && plan.messages != []
      && (forall i :: 0 <= i < |plan.messages| ==> plan.messages[i] != "")
      && |plan.messages| <= |raw|
      && (limit > 0 ==> |plan.messages| <= limit)
      && (plan.truncated <==> 0 < limit < |raw|)
  {
    var raw := NormalizeReplayUserTurns(turns);
    if raw != [] {
      ClampedReplay(systemText, raw, limit, inject);
    }
  }

  /**
   * The replay keeps the newest user turns: the oldest one kept closes the bootstrap message, and
   * the others are sent verbatim, in order.
   */
  lemma PlanReplayNewest(systemText: string, turns: seq<Turn>, limit: nat, inject: bool)
    requires PlanReplay(systemText, turns, limit, inject).Some?
    ensures var raw := NormalizeReplayUserTurns(turns);
      var messages := PlanReplay(systemText, turns, limit, inject).value.messages;
      && |messages| <= |raw|
      && EndsWith(messages[0], raw[|raw| - |messages|])
      && messages[1..] == raw[|raw| - |messages| + 1..]
  {
    ClampedReplay(systemText, NormalizeReplayUserTurns(turns), limit, inject);
  }

  // ---------------------------------------------------------------------------------------
  // The character service.

  /** What the proxy does to the character service, in order. */
  datatype Event =
    | Login(client: nat)
    | NewConversation(client: nat)
    | Message(client: nat, text: string)

  /**
   * The service as the proxy sees it: the events so far, the scripted outcomes of the logins
   * (login and connect) and sends still to come, and the number of clients created so far,
   * which names the next one. A send whose outcome is `None` throws or times out.
   */
  datatype Service = Service(events: seq<Event>, logins: seq<bool>, replies: seq<Option<string>>, clients: nat)

  function Rest<T>(s: seq<T>): seq<T> {
    if s == [] then [] else s[1..]
  }

  /** The client the next `createClient` yields, or `None` when its login or connect fails. */
  function NextClient(s: Service): Option<nat> {
    if s.logins != [] && s.logins[0] then Some(s.clients) else None
  }

  function AfterLogin(s: Service): Service {
    if NextClient(s).Some? then Service(s.events + [Login(s.clients)], s.logins[1..], s.replies, s.clients + 1)
    else s.(logins := Rest(s.logins))
  }

  /** The text of the reply to the next message, or `None` when the send fails. */
  function NextReply(s: Service): Option<string> {
    if s.replies == [] then None else s.replies[0]
  }

  function AfterSend(s: Service, client: nat, text: string): Service {
    s.(events := s.events + [Message(client, text)], replies := Rest(s.replies))
  }

  /** `createNewConversationIfNeeded` is best effort: it is recorded and never fails. */
  function AfterNewConversation(s: Service, client: nat): Service {
    s.(events := s.events + [NewConversation(client)])
  }

  /** Why a send operation failed. */
  datatype Failure = ConnectFailed | SendFailed | NoUserTurns | ReplayBuildFailed

  /** What `runReplaySync` returns. */
  datatype ReplayReport = ReplayReport(text: string, replayedUserTurns: nat, truncatedByLimit: bool)

  /** One send operation's effect: the service afterwards, the client left in the cache, and the result. */
  datatype Attempted<T> = Attempted(service: Service, cached: Option<nat>, result: Result<T, Failure>)

  // ---------------------------------------------------------------------------------------
  // The specification of the send operations.

  /** The cached client, or else a newly created one (`None` when creating it fails). */
  function AcquireClient(cached: Option<nat>, s: Service): (Service, Option<nat>) {
    if cached.Some? then (s, cached) else (AfterLogin(s), NextClient(s))
  }

  /** A new conversation when asked for, then the message; the reply is `None` when the send fails. */
  function SendOn(s: Service, client: nat, message: string, reset: bool): (Service, Option<string>) {
    var t := if reset then AfterNewConversation(s, client) else s;
    (AfterSend(t, client, message), NextReply(t))
  }

  /** The retry after a failed send: a fresh client, which is cached, and one more send. */
  function RetrySend(s: Service, message: string, reset: bool): Attempted<string> {
    var retry := NextClient(s);
    var s1 := AfterLogin(s);
    if retry.None? then Attempted(s1, None, Err(ConnectFailed))
    else
      var second := SendOn(s1, retry.value, message, reset);
      Attempted(second.0, retry, if second.1.Some? then Ok(second.1.value) else Err(SendFailed))
  }

  /** `sendCharacterMessage`, starting from the client cached under its key, if any. */
  function SendOutcome(cached: Option<nat>, s: Service, message: string, reset: bool): Attempted<string> {
    var acquired := AcquireClient(cached, s);
    if acquired.1.None? then Attempted(acquired.0, None, Err(ConnectFailed))
    else
      var first := SendOn(acquired.0, acquired.1.value, message, reset);
      if first.1.Some? then Attempted(first.0, acquired.1, Ok(first.1.value))
      else RetrySend(first.0, message, reset)
  }

  /** The messages sent one after the other, stopping at the first that fails; `last` is the latest reply. */
  function SendAll(s: Service, client: nat, messages: seq<string>, last: Option<string>): (Service, Option<string>)
    decreases |messages|
  {
    if messages == [] then (s, last)
    else
      var reply := NextReply(s);
      var t := AfterSend(s, client, messages[0]);
      if reply.None? then (t, None) else SendAll(t, client, messages[1..], reply)
  }

  /** `runReplaySync` through one client, on the replay built from the history. */
  function RunPlan(s: Service, client: nat, reset: bool, plan: Option<ReplayPlan>): (Service, Result<ReplayReport, Failure>) {
    var s1 := if reset then AfterNewConversation(s, client) else s;
    if plan.None? then (s1, Err(NoUserTurns))
    else
      var messages := plan.value.messages;
      if messages == [] || messages[|messages| - 1] == "" then (s1, Err(ReplayBuildFailed))
      else
        var sent := SendAll(s1, client, messages, Some(""));
        (sent.0, if sent.1.Some? then Ok(ReplayReport(sent.1.value, |messages|, plan.value.truncated)) else Err(SendFailed))
  }

  /** The retry after a failed replay: a fresh client, which is cached, and the whole replay once more. */
  function RetryReplay(s: Service, reset: bool, plan: Option<ReplayPlan>): Attempted<ReplayReport> {
    var retry := NextClient(s);
    var s1 := AfterLogin(s);
    if retry.None? then Attempted(s1, None, Err(ConnectFailed))
    else
      var second := RunPlan(s1, retry.value, reset, plan);
      Attempted(second.0, retry, second.1)
  }

  /** `sendCharacterMessageWithReplaySync`, starting from the client cached under its key, if any. */
  function ReplayOutcome(cached: Option<nat>, s: Service, reset: bool, plan: Option<ReplayPlan>): Attempted<ReplayReport> {
    var acquired := AcquireClient(cached, s);
    if acquired.1.None? then Attempted(acquired.0, None, Err(ConnectFailed))
    else
      var first := RunPlan(acquired.0, acquired.1.value, reset, plan);
      if first.1.Ok? then Attempted(first.0, acquired.1, first.1)
      else RetryReplay(first.0, reset, plan)
  }

  // ---------------------------------------------------------------------------------------
  // Properties of the send operations.

  function Opening(reset: bool, client: nat): seq<Event> {
    if reset then [NewConversation(client)] else []
  }

  /** The messages sent through `client`, as events. */
  function MessagesOf(client: nat, texts: seq<string>): seq<Event>
    decreases |texts|
  {
    if texts == [] then [] else [Message(client, texts[0])] + MessagesOf(client, texts[1..])
  }

  /** With a reset, every message goes out right after a new conversation on the same client. */
  predicate OpensBeforeEachMessage(log: seq<Event>) {
    forall i :: 0 <= i < |log| && log[i].Message? ==> 0 < i && log[i - 1] == NewConversation(log[i].client)
  }

  /** A second message goes through a different client, logged in after the first message. */
  predicate RetriesOnFreshClient(log: seq<Event>) {
    forall i, j :: 0 <= i < j < |log| && log[i].Message? && log[j].Message? ==>
      log[i].client != log[j].client && Login(log[j].client) in log[i + 1..j]
  }

  predicate AtMostTwoMessages(log: seq<Event>) {
    forall i, j, k :: 0 <= i < j < k < |log| && log[i].Message? && log[j].Message? ==> !log[k].Message?
  }

  /** The login an acquisition adds, if any, and what it leaves of the service. */
  lemma AcquireClientLog(cached: Option<nat>, s: Service)
    requires cached.Some? ==> cached.value < s.clients
    ensures var acquired := AcquireClient(cached, s);
      && acquired.0.events == s.events + (if cached.Some? || acquired.1.None? then [] else [Login(acquired.1.value)])
      && acquired.0.replies == s.replies
      && s.clients <= acquired.0.clients
      && (acquired.1.None? ==> cached.None? && acquired.0.clients == s.clients)
      && (acquired.1.Some? ==> acquired.1.value < acquired.0.clients)
  {
  }

  lemma SendOnLog(s: Service, client: nat, message: string, reset: bool)
    ensures SendOn(s, client, message, reset).0 ==
      s.(events := s.events + Opening(reset, client) + [Message(client, message)], replies := Rest(s.replies))
    ensures SendOn(s, client, message, reset).1 == NextReply(s)
  {
  }

  /** The retry logs in a fresh client, named by the service's count, and sends through it. */
  lemma RetrySendLog(s: Service, message: string, reset: bool)
    ensures var o := RetrySend(s, message, reset);
      && (o.cached.None? ==> o.result == Err(ConnectFailed) && o.service.events == s.events && o.service.clients == s.clients)
      && (o.cached.Some? ==>
            o.cached == Some(s.clients) && o.service.clients == s.clients + 1 &&
            o.service.events == s.events + [Login(s.clients)] + Opening(reset, s.clients) + [Message(s.clients, message)])
  {
    if NextClient(s).Some? {
      SendOnLog(AfterLogin(s), s.clients, message, reset);
    }
  }

  /** A cached client the service created stays one it created, whatever `sendCharacterMessage` does. */
  lemma SendOutcomeClients(cached: Option<nat>, s: Service, message: string, reset: bool)
    requires cached.Some? ==> cached.value < s.clients
    ensures var o := SendOutcome(cached, s, message, reset);
      s.clients <= o.service.clients && (o.cached.Some? ==> o.cached.value < o.service.clients)
  {
    AcquireClientLog(cached, s);
    var acquired := AcquireClient(cached, s);
    if acquired.1.Some? {
      var first := SendOn(acquired.0, acquired.1.value, message, reset);
      RetrySendLog(first.0, message, reset);
    }
  }

  /**
   * `sendCharacterMessage` sends the message at most twice, the second time only after the first
   * send failed and through a freshly logged-in client; with a reset each send follows a new
   * conversation on its client; and a reply comes from the client left in the cache.
   */
  lemma SendOutcomeLog(cached: Option<nat>, s: Service, message: string, reset: bool) returns (added: seq<Event>)
    requires cached.Some? ==> cached.value < s.clients
    ensures var o := SendOutcome(cached, s, message, reset);
      && o.service.events == s.events + added
      && (forall i :: 0 <= i < |added| && added[i].Message? ==> added[i].text == message)
      && AtMostTwoMessages(added)
      && RetriesOnFreshClient(added)
      && (reset ==> OpensBeforeEachMessage(added))
      && (o.result.Ok? ==> o.cached.Some? && added != [] && added[|added| - 1] == Message(o.cached.value, message))
  {
    AcquireClientLog(cached, s);
    var acquired := AcquireClient(cached, s);
    var logins: seq<Event> := if cached.Some? || acquired.1.None? then [] else [Login(acquired.1.value)];
    added := logins;
    if acquired.1.Some? {
      var c := acquired.1.value;
      var first := SendOn(acquired.0, c, message, reset);
      SendOnLog(acquired.0, c, message, reset);
      Assoc(s.events, logins, Opening(reset, c));
      Assoc(s.events, logins + Opening(reset, c), [Message(c, message)]);
      var one := logins + Opening(reset, c) + [Message(c, message)];
      assert first.0.events == s.events + one;
      OneAttemptLog(logins, c, message, reset);
      added := one;
      if first.1.None? {
        RetrySendLog(first.0, message, reset);
        var d := first.0.clients;
        if NextClient(first.0).Some? {
          TwoAttemptsLog(logins, c, d, message, reset);
          Assoc(s.events, one, [Login(d)]);
          Assoc(s.events, one + [Login(d)], Opening(reset, d));
          Assoc(s.events, one + [Login(d)] + Opening(reset, d), [Message(d, message)]);
          added := one + [Login(d)] + Opening(reset, d) + [Message(d, message)];
        }
      }
    }
  }

  lemma OneAttemptLog(logins: seq<Event>, c: nat, message: string, reset: bool)
    requires forall e :: e in logins ==> e.Login?
    requires |logins| <= 1
    ensures var log := logins + Opening(reset, c) + [Message(c, message)];
      && (forall i :: 0 <= i < |log| - 1 ==> !log[i].Message?)
      && (forall i :: 0 <= i < |log| && log[i].Message? ==> log[i].text == message)
      && AtMostTwoMessages(log)
      && RetriesOnFreshClient(log)
      && (reset ==> OpensBeforeEachMessage(log))
  {
    var log := logins + Opening(reset, c) + [Message(c, message)];
    forall i | 0 <= i < |log| - 1 ensures !log[i].Message? {
      assert log[i] in logins || log[i] in Opening(reset, c);
    }
  }

  lemma TwoAttemptsLog(logins: seq<Event>, c: nat, d: nat, message: string, reset: bool)
    requires forall e :: e in logins ==> e.Login?
    requires |logins| <= 1 && c != d
    ensures var log := logins + Opening(reset, c) + [Message(c, message)] + [Login(d)] + Opening(reset, d) + [Message(d, message)];
      && (forall i :: 0 <= i < |log| && log[i].Message? ==> log[i].text == message)
      && AtMostTwoMessages(log)
      && RetriesOnFreshClient(log)
      && (reset ==> OpensBeforeEachMessage(log))
  {
    var log := logins + Opening(reset, c) + [Message(c, message)] + [Login(d)] + Opening(reset, d) + [Message(d, message)];
    var m := TwoAttemptsPositions(logins, c, d, message, reset);
    var last := |log| - 1;
    forall i, j | 0 <= i < j < |log| && log[i].Message? && log[j].Message?
      ensures log[i].client != log[j].client && Login(log[j].client) in log[i + 1..j]
    {
      assert i == m && j == last;
      assert log[i + 1..j][0] == Login(d);
    }
  }

  /** The two messages of a retried send sit at `m` and at the end, with the retry's login right after `m`. */
  lemma TwoAttemptsPositions(logins: seq<Event>, c: nat, d: nat, message: string, reset: bool) returns (m: nat)
    requires forall e :: e in logins ==> e.Login?
    requires |logins| <= 1
    ensures var log := logins + Opening(reset, c) + [Message(c, message)] + [Login(d)] + Opening(reset, d) + [Message(d, message)];
      && m + 2 < |log|
      && log[m] == Message(c, message) && log[m + 1] == Login(d) && log[|log| - 1] == Message(d, message)
      && (forall i :: 0 <= i < |log| && log[i].Message? ==> i == m || i == |log| - 1)
      && (reset ==> 0 < m && log[m - 1] == NewConversation(c) && log[|log| - 2] == NewConversation(d))
  {
    var one := logins + Opening(reset, c) + [Message(c, message)];
    var log := one + [Login(d)] + Opening(reset, d) + [Message(d, message)];
    m := |one| - 1;
    forall i | 0 <= i < m ensures !log[i].Message? {
      assert log[i] in logins || log[i] in Opening(reset, c);
    }
    forall i | m < i < |log| - 1 ensures !log[i].Message? {
      assert log[i] == Login(d) || log[i] in Opening(reset, d);
    }
  }


  /** When the cached client answers, the reply is returned, nothing else is sent and no client is created. */
  lemma SendFirstTry(cached: Option<nat>, s: Service, message: string, reset: bool)
    requires cached.Some? && NextReply(s).Some?
    ensures var o := SendOutcome(cached, s, message, reset);
      && o.result == Ok(NextReply(s).value)
      && o.cached == cached
      && o.service.clients == s.clients
      && o.service.events == s.events + Opening(reset, cached.value) + [Message(cached.value, message)]
  {
    SendOnLog(s, cached.value, message, reset);
  }

  /**
   * The messages go out in order through one client, up to and including the first that fails;
   * when none fails, the reply returned is the one to the last message.
   */
  lemma {:induction false} SendAllInOrder(s: Service, client: nat, messages: seq<string>, last: Option<string>) returns (n: nat)
    ensures var sent := SendAll(s, client, messages, last);
      && n <= |messages|
      && sent.0.events == s.events + MessagesOf(client, messages[..n])
      && sent.0.clients == s.clients && sent.0.logins == s.logins
      && (sent.1.Some? ==> n == |messages|)
      && (sent.1.Some? && messages != [] ==> |messages| <= |s.replies| && sent.1 == s.replies[|messages| - 1])
    decreases |messages|
  {
    if messages == [] {
      n := 0;
    } else {
      var t := AfterSend(s, client, messages[0]);
      var reply := NextReply(s);
      assert messages[..1] == [messages[0]];
      if reply.None? {
        n := 1;
      } else {
        var k := SendAllInOrder(t, client, messages[1..], reply);
        n := k + 1;
        assert messages[..n][1..] == messages[1..][..k];
      }
    }
  }

  function PlanMessages(plan: Option<ReplayPlan>): seq<string> {
    if plan.None? then [] else plan.value.messages
  }

  /**
   * One replay sends nothing but a new conversation (when asked for) and a prefix of the replay
   * messages, in order; when it succeeds it has sent them all and reports how many, and whether
   * the limit cut the history.
   */
  lemma RunPlanLog(s: Service, client: nat, reset: bool, plan: Option<ReplayPlan>) returns (n: nat)
    ensures var run := RunPlan(s, client, reset, plan);
      && n <= |PlanMessages(plan)|
      && run.0.events == s.events + Opening(reset, client) + MessagesOf(client, PlanMessages(plan)[..n])
      && run.0.clients == s.clients && run.0.logins == s.logins
      && (plan.None? ==> run.1 == Err(NoUserTurns))
      && (run.1.Ok? ==>
            plan.Some? && n == |plan.value.messages| &&
            run.1.value.replayedUserTurns == n && run.1.value.truncatedByLimit == plan.value.truncated)
  {
    var s1 := if reset then AfterNewConversation(s, client) else s;
    assert s1.events == s.events + Opening(reset, client);
    n := 0;
    if plan.Some? {
      var messages := plan.value.messages;
      if messages != [] && messages[|messages| - 1] != "" {
        n := SendAllInOrder(s1, client, messages, Some(""));
      }
    }
    assert PlanMessages(plan)[..0] == [];
  }

  /** The retry of a replay logs in a fresh client, named by the service's count, and replays through it. */
  lemma RetryReplayLog(s: Service, reset: bool, plan: Option<ReplayPlan>) returns (n: nat)
    ensures var o := RetryReplay(s, reset, plan);
      && n <= |PlanMessages(plan)|
      && (o.cached.None? ==> o.result == Err(ConnectFailed) && o.service.events == s.events && o.service.clients == s.clients)
      && (o.cached.Some? ==>
            o.cached == Some(s.clients) && o.service.clients == s.clients + 1 &&
            o.service.events == s.events + [Login(s.clients)] + Opening(reset, s.clients) + MessagesOf(s.clients, PlanMessages(plan)[..n]))
      && (plan.None? ==> o.result.Err?)
      && (o.result.Ok? ==> plan.Some? && n == |plan.value.messages|)
  {
    n := 0;
    if NextClient(s).Some? {
      n := RunPlanLog(AfterLogin(s), s.clients, reset, plan);
    }
  }

  lemma Assoc(a: seq<Event>, b: seq<Event>, c: seq<Event>)
    ensures a + b + c == a + (b + c)
  {
  }

  predicate EndsWithLog(log: seq<Event>, tail: seq<Event>) {
    |tail| <= |log| && log[|log| - |tail|..] == tail
  }

  lemma EndsWithLogAppend(head: seq<Event>, tail: seq<Event>)
    ensures EndsWithLog(head + tail, tail)
  {
    assert (head + tail)[|head|..] == tail;
  }

  /** A cached client the service created stays one it created, whatever the replay does. */
  lemma ReplayOutcomeClients(cached: Option<nat>, s: Service, reset: bool, plan: Option<ReplayPlan>)
    requires cached.Some? ==> cached.value < s.clients
    ensures var o := ReplayOutcome(cached, s, reset, plan);
      s.clients <= o.service.clients && (o.cached.Some? ==> o.cached.value < o.service.clients)
  {
    AcquireClientLog(cached, s);
    var acquired := AcquireClient(cached, s);
    if acquired.1.Some? {
      var _ := RunPlanLog(acquired.0, acquired.1.value, reset, plan);
      var _ := RetryReplayLog(RunPlan(acquired.0, acquired.1.value, reset, plan).0, reset, plan);
    }
  }

  /**
   * `sendCharacterMessageWithReplaySync` only adds events; when it succeeds, the last thing it
   * did was the full replay, in order, through the client left in the cache.
   */
  lemma ReplayOutcomeLog(cached: Option<nat>, s: Service, reset: bool, plan: Option<ReplayPlan>) returns (added: seq<Event>)
    requires cached.Some? ==> cached.value < s.clients
    ensures var o := ReplayOutcome(cached, s, reset, plan);
      && o.service.events == s.events + added
      && (o.result.Ok? ==>
            plan.Some? && o.cached.Some? &&
            EndsWithLog(added, Opening(reset, o.cached.value) + MessagesOf(o.cached.value, plan.value.messages)))
  {
    AcquireClientLog(cached, s);
    var acquired := AcquireClient(cached, s);
    var logins: seq<Event> := if cached.Some? || acquired.1.None? then [] else [Login(acquired.1.value)];
    added := logins;
    if acquired.1.Some? {
      var c := acquired.1.value;
      var n := RunPlanLog(acquired.0, c, reset, plan);
      var first := RunPlan(acquired.0, c, reset, plan);
      var replay := Opening(reset, c) + MessagesOf(c, PlanMessages(plan)[..n]);
      Assoc(s.events + logins, Opening(reset, c), MessagesOf(c, PlanMessages(plan)[..n]));
      Assoc(s.events, logins, replay);
      added := logins + replay;
      assert first.0.events == s.events + added;
      if first.1.Ok? {
        assert PlanMessages(plan)[..n] == plan.value.messages;
        EndsWithLogAppend(logins, replay);
      } else {
        var k := RetryReplayLog(first.0, reset, plan);
        var d := first.0.clients;
        if NextClient(first.0).Some? {
          var again := Opening(reset, d) + MessagesOf(d, PlanMessages(plan)[..k]);
          Assoc(s.events + added + [Login(d)], Opening(reset, d), MessagesOf(d, PlanMessages(plan)[..k]));
          Assoc(s.events, added, [Login(d)]);
          Assoc(s.events, added + [Login(d)], again);
          added := added + [Login(d)] + again;
          if RetryReplay(first.0, reset, plan).result.Ok? {
            assert PlanMessages(plan)[..k] == plan.value.messages;
            EndsWithLogAppend(logins + replay + [Login(d)], again);
          }
        }
      }
    }
  }

  /**
   * A history with no user turn to replay sends no message and fails, yet still costs the cached
   * client: a fresh one is created and cached in its place.
   */
  lemma ReplayWithoutUserTurns(cached: Option<nat>, s: Service, reset: bool) returns (added: seq<Event>)
    requires cached.Some? ==> cached.value < s.clients
    ensures var o := ReplayOutcome(cached, s, reset, None);
      && o.result.Err?
      && o.service.events == s.events + added
      && (forall e :: e in added ==> !e.Message?)
      && (cached.Some? && NextClient(s).Some? ==> o.cached == Some(s.clients))
  {
    AcquireClientLog(cached, s);
    var acquired := AcquireClient(cached, s);
    var logins: seq<Event> := if cached.Some? || acquired.1.None? then [] else [Login(acquired.1.value)];
    added := logins;
    if acquired.1.Some? {
      var c := acquired.1.value;
      var _ := RunPlanLog(acquired.0, c, reset, None);
      var first := RunPlan(acquired.0, c, reset, None);
      assert PlanMessages(None)[..0] == [];
      Assoc(s.events, logins, Opening(reset, c));
      added := logins + Opening(reset, c);
      assert first.0.events == s.events + added;
      var _ := RetryReplayLog(first.0, reset, None);
      if NextClient(first.0).Some? {
        var d := first.0.clients;
        Assoc(s.events, added, [Login(d)]);
        Assoc(s.events, added + [Login(d)], Opening(reset, d));
        added := added + [Login(d)] + Opening(reset, d);
      }
    }
  }

  // ---------------------------------------------------------------------------------------
  // The client cache.

  function Store(cache: map<string, nat>, key: string, client: Option<nat>): map<string, nat> {
    if client.Some? then cache[key := client.value] else cache - {key}
  }

  lemma StoreOver(cache: map<string, nat>, key: string, first: nat, client: Option<nat>)
    ensures Store(cache[key := first], key, client) == Store(cache, key, client)
  {
    if client.Some? {
      assert cache[key := first][key := client.value] == cache[key := client.value];
    } else {
      assert cache[key := first] - {key} == cache - {key};
    }
  }

  /** The module's client cache, and the character service reached through its clients. */
  class Gateway {
    var clientCache: map<string, nat>
    var service: Service

    /** Every cached client is one the service has created. */
    ghost predicate Valid()
      reads this
    {
      forall key :: key in clientCache ==> clientCache[key] < service.clients
    }

    constructor (service: Service)
      ensures Valid()
      ensures clientCache == map[] && this.service == service
    {
      clientCache := map[];
      this.service := service;
    }

    function Cached(key: string): Option<nat>
      reads this
    {
      if key in clientCache then Some(clientCache[key]) else None
    }

    /** `createClient`: log in and connect a new client. */
    method CreateClient() returns (client: Option<nat>)
      modifies this
      ensures client == NextClient(old(service)) && service == AfterLogin(old(service))
      ensures clientCache == old(clientCache)
    {
      client := NextClient(service);
      service := AfterLogin(service);
    }

    method CreateNewConversationIfNeeded(client: nat)
      modifies this
      ensures service == AfterNewConversation(old(service), client)
      ensures clientCache == old(clientCache)
    {
      service := AfterNewConversation(service, client);
    }

    /** `sendRawCharacterMessage`, with the reply's text already extracted. */
    method SendRawCharacterMessage(client: nat, message: string) returns (reply: Option<string>)
      modifies this
      ensures reply == NextReply(old(service)) && service == AfterSend(old(service), client, message)
      ensures clientCache == old(clientCache)
    {
      reply := NextReply(service);
      service := AfterSend(service, client, message);
    }

    /** The client cached under `key`, or a new one, created and cached. */
    method GetOrCreateClient(key: string) returns (client: Option<nat>)
      modifies this
      ensures (service, client) == AcquireClient(old(Cached(key)), old(service))
      ensures clientCache == Store(old(clientCache), key, client)
    {
      client := Cached(key);
      if client.None? {
        client := CreateClient();
        if client.None? {
          assert clientCache - {key} == clientCache;
          return;
        }
      }
      clientCache := clientCache[key := client.value];
      assert client == old(Cached(key)) ==> clientCache == old(clientCache);
    }

    /** A new conversation on `client` when asked for, then the message through it. */
    method SendThrough(client: nat, message: string, reset: bool) returns (reply: Option<string>)
      modifies this
      ensures (service, reply) == SendOn(old(service), client, message, reset)
      ensures clientCache == old(clientCache)
    {
      if reset {
        CreateNewConversationIfNeeded(client);
      }
      reply := SendRawCharacterMessage(client, message);
    }

    /** The retry of `sendCharacterMessage`: the entry is dropped, a fresh client is created and cached, and the message goes once more. */
    method ReconnectAndSend(key: string, message: string, reset: bool) returns (r: Result<string, Failure>)
      modifies this
      ensures var o := RetrySend(old(service), message, reset);
        r == o.result && service == o.service && clientCache == Store(old(clientCache), key, o.cached)
    {
      clientCache := clientCache - {key};
      var retry := CreateClient();
      if retry.None? {
        return Err(ConnectFailed);
      }
      clientCache := clientCache[key := retry.value];
      assert clientCache == old(clientCache)[key := retry.value];
      var reply := SendThrough(retry.value, message, reset);
      if reply.None? {
        return Err(SendFailed);
      }
      return Ok(reply.value);
    }

    /** The replay messages sent one after the other through `client`, stopping at the first that fails. */
    method SendReplayMessages(client: nat, messages: seq<string>) returns (lastResponse: Option<string>)
      modifies this
      ensures (service, lastResponse) == SendAll(old(service), client, messages, Some(""))
      ensures clientCache == old(clientCache)
    {
      lastResponse := Some("");
      for i := 0 to |messages|
        invariant lastResponse.Some?
        invariant clientCache == old(clientCache)
        invariant SendAll(old(service), client, messages, Some("")) == SendAll(service, client, messages[i..], lastResponse)
      {
        assert messages[i..][1..] == messages[i + 1..];
        lastResponse := SendRawCharacterMessage(client, messages[i]);
        if lastResponse.None? {
          return;
        }
      }
    }

    /** The user turns to replay, cut to the limit, and the messages that replay them. */
    static method BuildReplay(systemText: string, turns: seq<Turn>, limit: nat, inject: bool) returns (plan: Option<ReplayPlan>)
      ensures plan == PlanReplay(systemText, turns, limit, inject)
    {
      var raw := NormalizeReplayUserTurns(turns);
      if raw == [] {
        return None;
      }
      var limited := ClampReplayUserTurns(raw, limit);
      var messages := ReplayMessages(systemText, limited.turns, inject);
      return Some(ReplayPlan(messages, limited.truncated));
    }

    /** `runReplaySync` through `client`. */
    method RunReplaySync(client: nat, reset: bool, systemText: string, turns: seq<Turn>, limit: nat, inject: bool)
      returns (r: Result<ReplayReport, Failure>)
      modifies this
      ensures (service, r) == RunPlan(old(service), client, reset, PlanReplay(systemText, turns, limit, inject))
      ensures clientCache == old(clientCache)
    {
      if reset {
        CreateNewConversationIfNeeded(client);
      }
      var plan := BuildReplay(systemText, turns, limit, inject);
      if plan.None? {
        return Err(NoUserTurns);
      }
      var messages := plan.value.messages;
      if messages == [] || messages[|messages| - 1] == "" {
        return Err(ReplayBuildFailed);
      }
      var lastResponse := SendReplayMessages(client, messages);
      if lastResponse.None? {
        return Err(SendFailed);
      }
      return Ok(ReplayReport(lastResponse.value, |messages|, plan.value.truncated));
    }

    /** The retry of the replay: the entry is dropped, a fresh client is created and cached, and the whole replay runs once more. */
    method ReconnectAndReplay(key: string, reset: bool, systemText: string, turns: seq<Turn>, limit: nat, inject: bool)
      returns (r: Result<ReplayReport, Failure>)
      modifies this
      ensures var o := RetryReplay(old(service), reset, PlanReplay(systemText, turns, limit, inject));
        r == o.result && service == o.service && clientCache == Store(old(clientCache), key, o.cached)
    {
      clientCache := clientCache - {key};
      var retry := CreateClient();
      if retry.None? {
        return Err(ConnectFailed);
      }
      clientCache := clientCache[key := retry.value];
      assert clientCache == old(clientCache)[key := retry.value];
      r := RunReplaySync(retry.value, reset, systemText, turns, limit, inject);
    }

    /**
     * `sendCharacterMessage`: the cached client (created and cached when there is none) sends the
     * message; when that fails, the entry is dropped, a fresh client is created and cached, and
     * the message is sent once more.
     */
    method SendCharacterMessage(token: string, characterId: string, sessionId: string, message: string, reset: bool)
      returns (r: Result<string, Failure>)
      requires Valid()
      modifies this
      ensures Valid()
      ensures var key := CacheKey(token, characterId, sessionId);
        var o := SendOutcome(old(Cached(key)), old(service), message, reset);
        r == o.result && service == o.service && clientCache == Store(old(clientCache), key, o.cached)
    {
      var key := CacheKey(token, characterId, sessionId);
      SendOutcomeClients(Cached(key), service, message, reset);
      var client := GetOrCreateClient(key);
      if client.None? {
        return Err(ConnectFailed);
      }
      var reply := SendThrough(client.value, message, reset);
      if reply.Some? {
        return Ok(reply.value);
      }
      StoreOver(old(clientCache), key, client.value, RetrySend(service, message, reset).cached);
      r := ReconnectAndSend(key, message, reset);
    }

    /**
     * `sendCharacterMessageWithReplaySync`: the same cache policy around `runReplaySync`; any
     * failure of the first replay, including a history with nothing to replay, costs the cached
     * client and replays once more through a fresh one.
     */
    method SendCharacterMessageWithReplaySync(token: string, characterId: string, sessionId: string,
                                              turns: seq<Turn>, systemText: string, reset: bool, limit: nat, inject: bool)
      returns (r: Result<ReplayReport, Failure>)
      requires Valid()
      modifies this
      ensures Valid()
      ensures var key := CacheKey(token, characterId, sessionId);
        var o := ReplayOutcome(old(Cached(key)), old(service), reset, PlanReplay(systemText, turns, limit, inject));
        r == o.result && service == o.service && clientCache == Store(old(clientCache), key, o.cached)
    {
      var key := CacheKey(token, characterId, sessionId);
      ghost var plan := PlanReplay(systemText, turns, limit, inject);
      ReplayOutcomeClients(Cached(key), service, reset, plan);
      var client := GetOrCreateClient(key);
      if client.None? {
        return Err(ConnectFailed);
      }
      r := RunReplaySync(client.value, reset, systemText, turns, limit, inject);
      if r.Ok? {
        return;
      }
      StoreOver(old(clientCache), key, client.value, RetryReplay(service, reset, plan).cached);
      r := ReconnectAndReplay(key, reset, systemText, turns, limit, inject);
    }
  }
}
