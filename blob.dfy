/**
 * The blob reconstructor: a last user message that carries a whole serialised transcript
 * ("Conversation history:" ... "Current user message:" ...) is rebuilt into typed turns;
 * failing that, a message that merely looks serialised is cut down to its current-user part.
 */
module Blob {
  import opened Wrappers
  import opened Text
  import opened Seqs
  import opened Turns
  import opened Labels
  import opened History
  import Memory

  /** The history-section headings, in the order the marker regexes and `historyLabels` list them. */
  const HISTORY_LABELS: seq<string> := [
    "conversation history", "chat history", "history",
    "история диалога", "история чата", "история"
  ]

  /** The current-message headings, in the order the marker regexes and `currentLabels` list them. */
  const CURRENT_LABELS: seq<string> := [
    "current user message", "current user input", "current message", "user message",
    "текущее сообщение пользователя", "сообщение пользователя", "текущее сообщение"
  ]

  /** The phrases whose mere occurrence makes `looksLikeSerializedConversation` answer yes. */
  const SERIALIZED_PHRASES: seq<string> := [
    "conversation history", "chat history", "current user message", "current user input",
    "история чата", "история диалога", "текущее сообщение"
  ]

  /** The speaker names of the explicit-role-line regex. */
  const EXPLICIT_ROLE_NAMES: seq<string> := ["assistant", "user", "ассистент", "пользователь", "юзер"]

  // ---------------------------------------------------------------------------------------
  // The marker regexes `^\s*<Phrase>\s*[:\-]` (flags i, m) and the substring test.

  /** Under the `m` flag, `^\s*` reaches position `q`: only whitespace lies between a line start and `q`. */
  predicate LineStartReachable(s: string, q: nat)
    requires q <= |s|
  {
    exists p :: 0 <= p <= q && (p == 0 || IsLineTerminator(s[p - 1])) && AllSpace(s[p..q])
  }

  /** The lower-case `phrase` occurs at `q`, ignoring case. */
  predicate PhraseAt(s: string, phrase: string, q: nat) {
    q + |phrase| <= |s| && Lower(s[q..q + |phrase|]) == phrase
  }

  /** The marker regex of `phrase` matches with the phrase at `q`: the first non-space after it is ":" or "-". */
  predicate MarkerAt(s: string, phrase: string, q: nat) {
    PhraseAt(s, phrase, q) && LineStartReachable(s, q) &&
    var e := SpaceRunFrom(s, q + |phrase|);
    e < |s| && (s[e] == ':' || s[e] == '-')
  }

  /** `findFirstMarkerMatch(s, patterns)` is not null for the marker regexes of `phrases`. */
  predicate HasMarker(s: string, phrases: seq<string>) {
    exists i, q :: 0 <= i < |phrases| && 0 <= q <= |s| && MarkerAt(s, phrases[i], q)
  }

  /** The first regex of `looksLikeSerializedConversation`: one of the phrases occurs anywhere, ignoring case. */
  predicate MentionsTranscript(s: string) {
    exists i, q :: 0 <= i < |SERIALIZED_PHRASES| && 0 <= q <= |s| && PhraseAt(s, SERIALIZED_PHRASES[i], q)
  }

  // ---------------------------------------------------------------------------------------
  // The counting regexes, read one line at a time.

  /** The text before and after the first colon of a line. */
  function ColonSplit(line: string): (r: Option<(string, string)>)
    ensures r.Some? ==> ':' !in r.value.0
  {
    match IndexFrom(line, ':', 0)
    case None => None
    case Some(c) =>
      assert forall x :: x in line[..c] ==> x != ':';
      Some((line[..c], line[c + 1..]))
  }

  /** `.+$`: at least one character that is not a line terminator. */
  predicate HasText(s: string) {
    exists k :: 0 <= k < |s| && !IsLineTerminator(s[k])
  }

  /** A line the rough-turn-count regex `^\s*(?:[-*]\s*)?[^:\n]{1,64}\s*:\s*` counts. */
  predicate RoughLabelLine(line: string) {
    match ColonSplit(line)
    case None => false
    case Some((head, _)) => LabelOfHead(head).Some?
  }

  /** A line the generic-role-line regex `^\s*(?:[-*]\s*)?[^:\n]{1,64}\s*:\s*.+$` counts. */
  predicate GenericRoleLine(line: string) {
    match ColonSplit(line)
    case None => false
    case Some((head, tail)) => LabelOfHead(head).Some? && HasText(tail)
  }

  /** The text before a colon without its leading whitespace, one bullet with its whitespace, and trailing whitespace. */
  function BareHead(head: string): string {
    var i0 := SpaceRunFrom(head, 0);
    var k := if i0 < |head| && IsBullet(head[i0]) then SpaceRunFrom(head, i0 + 1) else i0;
    TrimEnd(head[k..])
  }

  /** A line the explicit-role-line regex counts: an explicit speaker name, in any case, then ":" and text. */
  predicate ExplicitRoleLine(line: string) {
    match ColonSplit(line)
    case None => false
    case Some((head, tail)) => Lower(BareHead(head)) in EXPLICIT_ROLE_NAMES && HasText(tail)
  }

  /** `looksLikeSerializedConversation`. */
  predicate LooksLikeSerializedConversation(content: string) {
    !Blank(content) &&
    var lines := SplitLines(content);
    MentionsTranscript(content) || |Filter(lines, ExplicitRoleLine)| >= 2 ||
    (|Filter(lines, GenericRoleLine)| >= 4 && |content| >= 200)
  }

  // ---------------------------------------------------------------------------------------
  // Marker lines.

  predicate IsHistoryMarkerLine(line: string) {
    MatchesMarkerLabel(line, HISTORY_LABELS)
  }

  predicate IsCurrentMarkerLine(line: string) {
    MatchesMarkerLabel(line, CURRENT_LABELS)
  }

  /** `historyMarkerLine`: the first line headed by a history label. */
  function HistoryMarkerLine(lines: seq<string>): Option<nat> {
    FirstWhere(lines, IsHistoryMarkerLine, None, 0)
  }

  /** `currentMarkerLine`: the first line, other than the history marker line, headed by a current-message label. */
  function CurrentMarkerLine(lines: seq<string>): Option<nat> {
    FirstWhere(lines, IsCurrentMarkerLine, HistoryMarkerLine(lines), 0)
  }

  /** The scan that sets `historyMarkerLine` and `currentMarkerLine`. */
  method FindMarkerLines(lines: seq<string>) returns (historyLine: Option<nat>, currentLine: Option<nat>)
    ensures historyLine == HistoryMarkerLine(lines)
    ensures currentLine == CurrentMarkerLine(lines)
  {
    historyLine := None;
    currentLine := None;
    for i := 0 to |lines|
      invariant historyLine == FirstWhere(lines[..i], IsHistoryMarkerLine, None, 0)
      invariant currentLine == FirstWhere(lines[..i], IsCurrentMarkerLine, historyLine, 0)
    {
      FirstWhereSnoc(lines, IsHistoryMarkerLine, None, i);
      FirstWhereSnoc(lines, IsCurrentMarkerLine, historyLine, i);
      if historyLine.None? && IsHistoryMarkerLine(lines[i]) {
        FirstWhereSkipBeyond(lines[..i + 1], IsCurrentMarkerLine, i + 1);
        FirstWhereSnoc(lines, IsCurrentMarkerLine, Some(i), i);
        FirstWhereSkipBeyond(lines[..i], IsCurrentMarkerLine, i);
        historyLine := Some(i);
        continue;
      }
      if currentLine.None? && IsCurrentMarkerLine(lines[i]) {
        currentLine := Some(i);
      }
    }
    assert lines[..|lines|] == lines;
  }

  // ---------------------------------------------------------------------------------------
  // `parseRisuConversationBlob`.

  /** What a recognised blob yields: the instructions that preceded the transcript and its turns. */
  datatype BlobParse = BlobParse(systemText: string, turns: seq<Turn>)

  /** The trimmed text after the current-message marker line, "" without one. */
  function CurrentSection(lines: seq<string>, currentLine: Option<nat>): (r: string)
    requires currentLine.Some? ==> currentLine.value < |lines|
    ensures IsTrimmed(r)
  {
    if currentLine.Some? then Trim(Join(lines[currentLine.value + 1..], "\n")) else ""
  }

  /** The parsed history with the current user message pushed, unless it already ends with that message. */
  function WithCurrent(turns: seq<Turn>, current: string): (r: seq<Turn>)
    ensures r == turns || r == turns + [Turn(User, current)]
    ensures current != "" ==> r != [] && Last(r) == Turn(User, current)
    ensures current == "" ==> r == turns
    ensures |r| <= |turns| + 1
  {
    if current != "" && (turns == [] || Last(turns) != Turn(User, current)) then turns + [Turn(User, current)]
    else turns
  }

  /** The `findIndex` test for the first role line: a label line whose label is no heading and resolves to a speaker. */
  predicate OpensTurn(line: string, current: string) {
    '\n' !in line &&
    match MatchLabelLine(line)
    case None => false
    case Some(m) => !IsSystemLikeLabel(m.rawLabel) && InferRole(m.rawLabel, m.rest, current, Unknown, map[]).0 != Unknown
  }

  /** The trimmed lines before `n`, "" when there are none. */
  function Preamble(lines: seq<string>, n: nat): (r: string)
    requires n <= |lines|
    ensures IsTrimmed(r)
  {
    if n > 0 then Trim(Join(lines[..n], "\n")) else ""
  }

  /** `systemText`: the lines before the history marker, or without one, the lines before the first role line. */
  function SystemText(lines: seq<string>, historyLine: Option<nat>, current: string): (r: string)
    requires historyLine.Some? ==> historyLine.value < |lines|
    ensures IsTrimmed(r)
  {
    match historyLine
    case Some(h) => Preamble(lines, h)
    case None =>
      match FirstWhere(lines, line => OpensTurn(line, current), None, 0)
      case Some(f) => Preamble(lines, f)
      case None => ""
  }

  /** Whether one of the marker regexes matches anywhere in the content. */
  predicate HasAnyMarker(content: string) {
    HasMarker(content, HISTORY_LABELS) || HasMarker(content, CURRENT_LABELS)
  }

  /** `parseRisuConversationBlob`: `None` stands for `null`. */
  function ConversationBlob(content: string): Option<BlobParse>
  {
    if Blank(content) then None
    else
      var lines := SplitLines(content);
      var marked := HasAnyMarker(content);
      if !marked && |Filter(lines, RoughLabelLine)| < 2 then None
      else SectionsBlob(lines, marked, HistoryMarkerLine(lines), CurrentMarkerLine(lines))
  }

  /** The part of `parseRisuConversationBlob` after the marker scan. */
  function SectionsBlob(lines: seq<string>, marked: bool, h: Option<nat>, c: Option<nat>): Option<BlobParse>
    requires h.Some? ==> h.value < |lines|
    requires c.Some? ==> c.value < |lines|
  {
    var start := if h.Some? then h.value + 1 else 0;
    var end := if c.Some? then c.value else |lines|;
    if end < start then None
    else
      var current := CurrentSection(lines, c);
      BlobResult(marked, SystemText(lines, h, current), ParseHistoryTurns(Trim(Join(lines[start..end], "\n")), current), current)
  }

  /** The end of `parseRisuConversationBlob`, given the parsed history and the current user message. */
  function BlobResult(marked: bool, systemText: string, history: seq<Turn>, current: string): Option<BlobParse> {
    var turns := WithCurrent(history, current);
    if turns == [] && current == "" then None
    else if !marked && !(HasRole(turns, Assistant) && HasRole(turns, User)) then None
    else Some(BlobParse(systemText, turns))
  }

  /** The current user message `parseRisuConversationBlob` reads from the content. */
  function BlobCurrent(content: string): (r: string)
    ensures IsTrimmed(r)
  {
    var lines := SplitLines(content);
    CurrentSection(lines, CurrentMarkerLine(lines))
  }

  /** `parseRisuConversationBlob`, with its marker scan and its history loop. */
  method ParseConversationBlob(content: string) returns (r: Option<BlobParse>)
    ensures r == ConversationBlob(content)
  {
    if Blank(content) {
      return None;
    }
    var lines := SplitLines(content);
    var marked := HasAnyMarker(content);
    if !marked && |Filter(lines, RoughLabelLine)| < 2 {
      return None;
    }
    var historyLine, currentLine := FindMarkerLines(lines);
    assert ConversationBlob(content) == SectionsBlob(lines, marked, historyLine, currentLine);
    var start := if historyLine.Some? then historyLine.value + 1 else 0;
    var end := if currentLine.Some? then currentLine.value else |lines|;
    if end < start {
      return None;
    }
    var current := CurrentSection(lines, currentLine);
    var history := ParseHistory(Trim(Join(lines[start..end], "\n")), current);
    r := BlobResult(marked, SystemText(lines, historyLine, current), history, current);
  }

  // ---------------------------------------------------------------------------------------
  // `extractCurrentUserMessageFromBlob`.

  /** The fallback scan's state: the last speaker, the label memo and the text of the last user line. */
  datatype FallbackState = FallbackState(lastRole: Role, memo: Memo, fallbackUser: string)

  /** One line of the fallback scan, which infers roles with no current message to compare against. */
  function FallbackStep(st: FallbackState, line: string): (r: FallbackState)
    requires '\n' !in line
    ensures IsTrimmed(st.fallbackUser) ==> IsTrimmed(r.fallbackUser)
  {
    match MatchLabelLine(line)
    case None => st
    case Some(m) =>
      var (role, memo') := InferRole(m.rawLabel, m.rest, "", st.lastRole, st.memo);
      if role == Unknown then FallbackState(st.lastRole, memo', st.fallbackUser)
      else FallbackState(role, memo', if role == User then Trim(m.rest) else st.fallbackUser)
  }

  /** The fallback scan over `lines` from the empty state; what it keeps is always trimmed. */
  function FallbackScan(lines: seq<string>): (r: FallbackState)
    requires LinesOk(lines)
    ensures IsTrimmed(r.fallbackUser)
  {
    if lines == [] then FallbackState(Unknown, map[], "")
    else FallbackStep(FallbackScan(lines[..|lines| - 1]), lines[|lines| - 1])
  }

  /** `extractCurrentUserMessageFromBlob`: the text after the first current-message marker line, else the last user line. */
  function CurrentUserMessage(content: string): (r: string)
    ensures IsTrimmed(r)
  {
    if Blank(content) then ""
    else
      var lines := SplitLines(content);
      match FirstWhere(lines, IsCurrentMarkerLine, None, 0)
      case Some(i) => Trim(Join(lines[i + 1..], "\n"))
      case None => FallbackScan(lines).fallbackUser
  }

  lemma FallbackScanStep(lines: seq<string>, n: nat)
    requires LinesOk(lines) && n < |lines|
    ensures LinesOk(lines[..n]) && LinesOk(lines[..n + 1])
    ensures FallbackScan(lines[..n + 1]) == FallbackStep(FallbackScan(lines[..n]), lines[n])
  {
    assert lines[..n + 1][..n] == lines[..n];
  }

  /** The first loop of `extractCurrentUserMessageFromBlob`: the first current-message marker line. */
  method FindCurrentMarkerLine(lines: seq<string>) returns (found: Option<nat>)
    ensures found == FirstWhere(lines, IsCurrentMarkerLine, None, 0)
  {
    for i := 0 to |lines|
      invariant FirstWhere(lines[..i], IsCurrentMarkerLine, None, 0) == None
    {
      FirstWhereSnoc(lines, IsCurrentMarkerLine, None, i);
      if IsCurrentMarkerLine(lines[i]) {
        FirstWhereOfPrefix(lines, IsCurrentMarkerLine, None, i + 1);
        return Some(i);
      }
    }
    assert lines[..|lines|] == lines;
    return None;
  }

  /** The fallback loop of `extractCurrentUserMessageFromBlob`: the text of the last line read as the user's. */
  method ScanFallbackUser(lines: seq<string>) returns (fallbackUser: string)
    requires LinesOk(lines)
    ensures fallbackUser == FallbackScan(lines).fallbackUser
  {
    fallbackUser := "";
    var lastRole := Unknown;
    var memo: Memo := map[];
    for i := 0 to |lines|
      invariant FallbackState(lastRole, memo, fallbackUser) == FallbackScan(lines[..i])
    {
      FallbackScanStep(lines, i);
      var roleMatch := MatchLabelLine(lines[i]);
      if roleMatch.None? {
        continue;
      }
      var inferred := InferRole(roleMatch.value.rawLabel, roleMatch.value.rest, "", lastRole, memo);
      memo := inferred.1;
      if inferred.0 == Unknown {
        continue;
      }
      lastRole := inferred.0;
      if inferred.0 == User {
        fallbackUser := Trim(roleMatch.value.rest);
      }
    }
    assert lines[..|lines|] == lines;
  }

  /** `extractCurrentUserMessageFromBlob`: the marker loop, then the fallback loop. */
  method ExtractCurrentUserMessage(content: string) returns (r: string)
    ensures r == CurrentUserMessage(content)
  {
    if Blank(content) {
      return "";
    }
    var lines := SplitLines(content);
    var found := FindCurrentMarkerLine(lines);
    if found.Some? {
      r := Trim(Join(lines[found.value + 1..], "\n"));
    } else {
      r := ScanFallbackUser(lines);
    }
  }

  // ---------------------------------------------------------------------------------------
  // `sanitizeSerializedUserMessage`, `rebuildMessagesFromRisuBlob` and the tail of `normalizeMessageList`.

  /** A user message with content: what both backward scans look for. */
  predicate IsUserMessage(t: Turn) {
    t.role == User && t.content != ""
  }

  /** The backward scan for the last user message with content. */
  method FindLastUserMessage(messages: seq<Turn>) returns (index: Option<nat>)
    ensures index == LastWhere(messages, IsUserMessage, |messages|)
  {
    var i := |messages|;
    while i > 0
      invariant 0 <= i <= |messages|
      invariant forall j :: i <= j < |messages| ==> !IsUserMessage(messages[j])
    {
      i := i - 1;
      if messages[i].role == User && messages[i].content != "" {
        return Some(i);
      }
    }
    return None;
  }

  /**
   * `sanitizeSerializedUserMessage`: when the last user message looks like a serialised
   * transcript and a current user message can be extracted from it, its content becomes that
   * message; nothing else changes.
   */
  function SanitizedMessages(messages: seq<Turn>): (r: seq<Turn>)
    ensures |r| == |messages|
    ensures forall j :: 0 <= j < |r| ==> r[j].role == messages[j].role
    ensures forall j :: 0 <= j < |r| && r[j] != messages[j] ==>
      LastWhere(messages, IsUserMessage, |messages|) == Some(j) &&
      LooksLikeSerializedConversation(messages[j].content) &&
      r[j].content == CurrentUserMessage(messages[j].content) && r[j].content != ""
  {
    match LastWhere(messages, IsUserMessage, |messages|)
    case None => messages
    case Some(i) =>
      var raw := messages[i].content;
      if !LooksLikeSerializedConversation(raw) then messages
      else
        var extracted := CurrentUserMessage(raw);
        if extracted == "" then messages else messages[i := Turn(messages[i].role, extracted)]
  }

  /** `sanitizeSerializedUserMessage` as a method, with its backward scan. */
  method SanitizeSerializedUserMessage(messages: seq<Turn>) returns (r: seq<Turn>)
    ensures r == SanitizedMessages(messages)
  {
    var lastUserIndex := FindLastUserMessage(messages);
    if lastUserIndex.None? {
      return messages;
    }
    var i := lastUserIndex.value;
    var rawContent := messages[i].content;
    if !LooksLikeSerializedConversation(rawContent) {
      return messages;
    }
    var extracted := ExtractCurrentUserMessage(rawContent);
    if extracted == "" {
      return messages;
    }
    r := messages[i := Turn(messages[i].role, extracted)];
  }

  predicate IsSystemTurn(t: Turn) {
    t.role == System
  }

  function ContentOf(t: Turn): string {
    t.content
  }

  predicate NonEmpty(s: string) {
    s != ""
  }

  /** `existingSystemText`: the non-empty system contents joined by a blank line, trimmed. */
  function ExistingSystemText(messages: seq<Turn>): string {
    Trim(Join(Filter(Map(Filter(messages, IsSystemTurn), ContentOf), NonEmpty), "\n\n"))
  }

  /** `mergedSystemText`: the existing system text and the blob's preamble, the empty ones left out. */
  function MergedSystemText(existing: string, systemText: string): string {
    Trim(Join(Filter([existing, systemText], NonEmpty), "\n\n"))
  }

  /**
   * `rebuildMessagesFromRisuBlob`: `None` stands for returning the very list it was given.
   * A list whose last user message is a recognised blob becomes one merged system message
   * (when there is any system text) followed by the blob's turns.
   */
  function RebuiltMessages(messages: seq<Turn>): Option<seq<Turn>>
  {
    if messages == [] then Some([])
    else
      match LastWhere(messages, IsUserMessage, |messages|)
      case None => None
      case Some(i) =>
        match ConversationBlob(messages[i].content)
        case None => None
        case Some(parsed) => RebuildFrom(ExistingSystemText(messages), parsed)
  }

  /** The list rebuilt from the existing system text and a recognised blob. */
  function RebuildFrom(existing: string, parsed: BlobParse): Option<seq<Turn>> {
    var merged := MergedSystemText(existing, parsed.systemText);
    if parsed.turns == [] then None
    else Some((if merged != "" then [Turn(System, merged)] else []) + parsed.turns)
  }

  /** `rebuildMessagesFromRisuBlob` as a method, with its backward scan and the blob parser. */
  method RebuildMessages(messages: seq<Turn>) returns (r: Option<seq<Turn>>)
    ensures r == RebuiltMessages(messages)
  {
    if messages == [] {
      return Some([]);
    }
    var lastUserMessage := FindLastUserMessage(messages);
    if lastUserMessage.None? {
      return None;
    }
    var parsed := ParseConversationBlob(messages[lastUserMessage.value].content);
    if parsed.None? {
      return None;
    }
    r := RebuildFrom(ExistingSystemText(messages), parsed.value);
  }

  /** The messages `normalizeMessageList` keeps: a known role and non-empty (already normalised) content. */
  predicate Acceptable(t: Turn) {
    t.role != Unknown && t.content != ""
  }

  /** The tail of `normalizeMessageList`: filter, then rebuild from a blob, or else sanitise. */
  function NormalizedMessages(messages: seq<Turn>): seq<Turn> {
    var normalized := Filter(messages, Acceptable);
    match RebuiltMessages(normalized)
    case Some(rebuilt) => rebuilt
    case None => SanitizedMessages(normalized)
  }

  // ---------------------------------------------------------------------------------------
  // What the reconstructor guarantees.

  /** What the end of the parser returns, given a history of dialogue turns and a trimmed system text. */
  lemma BlobResultShape(marked: bool, systemText: string, history: seq<Turn>, current: string)
    requires IsTrimmed(systemText)
    requires forall j :: 0 <= j < |history| ==> IsDialogue(history[j])
    ensures var r := BlobResult(marked, systemText, history, current);
      r.Some? ==> (r.value.turns != [] && r.value.systemText == systemText &&
        forall j :: 0 <= j < |r.value.turns| ==> IsDialogue(r.value.turns[j]))
    ensures var r := BlobResult(marked, systemText, history, current);
      r.Some? && current != "" ==> Last(r.value.turns) == Turn(User, current)
    ensures var r := BlobResult(marked, systemText, history, current);
      r.Some? && !marked ==> HasRole(r.value.turns, User) && HasRole(r.value.turns, Assistant)
    ensures current != "" ==> BlobResult(marked, systemText, history, current).Some? || !marked
  {
  }

  lemma SectionsBlobShape(lines: seq<string>, marked: bool, h: Option<nat>, c: Option<nat>)
    requires h.Some? ==> h.value < |lines|
    requires c.Some? ==> c.value < |lines|
    ensures var r := SectionsBlob(lines, marked, h, c);
      r.Some? ==> (r.value.turns != [] && IsTrimmed(r.value.systemText) &&
        forall j :: 0 <= j < |r.value.turns| ==> IsDialogue(r.value.turns[j]))
    ensures var r := SectionsBlob(lines, marked, h, c);
      r.Some? && CurrentSection(lines, c) != "" ==> Last(r.value.turns) == Turn(User, CurrentSection(lines, c))
  {
    var start := if h.Some? then h.value + 1 else 0;
    var end := if c.Some? then c.value else |lines|;
    if start <= end {
      var current := CurrentSection(lines, c);
      var section := Trim(Join(lines[start..end], "\n"));
      ParseHistoryTurnsSpeakers(section, current);
      BlobResultShape(marked, SystemText(lines, h, current), ParseHistoryTurns(section, current), current);
    }
  }

  /**
   * A recognised blob has at least one turn, every turn a user or assistant turn with
   * content, and a trimmed system text; blank content is never a blob.
   */
  lemma BlobShape(content: string)
    ensures Blank(content) ==> ConversationBlob(content).None?
    ensures var r := ConversationBlob(content);
      r.Some? ==> (r.value.turns != [] && IsTrimmed(r.value.systemText) &&
        forall j :: 0 <= j < |r.value.turns| ==> IsDialogue(r.value.turns[j]))
  {
    var lines := SplitLines(content);
    SectionsBlobShape(lines, HasAnyMarker(content), HistoryMarkerLine(lines), CurrentMarkerLine(lines));
  }

  /** When the current-message section is not empty, the blob's last turn is that message, from the user. */
  lemma BlobEndsWithCurrent(content: string)
    ensures var r := ConversationBlob(content);
      r.Some? && BlobCurrent(content) != "" ==> Last(r.value.turns) == Turn(User, BlobCurrent(content))
  {
    var lines := SplitLines(content);
    SectionsBlobShape(lines, HasAnyMarker(content), HistoryMarkerLine(lines), CurrentMarkerLine(lines));
  }

  /**
   * Without any marker, content is a blob only if at least two of its lines look like label
   * lines and its turns include both a user turn and an assistant turn.
   */
  lemma UnmarkedBlob(content: string)
    requires !HasAnyMarker(content)
    ensures var r := ConversationBlob(content);
      r.Some? ==> (|Filter(SplitLines(content), RoughLabelLine)| >= 2 &&
        HasRole(r.value.turns, User) && HasRole(r.value.turns, Assistant))
  {
  }

  /** Merging two trimmed texts: either one alone, or both separated by a blank line. */
  lemma MergedSystemTextShape(existing: string, systemText: string)
    requires IsTrimmed(existing) && IsTrimmed(systemText)
    ensures MergedSystemText(existing, systemText) ==
      if existing == "" then systemText
      else if systemText == "" then existing
      else existing + "\n\n" + systemText
  {
    var parts := Filter([existing, systemText], NonEmpty);
    assert [existing, systemText][1..] == [systemText];
    if existing == "" {
      assert parts == Filter([systemText], NonEmpty);
      if systemText != "" {
        TrimOfTrimmed(systemText);
      }
    } else if systemText == "" {
      assert parts == [existing];
      TrimOfTrimmed(existing);
    } else {
      assert parts == [existing, systemText];
      var joined := existing + "\n\n" + systemText;
      assert Join(parts, "\n\n") == joined;
      assert joined[0] == existing[0];
      assert joined[|joined| - 1] == systemText[|systemText| - 1];
      TrimOfTrimmed(joined);
    }
  }

  /** `existingSystemText` is trimmed. */
  lemma ExistingSystemTextTrimmed(messages: seq<Turn>)
    ensures IsTrimmed(ExistingSystemText(messages))
  {
  }

  /**
   * A list rebuilt from a blob with dialogue turns is the merged system text as one leading
   * system message, present exactly when that text is not empty, followed by the blob's turns.
   */
  lemma RebuildFromShape(existing: string, parsed: BlobParse)
    requires parsed.turns != []
    requires forall j :: 0 <= j < |parsed.turns| ==> IsDialogue(parsed.turns[j])
    ensures RebuildFrom(existing, parsed).Some?
    ensures var merged := MergedSystemText(existing, parsed.systemText);
      var r := RebuildFrom(existing, parsed).value;
      r != [] && Last(r) == Last(parsed.turns) &&
      (r[0].role == System <==> merged != "") &&
      (merged != "" ==> r == [Turn(System, merged)] + parsed.turns) &&
      (merged == "" ==> r == parsed.turns) &&
      (forall j :: 0 < j < |r| ==> r[j].role != System) &&
      (forall j :: 0 <= j < |r| ==> (r[j].role == System && r[j].content != "") || IsDialogue(r[j]))
  {
  }

  /**
   * A list rebuilt from a non-empty input is never empty, holds a system message at most at
   * its head, then only dialogue turns, and ends with the blob's current user message.
   */
  lemma RebuiltShape(messages: seq<Turn>)
    requires messages != [] && RebuiltMessages(messages).Some?
    ensures var r := RebuiltMessages(messages).value;
      var i := LastWhere(messages, IsUserMessage, |messages|).value;
      r != [] &&
      (forall j :: 0 < j < |r| ==> r[j].role != System) &&
      (forall j :: 0 <= j < |r| ==> (r[j].role == System && r[j].content != "") || IsDialogue(r[j])) &&
      (BlobCurrent(messages[i].content) != "" ==> Last(r) == Turn(User, BlobCurrent(messages[i].content)))
  {
    var i := LastWhere(messages, IsUserMessage, |messages|).value;
    var content := messages[i].content;
    BlobShape(content);
    BlobEndsWithCurrent(content);
    RebuildFromShape(ExistingSystemText(messages), ConversationBlob(content).value);
  }

  /** Sanitising keeps every message's role and never empties a content. */
  lemma SanitizedAcceptable(messages: seq<Turn>)
    requires forall j :: 0 <= j < |messages| ==> Acceptable(messages[j])
    ensures forall j :: 0 <= j < |SanitizedMessages(messages)| ==> Acceptable(SanitizedMessages(messages)[j])
  {
    var r := SanitizedMessages(messages);
    forall j | 0 <= j < |r| ensures Acceptable(r[j]) {
      if r[j] != messages[j] {
        assert r[j].content != "";
      }
    }
  }

  /** A rebuilt list holds only messages with a known role and content. */
  lemma RebuiltAcceptable(messages: seq<Turn>)
    requires RebuiltMessages(messages).Some?
    ensures forall j :: 0 <= j < |RebuiltMessages(messages).value| ==> Acceptable(RebuiltMessages(messages).value[j])
  {
    if messages != [] {
      RebuiltShape(messages);
    }
  }

  /** Whatever `normalizeMessageList` returns holds only messages with a known role and content. */
  lemma NormalizedMessagesAcceptable(messages: seq<Turn>)
    ensures forall j :: 0 <= j < |NormalizedMessages(messages)| ==> Acceptable(NormalizedMessages(messages)[j])
  {
    var normalized := Filter(messages, Acceptable);
    var r := NormalizedMessages(messages);
    if RebuiltMessages(normalized).Some? {
      RebuiltAcceptable(normalized);
      assert r == RebuiltMessages(normalized).value;
    } else {
      SanitizedAcceptable(normalized);
      assert r == SanitizedMessages(normalized);
    }
  }

  // ---------------------------------------------------------------------------------------
  // A transcript written in the shape the reconstructor expects is read back exactly.

  /** A heading whose lower-cased text is `phrase` followed by a colon normalizes to `phrase`. */
  lemma NormalizeHeading(line: string, phrase: string)
    requires Trim(line) == line && Lower(line) == phrase + ":"
    requires CollapseSpaces(phrase + ":") == phrase + ":"
    requires StripTrailingSeparator(phrase + ":") == phrase
    ensures NormalizeMarkerLabel(line) == phrase
  {
  }

  lemma HistoryHeadingTrimmed()
    ensures Trim("Conversation history:") == "Conversation history:"
  {
    TrimOfTrimmed("Conversation history:");
  }

  lemma HistoryHeadingLower()
    ensures Lower("Conversation history:") == "conversation history" + ":"
  {
  }

  lemma HistoryHeadingCollapse()
    ensures CollapseSpaces("conversation history" + ":") == "conversation history" + ":"
  {
    assert "conversation history" + ":" == "conversation" + (" " + "history:");
    CollapseTwoWords("conversation", "history:");
  }

  lemma HistoryHeadingStrip()
    ensures StripTrailingSeparator("conversation history" + ":") == "conversation history"
  {
  }

  lemma HistoryHeading()
    ensures NormalizeMarkerLabel("Conversation history:") == "conversation history"
    ensures IsHistoryMarkerLine("Conversation history:")
  {
    HistoryHeadingTrimmed();
    HistoryHeadingLower();
    HistoryHeadingCollapse();
    HistoryHeadingStrip();
    NormalizeHeading("Conversation history:", "conversation history");
    assert LabelIs("conversation history", HISTORY_LABELS[0]);
  }

  lemma CurrentHeadingTrimmed()
    ensures Trim("Current user message:") == "Current user message:"
  {
    TrimOfTrimmed("Current user message:");
  }

  lemma CurrentHeadingLower()
    ensures Lower("Current user message:") == "current user message" + ":"
  {
  }

  lemma CurrentHeadingCollapse()
    ensures CollapseSpaces("current user message" + ":") == "current user message" + ":"
  {
    assert "current user message" + ":" == "current" + (" " + ("user" + (" " + "message:")));
    CollapseOneSpace("current", "user" + (" " + "message:"));
    CollapseTwoWords("user", "message:");
  }

  lemma CurrentHeadingStrip()
    ensures StripTrailingSeparator("current user message" + ":") == "current user message"
  {
  }

  lemma CurrentHeading()
    ensures NormalizeMarkerLabel("Current user message:") == "current user message"
    ensures IsCurrentMarkerLine("Current user message:")
  {
    CurrentHeadingTrimmed();
    CurrentHeadingLower();
    CurrentHeadingCollapse();
    CurrentHeadingStrip();
    NormalizeHeading("Current user message:", "current user message");
    assert LabelIs("current user message", CURRENT_LABELS[0]);
  }

  /** A written history line is already trimmed. */
  lemma WrittenLineTrimmed(t: Turn)
    requires Writable(t)
    ensures IsTrimmed(Memory.HistoryLine(t)) && Trim(Memory.HistoryLine(t)) == Memory.HistoryLine(t)
  {
    var name := SpeakerName(t.role);
    SpeakerNameFacts(t);
    var line := Memory.HistoryLine(t);
    assert line[0] == name[0] && line[|line| - 1] == t.content[|t.content| - 1];
    TrimOfTrimmed(line);
  }

  /** A written history line lower-cases to the speaker, a colon, a space and the text. */
  lemma WrittenLineLower(t: Turn)
    requires Writable(t)
    ensures Lower(Memory.HistoryLine(t)) == (Lower(SpeakerName(t.role)) + ":") + (" " + Lower(t.content))
  {
    var name := SpeakerName(t.role);
    SpeakerNameFacts(t);
    assert Memory.HistoryLine(t) == (name + ":") + (" " + t.content);
    LowerConcat(name + ":", " " + t.content);
    LowerConcat(name, ":");
    LowerConcat(" ", t.content);
  }

  /** The lower-cased speaker with its colon. */
  lemma SpeakerPrefix(role: Role)
    requires role == User || role == Assistant
    ensures var p := Lower(SpeakerName(role)) + ":";
      p == (if role == User then "user:" else "assistant:") && p != [] &&
      forall i :: 0 <= i < |p| ==> !IsSpace(p[i])
  {
    LowerUser();
    LowerAssistant();
  }

  /** A written history line normalizes, as a marker candidate, to something that starts with "user:" or "assistant:". */
  lemma WrittenLineMarkerLabel(t: Turn)
    requires Writable(t)
    ensures StartsWith(NormalizeMarkerLabel(Memory.HistoryLine(t)), if t.role == User then "user:" else "assistant:")
  {
    WrittenLineTrimmed(t);
    WrittenLineLower(t);
    SpeakerPrefix(t.role);
    LowerKeepsSpace(t.content[0]);
    CollapseStripKeepsPrefix(Lower(SpeakerName(t.role)) + ":", Lower(t.content));
  }

  /** Every current-message heading is longer than a speaker's "user:" and starts neither with "user:" nor with "a". */
  lemma CurrentLabelHeads()
    ensures forall i :: 0 <= i < |CURRENT_LABELS| ==>
      |CURRENT_LABELS[i]| > 4 && CURRENT_LABELS[i][0] != 'a' &&
      (CURRENT_LABELS[i][0] == 'u' ==> CURRENT_LABELS[i][4] != ':')
  {
  }

  /** No current-message heading is, or opens, a text that starts with a speaker and a colon. */
  lemma NotCurrentLabel(n: string)
    requires StartsWith(n, "user:") || StartsWith(n, "assistant:")
    ensures !MatchesLabelList(n, CURRENT_LABELS)
  {
    if StartsWith(n, "user:") {
      assert n[0] == "user:"[0] && n[4] == "user:"[4];
    } else {
      assert n[0] == "assistant:"[0];
    }
    CurrentLabelHeads();
    assert forall i :: 0 <= i < |CURRENT_LABELS| ==> !LabelIs(n, CURRENT_LABELS[i]);
  }

  /** A written history line is never taken for the current-message heading. */
  lemma WrittenLineNotCurrentMarker(t: Turn)
    requires Writable(t)
    ensures !IsCurrentMarkerLine(Memory.HistoryLine(t))
  {
    WrittenLineMarkerLabel(t);
    NotCurrentLabel(NormalizeMarkerLabel(Memory.HistoryLine(t)));
  }

  /** The lines of a blob that carries `ts` as its history and `current` as the new user message. */
  function TranscriptLines(ts: seq<Turn>, current: string): (lines: seq<string>)
    ensures |lines| == |ts| + 3
  {
    ["Conversation history:"] + Map(ts, Memory.HistoryLine) + ["Current user message:", current]
  }

  lemma TranscriptLinesAt(ts: seq<Turn>, current: string)
    ensures var lines := TranscriptLines(ts, current);
      lines[0] == "Conversation history:" && lines[|ts| + 1] == "Current user message:" &&
      lines[|ts| + 2] == current && lines[1..|ts| + 1] == Map(ts, Memory.HistoryLine) &&
      lines[|ts| + 2..] == [current] &&
      forall k :: 1 <= k <= |ts| ==> lines[k] == Memory.HistoryLine(ts[k - 1])
  {
  }

  /** The history heading is found on the first line. */
  lemma TranscriptHistoryMarker(ts: seq<Turn>, current: string)
    ensures HistoryMarkerLine(TranscriptLines(ts, current)) == Some(0)
  {
    TranscriptLinesAt(ts, current);
    HistoryHeading();
  }

  /** No written history line of a transcript is taken for the current-message heading. */
  lemma TranscriptHistoryUnmarked(ts: seq<Turn>, current: string)
    requires forall i :: 0 <= i < |ts| ==> Writable(ts[i])
    ensures forall k :: 0 <= k < |ts| + 1 && Some(k) != Some(0) ==> !IsCurrentMarkerLine(TranscriptLines(ts, current)[k])
  {
    var lines := TranscriptLines(ts, current);
    TranscriptLinesAt(ts, current);
    forall k | 0 <= k < |ts| + 1 && Some(k) != Some(0) ensures !IsCurrentMarkerLine(lines[k]) {
      WrittenLineNotCurrentMarker(ts[k - 1]);
    }
  }

  /** The current-message heading is found right after the history. */
  lemma TranscriptCurrentMarker(ts: seq<Turn>, current: string)
    requires forall i :: 0 <= i < |ts| ==> Writable(ts[i])
    ensures CurrentMarkerLine(TranscriptLines(ts, current)) == Some(|ts| + 1)
  {
    TranscriptLinesAt(ts, current);
    TranscriptHistoryMarker(ts, current);
    CurrentHeading();
    TranscriptHistoryUnmarked(ts, current);
    FirstWhereIs(TranscriptLines(ts, current), IsCurrentMarkerLine, Some(0), |ts| + 1);
  }

  lemma HeadingsClean()
    ensures NoLineTerminator("Conversation history:") && NoLineTerminator("Current user message:")
  {
  }

  /** Every line of a transcript is free of line breaks, so splitting the joined text gives the lines back. */
  lemma TranscriptSplit(ts: seq<Turn>, current: string)
    requires forall i :: 0 <= i < |ts| ==> Writable(ts[i])
    requires NoLineTerminator(current)
    ensures SplitLines(Join(TranscriptLines(ts, current), "\n")) == TranscriptLines(ts, current)
  {
    var lines := TranscriptLines(ts, current);
    TranscriptLinesAt(ts, current);
    HeadingsClean();
    forall i | 0 <= i < |lines| ensures NoLineTerminator(lines[i]) {
      if 1 <= i <= |ts| {
        HistoryLineClean(ts[i - 1]);
      }
    }
    SplitLinesJoin(lines);
  }

  lemma HistoryPhraseLower()
    ensures Lower("Conversation history") == "conversation history"
  {
  }

  /** A text that opens with the history heading matches the first history marker regex at its very start. */
  lemma HeadingMarker(s: string)
    requires StartsWith(s, "Conversation history:")
    ensures MarkerAt(s, HISTORY_LABELS[0], 0)
  {
    assert s[0..20] == "Conversation history";
    HistoryPhraseLower();
    assert s[20] == ':';
    assert SpaceRunFrom(s, 20) == 20;
    assert AllSpace(s[0..0]);
  }

  /** The joined transcript is not blank and carries a marker. */
  lemma TranscriptMarked(ts: seq<Turn>, current: string)
    ensures !Blank(Join(TranscriptLines(ts, current), "\n"))
    ensures HasAnyMarker(Join(TranscriptLines(ts, current), "\n"))
  {
    var content := Join(TranscriptLines(ts, current), "\n");
    TranscriptLinesAt(ts, current);
    JoinStartsWithFirst(TranscriptLines(ts, current), "\n");
    NonBlankPrefix("Conversation history:", content);
    HeadingMarker(content);
  }

  /** The current-message section of a transcript is the message itself, and nothing precedes the history. */
  lemma TranscriptCurrentSection(ts: seq<Turn>, current: string)
    requires IsTrimmed(current)
    ensures CurrentSection(TranscriptLines(ts, current), Some(|ts| + 1)) == current
    ensures SystemText(TranscriptLines(ts, current), Some(0), current) == ""
  {
    TranscriptLinesAt(ts, current);
    TrimOfTrimmed(current);
  }

  /** The history section of a transcript parses back to its turns. */
  lemma TranscriptHistorySection(ts: seq<Turn>, current: string)
    requires ts != [] && forall i :: 0 <= i < |ts| ==> Writable(ts[i])
    ensures ParseHistoryTurns(Trim(Join(TranscriptLines(ts, current)[1..|ts| + 1], "\n")), current) == ts
  {
    var lines := Map(ts, Memory.HistoryLine);
    TranscriptLinesAt(ts, current);
    HistoryLineClean(ts[0]);
    WrittenLineTrimmed(ts[|ts| - 1]);
    JoinTrimmed(lines, "\n");
    TrimOfTrimmed(Join(lines, "\n"));
    HistoryRoundTrip(ts, current);
  }

  /**
   * The round trip: a history of written turns between the history heading and the
   * current-message heading, followed by the message, is read back as those turns with
   * the message as the last user turn, and no instructions.
   */
  lemma BlobRoundTrip(ts: seq<Turn>, current: string)
    requires ts != [] && forall i :: 0 <= i < |ts| ==> Writable(ts[i])
    requires IsTrimmed(current) && NoLineTerminator(current)
    ensures ConversationBlob(Join(TranscriptLines(ts, current), "\n")) == Some(BlobParse("", WithCurrent(ts, current)))
  {
    var lines := TranscriptLines(ts, current);
    var content := Join(lines, "\n");
    TranscriptMarked(ts, current);
    TranscriptSplit(ts, current);
    TranscriptHistoryMarker(ts, current);
    TranscriptCurrentMarker(ts, current);
    assert ConversationBlob(content) == SectionsBlob(lines, true, Some(0), Some(|ts| + 1));
    TranscriptCurrentSection(ts, current);
    TranscriptHistorySection(ts, current);
  }
}
