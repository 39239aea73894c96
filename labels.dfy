/**
 * How the blob reconstructor reads one "label: content" line: the label-line regular
 * expression `^\s*(?:[-*]\s*)?([^:\n]{1,64})\s*:\s*(.*)$`, the label normalizers, the
 * role vocabularies and the per-label role inference with its memo.
 */
module Labels {
  import opened Wrappers
  import opened Text
  import opened Turns

  /** The longest label the regex accepts. */
  const MAX_LABEL: nat := 64

  /** The two captured groups of a matching line: the raw label and the text after the colon. */
  datatype LabelMatch = LabelMatch(rawLabel: string, rest: string)

  /** The position of the first `c` at or after `i`. */
  function IndexFrom(s: string, c: char, i: nat): (r: Option<nat>)
    requires i <= |s|
    ensures r.Some? ==> i <= r.value < |s| && s[r.value] == c && forall k :: i <= k < r.value ==> s[k] != c
    ensures r.None? ==> forall k :: i <= k < |s| ==> s[k] != c
    decreases |s| - i
  {
    if i == |s| then None else if s[i] == c then Some(i) else IndexFrom(s, c, i + 1)
  }

  predicate IsBullet(c: char) {
    c == '-' || c == '*'
  }

  /** `([^:\n]{1,64})\s*` over a colon-free run that starts with a non-space: greedy, then the rest must be whitespace. */
  function LabelOfRun(run: string): (r: Option<string>)
    requires run != []
    ensures r.Some? ==> 1 <= |r.value| <= MAX_LABEL && |r.value| <= |run| && r.value == run[..|r.value|] && AllSpace(run[|r.value|..])
  {
    if |run| <= MAX_LABEL then Some(run)
    else if AllSpace(run[MAX_LABEL..]) then Some(run[..MAX_LABEL])
    else None
  }

  /**
   * The label group of the regex over `head`, the text before the first colon, with the
   * backtracking cases written out: after the leading whitespace and an optional bullet with
   * its whitespace, the label is the rest; when nothing is left, the regex gives back one
   * character (the last whitespace character, or the bullet itself).
   */
  function LabelOfHead(head: string): (r: Option<string>)
    ensures r.Some? ==> 1 <= |r.value| <= MAX_LABEL
  {
    var i0 := SpaceRunFrom(head, 0);
    if i0 < |head| && IsBullet(head[i0]) then
      var k := SpaceRunFrom(head, i0 + 1);
      if k < |head| then LabelOfRun(head[k..])
      else if k > i0 + 1 then Some([head[k - 1]])
      else Some([head[i0]])
    else if i0 < |head| then LabelOfRun(head[i0..])
    else if i0 > 0 then Some([head[i0 - 1]])
    else None
  }

  /**
   * The label-line regex over one line (lines come from splitting on `\r?\n`, so they hold
   * no "\n"): the label is taken from before the first colon, and the second group is what
   * follows the colon with its leading whitespace dropped, which must hold no line terminator.
   */
  function MatchLabelLine(line: string): (r: Option<LabelMatch>)
    requires '\n' !in line
    ensures r.Some? ==>
      exists c :: 0 <= c < |line| && line[c] == ':' && ':' !in line[..c] && r.value.rest == TrimStart(line[c + 1..])
    ensures r.Some? ==> 1 <= |r.value.rawLabel| <= MAX_LABEL && ':' !in r.value.rawLabel && '\n' !in r.value.rawLabel
    ensures r.Some? ==> NoLineTerminator(r.value.rest)
    ensures ':' !in line ==> r.None?
  {
    match IndexFrom(line, ':', 0)
    case None => None
    case Some(c) =>
      var head := line[..c];
      var rest := TrimStart(line[c + 1..]);
      assert forall k :: 0 <= k < c ==> head[k] == line[k];
      assert ':' !in head && '\n' !in head;
      if !NoLineTerminator(rest) then None
      else
        match LabelOfHead(head)
        case None => None
        case Some(name) =>
          LabelInHead(head, name);
          Some(LabelMatch(name, rest))
  }

  /** Every character of the label comes from the text before the colon. */
  lemma LabelInHead(head: string, name: string)
    requires LabelOfHead(head) == Some(name)
    ensures forall x :: x in name ==> x in head
  {
    var i0 := SpaceRunFrom(head, 0);
    if i0 < |head| && IsBullet(head[i0]) {
      var k := SpaceRunFrom(head, i0 + 1);
      if k < |head| {
        assert forall x :: x in head[k..] ==> x in head;
      }
    } else if i0 < |head| {
      assert forall x :: x in head[i0..] ==> x in head;
    }
  }

  /**
   * A line written as `<label>: <content>` is read back as that label and content, for a
   * label of 1 to 64 characters that does not start with whitespace or a bullet and holds no
   * colon, and a content without line terminators that does not start with whitespace.
   */
  lemma MatchLabelLineWritten(name: string, content: string)
    requires 1 <= |name| <= MAX_LABEL && ':' !in name && '\n' !in name
    requires !IsSpace(name[0]) && !IsBullet(name[0])
    requires NoLineTerminator(content) && (content == [] || !IsSpace(content[0]))
    ensures '\n' !in name + ": " + content
    ensures MatchLabelLine(name + ": " + content) == Some(LabelMatch(name, content))
  {
    var line := name + ": " + content;
    assert forall k :: 0 <= k < |content| ==> content[k] != '\n';
    assert forall k :: 0 <= k < |line| ==> line[k] != '\n' by {
      forall k | 0 <= k < |line| ensures line[k] != '\n' {
        if k < |name| { assert line[k] == name[k]; }
        else if k >= |name| + 2 { assert line[k] == content[k - |name| - 2]; }
      }
    }
    var c := |name|;
    assert forall k :: 0 <= k < c ==> line[k] != ':' by {
      forall k | 0 <= k < c ensures line[k] != ':' {
        assert line[k] == name[k];
      }
    }
    assert line[c] == ':';
    assert IndexFrom(line, ':', 0) == Some(c) by {
      IndexFromFinds(line, ':', 0, c);
    }
    assert line[..c] == name;
    var after := line[c + 1..];
    assert after == " " + content;
    assert SpaceRunFrom(after, 0) == 1 by {
      assert after[0] == ' ';
      assert content != [] ==> after[1] == content[0];
    }
    assert TrimStart(after) == content;
    assert SpaceRunFrom(name, 0) == 0;
    assert name[0..] == name;
  }

  lemma {:induction false} IndexFromFinds(s: string, c: char, i: nat, j: nat)
    requires i <= j < |s| && s[j] == c
    requires forall k :: i <= k < j ==> s[k] != c
    ensures IndexFrom(s, c, i) == Some(j)
    decreases j - i
  {
    if i < j {
      IndexFromFinds(s, c, i + 1, j);
    }
  }

  /**
   * `.replace(/\s*[:\-]\s*$/, "")`: drops one trailing ":" or "-" together with the
   * whitespace around it.
   */
  function StripTrailingSeparator(s: string): (r: string)
    ensures |r| <= |s|
  {
    var t := TrimEnd(s);
    if t != [] && (t[|t| - 1] == ':' || t[|t| - 1] == '-') then TrimEnd(t[..|t| - 1]) else s
  }

  /**
   * Dropping a trailing separator never reaches into a prefix that ends in a non-space when
   * something other than whitespace follows that prefix.
   */
  lemma StripTrailingSeparatorKeepsPrefix(p: string, z: string, k: nat)
    requires p != [] && !IsSpace(p[|p| - 1])
    requires k < |z| && !IsSpace(z[k])
    ensures StartsWith(StripTrailingSeparator(p + z), p)
  {
    var s := p + z;
    var t := TrimEnd(s);
    assert !IsSpace(s[|p| + k]);
    assert TrailingSpaceStart(s) > |p| + k;
    assert t[..|p|] == p;
    if t != [] && (t[|t| - 1] == ':' || t[|t| - 1] == '-') {
      var u := t[..|t| - 1];
      assert u[..|p|] == p;
      assert !IsSpace(u[|p| - 1]);
      assert TrailingSpaceStart(u) >= |p|;
      assert TrimEnd(u)[..|p|] == p;
    }
  }

  /** A whitespace-free prefix followed by one space and a word keeps that prefix through collapsing and separator stripping. */
  lemma CollapseStripKeepsPrefix(p: string, b: string)
    requires p != [] && forall i :: 0 <= i < |p| ==> !IsSpace(p[i])
    requires b != [] && !IsSpace(b[0])
    ensures StartsWith(StripTrailingSeparator(CollapseSpaces(p + (" " + b))), p)
  {
    CollapseOneSpace(p, b);
    var z := " " + CollapseSpaces(b);
    assert CollapseSpaces(b)[0] == b[0];
    assert z[1] == b[0];
    StripTrailingSeparatorKeepsPrefix(p, z, 1);
  }

  /** `normalizeMarkerLabel`: trimmed, lower-cased, whitespace runs collapsed, one trailing separator dropped. */
  function NormalizeMarkerLabel(value: string): string {
    StripTrailingSeparator(CollapseSpaces(Lower(Trim(value))))
  }

  predicate IsOpener(c: char) {
    c == '\'' || c == '"' || c == '`' || c == '(' || c == '[' || c == '{' || c == '<' || IsSpace(c)
  }

  predicate IsCloser(c: char) {
    c == '\'' || c == '"' || c == '`' || c == ')' || c == ']' || c == '}' || c == '>'
  }

  /** The end of the run of opening quotes, brackets and whitespace at the start of `s`. */
  function OpenerRun(s: string, i: nat): (j: nat)
    requires i <= |s|
    ensures i <= j <= |s|
    decreases |s| - i
  {
    if i < |s| && IsOpener(s[i]) then OpenerRun(s, i + 1) else i
  }

  /** The start of the run of closing quotes and brackets that ends at `j`. */
  function CloserRun(s: string, j: nat): (i: nat)
    requires j <= |s|
    ensures i <= j
    ensures forall k :: i <= k < j ==> IsCloser(s[k])
  {
    if j > 0 && IsCloser(s[j - 1]) then CloserRun(s, j - 1) else j
  }

  /**
   * `normalizeRoleLabel`: the marker-normalized label with its leading run of quotes,
   * brackets and spaces and its trailing run of closing quotes and brackets removed (the
   * two alternatives of one global replace, so the trailing run never reaches back into
   * the leading one).
   */
  function NormalizeRoleLabel(raw: string): (r: string)
  {
    var n := NormalizeMarkerLabel(raw);
    var a := OpenerRun(n, 0);
    var e := CloserRun(n, |n|);
    if e <= a then [] else n[a..e]
  }

  const ASSISTANT_HINTS: seq<string> :=
    ["assistant", "ассистент", "ai", "bot", "бот", "ии", "character", "персонаж", "model", "модель"]
  const USER_HINTS: seq<string> :=
    ["user", "пользователь", "юзер", "human", "человек", "me", "я", "client", "клиент", "you", "xleb"]

  /** The labels `isSystemLikeLabel` treats as headings, not speakers. */
  const SYSTEM_LABELS: seq<string> := [
    "system", "system rule", "system_rule", "proxy policy", "configuration", "config",
    "roleplay_rule", "roleplay info", "client system prompt", "conversation history",
    "chat history", "history", "current user message", "current user input",
    "current message", "user message", "система", "системное правило", "история чата",
    "история диалога", "история", "текущее сообщение", "текущее сообщение пользователя",
    "сообщение пользователя"
  ]

  /** `normalizeRoleToken`: the speaker a label names outright, `Unknown` for none. */
  function NormalizeRoleToken(raw: string): (r: Role)
    ensures r == User || r == Assistant || r == Unknown
  {
    var role := NormalizeRoleLabel(raw);
    if role == "" then Unknown
    else if role in ASSISTANT_HINTS then Assistant
    else if role in USER_HINTS then User
    else Unknown
  }

  /** `s === l || s.startsWith(l + " ")`: `s` is the label `l` or starts with it as a word. */
  predicate LabelIs(s: string, l: string) {
    s == l || StartsWith(s, l + " ")
  }

  /** `labels.some((l) => s === l || s.startsWith(l + " "))`. */
  predicate MatchesLabelList(s: string, labels: seq<string>) {
    exists i :: 0 <= i < |labels| && LabelIs(s, labels[i])
  }

  /** `isSystemLikeLabel`: the normalized label is, or starts with, one of the heading labels. */
  predicate IsSystemLikeLabel(raw: string) {
    var name := NormalizeRoleLabel(raw);
    name != "" && MatchesLabelList(name, SYSTEM_LABELS)
  }

  /** `matchesMarkerLabel`: the marker-normalized line is, or starts with, one of `labels`. */
  predicate MatchesMarkerLabel(value: string, labels: seq<string>) {
    var normalized := NormalizeMarkerLabel(value);
    normalized != "" && MatchesLabelList(normalized, labels)
  }

  /** `labelRoleMap`: the role each normalized label was first resolved to. */
  type Memo = map<string, Role>

  /** The memo only ever holds speakers. */
  predicate MemoOk(memo: Memo) {
    forall k :: k in memo ==> memo[k] == User || memo[k] == Assistant
  }

  /** Whether a history line repeats the current user message (both trimmed, neither empty). */
  predicate RepeatsCurrent(content: string, currentUserMessage: string)
  {
    var normalizedContent := Trim(content);
    var normalizedCurrent := Trim(currentUserMessage);
    normalizedCurrent != "" && normalizedContent != "" && normalizedContent == normalizedCurrent
  }

  /**
   * The role decision for an already normalised label `name`, given the speaker it names
   * outright (`explicit`) and whether it is a heading (`systemLike`); returns the role and
   * the updated memo.
   */
  function ResolveRole(name: string, explicit: Role, systemLike: bool, repeatsCurrent: bool, lastRole: Role, memo: Memo): (r: (Role, Memo))
  {
    if name == "" then (Unknown, memo)
    else
      if explicit != Unknown then (explicit, memo[name := explicit])
      else if name in memo && memo[name] != Unknown then (memo[name], memo)
      else if systemLike then (Unknown, memo)
      else
        var role :=
          if repeatsCurrent then User
          else if lastRole == User then Assistant
          else User;
        (role, memo[name := role])
  }

  /**
   * `inferRoleFromLabel`: an explicit speaker token, else the memoised role, else nothing for
   * a heading, else user when the content is the current user message, else the speaker
   * alternating with `lastRole` (user when there is none). Every resolution is memoised.
   * `lastRole` is `Unknown` for the JavaScript "".
   */
  function InferRole(rawRole: string, content: string, currentUserMessage: string, lastRole: Role, memo: Memo): (r: (Role, Memo))
  {
    var name := NormalizeRoleLabel(rawRole);
    ResolveRole(name, NormalizeRoleToken(name), IsSystemLikeLabel(name), RepeatsCurrent(content, currentUserMessage), lastRole, memo)
  }

  /**
   * The inferred role is a speaker or nothing; nothing only for an empty label or a heading
   * not yet memoised.
   */
  lemma InferRoleResult(rawRole: string, content: string, current: string, lastRole: Role, memo: Memo)
    requires MemoOk(memo)
    ensures var role := InferRole(rawRole, content, current, lastRole, memo).0;
      var name := NormalizeRoleLabel(rawRole);
      (role == User || role == Assistant || role == Unknown) &&
      (role == Unknown <==> name == "" || (NormalizeRoleToken(name) == Unknown && name !in memo && IsSystemLikeLabel(name)))
  {
  }

  /** The memo stays well-formed, and a resolved label is memoised with its role. */
  lemma ResolveRoleMemo(name: string, explicit: Role, systemLike: bool, repeatsCurrent: bool, lastRole: Role, memo: Memo)
    requires MemoOk(memo) && explicit != System
    ensures var (role, memo') := ResolveRole(name, explicit, systemLike, repeatsCurrent, lastRole, memo);
      MemoOk(memo') && (role != Unknown ==> name in memo' && memo'[name] == role)
  {
  }

  /**
   * Every memoised label keeps its entry, and its role too unless the line's own label is
   * that label and names a speaker outright.
   */
  lemma ResolveRoleKeepsEntry(name: string, explicit: Role, systemLike: bool, repeatsCurrent: bool, lastRole: Role, memo: Memo, key: string)
    requires MemoOk(memo)
    requires key in memo
    ensures var memo' := ResolveRole(name, explicit, systemLike, repeatsCurrent, lastRole, memo).1;
      key in memo' && (key != name ==> memo'[key] == memo[key])
    ensures var memo' := ResolveRole(name, explicit, systemLike, repeatsCurrent, lastRole, memo).1;
      name in memo && explicit == Unknown ==> memo' == memo
  {
  }

  lemma InferRoleMemo(rawRole: string, content: string, current: string, lastRole: Role, memo: Memo)
    requires MemoOk(memo)
    ensures var (role, memo') := InferRole(rawRole, content, current, lastRole, memo);
      MemoOk(memo') && (role != Unknown ==> NormalizeRoleLabel(rawRole) in memo' && memo'[NormalizeRoleLabel(rawRole)] == role)
  {
    var name := NormalizeRoleLabel(rawRole);
    ResolveRoleMemo(name, NormalizeRoleToken(name), IsSystemLikeLabel(name), RepeatsCurrent(content, current), lastRole, memo);
  }

  lemma InferRoleKeepsEntry(rawRole: string, content: string, current: string, lastRole: Role, memo: Memo, key: string)
    requires MemoOk(memo)
    requires key in memo
    ensures var memo' := InferRole(rawRole, content, current, lastRole, memo).1;
      key in memo' && (key != NormalizeRoleLabel(rawRole) ==> memo'[key] == memo[key])
    ensures var memo' := InferRole(rawRole, content, current, lastRole, memo).1;
      var name := NormalizeRoleLabel(rawRole);
      name in memo && NormalizeRoleToken(name) == Unknown ==> memo' == memo
  {
    var name := NormalizeRoleLabel(rawRole);
    ResolveRoleKeepsEntry(name, NormalizeRoleToken(name), IsSystemLikeLabel(name), RepeatsCurrent(content, current), lastRole, memo, key);
  }

  /** The empty label names nobody. */
  lemma EmptyLabelNamesNobody()
    ensures NormalizeRoleLabel("") == "" && NormalizeRoleToken("") == Unknown
  {
    EmptyMarkerLabel();
    assert OpenerRun("", 0) == 0 && CloserRun("", 0) == 0;
  }

  lemma EmptyMarkerLabel()
    ensures NormalizeMarkerLabel("") == ""
  {
    var t := Trim("");
    assert t == [];
    var l := Lower(t);
    assert l == [];
    assert CollapseSpaces(l) == [];
    assert StripTrailingSeparator([]) == [];
  }

  /** A label that names a speaker outright is read as that speaker, whatever the memo or the neighbours say. */
  lemma ExplicitRoleWins(rawRole: string, content: string, current: string, lastRole: Role, memo: Memo)
    requires NormalizeRoleToken(NormalizeRoleLabel(rawRole)) != Unknown
    ensures InferRole(rawRole, content, current, lastRole, memo).0 == NormalizeRoleToken(NormalizeRoleLabel(rawRole))
  {
    EmptyLabelNamesNobody();
  }

  /** A memoised label that names no speaker outright is read as its memoised role. */
  lemma MemoisedLabelKeepsRole(rawRole: string, content: string, current: string, lastRole: Role, memo: Memo)
    requires MemoOk(memo)
    requires NormalizeRoleLabel(rawRole) in memo && NormalizeRoleToken(NormalizeRoleLabel(rawRole)) == Unknown
    requires NormalizeRoleLabel(rawRole) != ""
    ensures InferRole(rawRole, content, current, lastRole, memo).0 == memo[NormalizeRoleLabel(rawRole)]
  {
  }

  /**
   * A label that is neither a speaker name, nor memoised, nor a heading, on a line that is
   * not the current user message, alternates with the previous speaker.
   */
  lemma UnknownLabelAlternates(rawRole: string, content: string, current: string, lastRole: Role, memo: Memo)
    requires NormalizeRoleLabel(rawRole) != ""
    requires NormalizeRoleToken(NormalizeRoleLabel(rawRole)) == Unknown
    requires NormalizeRoleLabel(rawRole) !in memo
    requires !IsSystemLikeLabel(NormalizeRoleLabel(rawRole))
    requires !RepeatsCurrent(content, current)
    ensures lastRole == User ==> InferRole(rawRole, content, current, lastRole, memo).0 == Assistant
    ensures lastRole != User ==> InferRole(rawRole, content, current, lastRole, memo).0 == User
  {
  }

  /** A Latin or basic Cyrillic letter: what speaker names are spelled with. */
  predicate IsLetter(c: char) {
    ('A' <= c <= 'Z') || ('a' <= c <= 'z') || ('\U{400}' <= c <= '\U{45F}')
  }

  predicate IsWord(s: string) {
    s != [] && forall i :: 0 <= i < |s| ==> IsLetter(s[i])
  }

  lemma {:induction false} CollapseSpacesOfWord(s: string)
    requires forall i :: 0 <= i < |s| ==> !IsSpace(s[i])
    ensures CollapseSpaces(s) == s
    decreases |s|
  {
    if s != [] {
      CollapseSpacesOfWord(s[1..]);
    }
  }

  /** Two whitespace-free words joined by one space are left as they are. */
  lemma CollapseTwoWords(a: string, b: string)
    requires forall i :: 0 <= i < |a| ==> !IsSpace(a[i])
    requires forall i :: 0 <= i < |b| ==> !IsSpace(b[i])
    requires b != []
    ensures CollapseSpaces(a + (" " + b)) == a + (" " + b)
  {
    CollapseOneSpace(a, b);
    CollapseSpacesOfWord(b);
  }

  lemma LowerOfWord(s: string)
    requires IsWord(s)
    ensures IsWord(Lower(s))
  {
    var l := Lower(s);
    forall i | 0 <= i < |l| ensures IsLetter(l[i]) {
      assert l[i] == LowerChar(s[i]);
    }
  }

  lemma StripTrailingSeparatorOfWord(s: string)
    requires IsWord(s)
    ensures StripTrailingSeparator(s) == s
  {
    assert !IsSpace(s[|s| - 1]);
    TrimEndOfTrimmedEnd(s);
  }

  lemma RoleLabelRunsOfWord(s: string)
    requires IsWord(s)
    ensures OpenerRun(s, 0) == 0 && CloserRun(s, |s|) == |s|
  {
    assert !IsOpener(s[0]);
    assert !IsCloser(s[|s| - 1]);
  }

  /** A word is normalised to its lower-case form as a marker. */
  lemma NormalizeMarkerWord(s: string)
    requires IsWord(s)
    ensures IsWord(Lower(s))
    ensures NormalizeMarkerLabel(s) == Lower(s)
  {
    var l := Lower(s);
    LowerOfWord(s);
    assert !IsSpace(s[0]) && !IsSpace(s[|s| - 1]);
    TrimOfTrimmed(s);
    assert forall i :: 0 <= i < |l| ==> !IsSpace(l[i]);
    CollapseSpacesOfWord(l);
    StripTrailingSeparatorOfWord(l);
  }

  /** A word is normalised to its lower-case form, both as a marker and as a role label. */
  lemma NormalizeWord(s: string)
    requires IsWord(s)
    ensures IsWord(Lower(s))
    ensures NormalizeMarkerLabel(s) == Lower(s)
    ensures NormalizeRoleLabel(s) == Lower(s)
  {
    var l := Lower(s);
    NormalizeMarkerWord(s);
    RoleLabelRunsOfWord(l);
    assert l[0..|l|] == l;
  }

  /** A word whose lower-case form is a user hint names the user; an assistant hint, the assistant. */
  lemma TokenOfWord(s: string)
    requires IsWord(s)
    ensures Lower(s) in USER_HINTS && Lower(s) !in ASSISTANT_HINTS ==> NormalizeRoleToken(s) == User
    ensures Lower(s) in ASSISTANT_HINTS ==> NormalizeRoleToken(s) == Assistant
  {
    NormalizeWord(s);
  }

  lemma LowerUser()
    ensures Lower("User") == "user" && Lower("user") == "user"
  {
  }

  lemma LowerAssistant()
    ensures Lower("Assistant") == "assistant" && Lower("assistant") == "assistant"
  {
  }

  lemma UserHint()
    ensures "user" in USER_HINTS && "user" !in ASSISTANT_HINTS
  {
  }

  /** "User", the label the history block writes for the user, names the user outright. */
  lemma UserLabel()
    ensures NormalizeRoleLabel("User") == "user" && NormalizeRoleToken("user") == User
  {
    NormalizeWord("User");
    LowerUser();
    UserHint();
    TokenOfWord("user");
  }

  /** "Assistant", the label the history block writes for the character, names the assistant outright. */
  lemma AssistantLabel()
    ensures NormalizeRoleLabel("Assistant") == "assistant" && NormalizeRoleToken("assistant") == Assistant
  {
    NormalizeWord("Assistant");
    LowerAssistant();
    TokenOfWord("assistant");
  }
}
