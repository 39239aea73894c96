/**
 * `parseHistoryTurns`: reads a serialised history section line by line into typed turns.
 * A "label: content" line whose label resolves to a speaker opens a new turn; a heading
 * label is skipped; every other non-blank line continues the previous turn on a new line.
 */
module History {
  import opened Text
  import opened Seqs
  import opened Turns
  import opened Labels
  import Memory

  /** The reader's state between lines: the turns so far (the last one is `lastTurn`) and the label memo. */
  datatype ParseState = ParseState(turns: seq<Turn>, memo: Memo)

  /** `lastTurn?.role || ""`, with `Unknown` for "". */
  function LastRole(turns: seq<Turn>): Role {
    if turns == [] then Unknown else turns[|turns| - 1].role
  }

  predicate Speakers(turns: seq<Turn>) {
    forall i :: 0 <= i < |turns| ==> IsUserOrAssistant(turns[i])
  }

  /** Lines as `split(/\r?\n/)` yields them. */
  predicate LinesOk(lines: seq<string>) {
    forall i :: 0 <= i < |lines| ==> '\n' !in lines[i]
  }

  /**
   * A continuation line: its `trimEnd` is added to the last turn after a "\n" (or becomes
   * its content when that is empty); with no turn yet, or a blank line, nothing changes.
   */
  function Continue(turns: seq<Turn>, line: string): (r: seq<Turn>)
    ensures |r| == |turns|
    ensures forall i :: 0 <= i < |turns| ==> r[i].role == turns[i].role
    ensures forall i :: 0 <= i < |turns| - 1 ==> r[i] == turns[i]
  {
    var continuation := TrimEnd(line);
    if turns == [] || continuation == "" then turns
    else
      var last := turns[|turns| - 1];
      turns[|turns| - 1 := Turn(last.role, if last.content != "" then last.content + "\n" + continuation else continuation)]
  }

  /**
   * What the label regex and `inferRoleFromLabel` decide for one line: the role it opens a
   * turn for (`Unknown` for none), that turn's content, whether the line is a heading to
   * skip, and the memo afterwards.
   */
  datatype LineEffect = LineEffect(role: Role, content: string, skip: bool, memo: Memo)

  function Effect(st: ParseState, line: string, current: string): LineEffect
    requires '\n' !in line
  {
    match MatchLabelLine(line)
    case Some(m) =>
      var content := Trim(m.rest);
      var (role, memo') := InferRole(m.rawLabel, content, current, LastRole(st.turns), st.memo);
      LineEffect(role, content, role == Unknown && IsSystemLikeLabel(m.rawLabel), memo')
    case None => LineEffect(Unknown, "", false, st.memo)
  }

  /** One iteration of the loop of `parseHistoryTurns`. */
  function StepLine(st: ParseState, line: string, current: string): ParseState
    requires '\n' !in line
  {
    Apply(st, Effect(st, line, current), line)
  }

  /** A line's effect on the state: push a turn, skip the line, or continue the last turn. */
  function Apply(st: ParseState, e: LineEffect, line: string): ParseState
  {
    if e.role != Unknown then ParseState(st.turns + [Turn(e.role, e.content)], e.memo)
    else if e.skip then ParseState(st.turns, e.memo)
    else ParseState(Continue(st.turns, line), e.memo)
  }

  /** The state after reading `lines` in order from an empty state. */
  function ParseLines(lines: seq<string>, current: string): ParseState
    requires LinesOk(lines)
  {
    if lines == [] then ParseState([], map[])
    else StepLine(ParseLines(lines[..|lines| - 1], current), lines[|lines| - 1], current)
  }

  /** `parseHistoryTurns(historySection, currentUserMessage)`. */
  function ParseHistoryTurns(section: string, current: string): seq<Turn>
  {
    if Blank(section) then []
    else Filter(ParseLines(SplitLines(section), current).turns, Memory.HasContent)
  }

  /** The loop of `parseHistoryTurns`, pushing turns and extending the last one in place. */
  method ParseHistory(historySection: string, currentUserMessage: string) returns (result: seq<Turn>)
    ensures result == ParseHistoryTurns(historySection, currentUserMessage)
  {
    if Blank(historySection) {
      return [];
    }
    var lines := SplitLines(historySection);
    var turns: seq<Turn> := [];
    var memo: Memo := map[];
    for i := 0 to |lines|
      invariant ParseState(turns, memo) == ParseLines(lines[..i], currentUserMessage)
    {
      var line := lines[i];
      ParseLinesStep(lines, currentUserMessage, i);
      ghost var before := ParseState(turns, memo);
      ghost var effect := Effect(before, line, currentUserMessage);
      var roleMatch := MatchLabelLine(line);
      if roleMatch.Some? {
        var content := Trim(roleMatch.value.rest);
        var inferred := InferRole(roleMatch.value.rawLabel, content, currentUserMessage, LastRole(turns), memo);
        assert effect.role == inferred.0 && effect.memo == inferred.1 && effect.content == content;
        memo := inferred.1;
        if inferred.0 != Unknown {
          turns := turns + [Turn(inferred.0, content)];
          continue;
        }
        if IsSystemLikeLabel(roleMatch.value.rawLabel) {
          continue;
        }
        assert !effect.skip;
      }
      assert effect.role == Unknown && !effect.skip && effect.memo == memo;
      var continuation := TrimEnd(line);
      if turns != [] && continuation != "" {
        var last := turns[|turns| - 1];
        var content := if last.content != "" then last.content + "\n" + continuation else continuation;
        turns := turns[|turns| - 1 := Turn(last.role, content)];
      }
      assert turns == Continue(before.turns, line);
    }
    assert lines[..|lines|] == lines;
    result := Filter(turns, Memory.HasContent);
  }

  lemma ParseLinesStep(lines: seq<string>, current: string, n: nat)
    requires LinesOk(lines) && n < |lines|
    ensures LinesOk(lines[..n]) && LinesOk(lines[..n + 1])
    ensures ParseLines(lines[..n + 1], current) == StepLine(ParseLines(lines[..n], current), lines[n], current)
  {
    assert lines[..n + 1][..n] == lines[..n];
  }

  /** A step keeps every turn a speaker turn and the memo well-formed. */
  lemma StepKeepsSpeakers(st: ParseState, line: string, current: string)
    requires '\n' !in line
    requires Speakers(st.turns) && MemoOk(st.memo)
    ensures Speakers(StepLine(st, line, current).turns) && MemoOk(StepLine(st, line, current).memo)
  {
    EffectSpeaker(st, line, current);
    ApplyKeepsSpeakers(st, Effect(st, line, current), line);
  }

  lemma ApplyKeepsSpeakers(st: ParseState, e: LineEffect, line: string)
    requires Speakers(st.turns) && MemoOk(e.memo)
    requires e.role == User || e.role == Assistant || e.role == Unknown
    ensures Speakers(Apply(st, e, line).turns) && MemoOk(Apply(st, e, line).memo)
  {
    var r := Apply(st, e, line).turns;
    if e.role == Unknown && !e.skip {
      forall i | 0 <= i < |r| ensures IsUserOrAssistant(r[i]) {
        assert r[i].role == st.turns[i].role;
      }
    }
  }

  lemma EffectSpeaker(st: ParseState, line: string, current: string)
    requires '\n' !in line
    requires MemoOk(st.memo)
    ensures var e := Effect(st, line, current);
      (e.role == User || e.role == Assistant || e.role == Unknown) && MemoOk(e.memo)
  {
    match MatchLabelLine(line)
    case Some(m) =>
      var content := Trim(m.rest);
      InferRoleResult(m.rawLabel, content, current, LastRole(st.turns), st.memo);
      InferRoleMemo(m.rawLabel, content, current, LastRole(st.turns), st.memo);
    case None =>
  }

  lemma {:induction false} ParseLinesSpeakers(lines: seq<string>, current: string)
    requires LinesOk(lines)
    ensures Speakers(ParseLines(lines, current).turns) && MemoOk(ParseLines(lines, current).memo)
  {
    if lines != [] {
      var n := |lines| - 1;
      ParseLinesStep(lines, current, n);
      assert lines[..n + 1] == lines;
      ParseLinesSpeakers(lines[..n], current);
      StepKeepsSpeakers(ParseLines(lines[..n], current), lines[n], current);
    }
  }

  /** Every turn `parseHistoryTurns` returns is a user or assistant turn with non-empty content. */
  lemma ParseHistoryTurnsSpeakers(section: string, current: string)
    ensures forall i :: 0 <= i < |ParseHistoryTurns(section, current)| ==>
      IsUserOrAssistant(ParseHistoryTurns(section, current)[i]) && ParseHistoryTurns(section, current)[i].content != ""
  {
    if !Blank(section) {
      var lines := SplitLines(section);
      ParseLinesSpeakers(lines, current);
      var turns := ParseLines(lines, current).turns;
      var r := Filter(turns, Memory.HasContent);
      forall i | 0 <= i < |r| ensures IsUserOrAssistant(r[i]) && r[i].content != "" {
        assert Memory.HasContent(r[i]);
        assert r[i] in turns;
      }
    }
  }

  /**
   * A line without a colon after a turn whose content is not empty is appended to that turn
   * after a "\n", with its trailing whitespace dropped; the label memo is untouched.
   */
  lemma ContinuationLineAppends(st: ParseState, line: string, current: string)
    requires '\n' !in line && ':' !in line
    requires st.turns != [] && st.turns[|st.turns| - 1].content != "" && TrimEnd(line) != ""
    ensures var last := st.turns[|st.turns| - 1];
      StepLine(st, line, current) ==
        ParseState(st.turns[..|st.turns| - 1] + [Turn(last.role, last.content + "\n" + TrimEnd(line))], st.memo)
  {
    var r := Continue(st.turns, line);
    var last := st.turns[|st.turns| - 1];
    assert r == st.turns[..|st.turns| - 1] + [Turn(last.role, last.content + "\n" + TrimEnd(line))];
  }

  /** The role line `i` receives (`Unknown` for a line that is not a label line or names nobody). */
  function LineRole(lines: seq<string>, current: string, i: nat): Role
    requires LinesOk(lines) && i < |lines|
  {
    match MatchLabelLine(lines[i])
    case None => Unknown
    case Some(m) =>
      ParseLinesStep(lines, current, i);
      var st := ParseLines(lines[..i], current);
      InferRole(m.rawLabel, Trim(m.rest), current, LastRole(st.turns), st.memo).0
  }

  lemma EffectKeepsEntry(st: ParseState, line: string, current: string, key: string)
    requires '\n' !in line
    requires MemoOk(st.memo) && key in st.memo && NormalizeRoleToken(key) == Unknown
    ensures key in Effect(st, line, current).memo
    ensures Effect(st, line, current).memo[key] == st.memo[key]
  {
    match MatchLabelLine(line)
    case Some(m) =>
      InferRoleKeepsEntry(m.rawLabel, Trim(m.rest), current, LastRole(st.turns), st.memo, key);
    case None =>
  }

  /** A step keeps every memo entry of a label that names no speaker outright. */
  lemma StepKeepsEntry(st: ParseState, line: string, current: string, key: string)
    requires '\n' !in line
    requires MemoOk(st.memo) && key in st.memo && NormalizeRoleToken(key) == Unknown
    ensures key in StepLine(st, line, current).memo
    ensures StepLine(st, line, current).memo[key] == st.memo[key]
  {
    var e := Effect(st, line, current);
    EffectKeepsEntry(st, line, current, key);
    assert Apply(st, e, line).memo == e.memo;
  }

  /** A memoised label that names no speaker outright keeps its role for the rest of the section. */
  lemma {:induction false} MemoStable(lines: seq<string>, current: string, a: nat, b: nat, key: string)
    requires LinesOk(lines) && a <= b <= |lines|
    requires LinesOk(lines[..a]) && LinesOk(lines[..b])
    requires key in ParseLines(lines[..a], current).memo && NormalizeRoleToken(key) == Unknown
    ensures key in ParseLines(lines[..b], current).memo
    ensures ParseLines(lines[..b], current).memo[key] == ParseLines(lines[..a], current).memo[key]
    decreases b - a
  {
    if a < b {
      var stA := ParseLines(lines[..a], current);
      ParseLinesStep(lines, current, a);
      ParseLinesSpeakers(lines[..a], current);
      StepKeepsEntry(stA, lines[a], current, key);
      MemoStable(lines, current, a + 1, b, key);
    }
  }

  /**
   * Once a label line resolves to a speaker, every later line with the same normalised
   * label resolves to the same speaker.
   */
  lemma SameLabelSameRole(lines: seq<string>, current: string, i: nat, j: nat)
    requires LinesOk(lines) && i < j < |lines|
    requires MatchLabelLine(lines[i]).Some? && MatchLabelLine(lines[j]).Some?
    requires NormalizeRoleLabel(MatchLabelLine(lines[i]).value.rawLabel) == NormalizeRoleLabel(MatchLabelLine(lines[j]).value.rawLabel)
    requires LineRole(lines, current, i) != Unknown
    ensures LineRole(lines, current, j) == LineRole(lines, current, i)
  {
    var mi := MatchLabelLine(lines[i]).value;
    var mj := MatchLabelLine(lines[j]).value;
    var name := NormalizeRoleLabel(mi.rawLabel);
    ParseLinesStep(lines, current, i);
    ParseLinesStep(lines, current, j);
    var stI := ParseLines(lines[..i], current);
    var stJ := ParseLines(lines[..j], current);
    if NormalizeRoleToken(name) != Unknown {
      ExplicitRoleWins(mi.rawLabel, Trim(mi.rest), current, LastRole(stI.turns), stI.memo);
      ExplicitRoleWins(mj.rawLabel, Trim(mj.rest), current, LastRole(stJ.turns), stJ.memo);
    } else {
      ParseLinesSpeakers(lines[..i], current);
      InferRoleResult(mi.rawLabel, Trim(mi.rest), current, LastRole(stI.turns), stI.memo);
      InferRoleMemo(mi.rawLabel, Trim(mi.rest), current, LastRole(stI.turns), stI.memo);
      assert ParseLines(lines[..i + 1], current).memo == Effect(stI, lines[i], current).memo;
      var after := ParseLines(lines[..i + 1], current).memo;
      assert name in after && after[name] == LineRole(lines, current, i);
      MemoStable(lines, current, i + 1, j, name);
      ParseLinesSpeakers(lines[..j], current);
      MemoisedLabelKeepsRole(mj.rawLabel, Trim(mj.rest), current, LastRole(stJ.turns), stJ.memo);
    }
  }

  /** A turn a history line carries whole: a speaker turn with trimmed, non-empty, single-line content. */
  predicate Writable(t: Turn) {
    IsUserOrAssistant(t) && t.content != "" && IsTrimmed(t.content) && NoLineTerminator(t.content)
  }

  /** The label `buildHistoryBlock` writes for a speaker. */
  function SpeakerName(role: Role): string {
    if role == User then "User" else "Assistant"
  }

  /** A word label short enough for the regex holds no colon, line break or leading whitespace or bullet. */
  lemma WordLabelShape(name: string)
    requires IsWord(name) && |name| <= MAX_LABEL
    ensures ':' !in name && '\n' !in name && !IsSpace(name[0]) && !IsBullet(name[0]) && NoLineTerminator(name)
  {
    assert forall k :: 0 <= k < |name| ==> IsLetter(name[k]);
  }

  lemma UserNameFacts()
    ensures IsWord("User") && |"User"| <= MAX_LABEL
  {
  }

  lemma AssistantNameFacts()
    ensures IsWord("Assistant") && |"Assistant"| <= MAX_LABEL
  {
  }

  lemma SpeakerNameFacts(t: Turn)
    requires IsUserOrAssistant(t)
    ensures var name := SpeakerName(t.role);
      Memory.HistoryLine(t) == name + ": " + t.content &&
      1 <= |name| <= MAX_LABEL && ':' !in name && '\n' !in name && !IsSpace(name[0]) && !IsBullet(name[0]) &&
      NoLineTerminator(name)
  {
    if t.role == User {
      UserNameFacts();
      WordLabelShape("User");
    } else {
      AssistantNameFacts();
      WordLabelShape("Assistant");
    }
  }

  lemma SpeakerNameNamesRole(role: Role)
    requires role == User || role == Assistant
    ensures NormalizeRoleToken(NormalizeRoleLabel(SpeakerName(role))) == role
  {
    if role == User {
      UserLabel();
    } else {
      AssistantLabel();
    }
  }

  lemma HistoryLineClean(t: Turn)
    requires Writable(t)
    ensures NoLineTerminator(Memory.HistoryLine(t)) && '\n' !in Memory.HistoryLine(t)
    ensures !IsSpace(Memory.HistoryLine(t)[0])
  {
    var name := SpeakerName(t.role);
    SpeakerNameFacts(t);
    var line := name + ": " + t.content;
    forall k | 0 <= k < |line| ensures !IsLineTerminator(line[k]) {
      if k < |name| {
        assert line[k] == name[k];
      } else if k >= |name| + 2 {
        assert line[k] == t.content[k - |name| - 2];
      } else {
        assert line[k] == ':' || line[k] == ' ';
      }
    }
    assert line[0] == name[0];
  }

  /** The line written for a turn opens that very turn, whatever came before it. */
  lemma WrittenLineEffect(st: ParseState, t: Turn, current: string)
    requires Writable(t)
    ensures '\n' !in Memory.HistoryLine(t)
    ensures Effect(st, Memory.HistoryLine(t), current).role == t.role
    ensures Effect(st, Memory.HistoryLine(t), current).content == t.content
  {
    var name := SpeakerName(t.role);
    SpeakerNameFacts(t);
    HistoryLineClean(t);
    MatchLabelLineWritten(name, t.content);
    SpeakerNameNamesRole(t.role);
    TrimOfTrimmed(t.content);
    ExplicitRoleWins(name, t.content, current, LastRole(st.turns), st.memo);
  }

  lemma WrittenLineStep(st: ParseState, t: Turn, current: string)
    requires Writable(t)
    ensures '\n' !in Memory.HistoryLine(t)
    ensures StepLine(st, Memory.HistoryLine(t), current).turns == st.turns + [t]
  {
    var e := Effect(st, Memory.HistoryLine(t), current);
    WrittenLineEffect(st, t, current);
    assert Apply(st, e, Memory.HistoryLine(t)).turns == st.turns + [Turn(e.role, e.content)];
  }

  lemma WrittenLinesOk(ts: seq<Turn>)
    requires forall i :: 0 <= i < |ts| ==> Writable(ts[i])
    ensures LinesOk(Map(ts, Memory.HistoryLine))
    ensures forall i :: 0 <= i < |ts| ==> NoLineTerminator(Map(ts, Memory.HistoryLine)[i])
  {
    var lines := Map(ts, Memory.HistoryLine);
    forall i | 0 <= i < |lines| ensures '\n' !in lines[i] && NoLineTerminator(lines[i]) {
      HistoryLineClean(ts[i]);
    }
  }

  /** Appending the line written for a turn to any lines appends exactly that turn. */
  lemma ParseAppendWritten(prev: seq<string>, t: Turn, current: string)
    requires LinesOk(prev) && Writable(t)
    ensures LinesOk(prev + [Memory.HistoryLine(t)])
    ensures ParseLines(prev + [Memory.HistoryLine(t)], current).turns == ParseLines(prev, current).turns + [t]
  {
    var lines := prev + [Memory.HistoryLine(t)];
    HistoryLineClean(t);
    assert lines[..|prev|] == prev;
    WrittenLineStep(ParseLines(prev, current), t, current);
  }

  lemma WrittenStep(prefix: seq<Turn>, t: Turn, current: string)
    requires LinesOk(Map(prefix, Memory.HistoryLine)) && Writable(t)
    requires ParseLines(Map(prefix, Memory.HistoryLine), current).turns == prefix
    ensures LinesOk(Map(prefix + [t], Memory.HistoryLine))
    ensures ParseLines(Map(prefix + [t], Memory.HistoryLine), current).turns == prefix + [t]
  {
    MapConcat(prefix, [t], Memory.HistoryLine);
    assert Map([t], Memory.HistoryLine) == [Memory.HistoryLine(t)];
    ParseAppendWritten(Map(prefix, Memory.HistoryLine), t, current);
  }

  lemma {:induction false} ParseWrittenLines(ts: seq<Turn>, current: string)
    requires forall i :: 0 <= i < |ts| ==> Writable(ts[i])
    ensures LinesOk(Map(ts, Memory.HistoryLine))
    ensures ParseLines(Map(ts, Memory.HistoryLine), current).turns == ts
    decreases |ts|
  {
    if ts == [] {
      assert Map(ts, Memory.HistoryLine) == [];
    } else {
      var prefix := ts[..|ts| - 1];
      var t := ts[|ts| - 1];
      assert ts == prefix + [t];
      ParseWrittenLines(prefix, current);
      WrittenStep(prefix, t, current);
    }
  }

  /**
   * History lines written as "User: ..." / "Assistant: ..." for speaker turns with trimmed,
   * single-line content are read back as exactly those turns, in order.
   */
  lemma HistoryRoundTrip(ts: seq<Turn>, current: string)
    requires ts != []
    requires forall i :: 0 <= i < |ts| ==> Writable(ts[i])
    ensures ParseHistoryTurns(Join(Map(ts, Memory.HistoryLine), "\n"), current) == ts
  {
    var lines := Map(ts, Memory.HistoryLine);
    var section := Join(lines, "\n");
    forall i | 0 <= i < |lines| ensures NoLineTerminator(lines[i]) {
      HistoryLineClean(ts[i]);
    }
    SplitLinesJoin(lines);
    ParseWrittenLines(ts, current);
    HistoryLineClean(ts[0]);
    JoinStartsWithFirst(lines, "\n");
    NonBlankPrefix(lines[0], section);
    FilterKeepsAll(ts, Memory.HasContent);
  }

  /** What `buildHistoryBlock` writes for up to 14 such turns, `parseHistoryTurns` reads back unchanged. */
  lemma HistoryBlockRoundTrip(ts: seq<Turn>, current: string)
    requires 0 < |ts| <= Memory.HISTORY_BLOCK_TURNS
    requires forall i :: 0 <= i < |ts| ==> Writable(ts[i])
    ensures ParseHistoryTurns(Memory.BuildHistoryBlock(ts), current) == ts
  {
    FilterKeepsAll(ts, IsUserOrAssistant);
    assert Memory.HistoryLines(ts) == Map(ts, Memory.HistoryLine);
    HistoryRoundTrip(ts, current);
  }
}
