/**
 * `splitIncomingMessages` and `buildTranscriptPrompt`: the request's messages split into
 * system text and dialogue, and the plain-text transcript sent upstream on a full sync.
 */
module Messages {
  import opened Seqs
  import opened Text
  import opened Turns
  import Blob

  // ---------------------------------------------------------------------------------------
  // `splitIncomingMessages`.

  /** The contents of the system messages that have any, in order. */
  function SystemContents(messages: seq<Turn>): seq<string> {
    Filter(Map(Filter(messages, Blob.IsSystemTurn), Blob.ContentOf), Blob.NonEmpty)
  }

  lemma SystemContentsSnoc(messages: seq<Turn>, m: Turn)
    ensures SystemContents(messages + [m]) ==
      SystemContents(messages) + (if m.role == System && m.content != "" then [m.content] else [])
  {
    FilterConcat(messages, [m], Blob.IsSystemTurn);
    var sys := Filter(messages, Blob.IsSystemTurn);
    var last := Filter([m], Blob.IsSystemTurn);
    MapConcat(sys, last, Blob.ContentOf);
    FilterConcat(Map(sys, Blob.ContentOf), Map(last, Blob.ContentOf), Blob.NonEmpty);
  }

  lemma DialogueSnoc(turns: seq<Turn>, t: Turn)
    ensures Dialogue(turns + [t]) == Dialogue(turns) + (if IsDialogue(t) then [t] else [])
  {
    FilterConcat(turns, [t], IsDialogue);
  }

  /**
   * `splitIncomingMessages`: the system contents joined by a blank line and trimmed (the same
   * text `rebuildMessagesFromRisuBlob` calls the existing system text), and the user and
   * assistant turns that have content, in order.
   */
  method SplitIncomingMessages(messages: seq<Turn>) returns (systemText: string, turns: seq<Turn>)
    ensures systemText == Blob.ExistingSystemText(messages)
    ensures turns == Dialogue(messages)
  {
    var systems: seq<string> := [];
    turns := [];
    for n := 0 to |messages|
      invariant systems == SystemContents(messages[..n])
      invariant turns == Dialogue(messages[..n])
    {
      var message := messages[n];
      assert messages[..n + 1] == messages[..n] + [message];
      SystemContentsSnoc(messages[..n], message);
      DialogueSnoc(messages[..n], message);
      if message.content == "" {
        continue;
      }
      if message.role == System {
        systems := systems + [message.content];
        continue;
      }
      if message.role == User || message.role == Assistant {
        turns := turns + [Turn(message.role, message.content)];
      }
    }
    assert messages[..|messages|] == messages;
    systemText := Trim(Join(systems, "\n\n"));
  }

  // ---------------------------------------------------------------------------------------
  // `buildTranscriptPrompt`.

  const SYSTEM_HEADER := "SYSTEM:\n"
  const USER_HEADER := "USER:\n"
  const ASSISTANT_HEADER := "ASSISTANT:\n"

  /** `${turn.role.toUpperCase()}:\n${turn.content}` for a dialogue turn. */
  function TurnPart(t: Turn): string {
    (if t.role == User then USER_HEADER else ASSISTANT_HEADER) + t.content
  }

  /** The parts `buildTranscriptPrompt` joins: the trimmed system text, when there is any, then each dialogue turn. */
  function TranscriptParts(systemText: string, turns: seq<Turn>): seq<string> {
    (if Blank(systemText) then [] else [SYSTEM_HEADER + Trim(systemText)]) + Map(Dialogue(turns), TurnPart)
  }

  /** The transcript prompt: the parts joined by a blank line, trimmed. */
  function TranscriptPrompt(systemText: string, turns: seq<Turn>): string {
    Trim(Join(TranscriptParts(systemText, turns), "\n\n"))
  }

  /** `buildTranscriptPrompt`, with its loop over the turns. */
  method BuildTranscriptPrompt(systemText: string, turns: seq<Turn>) returns (prompt: string)
    ensures prompt == TranscriptPrompt(systemText, turns)
  {
    var parts: seq<string> := [];
    if !Blank(systemText) {
      parts := [SYSTEM_HEADER + Trim(systemText)];
    }
    ghost var head := parts;
    for n := 0 to |turns|
      invariant parts == head + Map(Dialogue(turns[..n]), TurnPart)
    {
      var turn := turns[n];
      assert turns[..n + 1] == turns[..n] + [turn];
      DialogueSnoc(turns[..n], turn);
      MapConcat(Dialogue(turns[..n]), if IsDialogue(turn) then [turn] else [], TurnPart);
      if turn.content == "" || (turn.role != User && turn.role != Assistant) {
        continue;
      }
      parts := parts + [TurnPart(turn)];
    }
    assert turns[..|turns|] == turns;
    prompt := Trim(Join(parts, "\n\n"));
  }

  /** Every part starts with its header, whose first letter is not whitespace. */
  lemma PartsOpenWithLetter(systemText: string, turns: seq<Turn>)
    ensures var parts := TranscriptParts(systemText, turns);
      forall i :: 0 <= i < |parts| ==> parts[i] != [] && !IsSpace(parts[i][0])
  {
    var parts := TranscriptParts(systemText, turns);
    forall i | 0 <= i < |parts| ensures parts[i] != [] && !IsSpace(parts[i][0]) {
      var sys := if Blank(systemText) then [] else [SYSTEM_HEADER + Trim(systemText)];
      if i < |sys| {
        assert parts[i] == SYSTEM_HEADER + Trim(systemText);
        assert parts[i][0] == 'S';
      } else {
        var t := Dialogue(turns)[i - |sys|];
        assert parts[i] == TurnPart(t);
        assert parts[i][0] == 'U' || parts[i][0] == 'A';
      }
    }
  }

  /** The prompt is empty exactly when there is no system text and no dialogue turn. */
  lemma TranscriptPromptEmpty(systemText: string, turns: seq<Turn>)
    ensures TranscriptPrompt(systemText, turns) == "" <==> Blank(systemText) && Dialogue(turns) == []
  {
    var parts := TranscriptParts(systemText, turns);
    if parts != [] {
      PartsOpenWithLetter(systemText, turns);
      JoinStartsWithFirst(parts, "\n\n");
      NonBlankPrefix(parts[0], Join(parts, "\n\n"));
    }
  }

  /** `trimEnd` never cuts into a prefix that ends in a non-space. */
  lemma TrimEndKeepsPrefix(s: string, p: string)
    requires StartsWith(s, p) && p != [] && !IsSpace(p[|p| - 1])
    ensures StartsWith(TrimEnd(s), p)
  {
    assert s[|p| - 1] == p[|p| - 1];
  }

  /** Trimming keeps a prefix that has no whitespace at either end. */
  lemma TrimKeepsPrefix(s: string, p: string)
    requires StartsWith(s, p) && p != [] && IsTrimmed(p)
    ensures StartsWith(Trim(s), p)
  {
    assert s[0] == p[0];
    TrimStartOfTrimmedStart(s);
    TrimEndKeepsPrefix(s, p);
  }

  /** With system text, the prompt opens with "SYSTEM:" on its own line and the trimmed system text. */
  lemma TranscriptPromptOpensWithSystem(systemText: string, turns: seq<Turn>)
    requires !Blank(systemText)
    ensures StartsWith(TranscriptPrompt(systemText, turns), SYSTEM_HEADER + Trim(systemText))
  {
    var parts := TranscriptParts(systemText, turns);
    var p := SYSTEM_HEADER + Trim(systemText);
    assert parts[0] == p;
    JoinStartsWithFirst(parts, "\n\n");
    assert p[|p| - 1] == Trim(systemText)[|Trim(systemText)| - 1];
    TrimKeepsPrefix(Join(parts, "\n\n"), p);
  }

  /** Without system text, the prompt opens with the header of the first dialogue turn. */
  lemma TranscriptPromptOpensWithFirstTurn(systemText: string, turns: seq<Turn>)
    requires Blank(systemText) && Dialogue(turns) != []
    ensures var first := Dialogue(turns)[0];
      StartsWith(TranscriptPrompt(systemText, turns), if first.role == User then "USER:" else "ASSISTANT:")
  {
    var parts := TranscriptParts(systemText, turns);
    var first := Dialogue(turns)[0];
    var header := if first.role == User then "USER:" else "ASSISTANT:";
    assert parts[0] == TurnPart(first);
    JoinStartsWithFirst(parts, "\n\n");
    var joined := Join(parts, "\n\n");
    assert StartsWith(joined, header) by {
      assert joined[..|parts[0]|] == parts[0];
      assert parts[0][..|header|] == header;
    }
    TrimKeepsPrefix(joined, header);
  }
}
