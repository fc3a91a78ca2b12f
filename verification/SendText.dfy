/** The texts a send deals with: the prior messages it sends along and the blocks it
    stores an answer in (workbench/conversation_api.py). */
module SendText {
  import opened Outcomes
  import opened ConversationModels
  import opened ConversationRows

  const HISTORY_MAX_TURNS := 8
  const HISTORY_MAX_CHARS := 16000

  const SEND_REDACTION := Redaction(Redacted, "workbench.default")

  // -- storing an answer -----------------------------------------------------------

  function Chunks(text: string): seq<string>
  {
    if text == "" then []
    else if |text| <= MAX_CONTENT_TEXT_CHARS then [text]
    else [text[..MAX_CONTENT_TEXT_CHARS]] + Chunks(text[MAX_CONTENT_TEXT_CHARS..])
  }

  /** `_content_blocks`: bounded chunks, at most as many as a turn may hold. */
  function ContentBlocks(text: string): seq<ContentBlock>
  {
    var chunks := Chunks(text);
    var kept := if |chunks| <= MAX_CONTENT_BLOCKS then chunks else chunks[..MAX_CONTENT_BLOCKS];
    seq(|kept|, i requires 0 <= i < |kept| => ContentBlock(Text, kept[i]))
  }

  function AssistantRequest(text: string, status: TurnStatus): TurnRequest
  {
    TurnRequest(Assistant, status, SEND_REDACTION, Ordinary, ContentBlocks(text), [])
  }

  function TextOf(blocks: seq<ContentBlock>): string
  {
    if blocks == [] then "" else blocks[0].text + TextOf(blocks[1..])
  }

  lemma {:induction false} ChunksJoin(text: string)
    ensures var chunks := Chunks(text);
            && (forall c | c in chunks :: 0 < |c| <= MAX_CONTENT_TEXT_CHARS)
            && |text| <= |chunks| * MAX_CONTENT_TEXT_CHARS
            && (chunks != [] ==> (|chunks| - 1) * MAX_CONTENT_TEXT_CHARS < |text|)
            && TextOf(seq(|chunks|, i requires 0 <= i < |chunks| => ContentBlock(Text, chunks[i]))) == text
  {
    var chunks := Chunks(text);
    var blocks := seq(|chunks|, i requires 0 <= i < |chunks| => ContentBlock(Text, chunks[i]));
    if text == "" {
      assert blocks == [];
    } else if |text| <= MAX_CONTENT_TEXT_CHARS {
      assert blocks == [ContentBlock(Text, text)];
      assert blocks[1..] == [];
    } else {
      var later := text[MAX_CONTENT_TEXT_CHARS..];
      ChunksJoin(later);
      var rest := Chunks(later);
      assert blocks[1..] == seq(|rest|, i requires 0 <= i < |rest| => ContentBlock(Text, rest[i]));
      assert text == text[..MAX_CONTENT_TEXT_CHARS] + later;
    }
  }

  /** Every block is a valid one, and up to 1,280,000 characters - more than a stream
      may output - nothing of the text is lost. */
  lemma ContentBlocksAreLossless(text: string)
    ensures |ContentBlocks(text)| <= 64 && forall b | b in ContentBlocks(text) :: b.kind == Text && 0 < |b.text| <= 20_000
    ensures |text| <= 1_280_000 ==> TextOf(ContentBlocks(text)) == text
  {
    ChunksJoin(text);
    hide Chunks, TextOf;
    var chunks, blocks := Chunks(text), ContentBlocks(text);
    forall b | b in blocks ensures b.kind == Text && 0 < |b.text| <= MAX_CONTENT_TEXT_CHARS {
      var i :| 0 <= i < |blocks| && blocks[i] == b;
      assert chunks[i] in chunks;
    }
    if |text| <= MAX_CONTENT_BLOCKS * MAX_CONTENT_TEXT_CHARS {
      assert |chunks| <= MAX_CONTENT_BLOCKS;
      assert blocks == seq(|chunks|, i requires 0 <= i < |chunks| => ContentBlock(Text, chunks[i]));
    }
  }

  // -- the history window -------------------------------------------------------------

  datatype Message = Message(role: Role, content: string)

  function MessageOf(t: Turn): seq<Message>
  {
    if t.status != Complete || t.purged || t.role.Unlisted? || TextOf(t.content) == "" then []
    else [Message(t.role, TextOf(t.content))]
  }

  /** The committed, unpurged, non-empty turns as messages, in order. */
  function MessagesOf(turns: seq<Turn>): seq<Message>
  {
    if turns == [] then [] else MessagesOf(turns[..|turns| - 1]) + MessageOf(turns[|turns| - 1])
  }

  /** A complete turn of the user or the assistant that has not been purged is a message with
      the text of all its blocks, unless that is empty; no other turn is; and the messages of
      a history are those of its turns, one after the other. */
  lemma {:induction false} MessagesAre(a: seq<Turn>, b: seq<Turn>, t: Turn)
    ensures MessagesOf(a + b) == MessagesOf(a) + MessagesOf(b) && MessagesOf([]) == []
    ensures MessagesOf([t]) == if t.status == Complete && !t.purged && t.role in {User, Assistant} && TextOf(t.content) != ""
                               then [Message(t.role, TextOf(t.content))] else []
    decreases |b|
  {
    assert [t][..0] == [];
    if b == [] {
      assert a + b == a;
    } else {
      assert (a + b)[..|a + b| - 1] == a + b[..|b| - 1];
      MessagesAre(a, b[..|b| - 1], t);
    }
  }

  /** The text of blocks is their texts, one after the other; the size of messages the sum of
      their lengths. */
  lemma {:induction false} TextIsJoined(a: seq<ContentBlock>, b: seq<ContentBlock>, block: ContentBlock)
    ensures TextOf(a + b) == TextOf(a) + TextOf(b) && TextOf([]) == "" && TextOf([block]) == block.text
  {
    assert [block][1..] == [];
    if a == [] {
      assert a + b == b;
    } else {
      assert (a + b)[1..] == a[1..] + b;
      TextIsJoined(a[1..], b, block);
    }
  }

  lemma {:induction false} CharsAreSummed(a: seq<Message>, b: seq<Message>, m: Message)
    ensures Chars(a + b) == Chars(a) + Chars(b) && Chars([]) == 0 && Chars([m]) == |m.content|
  {
    assert [m][1..] == [];
    if a == [] {
      assert a + b == b;
    } else {
      assert (a + b)[1..] == a[1..] + b;
      CharsAreSummed(a[1..], b, m);
    }
  }

  function Chars(messages: seq<Message>): nat
  {
    if messages == [] then 0 else |messages[0].content| + Chars(messages[1..])
  }

  lemma {:induction false} CharsShrink(messages: seq<Message>, i: nat, j: nat)
    requires i <= j <= |messages|
    ensures Chars(messages[j..]) <= Chars(messages[i..])
    decreases j - i
  {
    if i < j {
      CharsShrink(messages, i + 1, j);
      assert messages[i..][1..] == messages[i + 1..];
    }
  }

  method CollectMessages(turns: seq<Turn>) returns (messages: seq<Message>)
    ensures messages == MessagesOf(turns)
  {
    messages := [];
    for i := 0 to |turns|
      invariant messages == MessagesOf(turns[..i])
    {
      assert turns[..i + 1][..i] == turns[..i];
      var text := TextOf(turns[i].content);
      if turns[i].status != Complete || turns[i].purged || turns[i].role.Unlisted? || text == "" { continue; }
      messages := messages + [Message(turns[i].role, text)];
    }
    assert turns[..|turns|] == turns;
  }

  /** The messages from `start` on fit both bounds. */
  predicate Fits(messages: seq<Message>, start: nat)
    requires start <= |messages|
  {
    |messages| - start <= 8 && Chars(messages[start..]) <= 16_000
  }

  /** `window` is the longest run of most recent messages within both bounds. */
  predicate IsWindow(messages: seq<Message>, window: seq<Message>)
  {
    && |window| <= |messages| && window == messages[|messages| - |window|..] && Fits(messages, |messages| - |window|)
    && forall s | 0 <= s < |messages| - |window| :: !Fits(messages, s)
  }

  /** `_history_messages` */
  method HistoryMessages(turns: seq<Turn>) returns (window: seq<Message>)
    ensures IsWindow(MessagesOf(turns), window)
  {
    var messages := CollectMessages(turns);
    hide MessagesOf, Chars;
    ghost var start := if |messages| > HISTORY_MAX_TURNS then |messages| - HISTORY_MAX_TURNS else 0;
    window := if |messages| > HISTORY_MAX_TURNS then messages[|messages| - HISTORY_MAX_TURNS..] else messages;
    NoChars();
    while window != [] && Chars(window) > HISTORY_MAX_CHARS
      invariant 0 <= start <= |messages| && |messages| - start <= HISTORY_MAX_TURNS && window == messages[start..]
      invariant forall s | 0 <= s < start :: !Fits(messages, s)
    {
      window := window[1..];
      start := start + 1;
    }
  }

  lemma NoChars()
    ensures Chars([]) == 0
  { }

  // -- the most recent context does not always survive -------------------------------------

  /** The documentation promises that the most recent context always survives.  It does
      exactly when the last message alone is within the character bound; otherwise the
      whole window is empty. */
  lemma RecentContextSurvivesExactly(messages: seq<Message>, window: seq<Message>)
    requires IsWindow(messages, window) && messages != []
    ensures var last := messages[|messages| - 1];
            && (last in window <==> |last.content| <= 16_000)
            && (window == [] <==> |last.content| > 16_000)
            && (window != [] ==> window[|window| - 1] == last)
  {
    var n, start := |messages|, |messages| - |window|;
    var last := messages[n - 1];
    assert messages[n - 1..] == [last] && Chars([last]) == |last.content|;
    hide Chars;
    if window != [] {
      CharsShrink(messages, start, n - 1);
      assert window[|window| - 1] == last;
    } else {
      assert !Fits(messages, n - 1);
    }
  }

  const OVERLONG: string := seq(HISTORY_MAX_CHARS + 1, _ => 'a')

  /** A stored, complete user turn with one valid text block of 16,001 characters. */
  const OVERLONG_TURN := Turn("turn_00000001", "conv_00000001", User, Ordinary, Complete, TurnLineage(None, 0, Initial),
                              [ContentBlock(Text, OVERLONG)], "", SEND_REDACTION, [], 0, Some(0), false)

  lemma OverlongNamesOk()
    ensures TurnIdOk("turn_00000001") && ConversationIdOk("conv_00000001")
  {
    assert "turn_00000001"[5..] == "00000001" == "conv_00000001"[5..];
  }

  lemma SendRedactionOk()
    ensures RedactionOk(SEND_REDACTION)
  { }

  lemma OverlongTurnOk()
    ensures TurnOk(OVERLONG_TURN)
  {
    hide TurnIdOk, ConversationIdOk, RedactionOk;
    OverlongNamesOk();
    SendRedactionOk();
  }

  /** A valid turn that a read lists and that leaves nothing in the window. */
  lemma OverlongTurnIsLost(window: seq<Message>)
    requires IsWindow(MessagesOf([OVERLONG_TURN]), window)
    ensures TurnOk(OVERLONG_TURN) && |OVERLONG| == 16_001
    ensures MessagesOf([OVERLONG_TURN]) == [Message(User, OVERLONG)] && window == []
  {
    hide TurnOk, IsWindow;
    OverlongTurnOk();
    assert OVERLONG_TURN.content[1..] == [];
    assert TextOf(OVERLONG_TURN.content) == OVERLONG + "" == OVERLONG;
    assert [OVERLONG_TURN][..0] == [];
    assert MessagesOf([OVERLONG_TURN]) == [Message(User, OVERLONG)];
    hide MessagesOf, TextOf;
    RecentContextSurvivesExactly(MessagesOf([OVERLONG_TURN]), window);
  }
}
