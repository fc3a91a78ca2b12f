/** Conversations, turns and the append gate (workbench/conversation_models.py).

    Enumerated strings become datatypes.  Where the original accepts an arbitrary
    string and refuses it, the datatype has an extra constructor `Unlisted` that
    stands for every string outside the allowlist.  Instants are integers.
    A constructor that would raise is a `...Ok` predicate that is false. */
module ConversationModels {
  import opened Outcomes

  type Id = string

  const MAX_CONTENT_BLOCKS := 64
  const MAX_CONTENT_TEXT_CHARS := 20000
  const MAX_VOICE_EVENTS := 64
  const MAX_SIBLING_INDEX := 4096
  const MAX_TITLE_CHARS := 200
  const MAX_TAGS := 32

  // -- identifiers -------------------------------------------------------

  predicate WordChar(c: char)
  {
    'a' <= c <= 'z' || 'A' <= c <= 'Z' || '0' <= c <= '9' || c == '_' || c == '-'
  }

  predicate LowerTokenChar(c: char)
  {
    'a' <= c <= 'z' || '0' <= c <= '9' || c == '.' || c == '_' || c == '-'
  }

  /** What a final `$` leaves to be matched: it also matches before one trailing newline. */
  function BeforeDollar(s: string): string
  {
    if s != "" && s[|s| - 1] == '\n' then s[..|s| - 1] else s
  }

  predicate PrefixedId(prefix: string, s: string)
  {
    var t := BeforeDollar(s);
    prefix <= t && 8 <= |t| - |prefix| <= 128 && forall c | c in t[|prefix|..] :: WordChar(c)
  }

  predicate ConversationIdOk(s: Id) { PrefixedId("conv_", s) }

  predicate TurnIdOk(s: Id) { PrefixedId("turn_", s) }

  /** A lower-case label: first character restricted, bounded length. */
  predicate TokenOk(s: string, letterFirst: bool, minChars: nat, maxChars: nat)
  {
    var t := BeforeDollar(s);
    && 1 <= minChars <= |t| <= maxChars
    && ('a' <= t[0] <= 'z' || (!letterFirst && '0' <= t[0] <= '9'))
    && forall c | c in t :: LowerTokenChar(c)
  }

  predicate OrgTokenOk(s: string) { TokenOk(s, false, 1, 64) }

  ghost predicate IdBody(body: string)
  {
    8 <= |body| <= 128 && forall c | c in body :: 'a' <= c <= 'z' || 'A' <= c <= 'Z' || '0' <= c <= '9' || c in {'_', '-'}
  }

  lemma PrefixedIs(prefix: string, s: string)
    ensures PrefixedId(prefix, s) <==> exists body :: IdBody(body) && (s == prefix + body || s == prefix + body + "\n")
  {
    hide IdBody;
    var t := BeforeDollar(s);
    DollarIs(s);
    if PrefixedId(prefix, s) {
      assert IdBody(t[|prefix|..]) by { BodyIs(t[|prefix|..]); }
      assert t == prefix + t[|prefix|..];
    }
    if body :| IdBody(body) && (s == prefix + body || s == prefix + body + "\n") {
      NoNewline(body);
      assert body != "" by { BodyIs(body); }
      assert (prefix + body)[|prefix + body| - 1] == body[|body| - 1];
      assert t == prefix + body;
      assert t[|prefix|..] == body;
      BodyIs(body);
    }
  }

  lemma BodyIs(body: string)
    ensures IdBody(body) <==> 8 <= |body| <= 128 && forall c | c in body :: WordChar(c)
  { }

  lemma NoNewline(body: string)
    requires IdBody(body)
    ensures '\n' !in body
  { }

  lemma DollarIs(s: string)
    ensures BeforeDollar(s) == s || s == BeforeDollar(s) + "\n"
    ensures s == "" || s[|s| - 1] != '\n' ==> BeforeDollar(s) == s
    ensures s != "" && s[|s| - 1] == '\n' ==> BeforeDollar(s) == s[..|s| - 1]
  { }

  /** An id is its prefix and 8 to 128 word characters, and the pattern lets one newline follow. */
  lemma IdsExactly(s: string)
    ensures TurnIdOk(s) <==> exists body :: IdBody(body) && (s == "turn_" + body || s == "turn_" + body + "\n")
    ensures ConversationIdOk(s) <==> exists body :: IdBody(body) && (s == "conv_" + body || s == "conv_" + body + "\n")
  {
    PrefixedIs("turn_", s);
    PrefixedIs("conv_", s);
    hide PrefixedId, IdBody;
  }

  ghost predicate TokenBody(t: string, letterFirst: bool, minChars: nat, maxChars: nat)
  {
    && 1 <= minChars <= |t| <= maxChars && ('a' <= t[0] <= 'z' || (!letterFirst && '0' <= t[0] <= '9'))
    && forall c | c in t :: 'a' <= c <= 'z' || '0' <= c <= '9' || c in {'.', '_', '-'}
  }

  lemma TokenIs(s: string, letterFirst: bool, minChars: nat, maxChars: nat)
    ensures TokenOk(s, letterFirst, minChars, maxChars)
            <==> exists t :: TokenBody(t, letterFirst, minChars, maxChars) && (s == t || s == t + "\n")
  {
    DollarIs(s);
    var t := BeforeDollar(s);
    assert TokenOk(s, letterFirst, minChars, maxChars) <==> TokenBody(t, letterFirst, minChars, maxChars);
    if u :| TokenBody(u, letterFirst, minChars, maxChars) && (s == u || s == u + "\n") {
      assert '\n' !in u;
      assert u[|u| - 1] in u;
      assert t == u;
    }
    hide TokenBody;
  }

  /** A tag or folder is a lower-case token of up to 64 characters; a policy id begins with a
      letter. */
  lemma TokensExactly(s: string, r: RetentionPolicy)
    ensures OrgTokenOk(s) <==> exists t :: TokenBody(t, false, 1, 64) && (s == t || s == t + "\n")
    ensures RetentionPolicyOk(r) <==>
              && (exists t :: TokenBody(t, true, 1, 64) && (r.policyId == t || r.policyId == t + "\n"))
              && (r.transcriptText == RetainedRedacted || r.transcriptText == MetadataOnly)
              && (r.voiceTranscriptText == RetainedRedacted || r.voiceTranscriptText == MetadataOnly)
  {
    TokenIs(s, false, 1, 64);
    TokenIs(r.policyId, true, 1, 64);
    hide TokenOk, TokenBody;
  }

  // -- conversations -----------------------------------------------------

  datatype Actor = Actor(actorId: string)

  datatype Retain = RetainedRedacted | MetadataOnly | Unlisted(text: string)

  datatype RetentionPolicy = RetentionPolicy(
    policyId: string, transcriptText: Retain, voiceTranscriptText: Retain, deleteAfter: Option<int>)

  predicate RetentionPolicyOk(r: RetentionPolicy)
  {
    TokenOk(r.policyId, true, 1, 64) && !r.transcriptText.Unlisted? && !r.voiceTranscriptText.Unlisted?
  }

  datatype DeletionMode = PurgeContentKeepTombstone | PurgeAllRecords | Unlisted(text: string)

  datatype Deletion = Deletion(requestedAt: int, mode: DeletionMode, completedAt: Option<int>)

  datatype ConversationStatus = Active | Archived | DeletionPending | Deleted

  /** A sorted tuple of unique tags is the same information as a set of tags. */
  datatype Conversation = Conversation(
    id: Id, actor: Actor, retention: RetentionPolicy, status: ConversationStatus,
    title: Option<string>, pinned: bool, tags: set<string>, folder: Option<string>,
    deletion: Option<Deletion>, createdAt: int, updatedAt: int)

  predicate ConversationOk(c: Conversation)
  {
    && ConversationIdOk(c.id)
    && RetentionPolicyOk(c.retention)
    && (c.title.Some? ==> |c.title.value| <= MAX_TITLE_CHARS)
    && (forall tag | tag in c.tags :: OrgTokenOk(tag))
    && |c.tags| <= MAX_TAGS
    && (c.folder.Some? ==> OrgTokenOk(c.folder.value))
    && (c.status in {DeletionPending, Deleted} <==> c.deletion.Some?)
    && (c.deletion.Some? ==> !c.deletion.value.mode.Unlisted?)
    && (c.status == Deleted ==> c.title.None? && !c.pinned && c.tags == {} && c.folder.None?)
  }

  // -- turns -------------------------------------------------------------

  datatype Role = User | Assistant | Unlisted(text: string)
  datatype Mode = Ordinary | Advanced | Unlisted(text: string)
  datatype TurnStatus = Streaming | Complete | Interrupted | Cancelled | Failed | Unlisted(text: string)
  datatype LineageKind = Initial | Retry | Branch | Unlisted(text: string)
  datatype BlockKind = Text | Transcript | Summary | Unlisted(text: string)
  datatype VoiceKind = UtteranceStart | SttCommit | TtsStart | TtsStop | Interruption | Unlisted(text: string)
  datatype RedactionStatus = Redacted | WithheldText | Unlisted(text: string)

  datatype ContentBlock = ContentBlock(kind: BlockKind, text: string)
  datatype VoiceEvent = VoiceEvent(event: VoiceKind, at: int, durationMs: Option<int>, transcriptChars: Option<int>)
  datatype Redaction = Redaction(status: RedactionStatus, ruleset: string)
  datatype TurnLineage = TurnLineage(parent: Option<Id>, sibling: int, kind: LineageKind)

  /** The keyed fingerprint of a turn's content: a function of the content for one key. */
  type Fingerprint = seq<ContentBlock> -> string

  datatype Turn = Turn(
    id: Id, conversationId: Id, role: Role, mode: Mode, status: TurnStatus, lineage: TurnLineage,
    content: seq<ContentBlock>, contentHash: string, redaction: Redaction, voice: seq<VoiceEvent>,
    createdAt: int, completedAt: Option<int>, purged: bool)

  predicate Terminal(s: TurnStatus) { s in {Complete, Interrupted, Cancelled, Failed} }

  predicate LineageOk(l: TurnLineage)
  {
    && (l.parent.Some? ==> TurnIdOk(l.parent.value))
    && 0 <= l.sibling <= MAX_SIBLING_INDEX
    && !l.kind.Unlisted?
    && (l.kind != Initial ==> l.parent.Some?)
  }

  predicate ContentBlockOk(b: ContentBlock)
  {
    !b.kind.Unlisted? && |b.text| <= MAX_CONTENT_TEXT_CHARS
  }

  predicate VoiceEventOk(v: VoiceEvent)
  {
    && !v.event.Unlisted?
    && (v.durationMs.Some? ==> 0 <= v.durationMs.value <= 3_600_000)
    && (v.transcriptChars.Some? ==> 0 <= v.transcriptChars.value <= 100_000)
  }

  predicate RedactionOk(r: Redaction)
  {
    !r.status.Unlisted? && TokenOk(r.ruleset, true, 2, 128)
  }

  predicate TurnOk(t: Turn)
  {
    && TurnIdOk(t.id) && ConversationIdOk(t.conversationId)
    && !t.role.Unlisted? && !t.mode.Unlisted? && !t.status.Unlisted?
    && LineageOk(t.lineage) && RedactionOk(t.redaction)
    && |t.content| <= MAX_CONTENT_BLOCKS && (forall b | b in t.content :: ContentBlockOk(b))
    && |t.voice| <= MAX_VOICE_EVENTS && (forall v | v in t.voice :: VoiceEventOk(v))
    && t.lineage.parent != Some(t.id)
    && (t.purged ==> t.content == [])
    && (t.redaction.status == WithheldText ==> t.content == [])
    && (t.status == Streaming <==> t.completedAt.None?)
  }

  function PurgeTurnContent(t: Turn): Turn
  {
    if t.purged then t else t.(content := [], purged := true)
  }

  // -- the append gate ---------------------------------------------------

  datatype GateError =
    | WrongConversation | ConversationNotActive | DuplicateTurnId | SecondRoot
    | ParentElsewhere | ParentMissing | LineageCycle | LineageBroken
    | SiblingTaken | RetentionForbids

  /** The turns that belong to one conversation, in order. */
  function Own(existing: seq<Turn>, cid: Id): seq<Turn>
  {
    if existing == [] then []
    else if existing[0].conversationId == cid then [existing[0]] + Own(existing[1..], cid)
    else Own(existing[1..], cid)
  }

  /** `{turn.id: turn for turn in own}`: a later turn replaces an earlier one. */
  function ById(own: seq<Turn>): map<Id, Turn>
  {
    if own == [] then map[]
    else var last := own[|own| - 1]; ById(own[..|own| - 1])[last.id := last]
  }

  /** Climb from `cursor` to a root in at most `bound` steps, or say why not. */
  function AncestorWalk(byId: map<Id, Turn>, bound: nat, cursor: Option<Id>, steps: nat): Option<GateError>
    requires steps <= bound
    decreases bound - steps
  {
    if cursor.None? then None
    else if steps + 1 > bound then Some(LineageCycle)
    else if cursor.value !in byId then Some(LineageBroken)
    else AncestorWalk(byId, bound, byId[cursor.value].lineage.parent, steps + 1)
  }

  function LineageVerdict(existing: seq<Turn>, own: seq<Turn>, parent: Option<Id>): Option<GateError>
  {
    if parent.None? then
      if exists t :: t in own && t.lineage.parent.None? then Some(SecondRoot) else None
    else if parent.value !in ById(own) then
      if exists t :: t in existing && t.id == parent.value then Some(ParentElsewhere) else Some(ParentMissing)
    else AncestorWalk(ById(own), |own|, parent, 0)
  }

  predicate SiblingFree(own: seq<Turn>, parent: Option<Id>, sibling: int)
  {
    forall t | t in own :: !(t.lineage.parent == parent && t.lineage.sibling == sibling)
  }

  predicate VoiceGoverned(t: Turn)
  {
    exists v | v in t.voice :: v.event in {UtteranceStart, SttCommit}
  }

  function GoverningRetain(r: RetentionPolicy, t: Turn): Retain
  {
    if VoiceGoverned(t) then r.voiceTranscriptText else r.transcriptText
  }

  predicate RetentionAllows(r: RetentionPolicy, t: Turn)
  {
    forall b | b in t.content :: b.kind == Transcript ==> GoverningRetain(r, t) == RetainedRedacted
  }

  function GateVerdict(conv: Conversation, existing: seq<Turn>, turn: Turn): Result<Turn, GateError>
  {
    var own := Own(existing, conv.id);
    if turn.conversationId != conv.id then Err(WrongConversation)
    else if conv.status != Active then Err(ConversationNotActive)
    else if exists t :: t in existing && t.id == turn.id then Err(DuplicateTurnId)
    else
      var lineage := LineageVerdict(existing, own, turn.lineage.parent);
      if lineage.Some? then Err(lineage.value)
      else if !SiblingFree(own, turn.lineage.parent, turn.lineage.sibling) then Err(SiblingTaken)
      else if !RetentionAllows(conv.retention, turn) then Err(RetentionForbids)
      else Ok(turn)
  }

  /** `validate_turn_append`: the checks in the order the original makes them,
      with its ancestor walk and its scan of the content blocks as loops. */
  method ValidateTurnAppend(conv: Conversation, existing: seq<Turn>, turn: Turn)
    returns (r: Result<Turn, GateError>)
    ensures r == GateVerdict(conv, existing, turn)
  {
    if turn.conversationId != conv.id { return Err(WrongConversation); }
    if conv.status != Active { return Err(ConversationNotActive); }
    var own := Own(existing, conv.id);
    if exists t :: t in existing && t.id == turn.id { return Err(DuplicateTurnId); }
    var parent := turn.lineage.parent;
    if parent.None? {
      if exists t :: t in own && t.lineage.parent.None? { return Err(SecondRoot); }
    } else {
      var ownById := IndexById(own);
      if parent.value !in ownById {
        if exists t :: t in existing && t.id == parent.value { return Err(ParentElsewhere); }
        return Err(ParentMissing);
      }
      var cursor, steps := parent, 0;
      while cursor.Some?
        invariant 0 <= steps <= |own|
        invariant AncestorWalk(ownById, |own|, parent, 0) == AncestorWalk(ownById, |own|, cursor, steps)
        decreases |own| - steps, if cursor.Some? then 1 else 0
      {
        if steps + 1 > |own| { return Err(LineageCycle); }
        if cursor.value !in ownById { return Err(LineageBroken); }
        cursor, steps := ownById[cursor.value].lineage.parent, steps + 1;
      }
    }
    if !SiblingFree(own, parent, turn.lineage.sibling) { return Err(SiblingTaken); }
    var governing := GoverningRetain(conv.retention, turn);
    for i := 0 to |turn.content|
      invariant forall j :: 0 <= j < i && turn.content[j].kind == Transcript ==> governing == RetainedRedacted
    {
      if turn.content[i].kind == Transcript && governing != RetainedRedacted {
        assert turn.content[i] in turn.content;
        return Err(RetentionForbids);
      }
    }
    r := Ok(turn);
  }

  method IndexById(own: seq<Turn>) returns (byId: map<Id, Turn>)
    ensures byId == ById(own)
  {
    byId := map[];
    for i := 0 to |own|
      invariant byId == ById(own[..i])
    {
      assert own[..i + 1][..i] == own[..i];
      byId := byId[own[i].id := own[i]];
    }
    assert own[..|own|] == own;
  }
}
