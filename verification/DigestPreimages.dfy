/** The byte strings that contract digests are computed over: a kind's prefix, ending in
    a NUL byte, and the canonical JSON of the payload (workbench/contracts.py). */
module DigestPreimages {
  import opened Outcomes
  import opened CanonicalJson

  datatype Kind =
    | Operation | Catalog | Profile | Workflow | WorkflowSnapshot | Skill | ApprovalPayload | StateSnapshot | PrdContent
    | SettingsDescriptor | AdvancedPreset | AdvancedTemplate | DeliverIntent | PluginCatalog | Plugin | PluginCapability
    | PluginRequest | PreferenceOperation

  /** `_PREFIXES`, the closing NUL aside. */
  function Domain(k: Kind): string { "anvil-workbench/" + Label(k) }

  function Label(k: Kind): string
  {
    match k
    case Operation => "operation/v1"
    case Catalog => "catalog/v1"
    case Profile => "capability-profile/v1"
    case Workflow => "workflow/v2"
    case WorkflowSnapshot => "workflow-snapshot/v1"
    case Skill => "skill/v1"
    case ApprovalPayload => "approval-payload/v1"
    case StateSnapshot => "state-snapshot/v1"
    case PrdContent => "prd-content/v1"
    case SettingsDescriptor => "settings-descriptor/v1"
    case AdvancedPreset => "advanced-preset/v1"
    case AdvancedTemplate => "advanced-template/v1"
    case DeliverIntent => "deliver-intent/v1"
    case PluginCatalog => "plugin-catalog/v1"
    case Plugin => "plugin/v1"
    case PluginCapability => "plugin-capability/v1"
    case PluginRequest => "plugin-request/v1"
    case PreferenceOperation => "preference-operation/v1"
  }

  function Prefix(k: Kind): seq<Byte> { Utf8(Points(Domain(k))) + [0] }

  /** What is hashed for one resource. */
  function Preimage(k: Kind, payload: Py): Result<seq<Byte>, EncodeError>
  {
    var encoded := Encode(payload);
    if encoded.Err? then encoded else Ok(Prefix(k) + encoded.value)
  }

  // -- no two kinds share a prefix ------------------------------------------------------

  /** The length and one character tell all the labels apart. */
  function Mark(k: Kind): (nat, char)
  {
    match k
    case Operation => (12, 'o')
    case Catalog => (10, '/')
    case Profile => (21, 'i')
    case Workflow => (11, 'w')
    case WorkflowSnapshot => (20, 'w')
    case Skill => (8, '1')
    case ApprovalPayload => (19, 'l')
    case StateSnapshot => (17, 'n')
    case PrdContent => (14, 't')
    case SettingsDescriptor => (22, 's')
    case AdvancedPreset => (18, 'd')
    case AdvancedTemplate => (20, 'd')
    case DeliverIntent => (17, '-')
    case PluginCatalog => (17, 'c')
    case Plugin => (9, 'v')
    case PluginCapability => (20, 'c')
    case PluginRequest => (17, 'r')
    case PreferenceOperation => (23, 'n')
  }

  lemma LabelMark(k: Kind)
    ensures |Label(k)| == Mark(k).0 && |Label(k)| > 7 && Label(k)[7] == Mark(k).1
  { }

  lemma MarksDiffer(j: Kind, k: Kind)
    requires Mark(j) == Mark(k)
    ensures j == k
  { }

  ghost predicate NulFree(s: seq<Byte>) { forall i | 0 <= i < |s| :: s[i] != 0 }

  predicate Plain(s: string) { forall c | c in s :: 0 < c as int < 128 }

  lemma ShortPlain(k: Kind)
    requires k.Operation? || k.Catalog? || k.Workflow? || k.Skill? || k.Plugin?
    ensures Plain(Label(k))
  { }

  lemma MiddlePlain(k: Kind)
    requires k.StateSnapshot? || k.PrdContent? || k.DeliverIntent?
    ensures Plain(Label(k))
  { }

  lemma PluginPlain(k: Kind)
    requires k.PluginCatalog? || k.PluginRequest? || k.PluginCapability?
    ensures Plain(Label(k))
  { }

  lemma ProfilePlain()
    ensures Plain(Label(Profile))
  { }

  lemma AdvancedPlain(k: Kind)
    requires k.AdvancedTemplate? || k.AdvancedPreset?
    ensures Plain(Label(k))
  { }

  lemma LongestPlain(k: Kind)
    requires k.SettingsDescriptor? || k.PreferenceOperation?
    ensures Plain(Label(k))
  { }

  lemma LongPlain(k: Kind)
    requires k.ApprovalPayload? || k.WorkflowSnapshot?
    ensures Plain(Label(k))
  { }

  lemma DomainPlain(k: Kind)
    ensures Plain(Domain(k))
  {
    hide Label;
    match k
    case Operation | Catalog | Workflow | Skill | Plugin => ShortPlain(k);
    case StateSnapshot | PrdContent | DeliverIntent => MiddlePlain(k);
    case PluginCatalog | PluginRequest | PluginCapability => PluginPlain(k);
    case Profile => ProfilePlain();
    case ApprovalPayload | WorkflowSnapshot => LongPlain(k);
    case AdvancedPreset | AdvancedTemplate => AdvancedPlain(k);
    case _ => LongestPlain(k);
  }

  lemma {:induction false} Utf8NulFree(t: Text)
    requires forall i | 0 <= i < |t| :: 0 < t[i] < 128
    ensures NulFree(Utf8(t))
  {
    if t != [] {
      assert forall i | 0 <= i < |t[1..]| :: 0 < t[1..][i] < 128;
      Utf8NulFree(t[1..]);
    }
  }

  lemma PlainNulFree(s: string)
    requires Plain(s)
    ensures NulFree(Utf8(Points(s)))
  {
    forall i | 0 <= i < |Points(s)| ensures 0 < Points(s)[i] < 128 { assert s[i] in s; }
    Utf8NulFree(Points(s));
  }

  lemma NulEnds(a: seq<Byte>, b: seq<Byte>, x: seq<Byte>, y: seq<Byte>)
    requires NulFree(a) && NulFree(b) && (a + [0]) + x == (b + [0]) + y
    ensures a == b && x == y
  {
    var u := (a + [0]) + x;
    assert u[|a|] == 0 && u[|b|] == 0;
    assert forall i | 0 <= i < |a| :: u[i] == a[i];
    assert forall i | 0 <= i < |b| :: u[i] == b[i];
    assert a == u[..|a|] && b == u[..|b|] && x == u[|a| + 1..] && y == u[|b| + 1..];
  }

  /** The prefixes are prefix-free: whatever follows them, different kinds differ. */
  lemma PrefixFree(j: Kind, k: Kind, x: seq<Byte>, y: seq<Byte>)
    requires Prefix(j) + x == Prefix(k) + y
    ensures j == k && x == y
  {
    hide Label, Utf8, Mark;
    DomainPlain(j);
    DomainPlain(k);
    PlainNulFree(Domain(j));
    PlainNulFree(Domain(k));
    NulEnds(Utf8(Points(Domain(j))), Utf8(Points(Domain(k))), x, y);
    Utf8Injective(Points(Domain(j)), Points(Domain(k)));
    PointsInjective(Domain(j), Domain(k));
    LabelMark(j);
    LabelMark(k);
    assert Domain(j)[16..] == Label(j) && Domain(k)[16..] == Label(k);
    MarksDiffer(j, k);
  }

  /** Two resources are hashed over the same bytes only if they are of the same kind and
      have the same canonical payload. */
  lemma PreimagesAgreeExactly(j: Kind, k: Kind, a: Py, b: Py)
    requires Dictionaries(a) && Dictionaries(b) && Preimage(j, a).Ok? && Preimage(k, b).Ok?
    ensures Preimage(j, a) == Preimage(k, b) <==> j == k && Same(a, b)
  {
    hide Prefix, Encode;
    EncodeInjective(a, b);
    if Preimage(j, a) == Preimage(k, b) { PrefixFree(j, k, Encode(a).value, Encode(b).value); }
  }
}
