/** Normalising a contract resource before it is digested (`canonical_contract_payload` in
    workbench/contracts.py): volatile fields dropped, set-like lists sorted. */
module CanonicalPayload {
  import opened Outcomes
  import opened Sequences
  import StableSort
  import opened CanonicalJson
  import opened DigestPreimages

  /** `str(value)` of a value that is not a string. */
  type Shown = Py -> Text

  /** One component of a sort key. */
  datatype KeyPart = Member(name: string) | MemberOfRef(name: string) | Itself

  /** What becomes of one field. */
  datatype Shape =
    | AsIs
    | SortedBy(parts: seq<KeyPart>)
    /** an object whose own fields have shapes */
    | Within(inner: Within)
    /** sorted by plugin, each entry's tool list sorted as well */
    | Allowlist

  datatype Within = DeliverSelections

  datatype PayloadError = NotAnObject | NotSortable

  function Excluded(k: Kind): seq<string>
  {
    match k
    case Operation => ["operation_digest"]
    case Catalog => ["catalog_digest", "generated_at"]
    case Profile | Workflow | Skill | PluginCapability => ["digest"]
    case WorkflowSnapshot => ["snapshot_digest"]
    case StateSnapshot => ["snapshot_digest", "generated_at"]
    case PrdContent => ["content_digest", "generated_at"]
    case SettingsDescriptor => ["catalog_digest"]
    case AdvancedPreset => ["preset_digest", "repair"]
    case AdvancedTemplate => ["template_digest", "updated_at", "repair"]
    case DeliverIntent => ["intent_digest"]
    case PluginCatalog => ["catalog_digest", "generated_at"]
    case Plugin => ["plugin_digest"]
    case PluginRequest => ["request_digest"]
    case ApprovalPayload | PreferenceOperation => []
  }

  const PROFILE_OPERATION := [Member("provider"), Member("id"), Member("contract_version"), Member("operation_digest")]

  function ProfileShape(field: Text): Shape
  {
    if field == Points("operations") then SortedBy(PROFILE_OPERATION)
    else if field == Points("model_profiles") || field == Points("approval_actions") then SortedBy([Itself])
    else if field == Points("skills") then SortedBy([Member("id"), Member("digest")])
    else AsIs
  }

  function ShapeOf(k: Kind, field: Text): Shape
  {
    match k
    case Catalog =>
      if field == Points("operations") then SortedBy([Member("id"), Member("contract_version"), Member("operation_digest")]) else AsIs
    case Profile => ProfileShape(field)
    case WorkflowSnapshot => if field == Points("catalogs") then SortedBy([Member("provider")]) else ProfileShape(field)
    case StateSnapshot =>
      if field == Points("prds") then SortedBy([Member("prd_id")])
      else if field == Points("tasks") then SortedBy([MemberOfRef("prd_id"), MemberOfRef("task_id")])
      else AsIs
    case SettingsDescriptor => if field == Points("settings") then SortedBy([Member("id")]) else AsIs
    case AdvancedPreset =>
      if field == Points("control_values") then SortedBy([Member("name")])
      else if field == Points("tools") then SortedBy([Member("tool_id")])
      else AsIs
    case AdvancedTemplate => if field == Points("substitutions") then SortedBy([Member("name")]) else AsIs
    case DeliverIntent => if field == Points("selections") then Within(DeliverSelections) else AsIs
    case PluginCatalog => if field == Points("plugins") then SortedBy([Member("id"), Member("plugin_digest")]) else AsIs
    case PluginCapability => if field == Points("plugins") then Allowlist else AsIs
    case _ => AsIs
  }

  const SELECTED_CATALOG := [Member("provider"), Member("digest")]

  function SelectionShape(field: Text): Shape
  {
    if field == Points("catalogs") then SortedBy(SELECTED_CATALOG)
    else if field == Points("skills") then SortedBy([Member("id"), Member("digest")])
    else AsIs
  }

  // -- sorting -------------------------------------------------------------------------

  function Get(entries: seq<PyEntry>, name: string): Option<Py>
  {
    if entries == [] then None
    else if entries[0].key == StrKey(Points(name)) then Some(entries[0].value)
    else Get(entries[1..], name)
  }

  /** `str(item.get(name, ""))` */
  function Text1(show: Shown, item: Py, name: string): Text
  {
    if !item.PyDict? then []
    else
      var v := Get(item.entries, name);
      if v.None? then [] else if v.value.PyStr? then v.value.text else show(v.value)
  }

  function PartText(show: Shown, item: Py, part: KeyPart): Text
  {
    match part
    case Member(name) => Text1(show, item, name)
    case MemberOfRef(name) =>
      if item.PyDict? && Get(item.entries, "ref").Some? then Text1(show, Get(item.entries, "ref").value, name) else []
    case Itself => if item.PyStr? then item.text else show(item)
  }

  function KeyTexts(show: Shown, item: Py, parts: seq<KeyPart>): seq<Text>
  {
    seq(|parts|, i requires 0 <= i < |parts| => PartText(show, item, parts[i]))
  }

  function ItemKey(show: Shown, parts: seq<KeyPart>): Py -> seq<Text>
  {
    item => KeyTexts(show, item, parts)
  }

  /** Tuples of strings compare component by component. */
  predicate TupleLess(a: seq<Text>, b: seq<Text>)
  {
    if a == [] then b != []
    else b != [] && (Before(a[0], b[0]) || (a[0] == b[0] && TupleLess(a[1..], b[1..])))
  }

  /** Whether the items have what the sort key asks for: `get`, or being a string. */
  predicate Sortable(items: seq<Py>, parts: seq<KeyPart>)
  {
    forall i | 0 <= i < |items| ::
      if Itself in parts then items[i].PyStr? else items[i].PyDict?
  }

  function SortItems(show: Shown, items: seq<Py>, parts: seq<KeyPart>): seq<Py>
  {
    StableSort.Sort(items, ItemKey(show, parts), TupleLess)
  }

  /** A field with a set-like list is sorted; anything but a list is left as it is. */
  function NormalList(show: Shown, v: Py, parts: seq<KeyPart>): Result<Py, PayloadError>
  {
    if !v.PyList? then Ok(v)
    else if !Sortable(v.items, parts) then Err(NotSortable)
    else Ok(PyList(SortItems(show, v.items, parts)))
  }

  // -- nested shapes ----------------------------------------------------------------------

  const ENABLED_TOOLS := "enabled_tools"

  /** `sorted(tools, key=str)` of one allowlist entry */
  function NormalTools(show: Shown, e: PyEntry): PyEntry
  {
    if e.key == StrKey(Points(ENABLED_TOOLS)) && e.value.PyList?
    then PyEntry(e.key, PyList(SortItems(show, e.value.items, [Itself]))) else e
  }

  function NormalPlugin(show: Shown, item: Py): Py
  {
    if item.PyDict?
    then PyDict(seq(|item.entries|, i requires 0 <= i < |item.entries| => NormalTools(show, item.entries[i])))
    else item
  }

  const PLUGIN_KEY := [Member("plugin_id"), Member("plugin_digest")]

  function NormalAllowlist(show: Shown, v: Py): Result<Py, PayloadError>
  {
    if !v.PyList? then Ok(v)
    else if !Sortable(v.items, PLUGIN_KEY) then Err(NotSortable)
    else
      var sorted := SortItems(show, v.items, PLUGIN_KEY);
      Ok(PyList(seq(|sorted|, i requires 0 <= i < |sorted| => NormalPlugin(show, sorted[i]))))
  }

  // -- a whole resource --------------------------------------------------------------------

  type EntryRule = PyEntry -> Result<PyEntry, PayloadError>

  /** Every entry by its rule, or the first refusal. */
  function MapEntries(rule: EntryRule, entries: seq<PyEntry>): Result<seq<PyEntry>, PayloadError>
  {
    if entries == [] then Ok([])
    else
      var first, rest := rule(entries[0]), MapEntries(rule, entries[1..]);
      if first.Err? then Err(first.error) else if rest.Err? then rest else Ok([first.value] + rest.value)
  }

  function NormalBy(show: Shown, shape: Shape, v: Py): Result<Py, PayloadError>
  {
    match shape
    case SortedBy(parts) => NormalList(show, v, parts)
    case Allowlist => NormalAllowlist(show, v)
    case _ => Ok(v)
  }

  function Rewritten(e: PyEntry, r: Result<Py, PayloadError>): Result<PyEntry, PayloadError>
  {
    if r.Err? then Err(r.error) else Ok(PyEntry(e.key, r.value))
  }

  function FieldName(key: PyKey): Text { if key.StrKey? then key.name else [] }

  function SelectionRule(show: Shown): EntryRule
  {
    (e: PyEntry) => Rewritten(e, NormalBy(show, SelectionShape(FieldName(e.key)), e.value))
  }

  function NormalSelections(show: Shown, v: Py): Result<Py, PayloadError>
  {
    if !v.PyDict? then Ok(v)
    else
      var inner := MapEntries(SelectionRule(show), v.entries);
      if inner.Err? then Err(inner.error) else Ok(PyDict(inner.value))
  }

  function NormalValue(show: Shown, shape: Shape, v: Py): Result<Py, PayloadError>
  {
    if shape.Within? then NormalSelections(show, v) else NormalBy(show, shape, v)
  }

  function FieldRule(show: Shown, k: Kind): EntryRule
  {
    (e: PyEntry) => Rewritten(e, NormalValue(show, ShapeOf(k, FieldName(e.key)), e.value))
  }

  predicate Dropped(k: Kind, key: PyKey)
  {
    exists i | 0 <= i < |Excluded(k)| :: key == StrKey(Points(Excluded(k)[i]))
  }

  /** `_without` */
  function Without(k: Kind, entries: seq<PyEntry>): seq<PyEntry>
  {
    if entries == [] then []
    else if Dropped(k, entries[0].key) then Without(k, entries[1..])
    else [entries[0]] + Without(k, entries[1..])
  }

  function Normalize(show: Shown, k: Kind, v: Py): Result<Py, PayloadError>
  {
    if !v.PyDict? then Err(NotAnObject)
    else
      var r := MapEntries(FieldRule(show, k), Without(k, v.entries));
      if r.Err? then Err(r.error) else Ok(PyDict(r.value))
  }

  // -- normalising is idempotent --------------------------------------------------------------

  lemma TupleLessOrder()
    ensures StableSort.TotalOrder(TupleLess)
  {
    forall a: seq<Text>, b: seq<Text>
      ensures (TupleLess(a, b) ==> !TupleLess(b, a)) && (a == b || TupleLess(a, b) || TupleLess(b, a))
    {
      TupleStrict(a, b);
    }
    forall a: seq<Text>, b: seq<Text>, c: seq<Text> | TupleLess(a, b) && TupleLess(b, c) ensures TupleLess(a, c) {
      TupleTransitive(a, b, c);
    }
  }

  lemma {:induction false} TupleStrict(a: seq<Text>, b: seq<Text>)
    ensures !(TupleLess(a, b) && TupleLess(b, a))
    ensures a != b ==> TupleLess(a, b) || TupleLess(b, a)
  {
    if a != [] && b != [] {
      BeforeIsStrict(a[0], b[0]);
      TupleStrict(a[1..], b[1..]);
      assert a == [a[0]] + a[1..] && b == [b[0]] + b[1..];
    }
  }

  lemma {:induction false} TupleTransitive(a: seq<Text>, b: seq<Text>, c: seq<Text>)
    requires TupleLess(a, b) && TupleLess(b, c)
    ensures TupleLess(a, c)
  {
    if a != [] {
      if Before(a[0], b[0]) && Before(b[0], c[0]) { BeforeTransitive(a[0], b[0], c[0]); }
      else if a[0] == b[0] && b[0] == c[0] { TupleTransitive(a[1..], b[1..], c[1..]); }
    }
  }

  lemma SortedKeepsSortable(show: Shown, items: seq<Py>, parts: seq<KeyPart>)
    requires Sortable(items, parts)
    ensures Sortable(SortItems(show, items, parts), parts)
  {
    var sorted := SortItems(show, items, parts);
    TupleLessOrder();
    StableSort.SortIsStable(items, ItemKey(show, parts), TupleLess);
    hide SortItems;
    forall i | 0 <= i < |sorted| ensures if Itself in parts then sorted[i].PyStr? else sorted[i].PyDict? {
      assert sorted[i] in multiset(items);
      var j :| 0 <= j < |items| && items[j] == sorted[i];
    }
  }

  lemma SortTwice(show: Shown, items: seq<Py>, parts: seq<KeyPart>)
    ensures SortItems(show, SortItems(show, items, parts), parts) == SortItems(show, items, parts)
  {
    TupleLessOrder();
    StableSort.SortIsStable(items, ItemKey(show, parts), TupleLess);
    StableSort.SortOfAscending(SortItems(show, items, parts), ItemKey(show, parts), TupleLess);
  }

  lemma ListTwice(show: Shown, v: Py, parts: seq<KeyPart>)
    requires NormalList(show, v, parts).Ok?
    ensures NormalList(show, NormalList(show, v, parts).value, parts) == NormalList(show, v, parts)
  {
    if v.PyList? {
      SortTwice(show, v.items, parts);
      SortedKeepsSortable(show, v.items, parts);
      hide SortItems;
    }
  }

  // an allowlist: its plugins keep their keys when their tool lists are sorted

  lemma {:induction false} GetUnchanged(show: Shown, entries: seq<PyEntry>, name: string)
    requires Points(name) != Points(ENABLED_TOOLS)
    ensures Get(seq(|entries|, i requires 0 <= i < |entries| => NormalTools(show, entries[i])), name) == Get(entries, name)
  {
    if entries != [] {
      GetUnchanged(show, entries[1..], name);
      var all := seq(|entries|, i requires 0 <= i < |entries| => NormalTools(show, entries[i]));
      assert all[1..] == seq(|entries[1..]|, i requires 0 <= i < |entries[1..]| => NormalTools(show, entries[1..][i]));
      hide SortItems;
    }
  }

  lemma PluginKeyKept(show: Shown, item: Py)
    ensures KeyTexts(show, NormalPlugin(show, item), PLUGIN_KEY) == KeyTexts(show, item, PLUGIN_KEY)
  {
    if item.PyDict? {
      assert "plugin_id" != ENABLED_TOOLS && "plugin_digest" != ENABLED_TOOLS by {
        assert |"plugin_id"| == 9 && |"plugin_digest"| == 13 && |ENABLED_TOOLS| == 13;
        assert "plugin_digest"[0] == 'p' && ENABLED_TOOLS[0] == 'e';
      }
      if Points("plugin_id") == Points(ENABLED_TOOLS) { PointsInjective("plugin_id", ENABLED_TOOLS); }
      if Points("plugin_digest") == Points(ENABLED_TOOLS) { PointsInjective("plugin_digest", ENABLED_TOOLS); }
      GetUnchanged(show, item.entries, "plugin_id");
      GetUnchanged(show, item.entries, "plugin_digest");
      hide Get, NormalTools;
    }
  }

  lemma ToolsTwice(show: Shown, e: PyEntry)
    ensures NormalTools(show, NormalTools(show, e)) == NormalTools(show, e)
  {
    if e.value.PyList? { SortTwice(show, e.value.items, [Itself]); }
    hide SortItems;
  }

  lemma PluginTwice(show: Shown, item: Py)
    ensures NormalPlugin(show, NormalPlugin(show, item)) == NormalPlugin(show, item)
  {
    if item.PyDict? {
      forall i | 0 <= i < |item.entries|
        ensures NormalTools(show, NormalTools(show, item.entries[i])) == NormalTools(show, item.entries[i])
      {
        ToolsTwice(show, item.entries[i]);
      }
      hide NormalTools;
    }
  }

  lemma AllowlistTwice(show: Shown, v: Py)
    requires NormalAllowlist(show, v).Ok?
    ensures NormalAllowlist(show, NormalAllowlist(show, v).value) == NormalAllowlist(show, v)
  {
    if v.PyList? {
      var sorted := SortItems(show, v.items, PLUGIN_KEY);
      var normal := seq(|sorted|, i requires 0 <= i < |sorted| => NormalPlugin(show, sorted[i]));
      SortedKeepsSortable(show, v.items, PLUGIN_KEY);
      TupleLessOrder();
      StableSort.SortIsStable(v.items, ItemKey(show, PLUGIN_KEY), TupleLess);
      forall i | 0 <= i < |sorted|
        ensures KeyTexts(show, normal[i], PLUGIN_KEY) == KeyTexts(show, sorted[i], PLUGIN_KEY)
        ensures NormalPlugin(show, normal[i]) == normal[i]
      {
        PluginKeyKept(show, sorted[i]);
        PluginTwice(show, sorted[i]);
      }
      hide SortItems, KeyTexts, TupleLess;
      AscendingMapped(show, sorted, normal);
      StableSort.SortOfAscending(normal, ItemKey(show, PLUGIN_KEY), TupleLess);
      SortItemsIs(show, normal);
      MappedTwice(show, v, sorted, normal);
    }
  }

  lemma SortItemsIs(show: Shown, items: seq<Py>)
    ensures SortItems(show, items, PLUGIN_KEY) == StableSort.Sort(items, ItemKey(show, PLUGIN_KEY), TupleLess)
  { }

  lemma AscendingMapped(show: Shown, sorted: seq<Py>, normal: seq<Py>)
    requires |sorted| == |normal| && StableSort.Ascending(sorted, ItemKey(show, PLUGIN_KEY), TupleLess)
    requires forall i | 0 <= i < |sorted| :: KeyTexts(show, normal[i], PLUGIN_KEY) == KeyTexts(show, sorted[i], PLUGIN_KEY)
    ensures StableSort.Ascending(normal, ItemKey(show, PLUGIN_KEY), TupleLess)
  {
    hide KeyTexts, TupleLess;
    var key := ItemKey(show, PLUGIN_KEY);
    forall i, j | 0 <= i < j < |normal| ensures !TupleLess(key(normal[j]), key(normal[i])) {
      assert !TupleLess(key(sorted[j]), key(sorted[i]));
    }
  }

  lemma MappedTwice(show: Shown, v: Py, sorted: seq<Py>, normal: seq<Py>)
    requires v.PyList? && Sortable(sorted, PLUGIN_KEY) && SortItems(show, normal, PLUGIN_KEY) == normal
    requires normal == seq(|sorted|, i requires 0 <= i < |sorted| => NormalPlugin(show, sorted[i]))
    requires forall i | 0 <= i < |normal| :: NormalPlugin(show, normal[i]) == normal[i]
    ensures NormalAllowlist(show, PyList(normal)) == Ok(PyList(normal))
  {
    hide SortItems;
    forall i | 0 <= i < |normal| ensures normal[i].PyDict? {
      assert normal[i] == NormalPlugin(show, sorted[i]);
      assert !(Itself in PLUGIN_KEY);
    }
    assert Sortable(normal, PLUGIN_KEY);
    assert seq(|normal|, i requires 0 <= i < |normal| => NormalPlugin(show, normal[i])) == normal;
  }

  // entry by entry

  ghost predicate Settles(rule: EntryRule)
  {
    forall e :: rule(e).Ok? ==> rule(rule(e).value) == rule(e) && rule(e).value.key == e.key
  }

  lemma {:induction false} MapTwice(rule: EntryRule, entries: seq<PyEntry>)
    requires Settles(rule) && MapEntries(rule, entries).Ok?
    ensures MapEntries(rule, MapEntries(rule, entries).value) == MapEntries(rule, entries)
    ensures |MapEntries(rule, entries).value| == |entries|
    ensures forall i | 0 <= i < |entries| :: MapEntries(rule, entries).value[i].key == entries[i].key
  {
    if entries != [] {
      MapTwice(rule, entries[1..]);
      var r := MapEntries(rule, entries).value;
      assert r[1..] == MapEntries(rule, entries[1..]).value;
    }
  }

  lemma SimpleTwice(show: Shown, shape: Shape, v: Py)
    requires NormalBy(show, shape, v).Ok?
    ensures NormalBy(show, shape, NormalBy(show, shape, v).value) == NormalBy(show, shape, v)
  {
    match shape
    case SortedBy(parts) => ListTwice(show, v, parts); hide NormalList;
    case Allowlist => AllowlistTwice(show, v); hide NormalAllowlist;
    case _ =>
  }

  lemma SelectionSettles(show: Shown)
    ensures Settles(SelectionRule(show))
  {
    var rule := SelectionRule(show);
    forall e | rule(e).Ok? ensures rule(rule(e).value) == rule(e) && rule(e).value.key == e.key {
      SimpleTwice(show, SelectionShape(FieldName(e.key)), e.value);
      hide NormalBy, SelectionShape;
    }
  }

  lemma SelectionsTwice(show: Shown, v: Py)
    requires NormalSelections(show, v).Ok?
    ensures NormalSelections(show, NormalSelections(show, v).value) == NormalSelections(show, v)
  {
    if v.PyDict? {
      SelectionSettles(show);
      MapTwice(SelectionRule(show), v.entries);
      hide MapEntries, SelectionRule, Settles;
    }
  }

  lemma ValueTwice(show: Shown, shape: Shape, v: Py)
    requires NormalValue(show, shape, v).Ok?
    ensures NormalValue(show, shape, NormalValue(show, shape, v).value) == NormalValue(show, shape, v)
  {
    if shape.Within? { SelectionsTwice(show, v); } else { SimpleTwice(show, shape, v); }
    hide NormalSelections, NormalBy;
  }

  lemma FieldSettles(show: Shown, k: Kind)
    ensures Settles(FieldRule(show, k))
  {
    var rule := FieldRule(show, k);
    forall e | rule(e).Ok? ensures rule(rule(e).value) == rule(e) && rule(e).value.key == e.key {
      ValueTwice(show, ShapeOf(k, FieldName(e.key)), e.value);
      hide NormalValue, ShapeOf;
    }
  }

  lemma {:induction false} WithoutKeeps(k: Kind, entries: seq<PyEntry>)
    ensures forall i | 0 <= i < |Without(k, entries)| :: !Dropped(k, Without(k, entries)[i].key)
  {
    hide Dropped;
    if entries != [] { WithoutKeeps(k, entries[1..]); }
  }

  lemma {:induction false} WithoutNone(k: Kind, entries: seq<PyEntry>)
    requires forall i | 0 <= i < |entries| :: !Dropped(k, entries[i].key)
    ensures Without(k, entries) == entries
  {
    hide Dropped;
    if entries != [] { WithoutNone(k, entries[1..]); }
  }

  /** Normalising a canonical payload changes nothing. */
  lemma NormalizeIsIdempotent(show: Shown, k: Kind, v: Py)
    requires Normalize(show, k, v).Ok?
    ensures Normalize(show, k, Normalize(show, k, v).value) == Normalize(show, k, v)
  {
    var kept := Without(k, v.entries);
    FieldSettles(show, k);
    MapTwice(FieldRule(show, k), kept);
    WithoutKeeps(k, v.entries);
    hide Without, MapEntries, FieldRule, Settles, Dropped;
    WithoutNone(k, MapEntries(FieldRule(show, k), kept).value);
  }

  // -- what it does not depend on ------------------------------------------------------------------

  lemma PermutedSortable(items: seq<Py>, others: seq<Py>, parts: seq<KeyPart>)
    requires multiset(items) == multiset(others) && Sortable(items, parts)
    ensures Sortable(others, parts)
  {
    forall i | 0 <= i < |others| ensures if Itself in parts then others[i].PyStr? else others[i].PyDict? {
      assert others[i] in multiset(items);
      var j :| 0 <= j < |items| && items[j] == others[i];
    }
  }

  lemma {:induction false} MapSame(rule: EntryRule, entries: seq<PyEntry>, i: nat, e: PyEntry)
    requires i < |entries| && rule(e) == rule(entries[i])
    ensures MapEntries(rule, entries[i := e]) == MapEntries(rule, entries)
  {
    if i > 0 {
      MapSame(rule, entries[1..], i - 1, e);
      assert entries[i := e][1..] == entries[1..][i - 1 := e];
    } else {
      assert entries[0 := e][1..] == entries[1..];
    }
  }

  lemma {:induction false} WithoutSame(k: Kind, rule: EntryRule, entries: seq<PyEntry>, i: nat, e: PyEntry)
    requires i < |entries| && e.key == entries[i].key && (Dropped(k, e.key) || rule(e) == rule(entries[i]))
    ensures MapEntries(rule, Without(k, entries[i := e])) == MapEntries(rule, Without(k, entries))
  {
    hide Dropped;
    if i > 0 {
      assert entries[i := e][1..] == entries[1..][i - 1 := e];
      WithoutSame(k, rule, entries[1..], i - 1, e);
    } else {
      assert entries[0 := e][1..] == entries[1..];
    }
  }

  // the same list, in another order

  /** Two lists of the same elements, told apart by their sort keys. */
  ghost predicate Shuffled(show: Shown, parts: seq<KeyPart>, v: Py, w: Py)
  {
    v.PyList? && w.PyList? && multiset(v.items) == multiset(w.items)
    && StableSort.DistinctKeys(v.items, ItemKey(show, parts))
  }

  /** Two allowlist entries that differ in the order of one tool list. */
  ghost predicate ToolsShuffled(show: Shown, p: Py, q: Py, m: nat)
  {
    p.PyDict? && q.PyDict? && m < |p.entries| && |q.entries| == |p.entries|
    && p.entries[m].key == StrKey(Points(ENABLED_TOOLS))
    && q.entries == p.entries[m := PyEntry(p.entries[m].key, q.entries[m].value)]
    && Shuffled(show, [Itself], p.entries[m].value, q.entries[m].value)
  }

  ghost predicate PluginShuffled(show: Shown, v: Py, w: Py, j: nat, m: nat)
  {
    v.PyList? && w.PyList? && j < |v.items| && |w.items| == |v.items| && w.items == v.items[j := w.items[j]]
    && ToolsShuffled(show, v.items[j], w.items[j], m)
  }

  /** Two selection objects that differ in the order of one list. */
  ghost predicate SelectionShuffled(show: Shown, v: Py, w: Py, m: nat)
  {
    v.PyDict? && w.PyDict? && m < |v.entries| && |w.entries| == |v.entries|
    && w.entries == v.entries[m := PyEntry(v.entries[m].key, w.entries[m].value)]
    && var shape := SelectionShape(FieldName(v.entries[m].key));
       shape.SortedBy? && Shuffled(show, shape.parts, v.entries[m].value, w.entries[m].value)
  }

  /** `w` is `v` with one of its set-like lists permuted, entries with distinct sort keys. */
  ghost predicate Reordered(show: Shown, shape: Shape, v: Py, w: Py)
  {
    match shape
    case AsIs => false
    case SortedBy(parts) => Shuffled(show, parts, v, w)
    case Within(_) => exists m: nat :: SelectionShuffled(show, v, w, m)
    case Allowlist => Shuffled(show, PLUGIN_KEY, v, w) || exists j: nat, m: nat :: PluginShuffled(show, v, w, j, m)
  }

  lemma ShuffledSorts(show: Shown, parts: seq<KeyPart>, v: Py, w: Py)
    requires Shuffled(show, parts, v, w)
    ensures SortItems(show, v.items, parts) == SortItems(show, w.items, parts)
    ensures Sortable(v.items, parts) <==> Sortable(w.items, parts)
  {
    TupleLessOrder();
    StableSort.SortForgetsOrder(v.items, w.items, ItemKey(show, parts), TupleLess);
    if Sortable(v.items, parts) { PermutedSortable(v.items, w.items, parts); }
    if Sortable(w.items, parts) { PermutedSortable(w.items, v.items, parts); }
    hide TupleLess, Sortable;
  }

  lemma ToolsNormalize(show: Shown, p: Py, q: Py, m: nat)
    requires ToolsShuffled(show, p, q, m)
    ensures NormalPlugin(show, p) == NormalPlugin(show, q)
  {
    ShuffledSorts(show, [Itself], p.entries[m].value, q.entries[m].value);
    hide SortItems, Shuffled;
    assert NormalTools(show, p.entries[m]) == NormalTools(show, q.entries[m]);
    forall i | 0 <= i < |p.entries| ensures NormalTools(show, p.entries[i]) == NormalTools(show, q.entries[i]) {
      if i != m { assert q.entries[i] == p.entries[i]; }
    }
    hide NormalTools;
  }

  function PluginNormal(show: Shown): Py -> Py { item => NormalPlugin(show, item) }

  /** Normalising the plugins first and sorting them afterwards gives the same list. */
  lemma AllowlistBySort(show: Shown, items: seq<Py>)
    requires Sortable(items, PLUGIN_KEY)
    ensures NormalAllowlist(show, PyList(items)) == Ok(PyList(SortItems(show, Map(PluginNormal(show), items), PLUGIN_KEY)))
  {
    var f, key := PluginNormal(show), ItemKey(show, PLUGIN_KEY);
    forall y | y in items ensures key(f(y)) == key(y) { PluginKeyKept(show, y); }
    StableSort.SortMapped(items, f, key, TupleLess);
    var sorted := SortItems(show, items, PLUGIN_KEY);
    hide NormalPlugin, KeyTexts, TupleLess, Sortable;
    assert Map(f, sorted) == seq(|sorted|, i requires 0 <= i < |sorted| => NormalPlugin(show, sorted[i]));
  }

  lemma PluginsNormalize(show: Shown, v: Py, w: Py, j: nat, m: nat)
    requires PluginShuffled(show, v, w, j, m)
    ensures NormalAllowlist(show, v) == NormalAllowlist(show, w)
  {
    ToolsNormalize(show, v.items[j], w.items[j], m);
    forall i | 0 <= i < |v.items| ensures v.items[i].PyDict? == w.items[i].PyDict? {
      if i != j { assert w.items[i] == v.items[i]; }
    }
    assert Sortable(v.items, PLUGIN_KEY) <==> Sortable(w.items, PLUGIN_KEY) by { assert !(Itself in PLUGIN_KEY); }
    hide SortItems, NormalPlugin, ToolsShuffled;
    assert Map(PluginNormal(show), v.items) == Map(PluginNormal(show), w.items);
    if Sortable(v.items, PLUGIN_KEY) {
      AllowlistBySort(show, v.items);
      AllowlistBySort(show, w.items);
    }
    hide Sortable;
  }

  lemma SelectionNormalizes(show: Shown, v: Py, w: Py, m: nat)
    requires SelectionShuffled(show, v, w, m)
    ensures NormalSelections(show, v) == NormalSelections(show, w)
  {
    var rule, e := SelectionRule(show), v.entries[m];
    var shape := SelectionShape(FieldName(e.key));
    ShuffledSorts(show, shape.parts, e.value, w.entries[m].value);
    hide SelectionShape, Sortable, SortItems, Shuffled;
    assert rule(w.entries[m]) == rule(e);
    hide SelectionRule;
    MapSame(rule, v.entries, m, w.entries[m]);
  }

  lemma ReorderedNormalizes(show: Shown, shape: Shape, v: Py, w: Py)
    requires Reordered(show, shape, v, w)
    ensures NormalValue(show, shape, v) == NormalValue(show, shape, w)
  {
    match shape
    case SortedBy(parts) =>
      ShuffledSorts(show, parts, v, w);
      hide SortItems, Sortable, Shuffled;
    case Within(_) =>
      var m: nat :| SelectionShuffled(show, v, w, m);
      SelectionNormalizes(show, v, w, m);
      hide SelectionShuffled, NormalSelections;
    case Allowlist =>
      if Shuffled(show, PLUGIN_KEY, v, w) {
        ShuffledSorts(show, PLUGIN_KEY, v, w);
        hide SortItems, Sortable, Shuffled, NormalPlugin;
      } else {
        var j: nat, m: nat :| PluginShuffled(show, v, w, j, m);
        PluginsNormalize(show, v, w, j, m);
        hide NormalAllowlist, PluginShuffled, Shuffled;
      }
  }

  /** The payload is unchanged by editing an excluded field, and by permuting any of its
      set-like lists, nested ones included, whose entries have distinct sort keys. */
  lemma NormalizeIgnores(show: Shown, k: Kind, entries: seq<PyEntry>, i: nat, v: Py)
    requires i < |entries|
    requires Dropped(k, entries[i].key) || Reordered(show, ShapeOf(k, FieldName(entries[i].key)), entries[i].value, v)
    ensures Normalize(show, k, PyDict(entries[i := PyEntry(entries[i].key, v)])) == Normalize(show, k, PyDict(entries))
  {
    var e, rule := PyEntry(entries[i].key, v), FieldRule(show, k);
    hide NormalValue, ShapeOf, Dropped, Reordered;
    if !Dropped(k, entries[i].key) {
      ReorderedNormalizes(show, ShapeOf(k, FieldName(entries[i].key)), entries[i].value, v);
      assert rule(e) == rule(entries[i]);
    }
    WithoutSame(k, rule, entries, i, e);
  }

  lemma {:induction false} MapNothing(rule: EntryRule, entries: seq<PyEntry>)
    requires forall i | 0 <= i < |entries| :: rule(entries[i]) == Ok(entries[i])
    ensures MapEntries(rule, entries) == Ok(entries)
  {
    if entries != [] {
      MapNothing(rule, entries[1..]);
      assert entries == [entries[0]] + entries[1..];
    }
  }

  /** A plugin's tools keep their order: nothing of a plugin but its own digest changes. */
  lemma PluginOrderKept(show: Shown, entries: seq<PyEntry>)
    ensures Normalize(show, Plugin, PyDict(entries)) == Ok(PyDict(Without(Plugin, entries)))
  {
    var kept, rule := Without(Plugin, entries), FieldRule(show, Plugin);
    forall i | 0 <= i < |kept| ensures rule(kept[i]) == Ok(kept[i]) { hide Without; }
    hide Without;
    MapNothing(rule, kept);
  }

  // -- the digest of a resource --------------------------------------------------------------------

  datatype DigestError = PayloadRefused(payload: PayloadError) | EncodingRefused(encoding: EncodeError)

  /** What `contract_digest` hashes: the kind's prefix and the canonical JSON of the payload. */
  function DigestInput(show: Shown, k: Kind, v: Py): Result<seq<Byte>, DigestError>
  {
    var payload := Normalize(show, k, v);
    if payload.Err? then Err(PayloadRefused(payload.error))
    else
      var hashed := Preimage(k, payload.value);
      if hashed.Err? then Err(EncodingRefused(hashed.error)) else Ok(hashed.value)
  }

  ghost predicate AllDictionaries(items: seq<Py>) { forall i | 0 <= i < |items| :: Dictionaries(items[i]) }

  lemma SortKeepsDictionaries(show: Shown, items: seq<Py>, parts: seq<KeyPart>)
    requires AllDictionaries(items)
    ensures AllDictionaries(SortItems(show, items, parts))
  {
    var sorted := SortItems(show, items, parts);
    TupleLessOrder();
    StableSort.SortIsStable(items, ItemKey(show, parts), TupleLess);
    hide SortItems, Dictionaries;
    forall i | 0 <= i < |sorted| ensures Dictionaries(sorted[i]) {
      assert sorted[i] in multiset(items);
      var j :| 0 <= j < |items| && items[j] == sorted[i];
    }
  }

  lemma PluginKeepsDictionaries(show: Shown, item: Py)
    requires Dictionaries(item)
    ensures Dictionaries(NormalPlugin(show, item))
  {
    if item.PyDict? {
      var entries := item.entries;
      forall i | 0 <= i < |entries|
        ensures NormalTools(show, entries[i]).key == entries[i].key && Dictionaries(NormalTools(show, entries[i]).value)
      {
        if entries[i].value.PyList? { SortKeepsDictionaries(show, entries[i].value.items, [Itself]); }
        hide SortItems;
      }
      hide NormalTools;
      assert NormalPlugin(show, item).PyDict?;
    }
  }

  lemma ValueKeepsDictionaries(show: Shown, shape: Shape, v: Py)
    requires Dictionaries(v) && NormalBy(show, shape, v).Ok?
    ensures Dictionaries(NormalBy(show, shape, v).value)
  {
    match shape
    case SortedBy(parts) =>
      if v.PyList? { SortKeepsDictionaries(show, v.items, parts); }
      hide SortItems, Sortable;
    case Allowlist =>
      if v.PyList? {
        SortKeepsDictionaries(show, v.items, PLUGIN_KEY);
        var sorted := SortItems(show, v.items, PLUGIN_KEY);
        hide SortItems, Sortable, NormalPlugin;
        forall i | 0 <= i < |sorted| ensures Dictionaries(NormalPlugin(show, sorted[i])) {
          PluginKeepsDictionaries(show, sorted[i]);
        }
      }
    case _ =>
  }

  /** A rule that keeps keys, and values without repeated keys. */
  ghost predicate Tame(rule: EntryRule)
  {
    forall e :: rule(e).Ok? ==> rule(e).value.key == e.key && (Dictionaries(e.value) ==> Dictionaries(rule(e).value.value))
  }

  lemma {:induction false} MapKeepsDictionaries(rule: EntryRule, entries: seq<PyEntry>)
    requires Tame(rule) && Dictionaries(PyDict(entries)) && MapEntries(rule, entries).Ok?
    ensures |MapEntries(rule, entries).value| == |entries|
    ensures forall i | 0 <= i < |entries| :: MapEntries(rule, entries).value[i].key == entries[i].key
    ensures Dictionaries(PyDict(MapEntries(rule, entries).value))
  {
    if entries != [] {
      assert Dictionaries(PyDict(entries[1..]));
      MapKeepsDictionaries(rule, entries[1..]);
      var r, rest := MapEntries(rule, entries).value, MapEntries(rule, entries[1..]).value;
      assert r == [rule(entries[0]).value] + rest;
      forall i | 0 <= i < |r| ensures r[i].key == entries[i].key && Dictionaries(r[i].value) {
        if i > 0 { assert r[i] == rest[i - 1] && entries[i] == entries[1..][i - 1]; }
      }
    }
  }

  lemma SelectionsKeepDictionaries(show: Shown, v: Py)
    requires Dictionaries(v) && NormalSelections(show, v).Ok?
    ensures Dictionaries(NormalSelections(show, v).value)
  {
    if v.PyDict? {
      var rule := SelectionRule(show);
      forall e | rule(e).Ok?
        ensures rule(e).value.key == e.key && (Dictionaries(e.value) ==> Dictionaries(rule(e).value.value))
      {
        if Dictionaries(e.value) { ValueKeepsDictionaries(show, SelectionShape(FieldName(e.key)), e.value); }
        hide NormalBy, SelectionShape, Dictionaries;
      }
      MapKeepsDictionaries(rule, v.entries);
    }
  }

  lemma {:induction false} WithoutKeepsDictionaries(k: Kind, entries: seq<PyEntry>)
    requires Dictionaries(PyDict(entries))
    ensures Dictionaries(PyDict(Without(k, entries)))
    ensures forall e | e in Without(k, entries) :: e in entries
  {
    hide Dropped;
    if entries != [] {
      assert Dictionaries(PyDict(entries[1..]));
      WithoutKeepsDictionaries(k, entries[1..]);
      var rest := Without(k, entries[1..]);
      forall i | 0 <= i < |rest| ensures rest[i].key != entries[0].key {
        assert rest[i] in entries[1..];
        var j :| 0 <= j < |entries[1..]| && entries[1..][j] == rest[i];
        assert entries[j + 1] == rest[i];
      }
    }
  }

  /** A normalised dict is a dict still: no key comes twice, at any depth. */
  lemma NormalizeKeepsDictionaries(show: Shown, k: Kind, v: Py)
    requires Dictionaries(v) && Normalize(show, k, v).Ok?
    ensures Dictionaries(Normalize(show, k, v).value)
  {
    var rule := FieldRule(show, k);
    WithoutKeepsDictionaries(k, v.entries);
    forall e | rule(e).Ok?
      ensures rule(e).value.key == e.key && (Dictionaries(e.value) ==> Dictionaries(rule(e).value.value))
    {
      var shape := ShapeOf(k, FieldName(e.key));
      if Dictionaries(e.value) {
        if shape.Within? { SelectionsKeepDictionaries(show, e.value); } else { ValueKeepsDictionaries(show, shape, e.value); }
      }
      hide NormalBy, NormalSelections, ShapeOf, Dictionaries;
    }
    hide Without, FieldRule;
    MapKeepsDictionaries(rule, Without(k, v.entries));
  }

  /** Two resources are hashed over the same bytes exactly when they are of the same kind
      and their normalised payloads are the same value, the order of dict keys aside. */
  lemma DigestInputsAgreeExactly(show: Shown, j: Kind, k: Kind, a: Py, b: Py)
    requires Dictionaries(a) && Dictionaries(b) && DigestInput(show, j, a).Ok? && DigestInput(show, k, b).Ok?
    ensures DigestInput(show, j, a) == DigestInput(show, k, b)
            <==> j == k && Same(Normalize(show, j, a).value, Normalize(show, k, b).value)
  {
    NormalizeKeepsDictionaries(show, j, a);
    NormalizeKeepsDictionaries(show, k, b);
    hide Normalize, Preimage, Dictionaries, Same;
    PreimagesAgreeExactly(j, k, Normalize(show, j, a).value, Normalize(show, k, b).value);
  }

  // -- a deliver intent's catalogs --------------------------------------------------------------------

  lemma SortPair(show: Shown, a: Py, b: Py, parts: seq<KeyPart>)
    ensures SortItems(show, [a, b], parts)
            == if TupleLess(KeyTexts(show, b, parts), KeyTexts(show, a, parts)) then [b, a] else [a, b]
  {
    var key := ItemKey(show, parts);
    assert [a, b][1..] == [b] && [b][1..] == [];
    assert StableSort.Sort([b], key, TupleLess) == [b];
    hide TupleLess, KeyTexts;
    assert StableSort.Insert(a, [b], key, TupleLess) == if TupleLess(key(b), key(a)) then [b, a] else [a, b];
  }

  const BY_PROVIDER := [Member("provider")]

  /** Two catalogs of one provider, the first with the larger digest. */
  predicate TiedOutOfOrder(show: Shown, a: Py, b: Py)
  {
    Text1(show, a, "provider") == Text1(show, b, "provider") && Before(Text1(show, b, "digest"), Text1(show, a, "digest"))
  }

  /** The documentation has a deliver intent's catalogs sorted by provider, the code by
      provider and digest.  Both are ascending by provider; the two lists are the same one
      exactly when no two catalogs of one provider are given with the larger digest first. */
  lemma CatalogsByDigestToo(show: Shown, items: seq<Py>)
    requires Sortable(items, SELECTED_CATALOG)
    ensures SelectionShape(Points("catalogs")) == SortedBy(SELECTED_CATALOG)
    ensures NormalList(show, PyList(items), SELECTED_CATALOG) == NormalList(show, PyList(items), BY_PROVIDER)
            <==> forall i, j | 0 <= i < j < |items| :: !TiedOutOfOrder(show, items[i], items[j])
    ensures StableSort.Ascending(SortItems(show, items, SELECTED_CATALOG), ItemKey(show, BY_PROVIDER), TupleLess)
  {
    var coarse, fine := ItemKey(show, BY_PROVIDER), ItemKey(show, SELECTED_CATALOG);
    TupleLessOrder();
    StableSort.SortIsStable(items, fine, TupleLess);
    assert StableSort.Refines(coarse, TupleLess, fine, TupleLess) by {
      forall a, b | TupleLess(coarse(a), coarse(b)) ensures TupleLess(fine(a), fine(b)) { CatalogKeys(show, a, b); }
    }
    forall i, j | 0 <= i < j < |items|
      ensures StableSort.TieTurned(items[i], items[j], coarse, fine, TupleLess) <==> TiedOutOfOrder(show, items[i], items[j])
    {
      CatalogKeys(show, items[i], items[j]);
    }
    hide TupleLess, KeyTexts, StableSort.Sort, StableSort.Refines, StableSort.TieTurned, TiedOutOfOrder, StableSort.TotalOrder;
    StableSort.FinerSortsAlike(items, coarse, TupleLess, fine, TupleLess);
  }

  lemma CatalogKeys(show: Shown, a: Py, b: Py)
    ensures var coarse, fine := ItemKey(show, BY_PROVIDER), ItemKey(show, SELECTED_CATALOG);
            && (TupleLess(coarse(a), coarse(b)) ==> TupleLess(fine(a), fine(b)))
            && (coarse(a) == coarse(b) && TupleLess(fine(b), fine(a)) <==> TiedOutOfOrder(show, a, b))
  {
    var p, d, q, e := Text1(show, a, "provider"), Text1(show, a, "digest"), Text1(show, b, "provider"), Text1(show, b, "digest");
    BeforeIsStrict(p, p);
    BeforeIsStrict(q, q);
    assert KeyTexts(show, a, SELECTED_CATALOG) == [p, d] && KeyTexts(show, b, SELECTED_CATALOG) == [q, e];
    assert KeyTexts(show, a, BY_PROVIDER) == [p] && KeyTexts(show, b, BY_PROVIDER) == [q];
    hide Text1, KeyTexts, Before;
    assert [p, d][1..] == [d] && [q, e][1..] == [e] && [p][1..] == [] == [q][1..] && [d][1..] == [] == [e][1..];
    assert [p] == [q] <==> p == q by { assert [p][0] == p && [q][0] == q; }
  }

  function Catalog(digest: CodePoint): Py
  {
    PyDict([PyEntry(StrKey(Points("provider")), PyStr(Points("serving"))), PyEntry(StrKey(Points("digest")), PyStr([digest]))])
  }

  lemma TiedPair(show: Shown, a: Py, b: Py)
    requires a.PyDict? && b.PyDict? && TiedOutOfOrder(show, a, b)
    ensures NormalList(show, PyList([a, b]), SELECTED_CATALOG) == Ok(PyList([b, a]))
    ensures NormalList(show, PyList([b, a]), SELECTED_CATALOG) == Ok(PyList([b, a]))
    ensures NormalList(show, PyList([a, b]), BY_PROVIDER) == Ok(PyList([a, b]))
    ensures NormalList(show, PyList([b, a]), BY_PROVIDER) == Ok(PyList([b, a]))
  {
    TupleLessOrder();
    CatalogKeys(show, a, b);
    hide KeyTexts, TupleLess, TiedOutOfOrder;
    SortPair(show, a, b, SELECTED_CATALOG);
    SortPair(show, b, a, SELECTED_CATALOG);
    SortPair(show, a, b, BY_PROVIDER);
    SortPair(show, b, a, BY_PROVIDER);
    hide SortItems;
  }

  /** Two catalogs of one provider, given either way round: the code makes one list of both,
      the documented sort keeps them apart. */
  lemma CatalogsOfOneProvider(show: Shown)
    ensures var a, b := Catalog(98), Catalog(97);
            && TiedOutOfOrder(show, a, b)
            && NormalList(show, PyList([a, b]), SELECTED_CATALOG) == Ok(PyList([b, a]))
            && NormalList(show, PyList([b, a]), SELECTED_CATALOG) == Ok(PyList([b, a]))
            && NormalList(show, PyList([a, b]), BY_PROVIDER) == Ok(PyList([a, b]))
            && NormalList(show, PyList([b, a]), BY_PROVIDER) == Ok(PyList([b, a]))
  {
    CatalogTexts(show, 98);
    CatalogTexts(show, 97);
    hide Text1, Points, NormalList;
    TiedPair(show, Catalog(98), Catalog(97));
  }

  lemma CatalogTexts(show: Shown, d: CodePoint)
    ensures Text1(show, Catalog(d), "provider") == Points("serving") && Text1(show, Catalog(d), "digest") == [d]
  {
    var entries := Catalog(d).entries;
    assert |Points("provider")| == 8 && |Points("digest")| == 6;
    hide Points;
    assert entries[1..] == [entries[1]];
    assert Get(entries, "provider") == Some(entries[0].value);
    assert Get([entries[1]], "digest") == Some(entries[1].value);
  }

  // -- a plugin's digest covers everything but itself ----------------------------------------------------

  lemma {:induction false} SameSelf(v: Py)
    ensures Same(v, v)
    decreases v
  {
    match v
    case PyList(items) =>
      forall i | 0 <= i < |items| ensures Same(items[i], items[i]) { SameSelf(items[i]); }
    case PyDict(entries) =>
      forall i | 0 <= i < |entries| ensures EntrySame(entries[i], entries) { SameSelf(entries[i].value); }
    case _ =>
  }

  lemma {:induction false} WithoutAt(k: Kind, entries: seq<PyEntry>, i: nat, e: PyEntry) returns (p: nat)
    requires i < |entries| && e.key == entries[i].key && !Dropped(k, e.key)
    ensures p < |Without(k, entries)| && Without(k, entries)[p] == entries[i]
    ensures Without(k, entries[i := e]) == Without(k, entries)[p := e]
  {
    hide Dropped;
    if i == 0 {
      p := 0;
      assert entries[0 := e][1..] == entries[1..];
    } else {
      p := WithoutAt(k, entries[1..], i - 1, e);
      assert entries[i := e][1..] == entries[1..][i - 1 := e];
      if !Dropped(k, entries[0].key) { p := p + 1; }
    }
  }

  lemma DictSameAt(entries: seq<PyEntry>, p: nat, e: PyEntry)
    requires Dictionaries(PyDict(entries)) && p < |entries| && e.key == entries[p].key
    ensures Same(PyDict(entries), PyDict(entries[p := e])) <==> Same(entries[p].value, e.value)
  {
    var after := entries[p := e];
    DictSameMeans(entries, after);
    assert forall i, j | 0 <= i < |entries| && 0 <= j < |entries| && i != j :: entries[i].key != entries[j].key;
    hide Same, Dictionaries;
    assert EntrySame(entries[p], after) <==> Same(entries[p].value, e.value) by { assert after[p] == e; }
    forall i | 0 <= i < |entries| && i != p ensures EntrySame(entries[i], after) {
      SameSelf(entries[i].value);
      assert after[i] == entries[i];
    }
    hide EntrySame;
  }

  lemma ReplacedDictionaries(entries: seq<PyEntry>, i: nat, e: PyEntry)
    requires Dictionaries(PyDict(entries)) && i < |entries| && e.key == entries[i].key && Dictionaries(e.value)
    ensures Dictionaries(PyDict(entries[i := e]))
  { }

  /** A plugin's digest is evidence for all of it: whatever value of a field but the digest
      itself is exchanged - a tool list for the same tools in another order, say - the bytes
      hashed stay the same exactly when it was exchanged for the same value. */
  lemma PluginDigestIsExact(show: Shown, entries: seq<PyEntry>, i: nat, v: Py)
    requires i < |entries| && !Dropped(Plugin, entries[i].key)
    requires Dictionaries(PyDict(entries)) && Dictionaries(v) && DigestInput(show, Plugin, PyDict(entries)).Ok?
    requires DigestInput(show, Plugin, PyDict(entries[i := PyEntry(entries[i].key, v)])).Ok?
    ensures DigestInput(show, Plugin, PyDict(entries[i := PyEntry(entries[i].key, v)])) == DigestInput(show, Plugin, PyDict(entries))
            <==> Same(entries[i].value, v)
  {
    hide Dictionaries, Same, Dropped, DigestInput, Without, Normalize;
    var e := PyEntry(entries[i].key, v);
    var p := WithoutAt(Plugin, entries, i, e);
    ReplacedDictionaries(entries, i, e);
    WithoutKeepsDictionaries(Plugin, entries);
    PluginOrderKept(show, entries);
    PluginOrderKept(show, entries[i := e]);
    DigestInputsAgreeExactly(show, Plugin, Plugin, PyDict(entries), PyDict(entries[i := e]));
    DictSameAt(Without(Plugin, entries), p, e);
  }
}
