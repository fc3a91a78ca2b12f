/** What a contract digest is evidence for, field by field: which fields do not count, which
    lists count as sets, and that everything else counts as it is
    (docs/contracts/DIGESTING.md and workbench/contracts.py). */
module DigestEvidence {
  import opened Outcomes
  import opened Sequences
  import StableSort
  import opened CanonicalJson
  import opened DigestPreimages
  import opened CanonicalPayload

  // -- the two tables ---------------------------------------------------------------------------

  predicate Named(key: PyKey, field: string) { key == StrKey(Points(field)) }

  /** The fields a digest does not cover: itself, and what changes without the resource. */
  predicate Uncovered(k: Kind, key: PyKey)
  {
    || (Named(key, "digest") && k in {Profile, Workflow, Skill, PluginCapability})
    || (Named(key, "operation_digest") && k == Operation)
    || (Named(key, "catalog_digest") && k in {Catalog, SettingsDescriptor, PluginCatalog})
    || (Named(key, "generated_at") && k in {Catalog, StateSnapshot, PrdContent, PluginCatalog})
    || (Named(key, "snapshot_digest") && k in {WorkflowSnapshot, StateSnapshot})
    || (Named(key, "content_digest") && k == PrdContent)
    || (Named(key, "preset_digest") && k == AdvancedPreset)
    || (Named(key, "template_digest") && k == AdvancedTemplate)
    || (Named(key, "repair") && k in {AdvancedPreset, AdvancedTemplate})
    || (Named(key, "updated_at") && k == AdvancedTemplate)
    || (Named(key, "intent_digest") && k == DeliverIntent)
    || (Named(key, "plugin_digest") && k == Plugin)
    || (Named(key, "request_digest") && k == PluginRequest)
  }

  /** The lists that count as sets, and what tells their items apart. */
  predicate SetLike(k: Kind, key: PyKey, parts: seq<KeyPart>)
  {
    || (Named(key, "operations") && k == Catalog && parts == [Member("id"), Member("contract_version"), Member("operation_digest")])
    || (Named(key, "operations") && k in {Profile, WorkflowSnapshot}
        && parts == [Member("provider"), Member("id"), Member("contract_version"), Member("operation_digest")])
    || ((Named(key, "model_profiles") || Named(key, "approval_actions")) && k in {Profile, WorkflowSnapshot} && parts == [Itself])
    || (Named(key, "skills") && k in {Profile, WorkflowSnapshot} && parts == [Member("id"), Member("digest")])
    || (Named(key, "catalogs") && k == WorkflowSnapshot && parts == [Member("provider")])
    || (Named(key, "prds") && k == StateSnapshot && parts == [Member("prd_id")])
    || (Named(key, "tasks") && k == StateSnapshot && parts == [MemberOfRef("prd_id"), MemberOfRef("task_id")])
    || (Named(key, "settings") && k == SettingsDescriptor && parts == [Member("id")])
    || (Named(key, "control_values") && k == AdvancedPreset && parts == [Member("name")])
    || (Named(key, "tools") && k == AdvancedPreset && parts == [Member("tool_id")])
    || (Named(key, "substitutions") && k == AdvancedTemplate && parts == [Member("name")])
    || (Named(key, "plugins") && k == PluginCatalog && parts == [Member("id"), Member("plugin_digest")])
  }

  predicate Selections(k: Kind, key: PyKey) { k == DeliverIntent && Named(key, "selections") }

  predicate PluginAllowlist(k: Kind, key: PyKey) { k == PluginCapability && Named(key, "plugins") }

  /** The same inside a deliver intent's selections. */
  predicate SelectedSet(key: PyKey, parts: seq<KeyPart>)
  {
    || (Named(key, "catalogs") && parts == [Member("provider"), Member("digest")])
    || (Named(key, "skills") && parts == [Member("id"), Member("digest")])
  }

  lemma PointsLength(s: string)
    ensures |Points(s)| == |s|
  { }

  lemma UncoveredIsDropped(k: Kind, key: PyKey)
    ensures Dropped(k, key) <==> Uncovered(k, key)
  {
    hide Dropped, Uncovered;
    if k in {Operation, Catalog, Profile, Workflow, Skill, PluginCapability, PrdContent, SettingsDescriptor, PluginCatalog} {
      CatalogsUncovered(k, key);
    } else {
      OthersUncovered(k, key);
    }
  }

  lemma DroppedNames(k: Kind, key: PyKey)
    ensures var names := Excluded(k);
            && |names| <= 3
            && (Dropped(k, key) <==> (|names| > 0 && Named(key, names[0])) || (|names| > 1 && Named(key, names[1]))
                                     || (|names| > 2 && Named(key, names[2])))
  {
    hide Points;
  }

  lemma CatalogsUncovered(k: Kind, key: PyKey)
    requires k in {Operation, Catalog, Profile, Workflow, Skill, PluginCapability, PrdContent, SettingsDescriptor, PluginCatalog}
    ensures Dropped(k, key) <==> Uncovered(k, key)
  {
    DroppedNames(k, key);
    hide Dropped, Named, Points;
  }

  lemma OthersUncovered(k: Kind, key: PyKey)
    requires k !in {Operation, Catalog, Profile, Workflow, Skill, PluginCapability, PrdContent, SettingsDescriptor, PluginCatalog}
    ensures Dropped(k, key) <==> Uncovered(k, key)
  {
    DroppedNames(k, key);
    hide Dropped, Named, Points;
  }

  lemma NamesDiffer()
    ensures |Points("operations")| == 10 && |Points("model_profiles")| == 14 && |Points("approval_actions")| == 16
    ensures |Points("skills")| == 6 && |Points("catalogs")| == 8 && |Points("prds")| == 4 && |Points("tasks")| == 5
    ensures |Points("control_values")| == 14 && |Points("tools")| == 5
  {
    PointsLength("operations");
    PointsLength("model_profiles");
    PointsLength("approval_actions");
    PointsLength("skills");
    PointsLength("catalogs");
    PointsLength("prds");
    PointsLength("tasks");
    PointsLength("control_values");
    PointsLength("tools");
  }

  lemma ShapeIsTable(k: Kind, key: PyKey, parts: seq<KeyPart>)
    requires key.StrKey?
    ensures ShapeOf(k, key.name) == SortedBy(parts) <==> SetLike(k, key, parts)
    ensures ShapeOf(k, key.name).Within? <==> Selections(k, key)
    ensures ShapeOf(k, key.name).Allowlist? <==> PluginAllowlist(k, key)
    ensures SelectionShape(key.name) == SortedBy(parts) <==> SelectedSet(key, parts)
  {
    NamesDiffer();
    hide Points;
    match k case _ =>
  }

  // -- a list that counts as a set -----------------------------------------------------------------

  /** The same items up to the order of dict keys, in any order. */
  ghost predicate SameItems(v: seq<Py>, w: seq<Py>)
  {
    |v| == |w| && exists u: seq<Py> :: multiset(u) == multiset(v) && Pairwise(u, w)
  }

  predicate Pairwise(u: seq<Py>, w: seq<Py>)
  {
    |u| == |w| && forall i | 0 <= i < |u| :: Same(u[i], w[i])
  }

  predicate StringOrAbsent(item: Py, name: string)
  {
    item.PyDict? && (Get(item.entries, name).None? || Get(item.entries, name).value.PyStr?)
  }

  /** What tells items apart is a string, or missing. */
  predicate TextKeyed(item: Py, part: KeyPart)
  {
    match part
    case Member(name) => StringOrAbsent(item, name)
    case MemberOfRef(name) =>
      item.PyDict? && (Get(item.entries, "ref").None? || StringOrAbsent(Get(item.entries, "ref").value, name))
    case Itself => item.PyStr?
  }

  function StringAt(item: Py, name: string): Text
    requires StringOrAbsent(item, name)
  {
    var found := Get(item.entries, name);
    if found.None? then [] else found.value.text
  }

  function KeyText(item: Py, part: KeyPart): Text
    requires TextKeyed(item, part)
  {
    match part
    case Member(name) => StringAt(item, name)
    case MemberOfRef(name) => if Get(item.entries, "ref").None? then [] else StringAt(Get(item.entries, "ref").value, name)
    case Itself => item.text
  }

  /** No two items have the same key. */
  ghost predicate Keyed(items: seq<Py>, parts: seq<KeyPart>)
  {
    && (forall i, p | 0 <= i < |items| && 0 <= p < |parts| :: TextKeyed(items[i], parts[p]))
    && (forall i, j | 0 <= i < j < |items| :: KeysDiffer(items[i], items[j], parts))
  }

  ghost predicate KeysDiffer(a: Py, b: Py, parts: seq<KeyPart>)
    requires forall p | 0 <= p < |parts| :: TextKeyed(a, parts[p]) && TextKeyed(b, parts[p])
  {
    exists p :: 0 <= p < |parts| && KeyText(a, parts[p]) != KeyText(b, parts[p])
  }

  lemma KeyIsText(show: Shown, item: Py, part: KeyPart)
    requires TextKeyed(item, part)
    ensures PartText(show, item, part) == KeyText(item, part)
  { }

  lemma KeyedIsDistinct(show: Shown, items: seq<Py>, parts: seq<KeyPart>)
    requires Keyed(items, parts)
    ensures StableSort.DistinctKeys(items, ItemKey(show, parts))
  {
    hide PartText, KeyText, TextKeyed;
    forall i, j | 0 <= i < j < |items| ensures KeyTexts(show, items[i], parts) != KeyTexts(show, items[j], parts) {
      assert KeysDiffer(items[i], items[j], parts);
      var p :| 0 <= p < |parts| && KeyText(items[i], parts[p]) != KeyText(items[j], parts[p]);
      KeyIsText(show, items[i], parts[p]);
      KeyIsText(show, items[j], parts[p]);
      assert KeyTexts(show, items[i], parts)[p] != KeyTexts(show, items[j], parts)[p];
    }
  }

  // the same dict has the same members

  lemma {:induction false} GetAt(entries: seq<PyEntry>, name: string, i: nat)
    requires i < |entries| && Named(entries[i].key, name) && forall a, b | 0 <= a < b < |entries| :: entries[a].key != entries[b].key
    ensures Get(entries, name) == Some(entries[i].value)
  {
    if i > 0 {
      assert entries[0].key != entries[i].key;
      GetAt(entries[1..], name, i - 1);
    }
  }

  lemma {:induction false} GetNone(entries: seq<PyEntry>, name: string)
    requires forall i | 0 <= i < |entries| :: !Named(entries[i].key, name)
    ensures Get(entries, name).None?
  {
    if entries != [] { GetNone(entries[1..], name); }
  }

  function KeysOf(entries: seq<PyEntry>): seq<PyKey> { seq(|entries|, i requires 0 <= i < |entries| => entries[i].key) }

  ghost predicate HasKey(entries: seq<PyEntry>, key: PyKey)
  {
    exists i :: 0 <= i < |entries| && entries[i].key == key
  }

  /** Dicts of one size, the keys of one among those of the other: the same keys. */
  lemma SameKeys(a: seq<PyEntry>, b: seq<PyEntry>)
    requires Dictionaries(PyDict(a)) && Dictionaries(PyDict(b))
    requires forall i | 0 <= i < |a| :: HasKey(b, a[i].key)
    ensures |a| == |b| <==> forall j | 0 <= j < |b| :: HasKey(a, b[j].key)
  {
    var s, t := KeysOf(a), KeysOf(b);
    DistinctKeysOf(a);
    DistinctKeysOf(b);
    hide Dictionaries;
    KeysAre(a);
    KeysAre(b);
    hide HasKey, NoRepeats, KeysOf;
    ContainedIn(s, t);
  }

  lemma KeysAre(a: seq<PyEntry>)
    ensures |KeysOf(a)| == |a|
    ensures forall key :: key in KeysOf(a) <==> HasKey(a, key)
    ensures forall i | 0 <= i < |a| :: a[i].key in KeysOf(a)
    ensures forall key | key in KeysOf(a) :: exists i :: 0 <= i < |a| && a[i].key == key
  {
    forall key ensures key in KeysOf(a) <==> HasKey(a, key) {
      if i :| 0 <= i < |a| && a[i].key == key { assert KeysOf(a)[i] == key; }
    }
    forall i | 0 <= i < |a| ensures a[i].key in KeysOf(a) { assert KeysOf(a)[i] == a[i].key; }
  }

  lemma DistinctKeysOf(a: seq<PyEntry>)
    requires Dictionaries(PyDict(a))
    ensures NoRepeats(KeysOf(a))
    ensures forall i, j | 0 <= i < j < |a| :: a[i].key != a[j].key
  { }

  lemma GetSame(a: Py, b: Py, name: string)
    requires Same(a, b) && Dictionaries(a) && Dictionaries(b) && a.PyDict?
    ensures b.PyDict? && (Get(a.entries, name).None? <==> Get(b.entries, name).None?)
    ensures Get(a.entries, name).Some? ==> Same(Get(a.entries, name).value, Get(b.entries, name).value)
                                           && Dictionaries(Get(a.entries, name).value) && Dictionaries(Get(b.entries, name).value)
  {
    var x, y := a.entries, b.entries;
    DictSameMeans(x, y);
    DistinctKeysOf(x);
    DistinctKeysOf(y);
    SameHasKeys(x, y);
    hide Same, Dictionaries;
    if i :| 0 <= i < |x| && Named(x[i].key, name) {
      assert EntrySame(x[i], y);
      var j :| 0 <= j < |y| && x[i].key == y[j].key && Same(x[i].value, y[j].value);
      GetAt(x, name, i);
      GetAt(y, name, j);
      DictionaryAt(x, i);
      DictionaryAt(y, j);
    } else {
      GetNone(x, name);
      forall j | 0 <= j < |y| ensures !Named(y[j].key, name) {
        assert HasKey(x, y[j].key);
      }
      GetNone(y, name);
    }
  }

  lemma DictionaryAt(a: seq<PyEntry>, i: nat)
    requires Dictionaries(PyDict(a)) && i < |a|
    ensures Dictionaries(a[i].value)
  { }

  lemma SameHasKeys(a: seq<PyEntry>, b: seq<PyEntry>)
    requires Same(PyDict(a), PyDict(b)) && Dictionaries(PyDict(a)) && Dictionaries(PyDict(b))
    ensures forall j | 0 <= j < |b| :: HasKey(a, b[j].key)
  {
    DictSameMeans(a, b);
    forall i | 0 <= i < |a| ensures HasKey(b, a[i].key) {
      assert EntrySame(a[i], b);
      hide Same;
    }
    SameKeys(a, b);
  }

  lemma StringSame(a: Py, b: Py, name: string)
    requires Same(a, b) && Dictionaries(a) && Dictionaries(b) && StringOrAbsent(a, name)
    ensures StringOrAbsent(b, name) && StringAt(a, name) == StringAt(b, name)
  {
    GetSame(a, b, name);
    hide Get, Dictionaries;
  }

  lemma KeySame(a: Py, b: Py, part: KeyPart)
    requires Same(a, b) && Dictionaries(a) && Dictionaries(b) && TextKeyed(a, part)
    ensures TextKeyed(b, part) && KeyText(a, part) == KeyText(b, part)
  {
    match part
    case Member(name) => StringSame(a, b, name);
    case MemberOfRef(name) =>
      GetSame(a, b, "ref");
      if Get(a.entries, "ref").Some? { StringSame(Get(a.entries, "ref").value, Get(b.entries, "ref").value, name); }
      hide Get, Dictionaries, Same, StringOrAbsent;
    case Itself =>
  }

  lemma ItemKeySame(show: Shown, a: Py, b: Py, parts: seq<KeyPart>)
    requires Same(a, b) && Dictionaries(a) && Dictionaries(b) && forall p | 0 <= p < |parts| :: TextKeyed(a, parts[p])
    ensures KeyTexts(show, a, parts) == KeyTexts(show, b, parts)
  {
    hide PartText, KeyText, TextKeyed, Same, Dictionaries;
    forall p | 0 <= p < |parts| ensures PartText(show, a, parts[p]) == PartText(show, b, parts[p]) {
      KeySame(a, b, parts[p]);
      KeyIsText(show, a, parts[p]);
      KeyIsText(show, b, parts[p]);
    }
  }

  // sorting keeps pairs together

  lemma {:induction false} InsertPaired(x: Py, y: Py, u: seq<Py>, w: seq<Py>, key: Py -> seq<Text>)
    requires Same(x, y) && key(x) == key(y) && Pairwise(u, w) && forall i | 0 <= i < |u| :: key(u[i]) == key(w[i])
    ensures var a, b := StableSort.Insert(x, u, key, TupleLess), StableSort.Insert(y, w, key, TupleLess);
            Pairwise(a, b) && forall i | 0 <= i < |a| :: key(a[i]) == key(b[i])
  {
    hide Same, TupleLess;
    if u != [] && TupleLess(key(u[0]), key(x)) { InsertPaired(x, y, u[1..], w[1..], key); }
  }

  lemma {:induction false} SortPaired(u: seq<Py>, w: seq<Py>, key: Py -> seq<Text>)
    requires Pairwise(u, w) && forall i | 0 <= i < |u| :: key(u[i]) == key(w[i])
    ensures var a, b := StableSort.Sort(u, key, TupleLess), StableSort.Sort(w, key, TupleLess);
            Pairwise(a, b) && forall i | 0 <= i < |a| :: key(a[i]) == key(b[i])
  {
    hide Same, TupleLess, StableSort.Insert;
    if u != [] {
      SortPaired(u[1..], w[1..], key);
      InsertPaired(u[0], w[0], StableSort.Sort(u[1..], key, TupleLess), StableSort.Sort(w[1..], key, TupleLess), key);
    }
  }

  lemma Position(t: seq<Py>, w: seq<Py>) returns (j: nat)
    requires multiset(t) == multiset(w) && w != []
    ensures j < |t| && t[j] == w[0]
  {
    assert w[0] in multiset(t);
    j :| 0 <= j < |t| && t[j] == w[0];
  }

  /** A pairing survives any reordering of its second half. */
  lemma {:induction false} Reorder(s: seq<Py>, t: seq<Py>, w: seq<Py>) returns (u: seq<Py>)
    requires Pairwise(s, t) && multiset(t) == multiset(w)
    ensures multiset(u) == multiset(s) && Pairwise(u, w)
    decreases |w|
  {
    hide Same, Except;
    if w == [] {
      u := [];
      assert s == [] by { assert |multiset(t)| == 0; }
    } else {
      var j := Position(t, w);
      ExceptElements(t, j);
      ExceptElements(s, j);
      ExceptElements(w, 0);
      Cancelled(multiset(Except(t, j)), multiset(Except(w, 0)), w[0]);
      assert Except(w, 0) == w[1..] by { ExceptFirst(w); }
      PairwiseExcept(s, t, j);
      var rest := Reorder(Except(s, j), Except(t, j), w[1..]);
      u := [s[j]] + rest;
      assert multiset(u) == multiset{s[j]} + multiset(rest);
    }
  }

  lemma ExceptFirst(w: seq<Py>)
    requires w != []
    ensures Except(w, 0) == w[1..]
  { }

  lemma PairwiseExcept(s: seq<Py>, t: seq<Py>, j: nat)
    requires Pairwise(s, t) && j < |s|
    ensures Pairwise(Except(s, j), Except(t, j))
  {
    hide Same;
  }

  lemma SortedElements(show: Shown, items: seq<Py>, parts: seq<KeyPart>)
    ensures multiset(SortItems(show, items, parts)) == multiset(items)
  {
    TupleLessOrder();
    StableSort.SortIsStable(items, ItemKey(show, parts), TupleLess);
  }

  lemma SortedAlikeAreSame(show: Shown, v: seq<Py>, w: seq<Py>, parts: seq<KeyPart>)
    requires Pairwise(SortItems(show, v, parts), SortItems(show, w, parts))
    ensures SameItems(v, w)
  {
    hide SortItems, Pairwise;
    SortedElements(show, v, parts);
    SortedElements(show, w, parts);
    var u := Reorder(SortItems(show, v, parts), SortItems(show, w, parts), w);
    assert |multiset(u)| == |multiset(v)|;
    assert |u| == |w| by { PairwiseLength(u, w); }
  }

  lemma PairwiseLength(u: seq<Py>, w: seq<Py>)
    requires Pairwise(u, w)
    ensures |u| == |w|
  { }

  lemma SameItemsSortAlike(show: Shown, v: seq<Py>, w: seq<Py>, parts: seq<KeyPart>)
    requires SameItems(v, w) && Keyed(v, parts) && AllDictionaries(v) && AllDictionaries(w)
    ensures Pairwise(SortItems(show, v, parts), SortItems(show, w, parts))
  {
    var u: seq<Py> :| multiset(u) == multiset(v) && Pairwise(u, w);
    TupleLessOrder();
    KeyedIsDistinct(show, v, parts);
    StableSort.SortForgetsOrder(v, u, ItemKey(show, parts), TupleLess);
    forall i | 0 <= i < |u| ensures KeyTexts(show, u[i], parts) == KeyTexts(show, w[i], parts) {
      assert u[i] in multiset(v);
      var k :| 0 <= k < |v| && v[k] == u[i];
      hide Keyed, AllDictionaries, KeyTexts, Dictionaries, TextKeyed;
      assert Dictionaries(v[k]) && Dictionaries(w[i]) by { AllAt(v, k); AllAt(w, i); }
      assert forall p | 0 <= p < |parts| :: TextKeyed(v[k], parts[p]) by { KeyedAt(v, parts, k); }
      ItemKeySame(show, u[i], w[i], parts);
    }
    hide Keyed, KeyTexts, Pairwise, TupleLess, StableSort.Sort, StableSort.TotalOrder;
    SortPaired(u, w, ItemKey(show, parts));
  }

  lemma AllAt(v: seq<Py>, k: nat)
    requires AllDictionaries(v) && k < |v|
    ensures Dictionaries(v[k])
  { }

  lemma KeyedAt(v: seq<Py>, parts: seq<KeyPart>, k: nat)
    requires Keyed(v, parts) && k < |v|
    ensures forall p | 0 <= p < |parts| :: TextKeyed(v[k], parts[p])
  { }

  // -- when two values count as the same ---------------------------------------------------------------

  type Relation = (PyKey, Py, Py) -> bool

  /** Two lists with the same items, or two equal values. */
  ghost predicate SetAlike(v: Py, w: Py)
  {
    if v.PyList? && w.PyList? then SameItems(v.items, w.items) else Same(v, w)
  }

  ghost predicate ToolAlike(key: PyKey, v: Py, w: Py)
  {
    if Named(key, "enabled_tools") then SetAlike(v, w) else Same(v, w)
  }

  ghost predicate SelectedAlike(key: PyKey, v: Py, w: Py)
  {
    if Named(key, "catalogs") || Named(key, "skills") then SetAlike(v, w) else Same(v, w)
  }

  /** `b` has the entry's key, at a value that counts as the same. */
  ghost predicate AlikeIn(alike: Relation, e: PyEntry, b: seq<PyEntry>)
  {
    exists j :: 0 <= j < |b| && b[j].key == e.key && alike(e.key, e.value, b[j].value)
  }

  ghost predicate EntriesAlike(alike: Relation, a: seq<PyEntry>, b: seq<PyEntry>)
  {
    |a| == |b| && forall i | 0 <= i < |a| :: AlikeIn(alike, a[i], b)
  }

  ghost predicate PluginAlike(p: Py, q: Py)
  {
    p.PyDict? && q.PyDict? && EntriesAlike(ToolAlike, p.entries, q.entries)
  }

  /** The same plugins in any order, each with the same tools in any order. */
  ghost predicate PluginsAlike(v: seq<Py>, w: seq<Py>)
  {
    exists u: seq<Py> :: multiset(u) == multiset(v) && |u| == |w| && forall i | 0 <= i < |u| :: PluginAlike(u[i], w[i])
  }

  ghost predicate InSet(k: Kind, key: PyKey) { exists parts :: SetLike(k, key, parts) }

  /** When two values of a field count as the same. */
  ghost predicate FieldAlike(k: Kind, key: PyKey, v: Py, w: Py)
  {
    if Selections(k, key) && v.PyDict? && w.PyDict? then EntriesAlike(SelectedAlike, v.entries, w.entries)
    else if PluginAllowlist(k, key) && v.PyList? && w.PyList? then PluginsAlike(v.items, w.items)
    else if InSet(k, key) then SetAlike(v, w)
    else Same(v, w)
  }

  ghost predicate SetKeyed(v: Py, parts: seq<KeyPart>) { v.PyList? ==> Keyed(v.items, parts) }

  ghost predicate ToolsKeyed(p: Py)
  {
    p.PyDict? ==> forall i | 0 <= i < |p.entries| :: Named(p.entries[i].key, "enabled_tools") ==> SetKeyed(p.entries[i].value, [Itself])
  }

  ghost predicate SelectionsKeyed(v: Py)
  {
    v.PyDict? ==> forall i, parts | 0 <= i < |v.entries| && SelectedSet(v.entries[i].key, parts) :: SetKeyed(v.entries[i].value, parts)
  }

  /** A list that counts as a set holds no key twice, as the contracts ask. */
  ghost predicate FieldKeyed(k: Kind, key: PyKey, v: Py)
  {
    && (Selections(k, key) ==> SelectionsKeyed(v))
    && (PluginAllowlist(k, key) && v.PyList? ==>
          Keyed(v.items, [Member("plugin_id"), Member("plugin_digest")]) && forall i | 0 <= i < |v.items| :: ToolsKeyed(v.items[i]))
    && (forall parts | SetLike(k, key, parts) :: SetKeyed(v, parts))
  }

  // -- lists ----------------------------------------------------------------------------------------------

  lemma ListsSame(v: seq<Py>, w: seq<Py>)
    ensures Same(PyList(v), PyList(w)) <==> Pairwise(v, w)
  { }

  lemma SortedSame(show: Shown, v: seq<Py>, w: seq<Py>, parts: seq<KeyPart>)
    requires Keyed(v, parts) && AllDictionaries(v) && AllDictionaries(w)
    ensures Same(PyList(SortItems(show, v, parts)), PyList(SortItems(show, w, parts))) <==> SameItems(v, w)
  {
    ListsSame(SortItems(show, v, parts), SortItems(show, w, parts));
    hide SortItems, Same, Keyed, SameItems, Pairwise;
    if Pairwise(SortItems(show, v, parts), SortItems(show, w, parts)) { SortedAlikeAreSame(show, v, w, parts); }
    if SameItems(v, w) { SameItemsSortAlike(show, v, w, parts); }
  }

  lemma ListDictionaries(v: Py)
    requires Dictionaries(v) && v.PyList?
    ensures AllDictionaries(v.items)
  { }

  lemma SetSame(show: Shown, v: Py, w: Py, parts: seq<KeyPart>)
    requires SetKeyed(v, parts) && Dictionaries(v) && Dictionaries(w)
    requires NormalList(show, v, parts).Ok? && NormalList(show, w, parts).Ok?
    ensures Same(NormalList(show, v, parts).value, NormalList(show, w, parts).value) <==> SetAlike(v, w)
  {
    if v.PyList? && w.PyList? {
      ListDictionaries(v);
      ListDictionaries(w);
      SortedSame(show, v.items, w.items, parts);
      hide Same;
    } else if v.PyList? || w.PyList? {
      ListIsNothingElse(show, v, w, parts);
    }
    hide Same;
  }

  lemma ListIsNothingElse(show: Shown, v: Py, w: Py, parts: seq<KeyPart>)
    requires v.PyList? != w.PyList? && NormalList(show, v, parts).Ok? && NormalList(show, w, parts).Ok?
    ensures !Same(v, w) && !Same(NormalList(show, v, parts).value, NormalList(show, w, parts).value)
  {
    hide SortItems;
  }

  // -- dicts -----------------------------------------------------------------------------------------------

  /** Entries of the same keys whose new values are the same exactly when the old ones
      count as the same. */
  ghost predicate Maps(alike: Relation, a: seq<PyEntry>, ra: seq<PyEntry>, b: seq<PyEntry>, rb: seq<PyEntry>)
  {
    && |ra| == |a| && |rb| == |b|
    && (forall i | 0 <= i < |a| :: ra[i].key == a[i].key) && (forall j | 0 <= j < |b| :: rb[j].key == b[j].key)
    && forall i, j | 0 <= i < |a| && 0 <= j < |b| && a[i].key == b[j].key ::
         Same(ra[i].value, rb[j].value) <==> alike(a[i].key, a[i].value, b[j].value)
  }

  lemma MappedSame(alike: Relation, a: seq<PyEntry>, ra: seq<PyEntry>, b: seq<PyEntry>, rb: seq<PyEntry>)
    requires Maps(alike, a, ra, b, rb)
    ensures Same(PyDict(ra), PyDict(rb)) <==> EntriesAlike(alike, a, b)
  {
    DictSameMeans(ra, rb);
    hide Same;
    forall i | 0 <= i < |a| ensures EntrySame(ra[i], rb) <==> AlikeIn(alike, a[i], b) {
      if j :| 0 <= j < |rb| && ra[i].key == rb[j].key && Same(ra[i].value, rb[j].value) { assert b[j].key == a[i].key; }
      if j :| 0 <= j < |b| && b[j].key == a[i].key && alike(a[i].key, a[i].value, b[j].value) { assert ra[i].key == rb[j].key; }
    }
    hide EntrySame, AlikeIn;
  }

  lemma {:induction false} MapAt(rule: EntryRule, entries: seq<PyEntry>)
    requires MapEntries(rule, entries).Ok?
    ensures |MapEntries(rule, entries).value| == |entries|
    ensures forall i | 0 <= i < |entries| :: rule(entries[i]) == Ok(MapEntries(rule, entries).value[i])
  {
    if entries != [] {
      MapAt(rule, entries[1..]);
      var r, rest := MapEntries(rule, entries).value, MapEntries(rule, entries[1..]).value;
      forall i | 0 <= i < |entries| ensures rule(entries[i]) == Ok(r[i]) {
        if i > 0 { assert entries[i] == entries[1..][i - 1] && r[i] == rest[i - 1]; }
      }
    }
  }

  // a deliver intent's selections

  lemma SelectedSame(show: Shown, key: PyKey, v: Py, w: Py)
    requires Dictionaries(v) && Dictionaries(w) && forall parts | SelectedSet(key, parts) :: SetKeyed(v, parts)
    requires NormalBy(show, SelectionShape(FieldName(key)), v).Ok? && NormalBy(show, SelectionShape(FieldName(key)), w).Ok?
    ensures Same(NormalBy(show, SelectionShape(FieldName(key)), v).value, NormalBy(show, SelectionShape(FieldName(key)), w).value)
            <==> SelectedAlike(key, v, w)
  {
    var shape := SelectionShape(FieldName(key));
    SelectionShapes(key);
    hide Same, Dictionaries, NormalList, Points, SetAlike, SetKeyed;
    if shape.SortedBy? { SetSame(show, v, w, shape.parts); }
  }

  lemma SelectionShapes(key: PyKey)
    ensures var shape := SelectionShape(FieldName(key));
            && !shape.Within? && !shape.Allowlist?
            && (shape.SortedBy? <==> Named(key, "catalogs") || Named(key, "skills"))
            && (shape.SortedBy? ==> SelectedSet(key, shape.parts))
  {
    NamesDiffer();
    hide Points;
    if key.StrKey? && SelectionShape(key.name).SortedBy? { ShapeIsTable(DeliverIntent, key, SelectionShape(key.name).parts); }
  }

  lemma SelectionsSame(show: Shown, v: Py, w: Py)
    requires v.PyDict? && w.PyDict? && Dictionaries(v) && Dictionaries(w) && SelectionsKeyed(v)
    requires NormalSelections(show, v).Ok? && NormalSelections(show, w).Ok?
    ensures Same(NormalSelections(show, v).value, NormalSelections(show, w).value)
            <==> EntriesAlike(SelectedAlike, v.entries, w.entries)
  {
    var rule, a, b := SelectionRule(show), v.entries, w.entries;
    var ra, rb := MapEntries(rule, a).value, MapEntries(rule, b).value;
    MapAt(rule, a);
    MapAt(rule, b);
    hide Same, Dictionaries, SelectionRule, SelectionsKeyed, EntriesAlike, SelectedAlike, MapEntries, Maps;
    SelectionsMapped(show, a, ra, b, rb);
    MappedSame(SelectedAlike, a, ra, b, rb);
  }

  lemma SelectionsMapped(show: Shown, a: seq<PyEntry>, ra: seq<PyEntry>, b: seq<PyEntry>, rb: seq<PyEntry>)
    requires Dictionaries(PyDict(a)) && Dictionaries(PyDict(b)) && SelectionsKeyed(PyDict(a)) && |ra| == |a| && |rb| == |b|
    requires forall i | 0 <= i < |a| :: SelectionRule(show)(a[i]) == Ok(ra[i])
    requires forall j | 0 <= j < |b| :: SelectionRule(show)(b[j]) == Ok(rb[j])
    ensures Maps(SelectedAlike, a, ra, b, rb)
  {
    hide Same, SelectionRule, SelectedAlike, SelectedSet, SetKeyed;
    forall i | 0 <= i < |a| ensures ra[i].key == a[i].key { SelectionKey(show, a[i]); }
    forall j | 0 <= j < |b| ensures rb[j].key == b[j].key { SelectionKey(show, b[j]); }
    forall i, j | 0 <= i < |a| && 0 <= j < |b| && a[i].key == b[j].key
      ensures Same(ra[i].value, rb[j].value) <==> SelectedAlike(a[i].key, a[i].value, b[j].value)
    {
      DictionaryAt(a, i);
      DictionaryAt(b, j);
      hide Dictionaries;
      SelectionEntry(show, a[i], b[j]);
    }
  }

  lemma SelectionKey(show: Shown, e: PyEntry)
    requires SelectionRule(show)(e).Ok?
    ensures SelectionRule(show)(e).value.key == e.key
  {
    hide NormalBy;
  }

  lemma SelectionEntry(show: Shown, e: PyEntry, f: PyEntry)
    requires e.key == f.key && Dictionaries(e.value) && Dictionaries(f.value)
    requires forall parts | SelectedSet(e.key, parts) :: SetKeyed(e.value, parts)
    requires SelectionRule(show)(e).Ok? && SelectionRule(show)(f).Ok?
    ensures Same(SelectionRule(show)(e).value.value, SelectionRule(show)(f).value.value) <==> SelectedAlike(e.key, e.value, f.value)
  {
    hide Same, Dictionaries, NormalBy, SelectionShape, SelectedAlike, SelectedSet, SetKeyed;
    SelectedSame(show, e.key, e.value, f.value);
  }

  // a plugin allowlist

  function ToolEntries(show: Shown, entries: seq<PyEntry>): seq<PyEntry>
  {
    seq(|entries|, i requires 0 <= i < |entries| => NormalTools(show, entries[i]))
  }

  lemma ToolsSame(show: Shown, e: PyEntry, f: PyEntry)
    requires e.key == f.key && Dictionaries(e.value) && Dictionaries(f.value)
    requires Named(e.key, "enabled_tools") ==> SetKeyed(e.value, [Itself])
    ensures Same(NormalTools(show, e).value, NormalTools(show, f).value) <==> ToolAlike(e.key, e.value, f.value)
  {
    if Named(e.key, "enabled_tools") {
      if e.value.PyList? && f.value.PyList? {
        ListDictionaries(e.value);
        ListDictionaries(f.value);
        SortedSame(show, e.value.items, f.value.items, [Itself]);
        hide Same;
      } else {
        hide SortItems, Points;
      }
    } else {
      hide Same;
    }
  }

  lemma PluginSame(show: Shown, p: Py, q: Py)
    requires p.PyDict? && q.PyDict? && Dictionaries(p) && Dictionaries(q) && ToolsKeyed(p)
    ensures Same(NormalPlugin(show, p), NormalPlugin(show, q)) <==> PluginAlike(p, q)
  {
    var a, b := p.entries, q.entries;
    var ra, rb := ToolEntries(show, a), ToolEntries(show, b);
    forall i, j | 0 <= i < |a| && 0 <= j < |b| && a[i].key == b[j].key
      ensures Same(ra[i].value, rb[j].value) <==> ToolAlike(a[i].key, a[i].value, b[j].value)
    {
      DictionaryAt(a, i);
      DictionaryAt(b, j);
      hide Same, Dictionaries, NormalTools, ToolAlike, SetKeyed;
      ToolsSame(show, a[i], b[j]);
    }
    assert forall i | 0 <= i < |a| :: ra[i].key == a[i].key;
    assert forall j | 0 <= j < |b| :: rb[j].key == b[j].key;
    hide Same, Dictionaries, NormalTools, ToolAlike;
    MappedSame(ToolAlike, a, ra, b, rb);
  }

  lemma {:induction false} Unmap(f: Py -> Py, v: seq<Py>, m: seq<Py>) returns (u: seq<Py>)
    requires multiset(m) == multiset(Map(f, v))
    ensures multiset(u) == multiset(v) && Map(f, u) == m
    decreases |m|
  {
    if m == [] {
      assert |multiset(Map(f, v))| == 0;
      u := [];
      assert v == [];
    } else {
      var j := UnmapOne(f, v, m);
      hide Except, Map;
      var rest := Unmap(f, Except(v, j), m[1..]);
      u := [v[j]] + rest;
      MapCons(f, v[j], rest);
      ExceptElements(v, j);
      assert multiset(u) == multiset{v[j]} + multiset(rest);
    }
  }

  lemma UnmapOne(f: Py -> Py, v: seq<Py>, m: seq<Py>) returns (j: nat)
    requires multiset(m) == multiset(Map(f, v)) && m != []
    ensures j < |v| && f(v[j]) == m[0] && multiset(m[1..]) == multiset(Map(f, Except(v, j)))
  {
    hide Except;
    assert m[0] in multiset(Map(f, v));
    j :| 0 <= j < |Map(f, v)| && Map(f, v)[j] == m[0];
    ExceptElements(Map(f, v), j);
    ExceptElements(m, 0);
    MapExcept(f, v, j);
    Cancelled(multiset(Except(m, 0)), multiset(Except(Map(f, v), j)), m[0]);
    ExceptFirst(m);
  }

  lemma MapCons(f: Py -> Py, x: Py, rest: seq<Py>)
    ensures Map(f, [x] + rest) == [f(x)] + Map(f, rest)
  { }

  lemma PluginsSame(show: Shown, v: seq<Py>, w: seq<Py>)
    requires forall i | 0 <= i < |v| :: v[i].PyDict? && Dictionaries(v[i]) && ToolsKeyed(v[i])
    requires forall i | 0 <= i < |w| :: w[i].PyDict? && Dictionaries(w[i])
    ensures SameItems(Map(PluginNormal(show), v), Map(PluginNormal(show), w)) <==> PluginsAlike(v, w)
  {
    var f := PluginNormal(show);
    hide NormalPlugin, ToolsKeyed, PluginAlike, Same, Dictionaries;
    if SameItems(Map(f, v), Map(f, w)) {
      var m: seq<Py> :| multiset(m) == multiset(Map(f, v)) && Pairwise(m, Map(f, w));
      var u := Unmap(f, v, m);
      PluginPairs(show, v, w, u);
    }
    if PluginsAlike(v, w) {
      var u: seq<Py> :| multiset(u) == multiset(v) && |u| == |w| && forall i | 0 <= i < |u| :: PluginAlike(u[i], w[i]);
      PluginPairs(show, v, w, u);
      MapPermuted(f, v, u);
      assert |multiset(u)| == |multiset(v)|;
    }
  }

  lemma PluginPairs(show: Shown, v: seq<Py>, w: seq<Py>, u: seq<Py>)
    requires forall i | 0 <= i < |v| :: v[i].PyDict? && Dictionaries(v[i]) && ToolsKeyed(v[i])
    requires forall i | 0 <= i < |w| :: w[i].PyDict? && Dictionaries(w[i])
    requires multiset(u) == multiset(v) && |u| == |w|
    ensures Pairwise(Map(PluginNormal(show), u), Map(PluginNormal(show), w)) <==> forall i | 0 <= i < |u| :: PluginAlike(u[i], w[i])
  {
    hide NormalPlugin, ToolsKeyed, PluginAlike, Same, Dictionaries;
    var f := PluginNormal(show);
    forall i | 0 <= i < |u| ensures Same(Map(f, u)[i], Map(f, w)[i]) <==> PluginAlike(u[i], w[i]) {
      assert u[i] in multiset(v);
      var k :| 0 <= k < |v| && v[k] == u[i];
      PluginSame(show, v[k], w[i]);
    }
  }

  // -- the whole resource -----------------------------------------------------------------------------------

  lemma AllowlistSame(show: Shown, v: Py, w: Py)
    requires v.PyList? && w.PyList? && Dictionaries(v) && Dictionaries(w)
    requires Keyed(v.items, PLUGIN_KEY) && forall i | 0 <= i < |v.items| :: ToolsKeyed(v.items[i])
    requires NormalAllowlist(show, v).Ok? && NormalAllowlist(show, w).Ok?
    ensures Same(NormalAllowlist(show, v).value, NormalAllowlist(show, w).value) <==> PluginsAlike(v.items, w.items)
  {
    var f, a, b := PluginNormal(show), v.items, w.items;
    ListDictionaries(v);
    ListDictionaries(w);
    AllowlistBySort(show, a);
    AllowlistBySort(show, b);
    NormalKeyed(show, a);
    NormalDictionaries(show, a);
    NormalDictionaries(show, b);
    PluginsSame(show, a, b) by { SortableDicts(a); SortableDicts(b); }
    hide NormalAllowlist, Same, Keyed, Dictionaries, ToolsKeyed, NormalPlugin, PluginsAlike, SameItems, SortItems, AllDictionaries;
    SortedSame(show, Map(f, a), Map(f, b), PLUGIN_KEY);
  }

  lemma SortableDicts(items: seq<Py>)
    requires Sortable(items, PLUGIN_KEY)
    ensures forall i | 0 <= i < |items| :: items[i].PyDict?
  {
    assert !(Itself in PLUGIN_KEY);
  }

  lemma NormalDictionary(show: Shown, p: Py)
    requires Dictionaries(p)
    ensures Dictionaries(NormalPlugin(show, p))
  {
    if p.PyDict? {
      forall i | 0 <= i < |p.entries| ensures Dictionaries(NormalTools(show, p.entries[i]).value) {
        DictionaryAt(p.entries, i);
        var e := p.entries[i];
        if e.value.PyList? {
          ListDictionaries(e.value);
          SortKeepsDictionaries(show, e.value.items, [Itself]);
          hide SortItems;
        }
      }
      DistinctKeysOf(p.entries);
      hide NormalTools;
      assert forall i | 0 <= i < |p.entries| :: NormalTools(show, p.entries[i]).key == p.entries[i].key by { ToolKeys(show, p.entries); }
    }
  }

  lemma ToolKeys(show: Shown, entries: seq<PyEntry>)
    ensures forall i | 0 <= i < |entries| :: NormalTools(show, entries[i]).key == entries[i].key
  { }

  lemma NormalDictionaries(show: Shown, items: seq<Py>)
    requires AllDictionaries(items)
    ensures AllDictionaries(Map(PluginNormal(show), items))
  {
    forall i | 0 <= i < |items| ensures Dictionaries(NormalPlugin(show, items[i])) { NormalDictionary(show, items[i]); }
    hide NormalPlugin, Dictionaries;
  }

  /** Sorting a plugin's tools leaves what tells plugins apart. */
  lemma NormalMember(show: Shown, p: Py, part: KeyPart)
    requires part in PLUGIN_KEY && TextKeyed(p, part)
    ensures TextKeyed(NormalPlugin(show, p), part) && KeyText(NormalPlugin(show, p), part) == KeyText(p, part)
  {
    var name := part.name;
    assert Points(name) != Points(ENABLED_TOOLS) by {
      PointsLength("plugin_id");
      PointsLength(ENABLED_TOOLS);
      assert Points("plugin_digest")[0] == 112 && Points(ENABLED_TOOLS)[0] == 101;
      assert |"plugin_id"| == 9 && |ENABLED_TOOLS| == 13;
    }
    hide Points;
    GetUnchanged(show, p.entries, name);
    hide Get, NormalTools;
  }

  lemma NormalKeyed(show: Shown, items: seq<Py>)
    requires Keyed(items, PLUGIN_KEY)
    ensures Keyed(Map(PluginNormal(show), items), PLUGIN_KEY)
  {
    hide NormalPlugin, TextKeyed, KeyText;
    var m := Map(PluginNormal(show), items);
    forall i, p | 0 <= i < |items| && 0 <= p < |PLUGIN_KEY| ensures TextKeyed(m[i], PLUGIN_KEY[p]) {
      NormalMember(show, items[i], PLUGIN_KEY[p]);
    }
    forall i, j | 0 <= i < j < |items| ensures KeysDiffer(m[i], m[j], PLUGIN_KEY) {
      assert KeysDiffer(items[i], items[j], PLUGIN_KEY);
      var p :| 0 <= p < |PLUGIN_KEY| && KeyText(items[i], PLUGIN_KEY[p]) != KeyText(items[j], PLUGIN_KEY[p]);
      NormalMember(show, items[i], PLUGIN_KEY[p]);
      NormalMember(show, items[j], PLUGIN_KEY[p]);
    }
  }

  lemma FieldShape(k: Kind, key: PyKey)
    ensures var shape := ShapeOf(k, FieldName(key));
            && (shape.Within? <==> Selections(k, key)) && (shape.Allowlist? <==> PluginAllowlist(k, key))
            && (shape.SortedBy? <==> InSet(k, key)) && (shape.SortedBy? ==> SetLike(k, key, shape.parts))
  {
    var shape := ShapeOf(k, FieldName(key));
    if key.StrKey? {
      forall parts ensures shape == SortedBy(parts) <==> SetLike(k, key, parts) { ShapeIsTable(k, key, parts); }
      hide ShapeOf, SetLike;
      if shape.SortedBy? { assert SetLike(k, key, shape.parts); }
    } else {
      NamesDiffer();
      NoName();
      hide Points;
    }
  }

  lemma NoName()
    ensures |Points("selections")| == 10 && |Points("plugins")| == 7 && |Points("settings")| == 8 && |Points("substitutions")| == 13
  {
    PointsLength("selections");
    PointsLength("plugins");
    PointsLength("settings");
    PointsLength("substitutions");
  }

  /** Two values of a field normalise to the same one exactly when they count as the same. */
  lemma FieldSame(show: Shown, k: Kind, e: PyEntry, f: PyEntry)
    requires e.key == f.key && Dictionaries(e.value) && Dictionaries(f.value) && FieldKeyed(k, e.key, e.value)
    requires FieldRule(show, k)(e).Ok? && FieldRule(show, k)(f).Ok?
    ensures Same(FieldRule(show, k)(e).value.value, FieldRule(show, k)(f).value.value) <==> FieldAlike(k, e.key, e.value, f.value)
    ensures FieldRule(show, k)(e).value.key == e.key
  {
    var shape, v, w := ShapeOf(k, FieldName(e.key)), e.value, f.value;
    FieldShape(k, e.key);
    hide ShapeOf, SetLike, Same, Dictionaries, Points;
    match shape
    case SortedBy(parts) => SetSame(show, v, w, parts); hide NormalList, SetAlike;
    case Within(_) =>
      if v.PyDict? && w.PyDict? { SelectionsSame(show, v, w); hide NormalSelections, SelectedAlike, EntriesAlike; }
      else { NotBothDicts(show, v, w); hide NormalSelections, SelectedAlike; }
    case Allowlist =>
      if v.PyList? && w.PyList? { AllowlistSame(show, v, w); hide NormalAllowlist, PluginsAlike; }
      else { NotBothLists(show, v, w); hide NormalAllowlist, PluginsAlike; }
    case AsIs =>
  }

  lemma NotBothDicts(show: Shown, v: Py, w: Py)
    requires !(v.PyDict? && w.PyDict?) && NormalSelections(show, v).Ok? && NormalSelections(show, w).Ok?
    ensures Same(NormalSelections(show, v).value, NormalSelections(show, w).value) <==> Same(v, w)
  {
    hide SelectionRule, MapEntries;
  }

  lemma NotBothLists(show: Shown, v: Py, w: Py)
    requires !(v.PyList? && w.PyList?) && NormalAllowlist(show, v).Ok? && NormalAllowlist(show, w).Ok?
    ensures Same(NormalAllowlist(show, v).value, NormalAllowlist(show, w).value) <==> Same(v, w)
  {
    hide SortItems, NormalPlugin;
  }

  /** `b` covers what the digest covers of `a`: every such field, at a value that counts as
      the same. */
  ghost predicate Covers(k: Kind, a: seq<PyEntry>, b: seq<PyEntry>)
  {
    forall i | 0 <= i < |a| && !Uncovered(k, a[i].key) ::
      exists j :: 0 <= j < |b| && b[j].key == a[i].key && FieldAlike(k, a[i].key, a[i].value, b[j].value)
  }

  /** Every field of `b` that the digest covers is one of `a`. */
  ghost predicate NoMore(k: Kind, a: seq<PyEntry>, b: seq<PyEntry>)
  {
    forall j | 0 <= j < |b| && !Uncovered(k, b[j].key) :: HasKey(a, b[j].key)
  }

  lemma {:induction false} WithoutMembers(k: Kind, entries: seq<PyEntry>)
    ensures forall e :: e in Without(k, entries) <==> e in entries && !Uncovered(k, e.key)
  {
    forall key ensures Dropped(k, key) <==> Uncovered(k, key) { UncoveredIsDropped(k, key); }
    hide Dropped, Uncovered;
    if entries != [] {
      WithoutMembers(k, entries[1..]);
      assert entries == [entries[0]] + entries[1..];
    }
  }

  lemma KeptCovers(k: Kind, a: seq<PyEntry>, b: seq<PyEntry>)
    requires Dictionaries(PyDict(a)) && Dictionaries(PyDict(b))
    ensures EntriesAlike((key, v, w) => FieldAlike(k, key, v, w), Without(k, a), Without(k, b)) <==> Covers(k, a, b) && NoMore(k, a, b)
  {
    var alike: Relation := (key, v, w) => FieldAlike(k, key, v, w);
    var x, y := Without(k, a), Without(k, b);
    WithoutMembers(k, a);
    WithoutMembers(k, b);
    WithoutKeepsDictionaries(k, a);
    WithoutKeepsDictionaries(k, b);
    hide Without, FieldAlike, Uncovered, Dictionaries;
    assert (forall i | 0 <= i < |x| :: AlikeIn(alike, x[i], y)) <==> Covers(k, a, b) by { AlikeCovers(k, a, b, x, y); }
    if Covers(k, a, b) {
      forall i | 0 <= i < |x| ensures HasKey(y, x[i].key) {
        assert AlikeIn(alike, x[i], y);
      }
      SameKeys(x, y);
      assert (forall j | 0 <= j < |y| :: HasKey(x, y[j].key)) <==> NoMore(k, a, b) by { KeysNoMore(k, a, b, x, y); }
    }
  }

  lemma AlikeCovers(k: Kind, a: seq<PyEntry>, b: seq<PyEntry>, x: seq<PyEntry>, y: seq<PyEntry>)
    requires forall e :: e in x <==> e in a && !Uncovered(k, e.key)
    requires forall e :: e in y <==> e in b && !Uncovered(k, e.key)
    ensures (forall i | 0 <= i < |x| :: AlikeIn((key, v, w) => FieldAlike(k, key, v, w), x[i], y)) <==> Covers(k, a, b)
  {
    var alike: Relation := (key, v, w) => FieldAlike(k, key, v, w);
    hide FieldAlike, Uncovered;
    if forall i | 0 <= i < |x| :: AlikeIn(alike, x[i], y) {
      forall i | 0 <= i < |a| && !Uncovered(k, a[i].key)
        ensures exists j :: 0 <= j < |b| && b[j].key == a[i].key && FieldAlike(k, a[i].key, a[i].value, b[j].value)
      {
        assert a[i] in x;
        var p :| 0 <= p < |x| && x[p] == a[i];
        assert AlikeIn(alike, x[p], y);
        var q :| 0 <= q < |y| && y[q].key == x[p].key && alike(x[p].key, x[p].value, y[q].value);
        assert y[q] in b;
        var j :| 0 <= j < |b| && b[j] == y[q];
      }
    }
    if Covers(k, a, b) {
      forall p | 0 <= p < |x| ensures AlikeIn(alike, x[p], y) {
        assert x[p] in a;
        var i :| 0 <= i < |a| && a[i] == x[p];
        var j :| 0 <= j < |b| && b[j].key == a[i].key && FieldAlike(k, a[i].key, a[i].value, b[j].value);
        assert b[j] in y;
        var q :| 0 <= q < |y| && y[q] == b[j];
        assert alike(x[p].key, x[p].value, y[q].value);
      }
    }
  }

  lemma KeysNoMore(k: Kind, a: seq<PyEntry>, b: seq<PyEntry>, x: seq<PyEntry>, y: seq<PyEntry>)
    requires forall e :: e in x <==> e in a && !Uncovered(k, e.key)
    requires forall e :: e in y <==> e in b && !Uncovered(k, e.key)
    ensures (forall j | 0 <= j < |y| :: HasKey(x, y[j].key)) <==> NoMore(k, a, b)
  {
    hide Uncovered;
    if forall j | 0 <= j < |y| :: HasKey(x, y[j].key) {
      forall j | 0 <= j < |b| && !Uncovered(k, b[j].key) ensures HasKey(a, b[j].key) {
        assert b[j] in y;
        var q :| 0 <= q < |y| && y[q] == b[j];
        assert HasKey(x, y[q].key);
        var p :| 0 <= p < |x| && x[p].key == y[q].key;
        assert x[p] in a;
      }
    }
    if NoMore(k, a, b) {
      forall q | 0 <= q < |y| ensures HasKey(x, y[q].key) {
        assert y[q] in b;
        var j :| 0 <= j < |b| && b[j] == y[q];
        assert HasKey(a, b[j].key);
        var i :| 0 <= i < |a| && a[i].key == b[j].key;
        assert a[i] in x;
      }
    }
  }

  /** Two resources of one kind have the same digest input exactly when, the fields the kind's
      digest does not cover aside, they have the same fields at values that count as the same:
      the same items in any order where a list is a set, and the same value elsewhere. */
  lemma SameDigestExactly(show: Shown, k: Kind, a: seq<PyEntry>, b: seq<PyEntry>)
    requires Dictionaries(PyDict(a)) && Dictionaries(PyDict(b))
    requires forall i | 0 <= i < |a| :: FieldKeyed(k, a[i].key, a[i].value)
    requires DigestInput(show, k, PyDict(a)).Ok? && DigestInput(show, k, PyDict(b)).Ok?
    ensures DigestInput(show, k, PyDict(a)) == DigestInput(show, k, PyDict(b)) <==> Covers(k, a, b) && NoMore(k, a, b)
  {
    var rule, x, y := FieldRule(show, k), Without(k, a), Without(k, b);
    DigestInputsAgreeExactly(show, k, k, PyDict(a), PyDict(b));
    hide Same, Dictionaries, FieldRule, FieldKeyed, Covers, NoMore, EntriesAlike, Without, Preimage, FieldAlike, Maps;
    var rx, ry := MapEntries(rule, x).value, MapEntries(rule, y).value;
    MapAt(rule, x);
    MapAt(rule, y);
    hide DigestInput, MapEntries;
    KeptKeyed(k, a);
    WithoutKeepsDictionaries(k, b);
    FieldsMapped(show, k, x, y, rx, ry);
    MappedSame((key, v, w) => FieldAlike(k, key, v, w), x, rx, y, ry);
    KeptCovers(k, a, b);
  }

  lemma KeptKeyed(k: Kind, a: seq<PyEntry>)
    requires Dictionaries(PyDict(a)) && forall i | 0 <= i < |a| :: FieldKeyed(k, a[i].key, a[i].value)
    ensures var x := Without(k, a); Dictionaries(PyDict(x)) && forall i | 0 <= i < |x| :: FieldKeyed(k, x[i].key, x[i].value)
  {
    var x := Without(k, a);
    WithoutKeepsDictionaries(k, a);
    hide FieldKeyed, Without, Dictionaries;
    forall i | 0 <= i < |x| ensures FieldKeyed(k, x[i].key, x[i].value) {
      assert x[i] in a;
      var p :| 0 <= p < |a| && a[p] == x[i];
    }
  }

  lemma FieldsMapped(show: Shown, k: Kind, x: seq<PyEntry>, y: seq<PyEntry>, rx: seq<PyEntry>, ry: seq<PyEntry>)
    requires Dictionaries(PyDict(x)) && Dictionaries(PyDict(y)) && forall i | 0 <= i < |x| :: FieldKeyed(k, x[i].key, x[i].value)
    requires |rx| == |x| && forall i | 0 <= i < |x| :: FieldRule(show, k)(x[i]) == Ok(rx[i])
    requires |ry| == |y| && forall j | 0 <= j < |y| :: FieldRule(show, k)(y[j]) == Ok(ry[j])
    ensures Maps((key, v, w) => FieldAlike(k, key, v, w), x, rx, y, ry)
  {
    hide Same, FieldRule, FieldAlike, FieldKeyed;
    forall i | 0 <= i < |x| ensures rx[i].key == x[i].key { FieldKey(show, k, x[i]); }
    forall j | 0 <= j < |y| ensures ry[j].key == y[j].key { FieldKey(show, k, y[j]); }
    forall i, j | 0 <= i < |x| && 0 <= j < |y| && x[i].key == y[j].key
      ensures Same(rx[i].value, ry[j].value) <==> FieldAlike(k, x[i].key, x[i].value, y[j].value)
    {
      DictionaryAt(x, i);
      DictionaryAt(y, j);
      hide Dictionaries;
      FieldSame(show, k, x[i], y[j]);
    }
  }

  lemma FieldKey(show: Shown, k: Kind, e: PyEntry)
    requires FieldRule(show, k)(e).Ok?
    ensures FieldRule(show, k)(e).value.key == e.key
  {
    hide NormalValue, ShapeOf;
  }

  // -- the order a set is written in -----------------------------------------------------------------------

  /** A list that counts as a set is written in ascending order of its keys, compared part by
      part and each part by code points. */
  lemma SetsAscend(show: Shown, v: Py, parts: seq<KeyPart>, i: nat, j: nat)
    requires NormalList(show, v, parts).Ok? && v.PyList? && Keyed(v.items, parts)
    requires i < j < |NormalList(show, v, parts).value.items|
    ensures var items := NormalList(show, v, parts).value.items;
            && (forall p | 0 <= p < |parts| :: TextKeyed(items[i], parts[p]) && TextKeyed(items[j], parts[p]))
            && exists p :: 0 <= p < |parts| && FirstDifference(items[i], items[j], parts, p)
                           && Before(KeyText(items[i], parts[p]), KeyText(items[j], parts[p]))
  {
    var items := SortItems(show, v.items, parts);
    TupleLessOrder();
    StableSort.SortIsStable(v.items, ItemKey(show, parts), TupleLess);
    KeyedIsDistinct(show, v.items, parts);
    StableSort.KeysStayDistinct(v.items, items, ItemKey(show, parts));
    var a, b := KeyTexts(show, items[i], parts), KeyTexts(show, items[j], parts);
    assert a != b && !TupleLess(b, a);
    assert TupleLess(a, b);
    assert items[i] in multiset(v.items) && items[j] in multiset(v.items);
    var x :| 0 <= x < |v.items| && v.items[x] == items[i];
    var y :| 0 <= y < |v.items| && v.items[y] == items[j];
    KeyedAt(v.items, parts, x);
    KeyedAt(v.items, parts, y);
    hide KeyText, TextKeyed, SortItems, Keyed, PartText, TupleLess;
    forall p | 0 <= p < |parts| ensures a[p] == KeyText(items[i], parts[p]) && b[p] == KeyText(items[j], parts[p]) {
      KeyIsText(show, items[i], parts[p]);
      KeyIsText(show, items[j], parts[p]);
    }
    var p := TupleDecides(a, b);
    assert FirstDifference(items[i], items[j], parts, p);
  }

  ghost predicate FirstDifference(a: Py, b: Py, parts: seq<KeyPart>, p: nat)
    requires p < |parts| && forall q | 0 <= q < |parts| :: TextKeyed(a, parts[q]) && TextKeyed(b, parts[q])
  {
    forall q | 0 <= q < p :: KeyText(a, parts[q]) == KeyText(b, parts[q])
  }

  lemma {:induction false} TupleDecides(a: seq<Text>, b: seq<Text>) returns (p: nat)
    requires |a| == |b| && TupleLess(a, b)
    ensures p < |a| && Before(a[p], b[p]) && forall q | 0 <= q < p :: a[q] == b[q]
  {
    if Before(a[0], b[0]) {
      p := 0;
    } else {
      var k := TupleDecides(a[1..], b[1..]);
      p := k + 1;
      forall q | 0 <= q < p ensures a[q] == b[q] { if q > 0 { assert a[q] == a[1..][q - 1] && b[q] == b[1..][q - 1]; } }
    }
  }
}
