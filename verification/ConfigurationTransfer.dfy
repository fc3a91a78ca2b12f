/** Export, import and reset of an actor's settings (workbench/configuration_transfer.py)
    over the versioned preference store (workbench/preference_store.py).  Typed
    validation of a value against its descriptor is a parameter. */
module ConfigurationTransfer {
  import opened Outcomes
  import opened Sequences

  datatype Value = BoolValue(b: bool) | IntValue(i: int) | TextValue(s: string)

  datatype Scope = Personal | Project | Deployment | Policy

  /** A setting descriptor: `portable` says it is in the actor view, `writable` that it is
      neither environment-managed nor approval-gated, `refKind` is set for references. */
  datatype Descriptor = Descriptor(
    scope: Scope, portable: bool, writable: bool, default: Option<Value>, refKind: Option<string>, ceiling: Option<int>)

  type Validator = (Descriptor, Value) -> bool

  datatype Catalog = Catalog(byId: map<string, Descriptor>, accepts: Validator)

  /** The references currently available, by kind; a kind not listed is not checked. */
  type References = map<string, set<Value>>

  datatype Slot = Slot(scope: Scope, key: string, id: string)
  datatype Stored = Stored(value: Value, version: nat)
  type Preferences = map<Slot, Stored>

  datatype Importer = Importer(actor: string, project: Option<string>)

  /** The namespace a scope binds to, if there is one. */
  function ScopeKey(scope: Scope, who: Importer): Option<string>
  {
    match scope
    case Personal => if who.actor == "" then None else Some(who.actor)
    case Project => if who.project.Some? && who.project.value != "" then who.project else None
    case _ => None
  }

  /** Where a setting of `who` is stored. */
  function SlotFor(c: Catalog, who: Importer, id: string): Slot
    requires id in c.byId && ScopeKey(c.byId[id].scope, who).Some?
  {
    Slot(c.byId[id].scope, ScopeKey(c.byId[id].scope, who).value, id)
  }

  function VersionOf(prefs: Preferences, slot: Slot): nat
  {
    if slot in prefs then prefs[slot].version else 0
  }

  // -- the effective value ------------------------------------------------------------

  function Unavailable(d: Descriptor, v: Value, refs: References): bool
  {
    d.refKind.Some? && d.refKind.value in refs && v !in refs[d.refKind.value]
  }

  /** `resolve_effective_value(...).value` */
  function Effective(d: Descriptor, stored: Option<Value>, refs: References): Option<Value>
  {
    var chosen := if stored.Some? then stored else d.default;
    if chosen.None? then None
    else if Unavailable(d, chosen.value, refs) then
      if d.default.Some? && !Unavailable(d, d.default.value, refs) then d.default else None
    else if d.ceiling.Some? && chosen.value.IntValue? && chosen.value.i > d.ceiling.value then Some(IntValue(d.ceiling.value))
    else chosen
  }

  function StoredValue(prefs: Preferences, slot: Slot): Option<Value>
  {
    if slot in prefs then Some(prefs[slot].value) else None
  }

  function EffectiveFor(c: Catalog, prefs: Preferences, refs: References, who: Importer, id: string): Option<Value>
    requires id in c.byId
  {
    var d := c.byId[id];
    var key := ScopeKey(d.scope, who);
    Effective(d, if key.Some? then StoredValue(prefs, Slot(d.scope, key.value, id)) else None, refs)
  }

  // -- classifying an import -------------------------------------------------------------

  datatype Entry = Entry(id: string, scope: Option<Scope>, value: Value)

  datatype Verdict =
    | Repairable | SkippedReadOnly | UnavailableReference | NoOp
    | Create(value: Value) | Change(from: Value, to: Value, version: nat) | Reset(from: Value, version: nat)

  /** What storing `value` would do to a setting, given what is stored. */
  function Effect(d: Descriptor, stored: Option<Stored>, value: Value): Verdict
  {
    if stored.Some? && stored.value.value == value then NoOp
    else if d.default == Some(value) && stored.Some? then Reset(stored.value.value, stored.value.version)
    else if d.default == Some(value) then NoOp
    else if stored.None? then Create(value)
    else Change(stored.value.value, value, stored.value.version)
  }

  function VerdictOn(c: Catalog, prefs: Preferences, refs: References, who: Importer, e: Entry, seen: bool): Verdict
  {
    if seen || e.id !in c.byId then Repairable
    else
      var d := c.byId[e.id];
      if !d.portable then SkippedReadOnly
      else if e.scope.Some? && e.scope.value != d.scope then Repairable
      else if ScopeKey(d.scope, who).None? then SkippedReadOnly
      else if !c.accepts(d, e.value) then Repairable
      else if Unavailable(d, e.value, refs) then UnavailableReference
      else
        var slot := Slot(d.scope, ScopeKey(d.scope, who).value, e.id);
        Effect(d, if slot in prefs then Some(prefs[slot]) else None, e.value)
  }

  predicate Repeated(entries: seq<Entry>, i: nat)
    requires i < |entries|
  {
    exists j | 0 <= j < i :: entries[j].id == entries[i].id
  }

  function Verdicts(c: Catalog, prefs: Preferences, refs: References, who: Importer, entries: seq<Entry>): (r: seq<Verdict>)
    ensures |r| == |entries|
  {
    seq(|entries|, i requires 0 <= i < |entries| => VerdictOn(c, prefs, refs, who, entries[i], Repeated(entries, i)))
  }

  /** When an entry is of which category: repairable if it repeats an id, names no setting, or
      does not fit the setting's scope or type; skipped if the setting is not the actor's to
      carry, or there is no project to bind it to; unavailable if it refers to something that is
      not there.  Otherwise it writes exactly when it would change what is stored: a first value
      other than the default is created, a stored one changed, or reset when the new one is the
      default. */
  lemma VerdictExactly(c: Catalog, prefs: Preferences, refs: References, who: Importer, e: Entry, seen: bool)
    ensures var v := VerdictOn(c, prefs, refs, who, e, seen);
            var known := !seen && e.id in c.byId;
            var fits := known && c.byId[e.id].portable && (e.scope.None? || e.scope.value == c.byId[e.id].scope);
            var bound := fits && ((c.byId[e.id].scope == Personal && who.actor != "")
                                  || (c.byId[e.id].scope == Project && who.project.Some? && who.project.value != ""));
            var typed := bound && c.accepts(c.byId[e.id], e.value);
            var missing := typed && c.byId[e.id].refKind.Some? && c.byId[e.id].refKind.value in refs
                           && e.value !in refs[c.byId[e.id].refKind.value];
            && (v == Repairable <==> !known || (c.byId[e.id].portable && !fits) || (bound && !typed))
            && (v == SkippedReadOnly <==> known && (!c.byId[e.id].portable || (fits && !bound)))
            && (v == UnavailableReference <==> missing)
            && (typed && !missing ==>
                  var d := c.byId[e.id];
                  var slot := Slot(d.scope, if d.scope == Personal then who.actor else who.project.value, e.id);
                  v == if slot in prefs then
                         if prefs[slot].value == e.value then NoOp
                         else if d.default == Some(e.value) then Reset(prefs[slot].value, prefs[slot].version)
                         else Change(prefs[slot].value, e.value, prefs[slot].version)
                       else if d.default == Some(e.value) then NoOp else Create(e.value))
  { }

  /** The value a setting has: the stored one, or the default; the default again, or none, for
      a reference that is not there; and no number above the ceiling. */
  lemma EffectiveExactly(d: Descriptor, stored: Option<Value>, refs: References)
    ensures var v := Effective(d, stored, refs);
            var chosen := if stored.Some? then stored else d.default;
            var there := (x: Option<Value>) => x.Some? && (d.refKind.None? || d.refKind.value !in refs || x.value in refs[d.refKind.value]);
            && (chosen.None? ==> v.None?)
            && (chosen.Some? && !there(chosen) ==> v == if there(d.default) then d.default else None)
            && (there(chosen) && d.ceiling.Some? && chosen.value.IntValue? ==>
                  v == Some(IntValue(if chosen.value.i <= d.ceiling.value then chosen.value.i else d.ceiling.value)))
            && (there(chosen) && (d.ceiling.None? || !chosen.value.IntValue?) ==> v == chosen)
  { }

  /** The categories an import preview lists; each is the entries with that verdict. */
  datatype Plan = Plan(
    creates: seq<nat>, changes: seq<nat>, resets: seq<nat>, skipped: seq<nat>, unavailable: seq<nat>,
    noOps: seq<nat>, repairable: seq<nat>)

  function Where(verdicts: seq<Verdict>, kind: Verdict -> bool, n: nat): seq<nat>
    requires n <= |verdicts|
  {
    if n == 0 then []
    else if kind(verdicts[n - 1]) then Where(verdicts, kind, n - 1) + [n - 1]
    else Where(verdicts, kind, n - 1)
  }

  function PlanOf(verdicts: seq<Verdict>, n: nat): Plan
    requires n <= |verdicts|
  {
    Plan(Where(verdicts, (v: Verdict) => v.Create?, n), Where(verdicts, (v: Verdict) => v.Change?, n),
         Where(verdicts, (v: Verdict) => v.Reset?, n), Where(verdicts, (v: Verdict) => v.SkippedReadOnly?, n),
         Where(verdicts, (v: Verdict) => v.UnavailableReference?, n), Where(verdicts, (v: Verdict) => v.NoOp?, n),
         Where(verdicts, (v: Verdict) => v.Repairable?, n))
  }

  /** `_classify`: one pass over the entries, filling the category lists. */
  method Classify(c: Catalog, prefs: Preferences, refs: References, who: Importer, entries: seq<Entry>)
    returns (verdicts: seq<Verdict>, plan: Plan)
    ensures verdicts == Verdicts(c, prefs, refs, who, entries) && plan == PlanOf(verdicts, |verdicts|)
  {
    var seen: set<string> := {};
    verdicts := [];
    plan := Plan([], [], [], [], [], [], []);
    hide VerdictOn, PlanOf;
    ghost var all := Verdicts(c, prefs, refs, who, entries);
    PlanOfNone(all);
    for i := 0 to |entries|
      invariant verdicts == all[..i] && plan == PlanOf(all, i)
      invariant forall id :: id in seen <==> exists j | 0 <= j < i :: entries[j].id == id
    {
      var e := entries[i];
      var v := VerdictOn(c, prefs, refs, who, e, e.id in seen);
      assert v == all[i];
      PlanNext(all, i);
      match v {
        case Create(_) => plan := plan.(creates := plan.creates + [i]);
        case Change(_, _, _) => plan := plan.(changes := plan.changes + [i]);
        case Reset(_, _) => plan := plan.(resets := plan.resets + [i]);
        case SkippedReadOnly => plan := plan.(skipped := plan.skipped + [i]);
        case UnavailableReference => plan := plan.(unavailable := plan.unavailable + [i]);
        case NoOp => plan := plan.(noOps := plan.noOps + [i]);
        case Repairable => plan := plan.(repairable := plan.repairable + [i]);
      }
      verdicts := verdicts + [v];
      seen := seen + {e.id};
    }
  }

  lemma PlanOfNone(all: seq<Verdict>)
    ensures PlanOf(all, 0) == Plan([], [], [], [], [], [], [])
  { }

  /** The next entry joins the list of its own category. */
  lemma PlanNext(all: seq<Verdict>, i: nat)
    requires i < |all|
    ensures PlanOf(all, i + 1) == var plan := PlanOf(all, i);
              match all[i]
              case Create(_) => plan.(creates := plan.creates + [i])
              case Change(_, _, _) => plan.(changes := plan.changes + [i])
              case Reset(_, _) => plan.(resets := plan.resets + [i])
              case SkippedReadOnly => plan.(skipped := plan.skipped + [i])
              case UnavailableReference => plan.(unavailable := plan.unavailable + [i])
              case NoOp => plan.(noOps := plan.noOps + [i])
              case Repairable => plan.(repairable := plan.repairable + [i])
  { }

  lemma {:induction false} WhereMembers(verdicts: seq<Verdict>, kind: Verdict -> bool, n: nat)
    requires n <= |verdicts|
    ensures forall i: nat :: i in Where(verdicts, kind, n) <==> i < n && kind(verdicts[i])
  {
    if n > 0 { WhereMembers(verdicts, kind, n - 1); }
  }

  lemma {:induction false} PlanCounts(verdicts: seq<Verdict>, n: nat)
    requires n <= |verdicts|
    ensures var p := PlanOf(verdicts, n);
            |p.creates| + |p.changes| + |p.resets| + |p.skipped| + |p.unavailable| + |p.noOps| + |p.repairable| == n
  {
    if n > 0 { PlanCounts(verdicts, n - 1); }
  }

  /** How many of the seven categories list entry `i`. */
  function Listings(p: Plan, i: nat): nat
  {
    (if i in p.creates then 1 else 0) + (if i in p.changes then 1 else 0) + (if i in p.resets then 1 else 0)
    + (if i in p.skipped then 1 else 0) + (if i in p.unavailable then 1 else 0) + (if i in p.noOps then 1 else 0)
    + (if i in p.repairable then 1 else 0)
  }

  /** And each category lists exactly the entries of its verdict. */
  lemma CategoriesExactly(verdicts: seq<Verdict>, i: nat)
    ensures var p := PlanOf(verdicts, |verdicts|);
            && (i in p.creates <==> i < |verdicts| && verdicts[i].Create?)
            && (i in p.changes <==> i < |verdicts| && verdicts[i].Change?)
            && (i in p.resets <==> i < |verdicts| && verdicts[i].Reset?)
            && (i in p.skipped <==> i < |verdicts| && verdicts[i].SkippedReadOnly?)
            && (i in p.unavailable <==> i < |verdicts| && verdicts[i].UnavailableReference?)
            && (i in p.noOps <==> i < |verdicts| && verdicts[i].NoOp?)
            && (i in p.repairable <==> i < |verdicts| && verdicts[i].Repairable?)
  {
    var n := |verdicts|;
    WhereMembers(verdicts, (v: Verdict) => v.Create?, n);
    WhereMembers(verdicts, (v: Verdict) => v.Change?, n);
    WhereMembers(verdicts, (v: Verdict) => v.Reset?, n);
    WhereMembers(verdicts, (v: Verdict) => v.SkippedReadOnly?, n);
    WhereMembers(verdicts, (v: Verdict) => v.UnavailableReference?, n);
    WhereMembers(verdicts, (v: Verdict) => v.NoOp?, n);
    WhereMembers(verdicts, (v: Verdict) => v.Repairable?, n);
    hide Where;
  }

  /** Every entry of an envelope lands in exactly one category, and the categories list
      nothing else. */
  lemma EveryEntryOnce(verdicts: seq<Verdict>, i: nat)
    ensures Listings(PlanOf(verdicts, |verdicts|), i) == if i < |verdicts| then 1 else 0
    ensures var p := PlanOf(verdicts, |verdicts|);
            |p.creates| + |p.changes| + |p.resets| + |p.skipped| + |p.unavailable| + |p.noOps| + |p.repairable| == |verdicts|
  {
    var n := |verdicts|;
    PlanCounts(verdicts, n);
    WhereMembers(verdicts, (v: Verdict) => v.Create?, n);
    WhereMembers(verdicts, (v: Verdict) => v.Change?, n);
    WhereMembers(verdicts, (v: Verdict) => v.Reset?, n);
    WhereMembers(verdicts, (v: Verdict) => v.SkippedReadOnly?, n);
    WhereMembers(verdicts, (v: Verdict) => v.UnavailableReference?, n);
    WhereMembers(verdicts, (v: Verdict) => v.NoOp?, n);
    WhereMembers(verdicts, (v: Verdict) => v.Repairable?, n);
    hide Where;
  }

  // -- the preference store's batch -------------------------------------------------------

  datatype Operation = SetTo(slot: Slot, value: Value, expected: nat) | ResetTo(slot: Slot, expected: nat)

  datatype BatchError = DuplicateOperation | UnknownPreference | NotWritable | InvalidValue | StaleWrite(current: nat)

  function CheckOperation(c: Catalog, prefs: Preferences, ops: seq<Operation>, i: nat): Option<BatchError>
    requires i < |ops|
  {
    var op := ops[i];
    if exists j | 0 <= j < i :: ops[j].slot == op.slot then Some(DuplicateOperation)
    else if op.slot.id !in c.byId || c.byId[op.slot.id].scope != op.slot.scope then Some(UnknownPreference)
    else if !c.byId[op.slot.id].writable then Some(NotWritable)
    else if op.SetTo? && !c.accepts(c.byId[op.slot.id], op.value) then Some(InvalidValue)
    else if op.expected != VersionOf(prefs, op.slot) then Some(StaleWrite(VersionOf(prefs, op.slot)))
    else None
  }

  function FirstRefusal(c: Catalog, prefs: Preferences, ops: seq<Operation>, i: nat): Option<BatchError>
    requires i <= |ops|
    decreases |ops| - i
  {
    if i == |ops| then None
    else if CheckOperation(c, prefs, ops, i).Some? then CheckOperation(c, prefs, ops, i)
    else FirstRefusal(c, prefs, ops, i + 1)
  }

  /** The first `n` operations committed, each over the version it was checked against. */
  function Commit(prefs: Preferences, ops: seq<Operation>, n: nat): Preferences
    requires n <= |ops|
  {
    if n == 0 then prefs
    else
      var before, op := Commit(prefs, ops, n - 1), ops[n - 1];
      if op.SetTo? then before[op.slot := Stored(op.value, VersionOf(prefs, op.slot) + 1)] else before - {op.slot}
  }

  class MemoryPreferenceStore {
    var records: Preferences

    /** Validate everything and check every version, and only then commit everything. */
    method ApplyBatch(c: Catalog, ops: seq<Operation>) returns (refused: Option<BatchError>)
      modifies this
      ensures refused == FirstRefusal(c, old(records), ops, 0)
      ensures records == if refused.Some? then old(records) else Commit(old(records), ops, |ops|)
    {
      var seen: set<Slot> := {};
      for i := 0 to |ops|
        invariant records == old(records) && FirstRefusal(c, records, ops, 0) == FirstRefusal(c, records, ops, i)
        invariant forall slot :: slot in seen <==> exists j | 0 <= j < i :: ops[j].slot == slot
      {
        var op := ops[i];
        if op.slot in seen { return Some(DuplicateOperation); }
        seen := seen + {op.slot};
        if op.slot.id !in c.byId || c.byId[op.slot.id].scope != op.slot.scope { return Some(UnknownPreference); }
        var d := c.byId[op.slot.id];
        if !d.writable { return Some(NotWritable); }
        if op.SetTo? && !c.accepts(d, op.value) { return Some(InvalidValue); }
        var current := VersionOf(records, op.slot);
        if op.expected != current { return Some(StaleWrite(current)); }
      }
      var checked := records;
      for i := 0 to |ops|
        invariant records == Commit(checked, ops, i)
      {
        var op := ops[i];
        if op.SetTo? {
          records := records[op.slot := Stored(op.value, VersionOf(checked, op.slot) + 1)];
        } else {
          records := records - {op.slot};
        }
      }
      return None;
    }
  }

  predicate DistinctSlots(ops: seq<Operation>)
  {
    forall i, j | 0 <= i < j < |ops| :: ops[i].slot != ops[j].slot
  }

  lemma {:induction false} CommittedAt(prefs: Preferences, ops: seq<Operation>, n: nat, k: nat)
    requires DistinctSlots(ops) && k < n <= |ops|
    ensures var after, op := Commit(prefs, ops, n), ops[k];
            if op.SetTo? then op.slot in after && after[op.slot] == Stored(op.value, VersionOf(prefs, op.slot) + 1)
            else op.slot !in after
  {
    if k < n - 1 {
      CommittedAt(prefs, ops, n - 1, k);
      assert ops[k].slot != ops[n - 1].slot;
    }
  }

  lemma {:induction false} CommittedElsewhere(prefs: Preferences, ops: seq<Operation>, n: nat, slot: Slot)
    requires n <= |ops| && forall k | 0 <= k < n :: ops[k].slot != slot
    ensures (slot in Commit(prefs, ops, n) <==> slot in prefs)
         && (slot in prefs ==> Commit(prefs, ops, n)[slot] == prefs[slot])
  {
    if n > 0 { CommittedElsewhere(prefs, ops, n - 1, slot); }
  }

  lemma {:induction false} NoRefusal(c: Catalog, prefs: Preferences, ops: seq<Operation>, i: nat)
    requires i <= |ops|
    ensures FirstRefusal(c, prefs, ops, i).None? <==> forall k | i <= k < |ops| :: CheckOperation(c, prefs, ops, k).None?
    decreases |ops| - i
  {
    hide CheckOperation;
    if i < |ops| { NoRefusal(c, prefs, ops, i + 1); }
  }

  /** A batch is let through exactly when no two of its operations name one setting, each names
      a known setting in its own scope that may be written, each value fits, and every expected
      version is the current one. */
  lemma BatchExactly(c: Catalog, prefs: Preferences, ops: seq<Operation>)
    ensures FirstRefusal(c, prefs, ops, 0).None? <==>
              && (forall i, j | 0 <= i < j < |ops| :: ops[i].slot != ops[j].slot)
              && (forall k | 0 <= k < |ops| :: OperationPasses(c, prefs, ops[k]))
  {
    NoRefusal(c, prefs, ops, 0);
    hide FirstRefusal, CheckOperation, VersionOf;
    forall k | 0 <= k < |ops|
      ensures CheckOperation(c, prefs, ops, k).None? <==> OperationPasses(c, prefs, ops[k]) && forall j | 0 <= j < k :: ops[j].slot != ops[k].slot
    {
      OperationChecked(c, prefs, ops, k);
    }
  }

  ghost predicate OperationPasses(c: Catalog, prefs: Preferences, op: Operation)
  {
    && op.slot.id in c.byId && c.byId[op.slot.id].scope == op.slot.scope && c.byId[op.slot.id].writable
    && (op.SetTo? ==> c.accepts(c.byId[op.slot.id], op.value))
    && op.expected == if op.slot in prefs then prefs[op.slot].version else 0
  }

  lemma OperationChecked(c: Catalog, prefs: Preferences, ops: seq<Operation>, k: nat)
    requires k < |ops|
    ensures CheckOperation(c, prefs, ops, k).None? <==> OperationPasses(c, prefs, ops[k]) && forall j | 0 <= j < k :: ops[j].slot != ops[k].slot
  { }

  /** And then each setting holds what its operation says, one version on, and no other setting
      changes. */
  lemma BatchCommits(c: Catalog, prefs: Preferences, ops: seq<Operation>, slot: Slot)
    requires FirstRefusal(c, prefs, ops, 0).None?
    ensures var after := Commit(prefs, ops, |ops|);
            && (forall k | 0 <= k < |ops| && ops[k].slot == slot ::
                  if ops[k].SetTo? then slot in after && after[slot] == Stored(ops[k].value, ops[k].expected + 1) else slot !in after)
            && ((forall k | 0 <= k < |ops| :: ops[k].slot != slot) ==>
                  (slot in after <==> slot in prefs) && (slot in prefs ==> after[slot] == prefs[slot]))
  {
    AcceptedDistinct(c, prefs, ops);
    NoRefusal(c, prefs, ops, 0);
    hide FirstRefusal, Commit, DistinctSlots;
    if k :| 0 <= k < |ops| && ops[k].slot == slot {
      CommittedAt(prefs, ops, |ops|, k);
      assert CheckOperation(c, prefs, ops, k).None?;
      SlotOnce(ops, k);
    } else {
      CommittedElsewhere(prefs, ops, |ops|, slot);
    }
  }

  lemma SlotOnce(ops: seq<Operation>, k: nat)
    requires DistinctSlots(ops) && k < |ops|
    ensures forall j | 0 <= j < |ops| && ops[j].slot == ops[k].slot :: j == k
  { }

  // -- applying an import -------------------------------------------------------------------

  predicate Writes(v: Verdict) { v.Create? || v.Change? || v.Reset? }

  /** The operation for an entry with a writing verdict; `base` is the caller's preview. */
  function OperationOf(c: Catalog, who: Importer, e: Entry, v: Verdict, base: map<string, nat>): Operation
    requires e.id in c.byId && ScopeKey(c.byId[e.id].scope, who).Some? && Writes(v)
  {
    var slot := SlotFor(c, who, e.id);
    match v
    case Create(value) => SetTo(slot, value, if e.id in base then base[e.id] else 0)
    case Change(_, to, version) => SetTo(slot, to, if e.id in base then base[e.id] else version)
    case Reset(_, version) => ResetTo(slot, if e.id in base then base[e.id] else version)
  }

  lemma WritingVerdict(c: Catalog, prefs: Preferences, refs: References, who: Importer, e: Entry, seen: bool)
    requires Writes(VerdictOn(c, prefs, refs, who, e, seen))
    ensures !seen && e.id in c.byId && ScopeKey(c.byId[e.id].scope, who).Some? && c.byId[e.id].portable
    ensures c.accepts(c.byId[e.id], e.value)
  { }

  /** The planned operations, for the entries listed in `order`. */
  function Operations(c: Catalog, prefs: Preferences, refs: References, who: Importer, entries: seq<Entry>,
                      base: map<string, nat>, order: seq<nat>): (r: seq<Operation>)
    requires forall k | 0 <= k < |order| :: order[k] < |entries| && Writes(Verdicts(c, prefs, refs, who, entries)[order[k]])
    ensures |r| == |order|
  {
    seq(|order|, k requires 0 <= k < |order| =>
      var i := order[k];
      var v := VerdictOn(c, prefs, refs, who, entries[i], Repeated(entries, i));
      assert v == Verdicts(c, prefs, refs, who, entries)[i];
      WritingVerdict(c, prefs, refs, who, entries[i], Repeated(entries, i));
      OperationOf(c, who, entries[i], v, base))
  }

  /** The order in which the plan's entries are written. */
  function WriteOrder(p: Plan): seq<nat> { p.creates + p.changes + p.resets }

  lemma {:induction false} WhereAt(verdicts: seq<Verdict>, kind: Verdict -> bool, n: nat, k: nat)
    requires n <= |verdicts| && k < |Where(verdicts, kind, n)|
    ensures Where(verdicts, kind, n)[k] < n && kind(verdicts[Where(verdicts, kind, n)[k]])
  {
    if k < |Where(verdicts, kind, n - 1)| { WhereAt(verdicts, kind, n - 1, k); }
  }

  lemma {:induction false} WhereAscends(verdicts: seq<Verdict>, kind: Verdict -> bool, n: nat, a: nat, b: nat)
    requires n <= |verdicts| && a < b < |Where(verdicts, kind, n)|
    ensures Where(verdicts, kind, n)[a] < Where(verdicts, kind, n)[b]
  {
    if b < |Where(verdicts, kind, n - 1)| { WhereAscends(verdicts, kind, n - 1, a, b); }
    else { WhereAt(verdicts, kind, n - 1, a); }
  }

  /** The plan's write order holds each entry with a writing verdict, once. */
  lemma OrderAt(verdicts: seq<Verdict>, k: nat)
    requires k < |WriteOrder(PlanOf(verdicts, |verdicts|))|
    ensures var i := WriteOrder(PlanOf(verdicts, |verdicts|))[k];
            && i < |verdicts| && Writes(verdicts[i])
            && (verdicts[i].Create? <==> k < |PlanOf(verdicts, |verdicts|).creates|)
            && (verdicts[i].Reset? <==> k >= |PlanOf(verdicts, |verdicts|).creates| + |PlanOf(verdicts, |verdicts|).changes|)
  {
    var n, p := |verdicts|, PlanOf(verdicts, |verdicts|);
    if k < |p.creates| {
      WhereAt(verdicts, (v: Verdict) => v.Create?, n, k);
    } else if k < |p.creates| + |p.changes| {
      WhereAt(verdicts, (v: Verdict) => v.Change?, n, k - |p.creates|);
    } else {
      WhereAt(verdicts, (v: Verdict) => v.Reset?, n, k - |p.creates| - |p.changes|);
    }
    hide Where;
  }

  lemma OrderDistinct(verdicts: seq<Verdict>, a: nat, b: nat)
    requires a < b < |WriteOrder(PlanOf(verdicts, |verdicts|))|
    ensures WriteOrder(PlanOf(verdicts, |verdicts|))[a] != WriteOrder(PlanOf(verdicts, |verdicts|))[b]
  {
    var n, p := |verdicts|, PlanOf(verdicts, |verdicts|);
    OrderAt(verdicts, a);
    OrderAt(verdicts, b);
    if b < |p.creates| {
      WhereAscends(verdicts, (v: Verdict) => v.Create?, n, a, b);
    } else if |p.creates| <= a && b < |p.creates| + |p.changes| {
      WhereAscends(verdicts, (v: Verdict) => v.Change?, n, a - |p.creates|, b - |p.creates|);
    } else if |p.creates| + |p.changes| <= a {
      WhereAscends(verdicts, (v: Verdict) => v.Reset?, n, a - |p.creates| - |p.changes|, b - |p.creates| - |p.changes|);
    }
    hide Where;
  }

  lemma OrderHolds(verdicts: seq<Verdict>, i: nat)
    requires i < |verdicts| && Writes(verdicts[i])
    ensures i in WriteOrder(PlanOf(verdicts, |verdicts|))
  {
    WhereMembers(verdicts, (v: Verdict) => v.Create?, |verdicts|);
    WhereMembers(verdicts, (v: Verdict) => v.Change?, |verdicts|);
    WhereMembers(verdicts, (v: Verdict) => v.Reset?, |verdicts|);
    hide Where;
  }

  lemma OrderAll(verdicts: seq<Verdict>)
    ensures var order := WriteOrder(PlanOf(verdicts, |verdicts|));
            forall k | 0 <= k < |order| :: order[k] < |verdicts| && Writes(verdicts[order[k]])
  {
    var order := WriteOrder(PlanOf(verdicts, |verdicts|));
    forall k | 0 <= k < |order| ensures order[k] < |verdicts| && Writes(verdicts[order[k]]) { OrderAt(verdicts, k); }
  }

  /** `_plan_operations` over creates, changes and resets. */
  function ImportOperations(c: Catalog, prefs: Preferences, refs: References, who: Importer, entries: seq<Entry>,
                            base: map<string, nat>): seq<Operation>
  {
    var verdicts := Verdicts(c, prefs, refs, who, entries);
    OrderAll(verdicts);
    Operations(c, prefs, refs, who, entries, base, WriteOrder(PlanOf(verdicts, |verdicts|)))
  }

  datatype ImportError = ImportInvalid | BatchRefused(error: BatchError)

  /** `import_apply`: refused whole when any field is repairable, committed whole or not at all. */
  method ImportApply(c: Catalog, store: MemoryPreferenceStore, refs: References, who: Importer, entries: seq<Entry>,
                     base: map<string, nat>) returns (r: Result<Plan, ImportError>)
    modifies store
    ensures var prefs := old(store.records);
            var verdicts := Verdicts(c, prefs, refs, who, entries);
            var plan := PlanOf(verdicts, |verdicts|);
            var ops := ImportOperations(c, prefs, refs, who, entries, base);
            if plan.repairable != [] then r == Err(ImportInvalid) && store.records == prefs
            else if FirstRefusal(c, prefs, ops, 0).Some?
            then r == Err(BatchRefused(FirstRefusal(c, prefs, ops, 0).value)) && store.records == prefs
            else r == Ok(plan) && store.records == Commit(prefs, ops, |ops|)
  {
    hide Verdicts, PlanOf, ImportOperations, FirstRefusal, Commit;
    var verdicts, plan := Classify(c, store.records, refs, who, entries);
    if plan.repairable != [] { return Err(ImportInvalid); }
    var ops := ImportOperations(c, store.records, refs, who, entries, base);
    var refused := store.ApplyBatch(c, ops);
    return if refused.Some? then Err(BatchRefused(refused.value)) else Ok(plan);
  }

  lemma NotRepeatedDiffer(entries: seq<Entry>, i: nat, j: nat)
    requires i < |entries| && j < |entries| && i != j && !Repeated(entries, i) && !Repeated(entries, j)
    ensures entries[i].id != entries[j].id
  { }

  lemma OperationAt(c: Catalog, prefs: Preferences, refs: References, who: Importer, entries: seq<Entry>,
                    base: map<string, nat>, k: nat)
    requires k < |ImportOperations(c, prefs, refs, who, entries, base)|
    ensures var verdicts := Verdicts(c, prefs, refs, who, entries);
            var order := WriteOrder(PlanOf(verdicts, |verdicts|));
            && |order| == |ImportOperations(c, prefs, refs, who, entries, base)|
            && order[k] < |entries| && Writes(verdicts[order[k]]) && !Repeated(entries, order[k])
            && entries[order[k]].id in c.byId && ScopeKey(c.byId[entries[order[k]].id].scope, who).Some?
            && ImportOperations(c, prefs, refs, who, entries, base)[k]
               == OperationOf(c, who, entries[order[k]], verdicts[order[k]], base)
  {
    var verdicts := Verdicts(c, prefs, refs, who, entries);
    OrderAll(verdicts);
    OrderAt(verdicts, k);
    var i := WriteOrder(PlanOf(verdicts, |verdicts|))[k];
    assert verdicts[i] == VerdictOn(c, prefs, refs, who, entries[i], Repeated(entries, i));
    WritingVerdict(c, prefs, refs, who, entries[i], Repeated(entries, i));
    hide PlanOf, WriteOrder, VerdictOn;
  }

  lemma OperationsDistinct(c: Catalog, prefs: Preferences, refs: References, who: Importer, entries: seq<Entry>,
                           base: map<string, nat>)
    ensures DistinctSlots(ImportOperations(c, prefs, refs, who, entries, base))
  {
    var ops := ImportOperations(c, prefs, refs, who, entries, base);
    var verdicts := Verdicts(c, prefs, refs, who, entries);
    hide ImportOperations, Verdicts, PlanOf, WriteOrder;
    forall a, b | 0 <= a < b < |ops| ensures ops[a].slot != ops[b].slot {
      OperationAt(c, prefs, refs, who, entries, base, a);
      OperationAt(c, prefs, refs, who, entries, base, b);
      OrderDistinct(verdicts, a, b);
      var order := WriteOrder(PlanOf(verdicts, |verdicts|));
      NotRepeatedDiffer(entries, order[a], order[b]);
    }
  }

  /** What an applied import leaves of one entry's setting. */
  lemma AppliedAt(c: Catalog, prefs: Preferences, refs: References, who: Importer, entries: seq<Entry>,
                  base: map<string, nat>, i: nat)
    requires i < |entries| && !Repeated(entries, i) && entries[i].id in c.byId
    requires ScopeKey(c.byId[entries[i].id].scope, who).Some?
    ensures var ops := ImportOperations(c, prefs, refs, who, entries, base);
            var after := Commit(prefs, ops, |ops|);
            var slot := SlotFor(c, who, entries[i].id);
            match Verdicts(c, prefs, refs, who, entries)[i]
            case Create(v) => slot in after && after[slot].value == v
            case Change(_, v, _) => slot in after && after[slot].value == v
            case Reset(_, _) => slot !in after
            case _ => StoredValue(after, slot) == StoredValue(prefs, slot)
  {
    var ops := ImportOperations(c, prefs, refs, who, entries, base);
    var verdicts := Verdicts(c, prefs, refs, who, entries);
    var order := WriteOrder(PlanOf(verdicts, |verdicts|));
    var slot := SlotFor(c, who, entries[i].id);
    OperationsDistinct(c, prefs, refs, who, entries, base);
    if Writes(verdicts[i]) {
      OrderHolds(verdicts, i);
      OrderLength(c, prefs, refs, who, entries, base);
      hide ImportOperations, Verdicts, PlanOf, WriteOrder, Commit, DistinctSlots;
      var k :| 0 <= k < |order| && order[k] == i;
      OperationAt(c, prefs, refs, who, entries, base, k);
      CommittedAt(prefs, ops, |ops|, k);
    } else {
      hide ImportOperations, Verdicts, PlanOf, WriteOrder, Commit, DistinctSlots;
      forall k | 0 <= k < |ops| ensures ops[k].slot != slot {
        OperationAt(c, prefs, refs, who, entries, base, k);
        NotRepeatedDiffer(entries, order[k], i);
      }
      CommittedElsewhere(prefs, ops, |ops|, slot);
    }
  }

  lemma OrderLength(c: Catalog, prefs: Preferences, refs: References, who: Importer, entries: seq<Entry>, base: map<string, nat>)
    ensures var verdicts := Verdicts(c, prefs, refs, who, entries);
            |ImportOperations(c, prefs, refs, who, entries, base)| == |WriteOrder(PlanOf(verdicts, |verdicts|))|
  {
    OrderAll(Verdicts(c, prefs, refs, who, entries));
    hide PlanOf, WriteOrder, Verdicts;
  }

  /** Previewing an entry whose setting an applied import has settled. */
  lemma AppliedVerdict(c: Catalog, prefs: Preferences, after: Preferences, refs: References, who: Importer, e: Entry)
    requires e.id in c.byId && ScopeKey(c.byId[e.id].scope, who).Some?
    requires var slot := SlotFor(c, who, e.id);
             match VerdictOn(c, prefs, refs, who, e, false)
             case Create(v) => slot in after && after[slot].value == v
             case Change(_, v, _) => slot in after && after[slot].value == v
             case Reset(_, _) => slot !in after
             case _ => StoredValue(after, slot) == StoredValue(prefs, slot)
    ensures var before := VerdictOn(c, prefs, refs, who, e, false);
            VerdictOn(c, after, refs, who, e, false) == if Writes(before) then NoOp else before
  {
    hide Unavailable;
  }

  /** After an import is applied, previewing the same envelope finds nothing left to
      create, change or reset; every other entry keeps its category. */
  lemma ReimportIsIdle(c: Catalog, prefs: Preferences, refs: References, who: Importer, entries: seq<Entry>,
                       base: map<string, nat>, i: nat)
    requires i < |entries|
    ensures var ops := ImportOperations(c, prefs, refs, who, entries, base);
            var before := Verdicts(c, prefs, refs, who, entries)[i];
            Verdicts(c, Commit(prefs, ops, |ops|), refs, who, entries)[i] == if Writes(before) then NoOp else before
  {
    var e := entries[i];
    if !Repeated(entries, i) && e.id in c.byId && ScopeKey(c.byId[e.id].scope, who).Some? {
      hide ImportOperations, Commit, Effect, Unavailable;
      AppliedAt(c, prefs, refs, who, entries, base, i);
      var ops := ImportOperations(c, prefs, refs, who, entries, base);
      AppliedVerdict(c, prefs, Commit(prefs, ops, |ops|), refs, who, e);
    } else {
      hide ImportOperations, Commit, Effect, Unavailable;
    }
  }

  /** With the versions it was previewed at, a plan is refused exactly when it would write
      a setting that is environment-managed or approval-gated. */
  lemma FreshPlanApplies(c: Catalog, prefs: Preferences, refs: References, who: Importer, entries: seq<Entry>)
    ensures var ops := ImportOperations(c, prefs, refs, who, entries, map[]);
            FirstRefusal(c, prefs, ops, 0).None? <==>
              forall i | 0 <= i < |entries| && Writes(Verdicts(c, prefs, refs, who, entries)[i]) ::
                entries[i].id in c.byId && c.byId[entries[i].id].writable
  {
    var ops := ImportOperations(c, prefs, refs, who, entries, map[]);
    var verdicts := Verdicts(c, prefs, refs, who, entries);
    var order := WriteOrder(PlanOf(verdicts, |verdicts|));
    NoRefusal(c, prefs, ops, 0);
    OrderLength(c, prefs, refs, who, entries, map[]);
    forall k | 0 <= k < |ops|
      ensures order[k] < |entries| && Writes(verdicts[order[k]]) && entries[order[k]].id in c.byId
      ensures CheckOperation(c, prefs, ops, k).None? <==> c.byId[entries[order[k]].id].writable
    {
      OperationAt(c, prefs, refs, who, entries, map[], k);
      FreshOperation(c, prefs, refs, who, entries, k);
    }
    forall i: nat | i < |entries| && Writes(verdicts[i]) ensures i in order { OrderHolds(verdicts, i); }
    hide ImportOperations, Verdicts, PlanOf, WriteOrder, FirstRefusal, CheckOperation;
  }

  lemma FreshOperation(c: Catalog, prefs: Preferences, refs: References, who: Importer, entries: seq<Entry>, k: nat)
    requires k < |ImportOperations(c, prefs, refs, who, entries, map[])|
    ensures var verdicts := Verdicts(c, prefs, refs, who, entries);
            var i := WriteOrder(PlanOf(verdicts, |verdicts|))[k];
            && k < |WriteOrder(PlanOf(verdicts, |verdicts|))| && i < |entries| && entries[i].id in c.byId
            && (CheckOperation(c, prefs, ImportOperations(c, prefs, refs, who, entries, map[]), k).None?
                <==> c.byId[entries[i].id].writable)
  {
    var ops := ImportOperations(c, prefs, refs, who, entries, map[]);
    var verdicts := Verdicts(c, prefs, refs, who, entries);
    var i := WriteOrder(PlanOf(verdicts, |verdicts|))[k];
    OperationAt(c, prefs, refs, who, entries, map[], k);
    OperationsDistinct(c, prefs, refs, who, entries, map[]);
    assert verdicts[i] == VerdictOn(c, prefs, refs, who, entries[i], Repeated(entries, i));
    WritingVerdict(c, prefs, refs, who, entries[i], Repeated(entries, i));
    hide ImportOperations, Verdicts, PlanOf, WriteOrder;
    assert forall j | 0 <= j < k :: ops[j].slot != ops[k].slot;
  }

  // -- a plan applied to a store that has moved since ------------------------------------------------

  /** Verdicts for which the preview reports the version it has seen. */
  predicate Judged(v: Verdict) { Writes(v) || v.NoOp? }

  lemma JudgedAlike(c: Catalog, a: Preferences, b: Preferences, refs: References, who: Importer, e: Entry, seen: bool)
    ensures Judged(VerdictOn(c, a, refs, who, e, seen)) <==> Judged(VerdictOn(c, b, refs, who, e, seen))
    ensures Judged(VerdictOn(c, a, refs, who, e, seen)) ==> !seen && e.id in c.byId && ScopeKey(c.byId[e.id].scope, who).Some?
  {
    hide Unavailable;
  }

  /** The `base_versions` of a preview. */
  ghost function PreviewVersions(c: Catalog, prefs: Preferences, refs: References, who: Importer, entries: seq<Entry>)
    : map<string, nat>
  {
    map i | 0 <= i < |entries| && Judged(Verdicts(c, prefs, refs, who, entries)[i]) && entries[i].id in c.byId
            && ScopeKey(c.byId[entries[i].id].scope, who).Some? ::
      entries[i].id := VersionOf(prefs, SlotFor(c, who, entries[i].id))
  }

  lemma PreviewedVersion(c: Catalog, prefs: Preferences, now: Preferences, refs: References, who: Importer, entries: seq<Entry>, i: nat)
    requires i < |entries| && Writes(Verdicts(c, now, refs, who, entries)[i])
    ensures var id, base := entries[i].id, PreviewVersions(c, prefs, refs, who, entries);
            && id in c.byId && ScopeKey(c.byId[id].scope, who).Some?
            && id in base && base[id] == VersionOf(prefs, SlotFor(c, who, id))
  {
    hide VerdictOn;
    JudgedAlike(c, prefs, now, refs, who, entries[i], Repeated(entries, i));
    assert Judged(Verdicts(c, prefs, refs, who, entries)[i]);
  }

  /** An import at the versions of an earlier preview is let through exactly when every
      setting it would write may be written and has the version that was previewed. */
  lemma PreviewedPlanApplies(c: Catalog, prefs: Preferences, now: Preferences, refs: References, who: Importer, entries: seq<Entry>)
    ensures var verdicts := Verdicts(c, now, refs, who, entries);
            var ops := ImportOperations(c, now, refs, who, entries, PreviewVersions(c, prefs, refs, who, entries));
            FirstRefusal(c, now, ops, 0).None? <==>
              forall i: nat | i < |entries| && Writes(verdicts[i]) :: PassesAt(c, prefs, now, who, entries[i].id)
  {
    var base := PreviewVersions(c, prefs, refs, who, entries);
    var ops := ImportOperations(c, now, refs, who, entries, base);
    var verdicts := Verdicts(c, now, refs, who, entries);
    var order := WriteOrder(PlanOf(verdicts, |verdicts|));
    NoRefusal(c, now, ops, 0);
    OrderLength(c, now, refs, who, entries, base);
    hide ImportOperations, Verdicts, PlanOf, WriteOrder, FirstRefusal, CheckOperation, PassesAt, PreviewVersions;
    forall k | 0 <= k < |ops|
      ensures order[k] < |entries| && Writes(verdicts[order[k]])
      ensures CheckOperation(c, now, ops, k).None? <==> PassesAt(c, prefs, now, who, entries[order[k]].id)
    {
      PreviewedOperation(c, prefs, now, refs, who, entries, k);
    }
    forall i: nat | i < |entries| && Writes(verdicts[i]) ensures i in order { OrderHolds(verdicts, i); }
  }

  predicate PassesAt(c: Catalog, prefs: Preferences, now: Preferences, who: Importer, id: string)
  {
    && id in c.byId && ScopeKey(c.byId[id].scope, who).Some? && c.byId[id].writable
    && VersionOf(prefs, SlotFor(c, who, id)) == VersionOf(now, SlotFor(c, who, id))
  }

  lemma PreviewedOperation(c: Catalog, prefs: Preferences, now: Preferences, refs: References, who: Importer, entries: seq<Entry>, k: nat)
    requires k < |ImportOperations(c, now, refs, who, entries, PreviewVersions(c, prefs, refs, who, entries))|
    ensures var verdicts := Verdicts(c, now, refs, who, entries);
            var base := PreviewVersions(c, prefs, refs, who, entries);
            var order := WriteOrder(PlanOf(verdicts, |verdicts|));
            && k < |order| && order[k] < |entries| && Writes(verdicts[order[k]])
            && (CheckOperation(c, now, ImportOperations(c, now, refs, who, entries, base), k).None?
                <==> PassesAt(c, prefs, now, who, entries[order[k]].id))
  {
    var base := PreviewVersions(c, prefs, refs, who, entries);
    var ops := ImportOperations(c, now, refs, who, entries, base);
    var verdicts := Verdicts(c, now, refs, who, entries);
    var i := WriteOrder(PlanOf(verdicts, |verdicts|))[k];
    OperationAt(c, now, refs, who, entries, base, k);
    OperationsDistinct(c, now, refs, who, entries, base);
    PreviewedVersion(c, prefs, now, refs, who, entries, i);
    assert verdicts[i] == VerdictOn(c, now, refs, who, entries[i], Repeated(entries, i));
    WritingVerdict(c, now, refs, who, entries[i], Repeated(entries, i));
    WritesAccepted(c, now, refs, who, entries[i], Repeated(entries, i));
    hide ImportOperations, Verdicts, PlanOf, WriteOrder, VerdictOn, PreviewVersions;
  }

  lemma WritesAccepted(c: Catalog, prefs: Preferences, refs: References, who: Importer, e: Entry, seen: bool)
    ensures match VerdictOn(c, prefs, refs, who, e, seen)
            case Create(v) => v == e.value
            case Change(_, v, _) => v == e.value
            case _ => true
  { }

  // what a version does not tell: a reset deletes the record, and its versions start again

  /** One batch, refused or committed; a single set or reset is a batch of one. */
  function Batched(c: Catalog, prefs: Preferences, ops: seq<Operation>): Preferences
  {
    if FirstRefusal(c, prefs, ops, 0).Some? then prefs else Commit(prefs, ops, |ops|)
  }

  function After(c: Catalog, prefs: Preferences, batches: seq<seq<Operation>>): Preferences
  {
    if batches == [] then prefs
    else Batched(c, After(c, prefs, batches[..|batches| - 1]), batches[|batches| - 1])
  }

  /** What a batch writes to a slot: a value, or nothing by a reset. */
  function WriteTo(ops: seq<Operation>, slot: Slot): seq<Option<Value>>
  {
    if ops == [] then []
    else
      var last := ops[|ops| - 1];
      WriteTo(ops[..|ops| - 1], slot)
      + if last.slot != slot then [] else [if last.SetTo? then Some(last.value) else None]
  }

  /** The accepted writes to a slot, in order. */
  function WritesOf(c: Catalog, prefs: Preferences, batches: seq<seq<Operation>>, slot: Slot): seq<Option<Value>>
  {
    if batches == [] then []
    else
      var front, last := batches[..|batches| - 1], batches[|batches| - 1];
      WritesOf(c, prefs, front, slot)
      + if FirstRefusal(c, After(c, prefs, front), last, 0).Some? then [] else WriteTo(last, slot)
  }

  function At(prefs: Preferences, slot: Slot): Option<Stored>
  {
    if slot in prefs then Some(prefs[slot]) else None
  }

  function Replay(before: Option<Stored>, writes: seq<Option<Value>>): Option<Stored>
  {
    if writes == [] then before
    else
      var front, last := Replay(before, writes[..|writes| - 1]), writes[|writes| - 1];
      if last.None? then None else Some(Stored(last.value, (if front.Some? then front.value.version else 0) + 1))
  }

  lemma {:induction false} WriteToUntouched(ops: seq<Operation>, slot: Slot)
    requires forall k | 0 <= k < |ops| :: ops[k].slot != slot
    ensures WriteTo(ops, slot) == []
  {
    if ops != [] { WriteToUntouched(ops[..|ops| - 1], slot); }
  }

  lemma {:induction false} WriteToOnce(ops: seq<Operation>, slot: Slot, k: nat)
    requires DistinctSlots(ops) && k < |ops| && ops[k].slot == slot
    ensures WriteTo(ops, slot) == [if ops[k].SetTo? then Some(ops[k].value) else None]
  {
    var n := |ops| - 1;
    if k == n { WriteToUntouched(ops[..n], slot); } else { WriteToOnce(ops[..n], slot, k); }
  }

  lemma AcceptedDistinct(c: Catalog, prefs: Preferences, ops: seq<Operation>)
    requires FirstRefusal(c, prefs, ops, 0).None?
    ensures DistinctSlots(ops)
  {
    NoRefusal(c, prefs, ops, 0);
    hide FirstRefusal;
    forall i, j | 0 <= i < j < |ops| ensures ops[i].slot != ops[j].slot { assert CheckOperation(c, prefs, ops, j).None?; }
  }

  lemma BatchAt(c: Catalog, prefs: Preferences, ops: seq<Operation>, slot: Slot)
    requires FirstRefusal(c, prefs, ops, 0).None?
    ensures At(Commit(prefs, ops, |ops|), slot) == Replay(At(prefs, slot), WriteTo(ops, slot))
  {
    AcceptedDistinct(c, prefs, ops);
    hide FirstRefusal, DistinctSlots, Commit;
    if k :| 0 <= k < |ops| && ops[k].slot == slot {
      CommittedAt(prefs, ops, |ops|, k);
      WriteToOnce(ops, slot, k);
      ReplayOne(At(prefs, slot), if ops[k].SetTo? then Some(ops[k].value) else None);
    } else {
      CommittedElsewhere(prefs, ops, |ops|, slot);
      WriteToUntouched(ops, slot);
    }
  }

  lemma ReplayOne(before: Option<Stored>, write: Option<Value>)
    ensures Replay(before, [write])
            == if write.None? then None else Some(Stored(write.value, (if before.Some? then before.value.version else 0) + 1))
  {
    assert [write][..0] == [];
  }

  lemma {:induction false} ReplayConcat(before: Option<Stored>, a: seq<Option<Value>>, b: seq<Option<Value>>)
    ensures Replay(before, a + b) == Replay(Replay(before, a), b)
  {
    if b == [] {
      assert a + b == a;
    } else {
      ReplayConcat(before, a, b[..|b| - 1]);
      assert (a + b)[..|a + b| - 1] == a + b[..|b| - 1];
    }
  }

  /** What is stored in a slot is what its accepted writes make of it. */
  lemma {:induction false} SlotIsReplayed(c: Catalog, prefs: Preferences, batches: seq<seq<Operation>>, slot: Slot)
    ensures At(After(c, prefs, batches), slot) == Replay(At(prefs, slot), WritesOf(c, prefs, batches, slot))
  {
    hide FirstRefusal, Commit, WriteTo, Replay;
    if batches == [] {
      assert Replay(At(prefs, slot), []) == At(prefs, slot) by { ReplayNothing(At(prefs, slot)); }
    } else {
      var front, last := batches[..|batches| - 1], batches[|batches| - 1];
      SlotIsReplayed(c, prefs, front, slot);
      var before := After(c, prefs, front);
      if FirstRefusal(c, before, last, 0).None? {
        BatchAt(c, before, last, slot);
        ReplayConcat(At(prefs, slot), WritesOf(c, prefs, front, slot), WriteTo(last, slot));
      } else {
        assert WritesOf(c, prefs, batches, slot) == WritesOf(c, prefs, front, slot);
      }
    }
  }

  lemma ReplayNothing(before: Option<Stored>)
    ensures Replay(before, []) == before
  { }

  /** Since it was `before` the slot was reset and then set as many times as it had been,
      the last time to another value. */
  predicate Recycled(before: Option<Stored>, writes: seq<Option<Value>>)
  {
    && before.Some? && 0 < before.value.version < |writes|
    && writes[|writes| - before.value.version - 1].None?
    && (forall k | |writes| - before.value.version <= k < |writes| :: writes[k].Some?)
    && writes[|writes| - 1] != Some(before.value.value)
  }

  /** How many writes there have been since the last reset. */
  function SinceReset(writes: seq<Option<Value>>): nat
  {
    if writes == [] || writes[|writes| - 1].None? then 0 else 1 + SinceReset(writes[..|writes| - 1])
  }

  lemma {:induction false} SinceResetMeans(writes: seq<Option<Value>>)
    ensures var n := SinceReset(writes);
            && n <= |writes| && (forall k | |writes| - n <= k < |writes| :: writes[k].Some?)
            && (n < |writes| ==> writes[|writes| - n - 1].None?)
  {
    if writes != [] && writes[|writes| - 1].Some? { SinceResetMeans(writes[..|writes| - 1]); }
  }

  lemma {:induction false} ReplayedVersion(before: Option<Stored>, writes: seq<Option<Value>>)
    ensures var n, after := SinceReset(writes), Replay(before, writes);
            && (if after.Some? then after.value.version else 0)
               == n + (if n == |writes| && before.Some? then before.value.version else 0)
            && (writes != [] ==> (if after.Some? then Some(after.value.value) else None) == writes[|writes| - 1])
  {
    if writes != [] {
      ReplayedVersion(before, writes[..|writes| - 1]);
      SinceResetMeans(writes[..|writes| - 1]);
    }
  }

  lemma RecycledExactly(before: Option<Stored>, writes: seq<Option<Value>>)
    requires before.Some? ==> before.value.version > 0
    ensures var after := Replay(before, writes);
            (if after.Some? then after.value.version else 0) == (if before.Some? then before.value.version else 0)
            && (if after.Some? then Some(after.value.value) else None) != (if before.Some? then Some(before.value.value) else None)
            <==> Recycled(before, writes)
  {
    ReplayedVersion(before, writes);
    SinceResetMeans(writes);
    if writes == [] { ReplayNothing(before); }
    hide Replay, SinceReset;
  }

  /** Stored versions count from one. */
  predicate Counted(prefs: Preferences) { forall slot | slot in prefs :: prefs[slot].version > 0 }

  /** The source promises that a store that moved since the preview fails closed.  It does
      not always: over any history of batches a setting has its previewed version and another
      value exactly when it has been reset and then set as often as it had been. */
  lemma MovedUnseenExactly(c: Catalog, prefs: Preferences, batches: seq<seq<Operation>>, slot: Slot)
    requires Counted(prefs)
    ensures var now := After(c, prefs, batches);
            VersionOf(now, slot) == VersionOf(prefs, slot) && StoredValue(now, slot) != StoredValue(prefs, slot)
            <==> Recycled(At(prefs, slot), WritesOf(c, prefs, batches, slot))
  {
    SlotIsReplayed(c, prefs, batches, slot);
    RecycledExactly(At(prefs, slot), WritesOf(c, prefs, batches, slot));
    hide After, WritesOf, Replay, Recycled;
  }

  /** So an import that is let through at previewed versions finds the previewed value in
      every setting it writes, except in one that was reset and set again in this way. */
  lemma PreviewedImportFinds(c: Catalog, prefs: Preferences, batches: seq<seq<Operation>>, refs: References, who: Importer,
                             entries: seq<Entry>, i: nat)
    requires Counted(prefs) && i < |entries| && Writes(Verdicts(c, After(c, prefs, batches), refs, who, entries)[i])
    requires var now := After(c, prefs, batches);
             FirstRefusal(c, now, ImportOperations(c, now, refs, who, entries, PreviewVersions(c, prefs, refs, who, entries)), 0).None?
    ensures var now, id := After(c, prefs, batches), entries[i].id;
            && id in c.byId && ScopeKey(c.byId[id].scope, who).Some?
            && var slot := SlotFor(c, who, id);
               StoredValue(now, slot) == StoredValue(prefs, slot) <==> !Recycled(At(prefs, slot), WritesOf(c, prefs, batches, slot))
  {
    hide After, WritesOf, Recycled, ImportOperations, FirstRefusal, PreviewVersions, Verdicts;
    PreviewedPlanApplies(c, prefs, After(c, prefs, batches), refs, who, entries);
    assert PassesAt(c, prefs, After(c, prefs, batches), who, entries[i].id);
    MovedUnseenExactly(c, prefs, batches, SlotFor(c, who, entries[i].id));
  }

  const THEME := Descriptor(Personal, true, true, None, None, None)
  const THEMES := Catalog(map["theme" := THEME], (d: Descriptor, v: Value) => true)
  const ANN := Importer("ann", None)
  const ANNS_THEME := Slot(Personal, "ann", "theme")

  /** Such a history: previewed at version 1, reset, set again; the import goes through and
      overwrites a value nobody has previewed. */
  lemma StalePlanGoesThrough()
    ensures var prefs := map[ANNS_THEME := Stored(IntValue(1), 1)];
            var batches := [[ResetTo(ANNS_THEME, 1)], [SetTo(ANNS_THEME, IntValue(2), 0)]];
            var entries := [Entry("theme", None, IntValue(3))];
            var now := After(THEMES, prefs, batches);
            && now == map[ANNS_THEME := Stored(IntValue(2), 1)] && Writes(Verdicts(THEMES, now, map[], ANN, entries)[0])
            && var base := PreviewVersions(THEMES, prefs, map[], ANN, entries);
               FirstRefusal(THEMES, now, ImportOperations(THEMES, now, map[], ANN, entries, base), 0).None?
  {
    var prefs := map[ANNS_THEME := Stored(IntValue(1), 1)];
    var empty: Preferences := map[];
    var reset, again := [ResetTo(ANNS_THEME, 1)], [SetTo(ANNS_THEME, IntValue(2), 0)];
    var now := map[ANNS_THEME := Stored(IntValue(2), 1)];
    var entries := [Entry("theme", None, IntValue(3))];
    assert Batched(THEMES, prefs, reset) == empty by {
      NoRefusal(THEMES, prefs, reset, 0);
      assert Commit(prefs, reset, 0) == prefs;
      assert Commit(prefs, reset, 1) == empty;
    }
    assert Batched(THEMES, empty, again) == now by {
      NoRefusal(THEMES, empty, again, 0);
      assert Commit(empty, again, 0) == empty;
      assert Commit(empty, again, 1) == now;
    }
    TwoBatches(THEMES, prefs, reset, again);
    assert Verdicts(THEMES, now, map[], ANN, entries)[0] == Change(IntValue(2), IntValue(3), 1);
    hide After, Batched, ImportOperations, FirstRefusal, PreviewVersions, Verdicts;
    PreviewedPlanApplies(THEMES, prefs, now, map[], ANN, entries);
  }

  lemma TwoBatches(c: Catalog, prefs: Preferences, a: seq<Operation>, b: seq<Operation>)
    ensures After(c, prefs, [a, b]) == Batched(c, Batched(c, prefs, a), b)
  {
    hide Batched;
    assert [a, b][..1] == [a] && [a][..0] == [];
    assert After(c, prefs, []) == prefs;
    assert After(c, prefs, [a]) == Batched(c, prefs, a);
  }

  // -- exporting -----------------------------------------------------------------------------

  predicate Owned(c: Catalog, prefs: Preferences, who: Importer, scope: Scope, id: string)
  {
    && ScopeKey(scope, who).Some? && id in c.byId && c.byId[id].scope == scope && c.byId[id].portable
    && Slot(scope, ScopeKey(scope, who).value, id) in prefs
  }

  /** The portable settings the actor has stored in a scope, in the order of `ids`. */
  function ExportScope(c: Catalog, prefs: Preferences, who: Importer, scope: Scope, ids: seq<string>): seq<Entry>
  {
    if ids == [] then []
    else
      var front, id := ExportScope(c, prefs, who, scope, ids[..|ids| - 1]), ids[|ids| - 1];
      if Owned(c, prefs, who, scope, id)
      then front + [Entry(id, Some(scope), prefs[Slot(scope, ScopeKey(scope, who).value, id)].value)] else front
  }

  /** `export`: personal settings, then project settings; `ids` are the catalog's ids, sorted. */
  method Export(c: Catalog, prefs: Preferences, who: Importer, ids: seq<string>) returns (entries: seq<Entry>)
    ensures entries == ExportScope(c, prefs, who, Personal, ids) + ExportScope(c, prefs, who, Project, ids)
  {
    entries := [];
    var scopes := [Personal, Project];
    for s := 0 to 2
      invariant entries == (if s > 0 then ExportScope(c, prefs, who, Personal, ids) else [])
                           + (if s > 1 then ExportScope(c, prefs, who, Project, ids) else [])
    {
      var start := entries;
      for i := 0 to |ids|
        invariant entries == start + ExportScope(c, prefs, who, scopes[s], ids[..i])
      {
        assert ids[..i + 1][..i] == ids[..i];
        if Owned(c, prefs, who, scopes[s], ids[i]) {
          var key := ScopeKey(scopes[s], who).value;
          entries := entries + [Entry(ids[i], Some(scopes[s]), prefs[Slot(scopes[s], key, ids[i])].value)];
        }
      }
      assert ids[..|ids|] == ids;
    }
  }

  /** The export of a scope holds an entry, with the stored value, for exactly the portable
      settings of `ids` that the actor has stored there. */
  lemma {:induction false} ExportedAre(c: Catalog, prefs: Preferences, who: Importer, scope: Scope, ids: seq<string>)
    ensures forall e :: e in ExportScope(c, prefs, who, scope, ids) <==>
              && e.id in ids && Owned(c, prefs, who, scope, e.id) && e.scope == Some(scope)
              && e.value == prefs[Slot(scope, ScopeKey(scope, who).value, e.id)].value
  {
    if ids != [] {
      ExportedAre(c, prefs, who, scope, ids[..|ids| - 1]);
      assert ids == ids[..|ids| - 1] + [ids[|ids| - 1]];
    }
  }

  predicate OncePerId(entries: seq<Entry>)
  {
    forall i, j | 0 <= i < j < |entries| :: entries[i].id != entries[j].id
  }

  lemma {:induction false} ExportedOnce(c: Catalog, prefs: Preferences, who: Importer, scope: Scope, ids: seq<string>)
    requires NoRepeats(ids)
    ensures OncePerId(ExportScope(c, prefs, who, scope, ids))
  {
    if ids != [] {
      var front, last := ids[..|ids| - 1], ids[|ids| - 1];
      var before := ExportScope(c, prefs, who, scope, front);
      ExportedOnce(c, prefs, who, scope, front);
      ExportedAre(c, prefs, who, scope, front);
      forall i | 0 <= i < |before| ensures before[i].id != last {
        assert before[i] in before;
        var k :| 0 <= k < |front| && front[k] == before[i].id;
        assert ids[k] != ids[|ids| - 1];
      }
    }
  }

  /** An export is never refused as invalid: as long as the stored values satisfy their
      descriptors, no entry of it is repairable to whoever imports it. */
  lemma ExportIsImportable(c: Catalog, prefs: Preferences, refs: References, from: Importer, to: Importer, ids: seq<string>)
    requires NoRepeats(ids)
    requires forall slot | slot in prefs && slot.id in c.byId :: c.accepts(c.byId[slot.id], prefs[slot].value)
    ensures var entries := ExportScope(c, prefs, from, Personal, ids) + ExportScope(c, prefs, from, Project, ids);
            forall v | v in Verdicts(c, prefs, refs, to, entries) :: v != Repairable
  {
    var mine, shared := ExportScope(c, prefs, from, Personal, ids), ExportScope(c, prefs, from, Project, ids);
    var entries := mine + shared;
    ExportedAre(c, prefs, from, Personal, ids);
    ExportedAre(c, prefs, from, Project, ids);
    ExportedOnce(c, prefs, from, Personal, ids);
    ExportedOnce(c, prefs, from, Project, ids);
    hide ExportScope;
    forall i | 0 <= i < |entries| ensures VerdictOn(c, prefs, refs, to, entries[i], Repeated(entries, i)) != Repairable {
      var e := entries[i];
      assert e in mine || e in shared;
      forall j | 0 <= j < i ensures entries[j].id != e.id {
        assert entries[j] in mine || entries[j] in shared;
        if j < |mine| <= i {
          assert entries[j] == mine[j] && mine[j] in mine && e == shared[i - |mine|] && e in shared;
        }
      }
    }
  }

  /** Importing one actor's export as an actor with no overrides - none but those of the
      project, where the two share one - gives every exported setting whose reference is
      available the same effective value. */
  lemma ImportedExportAgrees(c: Catalog, prefs: Preferences, refs: References, from: Importer, to: Importer,
                             ids: seq<string>, base: map<string, nat>, i: nat)
    requires from.actor != "" && to.actor != "" && (ScopeKey(Project, from).Some? ==> ScopeKey(Project, to).Some?)
    requires forall slot | slot in prefs && Some(slot.key) == ScopeKey(slot.scope, to) ::
               slot.scope == Project && ScopeKey(Project, from) == ScopeKey(Project, to)
    requires var entries := ExportScope(c, prefs, from, Personal, ids) + ExportScope(c, prefs, from, Project, ids);
             && i < |entries|
             && (forall v | v in Verdicts(c, prefs, refs, to, entries) :: v != Repairable)
             && (entries[i].id in c.byId ==> !Unavailable(c.byId[entries[i].id], entries[i].value, refs))
    ensures var entries := ExportScope(c, prefs, from, Personal, ids) + ExportScope(c, prefs, from, Project, ids);
            var ops := ImportOperations(c, prefs, refs, to, entries, base);
            && entries[i].id in c.byId
            && EffectiveFor(c, Commit(prefs, ops, |ops|), refs, to, entries[i].id)
               == EffectiveFor(c, prefs, refs, from, entries[i].id)
  {
    var entries := ExportScope(c, prefs, from, Personal, ids) + ExportScope(c, prefs, from, Project, ids);
    ExportedAre(c, prefs, from, Personal, ids);
    ExportedAre(c, prefs, from, Project, ids);
    hide ImportOperations, Commit;
    var e := entries[i];
    assert e in ExportScope(c, prefs, from, Personal, ids) || e in ExportScope(c, prefs, from, Project, ids);
    hide ExportScope;
    assert Verdicts(c, prefs, refs, to, entries)[i] in Verdicts(c, prefs, refs, to, entries);
    assert Verdicts(c, prefs, refs, to, entries)[i] == VerdictOn(c, prefs, refs, to, e, Repeated(entries, i));
    hide Verdicts, Repeated, Unavailable;
    AppliedAt(c, prefs, refs, to, entries, base, i);
  }

  // -- scoped reset ----------------------------------------------------------------------------

  /** `reset_preview`'s operations for one namespace, in the order of `ids`. */
  function ResetOperations(c: Catalog, prefs: Preferences, who: Importer, scope: Scope, ids: seq<string>): seq<Operation>
  {
    if ids == [] then []
    else
      var front, id := ResetOperations(c, prefs, who, scope, ids[..|ids| - 1]), ids[|ids| - 1];
      if Owned(c, prefs, who, scope, id)
      then
        var slot := Slot(scope, ScopeKey(scope, who).value, id);
        front + [ResetTo(slot, VersionOf(prefs, slot))]
      else front
  }

  predicate Touches(ops: seq<Operation>, slot: Slot)
  {
    exists k | 0 <= k < |ops| :: ops[k].slot == slot
  }

  lemma TouchesAppend(ops: seq<Operation>, op: Operation, slot: Slot)
    ensures Touches(ops + [op], slot) <==> Touches(ops, slot) || op.slot == slot
  {
    var all := ops + [op];
    assert all[|ops|] == op;
    if k :| 0 <= k < |ops| && ops[k].slot == slot { assert all[k].slot == slot; }
  }

  lemma {:induction false} ResetSlots(c: Catalog, prefs: Preferences, who: Importer, scope: Scope, ids: seq<string>, slot: Slot)
    ensures Touches(ResetOperations(c, prefs, who, scope, ids), slot)
            <==> slot.id in ids && Owned(c, prefs, who, scope, slot.id)
                 && slot == Slot(scope, ScopeKey(scope, who).value, slot.id)
    ensures forall k | 0 <= k < |ResetOperations(c, prefs, who, scope, ids)| ::
              ResetOperations(c, prefs, who, scope, ids)[k].ResetTo?
  {
    if ids != [] {
      var last := ids[|ids| - 1];
      ResetSlots(c, prefs, who, scope, ids[..|ids| - 1], slot);
      assert ids == ids[..|ids| - 1] + [last];
      hide Touches;
      if Owned(c, prefs, who, scope, last) {
        var key := ScopeKey(scope, who).value;
        TouchesAppend(ResetOperations(c, prefs, who, scope, ids[..|ids| - 1]),
                      ResetTo(Slot(scope, key, last), VersionOf(prefs, Slot(scope, key, last))), slot);
      }
    }
  }

  lemma {:induction false} OnlyResets(prefs: Preferences, ops: seq<Operation>, n: nat, slot: Slot)
    requires n <= |ops| && forall k | 0 <= k < |ops| :: ops[k].ResetTo?
    ensures slot in Commit(prefs, ops, n) <==> slot in prefs && !Touches(ops[..n], slot)
    ensures slot in Commit(prefs, ops, n) ==> Commit(prefs, ops, n)[slot] == prefs[slot]
  {
    if n > 0 {
      OnlyResets(prefs, ops, n - 1, slot);
      assert ops[..n] == ops[..n - 1] + [ops[n - 1]];
      TouchesAppend(ops[..n - 1], ops[n - 1], slot);
      hide Touches;
    }
  }

  /** A reset removes exactly the portable overrides of one namespace; no other record of
      any actor, project or authority changes. */
  lemma ResetIsScoped(c: Catalog, prefs: Preferences, who: Importer, scope: Scope, ids: seq<string>, slot: Slot)
    requires forall id | id in c.byId :: id in ids
    ensures var ops := ResetOperations(c, prefs, who, scope, ids);
            var after := Commit(prefs, ops, |ops|);
            && (slot in after <==> slot in prefs && !(Owned(c, prefs, who, scope, slot.id)
                                                      && slot == Slot(scope, ScopeKey(scope, who).value, slot.id)))
            && (slot in after ==> after[slot] == prefs[slot])
  {
    ResetSlots(c, prefs, who, scope, ids, slot);
    var ops := ResetOperations(c, prefs, who, scope, ids);
    OnlyResets(prefs, ops, |ops|, slot);
    assert ops[..|ops|] == ops;
    hide ResetOperations, Commit, Touches;
  }
}
