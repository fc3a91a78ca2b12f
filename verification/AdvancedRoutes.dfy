/** Advanced route discovery and control selection (workbench/advanced_routes.py), and the
    contract's own check of a branch's controls (workbench/contracts.py), which was written
    independently and has to agree. */
module AdvancedRoutes {
  import opened Outcomes
  import opened Sequences
  import StableSort
  import opened CanonicalJson

  const MAX_SUPPORTED_CONTROLS := 32
  const MAX_ALLOWED_VALUES := 32
  const MAX_ALLOWED_VALUE_CHARS := 64

  /** A submitted or configured JSON value; `OtherValue` is anything that is none of these. */
  datatype ControlValue = IntValue(i: int) | BoolValue(b: bool) | TextValue(s: string) | OtherValue(tag: int)

  datatype ControlKind = IntControl(low: int, high: int) | EnumControl(allowed: seq<string>) | BoolControl

  datatype Control = Control(name: string, kind: ControlKind, default: ControlValue, policyOwned: bool)

  datatype Route = Route(
    routeId: string, displayName: string, routeDigest: string, profileDigest: string, contractVersion: string,
    modelProfile: string, controls: seq<Control>, structuredOutput: bool, tools: bool)

  datatype Reason =
    | RouteUnknown | ControlUnsupported | ControlType | ControlOutOfBounds | ControlNotAllowed
    | PolicyOwnedReadonly | RouteDigestDrift | ProfileDigestDrift | Malformed

  // -- discovery --------------------------------------------------------------------

  datatype RawKind = RawInt | RawEnum | RawBool | RawOther

  /** One configured control; `shapeOk` says it is an object with declared keys only. */
  datatype RawControl = RawControl(
    shapeOk: bool, name: string, kind: RawKind, policyOwned: ControlValue, default: ControlValue,
    bounds: Option<(ControlValue, ControlValue)>, allowed: Option<seq<ControlValue>>)

  /** What a configured route has under `supported_controls`. */
  datatype RawControls = NoControls | NotAList | ControlList(raws: seq<RawControl>)

  /** One configured route: its controls and the values of all other keys. */
  datatype RawRoute = RawRoute(values: map<string, ControlValue>, controls: RawControls)

  const REQUIRED_KEYS := {"route_id", "serving_contract_version", "route_digest", "profile_digest", "model_profile", "supported_controls"}
  const OPTIONAL_KEYS := {"provider", "display_name", "structured_output_supported", "tools_supported"}
  const SERVING_PROVIDER := "anvil-serving"

  /** The display-name rule: the name to show, or a refusal. */
  type DisplayRule = string -> Option<string>

  function KeysOf(raw: RawRoute): set<string>
  {
    raw.values.Keys + if raw.controls.NoControls? then {} else {"supported_controls"}
  }

  /** `entry.get(key, default)` */
  function ValueOr(raw: RawRoute, key: string, default: ControlValue): ControlValue
  {
    if key in raw.values then raw.values[key] else default
  }

  predicate LowerCase(c: char) { 'a' <= c <= 'z' }
  predicate Digit(c: char) { '0' <= c <= '9' }
  predicate Digits(s: string) { s != "" && forall i | 0 <= i < |s| :: Digit(s[i]) }

  /** `[a-z][a-z0-9._-]*`, at most `most` characters */
  predicate SlugOk(s: string, most: nat)
  {
    && 1 <= |s| <= most && LowerCase(s[0])
    && forall i | 0 <= i < |s| :: LowerCase(s[i]) || Digit(s[i]) || s[i] in {'.', '_', '-'}
  }

  predicate RouteIdOk(s: string) { SlugOk(s, 128) }
  predicate ModelProfileOk(s: string) { SlugOk(s, 64) }

  predicate DigestOk(s: string)
  {
    |s| == 71 && s[..7] == "sha256:" && forall i | 7 <= i < 71 :: Digit(s[i]) || 'a' <= s[i] <= 'f'
  }

  predicate ContractVersionOk(s: string)
  {
    exists i, j | 0 <= i < j < |s| :: s[i] == '.' && s[j] == '.' && Digits(s[..i]) && Digits(s[i + 1..j]) && Digits(s[j + 1..])
  }

  /** The identifiers of a route: digests are `sha256:` and 64 hexadecimal digits, versions three
      numbers, ids and profiles lower-case words with digits, dots, underscores and dashes. */
  lemma GrammarsExactly(s: string)
    ensures DigestOk(s) <==>
              exists h: string :: |h| == 64 && s == "sha256:" + h && forall c | c in h :: '0' <= c <= '9' || 'a' <= c <= 'f'
    ensures ContractVersionOk(s) <==> exists a, b, c :: Number(a) && Number(b) && Number(c) && s == Version(a, b, c)
    ensures RouteIdOk(s) <==> 1 <= |s| <= 128 && 'a' <= s[0] <= 'z' && SlugText(s)
    ensures ModelProfileOk(s) <==> 1 <= |s| <= 64 && 'a' <= s[0] <= 'z' && SlugText(s)
    ensures ControlNameOk(s) <==> 1 <= |s| <= 64 && 'a' <= s[0] <= 'z'
                                  && forall c | c in s :: 'a' <= c <= 'z' || '0' <= c <= '9' || c == '_'
  {
    DigestIs(s);
    VersionIs(s);
    SlugIs(s, 128);
    SlugIs(s, 64);
    NameIs(s);
    hide DigestOk, ContractVersionOk, SlugOk, SlugText, ControlNameOk;
  }

  lemma SlugIs(s: string, most: nat)
    ensures SlugOk(s, most) <==> 1 <= |s| <= most && 'a' <= s[0] <= 'z' && SlugText(s)
  {
    assert forall i | 0 <= i < |s| :: s[i] in s;
  }

  lemma NameIs(s: string)
    ensures ControlNameOk(s) <==> 1 <= |s| <= 64 && 'a' <= s[0] <= 'z'
                                  && forall c | c in s :: 'a' <= c <= 'z' || '0' <= c <= '9' || c == '_'
  {
    assert forall i | 0 <= i < |s| :: s[i] in s;
  }

  ghost predicate SlugText(s: string) { forall c | c in s :: 'a' <= c <= 'z' || '0' <= c <= '9' || c in {'.', '_', '-'} }

  ghost predicate Number(s: string) { |s| >= 1 && forall c | c in s :: '0' <= c <= '9' }

  function Version(a: string, b: string, c: string): string { a + ("." + (b + ("." + c))) }

  lemma DigestIs(s: string)
    ensures DigestOk(s) <==>
              exists h: string :: |h| == 64 && s == "sha256:" + h && forall c | c in h :: '0' <= c <= '9' || 'a' <= c <= 'f'
  {
    if DigestOk(s) {
      var h := s[7..];
      assert s == "sha256:" + h;
      forall c | c in h ensures '0' <= c <= '9' || 'a' <= c <= 'f' {
        var i :| 0 <= i < |h| && h[i] == c;
        assert s[i + 7] == c;
      }
    }
    if h: string :| |h| == 64 && s == "sha256:" + h && forall c | c in h :: '0' <= c <= '9' || 'a' <= c <= 'f' {
      assert |"sha256:"| == 7 && s[..7] == "sha256:";
      forall i | 7 <= i < 71 ensures Digit(s[i]) || 'a' <= s[i] <= 'f' {
        assert s[i] == h[i - 7] && h[i - 7] in h;
      }
    }
  }

  lemma VersionIs(s: string)
    ensures ContractVersionOk(s) <==> exists a, b, c :: Number(a) && Number(b) && Number(c) && s == Version(a, b, c)
  {
    hide ContractVersionOk, Number, Version;
    if ContractVersionOk(s) {
      var a, b, c := VersionRead(s);
    }
    if a, b, c :| Number(a) && Number(b) && Number(c) && s == Version(a, b, c) {
      VersionWritten(a, b, c);
    }
  }

  lemma VersionRead(s: string) returns (a: string, b: string, c: string)
    requires ContractVersionOk(s)
    ensures Number(a) && Number(b) && Number(c) && s == Version(a, b, c)
  {
    hide Digits, Number, Version;
    var i, j :| 0 <= i < j < |s| && s[i] == '.' && s[j] == '.' && Digits(s[..i]) && Digits(s[i + 1..j]) && Digits(s[j + 1..]);
    a, b, c := s[..i], s[i + 1..j], s[j + 1..];
    DigitsAre(a);
    DigitsAre(b);
    DigitsAre(c);
    VersionJoins(s, i, j);
  }

  lemma VersionWritten(a: string, b: string, c: string)
    requires Number(a) && Number(b) && Number(c)
    ensures ContractVersionOk(Version(a, b, c))
  {
    hide Digits, Number, Version;
    VersionParts(a, b, c);
    DigitsAre(a);
    DigitsAre(b);
    DigitsAre(c);
  }

  lemma VersionJoins(s: string, i: nat, j: nat)
    requires i < j < |s| && s[i] == '.' && s[j] == '.'
    ensures s == Version(s[..i], s[i + 1..j], s[j + 1..])
  { }

  lemma VersionParts(a: string, b: string, c: string)
    ensures var s, i, j := Version(a, b, c), |a|, |a| + 1 + |b|;
            i < j < |s| && s[i] == '.' && s[j] == '.' && s[..i] == a && s[i + 1..j] == b && s[j + 1..] == c
  {
    var s, i, j := Version(a, b, c), |a|, |a| + 1 + |b|;
    assert s[i + 1..] == b + ("." + c);
    assert s[j + 1..] == c;
  }

  lemma DigitsAre(s: string)
    ensures Digits(s) <==> Number(s)
  {
    assert forall i | 0 <= i < |s| :: s[i] in s;
  }

  /** `_identifier` */
  function Identifier(raw: RawRoute, key: string, grammar: string -> bool): Option<string>
  {
    var value := ValueOr(raw, key, OtherValue(0));
    if value.TextValue? && grammar(value.s) then Some(value.s) else None
  }

  function RouteIdOf(raw: RawRoute): Option<string> { Identifier(raw, "route_id", RouteIdOk) }

  /** `_display_name`: the route id unless another name is configured */
  function DisplayName(raw: RawRoute, routeId: string, display: DisplayRule): Option<string>
  {
    var value := ValueOr(raw, "display_name", TextValue(routeId));
    if value.TextValue? then display(value.s) else None
  }

  function Flag(raw: RawRoute, key: string): ControlValue { ValueOr(raw, key, BoolValue(false)) }

  predicate ControlNameOk(s: string)
  {
    && 1 <= |s| <= 64 && 'a' <= s[0] <= 'z'
    && forall i | 0 <= i < |s| :: 'a' <= s[i] <= 'z' || '0' <= s[i] <= '9' || s[i] == '_'
  }

  function TextsOf(values: seq<ControlValue>): Option<seq<string>>
  {
    if forall i | 0 <= i < |values| :: values[i].TextValue? && 1 <= |values[i].s| <= MAX_ALLOWED_VALUE_CHARS
    then Some(seq(|values|, i requires 0 <= i < |values| => if values[i].TextValue? then values[i].s else ""))
    else None
  }

  function KindOf(raw: RawControl): Option<ControlKind>
  {
    match raw.kind
    case RawInt =>
      if raw.bounds.None? || !raw.bounds.value.0.IntValue? || !raw.bounds.value.1.IntValue? then None
      else
        var low, high := raw.bounds.value.0.i, raw.bounds.value.1.i;
        if low <= high && raw.default.IntValue? && low <= raw.default.i <= high then Some(IntControl(low, high)) else None
    case RawEnum =>
      if raw.allowed.None? || !(1 <= |raw.allowed.value| <= MAX_ALLOWED_VALUES) then None
      else
        var texts := TextsOf(raw.allowed.value);
        if texts.Some? && NoRepeats(texts.value) && raw.default.TextValue? && raw.default.s in texts.value
        then Some(EnumControl(texts.value)) else None
    case RawBool => if raw.default.BoolValue? then Some(BoolControl) else None
    case RawOther => None
  }

  /** `_control_descriptor` */
  function ControlOf(raw: RawControl): Option<Control>
  {
    if !raw.shapeOk || !ControlNameOk(raw.name) || !raw.policyOwned.BoolValue? || KindOf(raw).None? then None
    else Some(Control(raw.name, KindOf(raw).value, raw.default, raw.policyOwned.b))
  }

  /** A configured control is well formed exactly if its name is, its policy flag is boolean and
      its default fits: an integer within bounds the right way round, one of up to 32 different
      texts of 1 to 64 characters, or a boolean. */
  lemma ControlExactly(raw: RawControl)
    ensures ControlOf(raw).Some? <==>
              && raw.shapeOk && ControlNameOk(raw.name) && raw.policyOwned.BoolValue?
              && match raw.kind
                 case RawInt =>
                   && raw.bounds.Some? && raw.bounds.value.0.IntValue? && raw.bounds.value.1.IntValue? && raw.default.IntValue?
                   && raw.bounds.value.0.i <= raw.default.i <= raw.bounds.value.1.i
                 case RawEnum =>
                   && raw.allowed.Some? && 1 <= |raw.allowed.value| <= 32
                   && (forall v | v in raw.allowed.value :: v.TextValue? && 1 <= |v.s| <= 64)
                   && (forall i, j | 0 <= i < j < |raw.allowed.value| :: raw.allowed.value[i] != raw.allowed.value[j])
                   && raw.default.TextValue? && raw.default in raw.allowed.value
                 case RawBool => raw.default.BoolValue?
                 case RawOther => false
    ensures ControlOf(raw).Some? ==>
              var c := ControlOf(raw).value;
              && c.name == raw.name && c.default == raw.default && BoolValue(c.policyOwned) == raw.policyOwned
              && match raw.kind
                 case RawInt => c.kind == IntControl(raw.bounds.value.0.i, raw.bounds.value.1.i)
                 case RawEnum => c.kind.EnumControl? && |c.kind.allowed| == |raw.allowed.value|
                                 && forall i | 0 <= i < |raw.allowed.value| :: TextValue(c.kind.allowed[i]) == raw.allowed.value[i]
                 case _ => c.kind == BoolControl
  {
    hide ControlNameOk;
    if raw.kind.RawEnum? && raw.allowed.Some? {
      var values := raw.allowed.value;
      var texts := TextsOf(values);
      if texts.Some? {
        forall i | 0 <= i < |values| ensures TextValue(texts.value[i]) == values[i] { }
        assert raw.default.TextValue? ==> (raw.default.s in texts.value <==> raw.default in values) by {
          if raw.default.TextValue? {
            if raw.default.s in texts.value { var i :| 0 <= i < |values| && texts.value[i] == raw.default.s; assert values[i] == raw.default; }
            if raw.default in values { var i :| 0 <= i < |values| && values[i] == raw.default; assert texts.value[i] == raw.default.s; }
          }
        }
        assert NoRepeats(texts.value) <==> forall i, j | 0 <= i < j < |values| :: values[i] != values[j];
      } else {
        var i :| 0 <= i < |values| && !(values[i].TextValue? && 1 <= |values[i].s| <= MAX_ALLOWED_VALUE_CHARS);
        assert values[i] in values;
      }
    }
  }

  predicate DefaultOk(c: Control)
  {
    match c.kind
    case IntControl(low, high) => low <= high && c.default.IntValue? && low <= c.default.i <= high
    case EnumControl(allowed) => c.default.TextValue? && c.default.s in allowed
    case BoolControl => c.default.BoolValue?
  }

  /** What discovery promises of a route: between one and 32 controls, no name twice, and
      every default within its own control's bounds. */
  predicate Reviewed(controls: seq<Control>)
  {
    && 1 <= |controls| <= MAX_SUPPORTED_CONTROLS
    && (forall i, j | 0 <= i < j < |controls| :: controls[i].name != controls[j].name)
    && forall i | 0 <= i < |controls| :: DefaultOk(controls[i])
  }

  /** A control list discovery accepts: its size in range, every control well formed, and
      no name twice. */
  predicate ControlsFit(raws: seq<RawControl>)
  {
    && 1 <= |raws| <= MAX_SUPPORTED_CONTROLS
    && (forall i | 0 <= i < |raws| :: ControlOf(raws[i]).Some?)
    && forall i, j | 0 <= i < j < |raws| :: raws[i].name != raws[j].name
  }

  /** The controls of `raws`, one by one. */
  predicate Describes(controls: seq<Control>, raws: seq<RawControl>)
  {
    |controls| == |raws| && forall i | 0 <= i < |raws| :: ControlOf(raws[i]) == Some(controls[i])
  }

  method SupportedControls(raws: seq<RawControl>) returns (r: Option<seq<Control>>)
    ensures r.Some? <==> ControlsFit(raws)
    ensures r.Some? ==> Describes(r.value, raws) && Reviewed(r.value)
  {
    if !(1 <= |raws| <= MAX_SUPPORTED_CONTROLS) { return None; }
    var controls: seq<Control> := [];
    var seen: set<string> := {};
    for i := 0 to |raws|
      invariant |controls| == i && forall k | 0 <= k < i :: ControlOf(raws[k]) == Some(controls[k])
      invariant forall name :: name in seen <==> exists k | 0 <= k < i :: raws[k].name == name
      invariant forall j, k | 0 <= j < k < i :: raws[j].name != raws[k].name
    {
      var control := ControlOf(raws[i]);
      if control.None? { return None; }
      if control.value.name in seen { return None; }
      seen := seen + {control.value.name};
      controls := controls + [control.value];
    }
    forall i | 0 <= i < |controls| ensures DefaultOk(controls[i]) { DefaultFits(raws[i]); }
    return Some(controls);
  }

  lemma DefaultFits(raw: RawControl)
    requires ControlOf(raw).Some?
    ensures DefaultOk(ControlOf(raw).value) && ControlOf(raw).value.name == raw.name
  { }

  /** A configured route discovery accepts: no key but the declared ones, none of the
      required ones missing, its provider the serving one, every identifier and name in
      its grammar, its controls well formed and its flags boolean. */
  predicate RouteFits(raw: RawRoute, display: DisplayRule)
  {
    && REQUIRED_KEYS <= KeysOf(raw) <= REQUIRED_KEYS + OPTIONAL_KEYS
    && ValueOr(raw, "provider", TextValue(SERVING_PROVIDER)) == TextValue(SERVING_PROVIDER)
    && RouteIdOf(raw).Some?
    && DisplayName(raw, RouteIdOf(raw).value, display).Some?
    && Identifier(raw, "route_digest", DigestOk).Some? && Identifier(raw, "profile_digest", DigestOk).Some?
    && Identifier(raw, "serving_contract_version", ContractVersionOk).Some?
    && Identifier(raw, "model_profile", ModelProfileOk).Some?
    && raw.controls.ControlList? && ControlsFit(raw.controls.raws)
    && Flag(raw, "structured_output_supported").BoolValue? && Flag(raw, "tools_supported").BoolValue?
  }

  /** `route` carries what `raw` configures, field by field. */
  predicate Publishes(route: Route, raw: RawRoute, display: DisplayRule)
  {
    && RouteIdOf(raw) == Some(route.routeId)
    && DisplayName(raw, route.routeId, display) == Some(route.displayName)
    && Identifier(raw, "route_digest", DigestOk) == Some(route.routeDigest)
    && Identifier(raw, "profile_digest", DigestOk) == Some(route.profileDigest)
    && Identifier(raw, "serving_contract_version", ContractVersionOk) == Some(route.contractVersion)
    && Identifier(raw, "model_profile", ModelProfileOk) == Some(route.modelProfile)
    && raw.controls.ControlList? && Describes(route.controls, raw.controls.raws) && Reviewed(route.controls)
    && BoolValue(route.structuredOutput) == Flag(raw, "structured_output_supported")
    && BoolValue(route.tools) == Flag(raw, "tools_supported")
  }

  predicate SameId(a: RawRoute, b: RawRoute)
  {
    RouteIdOf(a) == RouteIdOf(b)
  }

  /** `discover_advanced_routes`: the whole configuration, in order, or nothing.  It is
      refused exactly when a route does not fit or a route id comes twice. */
  method DiscoverRoutes(raws: seq<RawRoute>, display: DisplayRule) returns (r: Option<seq<Route>>)
    ensures r.Some? <==> (forall i | 0 <= i < |raws| :: RouteFits(raws[i], display))
                         && forall i, j | 0 <= i < j < |raws| :: !SameId(raws[i], raws[j])
    ensures r.Some? ==> |r.value| == |raws| && forall i | 0 <= i < |raws| :: Publishes(r.value[i], raws[i], display)
  {
    hide RouteFits, Publishes, RouteIdOf;
    var routes: seq<Route> := [];
    var seen: set<string> := {};
    for i := 0 to |raws|
      invariant |routes| == i && forall k | 0 <= k < i :: RouteFits(raws[k], display) && Publishes(routes[k], raws[k], display)
      invariant forall id :: id in seen <==> exists k | 0 <= k < i :: RouteIdOf(raws[k]) == Some(id)
      invariant forall j, k | 0 <= j < k < i :: !SameId(raws[j], raws[k])
    {
      var route := DiscoverRoute(raws[i], display);
      if route.None? { return None; }
      PublishesId(route.value, raws[i], display);
      if route.value.routeId in seen { return None; }
      seen := seen + {route.value.routeId};
      routes := routes + [route.value];
    }
    return Some(routes);
  }

  lemma PublishesId(route: Route, raw: RawRoute, display: DisplayRule)
    requires Publishes(route, raw, display)
    ensures RouteIdOf(raw) == Some(route.routeId)
  { }

  method DiscoverRoute(raw: RawRoute, display: DisplayRule) returns (r: Option<Route>)
    ensures r.Some? <==> RouteFits(raw, display)
    ensures r.Some? ==> Publishes(r.value, raw, display)
  {
    hide ControlsFit, Describes, Reviewed, Identifier, RouteIdOf, DisplayName, ValueOr, KeysOf;
    if !(KeysOf(raw) <= REQUIRED_KEYS + OPTIONAL_KEYS) || !(REQUIRED_KEYS <= KeysOf(raw)) { return None; }
    if ValueOr(raw, "provider", TextValue(SERVING_PROVIDER)) != TextValue(SERVING_PROVIDER) { return None; }
    var routeId := RouteIdOf(raw);
    if routeId.None? { return None; }
    var name := DisplayName(raw, routeId.value, display);
    var routeDigest, profileDigest := Identifier(raw, "route_digest", DigestOk), Identifier(raw, "profile_digest", DigestOk);
    var version := Identifier(raw, "serving_contract_version", ContractVersionOk);
    var profile := Identifier(raw, "model_profile", ModelProfileOk);
    if name.None? || routeDigest.None? || profileDigest.None? || version.None? || profile.None? { return None; }
    if !raw.controls.ControlList? { return None; }
    var controls := SupportedControls(raw.controls.raws);
    var structured, tools := Flag(raw, "structured_output_supported"), Flag(raw, "tools_supported");
    if controls.None? || !structured.BoolValue? || !tools.BoolValue? { return None; }
    return Some(Route(routeId.value, name.value, routeDigest.value, profileDigest.value, version.value, profile.value,
                      controls.value, structured.b, tools.b));
  }

  // -- selection ------------------------------------------------------------------------

  datatype Provenance = Declared | Observed | PolicyOverride | Unlisted(text: string)

  datatype Submitted = Submitted(name: string, value: ControlValue, provenance: Option<Provenance>)

  /** A `{name: value}` mapping, a list of submitted controls, or neither. */
  datatype Submission = ByName(entries: seq<(string, ControlValue)>) | Listed(items: seq<Submitted>) | Shapeless

  datatype Accepted = Accepted(name: string, value: ControlValue, provenance: Provenance)

  datatype Selection = Selection(route: Route, controls: seq<Accepted>)

  function RouteNamed(routes: seq<Route>, id: string): Option<Route>
  {
    if routes == [] then None else if routes[0].routeId == id then Some(routes[0]) else RouteNamed(routes[1..], id)
  }

  function ControlNamed(controls: seq<Control>, name: string): Option<Control>
  {
    if controls == [] then None else if controls[0].name == name then Some(controls[0]) else ControlNamed(controls[1..], name)
  }

  function Named(entry: (string, ControlValue)): Submitted { Submitted(entry.0, entry.1, None) }

  /** `_normalize_submitted` */
  function Normalized(s: Submission): Option<seq<Submitted>>
  {
    match s
    case ByName(entries) => Some(Map(Named, entries))
    case Listed(items) =>
      if exists i | 0 <= i < |items| :: items[i].provenance.Some? && items[i].provenance.value.Unlisted? then None
      else Some(items)
    case Shapeless => None
  }

  /** `check_value` */
  function ValueRefusal(c: Control, v: ControlValue): Option<Reason>
  {
    match c.kind
    case IntControl(low, high) =>
      if !v.IntValue? then Some(ControlType) else if !(low <= v.i <= high) then Some(ControlOutOfBounds) else None
    case EnumControl(allowed) => if v.TextValue? && v.s in allowed then None else Some(ControlNotAllowed)
    case BoolControl => if v.BoolValue? then None else Some(ControlType)
  }

  function AcceptOne(controls: seq<Control>, s: Submitted): Result<Accepted, Reason>
  {
    var found := ControlNamed(controls, s.name);
    if found.None? then Err(ControlUnsupported)
    else if ValueRefusal(found.value, s.value).Some? then Err(ValueRefusal(found.value, s.value).value)
    else if found.value.policyOwned then
      if s.provenance !in {None, Some(PolicyOverride)} || s.value != found.value.default then Err(PolicyOwnedReadonly)
      else Ok(Accepted(s.name, found.value.default, PolicyOverride))
    else Ok(Accepted(s.name, s.value, if s.provenance.Some? then s.provenance.value else Declared))
  }

  /** What becomes of one submitted control, and why it is refused: of the wrong type, out of its
      bounds, not among its values, or an override of one the policy owns. */
  lemma AcceptedExactly(controls: seq<Control>, s: Submitted)
    requires Reviewed(controls)
    ensures (forall i | 0 <= i < |controls| :: controls[i].name != s.name) ==> AcceptOne(controls, s) == Err(ControlUnsupported)
    ensures forall i | 0 <= i < |controls| && controls[i].name == s.name ::
              var c := controls[i];
              AcceptOne(controls, s) ==
                if c.kind.IntControl? && !s.value.IntValue? then Err(ControlType)
                else if c.kind.IntControl? && !(c.kind.low <= s.value.i <= c.kind.high) then Err(ControlOutOfBounds)
                else if c.kind.EnumControl? && !(s.value.TextValue? && s.value.s in c.kind.allowed) then Err(ControlNotAllowed)
                else if c.kind.BoolControl? && !s.value.BoolValue? then Err(ControlType)
                else if c.policyOwned && (s.value != c.default || s.provenance !in {None, Some(PolicyOverride)})
                  then Err(PolicyOwnedReadonly)
                else Ok(Accepted(s.name, s.value, if c.policyOwned then PolicyOverride
                                                  else if s.provenance.Some? then s.provenance.value else Declared))
  {
    forall i | 0 <= i < |controls| && controls[i].name == s.name ensures ControlNamed(controls, s.name) == Some(controls[i]) {
      NamedBy(controls, s.name, i);
    }
    if forall i | 0 <= i < |controls| :: controls[i].name != s.name { NotNamed(controls, s.name); }
    hide ControlNamed, Reviewed;
  }

  predicate Again(items: seq<Submitted>, i: nat)
    requires i < |items|
  {
    exists j | 0 <= j < i :: items[j].name == items[i].name
  }

  function FirstRefusal(controls: seq<Control>, items: seq<Submitted>, i: nat): Option<Reason>
    requires i <= |items|
    decreases |items| - i
  {
    if i == |items| then None
    else if Again(items, i) then Some(Malformed)
    else if AcceptOne(controls, items[i]).Err? then Some(AcceptOne(controls, items[i]).error)
    else FirstRefusal(controls, items, i + 1)
  }

  function AcceptAll(controls: seq<Control>, items: seq<Submitted>): seq<Accepted>
  {
    if items == [] then []
    else
      var front, one := AcceptAll(controls, items[..|items| - 1]), AcceptOne(controls, items[|items| - 1]);
      if one.Ok? then front + [one.value] else front
  }

  /** Code-point order on names. */
  predicate NameLess(a: string, b: string) { Before(Points(a), Points(b)) }

  function NameOf(a: Accepted): string { a.name }

  function Sorted(accepted: seq<Accepted>): seq<Accepted> { StableSort.Sort(accepted, NameOf, NameLess) }

  /** The controls part of `validate_advanced_selection`. */
  function SelectControls(controls: seq<Control>, s: Submission): Result<seq<Accepted>, Reason>
  {
    var items := Normalized(s);
    if items.None? then Err(Malformed)
    else if FirstRefusal(controls, items.value, 0).Some? then Err(FirstRefusal(controls, items.value, 0).value)
    else Ok(Sorted(AcceptAll(controls, items.value)))
  }

  /** Digests a branch or preset pinned; an absent or non-string one is not compared here. */
  datatype Pins = Pins(routeDigest: Option<string>, profileDigest: Option<string>)

  function Select(routes: seq<Route>, id: string, pins: Pins, s: Submission): Result<Selection, Reason>
  {
    var route := RouteNamed(routes, id);
    if route.None? then Err(RouteUnknown)
    else if pins.routeDigest.Some? && pins.routeDigest.value != route.value.routeDigest then Err(RouteDigestDrift)
    else if pins.profileDigest.Some? && pins.profileDigest.value != route.value.profileDigest then Err(ProfileDigestDrift)
    else
      var controls := SelectControls(route.value.controls, s);
      if controls.Err? then Err(controls.error) else Ok(Selection(route.value, controls.value))
  }

  /** A selection is refused for its route exactly when no route has the id, or the pinned
      digest of the route, or else of its profile, is another. */
  lemma RouteRefusedExactly(routes: seq<Route>, i: nat, pins: Pins, s: Submission)
    requires i < |routes| && forall a, b | 0 <= a < b < |routes| :: routes[a].routeId != routes[b].routeId
    ensures var route, r := routes[i], Select(routes, routes[i].routeId, pins, s);
            && (r == Err(RouteDigestDrift) <==> pins.routeDigest.Some? && pins.routeDigest.value != route.routeDigest)
            && (r == Err(ProfileDigestDrift) <==> (pins.routeDigest.Some? ==> pins.routeDigest.value == route.routeDigest)
                                                  && pins.profileDigest.Some? && pins.profileDigest.value != route.profileDigest)
            && (r.Ok? ==> r.value.route == route)
    ensures forall id | (forall k | 0 <= k < |routes| :: routes[k].routeId != id) :: Select(routes, id, pins, s) == Err(RouteUnknown)
  {
    RouteAt(routes, i);
    ControlReasons(routes[i].controls, s);
    forall id | (forall k | 0 <= k < |routes| :: routes[k].routeId != id) ensures RouteNamed(routes, id).None? { NoRoute(routes, id); }
    hide RouteNamed, SelectControls;
  }

  lemma {:induction false} RouteAt(routes: seq<Route>, i: nat)
    requires i < |routes| && forall a, b | 0 <= a < b < |routes| :: routes[a].routeId != routes[b].routeId
    ensures RouteNamed(routes, routes[i].routeId) == Some(routes[i])
  {
    if i > 0 {
      assert routes[0].routeId != routes[i].routeId;
      RouteAt(routes[1..], i - 1);
    }
  }

  lemma {:induction false} NoRoute(routes: seq<Route>, id: string)
    requires forall k | 0 <= k < |routes| :: routes[k].routeId != id
    ensures RouteNamed(routes, id).None?
  {
    if routes != [] { NoRoute(routes[1..], id); }
  }

  lemma ControlReasons(controls: seq<Control>, s: Submission)
    ensures SelectControls(controls, s).Err? ==> SelectControls(controls, s).error !in {RouteUnknown, RouteDigestDrift, ProfileDigestDrift}
  {
    var items := Normalized(s);
    if items.Some? { RefusalReasons(controls, items.value, 0); }
    hide Normalized, FirstRefusal, Sorted, AcceptAll;
  }

  lemma {:induction false} RefusalReasons(controls: seq<Control>, items: seq<Submitted>, i: nat)
    requires i <= |items|
    ensures FirstRefusal(controls, items, i).Some? ==>
              FirstRefusal(controls, items, i).value !in {RouteUnknown, RouteDigestDrift, ProfileDigestDrift}
    decreases |items| - i
  {
    if i < |items| { RefusalReasons(controls, items, i + 1); }
  }

  method ValidateSelection(routes: seq<Route>, id: string, pins: Pins, s: Submission) returns (r: Result<Selection, Reason>)
    ensures r == Select(routes, id, pins, s)
  {
    hide AcceptOne, RouteNamed, Normalized, Sorted;
    var found := RouteNamed(routes, id);
    if found.None? { return Err(RouteUnknown); }
    var route := found.value;
    if pins.routeDigest.Some? && pins.routeDigest.value != route.routeDigest { return Err(RouteDigestDrift); }
    if pins.profileDigest.Some? && pins.profileDigest.value != route.profileDigest { return Err(ProfileDigestDrift); }
    var normalized := Normalized(s);
    if normalized.None? { return Err(Malformed); }
    var items := normalized.value;
    var seen: set<string> := {};
    var accepted: seq<Accepted> := [];
    for i := 0 to |items|
      invariant forall name :: name in seen <==> exists j | 0 <= j < i :: items[j].name == name
      invariant FirstRefusal(route.controls, items, 0) == FirstRefusal(route.controls, items, i)
      invariant accepted == AcceptAll(route.controls, items[..i])
    {
      if items[i].name in seen { return Err(Malformed); }
      seen := seen + {items[i].name};
      var one := AcceptOne(route.controls, items[i]);
      if one.Err? { return Err(one.error); }
      assert items[..i + 1][..i] == items[..i];
      accepted := accepted + [one.value];
    }
    assert items[..|items|] == items;
    return Ok(Selection(route, Sorted(accepted)));
  }

  // -- the contract's check ---------------------------------------------------------------

  datatype DescriptorType = IntType | EnumType | BoolType

  /** A control as a branch's `route_capability` carries it. */
  datatype Descriptor = Descriptor(
    name: string, kind: DescriptorType, default: ControlValue, bounds: Option<(int, int)>, allowed: Option<seq<string>>,
    policyOwned: bool)

  /** `as_descriptor` */
  function AsDescriptor(c: Control): Descriptor
  {
    match c.kind
    case IntControl(low, high) => Descriptor(c.name, IntType, c.default, Some((low, high)), None, c.policyOwned)
    case EnumControl(allowed) => Descriptor(c.name, EnumType, c.default, None, Some(allowed), c.policyOwned)
    case BoolControl => Descriptor(c.name, BoolType, c.default, None, None, c.policyOwned)
  }

  function Capability(controls: seq<Control>): seq<Descriptor>
  {
    seq(|controls|, i requires 0 <= i < |controls| => AsDescriptor(controls[i]))
  }

  /** `declared[name]`: the last descriptor of that name. */
  function DeclaredAs(capability: seq<Descriptor>, name: string): Option<Descriptor>
  {
    if capability == [] then None
    else if capability[|capability| - 1].name == name then Some(capability[|capability| - 1])
    else DeclaredAs(capability[..|capability| - 1], name)
  }

  /** `_check_advanced_control_value` */
  predicate WithinDescriptor(d: Descriptor, v: ControlValue)
  {
    match d.kind
    case IntType => d.bounds.Some? && v.IntValue? && d.bounds.value.0 <= v.i <= d.bounds.value.1
    case EnumType => d.allowed.Some? && v.TextValue? && v.s in d.allowed.value
    case BoolType => v.BoolValue?
  }

  /** The control rules of `validate_advanced_branch`, for one submitted control. */
  predicate BranchAllows(capability: seq<Descriptor>, s: Submitted)
  {
    var d := DeclaredAs(capability, s.name);
    && d.Some? && WithinDescriptor(d.value, s.value)
    && (d.value.policyOwned ==> s.provenance == Some(PolicyOverride) && s.value == d.value.default)
  }

  method CheckBranch(capability: seq<Descriptor>, items: seq<Submitted>) returns (ok: bool)
    ensures ok <==> forall i | 0 <= i < |items| :: BranchAllows(capability, items[i])
  {
    for i := 0 to |items|
      invariant forall k | 0 <= k < i :: BranchAllows(capability, items[k])
    {
      var d := DeclaredAs(capability, items[i].name);
      if d.None? { return false; }
      if !WithinDescriptor(d.value, items[i].value) { return false; }
      if d.value.policyOwned && (items[i].provenance != Some(PolicyOverride) || items[i].value != d.value.default) {
        return false;
      }
    }
    return true;
  }

  // -- an accepted submission -----------------------------------------------------------------

  lemma {:induction false} NoRefusal(controls: seq<Control>, items: seq<Submitted>, i: nat)
    requires i <= |items|
    ensures FirstRefusal(controls, items, i).None? <==>
              forall k | i <= k < |items| :: !Again(items, k) && AcceptOne(controls, items[k]).Ok?
    decreases |items| - i
  {
    hide AcceptOne;
    if i < |items| { NoRefusal(controls, items, i + 1); }
  }

  lemma {:induction false} AcceptedAt(controls: seq<Control>, items: seq<Submitted>, i: nat)
    requires forall k | 0 <= k < |items| :: AcceptOne(controls, items[k]).Ok?
    ensures |AcceptAll(controls, items)| == |items|
    ensures i < |items| ==> Ok(AcceptAll(controls, items)[i]) == AcceptOne(controls, items[i])
  {
    hide AcceptOne;
    if items != [] { AcceptedAt(controls, items[..|items| - 1], if i < |items| - 1 then i else 0); }
  }

  function ItemName(s: Submitted): string { s.name }

  /** Submitted names are distinct exactly when none comes again. */
  lemma NamesDistinct(items: seq<Submitted>)
    ensures StableSort.DistinctKeys(items, ItemName) <==> forall k | 0 <= k < |items| :: !Again(items, k)
  {
    if forall k | 0 <= k < |items| :: !Again(items, k) {
      forall i, j | 0 <= i < j < |items| ensures ItemName(items[i]) != ItemName(items[j]) { assert !Again(items, j); }
    }
  }

  lemma AcceptKeepsName(controls: seq<Control>, s: Submitted)
    requires AcceptOne(controls, s).Ok?
    ensures AcceptOne(controls, s).value.name == s.name
  { }

  lemma AcceptedDistinct(controls: seq<Control>, items: seq<Submitted>)
    requires FirstRefusal(controls, items, 0).None?
    ensures StableSort.DistinctKeys(AcceptAll(controls, items), NameOf) && |AcceptAll(controls, items)| == |items|
  {
    var all := AcceptAll(controls, items);
    NoRefusal(controls, items, 0);
    NamesDistinct(items);
    AcceptedAt(controls, items, 0);
    hide AcceptAll, AcceptOne, FirstRefusal;
    forall i, j | 0 <= i < j < |all| ensures NameOf(all[i]) != NameOf(all[j]) {
      AcceptedAt(controls, items, i);
      AcceptedAt(controls, items, j);
      AcceptKeepsName(controls, items[i]);
      AcceptKeepsName(controls, items[j]);
      assert ItemName(items[i]) != ItemName(items[j]);
    }
  }

  lemma NameOrder()
    ensures StableSort.TotalOrder(NameLess)
  {
    BeforeIsTotal();
    forall a: string, b: string ensures a == b || NameLess(a, b) || NameLess(b, a) {
      if Points(a) == Points(b) { PointsInjective(a, b); }
    }
    hide Points, Before;
  }

  lemma AcceptedFrom(controls: seq<Control>, items: seq<Submitted>, others: seq<Submitted>, a: Accepted)
    requires FirstRefusal(controls, items, 0).None? && FirstRefusal(controls, others, 0).None?
    requires multiset(items) == multiset(others) && a in AcceptAll(controls, items)
    ensures a in AcceptAll(controls, others)
  {
    NoRefusal(controls, items, 0);
    NoRefusal(controls, others, 0);
    AcceptedAt(controls, items, 0);
    AcceptedAt(controls, others, 0);
    var all := AcceptAll(controls, items);
    var i :| 0 <= i < |all| && all[i] == a;
    assert items[i] in multiset(others);
    var j :| 0 <= j < |others| && others[j] == items[i];
    AcceptedAt(controls, items, i);
    AcceptedAt(controls, others, j);
    hide AcceptOne, AcceptAll;
    assert AcceptAll(controls, others)[j] == a;
  }

  lemma AcceptedEverywhere(controls: seq<Control>, items: seq<Submitted>, others: seq<Submitted>)
    requires multiset(items) == multiset(others) && FirstRefusal(controls, items, 0).None?
    ensures FirstRefusal(controls, others, 0).None?
  {
    NoRefusal(controls, items, 0);
    NoRefusal(controls, others, 0);
    NamesDistinct(items);
    NamesDistinct(others);
    hide AcceptOne, FirstRefusal, Again;
    StableSort.KeysStayDistinct(items, others, ItemName);
    forall k | 0 <= k < |others| ensures AcceptOne(controls, others[k]).Ok? {
      assert others[k] in multiset(items);
      var j :| 0 <= j < |items| && items[j] == others[k];
    }
  }

  /** The same controls in another order, submitted in the same form. */
  predicate Rearranged(s: Submission, t: Submission)
  {
    match s
    case ByName(entries) => t.ByName? && multiset(entries) == multiset(t.entries)
    case Listed(items) => t.Listed? && multiset(items) == multiset(t.items)
    case Shapeless => t.Shapeless?
  }

  lemma RearrangedNormalizes(s: Submission, t: Submission)
    requires Rearranged(s, t) && Normalized(s).Some?
    ensures Normalized(t).Some? && multiset(Normalized(t).value) == multiset(Normalized(s).value)
  {
    if s.ByName? {
      MapPermuted(Named, s.entries, t.entries);
    } else {
      forall i | 0 <= i < |t.items| ensures !(t.items[i].provenance.Some? && t.items[i].provenance.value.Unlisted?) {
        assert t.items[i] in multiset(s.items);
        var j :| 0 <= j < |s.items| && s.items[j] == t.items[i];
      }
    }
  }

  lemma ItemsSelectSame(controls: seq<Control>, items: seq<Submitted>, others: seq<Submitted>)
    requires multiset(items) == multiset(others) && FirstRefusal(controls, items, 0).None?
    ensures FirstRefusal(controls, others, 0).None? && Sorted(AcceptAll(controls, others)) == Sorted(AcceptAll(controls, items))
  {
    AcceptedEverywhere(controls, items, others);
    AcceptedDistinct(controls, items);
    AcceptedDistinct(controls, others);
    hide AcceptOne, FirstRefusal, AcceptAll;
    var a, b := AcceptAll(controls, items), AcceptAll(controls, others);
    forall x ensures x in a <==> x in b {
      if x in a { AcceptedFrom(controls, items, others, x); }
      if x in b { AcceptedFrom(controls, others, items, x); }
    }
    StableSort.SameMembers(a, b, NameOf);
    NameOrder();
    StableSort.SortForgetsOrder(a, b, NameOf, NameLess);
  }

  /** Every permutation of an accepted submission, a list or a mapping, gives the same selection. */
  lemma PermutationSelectsSame(routes: seq<Route>, id: string, pins: Pins, s: Submission, t: Submission)
    requires Rearranged(s, t) && Select(routes, id, pins, s).Ok?
    ensures Select(routes, id, pins, t) == Select(routes, id, pins, s)
  {
    hide Rearranged, Normalized, FirstRefusal, AcceptAll, Sorted;
    RearrangedNormalizes(s, t);
    ItemsSelectSame(RouteNamed(routes, id).value.controls, Normalized(s).value, Normalized(t).value);
  }

  // -- submitting a selection again --------------------------------------------------------------

  /** `submitted_controls` */
  function SubmittedAgain(controls: seq<Accepted>): seq<Submitted>
  {
    seq(|controls|, i requires 0 <= i < |controls| =>
      Submitted(controls[i].name, controls[i].value, Some(controls[i].provenance)))
  }

  /** An accepted control, submitted as it was accepted, is accepted as it is. */
  lemma AcceptAgain(controls: seq<Control>, s: Submitted)
    requires AcceptOne(controls, s).Ok? && !(s.provenance.Some? && s.provenance.value.Unlisted?)
    ensures var a := AcceptOne(controls, s).value;
            AcceptOne(controls, Submitted(a.name, a.value, Some(a.provenance))) == Ok(a) && !a.provenance.Unlisted?
  { }

  lemma NormalizedListed(s: Submission)
    requires Normalized(s).Some?
    ensures forall i | 0 <= i < |Normalized(s).value| ::
              !(Normalized(s).value[i].provenance.Some? && Normalized(s).value[i].provenance.value.Unlisted?)
  {
    if s.ByName? {
      forall i | 0 <= i < |s.entries| ensures Map(Named, s.entries)[i].provenance.None? {
        assert Map(Named, s.entries)[i] == Named(s.entries[i]);
      }
    }
  }

  /** Where each control of a selection comes from. */
  lemma SelectedFrom(controls: seq<Control>, s: Submission, k: nat)
    requires SelectControls(controls, s).Ok? && k < |SelectControls(controls, s).value|
    ensures var items := Normalized(s).value;
            exists i | 0 <= i < |items| :: AcceptOne(controls, items[i]) == Ok(SelectControls(controls, s).value[k])
                                           && !(items[i].provenance.Some? && items[i].provenance.value.Unlisted?)
  {
    hide AcceptOne, AcceptAll, FirstRefusal, StableSort.Sort, StableSort.Ascending, NameLess, ValueRefusal;
    var items := Normalized(s).value;
    var all, sel := AcceptAll(controls, items), SelectControls(controls, s).value;
    NameOrder();
    StableSort.SortIsStable(all, NameOf, NameLess);
    assert sel[k] in multiset(all);
    NoRefusal(controls, items, 0);
    AcceptedAt(controls, items, 0);
    NormalizedListed(s);
    hide Sorted, Normalized;
    var i :| 0 <= i < |all| && all[i] == sel[k];
    AcceptedAt(controls, items, i);
  }

  lemma AcceptedAgain(controls: seq<Control>, s: Submission, k: nat)
    requires SelectControls(controls, s).Ok? && k < |SelectControls(controls, s).value|
    ensures var sel := SelectControls(controls, s).value;
            AcceptOne(controls, SubmittedAgain(sel)[k]) == Ok(sel[k]) && !sel[k].provenance.Unlisted?
  {
    SelectedFrom(controls, s, k);
    var items, sel := Normalized(s).value, SelectControls(controls, s).value;
    hide AcceptOne, SelectControls, Normalized;
    var i :| 0 <= i < |items| && AcceptOne(controls, items[i]) == Ok(sel[k])
             && !(items[i].provenance.Some? && items[i].provenance.value.Unlisted?);
    AcceptAgain(controls, items[i]);
  }

  lemma SelectionDistinct(controls: seq<Control>, s: Submission)
    requires SelectControls(controls, s).Ok?
    ensures StableSort.DistinctKeys(SelectControls(controls, s).value, NameOf)
    ensures Sorted(SelectControls(controls, s).value) == SelectControls(controls, s).value
  {
    var items := Normalized(s).value;
    var all := AcceptAll(controls, items);
    AcceptedDistinct(controls, items);
    hide AcceptAll, FirstRefusal;
    NameOrder();
    StableSort.SortIsStable(all, NameOf, NameLess);
    StableSort.KeysStayDistinct(all, Sorted(all), NameOf);
    StableSort.SortForgetsOrder(Sorted(all), all, NameOf, NameLess);
  }

  lemma {:induction false} AcceptAllIs(controls: seq<Control>, items: seq<Submitted>, sel: seq<Accepted>)
    requires |items| == |sel| && forall k | 0 <= k < |items| :: AcceptOne(controls, items[k]) == Ok(sel[k])
    ensures AcceptAll(controls, items) == sel
  {
    hide AcceptOne;
    if items != [] {
      AcceptAllIs(controls, items[..|items| - 1], sel[..|sel| - 1]);
      assert sel == sel[..|sel| - 1] + [sel[|sel| - 1]];
    }
  }

  /** Re-validating the submitted controls of a selection returns the same selection. */
  lemma ResubmissionIsIdentity(controls: seq<Control>, s: Submission)
    requires SelectControls(controls, s).Ok?
    ensures SelectControls(controls, Listed(SubmittedAgain(SelectControls(controls, s).value))) == SelectControls(controls, s)
  {
    hide SelectControls, AcceptOne, Sorted, FirstRefusal, AcceptAll, Again;
    var sel := SelectControls(controls, s).value;
    var items := SubmittedAgain(sel);
    SelectionDistinct(controls, s);
    forall k | 0 <= k < |items| ensures AcceptOne(controls, items[k]) == Ok(sel[k]) && !sel[k].provenance.Unlisted? {
      AcceptedAgain(controls, s, k);
    }
    AgainDistinct(sel);
    NoRefusal(controls, items, 0);
    AcceptAllIs(controls, items, sel);
    SelectListed(controls, items);
  }

  lemma AgainDistinct(sel: seq<Accepted>)
    requires StableSort.DistinctKeys(sel, NameOf)
    ensures forall k | 0 <= k < |sel| :: !Again(SubmittedAgain(sel), k)
  {
    var items := SubmittedAgain(sel);
    forall k | 0 <= k < |items| ensures !Again(items, k) {
      forall j | 0 <= j < k ensures items[j].name != items[k].name { assert NameOf(sel[j]) != NameOf(sel[k]); }
    }
  }

  lemma SelectListed(controls: seq<Control>, items: seq<Submitted>)
    requires forall i | 0 <= i < |items| :: !(items[i].provenance.Some? && items[i].provenance.value.Unlisted?)
    requires FirstRefusal(controls, items, 0).None?
    ensures SelectControls(controls, Listed(items)) == Ok(Sorted(AcceptAll(controls, items)))
  {
    hide FirstRefusal, AcceptAll, Sorted;
  }

  /** A submission that is neither a mapping nor a list, or that states a provenance outside the
      allowlist, is refused as malformed, and so is one that names a control twice. */
  lemma MalformedExactly(controls: seq<Control>, s: Submission)
    ensures s.Shapeless? ==> SelectControls(controls, s) == Err(Malformed)
    ensures s.Listed? && (exists i :: 0 <= i < |s.items| && s.items[i].provenance.Some? && s.items[i].provenance.value.Unlisted?) ==>
              SelectControls(controls, s) == Err(Malformed)
    ensures SelectControls(controls, s).Ok? ==>
              && (s.Listed? ==> forall i, j | 0 <= i < j < |s.items| :: s.items[i].name != s.items[j].name)
              && (s.ByName? ==> forall i, j | 0 <= i < j < |s.entries| :: s.entries[i].0 != s.entries[j].0)
  {
    if SelectControls(controls, s).Ok? {
      var items := Normalized(s).value;
      NoRefusal(controls, items, 0);
      forall i, j | 0 <= i < j < |items| ensures items[i].name != items[j].name { assert !Again(items, j); }
      hide AcceptAll, Sorted, FirstRefusal, AcceptOne, Again;
      if s.ByName? {
        forall i, j | 0 <= i < j < |s.entries| ensures s.entries[i].0 != s.entries[j].0 {
          assert items[i] == Named(s.entries[i]) && items[j] == Named(s.entries[j]);
        }
      }
    }
  }

  /** The controls of a selection stand in ascending order of their names, each name once. */
  lemma SelectedInOrder(controls: seq<Control>, s: Submission, i: nat, j: nat)
    requires SelectControls(controls, s).Ok? && i < j < |SelectControls(controls, s).value|
    ensures var sel := SelectControls(controls, s).value; Before(Points(sel[i].name), Points(sel[j].name))
  {
    var sel := SelectControls(controls, s).value;
    NameOrder();
    StableSort.SortIsStable(AcceptAll(controls, Normalized(s).value), NameOf, NameLess);
    SelectionDistinct(controls, s);
    BeforeIsStrict(Points(sel[i].name), Points(sel[j].name));
    if Points(sel[i].name) == Points(sel[j].name) { PointsInjective(sel[i].name, sel[j].name); }
    hide AcceptAll, FirstRefusal, Normalized, Before, Points;
  }

  // -- the two validators agree --------------------------------------------------------------------

  lemma {:induction false} NamedBy(controls: seq<Control>, name: string, i: nat)
    requires i < |controls| && controls[i].name == name
    requires forall a, b | 0 <= a < b < |controls| :: controls[a].name != controls[b].name
    ensures ControlNamed(controls, name) == Some(controls[i])
  {
    if i > 0 {
      assert controls[0].name != controls[i].name;
      NamedBy(controls[1..], name, i - 1);
    }
  }

  lemma {:induction false} DeclaredBy(capability: seq<Descriptor>, name: string)
    ensures DeclaredAs(capability, name).None? <==> forall i | 0 <= i < |capability| :: capability[i].name != name
    ensures DeclaredAs(capability, name).Some? ==>
              exists i | 0 <= i < |capability| :: capability[i] == DeclaredAs(capability, name).value && capability[i].name == name
  {
    if capability != [] { DeclaredBy(capability[..|capability| - 1], name); }
  }

  lemma {:induction false} NotNamed(controls: seq<Control>, name: string)
    requires forall i | 0 <= i < |controls| :: controls[i].name != name
    ensures ControlNamed(controls, name).None?
  {
    if controls != [] { NotNamed(controls[1..], name); }
  }

  /** On a reviewed route the first and the last control of a name are the same one. */
  lemma SameDescriptor(controls: seq<Control>, name: string)
    requires Reviewed(controls)
    ensures DeclaredAs(Capability(controls), name)
            == if ControlNamed(controls, name).Some? then Some(AsDescriptor(ControlNamed(controls, name).value)) else None
  {
    var capability := Capability(controls);
    DeclaredBy(capability, name);
    hide DeclaredAs;
    if DeclaredAs(capability, name).Some? {
      var i :| 0 <= i < |capability| && capability[i] == DeclaredAs(capability, name).value && capability[i].name == name;
      assert controls[i].name == name;
      NamedBy(controls, name, i);
    } else {
      forall i | 0 <= i < |controls| ensures controls[i].name != name { assert capability[i].name != name; }
      NotNamed(controls, name);
    }
  }

  lemma OneAgrees(controls: seq<Control>, s: Submitted)
    requires Reviewed(controls) && s.provenance.Some?
    ensures AcceptOne(controls, s).Ok? <==> BranchAllows(Capability(controls), s)
  {
    SameDescriptor(controls, s.name);
    hide Capability, Reviewed, DeclaredAs, ControlNamed;
  }

  /** On every reviewed route the two validators agree: submitted controls that name no
      control twice and state an allowlisted provenance are selectable exactly when the
      branch contract allows each of them. */
  lemma ValidatorsAgree(controls: seq<Control>, items: seq<Submitted>)
    requires Reviewed(controls) && forall i | 0 <= i < |items| :: items[i].provenance.Some? && !items[i].provenance.value.Unlisted?
    requires forall k | 0 <= k < |items| :: !Again(items, k)
    ensures SelectControls(controls, Listed(items)).Ok? <==>
              forall i | 0 <= i < |items| :: BranchAllows(Capability(controls), items[i])
  {
    NoRefusal(controls, items, 0);
    forall i | 0 <= i < |items| ensures AcceptOne(controls, items[i]).Ok? <==> BranchAllows(Capability(controls), items[i]) {
      OneAgrees(controls, items[i]);
    }
    hide AcceptOne, BranchAllows, Capability, FirstRefusal, Again, AcceptAll;
  }

  /** So every selection made on a reviewed route passes the contract's control checks. */
  lemma SelectionPassesContract(controls: seq<Control>, s: Submission, k: nat)
    requires Reviewed(controls) && SelectControls(controls, s).Ok? && k < |SelectControls(controls, s).value|
    ensures BranchAllows(Capability(controls), SubmittedAgain(SelectControls(controls, s).value)[k])
  {
    AcceptedAgain(controls, s, k);
    var item := SubmittedAgain(SelectControls(controls, s).value)[k];
    hide AcceptOne, BranchAllows, SelectControls, Capability, Reviewed;
    OneAgrees(controls, item);
  }

  lemma {:induction false} RouteNamedIn(routes: seq<Route>, id: string)
    requires RouteNamed(routes, id).Some?
    ensures RouteNamed(routes, id).value in routes && RouteNamed(routes, id).value.routeId == id
  {
    if routes[0].routeId != id { RouteNamedIn(routes[1..], id); }
  }

  /** From the configuration to the branch: a selection on routes that discovery published is
      of the route asked for, at the pinned digests, and every control of it, projected onto
      a branch with the route's own capability, is one the branch contract allows. */
  lemma DiscoveredSelectionPasses(raws: seq<RawRoute>, display: DisplayRule, routes: seq<Route>, id: string, pins: Pins, s: Submission)
    requires |routes| == |raws| && forall i | 0 <= i < |raws| :: Publishes(routes[i], raws[i], display)
    requires Select(routes, id, pins, s).Ok?
    ensures var sel := Select(routes, id, pins, s).value;
            && sel.route in routes && sel.route.routeId == id
            && (pins.routeDigest.Some? ==> sel.route.routeDigest == pins.routeDigest.value)
            && (pins.profileDigest.Some? ==> sel.route.profileDigest == pins.profileDigest.value)
            && forall k | 0 <= k < |sel.controls| :: BranchAllows(Capability(sel.route.controls), SubmittedAgain(sel.controls)[k])
  {
    var sel := Select(routes, id, pins, s).value;
    RouteNamedIn(routes, id);
    hide SelectControls, Capability, BranchAllows, SubmittedAgain, RouteNamed, Describes, Reviewed, Identifier, RouteIdOf, DisplayName;
    var i :| 0 <= i < |routes| && routes[i] == sel.route;
    assert Publishes(routes[i], raws[i], display);
    forall k | 0 <= k < |sel.controls| ensures BranchAllows(Capability(sel.route.controls), SubmittedAgain(sel.controls)[k]) {
      SelectionPassesContract(sel.route.controls, s, k);
    }
  }
}
