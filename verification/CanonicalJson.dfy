/** The canonical JSON encoder behind every contract digest (workbench/contracts.py).

    A Python string is a sequence of code points, lone surrogates included.  A dict is
    the list of its entries in insertion order; lists and tuples are both `PyList`.
    `PyOther` is any value the JSON encoder cannot serialize. */
module CanonicalJson {
  import opened Outcomes
  import opened Sequences
  import StableSort

  type CodePoint = c: int | 0 <= c < 0x11_0000
  type Text = seq<CodePoint>
  type Byte = b: int | 0 <= b < 256

  datatype PyKey = StrKey(name: Text) | OtherKey

  datatype PyEntry = PyEntry(key: PyKey, value: Py)

  datatype Py =
    | PyNone | PyBool(bool) | PyInt(int) | PyFloat | PyStr(text: Text)
    | PyList(items: seq<Py>) | PyDict(entries: seq<PyEntry>) | PyOther

  datatype EncodeError = FloatRefused | KeyRefused | NotSerializable | NotUtf8

  // -- the restricted domain -------------------------------------------------------

  /** `_reject_floats`: the first offence in reading order. */
  function Rejects(v: Py): Option<EncodeError>
  {
    match v
    case PyFloat => Some(FloatRefused)
    case PyList(items) => RejectsAny(items)
    case PyDict(entries) => RejectsEntry(entries)
    case _ => None
  }

  function RejectsAny(items: seq<Py>): Option<EncodeError>
  {
    if items == [] then None
    else if Rejects(items[0]).Some? then Rejects(items[0]) else RejectsAny(items[1..])
  }

  function RejectsEntry(entries: seq<PyEntry>): Option<EncodeError>
  {
    if entries == [] then None
    else if RejectsOne(entries[0]).Some? then RejectsOne(entries[0])
    else RejectsEntry(entries[1..])
  }

  function RejectsOne(e: PyEntry): Option<EncodeError>
  {
    if e.key.OtherKey? then Some(KeyRefused) else Rejects(e.value)
  }

  predicate Serializable(v: Py)
  {
    match v
    case PyOther => false
    case PyList(items) => forall i | 0 <= i < |items| :: Serializable(items[i])
    case PyDict(entries) => forall i | 0 <= i < |entries| :: Serializable(entries[i].value)
    case _ => true
  }

  /** A Python dict never holds a key twice. */
  predicate Dictionaries(v: Py)
  {
    match v
    case PyList(items) => forall i | 0 <= i < |items| :: Dictionaries(items[i])
    case PyDict(entries) =>
      (forall i, j | 0 <= i < j < |entries| :: entries[i].key != entries[j].key)
      && forall i | 0 <= i < |entries| :: Dictionaries(entries[i].value)
    case _ => true
  }

  /** The same value, the order of dict keys aside. */
  predicate Same(a: Py, b: Py)
  {
    match a
    case PyList(items) =>
      b.PyList? && |items| == |b.items| && forall i | 0 <= i < |items| :: Same(items[i], b.items[i])
    case PyDict(entries) =>
      && b.PyDict? && |entries| == |b.entries|
      && forall i | 0 <= i < |entries| :: EntrySame(entries[i], b.entries)
    case _ => a == b
  }

  predicate EntrySame(e: PyEntry, others: seq<PyEntry>)
  {
    exists j | 0 <= j < |others| :: e.key == others[j].key && Same(e.value, others[j].value)
  }

  // -- the printed tree --------------------------------------------------------------

  datatype Field = Field(name: Text, value: Json)

  /** A value of the domain, as it is printed: fields already in order. */
  datatype Json = Null | Bool(b: bool) | Int(i: int) | Str(s: Text) | Arr(items: seq<Json>) | Obj(fields: seq<Field>)

  /** A string of this model as code points. */
  function Points(s: string): Text
  {
    seq(|s|, i requires 0 <= i < |s| => s[i] as int)
  }

  lemma PointsInjective(s: string, t: string)
    requires Points(s) == Points(t)
    ensures s == t
  {
    assert |s| == |Points(s)| == |Points(t)| == |t|;
    forall i | 0 <= i < |s| ensures s[i] == t[i] { assert Points(s)[i] == Points(t)[i]; }
  }

  /** Code-point order, as Python compares strings. */
  predicate Before(a: Text, b: Text)
  {
    if a == [] then b != []
    else b != [] && (a[0] < b[0] || (a[0] == b[0] && Before(a[1..], b[1..])))
  }

  function NameOf(f: Field): Text { f.name }

  function SortFields(fields: seq<Field>): seq<Field>
  {
    StableSort.Sort(fields, NameOf, Before)
  }

  function Canon(v: Py): Json
  {
    match v
    case PyBool(b) => Bool(b)
    case PyInt(i) => Int(i)
    case PyStr(s) => Str(s)
    case PyList(items) => Arr(CanonAll(items))
    case PyDict(entries) => Obj(SortFields(CanonEntries(entries)))
    case _ => Null
  }

  function CanonAll(items: seq<Py>): (r: seq<Json>)
  {
    if items == [] then [] else [Canon(items[0])] + CanonAll(items[1..])
  }

  function CanonEntries(entries: seq<PyEntry>): (r: seq<Field>)
  {
    if entries == [] then [] else [CanonEntry(entries[0])] + CanonEntries(entries[1..])
  }

  function CanonEntry(e: PyEntry): Field
  {
    Field(if e.key.StrKey? then e.key.name else [], Canon(e.value))
  }

  // -- printing -------------------------------------------------------------------------

  const QUOTE: CodePoint := 34
  const BACKSLASH: CodePoint := 92
  const COMMA: CodePoint := 44
  const COLON: CodePoint := 58

  function HexDigit(n: int): CodePoint
    requires 0 <= n < 16
  {
    if n < 10 then 48 + n else 87 + n
  }

  /** The shortest escape the encoder knows; printable text is left as it is. */
  function Escape(c: CodePoint): Text
  {
    if c == QUOTE then [BACKSLASH, QUOTE]
    else if c == BACKSLASH then [BACKSLASH, BACKSLASH]
    else if c == 8 then [BACKSLASH, 98]
    else if c == 9 then [BACKSLASH, 116]
    else if c == 10 then [BACKSLASH, 110]
    else if c == 12 then [BACKSLASH, 102]
    else if c == 13 then [BACKSLASH, 114]
    else if c < 32 then [BACKSLASH, 117, 48, 48, HexDigit(c / 16), HexDigit(c % 16)]
    else [c]
  }

  /** The rest of a string literal, closing quote included. */
  function StringBody(s: Text): Text
  {
    if s == [] then [QUOTE] else Escape(s[0]) + StringBody(s[1..])
  }

  function Digits(n: nat): Text
  {
    if n < 10 then [48 + n] else Digits(n / 10) + [48 + n % 10]
  }

  function PrintInt(i: int): Text
  {
    if i < 0 then [45] + Digits(-i) else Digits(i)
  }

  const NULL: Text := [110, 117, 108, 108]
  const TRUE: Text := [116, 114, 117, 101]
  const FALSE: Text := [102, 97, 108, 115, 101]

  function Print(v: Json): Text
  {
    match v
    case Null => NULL
    case Bool(b) => if b then TRUE else FALSE
    case Int(i) => PrintInt(i)
    case Str(s) => [QUOTE] + StringBody(s)
    case Arr(items) => [91] + PrintItems(items, true)
    case Obj(fields) => [123] + PrintFields(fields, true)
  }

  /** The elements not yet printed, with a comma before each but the first, and `]`. */
  function PrintItems(items: seq<Json>, first: bool): Text
    decreases items
  {
    if items == [] then [93]
    else (if first then [] else [COMMA]) + (Print(items[0]) + PrintItems(items[1..], false))
  }

  function PrintFields(fields: seq<Field>, first: bool): Text
    decreases fields
  {
    if fields == [] then [125]
    else
      (if first then [] else [COMMA])
      + ([QUOTE] + (StringBody(fields[0].name) + ([COLON] + (Print(fields[0].value) + PrintFields(fields[1..], false)))))
  }

  // -- bytes -------------------------------------------------------------------------------

  predicate Surrogate(c: CodePoint) { 0xD800 <= c <= 0xDFFF }

  function Utf8One(c: CodePoint): seq<Byte>
  {
    if c < 0x80 then [c]
    else if c < 0x800 then [0xC0 + c / 64, 0x80 + c % 64]
    else if c < 0x1_0000 then [0xE0 + c / 4096, 0x80 + c / 64 % 64, 0x80 + c % 64]
    else [0xF0 + c / 262144, 0x80 + c / 4096 % 64, 0x80 + c / 64 % 64, 0x80 + c % 64]
  }

  function Utf8(t: Text): seq<Byte>
  {
    if t == [] then [] else Utf8One(t[0]) + Utf8(t[1..])
  }

  predicate HasSurrogate(t: Text) { exists i | 0 <= i < |t| :: Surrogate(t[i]) }

  /** `_canonical_json` */
  function Encode(v: Py): Result<seq<Byte>, EncodeError>
  {
    if Rejects(v).Some? then Err(Rejects(v).value)
    else if !Serializable(v) then Err(NotSerializable)
    else if HasSurrogate(Print(Canon(v))) then Err(NotUtf8)
    else Ok(Utf8(Print(Canon(v))))
  }

  // -- UTF-8 loses nothing ------------------------------------------------------------------

  lemma Utf8OnePrefix(c: CodePoint, d: CodePoint, x: seq<Byte>, y: seq<Byte>)
    requires Utf8One(c) + x == Utf8One(d) + y
    ensures c == d && x == y
  {
    var s, t := Utf8One(c) + x, Utf8One(d) + y;
    assert s[0] == Utf8One(c)[0] && t[0] == Utf8One(d)[0];
    assert |Utf8One(c)| == |Utf8One(d)|;
    assert s[..|Utf8One(c)|] == Utf8One(c) && t[..|Utf8One(d)|] == Utf8One(d);
    assert Utf8One(c) == Utf8One(d);
    SameBytes(c, d);
    assert s[|Utf8One(c)|..] == x && t[|Utf8One(d)|..] == y;
  }

  lemma Halves(c: nat, d: nat)
    requires c / 64 == d / 64 && c % 64 == d % 64
    ensures c == d
  { }

  lemma Nested(c: nat)
    ensures c / 4096 == c / 64 / 64 && c / 262144 == c / 4096 / 64
  { }

  lemma SameBytes(c: CodePoint, d: CodePoint)
    requires Utf8One(c) == Utf8One(d)
    ensures c == d
  {
    var s, t := Utf8One(c), Utf8One(d);
    assert s[0] == t[0];
    if |s| > 1 {
      Nested(c);
      Nested(d);
      assert s[1] == t[1] && s[|s| - 1] == t[|s| - 1];
      if |s| == 3 {
        Halves(c / 64, d / 64);
      } else if |s| == 4 {
        assert s[2] == t[2];
        Halves(c / 4096, d / 4096);
        Halves(c / 64, d / 64);
      }
      Halves(c, d);
    }
  }

  lemma {:induction false} Utf8Injective(a: Text, b: Text)
    requires Utf8(a) == Utf8(b)
    ensures a == b
  {
    if a != [] && b != [] {
      Utf8OnePrefix(a[0], b[0], Utf8(a[1..]), Utf8(b[1..]));
      Utf8Injective(a[1..], b[1..]);
      assert a == [a[0]] + a[1..] && b == [b[0]] + b[1..];
    }
  }

  // -- no printed form is the beginning of another --------------------------------------------

  lemma Strip(a: Text, x: Text, y: Text)
    requires a + x == a + y
    ensures x == y
  {
    assert (a + x)[|a|..] == x && (a + y)[|a|..] == y;
  }

  lemma EscapeHead(c: CodePoint)
    ensures Escape(c) != [] && Escape(c)[0] != QUOTE
    ensures Escape(c)[0] != BACKSLASH ==> Escape(c) == [c]
  { }

  lemma EscapeSame(c: CodePoint, d: CodePoint, s: Text)
    requires Escape(c) <= s && Escape(d) <= s
    ensures c == d
  {
    assert Escape(c)[0] == s[0] == Escape(d)[0];
    if s[0] == BACKSLASH {
      assert Escape(c)[1] == s[1] == Escape(d)[1];
      if s[1] == 117 {
        assert Escape(c)[4] == s[4] == Escape(d)[4] && Escape(c)[5] == s[5] == Escape(d)[5];
        assert c == c / 16 * 16 + c % 16 && d == d / 16 * 16 + d % 16;
      }
    }
  }

  lemma EscapePrefix(c: CodePoint, d: CodePoint, x: Text, y: Text)
    requires Escape(c) + x == Escape(d) + y
    ensures c == d && x == y
  {
    EscapeSame(c, d, Escape(c) + x);
    Strip(Escape(c), x, y);
  }

  lemma BodyHead(s: Text)
    ensures StringBody(s) != [] && (s == [] <==> StringBody(s)[0] == QUOTE)
  {
    if s != [] { EscapeHead(s[0]); }
  }

  lemma {:induction false} StringPrefix(a: Text, b: Text, x: Text, y: Text)
    requires StringBody(a) + x == StringBody(b) + y
    ensures a == b && x == y
  {
    BodyHead(a);
    BodyHead(b);
    assert StringBody(a)[0] == (StringBody(a) + x)[0] == (StringBody(b) + y)[0] == StringBody(b)[0];
    if a == [] {
      Strip([QUOTE], x, y);
    } else {
      hide Escape;
      Associate(Escape(a[0]), StringBody(a[1..]), x);
      Associate(Escape(b[0]), StringBody(b[1..]), y);
      EscapePrefix(a[0], b[0], StringBody(a[1..]) + x, StringBody(b[1..]) + y);
      StringPrefix(a[1..], b[1..], x, y);
      assert a == [a[0]] + a[1..] && b == [b[0]] + b[1..];
    }
  }

  predicate IsDigit(c: CodePoint) { 48 <= c <= 57 }

  predicate AllDigits(s: Text) { forall i | 0 <= i < |s| :: IsDigit(s[i]) }

  /** What may follow a printed value. */
  predicate Stops(x: Text) { x == [] || x[0] == COMMA || x[0] == 93 || x[0] == 125 }

  function ValueOf(s: Text): int
  {
    if s == [] then 0
    else
      var last: int := s[|s| - 1];
      ValueOf(s[..|s| - 1]) * 10 + (last - 48)
  }

  lemma {:induction false} DigitsValue(n: nat)
    ensures AllDigits(Digits(n)) && Digits(n) != [] && ValueOf(Digits(n)) == n
  {
    if n >= 10 {
      DigitsValue(n / 10);
      assert Digits(n)[..|Digits(n)| - 1] == Digits(n / 10);
    } else {
      assert Digits(n)[..0] == [];
    }
  }

  lemma LongestDigits(s: Text, t: Text, x: Text, y: Text)
    requires s + x == t + y && AllDigits(s) && AllDigits(t) && Stops(x) && Stops(y)
    ensures s == t && x == y
  {
    var u := s + x;
    assert forall i | 0 <= i < |t| :: u[i] == t[i];
    assert x != [] ==> u[|s|] == x[0];
    assert y != [] ==> u[|t|] == y[0];
    assert s == (s + x)[..|s|] && t == (t + y)[..|t|];
    Strip(s, x, y);
  }

  lemma DigitsPrefix(m: nat, n: nat, x: Text, y: Text)
    requires Digits(m) + x == Digits(n) + y && Stops(x) && Stops(y)
    ensures m == n && x == y
  {
    DigitsValue(m);
    DigitsValue(n);
    hide Digits, ValueOf;
    LongestDigits(Digits(m), Digits(n), x, y);
  }

  lemma IntPrefix(i: int, j: int, x: Text, y: Text)
    requires PrintInt(i) + x == PrintInt(j) + y && Stops(x) && Stops(y)
    ensures i == j && x == y
  {
    var s := PrintInt(i) + x;
    if i >= 0 { DigitsValue(i); assert IsDigit(s[0]); }
    if j >= 0 { DigitsValue(j); assert IsDigit(s[0]); }
    hide Digits;
    if i < 0 && j < 0 {
      Associate([45], Digits(-i), x);
      Associate([45], Digits(-j), y);
      Strip([45], Digits(-i) + x, Digits(-j) + y);
      DigitsPrefix(-i, -j, x, y);
    } else if i >= 0 && j >= 0 {
      DigitsPrefix(i, j, x, y);
    }
  }

  /** The first character of a printed value tells its kind. */
  function KindOf(c: CodePoint): int
  {
    if c == 110 then 1 else if c == 116 then 2 else if c == 102 then 3 else if c == 45 || IsDigit(c) then 4
    else if c == QUOTE then 5 else if c == 91 then 6 else if c == 123 then 7 else 0
  }

  function KindOfJson(v: Json): int
  {
    match v
    case Null => 1
    case Bool(b) => if b then 2 else 3
    case Int(_) => 4
    case Str(_) => 5
    case Arr(_) => 6
    case Obj(_) => 7
  }

  lemma PrintHead(v: Json)
    ensures Print(v) != [] && KindOf(Print(v)[0]) == KindOfJson(v)
  {
    match v
    case Int(i) => DigitsValue(if i < 0 then -i else i); hide Digits;
    case _ => hide PrintItems, PrintFields, StringBody;
  }

  lemma {:induction false} PrintPrefix(a: Json, b: Json, x: Text, y: Text)
    requires Print(a) + x == Print(b) + y && Stops(x) && Stops(y)
    ensures a == b && x == y
    decreases a
  {
    PrintHead(a);
    PrintHead(b);
    assert Print(a)[0] == (Print(a) + x)[0] == (Print(b) + y)[0] == Print(b)[0];
    hide KindOf, PrintItems, PrintFields, StringBody, PrintInt;
    match a
    case Null => Strip(NULL, x, y);
    case Bool(t) => Strip(if t then TRUE else FALSE, x, y);
    case Int(i) => IntPrefix(i, b.i, x, y);
    case Str(s) =>
      OpenedPrefix(QUOTE, StringBody(s), StringBody(b.s), x, y);
      StringPrefix(s, b.s, x, y);
    case Arr(items) =>
      OpenedPrefix(91, PrintItems(items, true), PrintItems(b.items, true), x, y);
      ItemsPrefix(items, b.items, true, x, y);
    case Obj(fields) =>
      OpenedPrefix(123, PrintFields(fields, true), PrintFields(b.fields, true), x, y);
      FieldsPrefix(fields, b.fields, true, x, y);
  }

  lemma OpenedPrefix(c: CodePoint, s: Text, t: Text, x: Text, y: Text)
    requires ([c] + s) + x == ([c] + t) + y
    ensures s + x == t + y
  {
    Associate([c], s, x);
    Associate([c], t, y);
    Strip([c], s + x, t + y);
  }

  lemma ItemsHead(items: seq<Json>, first: bool)
    ensures PrintItems(items, first) != []
    ensures items == [] <==> PrintItems(items, first)[0] == 93
    ensures !first ==> PrintItems(items, first)[0] in {93, COMMA}
  {
    if items != [] {
      PrintHead(items[0]);
      hide Print;
    }
  }

  lemma {:induction false} ItemsPrefix(a: seq<Json>, b: seq<Json>, first: bool, x: Text, y: Text)
    requires PrintItems(a, first) + x == PrintItems(b, first) + y
    ensures a == b && x == y
    decreases a
  {
    ItemsHead(a, first);
    ItemsHead(b, first);
    assert PrintItems(a, first)[0] == (PrintItems(a, first) + x)[0] == (PrintItems(b, first) + y)[0] == PrintItems(b, first)[0];
    if a == [] {
      Strip([93], x, y);
    } else {
      hide Print;
      var comma: Text := if first then [] else [COMMA];
      var p, q, restA, restB := Print(a[0]), Print(b[0]), PrintItems(a[1..], false), PrintItems(b[1..], false);
      Peel(comma, p, restA, x);
      Peel(comma, q, restB, y);
      Strip(comma, p + (restA + x), q + (restB + y));
      ItemsHead(a[1..], false);
      ItemsHead(b[1..], false);
      PrintPrefix(a[0], b[0], restA + x, restB + y);
      ItemsPrefix(a[1..], b[1..], false, x, y);
      assert a == [a[0]] + a[1..] && b == [b[0]] + b[1..];
    }
  }

  lemma Peel(c: Text, p: Text, r: Text, x: Text)
    ensures (c + (p + r)) + x == c + (p + (r + x))
  { }

  lemma FieldsHead(fields: seq<Field>, first: bool)
    ensures PrintFields(fields, first) != []
    ensures fields == [] <==> PrintFields(fields, first)[0] == 125
    ensures !first ==> PrintFields(fields, first)[0] in {125, COMMA}
  {
    hide StringBody, Print;
  }

  /** One field and what follows it, comma aside. */
  function FieldText(f: Field, rest: Text): Text
  {
    [QUOTE] + (StringBody(f.name) + ([COLON] + (Print(f.value) + rest)))
  }

  lemma PeelField(fields: seq<Field>, first: bool, x: Text)
    requires fields != []
    ensures PrintFields(fields, first) + x
            == (if first then [] else [COMMA]) + FieldText(fields[0], PrintFields(fields[1..], false) + x)
  {
    hide StringBody, Print;
    var comma: Text := if first then [] else [COMMA];
    var r := PrintFields(fields[1..], false);
    assert PrintFields(fields, first) == comma + FieldText(fields[0], r);
    hide PrintFields, FieldText;
    Associate(comma, FieldText(fields[0], r), x);
    FieldTextEnd(fields[0], r, x);
  }

  lemma FieldTextEnd(f: Field, r: Text, x: Text)
    ensures FieldText(f, r) + x == FieldText(f, r + x)
  {
    hide StringBody, Print;
    var n, p := StringBody(f.name), Print(f.value);
    Associate([QUOTE], n + ([COLON] + (p + r)), x);
    Associate(n, [COLON] + (p + r), x);
    Associate([COLON], p + r, x);
    Associate(p, r, x);
  }

  lemma {:induction false} FieldsPrefix(a: seq<Field>, b: seq<Field>, first: bool, x: Text, y: Text)
    requires PrintFields(a, first) + x == PrintFields(b, first) + y
    ensures a == b && x == y
    decreases a
  {
    FieldsHead(a, first);
    FieldsHead(b, first);
    assert PrintFields(a, first)[0] == (PrintFields(a, first) + x)[0] == (PrintFields(b, first) + y)[0] == PrintFields(b, first)[0];
    if a == [] {
      Strip([125], x, y);
    } else {
      var restA, restB := PrintFields(a[1..], false) + x, PrintFields(b[1..], false) + y;
      PeelField(a, first, x);
      PeelField(b, first, y);
      FieldsHead(a[1..], false);
      FieldsHead(b[1..], false);
      hide PrintFields, FieldText;
      Strip(if first then [] else [COMMA], FieldText(a[0], restA), FieldText(b[0], restB));
      FieldPrefix(a[0], b[0], restA, restB);
      FieldsPrefix(a[1..], b[1..], false, x, y);
      assert a == [a[0]] + a[1..] && b == [b[0]] + b[1..];
    }
  }

  lemma {:induction false} FieldPrefix(f: Field, g: Field, x: Text, y: Text)
    requires FieldText(f, x) == FieldText(g, y) && Stops(x) && Stops(y)
    ensures f == g && x == y
    decreases f
  {
    hide StringBody, Print;
    Strip([QUOTE], StringBody(f.name) + ([COLON] + (Print(f.value) + x)), StringBody(g.name) + ([COLON] + (Print(g.value) + y)));
    StringPrefix(f.name, g.name, [COLON] + (Print(f.value) + x), [COLON] + (Print(g.value) + y));
    Strip([COLON], Print(f.value) + x, Print(g.value) + y);
    PrintPrefix(f.value, g.value, x, y);
  }

  /** Printing is injective. */
  lemma PrintInjective(a: Json, b: Json)
    requires Print(a) == Print(b)
    ensures a == b
  {
    assert Print(a) + [] == Print(a) && Print(b) + [] == Print(b);
    PrintPrefix(a, b, [], []);
  }

  // -- sorting forgets the order of keys, and nothing else -------------------------------------

  lemma {:induction false} BeforeIsStrict(a: Text, b: Text)
    ensures !(Before(a, b) && Before(b, a)) && !Before(a, a)
    ensures a != b ==> Before(a, b) || Before(b, a)
  {
    if a != [] { BeforeIsStrict(a[1..], a[1..]); }
    if a != [] && b != [] {
      BeforeIsStrict(a[1..], b[1..]);
      assert a == [a[0]] + a[1..] && b == [b[0]] + b[1..];
    }
  }

  lemma {:induction false} BeforeTransitive(a: Text, b: Text, c: Text)
    requires Before(a, b) && Before(b, c)
    ensures Before(a, c)
  {
    if a != [] && a[0] == b[0] && b[0] == c[0] { BeforeTransitive(a[1..], b[1..], c[1..]); }
  }

  lemma BeforeIsTotal()
    ensures StableSort.TotalOrder(Before)
  {
    forall a: Text, b: Text ensures (Before(a, b) ==> !Before(b, a)) && (a == b || Before(a, b) || Before(b, a)) {
      BeforeIsStrict(a, b);
    }
    forall a: Text, b: Text, c: Text | Before(a, b) && Before(b, c) ensures Before(a, c) { BeforeTransitive(a, b, c); }
  }

  ghost predicate DistinctNames(s: seq<Field>) { StableSort.DistinctKeys(s, NameOf) }

  // -- equal bytes mean equal values --------------------------------------------------------------

  /** A value the encoder can print. */
  ghost predicate Fine(v: Py)
  {
    Rejects(v).None? && Serializable(v) && Dictionaries(v)
  }

  lemma {:induction false} AllItemsPass(items: seq<Py>, i: nat)
    requires RejectsAny(items).None? && i < |items|
    ensures Rejects(items[i]).None?
  {
    if i > 0 { AllItemsPass(items[1..], i - 1); }
  }

  lemma {:induction false} AllEntriesPass(entries: seq<PyEntry>, i: nat)
    requires RejectsEntry(entries).None? && i < |entries|
    ensures entries[i].key.StrKey? && Rejects(entries[i].value).None?
  {
    if i > 0 { AllEntriesPass(entries[1..], i - 1); }
  }

  lemma {:induction false} CanonAllAt(items: seq<Py>, i: nat)
    ensures |CanonAll(items)| == |items| && (i < |items| ==> CanonAll(items)[i] == Canon(items[i]))
  {
    if items != [] { CanonAllAt(items[1..], if i > 0 then i - 1 else 0); }
  }

  lemma {:induction false} CanonEntriesAt(entries: seq<PyEntry>, i: nat)
    ensures |CanonEntries(entries)| == |entries| && (i < |entries| ==> CanonEntries(entries)[i] == CanonEntry(entries[i]))
  {
    if entries != [] { CanonEntriesAt(entries[1..], if i > 0 then i - 1 else 0); }
  }

  lemma FieldsDistinct(entries: seq<PyEntry>)
    requires Fine(PyDict(entries))
    ensures |CanonEntries(entries)| == |entries| && DistinctNames(CanonEntries(entries)) && NoRepeats(CanonEntries(entries))
  {
    var fields := CanonEntries(entries);
    CanonEntriesAt(entries, 0);
    forall i, j | 0 <= i < j < |fields| ensures fields[i].name != fields[j].name {
      CanonEntriesAt(entries, i);
      CanonEntriesAt(entries, j);
      AllEntriesPass(entries, i);
      AllEntriesPass(entries, j);
      assert entries[i].key != entries[j].key;
    }
  }

  lemma {:induction false} CanonSame(a: Py, b: Py)
    requires Fine(a) && Fine(b)
    ensures Canon(a) == Canon(b) <==> Same(a, b)
    decreases a
  {
    if a.PyList? && b.PyList? {
      var items, others := a.items, b.items;
      CanonAllAt(items, 0);
      CanonAllAt(others, 0);
      forall i | 0 <= i < |items| && i < |others|
        ensures CanonAll(items)[i] == CanonAll(others)[i] <==> Same(items[i], others[i])
      {
        CanonAllAt(items, i);
        CanonAllAt(others, i);
        AllItemsPass(items, i);
        AllItemsPass(others, i);
        CanonSame(items[i], others[i]);
      }
    } else if a.PyDict? && b.PyDict? {
      forall i, j | 0 <= i < |a.entries| && 0 <= j < |b.entries|
        ensures Canon(a.entries[i].value) == Canon(b.entries[j].value) <==> Same(a.entries[i].value, b.entries[j].value)
      {
        AllEntriesPass(a.entries, i);
        AllEntriesPass(b.entries, j);
        CanonSame(a.entries[i].value, b.entries[j].value);
      }
      DictSame(a.entries, b.entries);
    }
  }

  lemma FieldIn(entries: seq<PyEntry>, i: nat, others: seq<PyEntry>)
    requires Fine(PyDict(entries)) && Fine(PyDict(others)) && i < |entries|
    requires forall j | 0 <= j < |others| ::
               Canon(entries[i].value) == Canon(others[j].value) <==> Same(entries[i].value, others[j].value)
    ensures CanonEntry(entries[i]) in CanonEntries(others) <==> EntrySame(entries[i], others)
  {
    var fields := CanonEntries(others);
    AllEntriesPass(entries, i);
    CanonEntriesAt(others, 0);
    forall j | 0 <= j < |others|
      ensures fields[j] == CanonEntry(entries[i]) <==> entries[i].key == others[j].key && Same(entries[i].value, others[j].value)
    {
      CanonEntriesAt(others, j);
      AllEntriesPass(others, j);
    }
    hide Fine, Canon, CanonEntries, Same;
    if CanonEntry(entries[i]) in fields { var j :| 0 <= j < |fields| && fields[j] == CanonEntry(entries[i]); }
    if j :| 0 <= j < |others| && entries[i].key == others[j].key && Same(entries[i].value, others[j].value) {
      assert fields[j] in fields;
    }
  }

  lemma DictSame(entries: seq<PyEntry>, others: seq<PyEntry>)
    requires Fine(PyDict(entries)) && Fine(PyDict(others))
    requires forall i, j | 0 <= i < |entries| && 0 <= j < |others| ::
               Canon(entries[i].value) == Canon(others[j].value) <==> Same(entries[i].value, others[j].value)
    ensures SortFields(CanonEntries(entries)) == SortFields(CanonEntries(others)) <==> Same(PyDict(entries), PyDict(others))
  {
    hide Fine, Canon, CanonEntries, SortFields, DistinctNames, NoRepeats, Same, EntrySame;
    var f, g := CanonEntries(entries), CanonEntries(others);
    FieldsDistinct(entries);
    FieldsDistinct(others);
    SortedSame(f, g);
    forall i | 0 <= i < |entries| ensures f[i] in g <==> EntrySame(entries[i], others) {
      CanonEntriesAt(entries, i);
      FieldIn(entries, i, others);
    }
    DictSameMeans(entries, others);
  }

  lemma DictSameMeans(entries: seq<PyEntry>, others: seq<PyEntry>)
    ensures Same(PyDict(entries), PyDict(others)) <==>
              |entries| == |others| && forall i | 0 <= i < |entries| :: EntrySame(entries[i], others)
  { }

  lemma SortedSame(f: seq<Field>, g: seq<Field>)
    requires DistinctNames(f) && NoRepeats(f) && NoRepeats(g)
    ensures SortFields(f) == SortFields(g) <==> |f| == |g| && forall i | 0 <= i < |f| :: f[i] in g
  {
    BeforeIsTotal();
    StableSort.SortForgetsOrder(f, g, NameOf, Before);
    hide SortFields, DistinctNames;
    if multiset(f) == multiset(g) {
      assert |f| == |multiset(f)| == |multiset(g)| == |g|;
      forall i | 0 <= i < |f| ensures f[i] in g { assert f[i] in multiset(g); }
    }
    if |f| == |g| && forall i | 0 <= i < |f| :: f[i] in g { ContainedIn(f, g); }
  }

  /** The encoder is injective on its domain: two values that encode have the same bytes
      exactly when they are the same value, the order of dict keys aside. */
  lemma EncodeInjective(a: Py, b: Py)
    requires Dictionaries(a) && Dictionaries(b) && Encode(a).Ok? && Encode(b).Ok?
    ensures Encode(a) == Encode(b) <==> Same(a, b)
  {
    CanonSame(a, b);
    hide Canon, Print, Utf8, Same, Rejects, Serializable, HasSurrogate;
    if Encode(a) == Encode(b) {
      Utf8Injective(Print(Canon(a)), Print(Canon(b)));
      PrintInjective(Canon(a), Canon(b));
    }
  }

  // -- the form itself ---------------------------------------------------------------------------------

  /** The fields of a printed object stand in ascending code-point order. */
  lemma FieldsAscend(entries: seq<PyEntry>)
    ensures Canon(PyDict(entries)).Obj?
    ensures var fields := Canon(PyDict(entries)).fields;
            && |fields| == |entries| && (forall i, j | 0 <= i < j < |fields| :: !Before(fields[j].name, fields[i].name))
            && forall i | 0 <= i < |entries| && entries[i].key.StrKey? :: Field(entries[i].key.name, Canon(entries[i].value)) in fields
  {
    var plain, fields := CanonEntries(entries), Canon(PyDict(entries)).fields;
    BeforeIsTotal();
    StableSort.SortIsStable(plain, NameOf, Before);
    CanonEntriesAt(entries, 0);
    assert |multiset(fields)| == |multiset(plain)|;
    hide SortFields, CanonEntries;
    forall i | 0 <= i < |entries| && entries[i].key.StrKey? ensures Field(entries[i].key.name, Canon(entries[i].value)) in fields {
      CanonEntriesAt(entries, i);
      assert plain[i] in multiset(fields);
    }
  }

  /** The first character in which two names differ decides, and a name comes before any longer
      one that begins with it. */
  lemma {:induction false} BeforeMeans(a: Text, c: CodePoint, d: CodePoint, x: Text, y: Text)
    ensures c < d ==> Before(a + [c] + x, a + [d] + y)
    ensures Before(a, a + [c] + x)
  {
    if a == [] {
      assert [] + [c] + x == [c] + x && [] + [d] + y == [d] + y;
    } else {
      assert (a + [c] + x)[1..] == a[1..] + [c] + x && (a + [d] + y)[1..] == a[1..] + [d] + y;
      BeforeMeans(a[1..], c, d, x, y);
    }
  }

  /** Lists and objects: brackets, commas between, a colon after each quoted name, no spaces. */
  lemma PrintedForms(x: Json, y: Json, f: Text, g: Text)
    ensures Print(Arr([])) == [91, 93] && Print(Obj([])) == [123, 125]
    ensures Print(Arr([x, y])) == [91] + (Print(x) + ([44] + (Print(y) + [93])))
    ensures Print(Obj([Field(f, x), Field(g, y)]))
            == [123] + ([34] + (StringBody(f) + ([58] + (Print(x)
               + ([44] + ([34] + (StringBody(g) + ([58] + (Print(y) + [125])))))))))
    ensures Print(Null) == [110, 117, 108, 108] && Print(Bool(true)) == [116, 114, 117, 101]
    ensures Print(Bool(false)) == [102, 97, 108, 115, 101] && Print(Str(f)) == [34] + StringBody(f)
  {
    hide Print, StringBody;
    PrintedAtoms(f);
    PrintedList(x, y);
    PrintedObject(x, y, f, g);
  }

  lemma PrintedAtoms(f: Text)
    ensures Print(Arr([])) == [91, 93] && Print(Obj([])) == [123, 125]
    ensures Print(Null) == [110, 117, 108, 108] && Print(Bool(true)) == [116, 114, 117, 101]
    ensures Print(Bool(false)) == [102, 97, 108, 115, 101] && Print(Str(f)) == [34] + StringBody(f)
  {
    hide StringBody;
  }

  lemma PrintedList(x: Json, y: Json)
    ensures Print(Arr([x, y])) == [91] + (Print(x) + ([44] + (Print(y) + [93])))
  {
    hide StringBody, PrintFields;
    var tail := [y];
    assert [x, y][1..] == tail && tail[1..] == [];
    assert PrintItems(tail, false) == [44] + (Print(y) + [93]);
  }

  lemma PrintedObject(x: Json, y: Json, f: Text, g: Text)
    ensures Print(Obj([Field(f, x), Field(g, y)]))
            == [123] + ([34] + (StringBody(f) + ([58] + (Print(x)
               + ([44] + ([34] + (StringBody(g) + ([58] + (Print(y) + [125])))))))))
  {
    hide StringBody, PrintItems;
    var tail := [Field(g, y)];
    assert [Field(f, x), Field(g, y)][1..] == tail && tail[1..] == [];
    assert PrintFields(tail, false) == [44] + ([34] + (StringBody(g) + ([58] + (Print(y) + [125]))));
  }

  /** Integers: decimal, without leading zeros, a minus sign in front. */
  lemma PrintedNumbers(n: nat, d: nat)
    requires d < 10
    ensures Print(Int(d)) == [48 + d] && (n > 0 ==> Print(Int(10 * n + d)) == Print(Int(n)) + [48 + d])
    ensures n > 0 ==> Print(Int(-(n as int))) == [45] + Print(Int(n))
  { }

  /** Strings: the quote, the backslash and the control characters are escaped, the rest is not. */
  lemma PrintedCharacters(c: CodePoint, rest: Text)
    ensures StringBody([]) == [34] && StringBody([c] + rest) == Escape(c) + StringBody(rest)
    ensures c >= 32 && c != 34 && c != 92 ==> Escape(c) == [c]
    ensures Escape(34) == [92, 34] && Escape(92) == [92, 92] && Escape(8) == [92, 98] && Escape(9) == [92, 116]
    ensures Escape(10) == [92, 110] && Escape(12) == [92, 102] && Escape(13) == [92, 114]
    ensures c < 32 && c !in {8, 9, 10, 12, 13} ==>
              && |Escape(c)| == 6 && Escape(c)[..4] == [92, 117, 48, 48]
              && 16 * HexValue(Escape(c)[4]) + HexValue(Escape(c)[5]) == c
  {
    assert ([c] + rest)[1..] == rest;
  }

  /** A lower-case hexadecimal digit. */
  function HexValue(d: CodePoint): int
  {
    if 48 <= d <= 57 then d - 48 else if 97 <= d <= 102 then d - 87 else -1000
  }

  /** The bytes of a character (section 3 of RFC 3629): as many as it needs, the first saying how
      many, six bits in each that follows. */
  lemma EncodedCharacters(c: CodePoint, rest: Text)
    ensures Utf8([]) == [] && Utf8([c] + rest) == Utf8One(c) + Utf8(rest)
    ensures c < 0x80 ==> Utf8One(c) == [c]
    ensures 0x80 <= c < 0x800 ==>
              |Utf8One(c)| == 2 && 0xC0 <= Utf8One(c)[0] && c == 64 * (Utf8One(c)[0] - 0xC0) + Low(c, 1)
    ensures 0x800 <= c < 0x1_0000 ==>
              |Utf8One(c)| == 3 && 0xE0 <= Utf8One(c)[0] && c == 4096 * (Utf8One(c)[0] - 0xE0) + 64 * Low(c, 1) + Low(c, 2)
    ensures 0x1_0000 <= c ==>
              |Utf8One(c)| == 4 && 0xF0 <= Utf8One(c)[0]
              && c == 262144 * (Utf8One(c)[0] - 0xF0) + 4096 * Low(c, 1) + 64 * Low(c, 2) + Low(c, 3)
    ensures forall i | 1 <= i < |Utf8One(c)| :: 0 <= Low(c, i) < 64
  {
    assert ([c] + rest)[1..] == rest;
    Nested(c);
  }

  /** The six bits of a continuation byte. */
  function Low(c: CodePoint, i: nat): int
    requires 1 <= i < |Utf8One(c)|
  {
    Utf8One(c)[i] - 0x80
  }
}
