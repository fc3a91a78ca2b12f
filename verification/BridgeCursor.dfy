/** Tailing the State event log with a committed cursor (workbench/bridge.py).

    The log only grows.  A poll reads one snapshot of it; each event is delivered to the
    hub and then the cursor is committed past it.  What JSON text means is a parameter. */
module BridgeCursor {
  import opened Outcomes
  import opened Sequences

  /** A line as `json.loads` reads it; only an object has the `get` the bridge calls. */
  datatype Parsed<E> = NotJson | NotAnObject | Event(event: E)

  type Parser<!E> = string -> Parsed<E>

  /** An event and the position of the line it was read from. */
  datatype Located<E> = Located(start: nat, event: E)

  /** What `new_events` yields for one line: where the line starts, the offset after it. */
  datatype Item<E> = Item(start: nat, next: nat, parsed: Parsed<E>)

  predicate Space(c: char)
  {
    c in {' ', '\t', '\n', '\r', '\U{B}', '\U{C}', '\U{1C}', '\U{1D}', '\U{1E}', '\U{1F}', '\U{85}', '\U{A0}', '\U{1680}',
          '\U{2028}', '\U{2029}', '\U{202F}', '\U{205F}', '\U{3000}'}
    || '\U{2000}' <= c <= '\U{200A}'
  }

  /** `not line.strip()` */
  predicate Blank(line: string) { forall i | 0 <= i < |line| :: Space(line[i]) }

  /** The white space of JSON (section 2 of RFC 8259). */
  predicate JsonSpace(c: char) { c in {' ', '\t', '\n', '\r'} }

  predicate JsonBlank(text: string) { forall i | 0 <= i < |text| :: JsonSpace(text[i]) }

  /** `json.loads` ignores white space after the value, so the parser is given the line
      without it. */
  function WithoutTail(line: string): string
  {
    if line != "" && JsonSpace(line[|line| - 1]) then WithoutTail(line[..|line| - 1]) else line
  }

  /** Exactly the four white-space characters of JSON are dropped at a line's end. */
  lemma TailExactly(line: string, c: char)
    ensures WithoutTail("") == ""
    ensures WithoutTail(line + [c]) == if c == ' ' || c == '\t' || c == '\n' || c == '\r' then WithoutTail(line) else line + [c]
  {
    assert (line + [c])[..|line + [c]| - 1] == line;
  }

  // -- lines ---------------------------------------------------------------------

  /** Just after the next newline from `i` on, or the end of the log. */
  function LineEnd(log: string, i: nat): (e: nat)
    requires i < |log|
    ensures i < e <= |log|
    ensures forall k | i <= k < e - 1 :: log[k] != '\n'
    ensures log[e - 1] == '\n' || e == |log|
    decreases |log| - i
  {
    if log[i] == '\n' || i + 1 == |log| then i + 1 else LineEnd(log, i + 1)
  }

  function Read<E>(parse: Parser<E>, line: string): Parsed<E>
  {
    if Blank(line) then NotJson else parse(WithoutTail(line))
  }

  /** The items of the lines from `i` on that hold JSON. */
  function ItemsFrom<E>(parse: Parser<E>, log: string, i: nat): seq<Item<E>>
    decreases |log| - i
  {
    if i >= |log| then []
    else
      var e := LineEnd(log, i);
      var rest := ItemsFrom(parse, log, e);
      if Read(parse, log[i..e]).NotJson? then rest else [Item(i, e, Read(parse, log[i..e]))] + rest
  }

  /** `new_events` from the committed offset. */
  method NewEvents<E>(parse: Parser<E>, log: string, offset: nat) returns (items: seq<Item<E>>)
    ensures items == ItemsFrom(parse, log, offset)
  {
    items := [];
    var position := offset;
    while position < |log|
      invariant items + ItemsFrom(parse, log, position) == ItemsFrom(parse, log, offset)
      decreases |log| - position
    {
      var next := LineEnd(log, position);
      var line := log[position..next];
      if !Blank(line) {
        var parsed := parse(WithoutTail(line));
        if !parsed.NotJson? { items := items + [Item(position, next, parsed)]; }
      }
      position := next;
    }
  }

  /** The object events of the log, in order. */
  function ObjectsFrom<E>(parse: Parser<E>, log: string, i: nat): seq<Located<E>>
    decreases |log| - i
  {
    if i >= |log| then []
    else
      var e := LineEnd(log, i);
      var line := Read(parse, log[i..e]);
      if line.Event? then [Located(i, line.event)] + ObjectsFrom(parse, log, e) else ObjectsFrom(parse, log, e)
  }

  function Objects<E>(parse: Parser<E>, log: string): seq<Located<E>> { ObjectsFrom(parse, log, 0) }

  predicate LineStart(log: string, i: nat) { i == 0 || (i <= |log| && log[i - 1] == '\n') }

  /** Where a cursor can be: at a line's start, or behind an object that had no newline yet
      when it was read and has been followed by nothing but white space in its line since. */
  ghost predicate Boundary<E>(parse: Parser<E>, log: string, c: nat)
  {
    c <= |log| && (LineStart(log, c) || exists s: nat :: Within(parse, log, s, c))
  }

  ghost predicate Within<E>(parse: Parser<E>, log: string, s: nat, c: nat)
  {
    && s < c <= |log| && LineStart(log, s) && (forall k | s <= k < c :: log[k] != '\n') && Read(parse, log[s..c]).Event?
    && c <= LineEnd(log, s) && JsonBlank(log[c..LineEnd(log, s)])
  }

  /** The last line of the log, which has no newline yet, starts here. */
  predicate Unfinished(log: string, s: nat)
  {
    s < |log| && LineStart(log, s) && forall k | s <= k < |log| :: log[k] != '\n'
  }

  /** `longer` goes on from `log`; if the last line of `log` is unfinished and reads as an
      object, that line goes on with nothing but white space. */
  ghost predicate GoesOn<E>(parse: Parser<E>, log: string, longer: string)
  {
    log <= longer
    && forall s: nat :: Unfinished(log, s) && Read(parse, log[s..]).Event? ==>
         |log| <= LineEnd(longer, s) && JsonBlank(longer[|log|..LineEnd(longer, s)])
  }

  lemma {:induction false} TailIgnored<E>(parse: Parser<E>, line: string, tail: string)
    requires JsonBlank(tail) && !Blank(line)
    ensures Read(parse, line + tail) == Read(parse, line)
  {
    var k :| 0 <= k < |line| && !Space(line[k]);
    assert (line + tail)[k] == line[k];
    WithoutBoth(line, tail);
  }

  lemma ReadIsNotBlank<E>(parse: Parser<E>, line: string)
    requires Read(parse, line).Event?
    ensures !Blank(line)
  { }

  lemma {:induction false} WithoutBoth(line: string, tail: string)
    requires JsonBlank(tail)
    ensures WithoutTail(line + tail) == WithoutTail(line)
  {
    if tail == "" {
      assert line + tail == line;
    } else {
      WithoutBoth(line, tail[..|tail| - 1]);
      assert (line + tail)[..|line + tail| - 1] == line + tail[..|tail| - 1];
    }
  }

  // -- splitting the log at a boundary --------------------------------------------

  lemma LineEndOfPrefix(log: string, c: nat, i: nat)
    requires i < c <= |log|
    ensures LineEnd(log[..c], i) == if LineEnd(log, i) <= c then LineEnd(log, i) else c
    decreases c - i
  {
    if log[i] != '\n' && i + 1 < c { LineEndOfPrefix(log, c, i + 1); }
  }

  lemma {:induction false} SplitAtLine<E>(parse: Parser<E>, log: string, c: nat, i: nat)
    requires i <= c <= |log| && LineStart(log, c)
    ensures ObjectsFrom(parse, log, i) == ObjectsFrom(parse, log[..c], i) + ObjectsFrom(parse, log, c)
    decreases c - i
  {
    if i < c {
      var e := LineEnd(log, i);
      assert log[c - 1] == '\n';
      LineEndOfPrefix(log, c, i);
      assert log[..c][i..e] == log[i..e];
      SplitAtLine(parse, log, c, e);
    }
  }

  /** A line read as an object, up to the end it has now. */
  lemma WholeLine<E>(parse: Parser<E>, log: string, s: nat, c: nat)
    requires Within(parse, log, s, c)
    ensures Read(parse, log[s..LineEnd(log, s)]) == Read(parse, log[s..c]) && Blank(log[c..LineEnd(log, s)])
  {
    var e := LineEnd(log, s);
    assert log[s..e] == log[s..c] + log[c..e];
    TailIgnored(parse, log[s..c], log[c..e]);
  }

  lemma {:induction false} SplitWithin<E>(parse: Parser<E>, log: string, s: nat, c: nat)
    requires Within(parse, log, s, c)
    ensures ObjectsFrom(parse, log, s) == ObjectsFrom(parse, log[..c], s) + ObjectsFrom(parse, log, c)
  {
    var e := LineEnd(log, s);
    LineEndOfPrefix(log, c, s);
    assert log[..c][s..c] == log[s..c];
    WholeLine(parse, log, s, c);
    assert ObjectsFrom(parse, log[..c], s) == [Located(s, Read(parse, log[s..c]).event)] by {
      assert ObjectsFrom(parse, log[..c], c) == [];
    }
    if c < e {
      LineEndInside(log, s, c);
      assert LineEnd(log, c) == e;
    }
  }

  lemma LineEndInside(log: string, s: nat, c: nat)
    requires s < |log| && s <= c < LineEnd(log, s)
    ensures LineEnd(log, c) == LineEnd(log, s)
    decreases c - s
  {
    if s < c { LineEndInside(log, s + 1, c); }
  }

  lemma SplitInside<E>(parse: Parser<E>, log: string, s: nat, c: nat)
    requires Within(parse, log, s, c)
    ensures Objects(parse, log) == Objects(parse, log[..c]) + ObjectsFrom(parse, log, c)
  {
    SplitAtLine(parse, log, s, 0);
    SplitWithin(parse, log, s, c);
    assert LineStart(log[..c], s) && log[..c][..s] == log[..s];
    SplitAtLine(parse, log[..c], s, 0);
    hide ObjectsFrom, Within;
    Associate(Objects(parse, log[..s]), ObjectsFrom(parse, log[..c], s), ObjectsFrom(parse, log, c));
  }

  /** The object events of the log are those before a boundary and those read from it. */
  lemma Split<E>(parse: Parser<E>, log: string, c: nat)
    requires Boundary(parse, log, c)
    ensures Objects(parse, log) == Objects(parse, log[..c]) + ObjectsFrom(parse, log, c)
  {
    if LineStart(log, c) {
      SplitAtLine(parse, log, c, 0);
    } else {
      var s: nat :| Within(parse, log, s, c);
      hide ObjectsFrom, Within;
      SplitInside(parse, log, s, c);
    }
  }

  /** Where a line of `log` ends in a longer log. */
  lemma LineEndLater(log: string, longer: string, s: nat)
    requires log <= longer && s < |log|
    ensures LineEnd(log, s) <= LineEnd(longer, s)
    ensures log[LineEnd(log, s) - 1] == '\n' ==> LineEnd(longer, s) == LineEnd(log, s)
  {
    assert longer[..|log|] == log;
    LineEndOfPrefix(longer, |log|, s);
  }

  lemma WithinLater<E>(parse: Parser<E>, log: string, longer: string, s: nat, c: nat)
    requires log <= longer && Within(parse, log, s, c)
    requires log[LineEnd(log, s) - 1] == '\n' || GoesOn(parse, log, longer)
    ensures Within(parse, longer, s, c)
  {
    hide Read, LineEnd, Blank;
    var e, e' := LineEnd(log, s), LineEnd(longer, s);
    LineEndLater(log, longer, s);
    assert longer[s..c] == log[s..c];
    if log[e - 1] == '\n' {
      assert longer[c..e] == log[c..e];
    } else {
      WholeLine(parse, log, s, c);
      assert log[s..] == log[s..e];
      assert Unfinished(log, s);
      assert longer[c..e'] == log[c..e] + longer[e..e'];
    }
    hide GoesOn;
  }

  /** A boundary stays one: its line is finished, or goes on as it should. */
  lemma BoundaryLater<E>(parse: Parser<E>, log: string, longer: string, c: nat)
    requires log <= longer && Boundary(parse, log, c)
    requires GoesOn(parse, log, longer) || forall s: nat | Unfinished(log, s) :: c <= s
    ensures Boundary(parse, longer, c) && longer[..c] == log[..c]
  {
    if !LineStart(log, c) {
      var s: nat :| Within(parse, log, s, c);
      assert s < c && (log[LineEnd(log, s) - 1] == '\n' || Unfinished(log, s));
      hide Within, GoesOn;
      WithinLater(parse, log, longer, s, c);
    }
  }

  // -- polling ----------------------------------------------------------------------

  /** A poll under way: the snapshot it read, the items still to do, and the offset of an
      event already delivered but not yet committed. */
  datatype Poll<E> = Poll(snapshot: string, pending: seq<Item<E>>, committing: Option<nat>)

  datatype Bridge<E> = Bridge(
    log: string, cursor: nat, delivered: seq<Located<E>>, poll: Option<Poll<E>>, interruptions: nat)

  /** `Interrupt` is a crash or an exception at any point, the hub's included; an event
      that is not an object raises when it is about to be delivered. */
  datatype Action = Append(text: string) | StartPoll | Deliver | Commit | Interrupt | Finish

  function Interrupted<E>(b: Bridge<E>): Bridge<E>
  {
    b.(poll := None, interruptions := b.interruptions + 1)
  }

  function Step<E>(parse: Parser<E>, b: Bridge<E>, a: Action): Bridge<E>
  {
    match a
    case Append(text) => b.(log := b.log + text)
    case StartPoll =>
      if b.poll.Some? then b else b.(poll := Some(Poll(b.log, ItemsFrom(parse, b.log, b.cursor), None)))
    case Deliver =>
      if b.poll.None? || b.poll.value.committing.Some? || b.poll.value.pending == [] then b
      else
        var item := b.poll.value.pending[0];
        if !item.parsed.Event? then Interrupted(b)
        else b.(delivered := b.delivered + [Located(item.start, item.parsed.event)],
                poll := Some(b.poll.value.(committing := Some(item.next))))
    case Commit =>
      if b.poll.None? || b.poll.value.committing.None? || b.poll.value.pending == [] then b
      else b.(cursor := b.poll.value.committing.value,
              poll := Some(b.poll.value.(pending := b.poll.value.pending[1..], committing := None)))
    case Interrupt => if b.poll.None? then b else Interrupted(b)
    case Finish =>
      if b.poll.Some? && b.poll.value.pending == [] then b.(poll := None) else b
  }

  /** A poll has read the unfinished last line as an object: the cursor stands behind it, or
      it was the last delivery, or it is in the snapshot of the poll under way. */
  ghost predicate Watched<E>(parse: Parser<E>, b: Bridge<E>, s: nat)
  {
    Unfinished(b.log, s)
    && (|| s < b.cursor
        || (b.delivered != [] && b.delivered[|b.delivered| - 1].start == s)
        || (b.poll.Some? && s < |b.poll.value.snapshot| && Read(parse, b.poll.value.snapshot[s..]).Event?))
  }

  /** The text up to its first newline. */
  function FirstLine(text: string): string
  {
    if text == "" then "" else text[..LineEnd(text, 0)]
  }

  /** The writer's part: a line that a poll has read as an object is finished with nothing
      but white space.  Any other line may hold anything, torn records included. */
  ghost predicate Enabled<E>(parse: Parser<E>, b: Bridge<E>, a: Action)
  {
    a.Append? ==> forall s: nat :: Watched(parse, b, s) ==> JsonBlank(FirstLine(a.text))
  }

  function Run<E>(parse: Parser<E>, b: Bridge<E>, actions: seq<Action>): Bridge<E>
    decreases |actions|
  {
    if actions == [] then b else Run(parse, Step(parse, b, actions[0]), actions[1..])
  }

  ghost predicate Possible<E>(parse: Parser<E>, b: Bridge<E>, actions: seq<Action>)
    decreases |actions|
  {
    actions == [] || (Enabled(parse, b, actions[0]) && Possible(parse, Step(parse, b, actions[0]), actions[1..]))
  }

  /** The deliveries with immediate repeats dropped. */
  function Dedup<T(==)>(ds: seq<T>): seq<T>
  {
    if |ds| <= 1 then ds
    else if ds[|ds| - 1] == ds[|ds| - 2] then Dedup(ds[..|ds| - 1])
    else Dedup(ds[..|ds| - 1]) + [ds[|ds| - 1]]
  }

  lemma DedupAppend<T>(ds: seq<T>, d: T)
    ensures Dedup(ds + [d]) == if ds != [] && ds[|ds| - 1] == d then Dedup(ds) else Dedup(ds) + [d]
  {
    assert (ds + [d])[..|ds + [d]| - 1] == ds;
  }

  // -- what a cursor step means ------------------------------------------------------------

  /** Reading on from a boundary: nothing left, or one item at a line's start and then
      the reading on from behind it. */
  ghost predicate Unfolds<E>(parse: Parser<E>, log: string, c: nat)
  {
    var items := ItemsFrom(parse, log, c);
    if items == [] then ObjectsFrom(parse, log, c) == []
    else
      var item := items[0];
      && c <= item.start < item.next <= |log| && LineStart(log, item.start) && item.next == LineEnd(log, item.start)
      && item.parsed == Read(parse, log[item.start..item.next]) && items[1..] == ItemsFrom(parse, log, item.next)
      && (item.parsed.Event? ==>
            ObjectsFrom(parse, log, c) == [Located(item.start, item.parsed.event)] + ObjectsFrom(parse, log, item.next))
  }

  lemma {:induction false} UnfoldAtLine<E>(parse: Parser<E>, log: string, c: nat)
    requires c <= |log| && LineStart(log, c)
    ensures Unfolds(parse, log, c)
    decreases |log| - c
  {
    if c < |log| {
      var e := LineEnd(log, c);
      if Read(parse, log[c..e]).NotJson? {
        if e < |log| { UnfoldAtLine(parse, log, e); } else { assert ItemsFrom(parse, log, e) == []; }
      }
    }
  }

  lemma UnfoldAtBoundary<E>(parse: Parser<E>, log: string, c: nat)
    requires Boundary(parse, log, c)
    ensures Unfolds(parse, log, c)
  {
    if LineStart(log, c) {
      UnfoldAtLine(parse, log, c);
    } else if c < |log| {
      var s: nat :| Within(parse, log, s, c);
      var e := LineEnd(log, s);
      WholeLine(parse, log, s, c);
      LineEndInside(log, s, c);
      assert Read(parse, log[c..e]).NotJson?;
      if e < |log| { UnfoldAtLine(parse, log, e); } else { assert ItemsFrom(parse, log, e) == []; }
    }
  }

  /** Behind an event there is a boundary again, and one more object before it. */
  lemma Advance<E>(parse: Parser<E>, log: string, c: nat)
    requires Boundary(parse, log, c)
    requires ItemsFrom(parse, log, c) != [] && ItemsFrom(parse, log, c)[0].parsed.Event?
    ensures var item := ItemsFrom(parse, log, c)[0];
            && c <= item.next <= |log| && Boundary(parse, log, item.next)
            && ItemsFrom(parse, log, c)[1..] == ItemsFrom(parse, log, item.next)
            && ObjectsFrom(parse, log, c) != [] && ObjectsFrom(parse, log, c)[0] == Located(item.start, item.parsed.event)
            && Objects(parse, log[..item.next]) == Objects(parse, log[..c]) + [Located(item.start, item.parsed.event)]
  {
    assert c <= |log|;
    hide Boundary, ObjectsFrom, ItemsFrom, LineStart, LineEnd, Read;
    UnfoldAtBoundary(parse, log, c);
    var item := ItemsFrom(parse, log, c)[0];
    var x := Located(item.start, item.parsed.event);
    NextBoundary(parse, log, item);
    Split(parse, log, c);
    Split(parse, log, item.next);
    Associate(Objects(parse, log[..c]), [x], ObjectsFrom(parse, log, item.next));
    Cancel(Objects(parse, log[..item.next]), Objects(parse, log[..c]) + [x], ObjectsFrom(parse, log, item.next));
  }

  lemma NextBoundary<E>(parse: Parser<E>, log: string, item: Item<E>)
    requires item.start < item.next <= |log| && LineStart(log, item.start) && item.next == LineEnd(log, item.start)
    requires item.parsed == Read(parse, log[item.start..item.next]) && item.parsed.Event?
    ensures Boundary(parse, log, item.next)
  {
    if log[item.next - 1] != '\n' {
      assert Within(parse, log, item.start, item.next);
    }
  }

  lemma Cancel<T>(a: seq<T>, b: seq<T>, c: seq<T>)
    requires a + c == b + c
    ensures a == b
  {
    assert |a| == |b|;
    assert a == (a + c)[..|a|] && b == (b + c)[..|b|];
  }

  /** What is read from a boundary stays first as the log goes on. */
  lemma FirstStays<E>(parse: Parser<E>, log: string, longer: string, c: nat)
    requires GoesOn(parse, log, longer) && Boundary(parse, log, c)
    ensures ObjectsFrom(parse, log, c) <= ObjectsFrom(parse, longer, c)
  {
    Split(parse, log, c);
    GrowFrom(parse, log, longer, 0);
    BoundaryLater(parse, log, longer, c);
    Split(parse, longer, c);
    hide ObjectsFrom, GoesOn, Boundary;
    SuffixGrows(Objects(parse, log[..c]), ObjectsFrom(parse, log, c), ObjectsFrom(parse, longer, c));
  }

  lemma SuffixGrows<T>(a: seq<T>, b: seq<T>, c: seq<T>)
    requires a + b <= a + c
    ensures b <= c
  {
    assert b == (a + b)[|a|..] && c == (a + c)[|a|..];
  }

  lemma {:induction false} GrowFrom<E>(parse: Parser<E>, log: string, longer: string, i: nat)
    requires GoesOn(parse, log, longer) && i <= |log| && LineStart(log, i)
    ensures ObjectsFrom(parse, log, i) <= ObjectsFrom(parse, longer, i)
    decreases |log| - i
  {
    hide Read, LineEnd;
    if i < |log| {
      var e, e' := LineEnd(log, i), LineEnd(longer, i);
      LineEndLater(log, longer, i);
      if log[e - 1] == '\n' {
        assert longer[i..e] == log[i..e];
        GrowFrom(parse, log, longer, e);
      } else {
        assert ObjectsFrom(parse, log, e) == [];
        if Read(parse, log[i..e]).Event? {
          assert Unfinished(log, i) && log[i..] == log[i..e];
          assert longer[i..e'] == log[i..e] + longer[e..e'];
          ReadIsNotBlank(parse, log[i..e]);
          TailIgnored(parse, log[i..e], longer[e..e']);
        }
      }
    }
  }

  /** A first object whose line is finished stays first, whatever is appended. */
  lemma FirstFinished<E>(parse: Parser<E>, log: string, longer: string, c: nat, s: nat)
    requires log <= longer && Unfinished(log, s) && c <= s
    requires ObjectsFrom(parse, log, c) != [] && ObjectsFrom(parse, log, c)[0].start != s
    ensures ObjectsFrom(parse, longer, c) != [] && ObjectsFrom(parse, longer, c)[0] == ObjectsFrom(parse, log, c)[0]
  {
    SplitAtLine(parse, log, s, c);
    SplitAtLine(parse, longer, s, c);
    assert longer[..s] == log[..s];
    assert ObjectsFrom(parse, log, s) == [] || ObjectsFrom(parse, log, s)[0].start == s by {
      assert LineEnd(log, s) == |log| && ObjectsFrom(parse, log, |log|) == [];
    }
    hide ObjectsFrom, Unfinished;
  }

  // -- whole runs ----------------------------------------------------------------------------

  /** The deliveries, repeats dropped, are the objects before the cursor - or one more,
      which was delivered last, when its commit is outstanding. */
  ghost predicate Level<E>(parse: Parser<E>, b: Bridge<E>)
  {
    b.cursor <= |b.log| && Dedup(b.delivered) == Objects(parse, b.log[..b.cursor])
  }

  ghost predicate Ahead<E>(parse: Parser<E>, b: Bridge<E>)
  {
    var left := ObjectsFrom(parse, b.log, b.cursor);
    && left != [] && b.delivered != [] && b.delivered[|b.delivered| - 1] == left[0]
    && Dedup(b.delivered) == Objects(parse, b.log[..b.cursor]) + [left[0]]
  }

  ghost predicate PollOk<E>(parse: Parser<E>, b: Bridge<E>, p: Poll<E>)
  {
    && GoesOn(parse, p.snapshot, b.log) && Boundary(parse, p.snapshot, b.cursor) && p.pending == ItemsFrom(parse, p.snapshot, b.cursor)
    && (Ahead(parse, b) ==> ObjectsFrom(parse, p.snapshot, b.cursor) != [])
    && (p.committing.Some? ==>
          p.pending != [] && p.pending[0].parsed.Event? && p.committing == Some(p.pending[0].next) && Ahead(parse, b))
  }

  ghost predicate Inv<E>(parse: Parser<E>, b: Bridge<E>)
  {
    && Boundary(parse, b.log, b.cursor)
    && (Level(parse, b) || Ahead(parse, b))
    && (b.poll.Some? ==> PollOk(parse, b, b.poll.value))
    && |b.delivered| + (if Ahead(parse, b) && (b.poll.None? || b.poll.value.committing.None?) then 1 else 0)
       <= |Dedup(b.delivered)| + b.interruptions
  }

  lemma AppendKeeps<E>(parse: Parser<E>, b: Bridge<E>, text: string)
    requires Inv(parse, b) && Enabled(parse, b, Append(text))
    ensures Inv(parse, b.(log := b.log + text))
  {
    var b' := b.(log := b.log + text);
    assert b.cursor <= |b.log|;
    if s: nat :| Unfinished(b.log, s) && !Watched(parse, b, s) {
      OnlyOne(b.log, s);
      BoundaryLater(parse, b.log, b'.log, b.cursor);
      if b.poll.Some? { SnapshotUnread(parse, b, text, s); }
      hide Boundary, ObjectsFrom, ItemsFrom, Dedup, GoesOn, LineEnd;
      if Ahead(parse, b) { FirstFinished(parse, b.log, b'.log, b.cursor, s); }
      SameStanding(parse, b, b');
    } else {
      assert forall s: nat | Unfinished(b.log, s) :: JsonBlank(FirstLine(text));
      AppendGoesOn(parse, b.log, text);
      BoundaryLater(parse, b.log, b'.log, b.cursor);
      FirstStays(parse, b.log, b'.log, b.cursor);
      if b.poll.Some? { GoesOnTwice(parse, b.poll.value.snapshot, b.log, b'.log); }
      hide Boundary, ObjectsFrom, ItemsFrom, Dedup, GoesOn, LineEnd;
      SameStanding(parse, b, b');
    }
  }

  lemma OnlyOne(log: string, s: nat)
    requires Unfinished(log, s)
    ensures forall r: nat | Unfinished(log, r) :: r == s
  {
    forall r: nat | Unfinished(log, r) ensures r == s {
      assert (s == 0 || log[s - 1] == '\n') && (r == 0 || log[r - 1] == '\n');
    }
  }

  lemma {:induction false} FirstLineEnd(log: string, text: string, s: nat)
    requires Unfinished(log, s)
    ensures LineEnd(log + text, s) == |log| + |FirstLine(text)|
    decreases |log| - s
  {
    if s + 1 < |log| {
      LineEndSkips(log + text, s, |log| - 1);
    }
    assert LineEnd(log + text, |log| - 1) == if text == "" then |log| else LineEnd(log + text, |log|);
    if text != "" { LineEndShift(log, text, 0); }
  }

  lemma {:induction false} LineEndSkips(log: string, i: nat, j: nat)
    requires i <= j < |log| && forall k | i <= k < j :: log[k] != '\n'
    ensures LineEnd(log, i) == LineEnd(log, j)
    decreases j - i
  {
    if i < j { LineEndSkips(log, i + 1, j); }
  }

  lemma {:induction false} LineEndShift(log: string, text: string, i: nat)
    requires i < |text|
    ensures LineEnd(log + text, |log| + i) == |log| + LineEnd(text, i)
    decreases |text| - i
  {
    assert (log + text)[|log| + i] == text[i];
    if text[i] != '\n' && i + 1 < |text| { LineEndShift(log, text, i + 1); }
  }

  lemma AppendGoesOn<E>(parse: Parser<E>, log: string, text: string)
    requires forall s: nat | Unfinished(log, s) :: JsonBlank(FirstLine(text))
    ensures GoesOn(parse, log, log + text)
  {
    forall s: nat | Unfinished(log, s)
      ensures |log| <= LineEnd(log + text, s) && JsonBlank((log + text)[|log|..LineEnd(log + text, s)])
    {
      FirstLineEnd(log, text, s);
      assert (log + text)[|log|..LineEnd(log + text, s)] == FirstLine(text);
    }
  }

  lemma GoesOnTwice<E>(parse: Parser<E>, a: string, b: string, c: string)
    requires GoesOn(parse, a, b) && GoesOn(parse, b, c)
    ensures GoesOn(parse, a, c)
  {
    hide Read, LineEnd, JsonBlank;
    forall s: nat | Unfinished(a, s) && Read(parse, a[s..]).Event?
      ensures |a| <= LineEnd(c, s) && JsonBlank(c[|a|..LineEnd(c, s)])
    {
      var e := LineEnd(b, s);
      LineEndLater(b, c, s);
      if b[e - 1] == '\n' {
        assert c[|a|..e] == b[|a|..e];
      } else {
        StillUnread(parse, a, b, s);
        assert c[|a|..LineEnd(c, s)] == b[|a|..e] + c[e..LineEnd(c, s)];
        BlankJoin(b[|a|..e], c[e..LineEnd(c, s)]);
      }
    }
  }

  /** A line that goes on with white space, and has no newline yet, reads as it did. */
  lemma StillUnread<E>(parse: Parser<E>, a: string, b: string, s: nat)
    requires GoesOn(parse, a, b) && Unfinished(a, s) && Read(parse, a[s..]).Event? && b[LineEnd(b, s) - 1] != '\n'
    ensures Unfinished(b, s) && Read(parse, b[s..]).Event? && LineEnd(b, s) == |b|
  {
    hide Read, LineEnd, JsonBlank;
    UnfinishedLater(a, b, s);
    var tail := b[|a|..LineEnd(b, s)];
    assert JsonBlank(tail) && tail == b[|a|..];
    hide GoesOn;
    ReadIsNotBlank(parse, a[s..]);
    TailIgnored(parse, a[s..], tail);
    Remainder(a, b, s);
  }

  lemma UnfinishedLater(a: string, b: string, s: nat)
    requires a <= b && Unfinished(a, s) && b[LineEnd(b, s) - 1] != '\n'
    ensures Unfinished(b, s) && LineEnd(b, s) == |b|
  {
    hide LineEnd;
  }

  lemma BlankJoin(s: string, t: string)
    requires JsonBlank(s) && JsonBlank(t)
    ensures JsonBlank(s + t)
  { }

  /** An unfinished line that no poll read as an object is in the snapshot as no object. */
  lemma SnapshotUnread<E>(parse: Parser<E>, b: Bridge<E>, text: string, s: nat)
    requires b.poll.Some? && GoesOn(parse, b.poll.value.snapshot, b.log) && Unfinished(b.log, s) && !Watched(parse, b, s)
    ensures GoesOn(parse, b.poll.value.snapshot, b.log + text)
  {
    hide Read, LineEnd;
    var a, c := b.poll.value.snapshot, b.log + text;
    OnlyOne(b.log, s);
    forall r: nat | Unfinished(a, r) && Read(parse, a[r..]).Event?
      ensures |a| <= LineEnd(c, r) && JsonBlank(c[|a|..LineEnd(c, r)])
    {
      var e := LineEnd(b.log, r);
      assert !Unfinished(b.log, r);
      assert b.log[e - 1] == '\n';
      LineEndLater(b.log, c, r);
      assert c[|a|..e] == b.log[|a|..e];
    }
  }

  lemma SameStanding<E>(parse: Parser<E>, b: Bridge<E>, b': Bridge<E>)
    requires b' == b.(log := b'.log) && b.cursor <= |b.log| && b.log <= b'.log && (Level(parse, b) || Ahead(parse, b))
    requires Ahead(parse, b) ==> ObjectsFrom(parse, b'.log, b.cursor) != []
                                 && ObjectsFrom(parse, b'.log, b.cursor)[0] == ObjectsFrom(parse, b.log, b.cursor)[0]
    ensures (Level(parse, b') <==> Level(parse, b)) && (Ahead(parse, b') <==> Ahead(parse, b))
  {
    hide ObjectsFrom, Dedup;
    assert b'.log[..b.cursor] == b.log[..b.cursor];
    NotBoth(parse, b);
    NotBoth(parse, b');
  }

  lemma NotBoth<E>(parse: Parser<E>, b: Bridge<E>)
    ensures !(Level(parse, b) && Ahead(parse, b))
  {
    hide ObjectsFrom, Dedup;
  }

  lemma StartKeeps<E>(parse: Parser<E>, b: Bridge<E>)
    requires Inv(parse, b) && b.poll.None?
    ensures Inv(parse, Step(parse, b, StartPoll))
  {
    hide Boundary, ObjectsFrom, ItemsFrom, Dedup;
  }

  lemma InterruptKeeps<E>(parse: Parser<E>, b: Bridge<E>)
    requires Inv(parse, b)
    ensures Inv(parse, Interrupted(b))
  {
    hide Boundary, ObjectsFrom, ItemsFrom, Dedup;
  }

  /** The next event to deliver is the next one of the log. */
  lemma NextIsNext<E>(parse: Parser<E>, b: Bridge<E>)
    requires Inv(parse, b) && b.poll.Some? && b.poll.value.pending != [] && b.poll.value.pending[0].parsed.Event?
    ensures var item := b.poll.value.pending[0];
            var x := Located(item.start, item.parsed.event);
            && ObjectsFrom(parse, b.log, b.cursor) != [] && ObjectsFrom(parse, b.log, b.cursor)[0] == x
            && ObjectsFrom(parse, b.poll.value.snapshot, b.cursor) != []
            && b.cursor <= item.next <= |b.poll.value.snapshot| && Boundary(parse, b.poll.value.snapshot, item.next)
            && b.poll.value.pending[1..] == ItemsFrom(parse, b.poll.value.snapshot, item.next)
            && Objects(parse, b.log[..item.next]) == Objects(parse, b.log[..b.cursor]) + [x]
  {
    var snapshot := b.poll.value.snapshot;
    assert Boundary(parse, snapshot, b.cursor);
    Advance(parse, snapshot, b.cursor);
    FirstStays(parse, snapshot, b.log, b.cursor);
    hide Boundary, ObjectsFrom, ItemsFrom, Dedup;
    var item := b.poll.value.pending[0];
    assert b.log[..item.next] == snapshot[..item.next] && b.log[..b.cursor] == snapshot[..b.cursor];
  }

  lemma DeliverKeeps<E>(parse: Parser<E>, b: Bridge<E>)
    requires Inv(parse, b)
    ensures Inv(parse, Step(parse, b, Deliver))
  {
    if b.poll.Some? && b.poll.value.committing.None? && b.poll.value.pending != [] {
      if b.poll.value.pending[0].parsed.Event? {
        EventDelivered(parse, b);
        hide Inv;
      } else {
        InterruptKeeps(parse, b);
        hide Inv;
      }
    } else {
      hide Inv;
    }
  }

  lemma EventDelivered<E>(parse: Parser<E>, b: Bridge<E>)
    requires Inv(parse, b) && b.poll.Some? && b.poll.value.committing.None?
    requires b.poll.value.pending != [] && b.poll.value.pending[0].parsed.Event?
    ensures Inv(parse, Step(parse, b, Deliver))
  {
    hide Ahead, Level, Boundary, ObjectsFrom, ItemsFrom, Dedup;
    NextIsNext(parse, b);
    DeliveredNext(parse, b);
  }

  /** Delivering the next event puts the deliveries ahead of the cursor; if they already
      were, it repeats the last one. */
  lemma DeliveredNext<E>(parse: Parser<E>, b: Bridge<E>)
    requires Inv(parse, b) && b.poll.Some? && b.poll.value.committing.None?
    requires b.poll.value.pending != [] && b.poll.value.pending[0].parsed.Event?
    ensures var b' := Step(parse, b, Deliver);
            && Ahead(parse, b')
            && |Dedup(b'.delivered)| == |Dedup(b.delivered)| + if Ahead(parse, b) then 0 else 1
  {
    hide Boundary, ObjectsFrom, ItemsFrom, Dedup, PollOk;
    var item := b.poll.value.pending[0];
    NextIsNext(parse, b);
    DedupAppend(b.delivered, Located(item.start, item.parsed.event));
    if Level(parse, b) { LevelOrNext(parse, b); }
    NotBoth(parse, b);
  }

  lemma {:induction false} DeduplicatedLast<T>(ds: seq<T>)
    ensures ds != [] ==> Dedup(ds) != [] && Dedup(ds)[|Dedup(ds)| - 1] == ds[|ds| - 1]
  {
    if |ds| > 1 { DeduplicatedLast(ds[..|ds| - 1]); }
  }

  /** When the deliveries are level with the cursor, the next object is not the last delivery. */
  lemma LevelOrNext<E>(parse: Parser<E>, b: Bridge<E>)
    requires Boundary(parse, b.log, b.cursor) && Level(parse, b)
    requires ObjectsFrom(parse, b.log, b.cursor) != []
    ensures b.delivered != [] ==> b.delivered[|b.delivered| - 1] != ObjectsFrom(parse, b.log, b.cursor)[0]
  {
    DeduplicatedLast(b.delivered);
    if b.delivered != [] {
      var before := Objects(parse, b.log[..b.cursor]);
      ObjectsBefore(parse, b.log[..b.cursor], 0, |before| - 1);
      ObjectsBefore(parse, b.log, b.cursor, 0);
    }
  }

  lemma {:induction false} ObjectsBefore<E>(parse: Parser<E>, log: string, i: nat, k: nat)
    requires k < |ObjectsFrom(parse, log, i)|
    ensures i <= ObjectsFrom(parse, log, i)[k].start < |log|
    decreases |log| - i
  {
    var e := LineEnd(log, i);
    if Read(parse, log[i..e]).Event? {
      if k > 0 { ObjectsBefore(parse, log, e, k - 1); }
    } else {
      ObjectsBefore(parse, log, e, k);
    }
  }

  lemma CommitKeeps<E>(parse: Parser<E>, b: Bridge<E>)
    requires Inv(parse, b)
    ensures Inv(parse, Step(parse, b, Commit))
  {
    if b.poll.Some? && b.poll.value.committing.Some? {
      NextIsNext(parse, b);
      var b' := Step(parse, b, Commit);
      BoundaryLater(parse, b.poll.value.snapshot, b.log, b'.cursor);
      assert b'.log[..b'.cursor] == b.log[..b.poll.value.pending[0].next];
      hide Boundary, ObjectsFrom, ItemsFrom, Dedup;
      assert Level(parse, b');
      assert !Ahead(parse, b');
    } else {
      hide Inv;
    }
  }

  lemma StepKeeps<E>(parse: Parser<E>, b: Bridge<E>, a: Action)
    requires Inv(parse, b) && Enabled(parse, b, a)
    ensures Inv(parse, Step(parse, b, a))
  {
    match a
    case Append(text) => AppendKeeps(parse, b, text);
    case StartPoll => if b.poll.None? { StartKeeps(parse, b); }
    case Deliver => DeliverKeeps(parse, b);
    case Commit => CommitKeeps(parse, b);
    case Interrupt => InterruptKeeps(parse, b);
    case Finish => hide Boundary, ObjectsFrom, ItemsFrom, Dedup;
  }

  lemma {:induction false} RunKeeps<E>(parse: Parser<E>, b: Bridge<E>, actions: seq<Action>)
    requires Inv(parse, b) && Possible(parse, b, actions)
    ensures Inv(parse, Run(parse, b, actions))
    decreases |actions|
  {
    hide Inv, Step, Enabled;
    if actions != [] {
      StepKeeps(parse, b, actions[0]);
      RunKeeps(parse, Step(parse, b, actions[0]), actions[1..]);
    }
  }

  function Opened<E>(log: string): Bridge<E> { Bridge(log, 0, [], None, 0) }

  /** Across any run of appends, polls and interruptions: the deliveries with repeats
      dropped are, in order, the first object events of the log, and every interruption
      costs at most one repeat. */
  lemma DeliveredInOrder<E>(parse: Parser<E>, log: string, actions: seq<Action>)
    requires Possible(parse, Opened(log), actions)
    ensures var b := Run(parse, Opened(log), actions);
            && Dedup(b.delivered) <= Objects(parse, b.log)
            && |b.delivered| <= |Dedup(b.delivered)| + b.interruptions
  {
    OpenedInv(parse, log);
    RunKeeps(parse, Opened(log), actions);
    var b := Run(parse, Opened(log), actions);
    hide Run, Possible, Dedup, Boundary, ObjectsFrom, ItemsFrom, PollOk;
    InOrder(parse, b);
  }

  lemma OpenedInv<E>(parse: Parser<E>, log: string)
    ensures Inv(parse, Opened(log))
  {
    assert log[..0] == "";
  }

  /** A poll that comes to its end uninterrupted has delivered every object event of the
      snapshot it read, those read as part of an unfinished line included. */
  lemma FinishedPollDelivered<E>(parse: Parser<E>, log: string, actions: seq<Action>)
    requires Possible(parse, Opened(log), actions)
    ensures var b := Run(parse, Opened(log), actions);
            b.poll.Some? && b.poll.value.pending == [] ==>
              Dedup(b.delivered) == Objects(parse, b.poll.value.snapshot)
  {
    OpenedInv(parse, log);
    RunKeeps(parse, Opened(log), actions);
    var b := Run(parse, Opened(log), actions);
    hide Run, Possible;
    if b.poll.Some? && b.poll.value.pending == [] { EndOfPoll(parse, b); }
  }

  lemma EndOfPoll<E>(parse: Parser<E>, b: Bridge<E>)
    requires Inv(parse, b) && b.poll.Some? && b.poll.value.pending == []
    ensures Dedup(b.delivered) == Objects(parse, b.poll.value.snapshot)
  {
    var snapshot := b.poll.value.snapshot;
    UnfoldAtBoundary(parse, snapshot, b.cursor);
    Split(parse, snapshot, b.cursor);
    assert snapshot[..b.cursor] == b.log[..b.cursor];
    hide Dedup, Boundary, ObjectsFrom, ItemsFrom;
  }

  // -- what the writer's part is for -----------------------------------------------------------

  /** As in JSON: an object followed by anything but white space is no object any more. */
  ghost predicate OneValue<E>(parse: Parser<E>)
  {
    forall line, tail | Read(parse, line).Event? && !JsonBlank(tail) :: !Read(parse, line + tail).Event?
  }

  /** The writer's part is exactly what the order needs: once the last line of the log has
      been delivered before it was finished, the deliveries stay the first objects of the log
      if and only if that line is finished with nothing but white space. */
  lemma OrderKeptExactly<E>(parse: Parser<E>, log: string, actions: seq<Action>, text: string)
    requires OneValue(parse) && Possible(parse, Opened(log), actions)
    requires var b := Run(parse, Opened(log), actions);
             b.delivered != [] && Unfinished(b.log, b.delivered[|b.delivered| - 1].start)
    ensures var b := Run(parse, Opened(log), actions);
            Dedup(b.delivered) <= Objects(parse, b.log + text) <==> JsonBlank(FirstLine(text))
  {
    OpenedInv(parse, log);
    RunKeeps(parse, Opened(log), actions);
    var b := Run(parse, Opened(log), actions);
    var s := b.delivered[|b.delivered| - 1].start;
    hide Run, Possible, Inv, OneValue;
    if JsonBlank(FirstLine(text)) {
      AppendKeeps(parse, b, text);
      InOrder(parse, b.(log := b.log + text));
    } else {
      InOrder(parse, b);
      DeliveredLast(parse, b);
      TornLine(parse, b.log, text, s);
      hide Dedup, ObjectsFrom;
      if Dedup(b.delivered) <= Objects(parse, b.log + text) {
        LastIsAmong(Dedup(b.delivered), Objects(parse, b.log + text));
        assert false;
      }
    }
  }

  lemma LastIsAmong<T>(few: seq<T>, all: seq<T>)
    requires few != [] && few <= all
    ensures exists k :: 0 <= k < |all| && all[k] == few[|few| - 1]
  {
    assert all[|few| - 1] == few[|few| - 1];
  }

  lemma InOrder<E>(parse: Parser<E>, b: Bridge<E>)
    requires Inv(parse, b)
    ensures Dedup(b.delivered) <= Objects(parse, b.log)
  {
    assert b.cursor <= |b.log|;
    hide Dedup, Boundary, ObjectsFrom, ItemsFrom, PollOk;
    Split(parse, b.log, b.cursor);
    if Ahead(parse, b) {
      var left := ObjectsFrom(parse, b.log, b.cursor);
      assert left == [left[0]] + left[1..];
      Associate(Objects(parse, b.log[..b.cursor]), [left[0]], left[1..]);
    }
  }

  /** A delivered line that is unfinished is still read as an object. */
  lemma DeliveredLast<E>(parse: Parser<E>, b: Bridge<E>)
    requires b.delivered != [] && Unfinished(b.log, b.delivered[|b.delivered| - 1].start)
    requires Dedup(b.delivered) <= Objects(parse, b.log)
    ensures var d := Dedup(b.delivered); d != [] && d[|d| - 1] == b.delivered[|b.delivered| - 1]
    ensures Read(parse, b.log[b.delivered[|b.delivered| - 1].start..]).Event?
  {
    DeduplicatedLast(b.delivered);
    hide Dedup, ObjectsFrom, Read, Unfinished;
    var s, k := b.delivered[|b.delivered| - 1].start, |Dedup(b.delivered)| - 1;
    assert Objects(parse, b.log)[k] == Dedup(b.delivered)[k];
    assert s < |b.log| && LineStart(b.log, s) by { LastLine(parse, b.log, s); }
    SplitAtLine(parse, b.log, s, 0);
    LastLine(parse, b.log, s);
    var before := Objects(parse, b.log[..s]);
    if k < |before| {
      ObjectsBefore(parse, b.log[..s], 0, k);
      assert false;
    }
  }

  lemma LastLine<E>(parse: Parser<E>, log: string, s: nat)
    requires Unfinished(log, s)
    ensures s < |log| && LineStart(log, s)
    ensures ObjectsFrom(parse, log, s)
            == if Read(parse, log[s..]).Event? then [Located(s, Read(parse, log[s..]).event)] else []
  {
    hide Read;
    assert LineEnd(log, s) == |log| && log[s..|log|] == log[s..];
    assert ObjectsFrom(parse, log, |log|) == [];
  }

  /** A line torn after it was read as an object is no object of the log. */
  lemma TornLine<E>(parse: Parser<E>, log: string, text: string, s: nat)
    requires OneValue(parse) && Unfinished(log, s) && Read(parse, log[s..]).Event? && !JsonBlank(FirstLine(text))
    ensures forall k | 0 <= k < |Objects(parse, log + text)| :: Objects(parse, log + text)[k].start != s
  {
    var longer := log + text;
    var e := LineEnd(longer, s);
    FirstLineEnd(log, text, s);
    assert longer[s..e] == log[s..] + FirstLine(text);
    assert LineStart(longer, s) && !Read(parse, longer[s..e]).Event?;
    SplitAtLine(parse, longer, s, 0);
    assert ObjectsFrom(parse, longer, s) == ObjectsFrom(parse, longer, e);
    var before, behind := Objects(parse, longer[..s]), ObjectsFrom(parse, longer, e);
    hide OneValue, Read, LineEnd, FirstLine;
    forall k | 0 <= k < |Objects(parse, longer)| ensures Objects(parse, longer)[k].start != s {
      if k < |before| { ObjectsBefore(parse, longer[..s], 0, k); } else { ObjectsBefore(parse, longer, e, k - |before|); }
    }
  }

  function Braces(line: string): Parsed<int> { if line == "{}" then Event(0) else NotJson }

  lemma BracesRead()
    ensures LineEnd("{}", 0) == 2 && Read(Braces, "{}") == Event(0)
    ensures LineEnd("{}{}\n", 0) == 5 && Read(Braces, "{}{}\n") == NotJson
    ensures JsonBlank(FirstLine("{}\n")) == false && Unfinished("{}", 0)
  {
    assert LineEnd("{}", 1) == 2;
    assert !Space("{}"[0]) && !Space("{}{}\n"[0]);
    assert "{}{}\n"[..4] == "{}{}" && WithoutTail("{}{}") == "{}{}";
    assert LineEnd("{}{}\n", 4) == 5 && LineEnd("{}{}\n", 2) == LineEnd("{}{}\n", 3) == 5;
    assert "{}" != "{}{}" by { assert |"{}"| != |"{}{}"|; }
    assert !JsonSpace(FirstLine("{}\n")[0]);
  }

  /** Without it the order is lost: an object read before its line was finished, and then
      torn by another record in the same line, is delivered and is no event of the log. */
  lemma TornAfterReading()
    ensures var b := Step(Braces, Step(Braces, Opened("{}"), StartPoll), Deliver);
            var torn := Step(Braces, b, Append("{}\n"));
            && !Enabled(Braces, b, Append("{}\n"))
            && torn.delivered == [Located(0, 0)] && Objects(Braces, torn.log) == []
            && !(Dedup(torn.delivered) <= Objects(Braces, torn.log))
  {
    BracesRead();
    assert "{}"[0..2] == "{}" && "{}{}\n"[0..5] == "{}{}\n" && "{}" + "{}\n" == "{}{}\n";
    assert ItemsFrom(Braces, "{}", 2) == [];
    assert ItemsFrom(Braces, "{}", 0) == [Item(0, 2, Event(0))];
    assert ObjectsFrom(Braces, "{}{}\n", 5) == [];
    hide Read, LineEnd, JsonBlank, FirstLine, Unfinished;
    var b := Step(Braces, Step(Braces, Opened("{}"), StartPoll), Deliver);
    assert b.delivered == [Located(0, 0)];
    assert Watched(Braces, b, 0);
  }
}
