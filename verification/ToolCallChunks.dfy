/** Reassembly of streamed tool-call fragments (adapters/langchain_adapter.py). */
module ToolCallChunks {
  import opened Wrappers
  import opened Seqs
  import Decimal

  datatype Args = NoArgs | TextArgs(text: string) | MapArgs(entries: map<string, string>)

  /** A fragment; an absent, empty or ill-typed name or id is the empty string. */
  datatype Chunk = Chunk(index: Option<int>, id: string, name: string, args: Args)

  datatype Key = ByIndex(index: int) | ById(id: string) | ByPosition(position: nat)

  datatype Partial = Partial(name: string, id: string, text: string, entries: map<string, string>, sawArgs: bool)

  datatype Call = Call(name: string, id: string, args: map<string, string>)

  /** Parses argument text as a JSON object; JSON itself is a parameter of the model. */
  type Parser = string -> Option<map<string, string>>

  const NOTHING := Partial("", "", "", map[], false)

  function KeyOf(chunk: Chunk, position: nat): Key {
    if chunk.index.Some? then ByIndex(chunk.index.value)
    else if chunk.id != "" then ById(chunk.id)
    else ByPosition(position)
  }

  function Absorb(p: Partial, c: Chunk): Partial {
    Partial(
      if c.name != "" then c.name else p.name,
      if c.id != "" then c.id else p.id,
      if c.args.TextArgs? then p.text + c.args.text else p.text,
      if c.args.MapArgs? then p.entries + c.args.entries else p.entries,
      p.sawArgs || !c.args.NoArgs?)
  }

  type Keyed = (Key, Chunk)

  function KeyedKey(k: Keyed): Option<Key> {
    Some(k.0)
  }

  function WithKeys(chunks: seq<Chunk>): seq<Keyed> {
    seq(|chunks|, i requires 0 <= i < |chunks| => (KeyOf(chunks[i], i), chunks[i]))
  }

  function AbsorbAll(own: seq<Keyed>): Partial {
    if |own| == 0 then NOTHING else Absorb(AbsorbAll(own[..|own| - 1]), own[|own| - 1].1)
  }

  /** All that the fragments of one call add up to. */
  function StateOf(keyed: seq<Keyed>, k: Key): Partial {
    AbsorbAll(WithKey(KeyedKey, keyed, k))
  }

  lemma StateSnoc(keyed: seq<Keyed>, x: Keyed, k: Key)
    ensures StateOf(keyed + [x], k) == if x.0 == k then Absorb(StateOf(keyed, k), x.1) else StateOf(keyed, k)
  {
    WithKeySnoc(KeyedKey, keyed, x, k);
    var own := WithKey(KeyedKey, keyed, k);
    assert (own + [x])[..|own|] == own;
    assert own + [] == own;
  }

  function ParseArgs(parse: Parser, p: Partial): map<string, string> {
    if p.text != "" && parse(p.text).Some? then parse(p.text).value else p.entries
  }

  predicate Usable(p: Partial) {
    p.name != "" && p.sawArgs
  }

  /** The call a finished fragment makes, as the `position`-th of the answer. */
  function Finish(parse: Parser, p: Partial, position: nat): Call {
    Call(p.name, if p.id != "" then p.id else p.name + "_" + Decimal.Print(position), ParseArgs(parse, p))
  }

  function FinishAll(parse: Parser, order: seq<Key>, state: Key -> Partial): seq<Call> {
    if |order| == 0 then []
    else
      var front, p := FinishAll(parse, order[..|order| - 1], state), state(order[|order| - 1]);
      if Usable(p) then front + [Finish(parse, p, |front|)] else front
  }

  /** Calls in order of first appearance, each made from its own fragments alone. */
  function Reassembled(parse: Parser, keyed: seq<Keyed>): seq<Call> {
    FinishAll(parse, FirstKeys(KeyedKey, keyed), k => StateOf(keyed, k))
  }

  ghost predicate Holds(states: map<Key, Partial>, keyed: seq<Keyed>) {
    && states.Keys == Keys(KeyedKey, keyed)
    && forall k | k in states :: states[k] == StateOf(keyed, k)
  }

  lemma HoldsSnoc(states: map<Key, Partial>, keyed: seq<Keyed>, x: Keyed)
    requires Holds(states, keyed)
    ensures Holds(states[x.0 := Absorb(if x.0 in states then states[x.0] else NOTHING, x.1)], keyed + [x])
  {
    KeysSnoc(KeyedKey, keyed, x);
    forall k ensures StateOf(keyed + [x], k) == if x.0 == k then Absorb(StateOf(keyed, k), x.1) else StateOf(keyed, k) {
      StateSnoc(keyed, x, k);
    }
    if x.0 !in states {
      forall y | y in keyed ensures KeyedKey(y) != Some(x.0) {
        var i :| 0 <= i < |keyed| && keyed[i] == y;
        assert KeyedKey(keyed[i]).value in Keys(KeyedKey, keyed);
      }
      WithKeyNone(KeyedKey, keyed, x.0);
    }
  }

  lemma FirstKeysSnoc(a: seq<Keyed>, x: Keyed)
    ensures FirstKeys(KeyedKey, a + [x]) == FirstKeys(KeyedKey, a) + (if x.0 in FirstKeys(KeyedKey, a) then []
                                                                      else [x.0])
  {
    assert (a + [x])[..|a|] == a;
  }

  lemma KnownKeys(states: map<Key, Partial>, keyed: seq<Keyed>)
    requires Holds(states, keyed)
    ensures forall k :: k in states <==> k in FirstKeys(KeyedKey, keyed)
  {
    FirstKeysMeaning(KeyedKey, keyed);
  }

  method ToolCallsFromChunks(parse: Parser, chunks: seq<Chunk>) returns (calls: seq<Call>)
    ensures calls == Reassembled(parse, WithKeys(chunks))
  {
    var states: map<Key, Partial> := map[];
    var order: seq<Key> := [];
    ghost var keyed := WithKeys(chunks);
    for i := 0 to |chunks|
      invariant order == FirstKeys(KeyedKey, keyed[..i])
      invariant Holds(states, keyed[..i])
    {
      var key := KeyOf(chunks[i], i);
      ghost var seen := keyed[..i];
      assert keyed[..i + 1] == seen + [(key, chunks[i])];
      FirstKeysSnoc(seen, (key, chunks[i]));
      KnownKeys(states, seen);
      HoldsSnoc(states, seen, (key, chunks[i]));
      if key !in states {
        order := order + [key];
      }
      states := states[key := Absorb(if key in states then states[key] else NOTHING, chunks[i])];
    }
    assert keyed[..|chunks|] == keyed;
    KnownKeys(states, keyed);
    calls := FinishStates(parse, order, states, k => StateOf(keyed, k));
  }

  method FinishStates(parse: Parser, order: seq<Key>, states: map<Key, Partial>, ghost state: Key -> Partial)
      returns (calls: seq<Call>)
    requires forall k | k in order :: k in states && states[k] == state(k)
    ensures calls == FinishAll(parse, order, state)
  {
    calls := [];
    for i := 0 to |order|
      invariant calls == FinishAll(parse, order[..i], state)
    {
      assert order[..i + 1][..i] == order[..i];
      assert order[i] in order;
      var p := states[order[i]];
      if Usable(p) {
        calls := calls + [Finish(parse, p, |calls|)];
      }
    }
    assert order[..|order|] == order;
  }

  // ---------------------------------------------------------------- what the answer depends on

  lemma {:induction false} FinishSame(parse: Parser, order: seq<Key>, a: Key -> Partial, b: Key -> Partial)
    requires forall k | k in order :: a(k) == b(k)
    ensures FinishAll(parse, order, a) == FinishAll(parse, order, b)
  {
    if |order| > 0 {
      FinishSame(parse, order[..|order| - 1], a, b);
      assert order[|order| - 1] in order;
    }
  }

  /** Every fragment carries an index or an id, so that its key does not depend on where it stands. */
  ghost predicate SelfKeyed(chunks: seq<Chunk>) {
    forall i | 0 <= i < |chunks| :: chunks[i].index.Some? || chunks[i].id != ""
  }

  ghost predicate SameFragments(a: seq<Keyed>, b: seq<Keyed>) {
    && FirstKeys(KeyedKey, a) == FirstKeys(KeyedKey, b)
    && forall k :: StateOf(a, k) == StateOf(b, k)
  }

  lemma SameAnswer(parse: Parser, a: seq<Keyed>, b: seq<Keyed>)
    requires SameFragments(a, b)
    ensures Reassembled(parse, a) == Reassembled(parse, b)
  {
    FinishSame(parse, FirstKeys(KeyedKey, a), k => StateOf(a, k), k => StateOf(b, k));
  }

  lemma WithKeysConcat(a: seq<Chunk>, b: seq<Chunk>)
    requires SelfKeyed(b)
    ensures WithKeys(a + b) == WithKeys(a) + WithKeys(b)
  {
  }

  lemma {:induction false} FirstKeysAppend(a: seq<Keyed>, b: seq<Keyed>, more: seq<Keyed>)
    requires FirstKeys(KeyedKey, a) == FirstKeys(KeyedKey, b)
    ensures FirstKeys(KeyedKey, a + more) == FirstKeys(KeyedKey, b + more)
  {
    if |more| == 0 {
      assert a + more == a && b + more == b;
    } else {
      var front := more[..|more| - 1];
      FirstKeysAppend(a, b, front);
      assert (a + more)[..|a + more| - 1] == a + front && (b + more)[..|b + more| - 1] == b + front;
    }
  }

  lemma {:induction false} AbsorbAppend(a: seq<Keyed>, b: seq<Keyed>, more: seq<Keyed>)
    requires AbsorbAll(a) == AbsorbAll(b)
    ensures AbsorbAll(a + more) == AbsorbAll(b + more)
  {
    if |more| == 0 {
      assert a + more == a && b + more == b;
    } else {
      var front := more[..|more| - 1];
      AbsorbAppend(a, b, front);
      assert (a + more)[..|a + more| - 1] == a + front && (b + more)[..|b + more| - 1] == b + front;
    }
  }

  /** Fragments that follow equal beginnings keep them equal. */
  lemma SameThenMore(a: seq<Keyed>, b: seq<Keyed>, more: seq<Keyed>)
    requires SameFragments(a, b)
    ensures SameFragments(a + more, b + more)
  {
    FirstKeysAppend(a, b, more);
    forall k ensures StateOf(a + more, k) == StateOf(b + more, k) {
      assert StateOf(a, k) == StateOf(b, k);
      WithKeyConcat(KeyedKey, a, more, k);
      WithKeyConcat(KeyedKey, b, more, k);
      AbsorbAppend(WithKey(KeyedKey, a, k), WithKey(KeyedKey, b, k), WithKey(KeyedKey, more, k));
    }
  }

  /** The answer depends only on the order in which calls first appear and on each call's own fragments. */
  lemma InterleavingIrrelevant(parse: Parser, a: seq<Chunk>, b: seq<Chunk>)
    requires FirstKeys(KeyedKey, WithKeys(a)) == FirstKeys(KeyedKey, WithKeys(b))
    requires forall k :: WithKey(KeyedKey, WithKeys(a), k) == WithKey(KeyedKey, WithKeys(b), k)
    ensures Reassembled(parse, WithKeys(a)) == Reassembled(parse, WithKeys(b))
  {
    forall k ensures StateOf(WithKeys(a), k) == StateOf(WithKeys(b), k) {
      assert WithKey(KeyedKey, WithKeys(a), k) == WithKey(KeyedKey, WithKeys(b), k);
    }
    SameAnswer(parse, WithKeys(a), WithKeys(b));
  }

  lemma WithKeysAround(before: seq<Chunk>, middle: seq<Chunk>, after: seq<Chunk>)
    requires SelfKeyed(middle) && SelfKeyed(after)
    ensures WithKeys(before + middle + after) == WithKeys(before) + WithKeys(middle) + WithKeys(after)
  {
    WithKeysConcat(before, middle);
    WithKeysConcat(before + middle, after);
  }

  /**
   * Two neighbouring fragments of different calls may arrive in either order: unless both are the first of their call,
   * the same calls come out in the same order.
   */
  lemma SwapNeighbours(parse: Parser, before: seq<Chunk>, x: Chunk, y: Chunk, after: seq<Chunk>)
    requires SelfKeyed([x, y]) && SelfKeyed(after) && KeyOf(x, 0) != KeyOf(y, 0)
    requires KeyOf(x, 0) in FirstKeys(KeyedKey, WithKeys(before))
             || KeyOf(y, 0) in FirstKeys(KeyedKey, WithKeys(before))
    ensures Reassembled(parse, WithKeys(before + [x, y] + after))
            == Reassembled(parse, WithKeys(before + [y, x] + after))
  {
    var kx, ky := (KeyOf(x, 0), x), (KeyOf(y, 0), y);
    var start, rest := WithKeys(before), WithKeys(after);
    assert [x, y][0] == x && [x, y][1] == y;
    assert SelfKeyed([y, x]);
    WithKeysAround(before, [x, y], after);
    WithKeysAround(before, [y, x], after);
    assert WithKeys([x, y]) == [kx, ky] && WithKeys([y, x]) == [ky, kx];
    SwapKeyed(start, kx, ky);
    SameThenMore(start + [kx, ky], start + [ky, kx], rest);
    SameAnswer(parse, start + [kx, ky] + rest, start + [ky, kx] + rest);
  }

  lemma FirstKeysTwo(a: seq<Keyed>, x: Keyed, y: Keyed)
    requires x.0 != y.0
    ensures FirstKeys(KeyedKey, a + [x, y])
            == FirstKeys(KeyedKey, a) + (if x.0 in FirstKeys(KeyedKey, a) then [] else [x.0])
               + (if y.0 in FirstKeys(KeyedKey, a) then [] else [y.0])
  {
    FirstKeysSnoc(a, x);
    FirstKeysSnoc(a + [x], y);
    assert a + [x, y] == a + [x] + [y];
  }

  lemma StateTwo(a: seq<Keyed>, x: Keyed, y: Keyed, k: Key)
    ensures StateOf(a + [x, y], k)
            == var p := if x.0 == k then Absorb(StateOf(a, k), x.1) else StateOf(a, k);
               if y.0 == k then Absorb(p, y.1) else p
  {
    StateSnoc(a, x, k);
    StateSnoc(a + [x], y, k);
    assert a + [x, y] == a + [x] + [y];
  }

  lemma SwapKeyed(start: seq<Keyed>, x: Keyed, y: Keyed)
    requires x.0 != y.0 && (x.0 in FirstKeys(KeyedKey, start) || y.0 in FirstKeys(KeyedKey, start))
    ensures SameFragments(start + [x, y], start + [y, x])
  {
    FirstKeysTwo(start, x, y);
    FirstKeysTwo(start, y, x);
    forall k ensures StateOf(start + [x, y], k) == StateOf(start + [y, x], k) {
      StateTwo(start, x, y, k);
      StateTwo(start, y, x, k);
    }
  }

  /**
   * A text fragment of a call may arrive in two pieces, whatever comes before and after: the second piece needs only
   * the same key.
   */
  lemma SplitFragment(parse: Parser, before: seq<Chunk>, c: Chunk, left: string, right: string, tail: Chunk,
                      after: seq<Chunk>)
    requires SelfKeyed([c]) && SelfKeyed(after) && c.args == TextArgs(left + right)
    requires tail.args == TextArgs(right) && tail.name == "" && (tail.id == "" || tail.id == c.id)
             && KeyOf(tail, 0) == KeyOf(c, 0)
    ensures Reassembled(parse, WithKeys(before + [c] + after))
            == Reassembled(parse, WithKeys(before + [c.(args := TextArgs(left)), tail] + after))
  {
    var head, k := c.(args := TextArgs(left)), KeyOf(c, 0);
    var start, rest := WithKeys(before), WithKeys(after);
    assert [c][0] == c;
    assert SelfKeyed([head, tail]);
    WithKeysAround(before, [c], after);
    WithKeysAround(before, [head, tail], after);
    assert WithKeys([c]) == [(k, c)] && WithKeys([head, tail]) == [(k, head), (k, tail)];
    forall p ensures Absorb(p, c) == Absorb(Absorb(p, head), tail) {
      assert p.text + (left + right) == p.text + left + right;
    }
    SplitKeyed(start, k, c, head, tail);
    SameThenMore(start + [(k, c)], start + [(k, head), (k, tail)], rest);
    SameAnswer(parse, start + [(k, c)] + rest, start + [(k, head), (k, tail)] + rest);
  }

  lemma SplitKeyed(start: seq<Keyed>, k: Key, whole: Chunk, head: Chunk, tail: Chunk)
    requires forall p :: Absorb(p, whole) == Absorb(Absorb(p, head), tail)
    ensures SameFragments(start + [(k, whole)], start + [(k, head), (k, tail)])
  {
    FirstKeysSnoc(start, (k, whole));
    FirstKeysSnoc(start, (k, head));
    FirstKeysSnoc(start + [(k, head)], (k, tail));
    assert start + [(k, head), (k, tail)] == start + [(k, head)] + [(k, tail)];
    forall j ensures StateOf(start + [(k, whole)], j) == StateOf(start + [(k, head), (k, tail)], j) {
      StateSnoc(start, (k, whole), j);
      StateTwo(start, (k, head), (k, tail), j);
    }
  }
}
