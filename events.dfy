/**
 * The event log the grammar writes: open a node, close it, consume a token,
 * report an error. Nesting and token accounting are measured here.
 */
module Events {
  import opened Syntax

  datatype Message = Expected(kind: Kind) | Text(text: string)

  datatype Event =
    | Start(kind: Kind)                 // open a node; Tombstone while its kind is unknown
    | Finish                            // close the most recently opened node
    | Token(kind: Kind, rawTokens: nat) // consume `rawTokens` raw tokens as one token of `kind`
    | ErrorMsg(msg: Message)            // an error at the current position

  /**
   * How an event changes the nesting depth. A placeholder whose kind is still
   * `Tombstone` opens nothing yet: an abandoned marker stays in the log as
   * such a placeholder, which the tree builder skips.
   */
  function Delta(e: Event): int {
    match e
    case Start(k) => if k == Tombstone then 0 else 1
    case Finish => -1
    case _ => 0
  }

  function TokensOf(e: Event): nat {
    if e.Token? then e.rawTokens else 0
  }

  /** Nodes opened minus nodes closed in `s`. */
  function Depth(s: seq<Event>): int {
    if s == [] then 0 else Depth(s[..|s| - 1]) + Delta(s[|s| - 1])
  }

  /** Raw tokens consumed by the token events of `s`. */
  function Consumed(s: seq<Event>): nat {
    if s == [] then 0 else Consumed(s[..|s| - 1]) + TokensOf(s[|s| - 1])
  }

  /** The lowest depth any prefix of `s` reaches; the empty prefix counts, so it is at most 0. */
  function Low(s: seq<Event>): int {
    if s == [] then 0 else Min(Low(s[..|s| - 1]), Depth(s))
  }

  function Min(a: int, b: int): int {
    if a <= b then a else b
  }

  /** Every close matches an earlier open and every open is closed; placeholders are neither. */
  predicate WellNested(s: seq<Event>) {
    Depth(s) == 0 && Low(s) >= 0
  }

  /** `s` is exactly one node of kind `k`, which is a real kind and not the placeholder. */
  predicate IsNode(s: seq<Event>, k: Kind) {
    k != Tombstone && 2 <= |s| && s[0] == Start(k) && s[|s| - 1] == Finish && WellNested(s[1..|s| - 1])
  }

  /** `after` is `before` followed by a well-nested segment. */
  predicate Appends(before: seq<Event>, after: seq<Event>) {
    |before| <= |after| && after[..|before|] == before && WellNested(after[|before|..])
  }

  /** `after` is `before` followed by exactly one node of kind `k`. */
  predicate AppendsNode(before: seq<Event>, after: seq<Event>, k: Kind) {
    |before| <= |after| && after[..|before|] == before && IsNode(after[|before|..], k)
  }

  lemma {:induction false} Additive(a: seq<Event>, b: seq<Event>)
    ensures Depth(a + b) == Depth(a) + Depth(b)
    ensures Consumed(a + b) == Consumed(a) + Consumed(b)
    ensures Low(a + b) == Min(Low(a), Depth(a) + Low(b))
    decreases |b|
  {
    if b == [] {
      assert a + b == a;
    } else {
      var b' := b[..|b| - 1];
      assert (a + b)[..|a + b| - 1] == a + b';
      Additive(a, b');
    }
  }

  /** A one-event log: its depth is the event's, and it is well nested iff the event neither opens nor closes. */
  lemma Single(x: Event)
    ensures Depth([x]) == Delta(x) && Consumed([x]) == TokensOf(x)
    ensures WellNested([x]) <==> Delta(x) == 0
  {
    assert [x][..0] == [];
    assert Depth([x]) == Delta(x);
    assert Low([x]) == Min(Low([]), Depth([x]));
  }

  lemma NestedConcat(a: seq<Event>, b: seq<Event>)
    requires WellNested(a) && WellNested(b)
    ensures WellNested(a + b)
  {
    Additive(a, b);
  }

  lemma NodeNested(s: seq<Event>, k: Kind)
    requires IsNode(s, k)
    ensures WellNested(s)
  {
    var inner := s[1..|s| - 1];
    assert s == [Start(k)] + inner + [Finish];
    Additive([Start(k)] + inner, [Finish]);
    Additive([Start(k)], inner);
  }

  /** Giving the placeholder after `before` the kind `k`. */
  lemma Retagged(before: seq<Event>, inner: seq<Event>, k: Kind)
    ensures (before + [Start(Tombstone)] + inner)[|before| := Start(k)] == before + [Start(k)] + inner
  {
  }

  /** Assigning a kind to a placeholder, then closing it, appends exactly one node. */
  lemma CloseNode(before: seq<Event>, inner: seq<Event>, k: Kind)
    requires WellNested(inner) && k != Tombstone
    ensures (before + [Start(Tombstone)] + inner)[|before| := Start(k)] + [Finish]
            == before + [Start(k)] + inner + [Finish]
    ensures AppendsNode(before, before + [Start(k)] + inner + [Finish], k)
  {
    Retagged(before, inner, k);
    var after := before + [Start(k)] + inner + [Finish];
    assert after[|before|..] == [Start(k)] + inner + [Finish];
    assert after[|before|..][1..|after[|before|..]| - 1] == inner;
  }

  lemma NodeAppends(before: seq<Event>, after: seq<Event>, k: Kind)
    requires AppendsNode(before, after, k)
    ensures Appends(before, after)
  {
    NodeNested(after[|before|..], k);
  }

  lemma AppendsRefl(s: seq<Event>)
    ensures Appends(s, s)
  {
    assert s[|s|..] == [];
  }

  /** Appending a well-nested segment. */
  lemma AppendsSegment(before: seq<Event>, seg: seq<Event>)
    requires WellNested(seg)
    ensures Appends(before, before + seg)
  {
    assert (before + seg)[..|before|] == before;
    assert (before + seg)[|before|..] == seg;
  }

  lemma AppendsTrans(a: seq<Event>, b: seq<Event>, c: seq<Event>)
    requires Appends(a, b) && Appends(b, c)
    ensures Appends(a, c)
  {
    assert c == b + c[|b|..];
    assert b == a + b[|a|..];
    assert c[|a|..] == b[|a|..] + c[|b|..];
    NestedConcat(b[|a|..], c[|b|..]);
  }

  /**
   * A log that extends `before` and a placeholder by a well-nested body
   * becomes exactly one node once the placeholder gets its kind and the node is closed.
   */
  lemma Closes(before: seq<Event>, mid: seq<Event>, k: Kind)
    requires Appends(before + [Start(Tombstone)], mid) && k != Tombstone
    ensures |before| < |mid|
    ensures AppendsNode(before, mid[|before| := Start(k)] + [Finish], k)
  {
    var base := before + [Start(Tombstone)];
    var inner := mid[|base|..];
    assert mid == base + inner;
    CloseNode(before, inner, k);
  }

  /** Giving a placeholder its kind opens the node, and changes no token count. */
  lemma Retag(s: seq<Event>, i: nat, k: Kind)
    requires i < |s| && s[i].Start?
    ensures Depth(s[i := Start(k)]) == Depth(s) - Delta(s[i]) + Delta(Start(k))
    ensures Consumed(s[i := Start(k)]) == Consumed(s)
  {
    assert s == s[..i] + [s[i]] + s[i + 1..];
    assert s[i := Start(k)] == s[..i] + [Start(k)] + s[i + 1..];
    Additive(s[..i] + [s[i]], s[i + 1..]);
    Additive(s[..i] + [Start(k)], s[i + 1..]);
    Additive(s[..i], [s[i]]);
    Additive(s[..i], [Start(k)]);
  }

  /** Opening a node consumes no token. */
  lemma OpenKeepsCount(s: seq<Event>, k: Kind)
    ensures Consumed(s + [Start(k)]) == Consumed(s)
  {
    Additive(s, [Start(k)]);
    Single(Start(k));
  }

  /** Naming a placeholder and closing its node consumes no token. */
  lemma CloseKeepsCount(s: seq<Event>, i: nat, k: Kind)
    requires i < |s| && s[i].Start?
    ensures Consumed(s[i := Start(k)] + [Finish]) == Consumed(s)
  {
    Retag(s, i, k);
    Additive(s[i := Start(k)], [Finish]);
    Single(Finish);
  }

  // The shapes below follow the order in which a rule builds its log: a
  // placeholder, then the node's events one append at a time; once the
  // placeholder is named and the node closed, the log is the named node.

  lemma NodeOfOne(before: seq<Event>, a: Event, k: Kind)
    ensures (before + [Start(Tombstone)] + [a])[|before| := Start(k)] + [Finish]
         == before + [Start(k), a, Finish]
  {
    var after := before + [Start(k), a, Finish];
    var built := (before + [Start(Tombstone)] + [a])[|before| := Start(k)] + [Finish];
    assert |built| == |after|;
    forall i | 0 <= i < |after|
      ensures built[i] == after[i]
    {
    }
  }

  lemma NodeOfTwo(before: seq<Event>, a: Event, b: Event, k: Kind)
    ensures (before + [Start(Tombstone)] + [a] + [b])[|before| := Start(k)] + [Finish]
         == before + [Start(k), a, b, Finish]
  {
    var after := before + [Start(k), a, b, Finish];
    var built := (before + [Start(Tombstone)] + [a] + [b])[|before| := Start(k)] + [Finish];
    assert |built| == |after|;
    forall i | 0 <= i < |after|
      ensures built[i] == after[i]
    {
    }
  }

  lemma NodeOfOneThen(before: seq<Event>, a: Event, mid: seq<Event>, k: Kind)
    ensures (before + [Start(Tombstone)] + [a] + mid)[|before| := Start(k)] + [Finish]
         == before + [Start(k), a] + mid + [Finish]
  {
    var after := before + [Start(k), a] + mid + [Finish];
    var built := (before + [Start(Tombstone)] + [a] + mid)[|before| := Start(k)] + [Finish];
    assert |built| == |after|;
    forall i | 0 <= i < |after|
      ensures built[i] == after[i]
    {
    }
  }

  lemma NodeOfTwoThen(before: seq<Event>, a: Event, b: Event, mid: seq<Event>, k: Kind)
    ensures (before + [Start(Tombstone)] + [a] + [b] + mid)[|before| := Start(k)] + [Finish]
         == before + [Start(k), a, b] + mid + [Finish]
  {
    var after := before + [Start(k), a, b] + mid + [Finish];
    var built := (before + [Start(Tombstone)] + [a] + [b] + mid)[|before| := Start(k)] + [Finish];
    assert |built| == |after|;
    forall i | 0 <= i < |after|
      ensures built[i] == after[i]
    {
    }
  }

  lemma NodeOfTwoThenOne(before: seq<Event>, a: Event, b: Event, mid: seq<Event>, e: Event, k: Kind)
    ensures (before + [Start(Tombstone)] + [a] + [b] + mid + [e])[|before| := Start(k)] + [Finish]
         == before + [Start(k), a, b] + mid + [e, Finish]
  {
    var after := before + [Start(k), a, b] + mid + [e, Finish];
    var built := (before + [Start(Tombstone)] + [a] + [b] + mid + [e])[|before| := Start(k)] + [Finish];
    assert |built| == |after|;
    forall i | 0 <= i < |after|
      ensures built[i] == after[i]
    {
    }
  }

  lemma NodeOfThreeThenOne(before: seq<Event>, a: Event, b: Event, c: Event, mid: seq<Event>, e: Event, k: Kind)
    ensures (before + [Start(Tombstone)] + [a] + [b] + [c] + mid + [e])[|before| := Start(k)] + [Finish]
         == before + [Start(k), a, b, c] + mid + [e, Finish]
  {
    var after := before + [Start(k), a, b, c] + mid + [e, Finish];
    var built := (before + [Start(Tombstone)] + [a] + [b] + [c] + mid + [e])[|before| := Start(k)] + [Finish];
    assert |built| == |after|;
    forall i | 0 <= i < |after|
      ensures built[i] == after[i]
    {
    }
  }
}
