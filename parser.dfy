/**
 * The parser state the grammar drives: a token cursor over raw tokens, an
 * append-only event log, markers, and the grammar rules of other modules,
 * which this model does not define and takes as a parameter instead.
 *
 * Every operation that changes the parser is described twice: as a method of
 * `Parser` that updates `pos` and `events` in place, and as a step function
 * from one `Progress` (cursor and log) to the next, which the method's
 * postcondition names. The grammar's own specifications are compositions of
 * these steps; the lemmas at the end state what every step preserves.
 */
module Parsing {
  import opened Syntax
  import opened Events

  datatype StmtWithSemi = Yes | No | Optional

  /** Grammar rules defined outside the modelled file and called from it. */
  datatype Callee =
    | UsePath | TypeNoBounds | Type | TypePath
    | BlockExpr | ExprBlockContents | Expr | Stmt(withSemi: StmtWithSemi, preferExpr: bool)
    | PatternSingle | ItemOrMacro(stopOnRCurly: bool) | ModContents(stopOnRCurly: bool) | Meta

  /** What a rule does from one position: the raw tokens it consumes and the events it appends. */
  datatype Effect = Effect(consumed: nat, events: seq<Event>) {
    /** Its events are well nested and account for exactly the tokens it consumes. */
    predicate Honest() {
      WellNested(events) && Consumed(events) == consumed
    }
  }

  /** Index of a `Start` event whose kind is not yet known. */
  datatype Marker = Marker(index: nat)

  /** Where a parse stands: raw tokens consumed so far and the events emitted. */
  datatype Progress = Progress(pos: nat, events: seq<Event>) {
    /** Every consumed raw token belongs to exactly one token event. */
    predicate Accounted() {
      Consumed(events) == pos
    }
  }

  class Parser {
    const tokens: seq<RawToken>
    /** The effect of calling each outside rule at each position. */
    const callees: (Callee, nat) -> Effect
    var pos: nat
    var events: seq<Event>

    function Now(): Progress
      reads this
    {
      Progress(pos, events)
    }

    ghost predicate CalleesHonest() {
      forall c, i :: callees(c, i).Honest()
    }

    constructor (tokens: seq<RawToken>, callees: (Callee, nat) -> Effect)
      ensures this.tokens == tokens && this.callees == callees
      ensures Now() == Progress(0, [])
    {
      this.tokens := tokens;
      this.callees := callees;
      pos := 0;
      events := [];
    }

    /** Raw kind at index `i`; past the end the input reads as `Eof`. */
    function KindAt(i: nat): Kind
    {
      if i < |tokens| then tokens[i].kind else Eof
    }

    /** Whether a token of kind `k` starts at raw index `i`, gluing joint raw tokens for `::` and `->`. */
    predicate KindAtIs(i: nat, k: Kind)
    {
      if IsComposite(k) then
        KindAt(i) == Parts(k).0 && KindAt(i + 1) == Parts(k).1 && i < |tokens| && tokens[i].joint
      else
        KindAt(i) == k
    }

    /** The raw kind `n` tokens ahead; lookahead is bounded by 3. */
    function Nth(n: nat): Kind
      requires n <= 3
      reads this
    {
      KindAt(pos + n)
    }

    /** The raw kind under the cursor. */
    function Current(): Kind
      reads this
    {
      KindAt(pos)
    }

    /** Whether a token of kind `k` starts `n` tokens ahead. */
    predicate NthAt(n: nat, k: Kind)
      reads this
    {
      KindAtIs(pos + n, k)
    }

    /** Whether a token of kind `k` is current. */
    predicate At(k: Kind)
      reads this
    {
      NthAt(0, k)
    }

    /** The one event `expect(k)` emits at raw index `j`: the token, or an error in its place. */
    function ExpectEvent(j: nat, k: Kind): Event {
      if KindAtIs(j, k) then Token(k, RawWidth(k)) else ErrorMsg(Expected(k))
    }

    /** Raw tokens `expect(k)` and `eat(k)` consume at raw index `j`. */
    function Width(j: nat, k: Kind): nat {
      if KindAtIs(j, k) then RawWidth(k) else 0
    }

    // ---- steps ----

    /** Opens a node whose kind is decided later. */
    function StartStep(s: Progress): Progress {
      Progress(s.pos, s.events + [Event.Start(Tombstone)])
    }

    /** Gives the placeholder at `m`, which is still unnamed, its kind and closes the node. */
    function CompleteStep(s: Progress, m: Marker, kind: Kind): Progress
      requires m.index < |s.events| && s.events[m.index] == Event.Start(Tombstone)
    {
      Progress(s.pos, s.events[m.index := Event.Start(kind)] + [Finish])
    }

    /** Consumes one token of kind `k`, which must be the current one. */
    function BumpStep(s: Progress, k: Kind): Progress
      requires KindAtIs(s.pos, k)
    {
      Progress(s.pos + RawWidth(k), s.events + [Token(k, RawWidth(k))])
    }

    /** Consumes the current raw token whatever it is; at the end of input does nothing. */
    function BumpAnyStep(s: Progress): Progress {
      if KindAt(s.pos) == Eof then s
      else Progress(s.pos + 1, s.events + [Token(KindAt(s.pos), 1)])
    }

    /** Consumes a token of kind `k` if it is the current one. */
    function EatStep(s: Progress, k: Kind): Progress {
      if KindAtIs(s.pos, k) then BumpStep(s, k) else s
    }

    /** Records an error at the current position; consumes nothing. */
    function ErrorStep(s: Progress, msg: Message): Progress {
      Progress(s.pos, s.events + [ErrorMsg(msg)])
    }

    /** Consumes a token of kind `k` if it is the current one, and records its absence otherwise. */
    function ExpectStep(s: Progress, k: Kind): Progress {
      if KindAtIs(s.pos, k) then BumpStep(s, k) else ErrorStep(s, Expected(k))
    }

    /** Records an error, then consumes one token so that the caller makes progress. */
    function ErrAndBumpStep(s: Progress, msg: string): Progress {
      BumpAnyStep(ErrorStep(s, Text(msg)))
    }

    /** Records an error, then skips the current token unless it is in `recovery` or is a brace. */
    function ErrRecoverStep(s: Progress, msg: string, recovery: set<Kind>): Progress {
      var k := KindAt(s.pos);
      if k in recovery || k == LCurly || k == RCurly then ErrorStep(s, Text(msg))
      else BumpAnyStep(ErrorStep(s, Text(msg)))
    }

    /** Runs an outside grammar rule from the current position. */
    function InvokeStep(s: Progress, c: Callee): Progress {
      Progress(s.pos + callees(c, s.pos).consumed, s.events + callees(c, s.pos).events)
    }

    // ---- operations ----

    method Start() returns (m: Marker)
      modifies this
      ensures m == Marker(|old(events)|) && Now() == StartStep(old(Now()))
    {
      m := Marker(|events|);
      events := events + [Event.Start(Tombstone)];
    }

    method Complete(m: Marker, kind: Kind)
      requires m.index < |events| && events[m.index] == Event.Start(Tombstone)
      modifies this
      ensures Now() == CompleteStep(old(Now()), m, kind)
    {
      events := events[m.index := Event.Start(kind)] + [Finish];
    }

    method Bump(k: Kind)
      requires At(k)
      modifies this
      ensures Now() == BumpStep(old(Now()), k)
    {
      pos := pos + RawWidth(k);
      events := events + [Token(k, RawWidth(k))];
    }

    method BumpAny()
      modifies this
      ensures Now() == BumpAnyStep(old(Now()))
    {
      var kind := Current();
      if kind != Eof {
        pos := pos + 1;
        events := events + [Token(kind, 1)];
      }
    }

    method Eat(k: Kind) returns (b: bool)
      modifies this
      ensures b == old(At(k)) && Now() == EatStep(old(Now()), k)
    {
      b := At(k);
      if b {
        Bump(k);
      }
    }

    method Expect(k: Kind) returns (b: bool)
      modifies this
      ensures b == old(At(k)) && Now() == ExpectStep(old(Now()), k)
    {
      b := Eat(k);
      if !b {
        Error(Expected(k));
      }
    }

    method Error(msg: Message)
      modifies this
      ensures Now() == ErrorStep(old(Now()), msg)
    {
      events := events + [ErrorMsg(msg)];
    }

    method ErrAndBump(msg: string)
      modifies this
      ensures Now() == ErrAndBumpStep(old(Now()), msg)
    {
      Error(Text(msg));
      BumpAny();
    }

    method ErrRecover(msg: string, recovery: set<Kind>)
      modifies this
      ensures Now() == ErrRecoverStep(old(Now()), msg, recovery)
    {
      var k := Current();
      Error(Text(msg));
      if !(k in recovery || k == LCurly || k == RCurly) {
        BumpAny();
      }
    }

    method Invoke(c: Callee)
      modifies this
      ensures Now() == InvokeStep(old(Now()), c)
    {
      var e := callees(c, pos);
      pos := pos + e.consumed;
      events := events + e.events;
    }
  }

  /**
   * A token of an ordinary kind is one raw token of that kind; `::` and `->`
   * are their two parts, the first joint to the second. Neither can start past the end.
   */
  lemma TokenAt(p: Parser, i: nat, k: Kind)
    ensures !IsComposite(k) ==> (p.KindAtIs(i, k) <==> p.KindAt(i) == k)
    ensures IsComposite(k) ==>
      (p.KindAtIs(i, k) <==> i + 1 < |p.tokens| && p.tokens[i] == RawToken(Parts(k).0, true)
                             && p.tokens[i + 1].kind == Parts(k).1)
    ensures i >= |p.tokens| ==> p.KindAt(i) == Eof
    ensures k != Eof && i >= |p.tokens| ==> !p.KindAtIs(i, k)
  {
  }

  /** `nth(n)` and `current` read raw kinds ahead of the cursor, and `Eof` once past the end. */
  lemma Lookahead(p: Parser, n: nat)
    requires n <= 3
    ensures p.pos + n < |p.tokens| ==> p.Nth(n) == p.tokens[p.pos + n].kind
    ensures p.pos + n >= |p.tokens| ==> p.Nth(n) == Eof
    ensures p.Current() == p.Nth(0)
  {
  }

  /**
   * `nth_at(n, k)` and `at(k)`: for an ordinary kind, the raw kind there is
   * `k`; for `::` and `->`, both parts are there, the first joint to the second.
   */
  lemma TokenAhead(p: Parser, n: nat, k: Kind)
    ensures !IsComposite(k) ==> (p.NthAt(n, k) <==> p.KindAt(p.pos + n) == k)
    ensures IsComposite(k) ==>
      (p.NthAt(n, k) <==> p.pos + n + 1 < |p.tokens| && p.tokens[p.pos + n] == RawToken(Parts(k).0, true)
                          && p.tokens[p.pos + n + 1].kind == Parts(k).1)
    ensures p.At(k) <==> p.NthAt(0, k)
    ensures !IsComposite(k) ==> (p.At(k) <==> p.Current() == k)
  {
  }

  // ---- what every step preserves ----

  /**
   * `r` continues `s`: the cursor does not move back, the log only grows by a
   * well-nested segment, and every consumed raw token stays accounted for.
   */
  predicate Keeps(s: Progress, r: Progress) {
    s.pos <= r.pos && Appends(s.events, r.events) && (s.Accounted() ==> r.Accounted())
  }

  lemma KeepsRefl(s: Progress)
    ensures Keeps(s, s)
  {
    AppendsRefl(s.events);
  }

  lemma KeepsTrans(a: Progress, b: Progress, c: Progress)
    requires Keeps(a, b) && Keeps(b, c)
    ensures Keeps(a, c)
  {
    AppendsTrans(a.events, b.events, c.events);
  }

  /** Appending a well-nested segment that accounts for `n` raw tokens while consuming them. */
  lemma KeepsSegment(s: Progress, seg: seq<Event>, n: nat)
    requires WellNested(seg) && Consumed(seg) == n
    ensures Keeps(s, Progress(s.pos + n, s.events + seg))
  {
    AppendsSegment(s.events, seg);
    Additive(s.events, seg);
  }

  lemma KeepsOne(s: Progress, x: Event)
    requires Delta(x) == 0
    ensures Keeps(s, Progress(s.pos + TokensOf(x), s.events + [x]))
  {
    Single(x);
    KeepsSegment(s, [x], TokensOf(x));
  }

  lemma BumpKeeps(p: Parser, s: Progress, k: Kind)
    requires p.KindAtIs(s.pos, k)
    ensures Keeps(s, p.BumpStep(s, k))
  {
    KeepsOne(s, Token(k, RawWidth(k)));
  }

  /** `bump_any` keeps the accounting and, before the end of input, consumes exactly one raw token. */
  lemma BumpAnyKeeps(p: Parser, s: Progress)
    ensures Keeps(s, p.BumpAnyStep(s))
    ensures p.KindAt(s.pos) != Eof <==> p.BumpAnyStep(s).pos == s.pos + 1
  {
    if p.KindAt(s.pos) == Eof {
      KeepsRefl(s);
    } else {
      KeepsOne(s, Token(p.KindAt(s.pos), 1));
    }
  }

  /** `eat(k)` keeps the accounting and consumes input exactly when a `k` is current. */
  lemma EatKeeps(p: Parser, s: Progress, k: Kind)
    ensures Keeps(s, p.EatStep(s, k))
    ensures p.EatStep(s, k).pos > s.pos <==> p.KindAtIs(s.pos, k)
  {
    if p.KindAtIs(s.pos, k) {
      BumpKeeps(p, s, k);
    } else {
      KeepsRefl(s);
    }
  }

  /** `error` leaves the cursor where it is and appends exactly its one error event. */
  lemma ErrorKeeps(p: Parser, s: Progress, msg: Message)
    ensures Keeps(s, p.ErrorStep(s, msg))
    ensures p.ErrorStep(s, msg).pos == s.pos
    ensures p.ErrorStep(s, msg).events == s.events + [ErrorMsg(msg)]
  {
    KeepsOne(s, ErrorMsg(msg));
  }

  /** `expect(k)` appends exactly one event, and consumes input exactly when a `k` is current. */
  lemma ExpectKeeps(p: Parser, s: Progress, k: Kind)
    ensures Keeps(s, p.ExpectStep(s, k))
    ensures p.ExpectStep(s, k).events == s.events + [p.ExpectEvent(s.pos, k)]
    ensures p.ExpectStep(s, k).pos == s.pos + p.Width(s.pos, k)
    ensures p.ExpectStep(s, k).pos > s.pos <==> p.KindAtIs(s.pos, k)
  {
    if p.KindAtIs(s.pos, k) {
      BumpKeeps(p, s, k);
    } else {
      ErrorKeeps(p, s, Expected(k));
    }
  }

  /** `expect` appends exactly one event and moves past the expected token, if it is there. */
  lemma ExpectShape(p: Parser, s: Progress, k: Kind)
    ensures p.ExpectStep(s, k) == Progress(s.pos + p.Width(s.pos, k), s.events + [p.ExpectEvent(s.pos, k)])
  {
  }

  /** `err_and_bump` records its error first and, before the end of input, always consumes one raw token. */
  lemma ErrAndBumpKeeps(p: Parser, s: Progress, msg: string)
    ensures Keeps(s, p.ErrAndBumpStep(s, msg))
    ensures |p.ErrAndBumpStep(s, msg).events| > |s.events|
    ensures p.ErrAndBumpStep(s, msg).events[|s.events|] == ErrorMsg(Text(msg))
    ensures p.KindAt(s.pos) != Eof <==> p.ErrAndBumpStep(s, msg).pos == s.pos + 1
  {
    var e := p.ErrorStep(s, Text(msg));
    ErrorKeeps(p, s, Text(msg));
    BumpAnyKeeps(p, e);
    KeepsTrans(s, e, p.BumpAnyStep(e));
  }

  /**
   * `err_recover` records its error first, never moves back, and consumes
   * nothing at a recovery token, a brace or the end of input.
   */
  lemma ErrRecoverKeeps(p: Parser, s: Progress, msg: string, recovery: set<Kind>)
    ensures Keeps(s, p.ErrRecoverStep(s, msg, recovery))
    ensures |p.ErrRecoverStep(s, msg, recovery).events| > |s.events|
    ensures p.ErrRecoverStep(s, msg, recovery).events[|s.events|] == ErrorMsg(Text(msg))
    ensures p.KindAt(s.pos) in recovery + {LCurly, RCurly, Eof} ==>
      p.ErrRecoverStep(s, msg, recovery) == p.ErrorStep(s, Text(msg))
  {
    var e := p.ErrorStep(s, Text(msg));
    ErrorKeeps(p, s, Text(msg));
    BumpAnyKeeps(p, e);
    KeepsTrans(s, e, p.BumpAnyStep(e));
  }

  /** An outside rule that is honest keeps the accounting. */
  lemma InvokeKeeps(p: Parser, s: Progress, c: Callee)
    requires p.CalleesHonest()
    ensures Keeps(s, p.InvokeStep(s, c))
  {
    assert p.callees(c, s.pos).Honest();
    KeepsSegment(s, p.callees(c, s.pos).events, p.callees(c, s.pos).consumed);
  }

  /** A completed marker is used up: its event is no longer a placeholder, so it cannot be completed again. */
  lemma CompleteUsesMarker(p: Parser, s: Progress, m: Marker, k: Kind)
    requires m.index < |s.events| && s.events[m.index] == Start(Tombstone) && k != Tombstone
    ensures p.CompleteStep(s, m, k).events[m.index] == Start(k)
    ensures p.CompleteStep(s, m, k).events[m.index] != Start(Tombstone)
  {
  }

  /**
   * A rule that opens a marker, records an error and abandons the marker
   * leaves its placeholder behind, and is still honest.
   */
  lemma AbandonedMarkerHonest(msg: Message)
    ensures Effect(0, [Start(Tombstone), ErrorMsg(msg)]).Honest()
  {
    Single(Start(Tombstone));
    Single(ErrorMsg(msg));
    Additive([Start(Tombstone)], [ErrorMsg(msg)]);
    assert [Start(Tombstone)] + [ErrorMsg(msg)] == [Start(Tombstone), ErrorMsg(msg)];
  }

  /**
   * Opening a placeholder, continuing from it, then completing it appends
   * exactly one node of the completed kind.
   */
  lemma NodeKeeps(p: Parser, s: Progress, mid: Progress, k: Kind)
    requires Keeps(p.StartStep(s), mid) && k != Tombstone
    ensures |s.events| < |mid.events|
    ensures AppendsNode(s.events, p.CompleteStep(mid, Marker(|s.events|), k).events, k)
    ensures Keeps(s, p.CompleteStep(mid, Marker(|s.events|), k))
  {
    var r := p.CompleteStep(mid, Marker(|s.events|), k);
    Closes(s.events, mid.events, k);
    NodeAppends(s.events, r.events, k);
    OpenKeepsCount(s.events, Tombstone);
    assert mid.events[|s.events|] == Start(Tombstone) by {
      assert mid.events[..|s.events| + 1] == s.events + [Start(Tombstone)];
    }
    CloseKeepsCount(mid.events, |s.events|, k);
  }
}
