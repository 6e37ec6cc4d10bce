/**
 * The shared grammar primitives: visibility, rename clause, calling
 * convention, return type, names, lifetimes and brace-region error recovery.
 * Rules named `Opt…` may produce nothing; the others always produce a node
 * or an error, and those that assert their first token require it.
 *
 * Each rule is a method on the parser and, beside it, a function `…Run`
 * giving the progress the rule makes from a given progress; the method's
 * postcondition is that its effect is exactly that function's, and the
 * lemmas state what the rule promises about it.
 */
module Grammar {
  import opened Syntax
  import opened Events
  import opened Parsing

  datatype BlockLike = Block | NotBlock {
    function IsBlock(): (r: bool)
      ensures r <==> this == Block
      ensures !r <==> this == NotBlock
    {
      this == Block
    }
  }

  // ---- visibility ----

  /** A visibility modifier starts at raw index `i`: `pub`, or `crate` that does not begin a `crate::` path. */
  predicate StartsVisibility(p: Parser, i: nat) {
    p.KindAt(i) == PubKw || (p.KindAt(i) == CrateKw && !p.KindAtIs(i + 1, Colon2))
  }

  /**
   * After `pub`, at raw index `i`: a parenthesised `crate`, `self`, `super` or
   * identifier that is not followed by `:` starts a path scope, except that
   * inside a tuple field a parenthesised identifier is the field's type.
   */
  predicate PathScope(p: Parser, i: nat, inTupleField: bool) {
    var head := p.KindAt(i + 1);
    p.KindAt(i) == LParen
    && (head == CrateKw || head == SelfKw || head == SuperKw || head == Ident)
    && p.KindAt(i + 2) != Colon
    && !(inTupleField && head == Ident)
  }

  /** After `pub`, at raw index `i`: `(in` starts an explicit path scope. */
  predicate InScope(p: Parser, i: nat) {
    p.KindAt(i) == LParen && p.KindAt(i + 1) == InKw
  }

  /** The path of a scope and its closing parenthesis, or an error in its place. */
  function ScopeTail(p: Parser, s: Progress): Progress {
    p.ExpectStep(p.InvokeStep(s, UsePath), RParen)
  }

  /** The optional parenthesised scope after `pub`. */
  function ScopeRun(p: Parser, s: Progress, inTupleField: bool): (r: Progress)
    ensures s.events <= r.events
  {
    if PathScope(p, s.pos, inTupleField) then
      ScopeTail(p, p.BumpStep(s, LParen))
    else if InScope(p, s.pos) then
      ScopeTail(p, p.BumpStep(p.BumpStep(s, LParen), InKw))
    else
      s
  }

  function VisibilityRun(p: Parser, s: Progress, inTupleField: bool): Progress {
    if p.KindAt(s.pos) == PubKw then
      var body := ScopeRun(p, p.BumpStep(p.StartStep(s), PubKw), inTupleField);
      p.CompleteStep(body, Marker(|s.events|), Visibility)
    else if StartsVisibility(p, s.pos) then
      p.CompleteStep(p.BumpStep(p.StartStep(s), CrateKw), Marker(|s.events|), Visibility)
    else
      s
  }

  /** The parenthesised scope after `pub`, if there is one. */
  method OptVisibilityScope(p: Parser, inTupleField: bool)
    modifies p
    ensures p.Now() == ScopeRun(p, old(p.Now()), inTupleField)
  {
    if p.At(LParen) {
      var head := p.Nth(1);
      if (head == CrateKw || head == SelfKw || head == SuperKw || head == Ident) && p.Nth(2) != Colon {
        if !(inTupleField && head == Ident) {
          p.Bump(LParen);
          p.Invoke(UsePath);
          var _ := p.Expect(RParen);
        }
      } else if head == InKw {
        p.Bump(LParen);
        p.Bump(InKw);
        p.Invoke(UsePath);
        var _ := p.Expect(RParen);
      }
    }
  }

  method OptVisibility(p: Parser, inTupleField: bool) returns (b: bool)
    modifies p
    ensures p.Now() == VisibilityRun(p, old(p.Now()), inTupleField)
    ensures b <==> StartsVisibility(p, old(p.pos))
  {
    var current := p.Current();
    if current == PubKw {
      var m := p.Start();
      p.Bump(PubKw);
      OptVisibilityScope(p, inTupleField);
      p.Complete(m, Visibility);
      b := true;
    } else if current == CrateKw {
      if p.NthAt(1, Colon2) {
        return false;
      }
      var m := p.Start();
      p.Bump(CrateKw);
      p.Complete(m, Visibility);
      b := true;
    } else {
      b := false;
    }
  }

  lemma ScopeKeeps(p: Parser, s: Progress, inTupleField: bool)
    requires p.CalleesHonest()
    ensures Keeps(s, ScopeRun(p, s, inTupleField))
  {
    if PathScope(p, s.pos, inTupleField) {
      var s1 := p.BumpStep(s, LParen);
      var s2 := p.InvokeStep(s1, UsePath);
      BumpKeeps(p, s, LParen);
      InvokeKeeps(p, s1, UsePath);
      ExpectKeeps(p, s2, RParen);
      KeepsTrans(s, s1, s2);
      KeepsTrans(s, s2, p.ExpectStep(s2, RParen));
    } else if InScope(p, s.pos) {
      var s1 := p.BumpStep(s, LParen);
      var s2 := p.BumpStep(s1, InKw);
      var s3 := p.InvokeStep(s2, UsePath);
      BumpKeeps(p, s, LParen);
      BumpKeeps(p, s1, InKw);
      InvokeKeeps(p, s2, UsePath);
      ExpectKeeps(p, s3, RParen);
      KeepsTrans(s, s1, s2);
      KeepsTrans(s, s2, s3);
      KeepsTrans(s, s3, p.ExpectStep(s3, RParen));
    } else {
      KeepsRefl(s);
    }
  }

  /**
   * `opt_visibility` changes nothing when no visibility starts here, and
   * otherwise appends exactly one VISIBILITY node and consumes input.
   */
  lemma VisibilityNode(p: Parser, s: Progress, inTupleField: bool)
    requires p.CalleesHonest()
    ensures var r := VisibilityRun(p, s, inTupleField);
      Keeps(s, r)
      && (!StartsVisibility(p, s.pos) ==> r == s)
      && (StartsVisibility(p, s.pos) ==> AppendsNode(s.events, r.events, Visibility) && r.pos > s.pos)
  {
    if p.KindAt(s.pos) == PubKw {
      var s1 := p.StartStep(s);
      var s2 := p.BumpStep(s1, PubKw);
      BumpKeeps(p, s1, PubKw);
      ScopeKeeps(p, s2, inTupleField);
      KeepsTrans(s1, s2, ScopeRun(p, s2, inTupleField));
      NodeKeeps(p, s, ScopeRun(p, s2, inTupleField), Visibility);
    } else if StartsVisibility(p, s.pos) {
      var s1 := p.StartStep(s);
      BumpKeeps(p, s1, CrateKw);
      NodeKeeps(p, s, p.BumpStep(s1, CrateKw), Visibility);
    } else {
      KeepsRefl(s);
    }
  }

  /** `crate` not followed by `::` is a visibility of one token. */
  lemma VisibilityCrate(p: Parser, s: Progress, inTupleField: bool)
    requires p.KindAt(s.pos) == CrateKw && !p.KindAtIs(s.pos + 1, Colon2)
    ensures VisibilityRun(p, s, inTupleField)
      == Progress(s.pos + 1, s.events + [Start(Visibility), Token(CrateKw, 1), Finish])
  {
    NodeOfOne(s.events, Token(CrateKw, 1), Visibility);
  }

  /**
   * In a tuple field, `pub (` followed by an identifier that is not followed
   * by `:` leaves the parenthesis to the field's type: only `pub` is consumed.
   */
  lemma VisibilityTupleField(p: Parser, s: Progress)
    requires p.KindAt(s.pos) == PubKw && p.KindAt(s.pos + 1) == LParen
    requires p.KindAt(s.pos + 2) == Ident && p.KindAt(s.pos + 3) != Colon
    ensures var r := VisibilityRun(p, s, true);
      r == Progress(s.pos + 1, s.events + [Start(Visibility), Token(PubKw, 1), Finish])
      && p.KindAt(r.pos) == LParen
  {
    var s2 := p.BumpStep(p.StartStep(s), PubKw);
    assert !PathScope(p, s2.pos, true) && !InScope(p, s2.pos);
    NodeOfOne(s.events, Token(PubKw, 1), Visibility);
  }

  /** The path of a scope, then `)` or an error in its place. */
  lemma ScopeTailShape(p: Parser, t: Progress)
    ensures var path := p.callees(UsePath, t.pos);
      var close := t.pos + path.consumed;
      ScopeTail(p, t) == Progress(close + p.Width(close, RParen), t.events + path.events + [p.ExpectEvent(close, RParen)])
  {
    ExpectShape(p, p.InvokeStep(t, UsePath), RParen);
  }

  /** `pub (` and a path-scope head: the path starts after the parenthesis, inside the VISIBILITY node. */
  lemma PubPathScope(p: Parser, s: Progress, inTupleField: bool)
    requires p.KindAt(s.pos) == PubKw && PathScope(p, s.pos + 1, inTupleField)
    ensures VisibilityRun(p, s, inTupleField) ==
      p.CompleteStep(ScopeTail(p, Progress(s.pos + 2, s.events + [Start(Tombstone)] + [Token(PubKw, 1)] + [Token(LParen, 1)])),
                     Marker(|s.events|), Visibility)
  {
  }

  /** `pub (in`: the path starts after `in`, inside the VISIBILITY node. */
  lemma PubInScope(p: Parser, s: Progress, inTupleField: bool)
    requires p.KindAt(s.pos) == PubKw && InScope(p, s.pos + 1)
    ensures VisibilityRun(p, s, inTupleField) ==
      p.CompleteStep(ScopeTail(p, Progress(s.pos + 3, s.events + [Start(Tombstone)] + [Token(PubKw, 1)] + [Token(LParen, 1)] + [Token(InKw, 1)])),
                     Marker(|s.events|), Visibility)
  {
    assert !PathScope(p, s.pos + 1, inTupleField);
  }

  /**
   * `pub (crate)`, `pub (self)`, `pub (super)` and, outside a tuple field,
   * `pub (ident)`, when the head is not followed by `:`: the parenthesis, a
   * path and the closing parenthesis (or an error in its place) form the
   * scope.
   */
  lemma VisibilityPathScope(p: Parser, s: Progress, inTupleField: bool)
    requires p.KindAt(s.pos) == PubKw && PathScope(p, s.pos + 1, inTupleField)
    ensures var path := p.callees(UsePath, s.pos + 2);
      var close := s.pos + 2 + path.consumed;
      VisibilityRun(p, s, inTupleField) ==
        Progress(close + p.Width(close, RParen),
                 s.events + [Start(Visibility), Token(PubKw, 1), Token(LParen, 1)]
                 + path.events + [p.ExpectEvent(close, RParen), Finish])
  {
    var t := Progress(s.pos + 2, s.events + [Start(Tombstone)] + [Token(PubKw, 1)] + [Token(LParen, 1)]);
    var path := p.callees(UsePath, t.pos);
    PubPathScope(p, s, inTupleField);
    ScopeTailShape(p, t);
    NodeOfTwoThenOne(s.events, Token(PubKw, 1), Token(LParen, 1), path.events, p.ExpectEvent(t.pos + path.consumed, RParen), Visibility);
  }

  /** `pub (in path)`: both opening tokens, a path, and the closing parenthesis or an error in its place. */
  lemma VisibilityInScope(p: Parser, s: Progress, inTupleField: bool)
    requires p.KindAt(s.pos) == PubKw && InScope(p, s.pos + 1)
    ensures var path := p.callees(UsePath, s.pos + 3);
      var close := s.pos + 3 + path.consumed;
      VisibilityRun(p, s, inTupleField) ==
        Progress(close + p.Width(close, RParen),
                 s.events + [Start(Visibility), Token(PubKw, 1), Token(LParen, 1), Token(InKw, 1)]
                 + path.events + [p.ExpectEvent(close, RParen), Finish])
  {
    var t := Progress(s.pos + 3, s.events + [Start(Tombstone)] + [Token(PubKw, 1)] + [Token(LParen, 1)] + [Token(InKw, 1)]);
    var path := p.callees(UsePath, t.pos);
    PubInScope(p, s, inTupleField);
    ScopeTailShape(p, t);
    NodeOfThreeThenOne(s.events, Token(PubKw, 1), Token(LParen, 1), Token(InKw, 1), path.events, p.ExpectEvent(t.pos + path.consumed, RParen), Visibility);
  }

  // ---- rename ----

  function RenameRun(p: Parser, s: Progress): Progress {
    if p.KindAt(s.pos) == AsKw then
      var s1 := p.BumpStep(p.StartStep(s), AsKw);
      var s2 := p.EatStep(s1, Underscore);
      var body := if p.KindAt(s1.pos) == Underscore then s2 else NameRun(p, s2);
      p.CompleteStep(body, Marker(|s.events|), Rename)
    else
      s
  }

  method OptRename(p: Parser)
    modifies p
    ensures p.Now() == RenameRun(p, old(p.Now()))
  {
    if p.At(AsKw) {
      var m := p.Start();
      p.Bump(AsKw);
      var underscore := p.Eat(Underscore);
      if !underscore {
        Name(p);
      }
      p.Complete(m, Rename);
    }
  }

  /** `opt_rename` changes nothing unless `as` is current, and then appends exactly one RENAME node. */
  lemma RenameNode(p: Parser, s: Progress)
    ensures var r := RenameRun(p, s);
      Keeps(s, r)
      && (p.KindAt(s.pos) != AsKw ==> r == s)
      && (p.KindAt(s.pos) == AsKw ==> AppendsNode(s.events, r.events, Rename) && r.pos > s.pos)
  {
    if p.KindAt(s.pos) == AsKw {
      var s0 := p.StartStep(s);
      var s1 := p.BumpStep(s0, AsKw);
      var s2 := p.EatStep(s1, Underscore);
      BumpKeeps(p, s0, AsKw);
      EatKeeps(p, s1, Underscore);
      KeepsTrans(s0, s1, s2);
      if p.KindAt(s1.pos) != Underscore {
        NameKeeps(p, s2, {});
        KeepsTrans(s0, s2, NameRun(p, s2));
      }
      NodeKeeps(p, s, if p.KindAt(s1.pos) == Underscore then s2 else NameRun(p, s2), Rename);
    } else {
      KeepsRefl(s);
    }
  }

  /** `as _` is a RENAME node over exactly those two tokens. */
  lemma RenameUnderscore(p: Parser, s: Progress)
    requires p.KindAt(s.pos) == AsKw && p.KindAt(s.pos + 1) == Underscore
    ensures RenameRun(p, s)
      == Progress(s.pos + 2, s.events + [Start(Rename), Token(AsKw, 1), Token(Underscore, 1), Finish])
  {
    NodeOfTwo(s.events, Token(AsKw, 1), Token(Underscore, 1), Rename);
  }

  /** `as ident` is a RENAME node holding the keyword and a NAME node over the identifier. */
  lemma RenameIdent(p: Parser, s: Progress)
    requires p.KindAt(s.pos) == AsKw && p.KindAt(s.pos + 1) == Ident
    ensures RenameRun(p, s)
      == Progress(s.pos + 2, s.events + [Start(Rename), Token(AsKw, 1), Start(Syntax.Name), Token(Ident, 1), Finish, Finish])
  {
    var s1 := p.BumpStep(p.StartStep(s), AsKw);
    NameIdent(p, s1, {});
    NodeOfOneThen(s.events, Token(AsKw, 1), [Start(Syntax.Name), Token(Ident, 1), Finish], Rename);
  }

  // ---- calling convention ----

  function AbiRun(p: Parser, s: Progress): Progress
    requires p.KindAt(s.pos) == ExternKw
  {
    var s1 := p.EatStep(p.BumpStep(p.StartStep(s), ExternKw), String);
    p.CompleteStep(s1, Marker(|s.events|), Syntax.Abi)
  }

  method Abi(p: Parser)
    requires p.At(ExternKw)
    modifies p
    ensures p.Now() == AbiRun(p, old(p.Now()))
  {
    var abi := p.Start();
    p.Bump(ExternKw);
    var _ := p.Eat(String);
    p.Complete(abi, Syntax.Abi);
  }

  /** `extern` with an optional string literal after it, in one ABI node. */
  lemma AbiShape(p: Parser, s: Progress)
    requires p.KindAt(s.pos) == ExternKw
    ensures p.KindAt(s.pos + 1) == String ==>
      AbiRun(p, s) == Progress(s.pos + 2, s.events + [Start(Syntax.Abi), Token(ExternKw, 1), Token(String, 1), Finish])
    ensures p.KindAt(s.pos + 1) != String ==>
      AbiRun(p, s) == Progress(s.pos + 1, s.events + [Start(Syntax.Abi), Token(ExternKw, 1), Finish])
  {
    if p.KindAt(s.pos + 1) == String {
      NodeOfTwo(s.events, Token(ExternKw, 1), Token(String, 1), Syntax.Abi);
    } else {
      NodeOfOne(s.events, Token(ExternKw, 1), Syntax.Abi);
    }
  }

  // ---- return type ----

  function RetTypeRun(p: Parser, s: Progress): Progress {
    if p.KindAtIs(s.pos, ThinArrow) then
      var s1 := p.InvokeStep(p.BumpStep(p.StartStep(s), ThinArrow), TypeNoBounds);
      p.CompleteStep(s1, Marker(|s.events|), RetType)
    else
      s
  }

  method OptRetType(p: Parser) returns (b: bool)
    modifies p
    ensures p.Now() == RetTypeRun(p, old(p.Now()))
    ensures b <==> old(p.At(ThinArrow))
  {
    if p.At(ThinArrow) {
      var m := p.Start();
      p.Bump(ThinArrow);
      p.Invoke(TypeNoBounds);
      p.Complete(m, RetType);
      b := true;
    } else {
      b := false;
    }
  }

  /**
   * `opt_ret_type` changes nothing unless `->` is current; otherwise the
   * arrow (two raw tokens) and the type after it form one RET_TYPE node.
   */
  lemma RetTypeShape(p: Parser, s: Progress)
    ensures !p.KindAtIs(s.pos, ThinArrow) ==> RetTypeRun(p, s) == s
    ensures p.KindAtIs(s.pos, ThinArrow) ==>
      var ty := p.callees(TypeNoBounds, s.pos + 2);
      RetTypeRun(p, s) == Progress(s.pos + 2 + ty.consumed,
                                   s.events + [Start(RetType), Token(ThinArrow, 2)] + ty.events + [Finish])
  {
    if p.KindAtIs(s.pos, ThinArrow) {
      NodeOfOneThen(s.events, Token(ThinArrow, 2), p.callees(TypeNoBounds, s.pos + 2).events, RetType);
    }
  }

  lemma RetTypeNode(p: Parser, s: Progress)
    requires p.CalleesHonest()
    ensures Keeps(s, RetTypeRun(p, s))
    ensures p.KindAtIs(s.pos, ThinArrow) ==> AppendsNode(s.events, RetTypeRun(p, s).events, RetType)
  {
    if p.KindAtIs(s.pos, ThinArrow) {
      var s0 := p.StartStep(s);
      var s1 := p.BumpStep(s0, ThinArrow);
      BumpKeeps(p, s0, ThinArrow);
      InvokeKeeps(p, s1, TypeNoBounds);
      KeepsTrans(s0, s1, p.InvokeStep(s1, TypeNoBounds));
      NodeKeeps(p, s, p.InvokeStep(s1, TypeNoBounds), RetType);
    } else {
      KeepsRefl(s);
    }
  }

  // ---- names ----

  function NameRRun(p: Parser, s: Progress, recovery: set<Kind>): Progress {
    if p.KindAt(s.pos) == Ident then
      p.CompleteStep(p.BumpStep(p.StartStep(s), Ident), Marker(|s.events|), Syntax.Name)
    else
      p.ErrRecoverStep(s, "expected a name", recovery)
  }

  function NameRun(p: Parser, s: Progress): Progress {
    NameRRun(p, s, {})
  }

  method NameR(p: Parser, recovery: set<Kind>)
    modifies p
    ensures p.Now() == NameRRun(p, old(p.Now()), recovery)
  {
    if p.At(Ident) {
      var m := p.Start();
      p.Bump(Ident);
      p.Complete(m, Syntax.Name);
    } else {
      p.ErrRecover("expected a name", recovery);
    }
  }

  method Name(p: Parser)
    modifies p
    ensures p.Now() == NameRun(p, old(p.Now()))
  {
    NameR(p, {});
  }

  /** On an identifier, `name_r` is a NAME node over exactly that token. */
  lemma NameIdent(p: Parser, s: Progress, recovery: set<Kind>)
    requires p.KindAt(s.pos) == Ident
    ensures NameRRun(p, s, recovery) == Progress(s.pos + 1, s.events + [Start(Syntax.Name), Token(Ident, 1), Finish])
  {
    NodeOfOne(s.events, Token(Ident, 1), Syntax.Name);
  }

  /**
   * Anywhere else `name_r` records "expected a name" first and produces no
   * node; at a recovery token, a brace or the end of input it consumes nothing.
   */
  lemma NameKeeps(p: Parser, s: Progress, recovery: set<Kind>)
    ensures Keeps(s, NameRRun(p, s, recovery))
    ensures p.KindAt(s.pos) == Ident ==> AppendsNode(s.events, NameRRun(p, s, recovery).events, Syntax.Name)
    ensures p.KindAt(s.pos) != Ident ==>
      var r := NameRRun(p, s, recovery);
      |r.events| > |s.events| && r.events[|s.events|] == ErrorMsg(Text("expected a name"))
    ensures p.KindAt(s.pos) != Ident && p.KindAt(s.pos) in recovery + {LCurly, RCurly, Eof} ==>
      NameRRun(p, s, recovery) == Progress(s.pos, s.events + [ErrorMsg(Text("expected a name"))])
  {
    if p.KindAt(s.pos) == Ident {
      var s0 := p.StartStep(s);
      BumpKeeps(p, s0, Ident);
      NodeKeeps(p, s, p.BumpStep(s0, Ident), Syntax.Name);
    } else {
      ErrRecoverKeeps(p, s, "expected a name", recovery);
    }
  }

  function NameRefRun(p: Parser, s: Progress): Progress {
    if p.KindAt(s.pos) == Ident then
      p.CompleteStep(p.BumpStep(p.StartStep(s), Ident), Marker(|s.events|), Syntax.NameRef)
    else
      p.ErrAndBumpStep(s, "expected identifier")
  }

  method NameRef(p: Parser)
    modifies p
    ensures p.Now() == NameRefRun(p, old(p.Now()))
  {
    if p.At(Ident) {
      var m := p.Start();
      p.Bump(Ident);
      p.Complete(m, Syntax.NameRef);
    } else {
      p.ErrAndBump("expected identifier");
    }
  }

  /**
   * `name_ref` wraps an identifier in a NAME_REF node; on anything else it
   * records "expected identifier" and still consumes the token, so before
   * the end of input it always advances by exactly one raw token.
   */
  lemma NameRefShape(p: Parser, s: Progress)
    ensures p.KindAt(s.pos) == Ident ==>
      NameRefRun(p, s) == Progress(s.pos + 1, s.events + [Start(Syntax.NameRef), Token(Ident, 1), Finish])
    ensures p.KindAt(s.pos) != Ident && p.KindAt(s.pos) != Eof ==>
      NameRefRun(p, s) == Progress(s.pos + 1, s.events + [ErrorMsg(Text("expected identifier")), Token(p.KindAt(s.pos), 1)])
    ensures p.KindAt(s.pos) == Eof ==>
      NameRefRun(p, s) == Progress(s.pos, s.events + [ErrorMsg(Text("expected identifier"))])
    ensures Keeps(s, NameRefRun(p, s))
  {
    if p.KindAt(s.pos) == Ident {
      NodeOfOne(s.events, Token(Ident, 1), Syntax.NameRef);
      var s0 := p.StartStep(s);
      BumpKeeps(p, s0, Ident);
      NodeKeeps(p, s, p.BumpStep(s0, Ident), Syntax.NameRef);
    } else {
      ErrAndBumpKeeps(p, s, "expected identifier");
      assert s.events + [ErrorMsg(Text("expected identifier"))] + [Token(p.KindAt(s.pos), 1)]
          == s.events + [ErrorMsg(Text("expected identifier")), Token(p.KindAt(s.pos), 1)];
    }
  }

  function NameRefOrIndexRun(p: Parser, s: Progress): Progress
    requires p.KindAt(s.pos) == Ident || p.KindAt(s.pos) == IntNumber
  {
    p.CompleteStep(p.BumpAnyStep(p.StartStep(s)), Marker(|s.events|), Syntax.NameRef)
  }

  method NameRefOrIndex(p: Parser)
    requires p.At(Ident) || p.At(IntNumber)
    modifies p
    ensures p.Now() == NameRefOrIndexRun(p, old(p.Now()))
  {
    var m := p.Start();
    p.BumpAny();
    p.Complete(m, Syntax.NameRef);
  }

  /** An identifier or an integer literal, as the only token of a NAME_REF node. */
  lemma NameRefOrIndexShape(p: Parser, s: Progress)
    requires p.KindAt(s.pos) == Ident || p.KindAt(s.pos) == IntNumber
    ensures NameRefOrIndexRun(p, s)
      == Progress(s.pos + 1, s.events + [Start(Syntax.NameRef), Token(p.KindAt(s.pos), 1), Finish])
  {
    NodeOfOne(s.events, Token(p.KindAt(s.pos), 1), Syntax.NameRef);
  }

  // ---- lifetimes ----

  function LifetimeRun(p: Parser, s: Progress): Progress
    requires p.KindAt(s.pos) == LifetimeIdent
  {
    p.CompleteStep(p.BumpStep(p.StartStep(s), LifetimeIdent), Marker(|s.events|), Syntax.Lifetime)
  }

  method Lifetime(p: Parser)
    requires p.At(LifetimeIdent)
    modifies p
    ensures p.Now() == LifetimeRun(p, old(p.Now()))
  {
    var m := p.Start();
    p.Bump(LifetimeIdent);
    p.Complete(m, Syntax.Lifetime);
  }

  lemma LifetimeShape(p: Parser, s: Progress)
    requires p.KindAt(s.pos) == LifetimeIdent
    ensures LifetimeRun(p, s)
      == Progress(s.pos + 1, s.events + [Start(Syntax.Lifetime), Token(LifetimeIdent, 1), Finish])
  {
    NodeOfOne(s.events, Token(LifetimeIdent, 1), Syntax.Lifetime);
  }

  // ---- error block ----

  function ErrorBlockRun(p: Parser, s: Progress, message: string): Progress
    requires p.KindAt(s.pos) == LCurly
  {
    var s1 := p.BumpStep(p.ErrorStep(p.StartStep(s), Text(message)), LCurly);
    var s2 := p.EatStep(p.InvokeStep(s1, ExprBlockContents), RCurly);
    p.CompleteStep(s2, Marker(|s.events|), Error)
  }

  method ErrorBlock(p: Parser, message: string)
    requires p.At(LCurly)
    modifies p
    ensures p.Now() == ErrorBlockRun(p, old(p.Now()), message)
  {
    var m := p.Start();
    p.Error(Text(message));
    p.Bump(LCurly);
    p.Invoke(ExprBlockContents);
    var _ := p.Eat(RCurly);
    p.Complete(m, Error);
  }

  /**
   * `error_block` wraps the whole braced region in one ERROR node, with the
   * message recorded before the opening brace; the closing brace is consumed
   * only if it is there.
   */
  lemma ErrorBlockShape(p: Parser, s: Progress, message: string)
    requires p.KindAt(s.pos) == LCurly
    ensures var body := p.callees(ExprBlockContents, s.pos + 1);
      var close := s.pos + 1 + body.consumed;
      var head := s.events + [Start(Error), ErrorMsg(Text(message)), Token(LCurly, 1)] + body.events;
      (p.KindAt(close) == RCurly ==>
        ErrorBlockRun(p, s, message) == Progress(close + 1, head + [Token(RCurly, 1), Finish]))
      && (p.KindAt(close) != RCurly ==>
        ErrorBlockRun(p, s, message) == Progress(close, head + [Finish]))
  {
    var body := p.callees(ExprBlockContents, s.pos + 1);
    var close := s.pos + 1 + body.consumed;
    if p.KindAt(close) == RCurly {
      NodeOfTwoThenOne(s.events, ErrorMsg(Text(message)), Token(LCurly, 1), body.events, Token(RCurly, 1), Error);
    } else {
      NodeOfTwoThen(s.events, ErrorMsg(Text(message)), Token(LCurly, 1), body.events, Error);
    }
  }

  lemma ErrorBlockNode(p: Parser, s: Progress, message: string)
    requires p.CalleesHonest() && p.KindAt(s.pos) == LCurly
    ensures Keeps(s, ErrorBlockRun(p, s, message))
    ensures AppendsNode(s.events, ErrorBlockRun(p, s, message).events, Error)
  {
    var s0 := p.StartStep(s);
    var e := p.ErrorStep(s0, Text(message));
    var s1 := p.BumpStep(e, LCurly);
    var s2 := p.InvokeStep(s1, ExprBlockContents);
    ErrorKeeps(p, s0, Text(message));
    BumpKeeps(p, e, LCurly);
    InvokeKeeps(p, s1, ExprBlockContents);
    EatKeeps(p, s2, RCurly);
    KeepsTrans(s0, e, s1);
    KeepsTrans(s0, s1, s2);
    KeepsTrans(s0, s2, p.EatStep(s2, RCurly));
    NodeKeeps(p, s, p.EatStep(s2, RCurly), Error);
  }
}
