/**
 * Top-level entry points: a whole source file, and the statement or item
 * lists a macro expands to. Each wraps everything it parses in one node.
 */
module EntryTop {
  import opened Syntax
  import opened Events
  import opened Parsing

  // ---- source file ----

  function SourceFileRun(p: Parser, s: Progress): Progress {
    var s1 := p.InvokeStep(p.EatStep(p.StartStep(s), Shebang), ModContents(false));
    p.CompleteStep(s1, Marker(|s.events|), Syntax.SourceFile)
  }

  method SourceFile(p: Parser)
    modifies p
    ensures p.Now() == SourceFileRun(p, old(p.Now()))
  {
    var m := p.Start();
    var _ := p.Eat(Shebang);
    p.Invoke(ModContents(false));
    p.Complete(m, Syntax.SourceFile);
  }

  /** A leading shebang, if there is one, then the module's items, all in one SOURCE_FILE node. */
  lemma SourceFileShape(p: Parser, s: Progress)
    ensures p.KindAt(s.pos) == Shebang ==>
      var items := p.callees(ModContents(false), s.pos + 1);
      SourceFileRun(p, s) == Progress(s.pos + 1 + items.consumed,
                                      s.events + [Start(Syntax.SourceFile), Token(Shebang, 1)] + items.events + [Finish])
    ensures p.KindAt(s.pos) != Shebang ==>
      var items := p.callees(ModContents(false), s.pos);
      SourceFileRun(p, s) == Progress(s.pos + items.consumed,
                                      s.events + [Start(Syntax.SourceFile)] + items.events + [Finish])
  {
    if p.KindAt(s.pos) == Shebang {
      NodeOfOneThen(s.events, Token(Shebang, 1), p.callees(ModContents(false), s.pos + 1).events, Syntax.SourceFile);
    } else {
      Retagged(s.events, p.callees(ModContents(false), s.pos).events, Syntax.SourceFile);
    }
  }

  lemma SourceFileNode(p: Parser, s: Progress)
    requires p.CalleesHonest()
    ensures Keeps(s, SourceFileRun(p, s))
    ensures AppendsNode(s.events, SourceFileRun(p, s).events, Syntax.SourceFile)
  {
    var s0 := p.StartStep(s);
    var s1 := p.EatStep(s0, Shebang);
    EatKeeps(p, s0, Shebang);
    InvokeKeeps(p, s1, ModContents(false));
    KeepsTrans(s0, s1, p.InvokeStep(s1, ModContents(false)));
    NodeKeeps(p, s, p.InvokeStep(s1, ModContents(false)), Syntax.SourceFile);
  }

  // ---- macro statements ----

  /** Parsing a statement consumes input from every position that is not at the end. */
  ghost predicate StmtAdvances(p: Parser) {
    forall i: nat :: p.KindAt(i) != Eof ==> p.callees(Stmt(Optional, true), i).consumed > 0
  }

  /** The loop of `macro_stmts`: a stray `;` is consumed on its own, anything else starts a statement. */
  function StmtsRun(p: Parser, s: Progress): (r: Progress)
    requires StmtAdvances(p)
    ensures p.KindAt(r.pos) == Eof
    ensures s.pos <= r.pos && s.events <= r.events
    decreases |p.tokens| - s.pos
  {
    if p.KindAt(s.pos) == Eof then
      s
    else if p.KindAt(s.pos) == Semicolon then
      StmtsRun(p, p.BumpStep(s, Semicolon))
    else
      StmtsRun(p, p.InvokeStep(s, Stmt(Optional, true)))
  }

  function MacroStmtsRun(p: Parser, s: Progress): Progress
    requires StmtAdvances(p)
  {
    p.CompleteStep(StmtsRun(p, p.StartStep(s)), Marker(|s.events|), Syntax.MacroStmts)
  }

  method MacroStmts(p: Parser)
    requires StmtAdvances(p)
    modifies p
    ensures p.Now() == MacroStmtsRun(p, old(p.Now()))
  {
    var m := p.Start();
    ghost var first := p.Now();
    while !p.At(Eof)
      invariant StmtsRun(p, p.Now()) == StmtsRun(p, first)
      decreases |p.tokens| - p.pos
    {
      if p.At(Semicolon) {
        p.Bump(Semicolon);
        continue;
      }
      p.Invoke(Stmt(Optional, true));
    }
    p.Complete(m, Syntax.MacroStmts);
  }

  lemma {:induction false} StmtsKeeps(p: Parser, s: Progress)
    requires StmtAdvances(p) && p.CalleesHonest()
    ensures Keeps(s, StmtsRun(p, s))
    decreases |p.tokens| - s.pos
  {
    if p.KindAt(s.pos) == Eof {
      KeepsRefl(s);
    } else if p.KindAt(s.pos) == Semicolon {
      var s1 := p.BumpStep(s, Semicolon);
      BumpKeeps(p, s, Semicolon);
      StmtsKeeps(p, s1);
      KeepsTrans(s, s1, StmtsRun(p, s1));
    } else {
      var s1 := p.InvokeStep(s, Stmt(Optional, true));
      InvokeKeeps(p, s, Stmt(Optional, true));
      StmtsKeeps(p, s1);
      KeepsTrans(s, s1, StmtsRun(p, s1));
    }
  }

  /**
   * `macro_stmts` runs to the end of input and wraps everything it parsed
   * in exactly one MACRO_STMTS node.
   */
  lemma MacroStmtsNode(p: Parser, s: Progress)
    requires StmtAdvances(p) && p.CalleesHonest()
    ensures p.KindAt(MacroStmtsRun(p, s).pos) == Eof
    ensures Keeps(s, MacroStmtsRun(p, s))
    ensures AppendsNode(s.events, MacroStmtsRun(p, s).events, Syntax.MacroStmts)
  {
    StmtsKeeps(p, p.StartStep(s));
    NodeKeeps(p, s, StmtsRun(p, p.StartStep(s)), Syntax.MacroStmts);
  }

  /** `n` stray semicolons, each its own token. */
  function Semicolons(n: nat): (r: seq<Event>)
    ensures |r| == n
  {
    if n == 0 then [] else [Token(Semicolon, 1)] + Semicolons(n - 1)
  }

  /** Input made only of semicolons is consumed one semicolon at a time, with no statement parsed. */
  lemma {:induction false} StmtsOfSemicolons(p: Parser, s: Progress)
    requires StmtAdvances(p) && s.pos <= |p.tokens|
    requires forall j :: s.pos <= j < |p.tokens| ==> p.tokens[j].kind == Semicolon
    ensures StmtsRun(p, s) == Progress(|p.tokens|, s.events + Semicolons(|p.tokens| - s.pos))
    decreases |p.tokens| - s.pos
  {
    if s.pos == |p.tokens| {
      assert s.events + [] == s.events;
    } else {
      var s1 := p.BumpStep(s, Semicolon);
      StmtsOfSemicolons(p, s1);
      MoreSemicolons(s.events, |p.tokens| - s1.pos);
    }
  }

  /** One more semicolon in front of a run of semicolons. */
  lemma MoreSemicolons(before: seq<Event>, n: nat)
    ensures before + [Token(Semicolon, 1)] + Semicolons(n) == before + Semicolons(n + 1)
  {
  }

  // ---- macro items ----

  function MacroItemsRun(p: Parser, s: Progress): Progress {
    p.CompleteStep(p.InvokeStep(p.StartStep(s), ModContents(false)), Marker(|s.events|), Syntax.MacroItems)
  }

  method MacroItems(p: Parser)
    modifies p
    ensures p.Now() == MacroItemsRun(p, old(p.Now()))
  {
    var m := p.Start();
    p.Invoke(ModContents(false));
    p.Complete(m, Syntax.MacroItems);
  }

  /** The items of a macro expansion, in one MACRO_ITEMS node. */
  lemma MacroItemsShape(p: Parser, s: Progress)
    ensures var items := p.callees(ModContents(false), s.pos);
      MacroItemsRun(p, s) == Progress(s.pos + items.consumed, s.events + [Start(Syntax.MacroItems)] + items.events + [Finish])
  {
    Retagged(s.events, p.callees(ModContents(false), s.pos).events, Syntax.MacroItems);
  }
}

/**
 * Entry points for parsing a fragment of a given kind, each delegating to
 * the rule for that kind.
 */
module EntryPrefix {
  import opened Parsing
  import Grammar

  method Vis(p: Parser)
    modifies p
    ensures p.Now() == Grammar.VisibilityRun(p, old(p.Now()), false)
  {
    var _ := Grammar.OptVisibility(p, false);
  }

  method Block(p: Parser)
    modifies p
    ensures p.Now() == p.InvokeStep(old(p.Now()), BlockExpr)
  {
    p.Invoke(BlockExpr);
  }

  method Stmt(p: Parser)
    modifies p
    ensures p.Now() == p.InvokeStep(old(p.Now()), Callee.Stmt(No, true))
  {
    p.Invoke(Callee.Stmt(No, true));
  }

  method Pat(p: Parser)
    modifies p
    ensures p.Now() == p.InvokeStep(old(p.Now()), PatternSingle)
  {
    p.Invoke(PatternSingle);
  }

  method Ty(p: Parser)
    modifies p
    ensures p.Now() == p.InvokeStep(old(p.Now()), Type)
  {
    p.Invoke(Type);
  }

  method Expr(p: Parser)
    modifies p
    ensures p.Now() == p.InvokeStep(old(p.Now()), Callee.Expr)
  {
    p.Invoke(Callee.Expr);
  }

  method Path(p: Parser)
    modifies p
    ensures p.Now() == p.InvokeStep(old(p.Now()), TypePath)
  {
    p.Invoke(TypePath);
  }

  method Item(p: Parser)
    modifies p
    ensures p.Now() == p.InvokeStep(old(p.Now()), ItemOrMacro(true))
  {
    p.Invoke(ItemOrMacro(true));
  }

  method MetaItem(p: Parser)
    modifies p
    ensures p.Now() == p.InvokeStep(old(p.Now()), Meta)
  {
    p.Invoke(Meta);
  }
}
