/**
 * Choosing the rule that can re-parse one node of an edited tree on its own,
 * from the node's kind, its first child and its parent.
 */
module Reparse {
  import opened Syntax

  /** The rules that can parse a node without knowing what surrounds it. */
  datatype Rule =
    | ParseBlockExpr | ParseRecordFieldList | ParseRecordExprFieldList | ParseVariantList
    | ParseMatchArmList | ParseUseTreeList | ParseExternItemList | ParseTokenTree
    | ParseAssocItemList | ParseItemList

  /** The kind of node a rule builds. */
  function Builds(rule: Rule): Kind {
    match rule
    case ParseBlockExpr => BlockExpr
    case ParseRecordFieldList => RecordFieldList
    case ParseRecordExprFieldList => RecordExprFieldList
    case ParseVariantList => VariantList
    case ParseMatchArmList => MatchArmList
    case ParseUseTreeList => UseTreeList
    case ParseExternItemList => ExternItemList
    case ParseTokenTree => TokenTree
    case ParseAssocItemList => AssocItemList
    case ParseItemList => ItemList
  }

  /** Node kinds whose rule needs no context at all. */
  predicate ContextFree(k: Kind) {
    k in {BlockExpr, RecordFieldList, RecordExprFieldList, VariantList,
          MatchArmList, UseTreeList, ExternItemList, ItemList}
  }

  /** The node can be re-parsed: context-free, a brace-delimited token tree, or the body of an impl or trait. */
  predicate Reparsable(node: Kind, firstChild: Option<Kind>, parent: Option<Kind>) {
    || ContextFree(node)
    || (node == TokenTree && firstChild == Some(LCurly))
    || (node == AssocItemList && (parent == Some(Impl) || parent == Some(Trait)))
  }

  function Reparser(node: Kind, firstChild: Option<Kind>, parent: Option<Kind>): (r: Option<Rule>)
    ensures r.Some? <==> Reparsable(node, firstChild, parent)
    ensures r.Some? ==> Builds(r.value) == node
  {
    if node == BlockExpr then Some(ParseBlockExpr)
    else if node == RecordFieldList then Some(ParseRecordFieldList)
    else if node == RecordExprFieldList then Some(ParseRecordExprFieldList)
    else if node == VariantList then Some(ParseVariantList)
    else if node == MatchArmList then Some(ParseMatchArmList)
    else if node == UseTreeList then Some(ParseUseTreeList)
    else if node == ExternItemList then Some(ParseExternItemList)
    else if node == TokenTree then
      if firstChild == Some(LCurly) then Some(ParseTokenTree) else None
    else if node == AssocItemList then
      if parent.None? then None
      else if parent.value == Impl || parent.value == Trait then Some(ParseAssocItemList)
      else None
    else if node == ItemList then Some(ParseItemList)
    else None
  }

  /** Different rules build different kinds, so the chosen rule is fixed by the node's kind. */
  lemma BuildsInjective(a: Rule, b: Rule)
    ensures Builds(a) == Builds(b) ==> a == b
  {
  }

  /** A context-free node gets its rule whatever its first child and parent are. */
  lemma ContextIgnored(node: Kind, c1: Option<Kind>, p1: Option<Kind>, c2: Option<Kind>, p2: Option<Kind>)
    requires ContextFree(node)
    ensures Reparser(node, c1, p1) == Reparser(node, c2, p2)
    ensures Reparser(node, c1, p1).Some?
  {
    var r1 := Reparser(node, c1, p1);
    var r2 := Reparser(node, c2, p2);
    BuildsInjective(r1.value, r2.value);
  }

  /** Every rule is chosen for the kind it builds, in a suitable context. */
  lemma EveryRuleReached(rule: Rule)
    ensures Reparser(Builds(rule), Some(LCurly), Some(Impl)) == Some(rule)
  {
    BuildsInjective(Reparser(Builds(rule), Some(LCurly), Some(Impl)).value, rule);
  }

  /** A token tree delimited by parentheses or brackets is not re-parsed on its own. */
  lemma TokenTreeNeedsBrace(firstChild: Option<Kind>, parent: Option<Kind>)
    ensures Reparser(TokenTree, firstChild, parent) == Some(ParseTokenTree) <==> firstChild == Some(LCurly)
    ensures Reparser(TokenTree, firstChild, parent) != Some(ParseTokenTree) ==> Reparser(TokenTree, firstChild, parent) == None
  {
  }

  /** An associated-item list is re-parsed only as the body of an impl or a trait. */
  lemma AssocItemListNeedsOwner(firstChild: Option<Kind>, parent: Option<Kind>)
    ensures Reparser(AssocItemList, firstChild, parent).Some? <==> parent == Some(Impl) || parent == Some(Trait)
  {
  }
}
