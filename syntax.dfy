/** Token and node kinds and the raw token stream the grammar reads. */
module Syntax {

  datatype Option<T> = None | Some(value: T)

  /**
   * A syntax kind, identified by its code. The kinds this part of the grammar
   * mentions are named below; every other code stands for a kind it never
   * names.
   */
  newtype Kind = x: int | 0 <= x

  // special kinds
  const Tombstone: Kind := 0
  const Eof: Kind := 1

  // tokens
  const Shebang: Kind := 2
  const Semicolon: Kind := 3
  const Colon: Kind := 4
  const Colon2: Kind := 5
  const Minus: Kind := 6
  const RAngle: Kind := 7
  const ThinArrow: Kind := 8
  const LParen: Kind := 9
  const RParen: Kind := 10
  const LCurly: Kind := 11
  const RCurly: Kind := 12
  const LBrack: Kind := 13
  const RBrack: Kind := 14
  const Underscore: Kind := 15
  const Ident: Kind := 16
  const IntNumber: Kind := 17
  const String: Kind := 18
  const LifetimeIdent: Kind := 19
  const PubKw: Kind := 20
  const CrateKw: Kind := 21
  const SelfKw: Kind := 22
  const SuperKw: Kind := 23
  const InKw: Kind := 24
  const AsKw: Kind := 25
  const ExternKw: Kind := 26

  // nodes
  const SourceFile: Kind := 27
  const MacroStmts: Kind := 28
  const MacroItems: Kind := 29
  const BlockExpr: Kind := 30
  const RecordFieldList: Kind := 31
  const RecordExprFieldList: Kind := 32
  const VariantList: Kind := 33
  const MatchArmList: Kind := 34
  const UseTreeList: Kind := 35
  const ExternItemList: Kind := 36
  const TokenTree: Kind := 37
  const AssocItemList: Kind := 38
  const ItemList: Kind := 39
  const Impl: Kind := 40
  const Trait: Kind := 41
  const Visibility: Kind := 42
  const Rename: Kind := 43
  const Abi: Kind := 44
  const RetType: Kind := 45
  const Name: Kind := 46
  const NameRef: Kind := 47
  const Lifetime: Kind := 48
  const Error: Kind := 49

  /** `::` and `->` are not single lexer tokens: each is two joint raw tokens. */
  predicate IsComposite(k: Kind) {
    k == Colon2 || k == ThinArrow
  }

  /** The two raw kinds a composite token is glued from. */
  function Parts(k: Kind): (parts: (Kind, Kind))
    requires IsComposite(k)
    ensures !IsComposite(parts.0) && !IsComposite(parts.1)
  {
    if k == Colon2 then (Colon, Colon) else (Minus, RAngle)
  }

  /** Number of raw tokens one token of kind `k` spans. */
  function RawWidth(k: Kind): (n: nat)
    ensures 1 <= n <= 2
    ensures n == 2 <==> IsComposite(k)
  {
    if IsComposite(k) then 2 else 1
  }

  /** One lexer token: its kind, and whether it is immediately followed by the next token. */
  datatype RawToken = RawToken(kind: Kind, joint: bool)
}
