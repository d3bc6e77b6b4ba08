/**
 The syntax trees of Marius that the model covers, the result of scope analysis as the
 compiler reads it, and the instruction numbering.
 */
module Ast {

  datatype Option<+T> = None | Some(value: T)

  /** Nodes of the tree. `id` stands for the address of a node that the local map is keyed by. */
  datatype Node =
    | Seq(first: Node, second: Node)
    | Number(val: int)
    | Nil
    | True
    | False
    | LiteralString(str: string)
    | Self(id: nat)
    | Named(id: nat, name: string)
    | Assign(id: nat, name: string, value: Node)
    | AssignOp(id: nat, name: string, op: string, value: Node)
    | Not(value: Node)
    | And(left: Node, right: Node)
    | IfCond(cond: Node, body: Node, ebody: Option<Node>)
    | Unless(cond: Node, body: Node)
    | While(cond: Node, body: Node)
    | Tuple(args: Nodes)
    | List(args: Nodes)
    | Send(id: nat, name: string, selfLess: bool, recv: Node, args: Nodes)
    | Raise(value: Node)
    | Try(id: nat, body: Node, handler: Node, excName: Option<string>, excType: Option<Node>)
    | Return(value: Node)
    | Lambda(scope: Scope)
    | Def(name: string, scope: Scope)

  datatype Nodes = NoNodes | More(head: Node, rest: Nodes)

  function Count(ns: Nodes): nat {
    match ns
    case NoNodes => 0
    case More(_, rest) => 1 + Count(rest)
  }

  /** An argument's position is its index in `args`; `self` sits at position -1 of a frame. */
  datatype Argument = Argument(id: nat, name: string)

  datatype Scope = Scope(id: nat, args: seq<Argument>, self: Option<Argument>, body: Node)

  /** Where a variable lives: a register of its frame, or a slot `depth` closures up. */
  datatype Loc = Reg(reg: int) | Clo(depth: int, slot: int)

  /**
   The result of scope analysis: a place for every resolved node, and for every scope the number
   of register locals (`locals().size()`) and of closed-over locals (`cov()`).
   */
  datatype Layout = Layout(places: map<nat, Loc>, locals: map<nat, nat>, covs: map<nat, nat>)
  {
    function At(id: nat): Option<Loc> {
      if id in places then Some(places[id]) else None
    }

    function Locals(s: Scope): nat {
      if s.id in locals then locals[s.id] else 0
    }

    function Cov(s: Scope): nat {
      if s.id in covs then covs[s.id] else 0
    }
  }

  /** How a scope becomes a code object: the file body, a method body, or a block. */
  datatype Kind = Top | Method | Block

  /** First temporary register of a code object. */
  function TempBase(lay: Layout, s: Scope, k: Kind): nat {
    match k
    case Top => lay.Locals(s)
    case Method => |s.args| + lay.Locals(s)
    case Block => lay.Locals(s)
  }

  const MOVI8 := 0
  const MOVI32 := 1
  const MOVR := 2
  const MOVN := 3
  const MOVT := 4
  const MOVF := 5
  const SEND := 6
  const RET := 11
  const LOADS := 12
  const LOADC := 13
  const SELF := 14
  const JMPF := 15
  const JMPB := 16
  const JMPIT := 17
  const JMPIF := 18
  const REGE := 19
  const POPE := 20
  const LVAR := 21
  const SVAR := 22
  const RAISE := 25
  const NOT := 26
  const TUPLE := 27
  const LIST := 28
  const LRET := 29
}
