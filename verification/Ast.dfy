/** Syntax trees of the Bantu language, positions erased. */
module Ast {
  import opened Tokens

  datatype Expr =
    | Number(number: real)
    | Str(text: string)
    | Bool(truth: bool)
    | Null
    | List(elements: seq<Expr>)
    | Dict(pairs: seq<Pair>)
    | Variable(name: string)
    | Assign(target: string, value: Expr)
    | IndexAssign(obj: Expr, index: Expr, value: Expr)
    | DictAssign(obj: Expr, key: string, value: Expr)
    | Binary(op: TokenType, left: Expr, right: Expr)
    | Unary(op: TokenType, operand: Expr)
    | Call(callee: Expr, args: seq<Expr>)
    | Dot(obj: Expr, property: string)
    | Index(obj: Expr, index: Expr)
    | Super(args: seq<Expr>)

  datatype Pair = Pair(key: string, value: Expr)

  /** `Bare` is the node both `break` and `continue` are parsed to. */
  datatype Stmt =
    | ExprStmt(expr: Expr)
    | VarDecl(annotation: string, name: string, init: Expr)
    | If(condition: Expr, body: seq<Stmt>, elseBody: seq<Stmt>)
    | While(condition: Expr, body: seq<Stmt>)
    | For(start: Stmt, condition: Expr, update: Stmt, body: seq<Stmt>)
    | Each(varName: string, iterable: Expr, body: seq<Stmt>)
    | FuncDecl(name: string, params: seq<string>, body: seq<Stmt>)
    | Return(result: Expr)
    | Print(shown: Expr)
    | TryCatch(tryBody: seq<Stmt>, catchVar: string, catchBody: seq<Stmt>)
    | ClassDecl(name: string, parentClass: string, implementsClasses: seq<string>, body: seq<Stmt>)
    | Bare
}
