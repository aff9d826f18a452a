/**
 The slice of Ruby's value universe the authorization core touches.

 The core never inspects a value beyond comparing it with the literal `true`,
 so a small closed set of shapes is enough to state every property: `True`
 is the success marker, and every other shape -- `False` and `Nil` included --
 is a denial reason when it comes back from a policy or a validator.
 */
module Ruby {

  /** Symbols (`:show`, `:bar`) name actions and keyword arguments. */
  type Symbol = string

  datatype Value =
    | True
    | False
    | Nil
    | Sym(name: Symbol)
    | Str(text: string)
    | Int(n: int)
    | Obj(id: nat)   // any other object, identified by its object id

  /** Positional arguments of a call (`*args`). */
  type Args = seq<Value>

  /** Keyword arguments of a call (`**kwargs`), keyed by symbol. */
  type Kwargs = map<Symbol, Value>

  /** A Ruby block. It receives the argument list it is called with, so
      `block.call` is `block([])` and `block.call(reason)` is `block([reason])`. */
  type Block = Args -> Value

  /** An optional value: a block that may not be given, a call that may not happen. */
  datatype Option<+T> = None | Some(value: T)
}
