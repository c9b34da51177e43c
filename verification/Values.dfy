/** Values of the Bantu language, and everything the evaluator can change. */
module Values {
  import opened Options
  import opened Ast

  /** The body of a function with the scope it was declared in. */
  datatype Code = Code(name: string, params: seq<string>, body: seq<Stmt>, closure: nat)

  /**
   * Lists are copied with their value. Dictionaries, class definitions and instances are shared: the value
   * holds an index into the store. A native function is known by its name and the receiver bound to it.
   */
  datatype Value =
    | NullV
    | NumberV(number: real)
    | StringV(text: string)
    | BoolV(truth: bool)
    | FunctionV(code: Code)
    | NativeV(name: string, receiver: seq<Value>)
    | InstanceV(at: nat)
    | ClassV(at: nat)
    | ObjectV(at: nat)
    | ListV(items: seq<Value>)

  type Record = map<string, Value>

  datatype Scope = Scope(vars: Record, parent: Option<nat>)

  datatype ClassDef = ClassDef(name: string, methods: Record, parent: Option<nat>, impls: seq<nat>)

  datatype Instance = Instance(definition: nat, properties: Record)

  datatype State = State(
    scopes: seq<Scope>, env: nat,
    objects: seq<Record>, classes: seq<ClassDef>, instances: seq<Instance>,
    registry: map<string, nat>, current: string,
    log: seq<string>, errors: nat)

  /**
   * What the program meets outside the language: native functions, which may read and write dictionaries,
   * the text of numbers that are not whole, and the order in which the keys of a dictionary are walked.
   */
  datatype Host = Host(
    call: (string, seq<Value>, seq<Value>, seq<Record>) -> (Value, seq<Record>),
    number: real -> string,
    order: set<string> -> seq<string>)

  /**
   * How the evaluation of a node ends. `Returned` is a `return` on its way to the call. `Dangling` is an
   * index that leads nowhere. `Crash` is the use of a native function as one written in the language.
   * `Endless` is the rendering of a value, with these dictionaries, that never comes back.
   */
  datatype Outcome<T> =
    | Timeout
    | Endless(shown: Value, objects: seq<Record>)
    | Dangling
    | Crash
    | Returned(value: Value, state: State)
    | Done(result: T, state: State)
  {
    predicate IsFailure() { !Done? }

    function PropagateFailure<U>(): Outcome<U>
      requires IsFailure()
    {
      match this
      case Timeout => Timeout
      case Endless(v, objects) => Endless(v, objects)
      case Dangling => Dangling
      case Crash => Crash
      case Returned(v, s) => Returned(v, s)
    }

    function Extract(): Outcome<T>
      requires !IsFailure()
    {
      this
    }
  }

  /** The number field of a value, 0 unless it is a number. */
  function NumberOf(v: Value): real {
    if v.NumberV? then v.number else 0.0
  }

  predicate Truthy(v: Value, objects: seq<Record>) {
    match v
    case NullV => false
    case NumberV(n) => n != 0.0
    case StringV(t) => t != ""
    case BoolV(b) => b
    case FunctionV(_) => true
    case NativeV(_, _) => true
    case InstanceV(_) => true
    case ClassV(_) => true
    case ObjectV(o) => o < |objects| && objects[o] != map[]
    case ListV(items) => items != []
  }

  predicate Equal(a: Value, b: Value) {
    || (a.NumberV? && b.NumberV? && a.number == b.number)
    || (a.StringV? && b.StringV? && a.text == b.text)
    || (a.BoolV? && b.BoolV? && a.truth == b.truth)
    || (a.NullV? && b.NullV?)
    || (a.NumberV? && b.BoolV? && (a.number != 0.0) == b.truth)
    || (a.BoolV? && b.NumberV? && a.truth == (b.number != 0.0))
  }

  /** Conversion of a number to an integer, towards zero. */
  function Truncate(r: real): int {
    if r >= 0.0 then r.Floor else -(-r).Floor
  }
}
