/** The dynamic values that cross the runtime's boundaries: JSON documents,
    configuration trees and metadata records, with Python's own notions of
    truth and of integers. */
module Values {

  datatype Option<+T> = None | Some(value: T) {
    function GetOrElse(default: T): T {
      if Some? then value else default
    }
  }

  /** Which Python exception a constructor raised. */
  datatype Fault = ValueError | TypeError | KeyError

  datatype Result<+T> = Ok(value: T) | Err(fault: Fault)

  /** A stored file: not parseable as JSON, or the document it holds. Files are replaced as a whole. */
  datatype File = Unreadable | Document(data: Value)

  type Files = map<string, File>

  /** Dictionary keys: JSON only has string keys, Python dictionaries have others too. */
  datatype Key = Name(text: string) | NonString(tag: int)

  datatype Value =
    | Null
    | Bool(flag: bool)
    | Int(number: int)
    | Float(quantity: real)
    | Str(text: string)
    | List(items: seq<Value>)
    | Tuple(parts: seq<Value>)
    | PySet(members: seq<Value>)
    | Dict(entries: map<Key, Value>)
  {
    /** `bool(value)`. */
    predicate Truthy() {
      match this
      case Null => false
      case Bool(b) => b
      case Int(n) => n != 0
      case Float(r) => r != 0.0
      case Str(s) => s != ""
      case List(xs) => xs != []
      case Tuple(xs) => xs != []
      case PySet(xs) => xs != []
      case Dict(m) => m != map[]
    }

    /** `isinstance(value, int)`, which holds of booleans as well. */
    predicate IsInt() {
      Int? || Bool?
    }

    function AsInt(): int
      requires IsInt()
    {
      match this
      case Int(n) => n
      case Bool(b) => if b then 1 else 0
    }

    /** `data.get(name)` on a mapping: an absent key and a null value look alike. */
    function Get(name: string): Value
      requires Dict?
    {
      GetOr(name, Null)
    }

    /** `data.get(name, default)`. */
    function GetOr(name: string, default: Value): Value
      requires Dict?
    {
      if Name(name) in entries then entries[Name(name)] else default
    }

    predicate Has(name: string)
      requires Dict?
    {
      Name(name) in entries
    }

    /** `value or default`. */
    function OrElse(default: Value): Value {
      if Truthy() then this else default
    }
  }

  /** `left == right`: numbers compare across int, bool and float. */
  predicate PyEqual(left: Value, right: Value) {
    if left.IsInt() && right.IsInt() then left.AsInt() == right.AsInt()
    else if left.IsInt() && right.Float? then left.AsInt() as real == right.quantity
    else if left.Float? && right.IsInt() then left.quantity == right.AsInt() as real
    else left == right
  }

  /** Decimal digits of a count, as an f-string prints it. */
  function Decimal(n: nat): (text: string)
    ensures text != ""
  {
    if n < 10 then ["0123456789"[n]] else Decimal(n / 10) + ["0123456789"[n % 10]]
  }

  function DecimalInt(n: int): string {
    if n < 0 then "-" + Decimal(-n) else Decimal(n)
  }

  function OptInt(v: Option<int>): Value {
    if v.Some? then Int(v.value) else Null
  }

  function OptStr(v: Option<string>): Value {
    if v.Some? then Str(v.value) else Null
  }
}
