/** JSON-like Python values: the dictionaries that yt-dlp, GitHub's release
    API, the history file and the option bags pass around. */
module PyValues {
  import opened Wrappers
  import opened PyText

  datatype Value =
    | Null
    | Bool(b: bool)
    | Int(i: int)
    | Real(r: real)
    | Str(s: string)
    | List(items: seq<Value>)
    | Dict(entries: map<string, Value>)
      /** the bound progress-hook method a worker hands to yt-dlp */
    | ProgressHook

  type Dict = map<string, Value>

  /** `d.get(key)` */
  function Get(d: Dict, key: string): (v: Value)
    ensures key in d ==> v == d[key]
    ensures key !in d ==> v == Null
  {
    if key in d then d[key] else Null
  }

  /** `d.get(key, default)` */
  function GetOr(d: Dict, key: string, default: Value): (v: Value)
    ensures key in d ==> v == d[key]
    ensures key !in d ==> v == default
  {
    if key in d then d[key] else default
  }

  /** Python truthiness, `bool(v)`. */
  predicate Truthy(v: Value) {
    match v
    case Null => false
    case Bool(b) => b
    case Int(i) => i != 0
    case Real(r) => r != 0.0
    case Str(s) => s != []
    case List(xs) => xs != []
    case Dict(m) => m != map[]
    case ProgressHook => true
  }

  /** The number Python orders a value by when it compares it with `<`
      against other numbers (`bool` is an `int`); None for the values a
      comparison with a number rejects with TypeError. */
  function NumericKey(v: Value): Option<real> {
    match v
    case Int(i) => Some(i as real)
    case Real(r) => Some(r)
    case Bool(b) => Some(if b then 1.0 else 0.0)
    case _ => None
  }

  /** `f"{v}"` for None, booleans, integers and strings; floats and
      containers are not rendered by this model. */
  function Render(v: Value): string {
    match v
    case Null => "None"
    case Bool(b) => if b then "True" else "False"
    case Int(i) => IntToDecimal(i)
    case Str(s) => s
    case _ => "<unrendered>"
  }

  /** The Python exceptions the modelled code can raise on malformed data. */
  datatype PyError = TypeError | ValueError | AttributeError
}
