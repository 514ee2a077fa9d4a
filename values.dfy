/**
 * The loosely typed values that flow through the pipeline: what a CSV
 * reader, a spreadsheet reader or a JSON decoder hands over, and what a
 * table cell holds.
 */
module Values {
  import opened Text

  /** A raw or canonical value: None, a boolean, an integer, a string or a
      nested object (a dict with string keys). */
  datatype Value = Null | Bool(b: bool) | Num(n: int) | Str(s: string) | Obj(fields: map<string, Value>)

  /** A dict with string keys: a raw record, a canonical row, a table row. */
  type Record = map<string, Value>

  /** dict.get(key): the value stored under key, or None when it is absent. */
  function Get(r: Record, key: string): (v: Value)
    ensures key !in r ==> v == Null
    ensures key in r ==> v == r[key]
  {
    if key in r then r[key] else Null
  }

  /** str(v) as Python renders it. A nested object is rendered as the fixed
      text "{...}" (Python prints the dict's repr). */
  function AsText(v: Value): string
  {
    match v
    case Null => "None"
    case Bool(b) => if b then "True" else "False"
    case Num(n) => IntText(n)
    case Str(s) => s
    case Obj(_) => "{...}"
  }
}
