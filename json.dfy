/** The loosely typed payload a client sends as `score_modifiers`: a JSON-like
    value as a Python client builds it out of dicts, lists, strings and numbers. */
module Json {

  /** A JSON-like value. Python integers and floats are both `Num`; a dict is
      `Obj`, whose keys are unique as Python's are. */
  datatype Json =
    | Null
    | Num(n: real)
    | Str(s: string)
    | List(items: seq<Json>)
    | Obj(fields: map<string, Json>)
}
