/** Small value types shared by every module of the model. */
module Wrappers {
  /** An optional value, used for Python's `None`. */
  datatype Option<+T> = None | Some(value: T)
}

/**
 * JSON values, as far as the orchestration needs them: tool input schemas are
 * passed through unchanged and parsed tool arguments are forwarded unchanged,
 * so nothing here inspects their structure.
 */
module JsonValues {
  datatype Json =
    | Null
    | Bool(b: bool)
    | Number(n: int)
    | Str(s: string)
    | Array(items: seq<Json>)
    | Object(members: seq<(string, Json)>)
}
