/** Value types shared by the server model and the two client components. */
module Values {

  /** A decoded JSON value, as Python's json module or a browser hands it over. */
  datatype Json =
    | Null
    | Bool(b: bool)
    | Int(i: int)
    | Float(f: real)
    | Str(s: string)
    | Arr(items: seq<Json>)
    | Obj(fields: map<string, Json>)

  datatype Option<T> = None | Some(value: T)

  /** How an awaited network call settles, as the handler's try/catch sees it:
      the resolved value, or a rejection (whose detail is only logged). */
  datatype Outcome<T> = Success(value: T) | Failure
}
