/** JavaScript values, backend replies and user notices shared by every page. */
module Wire {

  datatype Option<+T> = None | Some(value: T)

  /** The JavaScript values a field read from a reply or a record can hold. */
  datatype Value = Undefined | Null | Bool(b: bool) | Num(n: int) | Str(s: string)

  /** JavaScript falsiness: the values `x || d` replaces by `d`. */
  predicate Falsy(v: Value)
  {
    v == Undefined || v == Null || v == Bool(false) || v == Num(0) || v == Str("")
  }

  /** `v || d` */
  function Or(v: Value, d: Value): (r: Value)
    ensures Falsy(v) ==> r == d
    ensures !Falsy(v) ==> r == v
  {
    if Falsy(v) then d else v
  }

  /** The wire encoding of a permission flag: only the exact string "True" grants. */
  predicate IsTrueLiteral(v: Value)
  {
    v == Str("True")
  }

  /** A backend reply as a page sees it: `Failed` is a rejected request (no
      response, or a status outside 2xx, which axios turns into an error);
      `Http` is a resolved one, with the HTTP status, the body's `statusCode`
      field and the body's `data` field. */
  datatype Reply<T> = Failed | Http(status: int, statusCode: Value, data: T)

  /** The application-level success sentinel: `response.data.statusCode === "00"`. */
  predicate StatusIs00<T>(r: Reply<T>)
  {
    r.Http? && r.statusCode == Str("00")
  }

  /** `response.status === 200` */
  predicate HttpOk<T>(r: Reply<T>)
  {
    r.Http? && r.status == 200
  }

  /** What a handler shows the user: nothing, a fixed alert text, or an alert
      showing the reply's `data` field verbatim. */
  datatype Notice = Quiet | Alert(text: string) | AlertServerData

  function Max(a: int, b: int): int { if a < b then b else a }
  function Min(a: int, b: int): int { if a < b then a else b }
}
