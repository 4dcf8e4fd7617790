/**
 * The values Express hands a handler in `req.query`: a parameter is absent, a
 * string, an array of strings (the parameter repeated), or a nested object
 * (bracket syntax such as `state[a]=x`).
 */
module QueryParams {

  import opened Text
  import opened Records

  datatype Param = Missing | Str(s: string) | List(items: seq<string>) | Nested {

    /** JavaScript truthiness: an absent value and the empty string are falsy; arrays and objects are not. */
    predicate Truthy() {
      match this
      case Missing => false
      case Str(s) => s != ""
      case List(_) => true
      case Nested => true
    }

    /** `typeof p === 'string'`. */
    predicate IsString() {
      Str?
    }

    /**
     * The string a value becomes where JavaScript coerces it (a `RegExp` test,
     * `new Date(…)`): an array joins its items with `,` and an object prints as
     * `[object Object]`. An absent value is never coerced by the callers.
     */
    function AsString(): (r: string)
      ensures Str? ==> r == s
      ensures List? && |items| == 1 ==> r == items[0]
    {
      match this
      case Missing => "undefined"
      case Str(s) => s
      case List(items) => Join(items, ",")
      case Nested => "[object Object]"
    }
  }

  /** The parameters the groundwater query reads. */
  datatype Query = Query(state: Param, district: Param, village: Param, pinCode: Param, fromDate: Param, toDate: Param)

  /** What `new Date(text)` makes of a string: whether it is a valid time, and which. */
  datatype DateParser = DateParser(valid: string -> bool, value: string -> Date)
}
