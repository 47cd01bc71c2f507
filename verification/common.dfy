/** Values shared by the client and the endpoint services: Go's fixed-width
    integers, bytes, the loosely typed values handed to a request's parameter
    maps, and the two kinds of error the client reports. */
module Common {

  datatype Option<+T> = None | Some(value: T) {
    function GetOr(default: T): T {
      if Some? then value else default
    }

    function Map<U>(f: T -> U): Option<U> {
      if Some? then Some(f(value)) else None
    }
  }

  /** Go's int64. */
  newtype int64 = x: int | -0x8000_0000_0000_0000 <= x < 0x8000_0000_0000_0000

  newtype byte = x: int | 0 <= x < 256

  type Bytes = seq<byte>

  /** A value as passed to `setParam` or put into a `params` map, before the
      request renders it as text. `Ref` marks a value passed by pointer: the
      model records that it was a pointer and what it points to, and makes no
      claim about how it is rendered. */
  datatype Value =
    | Str(s: string)
    | Int(i: int)
    | Bool(b: bool)
    | Ref(target: Value)

  /** A parameter map (`url.Values` after `Set`): one value per key. */
  type Params = map<string, Value>

  /** An HTTP header: each name holds a list of values. */
  type Header = map<string, seq<string>>

  /** The structured error body the exchange sends with a failing status. */
  datatype APIError = APIError(code: int64, message: string)

  datatype Error =
    | Failure(reason: string)   // an error handed up unchanged from a library call
    | Api(apiError: APIError)   // a response with status 400 or above
}
