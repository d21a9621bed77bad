/** Stock result types and the JSON values that the Explorer's two programs exchange. */
module Common {

  datatype Option<+T> = None | Some(value: T)

  datatype Result<+T, +E> = Ok(value: T) | Err(error: E)

  type Byte = b: int | 0 <= b < 256

  /**
   A decoded JSON value. `Str` holds Unicode scalar values; a decoded string that contains
   a lone surrogate cannot be encoded as UTF-8, and only its identity is ever compared, so it
   is its own constructor.
   */
  datatype Json =
    | Null
    | Bool(b: bool)
    | Int(n: int)
    | Float
    | Str(s: string)
    | LoneSurrogate(id: nat)
    | Arr(items: seq<Json>)
    | Obj(fields: map<string, Json>)
  {
    /** `dict.get`: a missing key reads as null. */
    function Get(key: string): Json
      requires Obj?
    {
      if key in fields then fields[key] else Null
    }

    predicate IsString() {
      Str? || LoneSurrogate?
    }

    /** `value is True`. */
    predicate IsTrue() {
      this == Bool(true)
    }

    predicate IsFalse() {
      this == Bool(false)
    }
  }
}
