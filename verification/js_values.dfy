/** JavaScript values as far as the filter needs to tell them apart.

    The library asks three questions of a value: is it a plain object, is it a
    function, is it an array. Each question is answered by the constructor tag,
    so no runtime type reflection is modelled. The fourth question, whether the
    whitelist option is a string, is answered by the `KeyString` tag of
    `Config.Permitted`.
 */
module JsValues {

  /** A JavaScript value. Functions are known only by an identity tag. */
  datatype Value =
    | Undefined
    | Null
    | Bool(b: bool)
    | Num(n: int)
    | Str(s: string)
    | Fn(id: nat)
    | Arr(items: seq<Value>)
    | Plain(fields: map<string, Value>)

  /** An object seen as its own enumerable properties. */
  type Object = map<string, Value>

  predicate IsPlainObject(v: Value) { v.Plain? }

  predicate IsFunction(v: Value) { v.Fn? }

  predicate IsArray(v: Value) { v.Arr? }

  /** The properties a value offers when it is read as a source object.
      Only a plain object has any in this model. */
  function Properties(v: Value): (m: Object)
    ensures IsPlainObject(v) ==> m == v.fields
    ensures !IsPlainObject(v) ==> |m| == 0
  {
    if v.Plain? then v.fields else map[]
  }
}
