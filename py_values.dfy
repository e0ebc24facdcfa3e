/** Python values as the device's JSON replies deliver them, Python's
    exceptions as a Result, and the remote call handed to the device. */
module Py {

  /** A value received from (or sent to) the device. Floats are carried as
      reals; their rounding is not modelled. */
  datatype Value =
    | Null
    | Bool(b: bool)
    | Int(i: int)
    | Float(x: real)
    | Str(s: string)
    | List(items: seq<Value>)

  /** The exceptions the modelled code can raise. */
  datatype Exception =
    | KeyError(key: Value)
    | ValueError
    | TypeError
    | IndexError
    | PowerStripException(price: int)

  /** Either a returned value or a raised exception. */
  datatype Result<+T> = Ok(value: T) | Raise(error: Exception)

  datatype Option<+T> = None | Some(value: T)

  /** A call `send(name, params)` handed to the device transport. */
  datatype Call = Call(name: string, params: seq<Value>)

  function Min(a: int, b: int): int { if a < b then a else b }

  /** `s[lo:hi]` for non-negative bounds: both ends clamp to the length. */
  function Slice<T>(s: seq<T>, lo: nat, hi: nat): (r: seq<T>)
    ensures |r| == if lo < Min(hi, |s|) then Min(hi, |s|) - lo else 0
    ensures forall i :: 0 <= i < |r| ==> r[i] == s[lo + i]
  {
    var h := Min(hi, |s|);
    if lo < h then s[lo..h] else []
  }

  /** `data[i]` on a list: IndexError past the end. */
  function Index(data: seq<Value>, i: nat): (r: Result<Value>)
    ensures r.Ok? <==> i < |data|
    ensures r.Ok? ==> r.value == data[i]
    ensures r.Raise? ==> r.error == IndexError
  {
    if i < |data| then Ok(data[i]) else Raise(IndexError)
  }

  /** `v[lo:hi]`: strings and lists slice, every other value raises TypeError. */
  function SliceOf(v: Value, lo: nat, hi: nat): (r: Result<Value>)
    ensures r.Raise? <==> !(v.Str? || v.List?)
    ensures r.Raise? ==> r.error == TypeError
    ensures v.Str? ==> r == Ok(Str(Slice(v.s, lo, hi)))
    ensures v.List? ==> r == Ok(List(Slice(v.items, lo, hi)))
  {
    match v
    case Str(s) => Ok(Str(Slice(s, lo, hi)))
    case List(items) => Ok(List(Slice(items, lo, hi)))
    case _ => Raise(TypeError)
  }
}
