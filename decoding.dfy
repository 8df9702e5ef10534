/**
 * The rules of the platform's JSON decoder that the records of the client
 * rely on: keyed containers, required and optional fields, strict `Int`
 * and `String` decodes and arrays. A failure is a `DecodeError` carrying the
 * coding path to the offending value, as the platform's `DecodingError` does.
 */
module Decoding {
  import opened Wrappers
  import opened Json
  import SwiftInt

  datatype PathItem = Key(name: string) | Index(position: nat)

  datatype ErrorKind = KeyNotFound | ValueNotFound | TypeMismatch | DataCorrupted

  datatype DecodeError = DecodeError(kind: ErrorKind, path: seq<PathItem>)

  /** An error raised inside a nested value, seen from the enclosing one. */
  function Within(prefix: seq<PathItem>, e: DecodeError): DecodeError {
    DecodeError(e.kind, prefix + e.path)
  }

  /** A readable rendering of a decode error, standing in for the platform's own text. */
  function Describe(e: DecodeError): string {
    KindName(e.kind) + " at '" + PathText(e.path) + "'"
  }

  function KindName(k: ErrorKind): string {
    match k
    case KeyNotFound => "keyNotFound"
    case ValueNotFound => "valueNotFound"
    case TypeMismatch => "typeMismatch"
    case DataCorrupted => "dataCorrupted"
  }

  function PathText(path: seq<PathItem>): string {
    if path == [] then ""
    else
      var head := match path[0]
        case Key(name) => "." + name
        case Index(position) => "[" + SwiftInt.DecimalString(position) + "]";
      head + PathText(path[1..])
  }

  /**
   * `decoder.container(keyedBy:)`: only an object has keyed members; null is
   * reported as a missing value and every other shape as a type mismatch.
   */
  function Container(v: Value): (r: Result<Object, DecodeError>)
    ensures r.Success? <==> v.JObj?
    ensures r.Success? ==> r.value == v.fields
    ensures r.Failure? ==> r.error.path == [] && (r.error.kind == ValueNotFound <==> v.JNull?)
    ensures r.Failure? && !v.JNull? ==> r.error.kind == TypeMismatch
  {
    match v
    case JObj(fields) => Success(fields)
    case JNull => Failure(DecodeError(ValueNotFound, []))
    case _ => Failure(DecodeError(TypeMismatch, []))
  }

  /** The failure for a required member that is absent, null or of another shape. */
  function MissingOrMismatch(obj: Object, key: string): (e: DecodeError)
    ensures e.path == [Key(key)]
    ensures e.kind == KeyNotFound <==> key !in obj
    ensures e.kind == ValueNotFound <==> key in obj && obj[key].JNull?
    ensures e.kind == TypeMismatch <==> key in obj && !obj[key].JNull?
  {
    if key !in obj then DecodeError(KeyNotFound, [Key(key)])
    else if obj[key].JNull? then DecodeError(ValueNotFound, [Key(key)])
    else DecodeError(TypeMismatch, [Key(key)])
  }

  /** `decode(String.self, forKey:)`: the member must be present and a string. */
  function DecodeString(obj: Object, key: string): (r: Result<string, DecodeError>)
    ensures r.Success? <==> key in obj && obj[key].JStr?
    ensures r.Success? ==> r.value == obj[key].s
    ensures r.Failure? ==> r.error == MissingOrMismatch(obj, key)
  {
    if key in obj && obj[key].JStr? then Success(obj[key].s) else Failure(MissingOrMismatch(obj, key))
  }

  /** `decodeIfPresent(String.self, forKey:)`: absent and null give nil; a string is taken; anything else is a type mismatch. */
  function DecodeStringIfPresent(obj: Object, key: string): (r: Result<Option<string>, DecodeError>)
    ensures (key !in obj || obj[key].JNull?) ==> r == Success(None)
    ensures key in obj && obj[key].JStr? ==> r == Success(Some(obj[key].s))
    ensures r.Failure? <==> key in obj && !obj[key].JNull? && !obj[key].JStr?
    ensures r.Failure? ==> r.error == DecodeError(TypeMismatch, [Key(key)])
  {
    if key !in obj || obj[key].JNull? then Success(None)
    else if obj[key].JStr? then Success(Some(obj[key].s))
    else Failure(DecodeError(TypeMismatch, [Key(key)]))
  }

  /**
   * `decode(Int.self, forKey:)`: only a whole number that fits in 64 bits is
   * an `Int`; another number is reported as corrupted data, and a string,
   * a boolean, an array or an object as a type mismatch.
   */
  function DecodeInt(obj: Object, key: string): (r: Result<int, DecodeError>)
    ensures r.Success? <==> key in obj && obj[key].JInt? && SwiftInt.IsInt64(obj[key].i)
    ensures r.Success? ==> r.value == obj[key].i
    ensures key in obj && (obj[key].JOtherNumber? || (obj[key].JInt? && !SwiftInt.IsInt64(obj[key].i))) ==>
              r == Failure(DecodeError(DataCorrupted, [Key(key)]))
    ensures (key !in obj || !(obj[key].JInt? || obj[key].JOtherNumber?)) ==> r == Failure(MissingOrMismatch(obj, key))
  {
    if key in obj && obj[key].JInt? && SwiftInt.IsInt64(obj[key].i) then Success(obj[key].i)
    else if key in obj && (obj[key].JInt? || obj[key].JOtherNumber?) then Failure(DecodeError(DataCorrupted, [Key(key)]))
    else Failure(MissingOrMismatch(obj, key))
  }

  /**
   * An unkeyed container decoded element by element, in order; the first
   * element that fails stops the decode and is reported with its position.
   */
  function DecodeEach<T>(items: seq<Value>, element: Value -> Result<T, DecodeError>): (r: Result<seq<T>, (nat, DecodeError)>)
    ensures r.Success? <==> forall k :: 0 <= k < |items| ==> element(items[k]).Success?
    ensures r.Success? ==> |r.value| == |items|
    ensures r.Success? ==> forall k :: 0 <= k < |items| ==> element(items[k]) == Success(r.value[k])
    ensures r.Failure? ==> r.error.0 < |items| && element(items[r.error.0]) == Failure(r.error.1)
    ensures r.Failure? ==> forall k :: 0 <= k < r.error.0 ==> element(items[k]).Success?
    decreases |items|
  {
    if items == [] then Success([])
    else
      match element(items[0])
      case Failure(e) => Failure((0, e))
      case Success(x) =>
        match DecodeEach(items[1..], element)
        case Failure(failed) => Failure((failed.0 + 1, failed.1))
        case Success(xs) => Success([x] + xs)
  }

  /**
   * `decode([T].self, forKey:)`: the member must be present and an array,
   * each element decoding as `T`; an element's failure is reported under the
   * member's key and the position of the first element that fails.
   */
  function DecodeArray<T>(obj: Object, key: string, element: Value -> Result<T, DecodeError>): (r: Result<seq<T>, DecodeError>)
    ensures r.Success? <==> key in obj && obj[key].JArr? && forall k :: 0 <= k < |obj[key].items| ==> element(obj[key].items[k]).Success?
    ensures r.Success? ==> |r.value| == |obj[key].items|
    ensures r.Success? ==> forall k :: 0 <= k < |r.value| ==> element(obj[key].items[k]) == Success(r.value[k])
    ensures r.Failure? && key in obj && obj[key].JArr? ==>
              exists k :: 0 <= k < |obj[key].items| && element(obj[key].items[k]).Failure?
                          && (forall j :: 0 <= j < k ==> element(obj[key].items[j]).Success?)
                          && r.error == Within([Key(key), Index(k)], element(obj[key].items[k]).error)
  {
    if key in obj && obj[key].JArr? then
      match DecodeEach(obj[key].items, element)
      case Failure(failed) => Failure(Within([Key(key), Index(failed.0)], failed.1))
      case Success(xs) => Success(xs)
    else Failure(MissingOrMismatch(obj, key))
  }

  /** An array element that must be a string. */
  function StringElement(v: Value): (r: Result<string, DecodeError>)
    ensures r.Success? <==> v.JStr?
    ensures r.Success? ==> r.value == v.s
  {
    match v
    case JStr(s) => Success(s)
    case JNull => Failure(DecodeError(ValueNotFound, []))
    case _ => Failure(DecodeError(TypeMismatch, []))
  }
}
