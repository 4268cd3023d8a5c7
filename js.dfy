/** JavaScript values as the handlers read and build them, and the truthiness
    rule that every `if (x)` guard in the handlers relies on. */
module Js {

  datatype Option<+T> = None | Some(value: T)

  /** A JavaScript value. Numbers are integers here: the handlers only carry
      integer ids through them. */
  datatype Value =
    | Undefined
    | Null
    | Bool(b: bool)
    | Num(n: int)
    | Str(s: string)
    | Arr(items: seq<Value>)
    | Obj(fields: map<string, Value>)

  /** A plain object: its own enumerable properties. */
  type Object = map<string, Value>

  /** JavaScript truthiness: `undefined`, `null`, `false`, `0` and `""` are
      falsy; every array and every object, even an empty one, is truthy. */
  predicate Truthy(v: Value) {
    match v
    case Undefined => false
    case Null => false
    case Bool(b) => b
    case Num(n) => n != 0
    case Str(s) => s != ""
    case Arr(_) => true
    case Obj(_) => true
  }

  /** An optional integer field as the value a handler reads (`undefined` when absent). */
  function IntValue(o: Option<int>): Value {
    if o.Some? then Num(o.value) else Undefined
  }

  /** An optional string field as the value a handler reads. */
  function StrValue(o: Option<string>): Value {
    if o.Some? then Str(o.value) else Undefined
  }

  /** An array of integers. */
  function IntArray(xs: seq<int>): (v: Value)
    ensures v.Arr? && |v.items| == |xs|
    ensures forall i :: 0 <= i < |xs| ==> v.items[i] == Num(xs[i])
  {
    Arr(seq(|xs|, i requires 0 <= i < |xs| => Num(xs[i])))
  }

  /** `if (payload.x)` on an integer field: given, and not 0. */
  predicate IntGiven(o: Option<int>)
  {
    Truthy(IntValue(o))
  }

  /** `if (payload.x)` on a string field: given, and not empty. */
  predicate TextGiven(o: Option<string>)
  {
    Truthy(StrValue(o))
  }

  /** `s.includes(sub)` on strings. */
  predicate Contains(s: string, sub: string)
    decreases |s|
  {
    |sub| <= |s| && (s[..|sub|] == sub || Contains(s[1..], sub))
  }

  /** Whatever surrounds it, a string contains each of its own pieces. */
  lemma {:induction false} ContainsPiece(prefix: string, sub: string, suffix: string)
    ensures Contains(prefix + sub + suffix, sub)
    decreases |prefix|
  {
    var s := prefix + sub + suffix;
    if prefix == [] {
      assert s[..|sub|] == sub;
    } else {
      ContainsPiece(prefix[1..], sub, suffix);
      assert s[1..] == prefix[1..] + sub + suffix;
    }
  }

  /** ASCII upper-casing, all that `String.prototype.toUpperCase` does to
      the lower-case method names it is applied to. */
  function Upper(s: string): (r: string)
    ensures |r| == |s|
    ensures forall i :: 0 <= i < |s| ==> r[i] == UpperChar(s[i])
  {
    if s == [] then [] else [UpperChar(s[0])] + Upper(s[1..])
  }

  function UpperChar(c: char): char {
    if 'a' <= c <= 'z' then (c as int - 'a' as int + 'A' as int) as char else c
  }

  /** ASCII lower-casing, the case folding a `/i` regular expression applies
      to the letters of an ASCII pattern. */
  function LowerChar(c: char): char {
    if 'A' <= c <= 'Z' then (c as int - 'A' as int + 'a' as int) as char else c
  }
}
