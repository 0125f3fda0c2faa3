/**
 * The value `json.loads` hands to the application, and the handful of Python
 * operations the display code applies to it: truth testing, `dict.get`,
 * iteration, hashing as a dictionary key, and `str()` inside an f-string.
 * Objects keep their members in document order, as Python dictionaries do.
 */
module Json {
  import opened Wrappers
  import opened Text

  datatype Json =
    | Null
    | Num(n: int)
    | Str(s: string)
    | Arr(items: seq<Json>)
    | Obj(members: seq<(string, Json)>)

  /** A Python exception raised while the results are displayed. */
  datatype Fault =
    | NoGetMethod(kind: string)      // AttributeError: '<kind>' object has no attribute 'get'
    | NotIterable(kind: string)      // TypeError: '<kind>' object is not iterable
    | NotDivisible(kind: string)     // TypeError: unsupported operand type(s) for /: '<kind>' and 'int'
    | Unhashable(kind: string)       // TypeError: unhashable type: '<kind>'

  /** Python's name for the type of a parsed value. */
  function KindOf(v: Json): string {
    match v
    case Null => "NoneType"
    case Num(_) => "int"
    case Str(_) => "str"
    case Arr(_) => "list"
    case Obj(_) => "dict"
  }

  /** Python truth testing (`not v` is `!Truthy(v)`): `None`, `0` and empty
      strings, lists and dictionaries are false. */
  predicate Truthy(v: Json) {
    match v
    case Null => false
    case Num(n) => n != 0
    case Str(s) => s != ""
    case Arr(items) => items != []
    case Obj(members) => members != []
  }

  /** The value stored under `key`, if any. */
  function Lookup(members: seq<(string, Json)>, key: string): (r: Option<Json>)
    ensures r.None? <==> forall i | 0 <= i < |members| :: members[i].0 != key
    ensures r.Some? ==> exists i | 0 <= i < |members| :: members[i] == (key, r.value)
  {
    if members == [] then None
    else if members[0].0 == key then
      assert members[0] == (key, members[0].1);
      Some(members[0].1)
    else
      var r := Lookup(members[1..], key);
      assert forall i | 1 <= i < |members| :: members[i] == members[1..][i - 1];
      r
  }

  /** Python's `d.get(key, default)` on a dictionary. */
  function Get(members: seq<(string, Json)>, key: string, default: Json): (r: Json)
    ensures (forall i | 0 <= i < |members| :: members[i].0 != key) ==> r == default
    ensures (exists i | 0 <= i < |members| :: members[i].0 == key) ==>
              exists i | 0 <= i < |members| :: members[i] == (key, r)
  {
    match Lookup(members, key)
    case None => default
    case Some(v) => v
  }

  /** What `for x in v` runs over: the items of a list, the one-character
      strings of a string, the keys of a dictionary; `None` and numbers raise. */
  function Iterate(v: Json): (r: Result<seq<Json>, Fault>)
    ensures r.Failure? <==> v.Null? || v.Num?
    ensures v.Arr? ==> r == Success(v.items)
    ensures v.Str? ==> r.Success? && |r.value| == |v.s|
                       && forall i | 0 <= i < |v.s| :: r.value[i] == Str([v.s[i]])
    ensures v.Obj? ==> r.Success? && |r.value| == |v.members|
                       && forall i | 0 <= i < |v.members| :: r.value[i] == Str(v.members[i].0)
  {
    match v
    case Null => Failure(NotIterable(KindOf(v)))
    case Num(_) => Failure(NotIterable(KindOf(v)))
    case Str(s) => Success(seq(|s|, i requires 0 <= i < |s| => Str([s[i]])))
    case Arr(items) => Success(items)
    case Obj(members) => Success(seq(|members|, i requires 0 <= i < |members| => Str(members[i].0)))
  }

  /** Lists and dictionaries cannot be dictionary keys. */
  predicate Hashable(v: Json) {
    !v.Arr? && !v.Obj?
  }

  /** `parts` joined with `sep` between neighbours (Python's `sep.join(parts)`). */
  function Join(parts: seq<string>, sep: string): string {
    if parts == [] then ""
    else if |parts| == 1 then parts[0]
    else parts[0] + sep + Join(parts[1..], sep)
  }

  /** Python's `repr()`, as it appears for the elements of a list or dictionary
      printed with `str()`. */
  function Repr(v: Json): string
    decreases v
  {
    match v
    case Null => "None"
    case Num(n) => IntToString(n)
    case Str(s) => "'" + s + "'"
    case Arr(items) =>
      "[" + Join(seq(|items|, i requires 0 <= i < |items| => Repr(items[i])), ", ") + "]"
    case Obj(members) =>
      "{" + Join(seq(|members|, i requires 0 <= i < |members| =>
                       "'" + members[i].0 + "': " + Repr(members[i].1)), ", ") + "}"
  }

  /** Python's `str()`, which is what an f-string substitutes: a string is
      inserted as it is, anything else as its `repr()`. */
  function Show(v: Json): (r: string)
    ensures v.Str? ==> r == v.s
    ensures v.Null? ==> r == "None"
    ensures v.Num? ==> r == IntToString(v.n)
    ensures v.Num? ==> Denotes(r, v.n)
  {
    if v.Str? then v.s else Repr(v)
  }
}
