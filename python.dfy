/**
  The few Python built-ins that the tool handlers apply to JSON arguments:
  truthiness, `str()`, `dict.get`, `', '.join`, `str.lower`, `str.title`, the
  substring test `a in b`, and the exceptions these raise.
 */
module Py {
  import opened Json

  /** The exceptions that reach the HTTP handler's `except Exception` clause. */
  datatype PyError =
    | HttpException(status: int, detail: string)
    | TypeError(message: string)
    | AttributeError(message: string)

  /** `str(e)`: Starlette renders an HTTPException as "status: detail". */
  function ErrorText(e: PyError): (text: string)
    ensures e.HttpException? ==> text == IntToString(e.status) + ": " + e.detail
    ensures !e.HttpException? ==> text == e.message
  {
    match e
    case HttpException(status, detail) => IntToString(status) + ": " + detail
    case TypeError(m) => m
    case AttributeError(m) => m
  }

  /** `str()` of a 400 HTTPException. */
  lemma BadRequestText(detail: string)
    ensures ErrorText(HttpException(400, detail)) == "400: " + detail
  {
    assert NatToString(400) == NatToString(40) + [DigitChar(0)];
    assert NatToString(40) == NatToString(4) + [DigitChar(0)];
  }

  /** A computation that returns a value or raises. */
  datatype Result<+T> = Ok(value: T) | Err(error: PyError) {
    predicate IsFailure() { Err? }
    function PropagateFailure<U>(): Result<U> requires Err? { Err(error) }
    function Extract(): T requires Ok? { value }
  }

  /** Python's `bool(v)` for a JSON-decoded value. */
  predicate Truthy(v: Json) {
    match v
    case JNull => false
    case JBool(b) => b
    case JNum(n) => n != 0
    case JStr(s) => s != ""
    case JArr(items) => items != []
    case JObj(fields) => fields != map[]
  }

  /** `type(v).__name__` for a JSON-decoded value. */
  function TypeName(v: Json): string {
    match v
    case JNull => "NoneType"
    case JBool(_) => "bool"
    case JNum(_) => "int"
    case JStr(_) => "str"
    case JArr(_) => "list"
    case JObj(_) => "dict"
  }

  function DigitChar(d: nat): char
    requires d < 10
  {
    "0123456789"[d]
  }

  function NatToString(n: nat): (r: string)
    ensures |r| >= 1
    decreases n
  {
    if n < 10 then [DigitChar(n)] else NatToString(n / 10) + [DigitChar(n % 10)]
  }

  function IntToString(n: int): string {
    if n < 0 then "-" + NatToString(-n) else NatToString(n)
  }

  /** `str(v)`, which is also what an f-string interpolation `{v}` produces. */
  function Str(v: Json): (r: string) {
    if v.JStr? then v.s else Repr(v)
  }

  /** `repr(v)`; strings are quoted without escaping and dictionaries are not spelled out. */
  function Repr(v: Json): string
    decreases v, 1
  {
    match v
    case JNull => "None"
    case JBool(b) => if b then "True" else "False"
    case JNum(n) => IntToString(n)
    case JStr(s) => "'" + s + "'"
    case JArr(items) => "[" + ReprItems(items) + "]"
    case JObj(_) => "{...}"
  }

  function ReprItems(items: seq<Json>): string
    decreases items, 0
  {
    if items == [] then ""
    else if |items| == 1 then Repr(items[0])
    else Repr(items[0]) + ", " + ReprItems(items[1..])
  }

  /** The message of the AttributeError for a missing method `attr` on `v`. */
  function NoAttribute(v: Json, attr: string): string {
    "'" + TypeName(v) + "' object has no attribute '" + attr + "'"
  }

  /** The dictionary behind `args.get`: only a dictionary has a `get` method. */
  function Dict(args: Json): (r: Result<map<string, Json>>)
    ensures r.Ok? <==> args.JObj?
    ensures r.Ok? ==> r.value == args.fields
  {
    if args.JObj? then Ok(args.fields)
    else Err(AttributeError(NoAttribute(args, "get")))
  }

  /** The strings that iterating `v` yields, as `str.join` needs them. */
  function StrItems(v: Json): (r: Result<seq<string>>)
    ensures v.JStr? ==> r.Ok? && |r.value| == |v.s|
    ensures v.JArr? ==> (r.Ok? <==> forall i | 0 <= i < |v.items| :: v.items[i].JStr?)
    ensures !v.JStr? && !v.JArr? ==> r.Err?
  {
    match v
    case JStr(s) => Ok(seq(|s|, i requires 0 <= i < |s| => [s[i]]))
    case JArr(items) => ItemStrings(items, 0)
    case _ => Err(TypeError("can only join an iterable"))
  }

  /** Iterating a string yields its characters one by one; iterating a list of strings yields those strings. */
  lemma StrItemsPointwise(v: Json)
    ensures v.JStr? ==> forall i | 0 <= i < |v.s| :: StrItems(v).value[i] == [v.s[i]]
    ensures v.JArr? && StrItems(v).Ok? ==>
              |StrItems(v).value| == |v.items| && forall i | 0 <= i < |v.items| :: StrItems(v).value[i] == v.items[i].s
  {
  }

  /** The items of a list that `str.join` accepts; `offset` is the index of `items[0]`. */
  function ItemStrings(items: seq<Json>, offset: nat): (r: Result<seq<string>>)
    ensures r.Ok? <==> forall i | 0 <= i < |items| :: items[i].JStr?
    ensures r.Ok? ==> |r.value| == |items| && forall i | 0 <= i < |items| :: r.value[i] == items[i].s
    decreases items
  {
    if items == [] then Ok([])
    else if !items[0].JStr? then
      Err(TypeError("sequence item " + IntToString(offset) + ": expected str instance, "
                    + TypeName(items[0]) + " found"))
    else
      var rest :- ItemStrings(items[1..], offset + 1);
      Ok([items[0].s] + rest)
  }

  /** `sep.join(parts)` on strings. */
  function JoinStrings(parts: seq<string>, sep: string): string {
    if parts == [] then ""
    else if |parts| == 1 then parts[0]
    else parts[0] + sep + JoinStrings(parts[1..], sep)
  }

  /** `', '.join(v)`. */
  function Join(v: Json): Result<string> {
    var parts :- StrItems(v);
    Ok(JoinStrings(parts, ", "))
  }

  predicate IsUpper(c: char) { 'A' <= c <= 'Z' }
  predicate IsLower(c: char) { 'a' <= c <= 'z' }
  predicate IsLetter(c: char) { IsUpper(c) || IsLower(c) }

  function LowerChar(c: char): (r: char)
    ensures !IsUpper(r)
  {
    if IsUpper(c) then (c as int + 32) as char else c
  }

  function UpperChar(c: char): (r: char)
    ensures !IsLower(r)
  {
    if IsLower(c) then (c as int - 32) as char else c
  }

  /** `s.lower()` on the ASCII letters. */
  function Lower(s: string): (r: string)
    ensures |r| == |s|
    ensures forall i | 0 <= i < |s| :: r[i] == LowerChar(s[i])
  {
    seq(|s|, i requires 0 <= i < |s| => LowerChar(s[i]))
  }

  /**
    `s.title()` on the ASCII letters: a letter is upper-cased when it follows a
    non-letter and lower-cased when it follows a letter.
   */
  function Title(s: string): (r: string)
    ensures |r| == |s|
  {
    TitleFrom(s, false)
  }

  function TitleFrom(s: string, afterLetter: bool): (r: string)
    ensures |r| == |s|
    ensures s != [] ==> r[0] == (if !IsLetter(s[0]) then s[0] else if afterLetter then LowerChar(s[0]) else UpperChar(s[0]))
    decreases |s|
  {
    if s == [] then []
    else
      var c := if !IsLetter(s[0]) then s[0] else if afterLetter then LowerChar(s[0]) else UpperChar(s[0]);
      [c] + TitleFrom(s[1..], IsLetter(s[0]))
  }

  /** What `title()` makes of `s[i]`, for `i > 0`: it depends on whether `s[i - 1]` is a letter. */
  function TitleCaseAt(s: string, i: nat): char
    requires 0 < i < |s|
  {
    if !IsLetter(s[i]) then s[i] else if IsLetter(s[i - 1]) then LowerChar(s[i]) else UpperChar(s[i])
  }

  /** Every position after the first follows the case rule of `title()`. */
  lemma {:induction false} TitleFromAt(s: string, afterLetter: bool)
    ensures forall i | 0 < i < |s| :: TitleFrom(s, afterLetter)[i] == TitleCaseAt(s, i)
    decreases |s|
  {
    if s != [] {
      var t := s[1..];
      var rest := TitleFrom(t, IsLetter(s[0]));
      TitleFromAt(t, IsLetter(s[0]));
      forall i | 0 < i < |s|
        ensures TitleFrom(s, afterLetter)[i] == TitleCaseAt(s, i)
      {
        assert TitleFrom(s, afterLetter)[i] == rest[i - 1] && t[i - 1] == s[i];
        if i > 1 {
          assert t[i - 2] == s[i - 1];
          assert rest[i - 1] == TitleCaseAt(t, i - 1);
        }
      }
    }
  }

  /** `v.title()`: only a string has a `title` method. */
  function TitleOf(v: Json): (r: Result<string>)
    ensures r.Ok? <==> v.JStr?
    ensures v.JStr? ==> r.value == Title(v.s)
  {
    if v.JStr? then Ok(Title(v.s))
    else Err(AttributeError(NoAttribute(v, "title")))
  }

  /** `needle in hay` on strings: `needle` occurs in `hay` at some position. */
  predicate Contains(hay: string, needle: string)
    decreases |hay|
  {
    (|needle| <= |hay| && hay[..|needle|] == needle) || (hay != [] && Contains(hay[1..], needle))
  }

  /** `needle` occurs in `hay` starting at offset `i`. */
  predicate OccursAt(hay: string, needle: string, i: int) {
    0 <= i <= |hay| - |needle| && hay[i..i + |needle|] == needle
  }

  /** The recursive test agrees with "there is an offset at which `needle` occurs". */
  lemma {:induction false} ContainsAt(hay: string, needle: string)
    ensures Contains(hay, needle) <==> exists i :: OccursAt(hay, needle, i)
    decreases |hay|
  {
    if |needle| <= |hay| && hay[..|needle|] == needle {
      assert OccursAt(hay, needle, 0);
    } else if hay != [] {
      ContainsAt(hay[1..], needle);
      if Contains(hay[1..], needle) {
        var i :| OccursAt(hay[1..], needle, i);
        assert hay[i + 1..i + 1 + |needle|] == hay[1..][i..i + |needle|];
        assert OccursAt(hay, needle, i + 1);
      }
      if exists i :: OccursAt(hay, needle, i) {
        var i :| OccursAt(hay, needle, i);
        assert i != 0;
        assert hay[1..][i - 1..i - 1 + |needle|] == hay[i..i + |needle|];
        assert OccursAt(hay[1..], needle, i - 1);
      }
    }
  }
}
