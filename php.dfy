/**
 The small part of PHP's value model that the client relies on: the values
 stored in a parameter array, `isset` and `empty` on them, and the string
 builtins `implode`/`explode` and integer interpolation.
 */
module Php {

  datatype Option<+T> = None | Some(value: T)

  /** A value stored under one key of a PHP parameter array. `Arr` is a
      list array of strings, the only array shape the client inspects. */
  datatype Value =
    | Null
    | Bool(b: bool)
    | Int(i: int)
    | Str(s: string)
    | Arr(items: seq<string>)

  /** A PHP associative array of parameters (key order is not modelled). */
  type Params = map<string, Value>

  /** `isset($params[key])`: the key is present and its value is not null. */
  predicate IsSet(params: Params, key: string)
  {
    key in params && params[key] != Null
  }

  /** `empty($s)` for a string: the empty string and "0" are empty. */
  predicate IsEmptyString(s: string)
  {
    s == "" || s == "0"
  }

  /** `implode(sep, parts)`: the parts joined with `sep` between neighbours. */
  function Implode(sep: char, parts: seq<string>): string
    decreases |parts|
  {
    if |parts| == 0 then ""
    else if |parts| == 1 then parts[0]
    else parts[0] + [sep] + Implode(sep, parts[1..])
  }

  /** `explode(sep, s)`: the pieces of `s` between occurrences of `sep`;
      always at least one piece (`explode(",", "")` is `[""]`). */
  function Explode(sep: char, s: string): (pieces: seq<string>)
    ensures |pieces| >= 1
    decreases |s|
  {
    if s == [] then [""]
    else if s[0] == sep then [""] + Explode(sep, s[1..])
    else
      var rest := Explode(sep, s[1..]);
      [[s[0]] + rest[0]] + rest[1..]
  }

  /** A string that does not contain `sep` explodes to itself alone. */
  lemma {:induction false} ExplodeNoSeparator(sep: char, a: string)
    requires sep !in a
    ensures Explode(sep, a) == [a]
    decreases |a|
  {
    if a != [] {
      ExplodeNoSeparator(sep, a[1..]);
      assert [a[0]] + a[1..] == a;
    }
  }

  /** The first separator splits off the piece in front of it. */
  lemma {:induction false} ExplodeAtFirstSeparator(sep: char, a: string, b: string)
    requires sep !in a
    ensures Explode(sep, a + [sep] + b) == [a] + Explode(sep, b)
    decreases |a|
  {
    var s := a + [sep] + b;
    if a == [] {
      assert s[1..] == b;
    } else {
      assert s[1..] == a[1..] + [sep] + b;
      ExplodeAtFirstSeparator(sep, a[1..], b);
      assert [a[0]] + a[1..] == a;
    }
  }

  /** `explode` undoes `implode` for a non-empty list of parts none of which
      contains the separator. */
  lemma {:induction false} ExplodeImplode(sep: char, parts: seq<string>)
    requires |parts| >= 1
    requires forall i :: 0 <= i < |parts| ==> sep !in parts[i]
    ensures Explode(sep, Implode(sep, parts)) == parts
    decreases |parts|
  {
    if |parts| == 1 {
      ExplodeNoSeparator(sep, parts[0]);
    } else {
      ExplodeAtFirstSeparator(sep, parts[0], Implode(sep, parts[1..]));
      ExplodeImplode(sep, parts[1..]);
      assert [parts[0]] + parts[1..] == parts;
    }
  }

  /** The character of a decimal digit. */
  function DigitChar(d: int): (c: char)
    requires 0 <= d < 10
    ensures '0' <= c <= '9'
  {
    "0123456789"[d]
  }

  /** The text PHP interpolates for an integer: optional minus sign, then the
      decimal digits without leading zeros. */
  function DecimalText(n: int): (s: string)
    ensures |s| >= 1
    decreases if n < 0 then 1 - n else n
  {
    if n < 0 then "-" + DecimalText(-n)
    else if n < 10 then [DigitChar(n)]
    else DecimalText(n / 10) + [DigitChar(n % 10)]
  }
}
