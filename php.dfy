/** The small part of the PHP runtime and of Laravel's string helpers that the
    data transfer object relies on: dynamic values, results, prefix tests,
    substrings and the rule by which a PHP array turns a string key into an
    integer key. */
module Php {

  /** A PHP value as far as the DTO can tell values apart. Arrays, floats and
      objects are stored and compared, never inspected: `Opaque` stands for
      them, identified by a tag. */
  datatype Value = Null | Bool(b: bool) | Int(i: int) | Str(s: string) | Opaque(tag: nat)

  datatype Option<+T> = None | Some(value: T)

  /** The outcome of an operation that may raise. */
  datatype Result<+T, +E> = Ok(value: T) | Err(error: E)

  /** The map a PHP array with string keys stands for, given its entries in
      iteration order (as `[k1 => v1, k2 => v2, ...]` is read): every key of
      the entries is a key of the map, and a key written more than once keeps
      its last value. */
  function ToMap(entries: seq<(string, Value)>): (m: map<string, Value>)
    ensures m.Keys == set i | 0 <= i < |entries| :: entries[i].0
    ensures forall i :: 0 <= i < |entries| && (forall j :: i < j < |entries| ==> entries[j].0 != entries[i].0)
                        ==> m[entries[i].0] == entries[i].1
  {
    if |entries| == 0 then map[]
    else
      var init, last := entries[..|entries| - 1], entries[|entries| - 1];
      assert forall i :: 0 <= i < |init| ==> init[i] == entries[i];
      assert (set i | 0 <= i < |entries| :: entries[i].0) == (set i | 0 <= i < |init| :: init[i].0) + {last.0};
      ToMap(init)[last.0 := last.1]
  }

  /** One more entry of an array is one more write on its map. */
  lemma ToMapExtend(entries: seq<(string, Value)>, i: nat)
    requires i < |entries|
    ensures ToMap(entries[..i + 1]) == ToMap(entries[..i])[entries[i].0 := entries[i].1]
  {
    assert entries[..i + 1][..i] == entries[..i];
  }

  /** A write after an overlay is a write to the overlaying map. */
  lemma OverlayWrite(base: map<string, Value>, over: map<string, Value>, k: string, v: Value)
    ensures (base + over)[k := v] == base + over[k := v]
  {
  }

  /** `Str::startsWith($haystack, $needle)` with one needle: false for the empty
      needle, otherwise a case-sensitive prefix test. */
  function StartsWith(haystack: string, needle: string): (b: bool)
    ensures b <==> needle != "" && exists rest :: haystack == needle + rest
  {
    if needle != "" && |needle| <= |haystack| && haystack[..|needle|] == needle then
      assert haystack == needle + haystack[|needle|..];
      true
    else
      assert forall rest :: haystack == needle + rest ==> haystack[..|needle|] == needle;
      false
  }

  /** `Str::substr($s, $start)` with no length: everything from `start` on, and
      the empty string when `start` is past the end. */
  function Substr(s: string, start: nat): (r: string)
    ensures start <= |s| ==> s == s[..start] + r
    ensures start >= |s| ==> r == ""
  {
    if start <= |s| then s[start..] else ""
  }

  predicate IsDigit(c: char)
  {
    '0' <= c <= '9'
  }

  /** A string that a PHP array key may turn into an integer key: an optional
      minus sign followed by decimal digits without a leading zero, or "0"
      itself. (PHP keeps such a string as a string when it overflows a 64-bit
      integer; this predicate is deliberately wider and includes those.) */
  predicate NumericKey(k: string)
  {
    if k == "0" then true
    else
      var digits := if |k| > 0 && k[0] == '-' then k[1..] else k;
      |digits| > 0 && digits[0] != '0' &&
      forall i :: 0 <= i < |digits| ==> IsDigit(digits[i])
  }
}
