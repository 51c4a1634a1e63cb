/**
 * The few JavaScript built-ins the page handlers rely on, stated on Dafny
 * values: `String.prototype.trim`, `Array.prototype.splice(start, 1)` and
 * reading `arr[i]` (which yields `undefined` outside the array).
 */
module JsBuiltins {

  /** A JavaScript string value. */
  type JsString = seq<char>

  /**
   * The characters `trim` removes: ECMAScript's WhiteSpace (tab, vertical tab,
   * form feed, space, no-break space, byte order mark and every other space
   * separator) and its LineTerminator (line feed, carriage return, line
   * separator, paragraph separator).
   */
  predicate IsWhitespace(c: char)
  {
    || c == '\t' || c == '\U{000B}' || c == '\U{000C}' || c == ' '
    || c == '\U{00A0}' || c == '\U{FEFF}' || c == '\U{1680}'
    || ('\U{2000}' <= c <= '\U{200A}')
    || c == '\U{202F}' || c == '\U{205F}' || c == '\U{3000}'
    || c == '\n' || c == '\r' || c == '\U{2028}' || c == '\U{2029}'
  }

  /** Every character of `s` is whitespace (vacuously true of ""). */
  predicate IsBlank(s: JsString)
  {
    forall i :: 0 <= i < |s| ==> IsWhitespace(s[i])
  }

  /** Length of the leading run of whitespace in `s`. */
  function LeadingWhitespace(s: JsString): (k: nat)
    ensures k <= |s|
    ensures IsBlank(s[..k])
    ensures k < |s| ==> !IsWhitespace(s[k])
    decreases |s|
  {
    if s == [] || !IsWhitespace(s[0]) then 0
    else
      var k := 1 + LeadingWhitespace(s[1..]);
      assert s[..k] == [s[0]] + s[1..][..k - 1];
      k
  }

  /** Position where the trailing run of whitespace in `s` begins. */
  function TrailingWhitespace(s: JsString): (k: nat)
    ensures k <= |s|
    ensures IsBlank(s[k..])
    ensures k > 0 ==> !IsWhitespace(s[k - 1])
    decreases |s|
  {
    if s == [] || !IsWhitespace(s[|s| - 1]) then |s|
    else
      var front := s[..|s| - 1];
      var k := TrailingWhitespace(front);
      assert s[k..] == front[k..] + [s[|s| - 1]];
      k
  }

  /**
   * `s.trim()`: `s` without its leading and trailing whitespace. The result
   * is a contiguous piece of `s`, everything cut away on either side is
   * whitespace, and the result neither starts nor ends with whitespace.
   */
  function Trim(s: JsString): (r: JsString)
    ensures |r| <= |s|
    ensures r == [] <==> IsBlank(s)
    ensures r != [] ==> !IsWhitespace(r[0]) && !IsWhitespace(r[|r| - 1])
    ensures exists a :: 0 <= a <= |s| - |r| && s[a..a + |r|] == r
                        && IsBlank(s[..a]) && IsBlank(s[a + |r|..])
  {
    var a := LeadingWhitespace(s);
    var r := s[a..][..TrailingWhitespace(s[a..])];
    TrimPieces(s, a, TrailingWhitespace(s[a..]));
    r
  }

  /** The facts `Trim` promises, for the cut points it chooses. */
  lemma TrimPieces(s: JsString, a: nat, b: nat)
    requires a == LeadingWhitespace(s) && b == TrailingWhitespace(s[a..])
    ensures var r := s[a..][..b];
      && s[a..a + |r|] == r && IsBlank(s[..a]) && IsBlank(s[a + |r|..])
      && (r == [] <==> IsBlank(s))
  {
    var rest := s[a..];
    var r := rest[..b];
    assert s[a + |r|..] == rest[b..];
    if r == [] {
      assert s[..a] == s;
    } else {
      assert s[a] == r[0];
    }
  }

  /** A string that neither starts nor ends with whitespace is its own
      trim. */
  lemma TrimKeepsTrimmed(s: JsString)
    requires s == [] || (!IsWhitespace(s[0]) && !IsWhitespace(s[|s| - 1]))
    ensures Trim(s) == s
  {
    if s != [] {
      assert LeadingWhitespace(s) == 0;
      assert s[0..] == s;
      assert TrailingWhitespace(s) == |s|;
      assert s[..|s|] == s;
    }
  }

  /** `trim` is idempotent: trimming a trimmed string changes nothing. */
  lemma TrimIdempotent(s: JsString)
    ensures Trim(Trim(s)) == Trim(s)
  {
    TrimKeepsTrimmed(Trim(s));
  }

  /** JavaScript `arr[index]`: the element, or `None` for `undefined`. */
  datatype Option<+T> = None | Some(value: T)

  function Lookup<T>(arr: seq<T>, index: int): Option<T>
  {
    if 0 <= index < |arr| then Some(arr[index]) else None
  }

  /**
   * The position `arr.splice(start, 1)` deletes at: a negative `start`
   * counts back from the end (clamped to 0), a large one is clamped to the
   * length, in which case nothing is deleted.
   */
  function SpliceStart(length: nat, start: int): nat
  {
    if start < 0 then (if length + start < 0 then 0 else length + start)
    else if start < length then start
    else length
  }

  /** `arr` with the element at position `k` taken out. */
  function RemoveAt<T>(arr: seq<T>, k: nat): (r: seq<T>)
    requires k < |arr|
    ensures |r| == |arr| - 1
    ensures forall j :: 0 <= j < k ==> r[j] == arr[j]
    ensures forall j :: k <= j < |r| ==> r[j] == arr[j + 1]
    ensures multiset(r) + multiset{arr[k]} == multiset(arr)
  {
    assert arr == arr[..k] + [arr[k]] + arr[k + 1..];
    arr[..k] + arr[k + 1..]
  }

  /**
   * The array left behind by `arr.splice(start, 1)`: one element fewer when
   * the clamped start lies inside the array, otherwise the same array.
   */
  function SpliceOne<T>(arr: seq<T>, start: int): (r: seq<T>)
    ensures 0 <= start < |arr| ==> r == arr[..start] + arr[start + 1..]
    ensures start < 0 && |arr| > 0 ==> r == RemoveAt(arr, SpliceStart(|arr|, start))
    ensures start >= |arr| ==> r == arr
    ensures |r| == if start < |arr| && |arr| > 0 then |arr| - 1 else |arr|
    ensures multiset(r) <= multiset(arr)
  {
    var k := SpliceStart(|arr|, start);
    if k < |arr| then RemoveAt(arr, k) else arr
  }

  /**
   * Removing in range is undone by putting the element read at that index
   * back: `arr[index]` and `arr.splice(index, 1)` together lose nothing.
   */
  lemma {:induction false} SpliceOneUndone<T>(arr: seq<T>, index: int)
    requires 0 <= index < |arr|
    ensures Lookup(arr, index).Some?
    ensures arr == SpliceOne(arr, index)[..index] + [Lookup(arr, index).value]
                   + SpliceOne(arr, index)[index..]
  {
    var r := SpliceOne(arr, index);
    assert r[..index] == arr[..index];
    assert r[index..] == arr[index + 1..];
    assert arr == arr[..index] + [arr[index]] + arr[index + 1..];
  }
}
