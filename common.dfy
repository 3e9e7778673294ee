/** Small definitions shared by the other modules: optional values, Mongo
    object ids, and the two JavaScript string operations the core relies on
    (`String.prototype.length` and `String.prototype.startsWith`). */
module Common {

  datatype Option<+T> = None | Some(value: T)

  /** A Mongo ObjectId, kept as the hexadecimal text that `toString()` gives. */
  datatype ObjectId = ObjectId(hex: string)

  /** True for a character JavaScript stores as a surrogate pair, i.e. one
      outside the Basic Multilingual Plane. */
  predicate IsAstral(c: char) {
    c as int >= 0x1_0000
  }

  /** The value of `s.length` in JavaScript: the number of UTF-16 code units,
      so every astral character counts twice. */
  function Utf16Length(s: string): (n: nat)
    ensures |s| <= n <= 2 * |s|
    ensures n == |s| <==> forall i :: 0 <= i < |s| ==> !IsAstral(s[i])
  {
    if s == [] then 0
    else (if IsAstral(s[0]) then 2 else 1) + Utf16Length(s[1..])
  }

  /** JavaScript `s.length` distributes over concatenation. */
  lemma {:induction false} Utf16LengthAppend(s: string, t: string)
    ensures Utf16Length(s + t) == Utf16Length(s) + Utf16Length(t)
  {
    if s == [] {
      assert s + t == t;
    } else {
      assert (s + t)[0] == s[0];
      assert (s + t)[1..] == s[1..] + t;
      Utf16LengthAppend(s[1..], t);
    }
  }

  /** `s.startsWith(p)`: exact, case-sensitive comparison of the first |p|
      characters. */
  predicate StartsWith(s: string, p: string) {
    |p| <= |s| && s[..|p|] == p
  }

  function Min(a: int, b: int): (m: int)
    ensures m <= a && m <= b
    ensures m == a || m == b
  {
    if a <= b then a else b
  }
}
