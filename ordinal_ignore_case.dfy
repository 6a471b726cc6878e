/**
 * Ordinal case-insensitive string equality, as used for configuration keys and
 * environment names. Only ASCII letters are folded.
 */
module OrdinalIgnoreCase {

  /** The upper-case form of one character. */
  function ToUpper(c: char): char
  {
    if 'a' <= c <= 'z' then (c as int - 32) as char else c
  }

  /** The string upper-cased character by character. */
  function Upper(s: string): string
  {
    if s == [] then [] else [ToUpper(s[0])] + Upper(s[1..])
  }

  /** Ordinal ignore-case equality: same length, and each pair of characters equal after folding. */
  predicate EqualsIgnoreCase(a: string, b: string)
  {
    |a| == |b| && (a == [] || (ToUpper(a[0]) == ToUpper(b[0]) && EqualsIgnoreCase(a[1..], b[1..])))
  }

  lemma {:induction false} UpperLength(s: string)
    ensures |Upper(s)| == |s|
  {
    if s != [] {
      UpperLength(s[1..]);
    }
  }

  /** Comparing character by character is the same as comparing the upper-cased strings. */
  lemma {:induction false} EqualsIgnoreCaseIsUpperEquality(a: string, b: string)
    ensures EqualsIgnoreCase(a, b) <==> Upper(a) == Upper(b)
  {
    UpperLength(a);
    UpperLength(b);
    if a != [] && b != [] {
      EqualsIgnoreCaseIsUpperEquality(a[1..], b[1..]);
      if Upper(a) == Upper(b) {
        assert Upper(a)[0] == ToUpper(a[0]) && Upper(b)[0] == ToUpper(b[0]);
        assert Upper(a)[1..] == Upper(a[1..]) && Upper(b)[1..] == Upper(b[1..]);
      }
    }
  }

  /** Ignore-case equality is an equivalence relation. */
  lemma EqualsIgnoreCaseIsEquivalence(a: string, b: string, c: string)
    ensures EqualsIgnoreCase(a, a)
    ensures EqualsIgnoreCase(a, b) <==> EqualsIgnoreCase(b, a)
    ensures EqualsIgnoreCase(a, b) && EqualsIgnoreCase(b, c) ==> EqualsIgnoreCase(a, c)
  {
    EqualsIgnoreCaseIsUpperEquality(a, a);
    EqualsIgnoreCaseIsUpperEquality(a, b);
    EqualsIgnoreCaseIsUpperEquality(b, a);
    EqualsIgnoreCaseIsUpperEquality(b, c);
    EqualsIgnoreCaseIsUpperEquality(a, c);
  }

  /** Strings of different lengths are never equal, whatever their case. */
  lemma DifferentLengthsDiffer(a: string, b: string)
    requires |a| != |b|
    ensures !EqualsIgnoreCase(a, b)
  {
  }
}
