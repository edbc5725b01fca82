/**
 * The parts of java.lang that the generators rely on: exceptions, String.equalsIgnoreCase,
 * String.contains, String.replace with an empty replacement, and the "%s" rendering of a
 * possibly-null string.
 */
module JavaLang {
  import opened Wrappers

  /** The exceptions the modelled code raises. */
  datatype Exception = IllegalState(message: string) | NullPointer | IndexOutOfBounds

  /** Character.toUpperCase, on the ASCII letters. */
  function UpperAscii(c: char): char {
    if 'a' <= c <= 'z' then (c as int - 'a' as int + 'A' as int) as char else c
  }

  /** A word that upper-casing leaves unchanged, such as "GET". */
  predicate IsUpperWord(s: string) {
    forall i :: 0 <= i < |s| ==> UpperAscii(s[i]) == s[i]
  }

  /** `word.equalsIgnoreCase(s)`: false when s is null. */
  predicate EqualsIgnoreCase(word: string, s: Option<string>) {
    s.Some? && |word| == |s.value| &&
    forall i :: 0 <= i < |word| ==> UpperAscii(word[i]) == UpperAscii(s.value[i])
  }

  /** An upper-case word is the only upper-case word a string matches ignoring case. */
  lemma EqualsIgnoreCaseUnique(a: string, b: string, s: Option<string>)
    requires IsUpperWord(a) && IsUpperWord(b)
    requires EqualsIgnoreCase(a, s) && EqualsIgnoreCase(b, s)
    ensures a == b
  {
    forall i | 0 <= i < |a|
      ensures a[i] == b[i]
    {
      calc {
        a[i];
        UpperAscii(a[i]);
        UpperAscii(s.value[i]);
        UpperAscii(b[i]);
        b[i];
      }
    }
  }

  /** `target` occurs in `s` at position i. */
  predicate OccursAt(s: string, target: string, i: int) {
    0 <= i && i + |target| <= |s| && s[i..i + |target|] == target
  }

  /** `s.contains(target)`. */
  predicate Contains(s: string, target: string) {
    exists i :: 0 <= i <= |s| && OccursAt(s, target, i)
  }

  /**
   * `s.replace(target, "")` for a non-empty target: a single left-to-right pass that deletes
   * each non-overlapping occurrence it meets.
   */
  function Remove(s: string, target: string): (r: string)
    requires target != []
    ensures |r| <= |s|
    decreases |s|
  {
    if |s| < |target| then s
    else if s[..|target|] == target then Remove(s[|target|..], target)
    else [s[0]] + Remove(s[1..], target)
  }

  /** A string without an occurrence of the target is left as it is. */
  lemma {:induction false} RemoveAbsent(s: string, target: string)
    requires target != []
    requires !Contains(s, target)
    ensures Remove(s, target) == s
    decreases |s|
  {
    if |s| < |target| {
    } else {
      assert !OccursAt(s, target, 0);
      assert s[..|target|] != target;
      if Contains(s[1..], target) {
        var i :| 0 <= i <= |s[1..]| && OccursAt(s[1..], target, i);
        assert s[i + 1..i + 1 + |target|] == s[1..][i..i + |target|];
        assert OccursAt(s, target, i + 1);
      }
      RemoveAbsent(s[1..], target);
    }
  }

  /** A string that holds the target loses at least one whole occurrence. */
  lemma {:induction false} RemovePresent(s: string, target: string)
    requires target != []
    requires Contains(s, target)
    ensures |Remove(s, target)| <= |s| - |target|
    decreases |s|
  {
    var i :| 0 <= i <= |s| && OccursAt(s, target, i);
    if s[..|target|] == target {
    } else {
      assert i != 0;
      assert s[1..][i - 1..i - 1 + |target|] == s[i..i + |target|];
      assert OccursAt(s[1..], target, i - 1);
      RemovePresent(s[1..], target);
    }
  }

  /** The `%s` rendering of a possibly-null string, as String.format writes it. */
  function FormatArg(s: Option<string>): (r: string)
    ensures s.None? ==> r == "null"
    ensures s.Some? ==> r == s.value
  {
    match s
    case None => "null"
    case Some(v) => v
  }
}
