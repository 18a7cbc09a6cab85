/** Names of numbered duplicates: `page 2.tsx` is a duplicate of `page.tsx`. */
module DuplicateNames {
  import opened Common

  predicate IsSpace(c: char) { c == ' ' || c == '\t' || c == '\r' }
  predicate IsDigit(c: char) { '0' <= c <= '9' }

  /** The last position of a character that qualifies, or -1. */
  function LastWhere(s: string, qualifies: char -> bool): (i: int)
    ensures -1 <= i < |s|
    ensures i >= 0 ==> qualifies(s[i])
    ensures forall k :: i < k < |s| ==> !qualifies(s[k])
    decreases |s|
  {
    if s == "" then -1 else if qualifies(s[|s| - 1]) then |s| - 1 else LastWhere(s[..|s| - 1], qualifies)
  }

  function IsDot(c: char): bool { c == '.' }
  function IsBlank(c: char): bool { IsSpace(c) }

  /** Where the suffix starts: at the last dot, unless that is the first or the last character; else at the end. */
  function SuffixAt(name: string): (i: nat)
    ensures i <= |name| && (name != "" ==> i > 0)
  {
    var dot := LastWhere(name, IsDot);
    if 0 < dot < |name| - 1 then dot else |name|
  }

  function Stem(name: string): string { name[..SuffixAt(name)] }
  function Suffix(name: string): string { name[SuffixAt(name)..] }

  predicate AllDigits(s: string) { s != "" && forall i :: 0 <= i < |s| ==> IsDigit(s[i]) }

  function DigitOf(c: char): nat
    requires IsDigit(c)
  {
    c as int - '0' as int
  }

  function NumberOf(digits: string): nat
    requires forall i :: 0 <= i < |digits| ==> IsDigit(digits[i])
  {
    if digits == "" then 0
    else NumberOf(digits[..|digits| - 1]) * 10 + DigitOf(digits[|digits| - 1])
  }

  /** The base and the number of a stem that ends in one blank and a number of at least 2. */
  function Numbered(stem: string): (r: Option<(string, nat)>)
    ensures r.Some? ==> |r.value.0| < |stem| && r.value.0 != "" && r.value.1 >= 2
  {
    var blank := LastWhere(stem, IsBlank);
    if blank <= 0 || !AllDigits(stem[blank + 1..]) || NumberOf(stem[blank + 1..]) < 2 then None
    else Some((stem[..blank], NumberOf(stem[blank + 1..])))
  }

  /** The name a duplicate is a duplicate of, with the duplicate's number; always a shorter name. */
  function BaseName(name: string): (r: Option<(string, nat)>)
    ensures r.Some? ==> |r.value.0| < |name|
  {
    var n := Numbered(Stem(name));
    if n.None? then None else Some((n.value.0 + Suffix(name), n.value.1))
  }

  /** What a copy of a file is called. */
  function CopyName(name: string, digits: string): string {
    Stem(name) + " " + digits + Suffix(name)
  }

  lemma LastWhereIs(s: string, qualifies: char -> bool, i: int)
    requires -1 <= i < |s| && (i >= 0 ==> qualifies(s[i])) && forall k :: i < k < |s| ==> !qualifies(s[k])
    ensures LastWhere(s, qualifies) == i
  {
  }

  lemma NumberedCopy(stem: string, digits: string)
    requires stem != "" && AllDigits(digits) && NumberOf(digits) >= 2
    ensures Numbered(stem + " " + digits) == Some((stem, NumberOf(digits)))
  {
    var s := stem + " " + digits;
    assert s[|stem|] == ' ';
    LastWhereIs(s, IsBlank, |stem|);
    assert s[|stem| + 1..] == digits && s[..|stem|] == stem;
  }

  lemma SuffixAtIs(name: string, dot: int)
    requires LastWhere(name, IsDot) == dot
    ensures SuffixAt(name) == if 0 < dot < |name| - 1 then dot else |name|
  {
  }

  lemma LastWhereConcat(a: string, b: string, qualifies: char -> bool)
    ensures LastWhere(a + b, qualifies) == if LastWhere(b, qualifies) >= 0 then |a| + LastWhere(b, qualifies)
                                           else LastWhere(a, qualifies)
  {
    var i := if LastWhere(b, qualifies) >= 0 then |a| + LastWhere(b, qualifies) else LastWhere(a, qualifies);
    LastWhereIs(a + b, qualifies, i);
  }

  lemma NoDotInNumber(digits: string)
    requires AllDigits(digits)
    ensures LastWhere(" " + digits, IsDot) == -1
  {
    LastWhereIs(" " + digits, IsDot, -1);
  }

  lemma SuffixStartsAtDot(name: string)
    requires 0 < LastWhere(name, IsDot) < |name| - 1
    ensures LastWhere(Suffix(name), IsDot) == 0
  {
    LastWhereIs(Suffix(name), IsDot, 0);
  }

  lemma LastDotOfStemCopy(stem: string, digits: string)
    requires AllDigits(digits)
    ensures LastWhere(stem + " " + digits, IsDot) == LastWhere(stem, IsDot)
  {
    assert stem + " " + digits == stem + (" " + digits);
    NoDotInNumber(digits);
    LastWhereConcat(stem, " " + digits, IsDot);
  }

  /** The last dot of a copy still starts the suffix. */
  lemma LastDotWithSuffix(name: string, digits: string)
    requires AllDigits(digits) && 0 < LastWhere(name, IsDot) < |name| - 1
    ensures LastWhere(CopyName(name, digits), IsDot) == |Stem(name) + " " + digits|
  {
    SuffixStartsAtDot(name);
    LastWhereConcat(Stem(name) + " " + digits, Suffix(name), IsDot);
  }

  lemma Whole(s: string)
    ensures s[..|s|] == s && s[|s|..] == ""
  {
  }

  lemma SplitAt(name: string, i: nat)
    requires SuffixAt(name) == i
    ensures i <= |name| && Stem(name) == name[..i] && Suffix(name) == name[i..]
  {
  }

  lemma NoSuffix(name: string)
    requires !(0 < LastWhere(name, IsDot) < |name| - 1)
    ensures Stem(name) == name && Suffix(name) == ""
  {
    SuffixAtIs(name, LastWhere(name, IsDot));
    SplitAt(name, |name|);
    Whole(name);
  }

  lemma CopyWithoutSuffixName(name: string, digits: string)
    requires Stem(name) == name && Suffix(name) == ""
    ensures CopyName(name, digits) == name + " " + digits
  {
  }

  /** Without a suffix the last dot stays where it is. */
  lemma LastDotWithoutSuffix(name: string, digits: string)
    requires AllDigits(digits) && !(0 < LastWhere(name, IsDot) < |name| - 1)
    ensures CopyName(name, digits) == name + " " + digits
    ensures LastWhere(CopyName(name, digits), IsDot) == LastWhere(name, IsDot)
  {
    NoSuffix(name);
    CopyWithoutSuffixName(name, digits);
    LastDotOfStemCopy(name, digits);
  }

  lemma CopyWithSuffix(name: string, digits: string)
    requires AllDigits(digits) && NumberOf(digits) >= 2 && 0 < LastWhere(name, IsDot) < |name| - 1
    ensures BaseName(CopyName(name, digits)) == Some((name, NumberOf(digits)))
  {
    var copy, middle := CopyName(name, digits), Stem(name) + " " + digits;
    LastDotWithSuffix(name, digits);
    SuffixAtIs(copy, |middle|);
    assert Stem(copy) == middle && Suffix(copy) == Suffix(name);
    NumberedCopy(Stem(name), digits);
    assert Stem(name) + Suffix(name) == name;
  }

  lemma CopyWithoutSuffix(name: string, digits: string)
    requires name != "" && AllDigits(digits) && NumberOf(digits) >= 2 && LastWhere(name, IsDot) < 1
    ensures BaseName(CopyName(name, digits)) == Some((name, NumberOf(digits)))
  {
    var copy := CopyName(name, digits);
    LastDotWithoutSuffix(name, digits);
    SuffixAtIs(copy, LastWhere(name, IsDot));
    assert Stem(copy) == copy && Suffix(copy) == "";
    NumberedCopy(name, digits);
    assert name + "" == name;
  }

  lemma BaseEndsLikeName(name: string)
    requires Suffix(name) != "" && BaseName(name).Some?
    ensures var base := BaseName(name).value.0; base != "" && base[|base| - 1] == name[|name| - 1]
  {
  }

  lemma CopyOfTrailingDot(name: string, digits: string)
    requires AllDigits(digits) && 1 <= LastWhere(name, IsDot) == |name| - 1
    ensures BaseName(CopyName(name, digits)).None? || BaseName(CopyName(name, digits)).value.0 != name
  {
    // The blank and the number have become part of the suffix.
    var copy := CopyName(name, digits);
    LastDotWithoutSuffix(name, digits);
    SuffixAtIs(copy, |name| - 1);
    if BaseName(copy).Some? {
      BaseEndsLikeName(copy);
      assert copy[|copy| - 1] == digits[|digits| - 1];
      assert IsDigit(copy[|copy| - 1]) && IsDot(name[|name| - 1]);
    }
  }

  /** A copy is recognised and leads back to its original exactly when the original's name has a suffix, or no dot but a
      leading one: a name that ends in a dot loses its copies. */
  lemma CopyLeadsBack(name: string, digits: string)
    requires name != "" && AllDigits(digits) && NumberOf(digits) >= 2
    ensures BaseName(CopyName(name, digits)) == Some((name, NumberOf(digits)))
       <==> (LastWhere(name, IsDot) < 1 || LastWhere(name, IsDot) < |name| - 1)
  {
    if LastWhere(name, IsDot) < 1 {
      CopyWithoutSuffix(name, digits);
    } else if LastWhere(name, IsDot) < |name| - 1 {
      CopyWithSuffix(name, digits);
    } else {
      CopyOfTrailingDot(name, digits);
    }
  }
}
