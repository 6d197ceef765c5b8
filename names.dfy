/**
 * Stack names: MCStack::SetName replaces every ',' with '_' (a comma would
 * break the "name,file" lines of the stackFiles property) and stores the
 * untitled string for an empty name. Names are compared without regard to
 * case when the setter decides whether the name changed.
 */
module Names {

  /** The name an empty stack name is replaced with (MCuntitledstring). */
  const UNTITLED: string := "Untitled"

  /** MCStringFindAndReplaceChar: every `from` replaced with `to`, all else kept. */
  function ReplaceChar(s: string, from: char, to: char): (r: string)
    ensures |r| == |s|
    ensures forall i :: 0 <= i < |s| ==> r[i] == (if s[i] == from then to else s[i])
  {
    if s == [] then [] else [if s[0] == from then to else s[0]] + ReplaceChar(s[1..], from, to)
  }

  /** The name SetName stores for the requested name `s`. */
  function NormaliseName(s: string): (r: string)
    ensures ',' !in r
    ensures |r| > 0
    ensures |s| == 0 ==> r == UNTITLED
    ensures |s| > 0 ==> |r| == |s| && forall i :: 0 <= i < |s| ==> r[i] == (if s[i] == ',' then '_' else s[i])
  {
    var replaced := ReplaceChar(s, ',', '_');
    if |replaced| == 0 then UNTITLED else replaced
  }

  /** A name that is already non-empty and comma-free is stored unchanged. */
  lemma {:induction false} NormaliseKeepsCleanName(s: string)
    requires |s| > 0 && ',' !in s
    ensures NormaliseName(s) == s
  {
    var r := NormaliseName(s);
    forall i | 0 <= i < |s| ensures r[i] == s[i] {
      assert s[i] != ',';
    }
  }

  /** Normalising a stored name changes nothing. */
  lemma NormaliseIdempotent(s: string)
    ensures NormaliseName(NormaliseName(s)) == NormaliseName(s)
  {
    NormaliseKeepsCleanName(NormaliseName(s));
  }

  /** Case folding of the name comparison, on ASCII letters: an upper-case letter becomes its lower-case one. */
  function FoldChar(c: char): (r: char)
    ensures 'A' <= c <= 'Z' ==> 'a' <= r <= 'z' && r as int - c as int == 'a' as int - 'A' as int
    ensures !('A' <= c <= 'Z') ==> r == c
  {
    if 'A' <= c <= 'Z' then (c as int + 32) as char else c
  }

  /** Whether two names are equal ignoring case (hasname). */
  predicate SameName(a: string, b: string): (r: bool)
    ensures a == b ==> r
    ensures r ==> |a| == |b|
  {
    |a| == |b| && forall i :: 0 <= i < |a| ==> FoldChar(a[i]) == FoldChar(b[i])
  }
}
