/** Lower-casing of the activity labels, on the ASCII letters they are written in. */
module Text {

  function LowerChar(c: char): (d: char)
    ensures 'A' <= c <= 'Z' ==> 'a' <= d <= 'z' && d as int - c as int == 32
    ensures !('A' <= c <= 'Z') ==> d == c
  {
    if 'A' <= c <= 'Z' then (c as int + 32) as char else c
  }

  /** The string with every upper-case ASCII letter replaced by its lower-case letter. */
  function ToLower(s: string): (r: string)
    ensures |r| == |s|
    ensures forall i | 0 <= i < |s| :: r[i] == LowerChar(s[i])
  {
    if s == [] then [] else [LowerChar(s[0])] + ToLower(s[1..])
  }

  predicate HasNoUpper(s: string) {
    forall i | 0 <= i < |s| :: !('A' <= s[i] <= 'Z')
  }

  /** Lower-casing leaves no upper-case letter, so doing it twice changes nothing more. */
  lemma ToLowerIdempotent(s: string)
    ensures HasNoUpper(ToLower(s))
    ensures ToLower(ToLower(s)) == ToLower(s)
  {
  }
}
