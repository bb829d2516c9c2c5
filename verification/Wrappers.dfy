/** Values that may be missing, and the only text normalisation the model needs. */
module Wrappers {

  datatype Option<+T> = None | Some(value: T) {
    function GetOr(default: T): T {
      match this
      case Some(v) => v
      case None => default
    }
  }

  function UpperChar(c: char): char {
    if 'a' <= c <= 'z' then c - 'a' + 'A' else c
  }

  /** Upper-casing of ASCII text. */
  function Upper(s: string): string {
    seq(|s|, i requires 0 <= i < |s| => UpperChar(s[i]))
  }

  /** Texts that differ only in the case of ASCII letters have the same upper-casing; a text without
      lower-case letters is its own. */
  lemma UpperIgnoresCase(s: string, t: string)
    requires |s| == |t|
    requires forall i :: 0 <= i < |s| ==>
               s[i] == t[i] || ('A' <= t[i] <= 'Z' && s[i] as int == t[i] as int + 32)
    ensures (forall i :: 0 <= i < |t| ==> !('a' <= t[i] <= 'z')) ==> Upper(s) == t
    ensures Upper(s) == Upper(t)
  {
  }

  predicate Distinct(names: seq<string>) {
    forall i, j :: 0 <= i < j < |names| ==> names[i] != names[j]
  }
}
