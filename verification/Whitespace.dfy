/** Trimming of blanks. Only the ASCII blanks are modelled. */
module Whitespace {

  predicate IsBlank(c: char) {
    c == ' ' || c == '\t' || c == '\n' || c == '\r'
  }

  function TrimStart(s: string): string {
    if s != "" && IsBlank(s[0]) then TrimStart(s[1..]) else s
  }

  function TrimEnd(s: string): string {
    if s != "" && IsBlank(s[|s| - 1]) then TrimEnd(s[..|s| - 1]) else s
  }

  function Trim(s: string): string {
    TrimEnd(TrimStart(s))
  }

  lemma {:induction false} TrimEndStart(s: string)
    ensures TrimEnd(s) <= s && (TrimEnd(s) != "" ==> !IsBlank(TrimEnd(s)[|TrimEnd(s)| - 1]))
  {
    if s != "" && IsBlank(s[|s| - 1]) { TrimEndStart(s[..|s| - 1]); }
  }

  lemma {:induction false} TrimStartFirst(s: string)
    ensures TrimStart(s) != "" ==> !IsBlank(TrimStart(s)[0])
  {
    if s != "" && IsBlank(s[0]) { TrimStartFirst(s[1..]); }
  }

  lemma TrimTwice(s: string)
    ensures Trim(Trim(s)) == Trim(s)
  {
    TrimEndStart(TrimStart(s));
    TrimStartFirst(s);
    TrimEndStart(Trim(s));
  }
}
