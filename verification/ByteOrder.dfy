/** The order of texts byte by byte, as Rust strings and SQLite compare them.
    It is a total order. Object IDs, written in lower-case hexadecimal digits, sort before the word that stands for a
    missing commit, because every digit sorts before the first letter of that word. Sorted file lists use the
    same order. */
module ByteOrder {

  /** Byte order. */
  predicate Less(a: string, b: string) {
    b != "" && (a == "" || a[0] < b[0] || (a[0] == b[0] && Less(a[1..], b[1..])))
  }

  lemma {:induction false} LessOrder(a: string, b: string, c: string)
    ensures !Less(a, a) && (a == b || Less(a, b) || Less(b, a)) && (Less(a, b) && Less(b, c) ==> Less(a, c))
  {
    if a != "" {
      LessOrder(a[1..], if b == "" then "" else b[1..], if c == "" then "" else c[1..]);
      if b != "" && a[0] == b[0] && a[1..] == b[1..] { assert a == [a[0]] + a[1..] && b == [b[0]] + b[1..]; }
    }
  }

  predicate IsLowerHex(s: string) {
    forall c :: c in s ==> '0' <= c <= '9' || 'a' <= c <= 'f'
  }

  /** The revision of a repository without a commit sorts above every object ID. */
  lemma UnknownSortsLast(id: string)
    requires IsLowerHex(id)
    ensures Less(id, "unknown")
  {
    if id != "" { assert id[0] in id; }
  }
}
