/** Lines of a text, as the `lines` iterators see them: split after each line feed, the line feed dropped, and a
    carriage return before it dropped too. A character stands for one byte.
    What follows the last line feed is a line only if it is not empty; a carriage return at its end stays.
    The lines forget where they began, so the byte offsets that callers sum up over lines go wrong by one for
    each line that ended in a carriage return and a line feed: `Crlfs` counts those, and `CrlfsNone` says when
    there are none. */
module TextLines {

  const LF := '\n'
  const CR := '\r'

  /** Index of the first line feed, or the length. */
  function FirstLf(t: string): (i: nat)
    ensures i <= |t| && (i < |t| ==> t[i] == LF)
  {
    if t == "" || t[0] == LF then 0 else 1 + FirstLf(t[1..])
  }

  lemma {:induction false} FirstLfIsFirst(t: string)
    ensures forall j :: 0 <= j < FirstLf(t) ==> t[j] != LF
  {
    if t != "" && t[0] != LF {
      FirstLfIsFirst(t[1..]);
      forall j | 0 <= j < FirstLf(t) ensures t[j] != LF {
        if j > 0 { assert t[1..][j - 1] == t[j]; }
      }
    }
  }

  lemma CutLine(t: string, i: nat)
    requires i < |t| && t[i] == LF
    ensures t == t[..i] + [LF] + t[i + 1..]
  {
    assert t == t[..i] + t[i..];
  }

  lemma FirstLine(t: string)
    ensures var i := FirstLf(t);
      OneLine(t[..i]) && if i == |t| then OneLine(t) else t == t[..i] + [LF] + t[i + 1..]
  {
    var i := FirstLf(t);
    FirstLfIsFirst(t);
    if i < |t| { CutLine(t, i); } else { assert t[..i] == t; }
  }

  /** The first line feed is the only index with nothing but other characters before it. */
  lemma {:induction false} FirstLfIs(t: string, i: nat)
    requires i <= |t| && (i < |t| ==> t[i] == LF) && forall j :: 0 <= j < i ==> t[j] != LF
    ensures FirstLf(t) == i
  {
    FirstLfIsFirst(t);
  }

  function Chop(line: string): string {
    if line != "" && line[|line| - 1] == CR then line[..|line| - 1] else line
  }

  function Lines(t: string): seq<string>
    decreases |t|
  {
    if t == "" then []
    else
      var i := FirstLf(t);
      if i == |t| then [t] else [Chop(t[..i])] + Lines(t[i + 1..])
  }

  lemma ConsParts<T>(x: T, rest: seq<T>)
    ensures ([x] + rest)[0] == x && ([x] + rest)[1..] == rest
  {}

  lemma LinesStep(t: string)
    requires t != ""
    ensures Lines(t) != []
    ensures Lines(t)[0] == if FirstLf(t) == |t| then t else Chop(t[..FirstLf(t)])
    ensures Lines(t)[1..] == if FirstLf(t) == |t| then [] else Lines(t[FirstLf(t) + 1..])
  {
    var i := FirstLf(t);
    if i < |t| { ConsParts(Chop(t[..i]), Lines(t[i + 1..])); }
  }

  predicate OneLine(s: string) {
    LF !in s
  }

  /** `writeln!` of each line. */
  function Unlines(ls: seq<string>): string {
    if ls == [] then "" else ls[0] + [LF] + Unlines(ls[1..])
  }

  /** `join("\n")` */
  function Join(ls: seq<string>): string {
    if ls == [] then "" else if |ls| == 1 then ls[0] else ls[0] + [LF] + Join(ls[1..])
  }

  lemma FirstLfAt(a: string, rest: string)
    requires OneLine(a)
    ensures FirstLf(a + [LF] + rest) == |a|
  {
    var t := a + [LF] + rest;
    assert t[|a|] == LF && forall j :: 0 <= j < |a| ==> t[j] == a[j] != LF;
    FirstLfIs(t, |a|);
  }

  lemma LinesCons(a: string, rest: string)
    requires OneLine(a)
    ensures Lines(a + [LF] + rest) == [Chop(a)] + Lines(rest)
  {
    FirstLfAt(a, rest);
    var t := a + [LF] + rest;
    assert t[..|a|] == a && t[|a| + 1..] == rest;
  }

  lemma Assoc<T>(a: seq<T>, b: seq<T>, c: seq<T>)
    ensures (a + b) + c == a + (b + c)
  {}

  lemma {:induction false} UnlinesConcat(a: seq<string>, b: seq<string>)
    ensures Unlines(a + b) == Unlines(a) + Unlines(b)
  {
    if a == [] {
      assert a + b == b;
    } else {
      UnlinesConcat(a[1..], b);
      assert (a + b)[1..] == a[1..] + b;
      Assoc(a[0] + [LF], Unlines(a[1..]), Unlines(b));
    }
  }

  /** Lines written with `writeln!` are read back, if none contains a line feed or ends in a carriage return. */
  lemma {:induction false} LinesOfUnlines(ls: seq<string>, rest: string)
    requires forall l :: l in ls ==> OneLine(l) && Chop(l) == l
    ensures Lines(Unlines(ls) + rest) == ls + Lines(rest)
  {
    if ls == [] {
      assert Unlines(ls) + rest == rest;
    } else {
      assert ls[0] in ls;
      Assoc(ls[0] + [LF], Unlines(ls[1..]), rest);
      LinesCons(ls[0], Unlines(ls[1..]) + rest);
      LinesOfUnlines(ls[1..], rest);
      Assoc([ls[0]], ls[1..], Lines(rest));
      assert [ls[0]] + ls[1..] == ls;
    }
  }

  ghost predicate HasCrLf(text: string) {
    exists i :: CrLfAt(text, i)
  }

  predicate CrLfAt(text: string, i: int) {
    0 <= i < |text| - 1 && text[i] == CR && text[i + 1] == LF
  }

  lemma CrLfSplit(head: string, tail: string)
    requires OneLine(head)
    ensures HasCrLf(head + [LF] + tail) <==> Chop(head) != head || HasCrLf(tail)
  {
    var text := head + [LF] + tail;
    forall i ensures CrLfAt(text, i) <==> (i == |head| - 1 && Chop(head) != head) || CrLfAt(tail, i - |head| - 1) {
      CrLfAtSplit(head, tail, i);
    }
    if HasCrLf(tail) {
      var i :| CrLfAt(tail, i);
      assert CrLfAt(tail, (i + |head| + 1) - |head| - 1) && CrLfAt(text, i + |head| + 1);
    }
    if Chop(head) != head { assert CrLfAt(text, |head| - 1); }
  }

  lemma CrLfAtSplit(head: string, tail: string, i: int)
    requires OneLine(head)
    ensures CrLfAt(head + [LF] + tail, i)
      <==> (i == |head| - 1 && Chop(head) != head) || CrLfAt(tail, i - |head| - 1)
  {
    var text := head + [LF] + tail;
    if 0 <= i < |text| - 1 {
      if i + 1 < |head| {
        assert text[i + 1] == head[i + 1];
      } else if i + 1 == |head| {
        assert text[i] == head[i] && text[i + 1] == LF;
      } else if i == |head| {
        assert text[i] == LF;
      } else {
        assert text[i] == tail[i - |head| - 1] && text[i + 1] == tail[i - |head|];
      }
    }
  }

  // ---- where lines stand in the text ----

  /** The offset of line `n`, counted from 0, for a text that has so many lines. */
  function LineStart(t: string, n: nat): (at: nat)
    ensures at <= |t|
    decreases n
  {
    if n == 0 || FirstLf(t) == |t| then 0 else FirstLf(t) + 1 + LineStart(t[FirstLf(t) + 1..], n - 1)
  }

  /** How many of the first `n` lines end in CR LF. */
  function Crlfs(t: string, n: nat): nat
    decreases n
  {
    if n == 0 || FirstLf(t) == |t| then 0
    else (if Chop(t[..FirstLf(t)]) != t[..FirstLf(t)] then 1 else 0) + Crlfs(t[FirstLf(t) + 1..], n - 1)
  }

  /** No CR LF ends before offset `at`. */
  ghost predicate NoCrLfBefore(t: string, at: nat) {
    forall j :: CrLfAt(t, j) ==> j + 1 >= at
  }

  /** A CR LF ends the first line, which ends at `i`, or stands in the rest. */
  lemma CrLfAtTail(t: string, i: nat, j: int)
    requires i < |t| && t[i] == LF && forall k :: 0 <= k < i ==> t[k] != LF
    ensures CrLfAt(t, j) <==> (j == i - 1 && Chop(t[..i]) != t[..i]) || CrLfAt(t[i + 1..], j - i - 1)
  {
    var tail := t[i + 1..];
    if i < j < |t| - 1 {
      assert tail[j - i - 1] == t[j] && tail[j - i] == t[j + 1];
    } else if 0 < i && j == i - 1 {
      assert t[..i][i - 1] == t[j];
    }
  }

  lemma NoneBeforeTail(t: string, i: nat, at: nat)
    requires i < |t| && t[i] == LF && forall k :: 0 <= k < i ==> t[k] != LF
    ensures NoCrLfBefore(t, i + 1 + at) <==> Chop(t[..i]) == t[..i] && NoCrLfBefore(t[i + 1..], at)
  {
    var tail := t[i + 1..];
    CrLfAtTail(t, i, i - 1);
    forall j | CrLfAt(t, j) ensures j == i - 1 || CrLfAt(tail, j - i - 1) { CrLfAtTail(t, i, j); }
    forall j | CrLfAt(tail, j) ensures CrLfAt(t, j + i + 1) { CrLfAtTail(t, i, j + i + 1); }
  }

  /** No line before line `n` ends in CR LF exactly when no CR LF ends before it. */
  lemma {:induction false} CrlfsNone(t: string, n: nat)
    ensures Crlfs(t, n) == 0 <==> NoCrLfBefore(t, LineStart(t, n))
    decreases n
  {
    var i := FirstLf(t);
    if n > 0 && i < |t| {
      FirstLfIsFirst(t);
      NoneBeforeTail(t, i, LineStart(t[i + 1..], n - 1));
      CrlfsNone(t[i + 1..], n - 1);
    }
  }
}
