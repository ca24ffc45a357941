/** The `.gitignore` line that synrepo adds when it initialises a repository and takes back when it is removed.
    Adding appends the line unless some line already says the same once trimmed, and puts a line feed before it when
    the file does not end in one. Removing drops the first line that says the same and joins the others again; a
    line feed at the end stays if anything does. The two together restore most files but not all; the lemmas say
    which. Both report whether they wrote. */
module Gitignore {
  import opened Options
  import opened TextLines
  import opened Whitespace

  const ENTRY := ".synrepo/"

  predicate Contains(content: string, entry: string) {
    exists l :: l in Lines(content) && Trim(l) == entry
  }

  predicate EndsLine(content: string) {
    content != "" && content[|content| - 1] == LF
  }

  /** The content with a final newline; the empty content gets one as well. */
  function Ended(content: string): string {
    if EndsLine(content) then content else content + [LF]
  }

  function Added(content: string): string {
    Ended(content) + (ENTRY + [LF])
  }

  /** The lines without the first one that trims to the entry. */
  function WithoutFirst(ls: seq<string>, entry: string): seq<string> {
    if ls == [] then [] else if Trim(ls[0]) == entry then ls[1..] else [ls[0]] + WithoutFirst(ls[1..], entry)
  }

  function Removed(content: string, entry: string): string {
    var joined := Join(WithoutFirst(Lines(content), entry));
    if EndsLine(content) && joined != "" then joined + [LF] else joined
  }

  lemma {:induction false} WithoutFirstSplit(a: seq<string>, b: seq<string>, entry: string)
    requires forall l :: l in a ==> Trim(l) != entry
    ensures WithoutFirst(a + b, entry) == a + WithoutFirst(b, entry)
  {
    if a == [] {
      assert a + b == b;
    } else {
      assert (a + b)[1..] == a[1..] + b && a[0] in a;
      WithoutFirstSplit(a[1..], b, entry);
    }
  }

  /** The loop over the lines: `kept` and whether a line was dropped. */
  method Sift(ls: seq<string>, entry: string) returns (kept: seq<string>, removed: bool)
    ensures kept == WithoutFirst(ls, entry)
    ensures removed <==> exists l :: l in ls && Trim(l) == entry
  {
    kept, removed := [], false;
    for i := 0 to |ls|
      invariant !removed ==> kept == ls[..i] && forall j :: 0 <= j < i ==> Trim(ls[j]) != entry
      invariant removed ==> WithoutFirst(ls, entry) == kept + ls[i..] && exists l :: l in ls && Trim(l) == entry
    {
      if !removed && Trim(ls[i]) == entry {
        assert ls == ls[..i] + ls[i..];
        WithoutFirstSplit(ls[..i], ls[i..], entry);
        removed := true;
        continue;
      }
      kept := kept + [ls[i]];
    }
    if !removed {
      assert ls[..|ls|] == ls && ls + [] == ls;
      WithoutFirstSplit(ls, [], entry);
    }
  }

  class IgnoreFile {
    var content: Option<string>

    constructor (content: Option<string>)
      ensures this.content == content
    {
      this.content := content;
    }

    method EnsureRootEntry(io: bool) returns (wrote: bool)
      modifies this
      ensures wrote <==> io && !(old(content).Some? && Contains(old(content).value, ENTRY))
      ensures content == if !wrote then old(content)
                         else if old(content).None? then Some(ENTRY + [LF])
                         else Some(Added(old(content).value))
    {
      if !io { return false; }
      if content.None? {
        content := Some(ENTRY + [LF]);
        return true;
      }
      if exists l :: l in Lines(content.value) && Trim(l) == ENTRY { return false; }
      var text := content.value;
      if !EndsLine(text) { text := text + [LF]; }
      content := Some(text + (ENTRY + [LF]));
      wrote := true;
    }

    method Remove(entry: string, io: bool) returns (took: bool)
      modifies this
      ensures took <==> io && old(content).Some? && Contains(old(content).value, entry)
      ensures content == if took then Some(Removed(old(content).value, entry)) else old(content)
    {
      if content.None? || !io { return false; }
      var kept, removed := Sift(Lines(content.value), entry);
      if !removed { return false; }
      var text := Join(kept);
      if EndsLine(content.value) && text != "" { text := text + [LF]; }
      content := Some(text);
      took := true;
    }
  }

  // ---- adding and removing ----

  /** Whole lines followed by more text. */
  lemma {:induction false} EndedLines(text: string, rest: string)
    requires EndsLine(text)
    ensures Lines(text + rest) == Lines(text) + Lines(rest)
    decreases |text|
  {
    var i := FirstLf(text);
    FirstLine(text);
    var head, tail := text[..i], text[i + 1..];
    LinesCons(head, tail);
    assert text + rest == head + [LF] + (tail + rest);
    LinesCons(head, tail + rest);
    if tail == "" {
      assert tail + rest == rest;
    } else {
      EndedLines(tail, rest);
      Assoc([Chop(head)], Lines(tail), Lines(rest));
    }
  }

  lemma {:induction false} TrimStartThenCr(s: string)
    ensures TrimEnd(TrimStart(s + [CR])) == TrimEnd(TrimStart(s))
  {
    if s != "" && IsBlank(s[0]) {
      assert (s + [CR])[1..] == s[1..] + [CR];
      TrimStartThenCr(s[1..]);
    } else {
      assert s == "" ==> (s + [CR])[1..] == "";
      assert (s + [CR])[..|s|] == s;
    }
  }

  lemma TrimChop(line: string)
    ensures Trim(Chop(line)) == Trim(line)
  {
    if Chop(line) != line {
      assert line == Chop(line) + [CR];
      TrimStartThenCr(Chop(line));
    }
  }

  /** The final newline does not make the entry appear. */
  lemma {:induction false} EndedContains(content: string, entry: string)
    requires entry != "" && !Contains(content, entry)
    ensures !Contains(Ended(content), entry)
    decreases |content|
  {
    var i := FirstLf(content);
    FirstLine(content);
    if EndsLine(content) {
    } else if i == |content| {
      assert Ended(content) == content + [LF] + "";
      LinesCons(content, "");
      TrimChop(content);
      if content != "" { assert content in Lines(content); }
      assert Trim("") == "";
    } else {
      var head, tail := content[..i], content[i + 1..];
      assert content == head + [LF] + tail && Ended(content) == head + [LF] + Ended(tail);
      LinesCons(head, tail);
      LinesCons(head, Ended(tail));
      assert forall l :: l in Lines(tail) ==> l in Lines(content);
      EndedContains(tail, entry);
      assert Chop(head) in Lines(content);
    }
  }

  lemma {:induction false} JoinUnlines(ls: seq<string>)
    requires ls != []
    ensures Unlines(ls) == Join(ls) + [LF] && (Join(ls) == "" <==> ls == [""])
  {
    if |ls| == 1 {
      assert Unlines(ls) == ls[0] + [LF] + "";
    } else {
      JoinUnlines(ls[1..]);
      Assoc(ls[0] + [LF], Join(ls[1..]), [LF]);
    }
  }

  /** Whole lines are written back as they were exactly when none of them ends in CR LF. */
  lemma {:induction false} UnlinesOfLines(text: string)
    requires text == "" || EndsLine(text)
    ensures Unlines(Lines(text)) == text <==> !HasCrLf(text)
    decreases |text|
  {
    if text != "" {
      var i := FirstLf(text);
      FirstLine(text);
      var head, tail := text[..i], text[i + 1..];
      LinesCons(head, tail);
      CrLfSplit(head, tail);
      UnlinesOfLines(tail);
      var back := Unlines(Lines(tail));
      assert Unlines(Lines(text)) == Chop(head) + [LF] + back;
      if Chop(head) + [LF] + back == text {
        assert (Chop(head) + [LF] + back)[|Chop(head)|] == LF;
        assert back == text[i + 1..];
      }
    }
  }

  lemma AddedLines(content: string)
    ensures Lines(Added(content)) == Lines(Ended(content)) + [ENTRY]
  {
    assert ENTRY + [LF] == ENTRY + [LF] + "";
    LinesCons(ENTRY, "");
    EndedLines(Ended(content), ENTRY + [LF]);
  }

  lemma EntryTaken(ls: seq<string>, content: string)
    requires !Contains(content, ENTRY) && ls == Lines(Ended(content))
    ensures WithoutFirst(ls + [ENTRY], ENTRY) == ls
  {
    EndedContains(content, ENTRY);
    WithoutFirstSplit(ls, [ENTRY], ENTRY);
    assert WithoutFirst([ENTRY], ENTRY) == [] && ls + [] == ls;
  }

  /** Removal takes the line that was added; what remains are the lines, each ended by a bare newline, and nothing
      at all when the only line is empty. */
  lemma RemovesWhatWasAdded(content: string)
    requires !Contains(content, ENTRY)
    ensures var ls := Lines(Ended(content));
      && WithoutFirst(Lines(Added(content)), ENTRY) == ls
      && Removed(Added(content), ENTRY) == if ls == [""] then "" else Unlines(ls)
  {
    var ls := Lines(Ended(content));
    AddedLines(content);
    EntryTaken(ls, content);
    LinesStep(Ended(content));
    JoinUnlines(ls);
    assert EndsLine(Added(content));
  }

  /** Adding and then removing the line restores the content exactly when it is empty, or ends in a newline, is not a
      lone newline, and has no CR LF. */
  lemma RestoredIff(content: string)
    requires !Contains(content, ENTRY)
    ensures Removed(Added(content), ENTRY) == content
      <==> content == "" || (EndsLine(content) && content != [LF] && !HasCrLf(content))
  {
    var ls := Lines(Ended(content));
    RemovesWhatWasAdded(content);
    LinesStep(Ended(content));
    JoinUnlines(ls);
    UnlinesOfLines(Ended(content));
    assert Lines([LF]) == [""] by { LinesCons("", ""); assert "" + [LF] + "" == [LF]; }
    if content == "" { assert Ended(content) == [LF]; }
    assert Unlines([""]) == [LF];
  }

  /** Content without a final newline gains just that newline. */
  lemma GainsNewline(content: string)
    requires !Contains(content, ENTRY) && content != "" && !EndsLine(content) && !HasCrLf(content + [LF])
    ensures Removed(Added(content), ENTRY) == content + [LF]
  {
    RemovesWhatWasAdded(content);
    UnlinesOfLines(Ended(content));
    assert Unlines([""]) == [LF];
  }

  /** A second addition finds the line. */
  lemma SecondAddIsNoOp(content: string)
    ensures Contains(Added(content), ENTRY)
  {
    AddedLines(content);
    assert ENTRY in Lines(Added(content));
  }

  /** A file that was created for the line is left empty, not deleted. */
  lemma CreatedFileIsEmptied()
    ensures Removed(ENTRY + [LF], ENTRY) == ""
  {
    assert ENTRY + [LF] == ENTRY + [LF] + "";
    LinesCons(ENTRY, "");
  }
}
