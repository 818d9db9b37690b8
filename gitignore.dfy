/**
 * The `.gitignore` update of `crew init`: the runtime files under `.crew/`
 * that are not yet ignored are appended in one block under an
 * `# agent-crew` comment.
 */
module Gitignore {
  import opened Kernel
  import opened Text

  /** The entries `crew init` wants ignored. */
  const GitignoreEntries: seq<string> := [".crew/state.json", ".crew/logs/", ".crew/inbox/", ".crew/signals/"]

  /** The separator between the old content and the appended block. */
  const BlockHeader: string := "\n\n# agent-crew\n"

  /** The entries the content does not already hold anywhere as a substring, in list order. */
  function MissingEntries(content: string, entries: seq<string>): (r: seq<string>)
    ensures |r| <= |entries|
    decreases |entries|
  {
    if entries == [] then []
    else
      var rest := MissingEntries(content, entries[1..]);
      if !Contains(content, entries[0]) then [entries[0]] + rest else rest
  }

  /** The missing entries are exactly the listed entries the content does not hold. */
  lemma {:induction false} MissingEntriesMembers(content: string, entries: seq<string>)
    ensures forall e :: e in MissingEntries(content, entries) <==> e in entries && !Contains(content, e)
    decreases |entries|
  {
    if entries != [] {
      MissingEntriesMembers(content, entries[1..]);
      assert forall e :: e in entries <==> e == entries[0] || e in entries[1..];
    }
  }

  /**
   * The filter keeps list order: the missing entries of a concatenation are
   * those of each part, in turn.
   */
  lemma {:induction false} MissingEntriesInOrder(content: string, a: seq<string>, b: seq<string>)
    ensures MissingEntries(content, a + b) == MissingEntries(content, a) + MissingEntries(content, b)
    decreases |a|
  {
    if a == [] {
      assert a + b == b;
    } else {
      var e := a[0];
      var ab := a + b;
      assert ab[1..] == a[1..] + b && ab[0] == e;
      MissingEntriesInOrder(content, a[1..], b);
      var restAB := MissingEntries(content, ab[1..]);
      var restA := MissingEntries(content, a[1..]);
      assert MissingEntries(content, ab) == (if !Contains(content, e) then [e] + restAB else restAB);
      assert MissingEntries(content, a) == (if !Contains(content, e) then [e] + restA else restA);
      assert restAB == restA + MissingEntries(content, b);
    }
  }

  /** A single entry is kept exactly when the content does not hold it. */
  lemma MissingEntryOfOne(content: string, e: string)
    ensures MissingEntries(content, [e]) == if Contains(content, e) then [] else [e]
  {
    assert [e][1..] == [];
    assert MissingEntries(content, []) == [];
  }

  /**
   * The new `.gitignore` text, or `None` when nothing is to be written. A
   * missing file reads as empty.
   */
  function MergeGitignore(existing: Option<string>, entries: seq<string>): Option<string> {
    var content := if existing.Some? then existing.value else "";
    var toAdd := MissingEntries(content, entries);
    if |toAdd| > 0 then Some(TrimEnd(content) + BlockHeader + Join(toAdd, "\n") + "\n") else None
  }

  function ContentOf(existing: Option<string>): string {
    if existing.Some? then existing.value else ""
  }

  /** Nothing is written exactly when every entry already occurs in the file. */
  lemma NothingWrittenIffAllPresent(existing: Option<string>, entries: seq<string>)
    ensures MergeGitignore(existing, entries).None? <==> forall e :: e in entries ==> Contains(ContentOf(existing), e)
  {
    var toAdd := MissingEntries(ContentOf(existing), entries);
    MissingEntriesMembers(ContentOf(existing), entries);
    if |toAdd| > 0 {
      assert toAdd[0] in toAdd;
    }
  }

  /**
   * A written file starts with the old content, trailing whitespace trimmed,
   * and holds every entry that was missing.
   */
  lemma MergeKeepsAndAdds(existing: Option<string>, entries: seq<string>)
    requires MergeGitignore(existing, entries).Some?
    ensures var n := MergeGitignore(existing, entries).value;
      StartsWith(n, TrimEnd(ContentOf(existing)))
      && forall e :: e in entries && !Contains(ContentOf(existing), e) ==> Contains(n, e)
  {
    var content := ContentOf(existing);
    var toAdd := MissingEntries(content, entries);
    MissingEntriesMembers(content, entries);
    var n := MergeGitignore(existing, entries).value;
    var head := TrimEnd(content) + BlockHeader;
    assert n == head + Join(toAdd, "\n") + "\n";
    assert n[..|TrimEnd(content)|] == TrimEnd(content);
    forall e | e in entries && !Contains(content, e)
      ensures Contains(n, e)
    {
      var k :| 0 <= k < |toAdd| && toAdd[k] == e;
      JoinContains(toAdd, "\n", k);
      ContainsPrefixed(head, Join(toAdd, "\n"), e);
      ContainsSuffixed(head + Join(toAdd, "\n"), "\n", e);
    }
  }

  /** Entries that do not end in whitespace, as all of `crew init`'s do. */
  predicate EndsInNonSpace(entries: seq<string>) {
    forall e :: e in entries ==> |e| > 0 && !IsSpace(e[|e| - 1])
  }

  lemma InitEntriesEndInNonSpace()
    ensures EndsInNonSpace(GitignoreEntries)
  {
  }

  /** Running `crew init` again after a write changes nothing more. */
  lemma MergeIsIdempotent(existing: Option<string>, entries: seq<string>)
    requires EndsInNonSpace(entries)
    requires MergeGitignore(existing, entries).Some?
    ensures MergeGitignore(MergeGitignore(existing, entries), entries).None?
  {
    var content := ContentOf(existing);
    var n := MergeGitignore(existing, entries).value;
    MergeKeepsAndAdds(existing, entries);
    var rest := n[|TrimEnd(content)|..];
    assert n == TrimEnd(content) + rest;
    forall e | e in entries
      ensures Contains(n, e)
    {
      if Contains(content, e) {
        ContainsBeforeTrailingSpace(content, e);
        ContainsSuffixed(TrimEnd(content), rest, e);
      }
    }
    NothingWrittenIffAllPresent(Some(n), entries);
  }
}
