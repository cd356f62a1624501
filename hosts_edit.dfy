/**
 * The two edits internal/tunnel/tunnel.go makes to the system hosts file, as
 * transforms of the file's text: `updateHostsFile` (add a loopback line for a
 * domain unless some line already mentions it) and `removeFromHostsFile` (drop
 * every line that mentions the domain). Reading and writing the file is modelled
 * in the Tunnel module.
 */
module HostsEdit {
  import opened Text

  /** Some line of `content`, as the scanner splits it, mentions `domain`. */
  predicate HasEntry(content: string, domain: string) {
    exists k :: 0 <= k < |ScanLines(content)| && Contains(ScanLines(content)[k], domain)
  }

  /** The line `updateHostsFile` adds for `domain`. */
  function EntryLine(domain: string): string {
    "127.0.0.1\t" + domain
  }

  /** The content `updateHostsFile` leaves: unchanged if a line mentions `domain`, else with a new entry appended. */
  function WithEntry(content: string, domain: string): string {
    if HasEntry(content, domain) then content else content + "\n" + EntryLine(domain) + "\n"
  }

  /** The lines that do not mention `domain`, in their original order. */
  function Kept(lines: seq<string>, domain: string): (r: seq<string>)
    ensures |r| <= |lines|
    ensures forall k :: 0 <= k < |r| ==> !Contains(r[k], domain)
  {
    if lines == [] then []
    else
      var init := Kept(lines[..|lines| - 1], domain);
      if Contains(lines[|lines| - 1], domain) then init else init + [lines[|lines| - 1]]
  }

  /** The content `removeFromHostsFile` writes back: the kept lines joined by newlines, plus a final newline. */
  function WithoutEntry(content: string, domain: string): string {
    Join(Kept(ScanLines(content), domain), "\n") + "\n"
  }

  /** The scan of `updateHostsFile`: the new content, and whether it has to be written. */
  method AddEntry(content: string, domain: string) returns (updated: string, write: bool)
    ensures write <==> !HasEntry(content, domain)
    ensures updated == WithEntry(content, domain)
  {
    var lines := ScanLines(content);
    var i := 0;
    while i < |lines|
      invariant 0 <= i <= |lines|
      invariant forall k :: 0 <= k < i ==> !Contains(lines[k], domain)
    {
      if Contains(lines[i], domain) {
        return content, false;
      }
      i := i + 1;
    }
    updated := content + "\n" + EntryLine(domain) + "\n";
    write := true;
  }

  /** The scan of `removeFromHostsFile`: collects the lines that do not mention `domain`. */
  method RemoveEntry(content: string, domain: string) returns (updated: string)
    ensures updated == WithoutEntry(content, domain)
  {
    var lines := ScanLines(content);
    var newLines: seq<string> := [];
    var i := 0;
    while i < |lines|
      invariant 0 <= i <= |lines|
      invariant newLines == Kept(lines[..i], domain)
    {
      assert lines[..i + 1][..i] == lines[..i];
      if !Contains(lines[i], domain) {
        newLines := newLines + [lines[i]];
      }
      i := i + 1;
    }
    assert lines[..|lines|] == lines;
    updated := Join(newLines, "\n") + "\n";
  }

  // ---- facts about the scanner's lines ----

  /** One step of the scanner: the text up to the first newline is the first line. */
  lemma ScanLinesStep(s: string, i: int)
    requires 0 <= i < |s| && s[i] == '\n' && '\n' !in s[..i]
    ensures ScanLines(s) == [DropCR(s[..i])] + ScanLines(s[i + 1..])
  {
    IndexOfIs(s, '\n', i);
  }

  /** The scanner's first line of `a + "\n" + r`, when `a` has a newline at `j` and none before. */
  lemma ScanLinesAt(a: string, r: string, j: int)
    requires 0 <= j < |a| && a[j] == '\n' && '\n' !in a[..j]
    ensures ScanLines(a + "\n" + r) == [DropCR(a[..j])] + ScanLines(a[j + 1..] + "\n" + r)
  {
    var s := a + "\n" + r;
    assert s[j + 1..] == a[j + 1..] + "\n" + r && s[..j] == a[..j];
    ScanLinesStep(s, j);
  }

  /** A newline-free `x` followed by a newline is the scanner's first line. */
  lemma ScanLinesFirst(x: string, r: string)
    requires '\n' !in x
    ensures ScanLines(x + "\n" + r) == [DropCR(x)] + ScanLines(r)
  {
    var s := x + "\n" + r;
    assert s[..|x|] == x && s[|x| + 1..] == r;
    ScanLinesStep(s, |x|);
  }

  /** A newline-free `x` between a newline and a final newline is the scanner's last line. */
  lemma {:induction false} ScanLinesLast(a: string, x: string)
    requires '\n' !in x
    ensures var lines := ScanLines(a + "\n" + (x + "\n")); |lines| > 0 && lines[|lines| - 1] == DropCR(x)
    decreases |a|
  {
    if '\n' !in a {
      ScanLinesFirst(a, x + "\n");
      ScanLinesOneLine(x);
    } else {
      var j := IndexOf(a, '\n');
      ScanLinesAt(a, x + "\n", j);
      ScanLinesLast(a[j + 1..], x);
    }
  }

  lemma ScanLinesOneLine(x: string)
    requires '\n' !in x
    ensures ScanLines(x + "\n") == [DropCR(x)]
  {
    var s := x + "\n";
    assert s[..|x|] == x && s[|x| + 1..] == [];
    ScanLinesStep(s, |x|);
  }

  /** Scanning text built by joining newline-free lines gives those lines back, less trailing `\r`s. */
  lemma {:induction false} ScanLinesJoin(lines: seq<string>)
    requires |lines| >= 1
    requires forall k :: 0 <= k < |lines| ==> '\n' !in lines[k]
    ensures |ScanLines(Join(lines, "\n") + "\n")| == |lines|
    ensures forall k :: 0 <= k < |lines| ==> ScanLines(Join(lines, "\n") + "\n")[k] == DropCR(lines[k])
    decreases |lines|
  {
    if |lines| == 1 {
      ScanLinesOneLine(lines[0]);
    } else {
      var rest := lines[1..];
      var tail := Join(rest, "\n") + "\n";
      var out := ScanLines(Join(lines, "\n") + "\n");
      assert Join(lines, "\n") + "\n" == lines[0] + "\n" + tail;
      ScanLinesFirst(lines[0], tail);
      ScanLinesJoin(rest);
      assert out == [DropCR(lines[0])] + ScanLines(tail);
      forall k | 0 <= k < |lines| ensures out[k] == DropCR(lines[k]) {
        if k > 0 {
          assert out[k] == ScanLines(tail)[k - 1];
          assert rest[k - 1] == lines[k];
        }
      }
    }
  }

  /** A character missing from a text is missing from each of its slices. */
  lemma NotInSlice(s: string, c: char, i: int, j: int)
    requires c !in s && 0 <= i <= j <= |s|
    ensures c !in s[i..j]
  {
  }

  /** Scanning never creates a character the text does not have. */
  lemma {:induction false} ScanLinesChars(s: string, c: char)
    requires c !in s
    ensures forall k :: 0 <= k < |ScanLines(s)| ==> c !in ScanLines(s)[k]
    decreases |s|
  {
    if s != [] {
      var i := IndexOf(s, '\n');
      var lines := ScanLines(s);
      if i >= 0 {
        ScanLinesStep(s, i);
        var head := DropCR(s[..i]);
        var tail := s[i + 1..];
        NotInSlice(s, c, i + 1, |s|);
        NotInSlice(s, c, 0, |head|);
        assert head == s[..i][..|head|] == s[0..|head|];
        ScanLinesChars(tail, c);
        forall k | 0 <= k < |lines| ensures c !in lines[k] {
          if k > 0 {
            assert lines[k] == ScanLines(tail)[k - 1];
          }
        }
      } else {
        var head := DropCR(s);
        assert lines == [head];
        NotInSlice(s, c, 0, |head|);
        assert head == s[0..|head|];
      }
    }
  }

  /** A line is kept exactly when it was there and does not mention the domain. */
  lemma {:induction false} KeptMembers(lines: seq<string>, domain: string, x: string)
    ensures x in Kept(lines, domain) <==> x in lines && !Contains(x, domain)
    decreases |lines|
  {
    if lines != [] {
      var init := lines[..|lines| - 1];
      KeptMembers(init, domain, x);
      assert lines == init + [lines[|lines| - 1]];
    }
  }

  lemma {:induction false} KeptNothingToDrop(lines: seq<string>, domain: string)
    requires forall k :: 0 <= k < |lines| ==> !Contains(lines[k], domain)
    ensures Kept(lines, domain) == lines
    decreases |lines|
  {
    if lines != [] {
      KeptNothingToDrop(lines[..|lines| - 1], domain);
      assert lines == lines[..|lines| - 1] + [lines[|lines| - 1]];
    }
  }

  // ---- the properties of the two edits ----

  /** After `updateHostsFile`'s edit, some line mentions the domain. */
  lemma WithEntryHasEntry(content: string, domain: string)
    requires '\n' !in domain
    requires domain == [] || domain[|domain| - 1] != '\r'
    ensures HasEntry(WithEntry(content, domain), domain)
  {
    if !HasEntry(content, domain) {
      var x := EntryLine(domain);
      assert '\n' !in x by {
        assert forall i :: 0 <= i < |x| ==> x[i] == (if i < 10 then "127.0.0.1\t"[i] else domain[i - 10]);
      }
      ScanLinesLast(content, x);
      assert DropCR(x) == x;
      assert content + "\n" + x + "\n" == content + "\n" + (x + "\n");
      var lines := ScanLines(content + "\n" + (x + "\n"));
      ContainsItself(domain);
      ContainsRight("127.0.0.1\t", domain, domain);
      assert Contains(lines[|lines| - 1], domain);
    }
  }

  /** Adding an entry twice is the same as adding it once. */
  lemma WithEntryIdempotent(content: string, domain: string)
    requires '\n' !in domain
    requires domain == [] || domain[|domain| - 1] != '\r'
    ensures WithEntry(WithEntry(content, domain), domain) == WithEntry(content, domain)
  {
    WithEntryHasEntry(content, domain);
  }

  /** No line of the content `removeFromHostsFile` writes mentions the domain. */
  lemma WithoutEntryHasNoEntry(content: string, domain: string)
    requires domain != []
    ensures !HasEntry(WithoutEntry(content, domain), domain)
  {
    var kept := Kept(ScanLines(content), domain);
    var out := ScanLines(WithoutEntry(content, domain));
    if kept == [] {
      assert WithoutEntry(content, domain) == "\n";
      ScanLinesOneLine("");
      assert out == [""];
      assert !Contains("", domain);
    } else {
      forall k | 0 <= k < |kept| ensures '\n' !in kept[k] {
        KeptMembers(ScanLines(content), domain, kept[k]);
      }
      ScanLinesJoin(kept);
      forall k | 0 <= k < |out| ensures !Contains(out[k], domain) {
        if Contains(out[k], domain) {
          ContainsPrefixOf(kept[k], |DropCR(kept[k])|, domain);
        }
      }
    }
  }

  /** No line of `content`, as the scanner splits it, still ends in a carriage return. */
  predicate NoLineEndsInCR(content: string) {
    forall k :: 0 <= k < |ScanLines(content)| ==> DropCR(ScanLines(content)[k]) == ScanLines(content)[k]
  }

  /**
   * Rescanning what `removeFromHostsFile` writes gives back exactly the kept lines, in
   * order, or one empty line when nothing was kept, provided no scanned line still ends
   * in a carriage return (CRLF files qualify, since the scanner drops their `\r`).
   */
  lemma WithoutEntryLines(content: string, domain: string)
    requires NoLineEndsInCR(content)
    ensures var kept := Kept(ScanLines(content), domain);
      ScanLines(WithoutEntry(content, domain)) == if kept == [] then [""] else kept
  {
    var lines := ScanLines(content);
    var kept := Kept(lines, domain);
    if kept == [] {
      assert WithoutEntry(content, domain) == "\n";
      ScanLinesOneLine("");
    } else {
      forall k | 0 <= k < |kept| ensures '\n' !in kept[k] && DropCR(kept[k]) == kept[k] {
        KeptMembers(lines, domain, kept[k]);
      }
      ScanLinesJoin(kept);
    }
  }

  /** Removing an entry twice is the same as removing it once, when no scanned line still ends in a carriage return. */
  lemma WithoutEntryIdempotent(content: string, domain: string)
    requires NoLineEndsInCR(content)
    ensures WithoutEntry(WithoutEntry(content, domain), domain) == WithoutEntry(content, domain)
  {
    var kept := Kept(ScanLines(content), domain);
    WithoutEntryLines(content, domain);
    if kept == [] {
      assert WithoutEntry(content, domain) == "\n";
      if Contains("", domain) {
        assert Kept([""], domain) == [];
      } else {
        assert Kept([""], domain) == [""];
      }
    } else {
      KeptNothingToDrop(kept, domain);
    }
  }

  /** A CRLF line is one the scanner leaves no carriage return in. */
  lemma CRLFLineEndsClean(a: string)
    requires '\r' !in a && '\n' !in a
    ensures ScanLines(a + "\r\n") == [a]
    ensures NoLineEndsInCR(a + "\r\n")
  {
    assert a + "\r\n" == (a + "\r") + "\n";
    ScanLinesOneLine(a + "\r");
    assert (a + "\r")[..|a|] == a;
  }

  /** A line ending in two carriage returns loses one more on each pass, so removal is not idempotent there. */
  lemma DoubleCRNotIdempotent()
    ensures WithoutEntry("a\r\r\n", "x") == "a\r\n"
    ensures WithoutEntry(WithoutEntry("a\r\r\n", "x"), "x") == "a\n"
  {
    ScanLinesOneLine("a\r\r");
    assert "a\r\r\n" == "a\r\r" + "\n";
    assert DropCR("a\r\r") == "a\r";
    ScanLinesOneLine("a\r");
    assert "a\r\n" == "a\r" + "\n";
    assert DropCR("a\r") == "a";
    NotContainsChar("a\r", 'x');
    NotContainsChar("a", 'x');
  }

  /** A text without `c` does not contain the one-character text `[c]`. */
  lemma NotContainsChar(s: string, c: char)
    requires c !in s
    ensures !Contains(s, [c])
  {
    forall i | 0 <= i <= |s| - 1 ensures !OccursAt(s, [c], i) {
      assert s[i..i + 1][0] == s[i];
    }
  }
}
