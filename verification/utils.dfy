/** Validation, escaping and history helpers of the conversation engine. */
module Utils {
  import opened Text
  import opened Host
  import opened Collections

  /** Largest file, in bytes, that may be read into the conversation: 1 MiB. */
  const MaxFileSize: int := 1024 * 1024

  /** string.Contains(sub): sub occurs somewhere in s. */
  predicate HasSubstring(s: string, sub: string)
    decreases |s|
  {
    sub <= s || (s != [] && HasSubstring(s[1..], sub))
  }

  /**
   * The sandbox rule for a path given relative to the working directory, checked in the
   * source's order: not blank, no NUL character, not rooted, no "..", no character the
   * host forbids in paths.
   */
  predicate ValidateRelativePath(path: string) {
    if IsBlank(path) then false
    else if '\0' in path then false
    else if IsPathRooted(path) then false
    else if HasSubstring(path, "..") then false
    else if exists i :: 0 <= i < |path| && IsInvalidPathChar(path[i]) then false
    else true
  }

  /** ".." occurs in s exactly when two adjacent characters of s are both '.'. */
  lemma {:induction false} DotDotAt(s: string)
    ensures HasSubstring(s, "..") <==> exists i :: 0 <= i < |s| - 1 && s[i] == '.' && s[i + 1] == '.'
    decreases |s|
  {
    if s != [] {
      DotDotAt(s[1..]);
      if ".." <= s {
        assert s[0] == '.' && s[1] == '.';
      }
      if HasSubstring(s[1..], "..") {
        var i :| 0 <= i < |s[1..]| - 1 && s[1..][i] == '.' && s[1..][i + 1] == '.';
        assert s[i + 1] == '.' && s[i + 2] == '.';
      }
      if exists i :: 0 <= i < |s| - 1 && s[i] == '.' && s[i + 1] == '.' {
        var i :| 0 <= i < |s| - 1 && s[i] == '.' && s[i + 1] == '.';
        if i == 0 {
          assert s[..2] == "..";
        } else {
          assert s[1..][i - 1] == '.' && s[1..][i] == '.';
        }
      }
    }
  }

  /**
   * What the sandbox rule accepts, stated character by character: some non-blank
   * character, not rooted, no character the host forbids (NUL among them, so the
   * separate NUL test never decides anything), and no two adjacent dots.
   */
  lemma ValidateRelativePathMeans(p: string)
    ensures ValidateRelativePath(p) <==>
      && (exists i :: 0 <= i < |p| && !IsWhiteSpace(p[i]))
      && !IsPathRooted(p)
      && (forall i :: 0 <= i < |p| ==> !IsInvalidPathChar(p[i]))
      && (forall i :: 0 <= i < |p| - 1 ==> !(p[i] == '.' && p[i + 1] == '.'))
  {
    DotDotAt(p);
    if '\0' in p {
      var i :| 0 <= i < |p| && p[i] == '\0';
      assert IsInvalidPathChar(p[i]);
    }
  }

  /**
   * A path the sandbox rule accepts, resolved against a working directory, is the working
   * directory followed (after at most one separator) by that path, which climbs no level.
   */
  lemma SandboxedResolution(workingDirectory: string, p: string)
    requires workingDirectory != [] && ValidateRelativePath(p)
    ensures var full := Combine(workingDirectory, p);
      && workingDirectory <= full
      && (full == workingDirectory + p || full == workingDirectory + [DirectorySeparator] + p)
      && !HasSubstring(p, "..")
  {
  }

  /** Examples of paths the sandbox rule rejects: a traversal, a name with two dots,
      a NUL character, a rooted path. */
  lemma SandboxRejections()
    ensures !ValidateRelativePath("../etc/passwd")
    ensures !ValidateRelativePath("a..b")
    ensures !ValidateRelativePath("sub\0file")
    ensures !ValidateRelativePath("C:\\data\\file.sql")
  {
    assert "../etc/passwd"[..2] == "..";
    assert "a..b"[1..][..2] == "..";
    assert "sub\0file"[3] == '\0';
  }

  /** An example of a path the sandbox rule accepts. */
  lemma SandboxAcceptance()
    ensures ValidateRelativePath("q.sql")
  {
    var good := "q.sql";
    ValidateRelativePathMeans(good);
    assert !IsWhiteSpace(good[0]);
  }

  /** Utils.ValidateFileSize: the file exists and is no longer than maxSize bytes. */
  predicate ValidateFileSize(fs: FileSystem, path: string, maxSize: int) {
    path in fs.files && fs.files[path].length <= maxSize
  }

  /** A file of exactly 1 MiB passes the size rule; one byte more does not. */
  lemma FileSizeBoundary(fs: FileSystem, path: string)
    requires path in fs.files
    ensures ValidateFileSize(fs, path, MaxFileSize) <==> fs.files[path].length <= 1048576
    ensures fs.files[path].length == 1048576 ==> ValidateFileSize(fs, path, MaxFileSize)
    ensures fs.files[path].length == 1048577 ==> !ValidateFileSize(fs, path, MaxFileSize)
  {
  }

  /** The five replacements of EscapeHtml, in the source's order: '&' first. */
  function HtmlReplacements(s: string): string {
    var amp := ReplaceChar(s, '&', "&amp;");
    var lt := ReplaceChar(amp, '<', "&lt;");
    var gt := ReplaceChar(lt, '>', "&gt;");
    var quot := ReplaceChar(gt, '"', "&quot;");
    ReplaceChar(quot, '\'', "&#39;")
  }

  /** Utils.EscapeHtml: the empty string is returned as it is. */
  function EscapeHtml(s: string): string {
    if s == [] then s else HtmlReplacements(s)
  }

  /** The entity one character becomes. */
  function Entity(c: char): string {
    if c == '&' then "&amp;"
    else if c == '<' then "&lt;"
    else if c == '>' then "&gt;"
    else if c == '"' then "&quot;"
    else if c == '\'' then "&#39;"
    else [c]
  }

  /** One-pass escaping: every character replaced by its entity. */
  function EscapeEach(s: string): string {
    if s == [] then [] else Entity(s[0]) + EscapeEach(s[1..])
  }

  lemma ReplaceCharAbsent(s: string, c: char, rep: string)
    requires c !in s
    ensures ReplaceChar(s, c, rep) == s
  {
  }

  lemma ReplaceCharSingle(c: char, d: char, rep: string)
    ensures ReplaceChar([c], d, rep) == if c == d then rep else [c]
  {
    assert [c][1..] == [];
    assert ReplaceChar([c][1..], d, rep) == [];
  }

  /** The replacement chain leaves a string alone when it holds none of the five characters. */
  lemma HtmlReplacementsPlain(s: string)
    requires '&' !in s && '<' !in s && '>' !in s && '"' !in s && '\'' !in s
    ensures HtmlReplacements(s) == s
  {
    ReplaceCharAbsent(s, '&', "&amp;");
    ReplaceCharAbsent(s, '<', "&lt;");
    ReplaceCharAbsent(s, '>', "&gt;");
    ReplaceCharAbsent(s, '"', "&quot;");
    ReplaceCharAbsent(s, '\'', "&#39;");
  }

  /** One character goes through the chain to its entity. */
  lemma HtmlReplacementsOfChar(c: char)
    ensures HtmlReplacements([c]) == Entity(c)
  {
    ReplaceCharSingle(c, '&', "&amp;");
    if c == '&' {
      var e := "&amp;";
      assert '<' !in e && '>' !in e && '"' !in e && '\'' !in e;
      ReplaceCharAbsent(e, '<', "&lt;");
      ReplaceCharAbsent(e, '>', "&gt;");
      ReplaceCharAbsent(e, '"', "&quot;");
      ReplaceCharAbsent(e, '\'', "&#39;");
    } else if c == '<' {
      ReplaceCharSingle(c, '<', "&lt;");
      var e := "&lt;";
      assert '>' !in e && '"' !in e && '\'' !in e;
      ReplaceCharAbsent(e, '>', "&gt;");
      ReplaceCharAbsent(e, '"', "&quot;");
      ReplaceCharAbsent(e, '\'', "&#39;");
    } else if c == '>' {
      ReplaceCharSingle(c, '<', "&lt;");
      ReplaceCharSingle(c, '>', "&gt;");
      var e := "&gt;";
      assert '"' !in e && '\'' !in e;
      ReplaceCharAbsent(e, '"', "&quot;");
      ReplaceCharAbsent(e, '\'', "&#39;");
    } else if c == '"' {
      ReplaceCharSingle(c, '<', "&lt;");
      ReplaceCharSingle(c, '>', "&gt;");
      ReplaceCharSingle(c, '"', "&quot;");
      var e := "&quot;";
      assert '\'' !in e;
      ReplaceCharAbsent(e, '\'', "&#39;");
    } else if c == '\'' {
      ReplaceCharSingle(c, '<', "&lt;");
      ReplaceCharSingle(c, '>', "&gt;");
      ReplaceCharSingle(c, '"', "&quot;");
      ReplaceCharSingle(c, '\'', "&#39;");
    } else {
      HtmlReplacementsPlain([c]);
    }
  }

  lemma HtmlReplacementsAppend(a: string, b: string)
    ensures HtmlReplacements(a + b) == HtmlReplacements(a) + HtmlReplacements(b)
  {
    ReplaceCharAppend(a, b, '&', "&amp;");
    var a1, b1 := ReplaceChar(a, '&', "&amp;"), ReplaceChar(b, '&', "&amp;");
    ReplaceCharAppend(a1, b1, '<', "&lt;");
    var a2, b2 := ReplaceChar(a1, '<', "&lt;"), ReplaceChar(b1, '<', "&lt;");
    ReplaceCharAppend(a2, b2, '>', "&gt;");
    var a3, b3 := ReplaceChar(a2, '>', "&gt;"), ReplaceChar(b2, '>', "&gt;");
    ReplaceCharAppend(a3, b3, '"', "&quot;");
    var a4, b4 := ReplaceChar(a3, '"', "&quot;"), ReplaceChar(b3, '"', "&quot;");
    ReplaceCharAppend(a4, b4, '\'', "&#39;");
  }

  /**
   * Because '&' is replaced first, the chain of replacements never re-escapes an entity
   * it produced: it equals escaping each character of the input once.
   */
  lemma {:induction false} EscapeHtmlIsPerCharacter(s: string)
    ensures EscapeHtml(s) == EscapeEach(s)
  {
    if s != [] {
      EscapeHtmlIsPerCharacter(s[1..]);
      assert s == [s[0]] + s[1..];
      HtmlReplacementsAppend([s[0]], s[1..]);
      HtmlReplacementsOfChar(s[0]);
    }
  }

  /** Escaped text contains no raw '<', '>', '"' or '\''. */
  lemma EscapeHtmlHasNoMarkup(s: string)
    ensures var r := EscapeHtml(s);
      '<' !in r && '>' !in r && '"' !in r && '\'' !in r
  {
    if s != [] {
      var amp := ReplaceChar(s, '&', "&amp;");
      var lt := ReplaceChar(amp, '<', "&lt;");
      var gt := ReplaceChar(lt, '>', "&gt;");
      var quot := ReplaceChar(gt, '"', "&quot;");
      ReplaceCharKeepsAbsent(lt, '>', "&gt;", '<');
      ReplaceCharKeepsAbsent(gt, '"', "&quot;", '<');
      ReplaceCharKeepsAbsent(gt, '"', "&quot;", '>');
      ReplaceCharKeepsAbsent(quot, '\'', "&#39;", '<');
      ReplaceCharKeepsAbsent(quot, '\'', "&#39;", '>');
      ReplaceCharKeepsAbsent(quot, '\'', "&#39;", '"');
    }
  }

  /** Decodes the five entities EscapeHtml produces; every other character stands for itself. */
  function UnescapeHtml(t: string): string
    decreases |t|
  {
    if t == [] then []
    else if "&amp;" <= t then "&" + UnescapeHtml(t[5..])
    else if "&lt;" <= t then "<" + UnescapeHtml(t[4..])
    else if "&gt;" <= t then ">" + UnescapeHtml(t[4..])
    else if "&quot;" <= t then "\"" + UnescapeHtml(t[6..])
    else if "&#39;" <= t then "'" + UnescapeHtml(t[5..])
    else [t[0]] + UnescapeHtml(t[1..])
  }

  /** Each entity decodes to the character it came from, whatever follows it. */
  lemma UnescapeEntity(c: char, rest: string)
    ensures UnescapeHtml(Entity(c) + rest) == [c] + UnescapeHtml(rest)
  {
    if c == '&' {
      UnescapeNamed("&amp;", '&', rest);
    } else if c == '<' {
      UnescapeNamed("&lt;", '<', rest);
    } else if c == '>' {
      UnescapeNamed("&gt;", '>', rest);
    } else if c == '"' {
      UnescapeNamed("&quot;", '"', rest);
    } else if c == '\'' {
      UnescapeNamed("&#39;", '\'', rest);
    } else {
      var t := [c] + rest;
      assert t[0] == c && t[1..] == rest;
    }
  }

  lemma UnescapeNamed(e: string, c: char, rest: string)
    requires (e, c) in {("&amp;", '&'), ("&lt;", '<'), ("&gt;", '>'), ("&quot;", '"'), ("&#39;", '\'')}
    ensures UnescapeHtml(e + rest) == [c] + UnescapeHtml(rest)
  {
    var t := e + rest;
    assert t[..|e|] == e && t[|e|..] == rest;
    assert t[1] == e[1];
  }

  /** Unescaping the escaped text gives back the original. */
  lemma {:induction false} EscapeHtmlRoundTrip(s: string)
    ensures UnescapeHtml(EscapeHtml(s)) == s
  {
    EscapeHtmlIsPerCharacter(s);
    EscapeEachRoundTrip(s);
  }

  lemma {:induction false} EscapeEachRoundTrip(s: string)
    ensures UnescapeHtml(EscapeEach(s)) == s
  {
    if s != [] {
      EscapeEachRoundTrip(s[1..]);
      UnescapeEntity(s[0], EscapeEach(s[1..]));
    }
  }

  /** The outcome of Utils.TrimHistory: the count it returns (negative when the subtraction
      wrapped), or the ArgumentOutOfRangeException that RemoveAt(0) raises on an emptied list. */
  datatype TrimOutcome = Removed(count: int) | IndexOutOfRange

  /**
   * How many removals TrimHistory attempts: Count - maxMessages in C#'s unchecked int
   * arithmetic. Count is an int too, so the exact difference is below 2^32; one above
   * Int32.MaxValue wraps round to 2^32 less, a negative number.
   */
  function ToRemove(count: nat, maxMessages: Int32): (r: int)
    ensures count <= Int32Max ==> -Int32Max - 1 <= r <= Int32Max
    ensures r == count - maxMessages || r == count - maxMessages - 0x1_0000_0000
    ensures count <= Int32Max && count - maxMessages > Int32Max ==> r < 0
  {
    var difference := count - maxMessages;
    if difference <= Int32Max then difference else difference - 0x1_0000_0000
  }

  /** Whether TrimHistory raises: it attempts more removals than the list has messages. */
  predicate TrimRaises(count: nat, maxMessages: Int32) {
    count > maxMessages && ToRemove(count, maxMessages) > count
  }

  /** The list TrimHistory leaves: unchanged when short enough or when the count to remove
      wrapped to a negative number, emptied when more are to go than there are, and otherwise
      without its oldest messages. Whatever the bound, what is left is a suffix. */
  function TrimmedHistory<T>(s: seq<T>, maxMessages: Int32): (r: seq<T>)
    ensures |r| <= |s| && r == s[|s| - |r|..]
  {
    if |s| <= maxMessages then s
    else
      var toRemove := ToRemove(|s|, maxMessages);
      if toRemove <= 0 then s
      else if toRemove > |s| then []
      else s[toRemove..]
  }

  /**
   * Utils.TrimHistory: computes Count - maxMessages as a C# int and removes the oldest message
   * that many times. A negative bound asks for more removals than there are messages, so the
   * list is emptied and RemoveAt then raises, unless the subtraction wrapped to a negative
   * count, in which case nothing is removed and that count is returned.
   */
  method TrimHistory<T>(messages: ObservableList<T>, maxMessages: Int32) returns (outcome: TrimOutcome)
    modifies messages
    ensures messages.items == TrimmedHistory(old(messages.items), maxMessages)
    ensures outcome ==
      if |old(messages.items)| <= maxMessages then Removed(0)
      else if TrimRaises(|old(messages.items)|, maxMessages) then IndexOutOfRange
      else Removed(ToRemove(|old(messages.items)|, maxMessages))
  {
    if |messages.items| <= maxMessages {
      return Removed(0);
    }
    var toRemove := ToRemove(|messages.items|, maxMessages);
    ghost var original := messages.items;
    var i := 0;
    while i < toRemove
      invariant 0 <= i <= |original| && (if toRemove <= 0 then i == 0 else i <= toRemove)
      invariant messages.items == original[i..]
    {
      var ok := messages.RemoveAt(0);
      if !ok {
        return IndexOutOfRange;
      }
      i := i + 1;
    }
    assert original[0..] == original;
    return Removed(toRemove);
  }

  /**
   * How a negative bound acts on a list whose Count is an int: when Count - maxMessages fits
   * in an int the list is emptied and TrimHistory raises; when it does not, the count wraps
   * to a negative number, nothing is removed and nothing is raised.
   */
  lemma NegativeBoundTrim<T>(s: seq<T>, maxMessages: Int32)
    requires maxMessages < 0 && |s| <= Int32Max
    ensures TrimRaises(|s|, maxMessages) <==> |s| - maxMessages <= Int32Max
    ensures TrimmedHistory(s, maxMessages) == if |s| - maxMessages <= Int32Max then [] else s
  {
  }

  /** With a bound of at least zero, trimming keeps exactly the newest min(count, bound)
      messages in their original order, and trimming again changes nothing. */
  lemma TrimmedHistoryKeepsNewest<T>(s: seq<T>, maxMessages: Int32)
    requires maxMessages >= 0 && |s| <= Int32Max
    ensures !TrimRaises(|s|, maxMessages)
    ensures var r := TrimmedHistory(s, maxMessages);
      && |r| == (if |s| <= maxMessages then |s| else maxMessages)
      && s == s[..|s| - |r|] + r
      && TrimmedHistory(r, maxMessages) == r
  {
  }

  /** With a bound of at least one, the message just added survives the trim, last. */
  lemma TrimmedHistoryKeepsAdded<T>(s: seq<T>, x: T, maxMessages: Int32)
    requires maxMessages >= 1 && |s| < Int32Max
    ensures var r := TrimmedHistory(s + [x], maxMessages);
      r != [] && r[|r| - 1] == x && r == r[..|r| - 1] + [x]
  {
    var all := s + [x];
    TrimmedHistoryKeepsNewest(all, maxMessages);
    var r := TrimmedHistory(all, maxMessages);
    assert r[|r| - 1] == all[|all| - 1];
  }
}
