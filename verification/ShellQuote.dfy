/** Quoting a path for a shell command line, and a reader of such lines after the Shell
    Command Language of IEEE Std 1003.1-2017: escapes (section 2.2.1), single quotes
    (2.2.2), double quotes (2.2.3), word splitting into tokens (2.3) and quote removal (2.6.7). */
module ShellQuote {
  import opened Options

  const QUOTE_IN_DOUBLES := ['\'', '"', '\'', '"', '\'']

  function ReplaceQuotes(s: string): string {
    if s == "" then "" else (if s[0] == '\'' then QUOTE_IN_DOUBLES else [s[0]]) + ReplaceQuotes(s[1..])
  }

  function Quote(s: string): string {
    "'" + ReplaceQuotes(s) + "'"
  }

  // ---- The shell ------------------------------------------------------------------------------

  datatype Mode = Plain | Single | Double

  predicate BlankChar(c: char) {
    c == ' ' || c == '\t'
  }

  /** Unquoted, these start an operator, an expansion, a pattern or a comment. */
  predicate Special(c: char) {
    c in "|&;<>()$`*?[#~=%{}!\n"
  }

  function Finish(word: Option<string>, words: seq<string>): seq<string> {
    if word.Some? then words + [word.value] else words
  }

  function Extend(word: Option<string>, t: string): Option<string> {
    Some((if word.Some? then word.value else "") + t)
  }

  /** The words of a line of plain and quoted text; None when the line holds a NUL, leaves a
      quote open, or uses more of the shell than that. */
  function Read(s: string, mode: Mode, word: Option<string>, words: seq<string>): Option<seq<string>>
    decreases |s|
  {
    if s == "" then
      if mode == Plain then Some(Finish(word, words)) else None
    else if s[0] == '\0' then None
    else match mode
      case Plain =>
        if s[0] == '\'' then Read(s[1..], Single, Extend(word, ""), words)
        else if s[0] == '"' then Read(s[1..], Double, Extend(word, ""), words)
        else if BlankChar(s[0]) then Read(s[1..], Plain, None, Finish(word, words))
        else if Special(s[0]) then None
        else if s[0] == '\\' then
          if |s| == 1 || s[1] == '\0' then None
          else if s[1] == '\n' then Read(s[2..], Plain, word, words)
          else Read(s[2..], Plain, Extend(word, [s[1]]), words)
        else Read(s[1..], Plain, Extend(word, [s[0]]), words)
      case Single =>
        if s[0] == '\'' then Read(s[1..], Plain, word, words)
        else Read(s[1..], Single, Extend(word, [s[0]]), words)
      case Double =>
        if s[0] == '"' then Read(s[1..], Plain, word, words)
        else if s[0] == '$' || s[0] == '`' then None
        else if s[0] == '\\' && |s| > 1 && s[1] in "$`\"\\" then Read(s[2..], Double, Extend(word, [s[1]]), words)
        else if s[0] == '\\' && |s| > 1 && s[1] == '\n' then Read(s[2..], Double, word, words)
        else Read(s[1..], Double, Extend(word, [s[0]]), words)
  }

  function ReadWords(s: string): Option<seq<string>> {
    Read(s, Plain, None, [])
  }

  // ---- Quoting is undone by the shell -----------------------------------------------------------

  /** One quote character travels as: close, a double-quoted quote, open again. */
  lemma ReadQuoteChar(rest: string, w: string, words: seq<string>)
    ensures Read(QUOTE_IN_DOUBLES + rest, Single, Some(w), words) == Read(rest, Single, Some(w + "'"), words)
  {
    var s0 := QUOTE_IN_DOUBLES + rest;
    var s1 := ['"', '\'', '"', '\''] + rest;
    var s2 := ['\'', '"', '\''] + rest;
    var s3 := ['"', '\''] + rest;
    var s4 := ['\''] + rest;
    assert s0[1..] == s1 && s1[1..] == s2 && s2[1..] == s3 && s3[1..] == s4 && s4[1..] == rest;
    assert Read(s0, Single, Some(w), words) == Read(s1, Plain, Some(w), words);
    assert w + "" == w;
    assert Read(s1, Plain, Some(w), words) == Read(s2, Double, Some(w), words);
    assert Read(s2, Double, Some(w), words) == Read(s3, Double, Some(w + "'"), words);
    assert Read(s3, Double, Some(w + "'"), words) == Read(s4, Plain, Some(w + "'"), words);
    assert (w + "'") + "" == w + "'";
    assert Read(s4, Plain, Some(w + "'"), words) == Read(rest, Single, Some(w + "'"), words);
  }

  /** Inside the quotes the text is taken literally, whatever follows. */
  lemma {:induction false} ReadInside(s: string, rest: string, w: string, words: seq<string>)
    ensures Read(ReplaceQuotes(s) + "'" + rest, Single, Some(w), words)
            == if '\0' in s then None else Read(rest, Plain, Some(w + s), words)
  {
    var tail := ReplaceQuotes(s) + "'" + rest;
    if s == "" {
      assert tail == "'" + rest && tail[1..] == rest;
      assert w + s == w;
    } else {
      var tail1 := ReplaceQuotes(s[1..]) + "'" + rest;
      assert s == [s[0]] + s[1..];
      if s[0] == '\'' {
        assert tail == QUOTE_IN_DOUBLES + tail1;
        ReadQuoteChar(tail1, w, words);
        ReadInside(s[1..], rest, w + "'", words);
        assert (w + "'") + s[1..] == w + s;
      } else {
        assert tail == [s[0]] + tail1 && tail[1..] == tail1;
        if s[0] != '\0' {
          ReadInside(s[1..], rest, w + [s[0]], words);
          assert (w + [s[0]]) + s[1..] == w + s;
        }
      }
    }
  }

  /** In the middle of any line, a quoted text adds itself to the current word, and nothing else. */
  lemma ReadQuoted(s: string, rest: string, word: Option<string>, words: seq<string>)
    ensures Read(Quote(s) + rest, Plain, word, words)
            == if '\0' in s then None else Read(rest, Plain, Extend(word, s), words)
  {
    var w := Extend(word, "").value;
    assert (Quote(s) + rest)[1..] == ReplaceQuotes(s) + "'" + rest;
    ReadInside(s, rest, w, words);
    assert Extend(word, s).value == w + s;
  }

  /** The shell reads a quoted text as exactly one word, equal to the text, if and only if the text has no NUL. */
  lemma QuoteRoundTrip(s: string)
    ensures ReadWords(Quote(s)) == Some([s]) <==> '\0' !in s
  {
    ReadQuoted(s, "", None, []);
    assert Quote(s) + "" == Quote(s);
    assert "" + s == s;
    assert Extend(None, s) == Some(s);
    assert Finish(Some(s), []) == [s];
  }

  /** A command line such as "rm -f -- " and a quoted path: plain words, then the path. */
  function Line(words: seq<string>, path: string): string {
    if words == [] then Quote(path) else words[0] + " " + Line(words[1..], path)
  }

  predicate PlainWord(t: string) {
    t != "" && forall c :: c in t ==> PlainChar(c)
  }

  /** The command gets the path as its one last argument, whatever the path holds. */
  lemma {:induction false} LineArguments(words: seq<string>, path: string, before: seq<string>)
    requires '\0' !in path && forall t :: t in words ==> PlainWord(t)
    ensures Read(Line(words, path), Plain, None, before) == Some(before + words + [path])
  {
    if words == [] {
      ReadLast(path, before);
      assert before + [] + [path] == before + [path];
    } else {
      ReadPlainWord(words[0], Line(words[1..], path), before);
      LineArguments(words[1..], path, before + [words[0]]);
      assert before + [words[0]] + words[1..] == before + words;
    }
  }

  lemma ReadLast(path: string, words: seq<string>)
    requires '\0' !in path
    ensures Read(Quote(path), Plain, None, words) == Some(words + [path])
  {
    ReadQuoted(path, "", None, words);
    assert Quote(path) + "" == Quote(path);
    assert "" + path == path;
    assert Extend(None, path) == Some(path);
  }

  predicate PlainChar(c: char) {
    c != '\0' && c != '\'' && c != '"' && c != '\\' && !BlankChar(c) && !Special(c)
  }

  lemma ReadPlainWord(t: string, rest: string, words: seq<string>)
    requires PlainWord(t)
    ensures Read(t + " " + rest, Plain, None, words) == Read(rest, Plain, None, words + [t])
  {
    assert t + " " + rest == t + (" " + rest);
    ReadPlain(t, " " + rest, None, words);
    assert "" + t == t;
    assert Extend(None, t) == Some(t);
    assert (" " + rest)[1..] == rest;
  }

  lemma {:induction false} ReadPlain(t: string, rest: string, word: Option<string>, words: seq<string>)
    requires PlainWord(t)
    ensures Read(t + rest, Plain, word, words) == Read(rest, Plain, Extend(word, t), words)
  {
    var c := t[0];
    assert c in t && PlainChar(c);
    assert (t + rest)[1..] == t[1..] + rest;
    assert Read(t + rest, Plain, word, words) == Read(t[1..] + rest, Plain, Extend(word, [c]), words);
    if |t| == 1 {
      assert t == [c] && t[1..] + rest == rest;
    } else {
      ReadPlain(t[1..], rest, Extend(word, [c]), words);
      assert Extend(Extend(word, [c]), t[1..]) == Extend(word, t) by {
        assert t == [c] + t[1..];
        var w := if word.Some? then word.value else "";
        assert (w + [c]) + t[1..] == w + t;
      }
    }
  }
}
