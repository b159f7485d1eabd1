/** Shell quoting of a command line (internal/provision/restore.go:324-330), read back by the
    quoting rules of sections 2.2.1 (escape character) and 2.2.2 (single quotes) of the POSIX Shell
    Command Language. */
module Shell {
  import opened Optional

  /** Where a shell is while it splits a command line into words. */
  datatype Mode = Between | InWord(word: string) | Quoted(word: string) | Escaped(word: string)

  /** Characters that mean something to the shell when they are not quoted: operators, expansions,
      patterns, comments, assignments and further quoting. */
  predicate Special(c: char) {
    c in "|&;<>()$`\"*?[]#~=%!{}\n\t"
  }

  /** The words of a command line, or none if it is not a plain list of words: a quote is left open,
      an escape dangles or continues the line, or a special character stands unquoted. */
  function Words(line: string, mode: Mode, words: seq<string>): Option<seq<string>>
    decreases |line|, 0
  {
    if line == [] then
      match mode
      case Between => Some(words)
      case InWord(word) => Some(words + [word])
      case _ => None
    else
      var c, rest := line[0], line[1..];
      match mode
      case Between => if c == ' ' then Words(rest, Between, words) else Unquoted(c, rest, "", words)
      case InWord(word) =>
        if c == ' ' then Words(rest, Between, words + [word]) else Unquoted(c, rest, word, words)
      case Quoted(word) =>
        if c == '\'' then Words(rest, InWord(word), words) else Words(rest, Quoted(word + [c]), words)
      case Escaped(word) =>
        if c == '\n' then None else Words(rest, InWord(word + [c]), words)
  }

  /** An unquoted character of a word. */
  function Unquoted(c: char, rest: string, word: string, words: seq<string>): Option<seq<string>>
    decreases |rest|, 1
  {
    if c == '\'' then Words(rest, Quoted(word), words)
    else if c == '\\' then Words(rest, Escaped(word), words)
    else if Special(c) then None
    else Words(rest, InWord(word + [c]), words)
  }

  function Tokens(line: string): Option<seq<string>> {
    Words(line, Between, [])
  }

  // ---------- the code ----------

  const ESCAPED_QUOTE := "'\\''"

  /** strings.ReplaceAll of one quote by a closed quote, an escaped quote and an opened quote. */
  function Escape(a: string): string {
    if a == [] then []
    else (if a[0] == '\'' then ESCAPED_QUOTE else [a[0]]) + Escape(a[1..])
  }

  function Quote(a: string): string {
    "'" + Escape(a) + "'"
  }

  /** strings.Join with a blank. */
  function Join(parts: seq<string>): string {
    if parts == [] then []
    else if |parts| == 1 then parts[0]
    else Join(parts[..|parts| - 1]) + " " + parts[|parts| - 1]
  }

  method ShellJoin(args: seq<string>) returns (line: string)
    ensures Tokens(line) == Some(args)
  {
    var quoted := new string[|args|](_ => "");
    for i := 0 to |args|
      invariant forall k :: 0 <= k < i ==> quoted[k] == Quote(args[k])
    {
      quoted[i] := Quote(args[i]);
    }
    line := Join(quoted[..]);
    assert quoted[..] == Quotes(args);
    RoundTrip(args);
  }

  // ---------- the round trip ----------

  function Quotes(args: seq<string>): seq<string> {
    seq(|args|, k requires 0 <= k < |args| => Quote(args[k]))
  }

  /** Scanning an escaped argument inside quotes adds exactly the argument and closes the quote. */
  lemma {:induction false} ScanEscaped(a: string, word: string, rest: string, words: seq<string>)
    ensures Words(Escape(a) + "'" + rest, Quoted(word), words) == Words(rest, InWord(word + a), words)
    decreases |a|
  {
    if a == [] {
      assert Escape(a) + "'" + rest == "'" + rest;
      assert word + a == word;
    } else {
      var tail := Escape(a[1..]) + "'" + rest;
      ScanEscaped(a[1..], word + [a[0]], rest, words);
      assert word + [a[0]] + a[1..] == word + a;
      EscapeSplits(a, rest);
      if a[0] == '\'' {
        ScanQuote(tail, word, words);
      } else {
        ScanPlain(a[0], tail, word, words);
      }
    }
  }

  lemma EscapeSplits(a: string, rest: string)
    requires a != []
    ensures var tail := Escape(a[1..]) + "'" + rest;
            Escape(a) + "'" + rest == if a[0] == '\'' then "'" + ("\\" + ("'" + ("'" + tail))) else [a[0]] + tail
  {
  }

  lemma ScanPlain(c: char, tail: string, word: string, words: seq<string>)
    requires c != '\''
    ensures Words([c] + tail, Quoted(word), words) == Words(tail, Quoted(word + [c]), words)
  {
    assert ([c] + tail)[1..] == tail;
  }

  /** A quote inside an argument costs four characters: closed, escaped, opened again. */
  lemma ScanQuote(tail: string, word: string, words: seq<string>)
    ensures Words("'" + ("\\" + ("'" + ("'" + tail))), Quoted(word), words) == Words(tail, Quoted(word + ['\'']), words)
  {
    var l1 := "'" + tail;
    var l2 := "'" + l1;
    var l3 := "\\" + l2;
    assert l1[1..] == tail && l2[1..] == l1 && l3[1..] == l2 && ("'" + l3)[1..] == l3;
    assert Words(l1, InWord(word + ['\'']), words) == Words(tail, Quoted(word + ['\'']), words);
    assert Words(l2, Escaped(word), words) == Words(l1, InWord(word + ['\'']), words);
    assert Words(l3, InWord(word), words) == Words(l2, Escaped(word), words);
  }

  lemma ScanQuoted(a: string, rest: string, words: seq<string>)
    ensures Words(Quote(a) + rest, Between, words) == Words(rest, InWord(a), words)
  {
    var inner := Escape(a) + "'" + rest;
    assert Quote(a) + rest == "'" + inner;
    assert ("'" + inner)[1..] == inner;
    ScanEscaped(a, "", rest, words);
    assert "" + a == a;
  }

  /** The words of a joined command line, whatever follows it. */
  lemma {:induction false} ScanJoined(args: seq<string>, rest: string)
    requires args != []
    ensures Words(Join(Quotes(args)) + rest, Between, [])
         == Words(rest, InWord(args[|args| - 1]), args[..|args| - 1])
    decreases |args|
  {
    var last := args[|args| - 1];
    var front := args[..|args| - 1];
    if |args| == 1 {
      assert Join(Quotes(args)) == Quote(last);
      ScanQuoted(last, rest, []);
    } else {
      var blank := " " + (Quote(last) + rest);
      assert Quotes(args)[..|args| - 1] == Quotes(front);
      assert Join(Quotes(args)) + rest == Join(Quotes(front)) + blank;
      ScanJoined(front, blank);
      assert blank[1..] == Quote(last) + rest;
      assert front[..|front| - 1] + [front[|front| - 1]] == front;
      ScanQuoted(last, rest, front);
    }
  }

  /** Shell round trip: for every list of strings, empty ones and ones full of quotes included, the
      shell reads back exactly the list. */
  lemma RoundTrip(args: seq<string>)
    ensures Tokens(Join(Quotes(args))) == Some(args)
  {
    if args != [] {
      ScanJoined(args, "");
      assert Join(Quotes(args)) + "" == Join(Quotes(args));
      assert args[..|args| - 1] + [args[|args| - 1]] == args;
    }
  }

  /** Hence two different argument lists never give the same command line. */
  lemma Injective(a: seq<string>, b: seq<string>)
    requires Join(Quotes(a)) == Join(Quotes(b))
    ensures a == b
  {
    RoundTrip(a);
    RoundTrip(b);
  }
}
