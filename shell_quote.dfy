/**
 * Argument quoting of the process runner. Each argument is wrapped in single quotes and
 * every single quote inside it is written `'\''` (close the quoted string, a backslash-
 * escaped quote, reopen it), the rule of the POSIX Shell Command Language (IEEE Std
 * 1003.1, Shell and Utilities volume, section 2.2.3 "Single-Quotes" and section 2.2.1
 * "Escape Character (Backslash)"). The words are joined by blanks after the program path.
 *
 * The inverse of the quoting is a reader for the part of the shell's token recognition
 * those command lines use: blanks separate words, a single-quoted string stands for its
 * characters literally, a backslash stands for the character after it, and an unquoted
 * character that is not special to the shell stands for itself.
 */
module ShellQuote {

  import opened Options
  import opened Text

  /** The inside of a quoted argument: `'` becomes `'\''`, every other character is copied. */
  function EscapeQuotes(a: string): (r: string)
    ensures |r| >= |a|
  {
    if a == [] then []
    else (if a[0] == '\'' then "'\\''" else [a[0]]) + EscapeQuotes(a[1..])
  }

  /** `'${arg.replace(/'/g, "'\\''")}'`. */
  function QuoteArg(a: string): (w: string)
    ensures |w| >= 2 && w[0] == '\''
  {
    "'" + EscapeQuotes(a) + "'"
  }

  /** `args.map(...)`: the quoted words, one per argument. */
  function QuoteAll(args: seq<string>): (ws: seq<string>)
    ensures |ws| == |args|
  {
    if args == [] then [] else [QuoteArg(args[0])] + QuoteAll(args[1..])
  }

  /** `escapedArgs`: the quoted words joined by single blanks. */
  function EscapedArgs(args: seq<string>): (e: string)
    ensures e == [] <==> args == []
  {
    var ws := QuoteAll(args);
    if |ws| == 0 then [] else
      assert Join(ws, ' ') == ws[0] || Join(ws, ' ') == ws[0] + [' '] + Join(ws[1..], ' ');
      Join(ws, ' ')
  }

  /**
   * The command line of `runCommand`: `${appPath} ${escapedArgs}`. With a path of plain
   * characters it reads back as the path followed by every argument, each as one word.
   */
  function CommandLine(appPath: string, args: seq<string>): (r: string)
    ensures appPath != [] && AllPlain(appPath) ==> ReadWords(r) == Some([appPath] + args)
  {
    PathThenWordsReadBack(appPath, args);
    appPath + " " + EscapedArgs(args)
  }

  /**
   * The command line of `runCommandAsync`: `''` stands in for an empty argument list, so it
   * reads back as the path and the arguments, or the path and one empty word for none.
   */
  function CommandLineAsync(appPath: string, args: seq<string>): (r: string)
    ensures appPath != [] && AllPlain(appPath) ==>
      ReadWords(r) == Some([appPath] + if args == [] then [""] else args)
  {
    var e := EscapedArgs(args);
    assert EscapedArgs([""]) == "''";
    PathThenWordsReadBack(appPath, if args == [] then [""] else args);
    appPath + " " + (if e == [] then "''" else e)
  }

  /** Characters a shell reads as themselves when they stand unquoted. */
  predicate IsPlain(c: char)
  {
    c !in {' ', '\t', '\n', '\'', '"', '\\', '`', '$', '|', '&', ';', '<', '>', '(', ')', '*', '?', '[', '#', '~', '=', '%'}
  }

  predicate AllPlain(s: string)
  {
    forall i :: 0 <= i < |s| ==> IsPlain(s[i])
  }

  /**
   * The inside of a single-quoted string and what follows its closing quote; `None` when the
   * quote is never closed. Nothing inside is special, the backslash included.
   */
  function ReadQuoted(s: string): (r: Option<(string, string)>)
    ensures r.Some? ==> |r.value.1| < |s|
  {
    if s == [] then None
    else if s[0] == '\'' then Some(([], s[1..]))
    else
      match ReadQuoted(s[1..])
      case None => None
      case Some((q, rest)) => Some(([s[0]] + q, rest))
  }

  /**
   * One word: its value, and the text from the first unquoted blank on. `None` for an
   * unclosed quote, a trailing backslash or an unquoted special character.
   */
  function ReadWord(s: string): (r: Option<(string, string)>)
    ensures r.Some? ==> |r.value.1| <= |s| && (r.value.1 == [] || r.value.1[0] == ' ')
    ensures r.Some? && s != [] && s[0] != ' ' ==> |r.value.1| < |s|
    decreases |s|
  {
    if s == [] || s[0] == ' ' then Some(([], s))
    else if s[0] == '\'' then
      match ReadQuoted(s[1..])
      case None => None
      case Some((q, rest)) =>
        match ReadWord(rest)
        case None => None
        case Some((w, rest')) => Some((q + w, rest'))
    else if s[0] == '\\' then
      if |s| < 2 then None
      else
        match ReadWord(s[2..])
        case None => None
        case Some((w, rest)) => Some(([s[1]] + w, rest))
    else if IsPlain(s[0]) then
      match ReadWord(s[1..])
      case None => None
      case Some((w, rest)) => Some(([s[0]] + w, rest))
    else None
  }

  /** The words of a command line, blanks between them skipped. */
  function ReadWords(s: string): (r: Option<seq<string>>)
    decreases |s|
  {
    if s == [] then Some([])
    else if s[0] == ' ' then ReadWords(s[1..])
    else
      match ReadWord(s)
      case None => None
      case Some((w, rest)) =>
        match ReadWords(rest)
        case None => None
        case Some(ws) => Some([w] + ws)
  }

  /** A character other than a quote, put first inside a quoted string, is put first in the word. */
  lemma QuotedCharStep(c: char, y: string)
    requires c != '\''
    requires ReadWord("'" + y).Some?
    ensures ReadWord("'" + ([c] + y)) == Some(([c] + ReadWord("'" + y).value.0, ReadWord("'" + y).value.1))
  {
    assert ("'" + y)[1..] == y;
    assert ("'" + ([c] + y))[1..] == [c] + y;
    assert ([c] + y)[1..] == y;
    var q, r := ReadQuoted(y).value.0, ReadQuoted(y).value.1;
    assert ReadQuoted([c] + y) == Some(([c] + q, r));
    var w := ReadWord(r).value.0;
    assert [c] + q + w == [c] + (q + w);
  }

  /** `'\''` inside a quoted string closes it, adds a quote and reopens it. */
  lemma EscapedQuoteStep(y: string)
    requires ReadWord("'" + y).Some?
    ensures ReadWord("'" + ("'\\''" + y)) == Some(("'" + ReadWord("'" + y).value.0, ReadWord("'" + y).value.1))
  {
    var s := "'" + ("'\\''" + y);
    var t := "\\''" + y;
    assert s[1..] == "'" + t;
    assert ("'" + t)[1..] == t;
    assert ReadQuoted(s[1..]) == Some(([], t));
    assert t[2..] == "'" + y;
    var v, r := ReadWord("'" + y).value.0, ReadWord("'" + y).value.1;
    assert ReadWord(t) == Some(([t[1]] + v, r));
    assert [t[1]] == "'";
    assert ReadWord(s) == Some(([] + ("'" + v), r));
    assert [] + ("'" + v) == "'" + v;
  }

  /** An empty quoted string, followed by a blank or nothing, is one empty word. */
  lemma EmptyQuoteReadsBack(rest: string)
    requires rest == [] || rest[0] == ' '
    ensures ReadWord("''" + rest) == Some(([], rest))
  {
    var s := "''" + rest;
    assert s[1..] == "'" + rest;
    assert ReadQuoted(s[1..]) == Some(([], rest));
    assert ReadWord(rest) == Some(([], rest));
    assert s != [] && s[0] == '\'';
    var e: string := [];
    assert ReadWord(s) == Some((e + e, rest));
    assert e + e == e;
  }

  /** The quoted form of an argument, as its first character's piece before the rest's quoted form. */
  lemma QuoteArgCons(a: string, rest: string)
    requires a != []
    ensures QuoteArg(a) + rest
      == "'" + ((if a[0] == '\'' then "'\\''" else [a[0]]) + (EscapeQuotes(a[1..]) + "'" + rest))
  {
    assert EscapeQuotes(a) == (if a[0] == '\'' then "'\\''" else [a[0]]) + EscapeQuotes(a[1..]);
  }

  /** Quoting one more character in front adds that character in front of the word read back. */
  lemma QuotedArgStep(a: string, rest: string)
    requires a != []
    requires ReadWord(QuoteArg(a[1..]) + rest) == Some((a[1..], rest))
    ensures ReadWord(QuoteArg(a) + rest) == Some((a, rest))
  {
    var y := EscapeQuotes(a[1..]) + "'" + rest;
    assert "'" + y == QuoteArg(a[1..]) + rest;
    QuoteArgCons(a, rest);
    if a[0] == '\'' {
      EscapedQuoteStep(y);
      assert "'" + a[1..] == a;
    } else {
      QuotedCharStep(a[0], y);
      assert [a[0]] + a[1..] == a;
    }
  }

  /** A quoted argument is one word whose value is the argument, whatever characters it holds. */
  lemma {:induction false} QuotedArgReadsBack(a: string, rest: string)
    requires rest == [] || rest[0] == ' '
    ensures ReadWord(QuoteArg(a) + rest) == Some((a, rest))
  {
    if a == [] {
      assert QuoteArg(a) == "''";
      EmptyQuoteReadsBack(rest);
    } else {
      QuotedArgReadsBack(a[1..], rest);
      QuotedArgStep(a, rest);
    }
  }

  /** With two or more arguments, the first quoted word is followed by a blank and the rest. */
  lemma EscapedArgsCons(args: seq<string>)
    requires |args| >= 2
    ensures EscapedArgs(args) == QuoteArg(args[0]) + (" " + EscapedArgs(args[1..]))
  {
    var ws := QuoteAll(args);
    assert ws[0] == QuoteArg(args[0]);
    assert ws[1..] == QuoteAll(args[1..]);
    var j := Join(ws[1..], ' ');
    assert EscapedArgs(args[1..]) == j;
    assert Join(ws, ' ') == ws[0] + [' '] + j;
    assert ws[0] + [' '] + j == ws[0] + (" " + j);
  }

  /** The quoted arguments read back as exactly the argument list: one word per argument. */
  lemma {:induction false} EscapedArgsReadBack(args: seq<string>)
    ensures ReadWords(EscapedArgs(args)) == Some(args)
  {
    if |args| == 1 {
      var e := EscapedArgs(args);
      assert e == QuoteArg(args[0]) by {
        assert QuoteAll(args) == [QuoteArg(args[0])];
      }
      QuotedArgReadsBack(args[0], []);
      assert e + [] == e;
      assert e != [] && e[0] != ' ';
      assert ReadWords(e) == Some([args[0]] + []);
      assert args == [args[0]] + [];
    } else if |args| >= 2 {
      var tail := EscapedArgs(args[1..]);
      EscapedArgsCons(args);
      EscapedArgsReadBack(args[1..]);
      QuotedArgReadsBack(args[0], " " + tail);
      assert (" " + tail)[1..] == tail;
      assert ReadWords(" " + tail) == Some(args[1..]);
      assert args == [args[0]] + args[1..];
    }
  }

  /** A path of plain characters is read as one word. */
  lemma {:induction false} PlainWordReadsBack(p: string, rest: string)
    requires AllPlain(p)
    requires rest == [] || rest[0] == ' '
    ensures ReadWord(p + rest) == Some((p, rest))
  {
    if p != [] {
      PlainWordReadsBack(p[1..], rest);
      assert (p + rest)[1..] == p[1..] + rest;
      assert [p[0]] + p[1..] == p;
    } else {
      assert p + rest == rest;
    }
  }

  /** The program path, a blank and the quoted words read back as the path and the arguments. */
  lemma PathThenWordsReadBack(appPath: string, args: seq<string>)
    ensures appPath != [] && AllPlain(appPath) ==>
      ReadWords(appPath + " " + EscapedArgs(args)) == Some([appPath] + args)
  {
    if appPath != [] && AllPlain(appPath) {
      var e := EscapedArgs(args);
      PlainWordReadsBack(appPath, " " + e);
      EscapedArgsReadBack(args);
      assert appPath + " " + e == appPath + (" " + e);
      assert (" " + e)[1..] == e;
    }
  }

  /**
   * `runCommandAsync` builds the same command line for `[]` as for `[""]`, and otherwise the
   * same as `runCommand`.
   */
  lemma CommandLineAsyncAgrees(appPath: string, args: seq<string>)
    ensures CommandLineAsync(appPath, []) == CommandLineAsync(appPath, [""])
    ensures args != [] ==> CommandLineAsync(appPath, args) == CommandLine(appPath, args)
  {
    assert EscapedArgs([""]) == "''";
  }
}
