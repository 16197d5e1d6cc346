// Shell quoting at two nested levels (coredeck-claude/src/main.rs, `sh_quote` and
// `build_ssh_command`; hooks.rs, `shell_single_quote`), against what a POSIX shell
// makes of it: quote removal and field splitting (Shell Command Language,
// sections 2.2.1, 2.2.2, 2.6.5 and 2.6.7).

module Quoting {
  import opened Prelude

  /** What `'` becomes inside single quotes. */
  const ESCAPED_QUOTE: string := "'\\''"

  /** Characters that must be quoted to stand for themselves (section 2.2). */
  predicate Special(c: char) {
    c in "|&;<>()$`\"*?[#~=%\n"
  }

  // ── The shell ────────────────────────────────────────────────────

  /** The fields of a command line, `word` being the one in progress; none if a quote is left open or
      something unquoted would not stand for itself. */
  function Fields(s: string, word: Option<string>): Option<seq<string>>
    decreases |s|
  {
    if s == [] then Some(if word.Some? then [word.value] else [])
    else if s[0] == ' ' || s[0] == '\t' then
      (match Fields(s[1..], None)
       case None => None
       case Some(more) => Some(if word.Some? then [word.value] + more else more))
    else if s[0] == '\'' then SingleQuoted(s[1..], word.GetOr(""))
    else if s[0] == '\\' then
      if |s| < 2 then None
      else if s[1] == '\n' then Fields(s[2..], word)
      else Fields(s[2..], Some(word.GetOr("") + [s[1]]))
    else if Special(s[0]) then None
    else Fields(s[1..], Some(word.GetOr("") + [s[0]]))
  }

  /** Within single quotes every character stands for itself up to the closing quote. */
  function SingleQuoted(s: string, word: string): Option<seq<string>>
    decreases |s|
  {
    if s == [] then None
    else if s[0] == '\'' then Fields(s[1..], Some(word))
    else SingleQuoted(s[1..], word + [s[0]])
  }

  // ── Quoting ──────────────────────────────────────────────────────

  function Escaped(s: string): string {
    if s == [] then "" else (if s[0] == '\'' then ESCAPED_QUOTE else [s[0]]) + Escaped(s[1..])
  }

  function Quoted(s: string): string { "'" + Escaped(s) + "'" }

  lemma {:induction false} EscapedConcat(a: string, b: string)
    ensures Escaped(a + b) == Escaped(a) + Escaped(b)
  {
    if a == [] {
      assert a + b == b;
    } else {
      assert (a + b)[1..] == a[1..] + b;
      EscapedConcat(a[1..], b);
    }
  }

  lemma EscapedChar(c: char)
    ensures Escaped([c]) == if c == '\'' then ESCAPED_QUOTE else [c]
  {
    Unit(if c == '\'' then ESCAPED_QUOTE else [c]);
  }

  /** `sh_quote` */
  method ShQuote(s: string) returns (out: string)
    ensures out == Quoted(s)
  {
    out := "'";
    var i := 0;
    while i < |s|
      invariant i <= |s| && out == "'" + Escaped(s[..i])
    {
      assert s[..i + 1] == s[..i] + [s[i]];
      EscapedConcat(s[..i], [s[i]]);
      EscapedChar(s[i]);
      if s[i] == '\'' {
        out := out + ESCAPED_QUOTE;
      } else {
        out := out + [s[i]];
      }
      i := i + 1;
    }
    assert s[..i] == s;
    out := out + "'";
  }

  function Join(parts: seq<string>, sep: string): string {
    if parts == [] then "" else if |parts| == 1 then parts[0] else parts[0] + sep + Join(parts[1..], sep)
  }

  /** The pieces of `s` between the occurrences of `c`. */
  function Split(s: string, c: char): (r: seq<string>)
    ensures r != []
  {
    if s == [] then [""]
    else
      var rest := Split(s[1..], c);
      if s[0] == c then [""] + rest else [[s[0]] + rest[0]] + rest[1..]
  }

  /** `shell_single_quote`: `str::replace` puts the replacement between the pieces. */
  function ShellSingleQuote(s: string): string {
    "'" + Join(Split(s, '\''), ESCAPED_QUOTE) + "'"
  }

  lemma {:induction false} ReplaceIsEscape(s: string)
    ensures Join(Split(s, '\''), ESCAPED_QUOTE) == Escaped(s)
  {
    if s != [] {
      ReplaceIsEscape(s[1..]);
      var rest := Split(s[1..], '\'');
      if s[0] == '\'' {
        assert ([""] + rest)[1..] == rest;
      } else {
        assert ([[s[0]] + rest[0]] + rest[1..])[1..] == rest[1..];
        if |rest| > 1 {
          assert [s[0]] + (rest[0] + ESCAPED_QUOTE + Join(rest[1..], ESCAPED_QUOTE)) == [s[0]] + rest[0]
            + ESCAPED_QUOTE + Join(rest[1..], ESCAPED_QUOTE);
        }
      }
    }
  }

  /** The two quoting functions of the two crates agree on every string. */
  lemma QuotersAgree(s: string)
    ensures ShellSingleQuote(s) == Quoted(s)
  {
    ReplaceIsEscape(s);
  }

  // ── What the shell makes of it ───────────────────────────────────

  lemma QuoteReopened(word: string, rest: string)
    ensures SingleQuoted(ESCAPED_QUOTE + rest, word) == SingleQuoted(rest, word + "'")
  {
    var s := ESCAPED_QUOTE + rest;
    assert s[0] == '\'' && s[1] == '\\' && s[2] == '\'' && s[3] == '\'';
    assert s[1..][2..] == s[3..] && s[3..][1..] == rest && s[1..][0] == '\\' && s[1..][1] == '\'' && s[3..][0] == '\'';
    assert SingleQuoted(s, word) == Fields(s[1..], Some(word));
    assert Fields(s[1..], Some(word)) == Fields(s[3..], Some(word + "'"));
  }

  lemma {:induction false} ContentRead(s: string, word: string, rest: string)
    ensures SingleQuoted(Escaped(s) + "'" + rest, word) == Fields(rest, Some(word + s))
    decreases |s|
  {
    if s == [] {
      Unit(word);
      assert "" + "'" + rest == "'" + rest && ("'" + rest)[1..] == rest;
    } else {
      var lead, tail := if s[0] == '\'' then ESCAPED_QUOTE else [s[0]], Escaped(s[1..]) + "'" + rest;
      assert Escaped(s) + "'" + rest == lead + tail;
      assert word + [s[0]] + s[1..] == word + s;
      hide Fields, Escaped;
      ContentRead(s[1..], word + [s[0]], rest);
      if s[0] == '\'' {
        QuoteReopened(word, tail);
      } else {
        assert ([s[0]] + tail)[1..] == tail;
      }
    }
  }

  /** A quoted string is one field, or the rest of one, whatever it holds. */
  lemma QuotedRead(s: string, rest: string)
    ensures Fields(Quoted(s) + rest, None) == Fields(rest, Some(s))
  {
    var line := Quoted(s) + rest;
    assert line[1..] == Escaped(s) + "'" + rest;
    ContentRead(s, "", rest);
    Unit(s);
    assert Fields(line, None) == SingleQuoted(line[1..], "");
    hide Fields, SingleQuoted;
  }

  function AllQuoted(args: seq<string>): (r: seq<string>)
    ensures |r| == |args| && forall k :: 0 <= k < |args| ==> r[k] == Quoted(args[k])
  {
    seq(|args|, k requires 0 <= k < |args| => Quoted(args[k]))
  }

  /** Quoted arguments joined by spaces are read back as exactly those arguments, empty ones too. */
  lemma {:induction false} ArgumentsRead(args: seq<string>)
    ensures Fields(Join(AllQuoted(args), " "), None) == Some(args)
  {
    if |args| == 1 {
      QuotedRead(args[0], "");
      Unit(Quoted(args[0]));
      assert args == [args[0]];
    } else if args != [] {
      var tail := Join(AllQuoted(args[1..]), " ");
      assert AllQuoted(args)[1..] == AllQuoted(args[1..]);
      QuotedRead(args[0], " " + tail);
      Regroup(Quoted(args[0]), " ", tail);
      ArgumentsRead(args[1..]);
      assert (" " + tail)[1..] == tail;
      assert [args[0]] + args[1..] == args;
    }
  }

  /** The argument of `-lic` in `build_ssh_command`. */
  method RemoteCommand(args: seq<string>) returns (command: string)
    ensures command == Quoted(Join(AllQuoted(args), " "))
  {
    var argv: seq<string> := [];
    for i := 0 to |args|
      invariant argv == AllQuoted(args[..i])
    {
      var quoted := ShQuote(args[i]);
      argv := argv + [quoted];
      assert args[..i + 1] == args[..i] + [args[i]];
    }
    assert args[..|args|] == args;
    command := ShQuote(Join(argv, " "));
  }

  /** Read by the remote login shell, the quoted command is one word; read again by the shell that runs it,
      that word is exactly the original arguments. */
  lemma NestedRoundTrip(args: seq<string>)
    ensures var command := Join(AllQuoted(args), " ");
            Fields(Quoted(command), None) == Some([command]) && Fields(command, None) == Some(args)
  {
    ArgumentsRead([Join(AllQuoted(args), " ")]);
    ArgumentsRead(args);
  }
}
