/** Quoting text for the `espeak` fallback of `speak`, which hands a command line to
    `sh -c` with the text between double quotes. */
module Shell {
  import opened Wrappers

  /** `text.replace('"', '\\"')`: a backslash before every double quote, nothing else.
      The result never starts with a quote, never shrinks, and is the text itself when
      the text has no quote. */
  function EscapeQuotes(text: string): (r: string)
    ensures |r| >= |text|
    ensures text != [] ==> r[0] != '"'
    ensures '"' !in text ==> r == text
    decreases |text|
  {
    if text == [] then []
    else
      assert '"' !in text ==> '"' !in text[1..] by {
        if '"' !in text {
          forall c | c in text[1..] ensures c != '"' { assert c in text; }
        }
      }
      (if text[0] == '"' then ['\\', '"'] else [text[0]]) + EscapeQuotes(text[1..])
  }

  /** Drops the backslash of every `\"` pair, reading left to right. */
  function UnescapeQuotes(s: string): string
    decreases |s|
  {
    if s == [] then []
    else if |s| >= 2 && s[0] == '\\' && s[1] == '"' then ['"'] + UnescapeQuotes(s[2..])
    else [s[0]] + UnescapeQuotes(s[1..])
  }

  /** Escaping loses nothing: removing the added backslashes gives the text back. */
  lemma {:induction false} EscapeQuotesRoundTrip(text: string)
    ensures UnescapeQuotes(EscapeQuotes(text)) == text
    decreases |text|
  {
    if text != [] {
      var rest := EscapeQuotes(text[1..]);
      EscapeQuotesRoundTrip(text[1..]);
      if text[0] == '"' {
        assert EscapeQuotes(text) == ['\\', '"'] + rest;
        assert (['\\', '"'] + rest)[2..] == rest;
      } else {
        assert EscapeQuotes(text) == [text[0]] + rest;
        assert ([text[0]] + rest)[1..] == rest;
      }
    }
  }

  /** Every double quote in `s` has a backslash just before it. */
  ghost predicate QuotesEscaped(s: string)
  {
    forall i :: 0 <= i < |s| && s[i] == '"' ==> 0 < i && s[i - 1] == '\\'
  }

  /** Every double quote in the escaped text has a backslash just before it. */
  lemma {:induction false} EscapeQuotesPrecedesQuotes(text: string)
    ensures QuotesEscaped(EscapeQuotes(text))
    decreases |text|
  {
    if text != [] {
      var rest := EscapeQuotes(text[1..]);
      EscapeQuotesPrecedesQuotes(text[1..]);
      var head: string := if text[0] == '"' then ['\\', '"'] else [text[0]];
      var r := head + rest;
      assert EscapeQuotes(text) == r;
      forall i | 0 <= i < |r| && r[i] == '"' ensures 0 < i && r[i - 1] == '\\' {
        if i >= |head| {
          assert r[i] == rest[i - |head|];
          if i - |head| > 0 {
            assert rest[i - |head|] == '"';
            assert rest[i - |head| - 1] == '\\';
            assert r[i - 1] == rest[i - 1 - |head|];
          } else {
            assert false;
          }
        } else {
          assert r[i] == head[i] && r[0] == head[0];
          assert text[0] == '"' && i == 1;
        }
      }
    }
  }

  /** The characters a backslash escapes inside double quotes (section 2.2.3 of the POSIX
      Shell Command Language); a backslash before a newline joins the lines. */
  predicate Escapable(c: char)
  {
    c == '$' || c == '`' || c == '"' || c == '\\' || c == '\n'
  }

  /** How `sh` reads what follows an opening double quote, when the closing quote has to be
      the last character: the word it passes on, or None when the quote closes early, never
      closes, or an unescaped `$` or backquote asks for an expansion. */
  function ReadQuoted(s: string): Option<string>
    decreases |s|
  {
    if s == [] then None
    else if s[0] == '"' then (if |s| == 1 then Some([]) else None)
    else if s[0] == '$' || s[0] == '`' then None
    else if s[0] == '\\' && |s| >= 2 && Escapable(s[1]) then
      if s[1] == '\n' then ReadQuoted(s[2..]) else Prepend(s[1], ReadQuoted(s[2..]))
    else Prepend(s[0], ReadQuoted(s[1..]))
  }

  function Prepend(c: char, o: Option<string>): Option<string>
  {
    match o
    case None => None
    case Some(w) => Some([c] + w)
  }

  /** Escaping only double quotes does not keep the text intact: a lone backslash turns the
      closing quote into a literal one and leaves the quote open. */
  lemma EscapeQuotesBackslashBreaks()
    ensures EscapeQuotes("\\") == "\\"
    ensures ReadQuoted(EscapeQuotes("\\") + "\"") != Some("\\")
  {
    assert EscapeQuotes("\\") == "\\";
    assert ("\\" + "\"")[2..] == [];
  }

  /** Nor does it stop expansions: `$HOME` reaches `sh` unescaped. */
  lemma EscapeQuotesDollarExpands()
    ensures ReadQuoted(EscapeQuotes("$HOME") + "\"") == None
  {
    assert EscapeQuotes("$HOME")[0] == '$';
  }

  /** A backslash before every character that is special inside double quotes. */
  function ShellEscape(text: string): string
    decreases |text|
  {
    if text == [] then []
    else
      var c := text[0];
      (if c == '"' || c == '\\' || c == '$' || c == '`' then ['\\', c] else [c]) + ShellEscape(text[1..])
  }

  /** Quoted this way, any text reaches the command as exactly one word equal to it. */
  lemma {:induction false} ShellEscapeRoundTrip(text: string)
    ensures ReadQuoted(ShellEscape(text) + "\"") == Some(text)
    decreases |text|
  {
    if text != [] {
      var c := text[0];
      var tail := ShellEscape(text[1..]) + "\"";
      ShellEscapeRoundTrip(text[1..]);
      if c == '"' || c == '\\' || c == '$' || c == '`' {
        assert ShellEscape(text) + "\"" == ['\\', c] + tail;
        assert (['\\', c] + tail)[2..] == tail;
      } else {
        assert ShellEscape(text) + "\"" == [c] + tail;
        assert ([c] + tail)[1..] == tail;
        if c == '\n' {
          assert Prepend(c, Some(text[1..])) == Some(text);
        }
      }
      assert [c] + text[1..] == text;
    } else {
      assert ShellEscape(text) + "\"" == "\"";
    }
  }

  const EspeakPrefix: string := "espeak -s 150 \""

  /** The fallback command line: the text, quoted, as the one argument of `espeak`. */
  function EspeakCommand(text: string): (cmd: string)
    ensures |cmd| >= |EspeakPrefix| && cmd[..|EspeakPrefix|] == EspeakPrefix
    ensures ReadQuoted(cmd[|EspeakPrefix|..]) == Some(text)
  {
    var cmd := EspeakPrefix + ShellEscape(text) + "\"";
    ShellEscapeRoundTrip(text);
    assert cmd[|EspeakPrefix|..] == ShellEscape(text) + "\"";
    cmd
  }
}
