/**
 * The escaper and the option-form resolver (command.go:307-326), and the
 * readings of an escaped token that show what the escaping preserves.
 */
module Quoting {
  import opened Wrappers
  import opened Strings
  import Options

  /** The long spelling of a flag when the style asks for it, the short one otherwise. */
  function OptionForm(style: Options.OutputStyle, short: string, long: string): (r: string)
    ensures r == short || r == long
    ensures short != long ==> (r == long <==> style.useLongForm)
  {
    if style.useLongForm then long else short
  }

  /** Single-quote mode: every ' becomes '\'' and the whole is wrapped in '. */
  function EscapeSingle(s: string): string
  {
    "'" + ReplaceAll(s, '\'', "'\\''") + "'"
  }

  /** Double-quote mode: ", ` and $ are backslash-escaped, one ReplaceAll after another. */
  function EscapeDouble(s: string): string
  {
    var v1 := ReplaceAll(s, '"', "\\\"");
    var v2 := ReplaceAll(v1, '`', "\\`");
    var v3 := ReplaceAll(v2, '$', "\\$");
    "\"" + v3 + "\""
  }

  function Escape(style: Options.OutputStyle, s: string): (r: string)
    ensures |r| >= 2 && r[0] == r[|r| - 1] == QuoteChar(style)
  {
    if style.useDoubleQuotes then EscapeDouble(s) else EscapeSingle(s)
  }

  function QuoteChar(style: Options.OutputStyle): char
  {
    if style.useDoubleQuotes then '"' else '\''
  }

  // ----- Double-quote mode as one pass, and its decoder -----

  /** The three characters double-quote mode escapes. */
  predicate IsEscapedInDouble(c: char)
  {
    c == '"' || c == '`' || c == '$'
  }

  /** Puts a backslash in front of each of ", ` and $ in a single pass. */
  function BackslashEscape(s: string): (r: string)
    ensures r == [] || !IsEscapedInDouble(r[0])
  {
    if s == [] then []
    else (if IsEscapedInDouble(s[0]) then ['\\', s[0]] else [s[0]]) + BackslashEscape(s[1..])
  }

  /** The three successive replacements of EscapeDouble do the same as one pass. */
  lemma {:induction false} ThreeReplacementsAreOnePass(s: string)
    ensures ReplaceAll(ReplaceAll(ReplaceAll(s, '"', "\\\""), '`', "\\`"), '$', "\\$") == BackslashEscape(s)
  {
    if s != [] {
      var c := s[0];
      var t := s[1..];
      var h1 := if c == '"' then "\\\"" else [c];
      var r1 := ReplaceAll(t, '"', "\\\"");
      assert ReplaceAll(s, '"', "\\\"") == h1 + r1;
      ReplaceAllAppend(h1, r1, '`', "\\`");
      var h2 := ReplaceAll(h1, '`', "\\`");
      var r2 := ReplaceAll(r1, '`', "\\`");
      ReplaceAllAppend(h2, r2, '$', "\\$");
      var h3 := ReplaceAll(h2, '$', "\\$");
      assert h3 == if IsEscapedInDouble(c) then ['\\', c] else [c] by {
        if c == '"' {
          assert h1 == ['\\', '"'];
          assert h2 == h1;
          assert h3 == h2;
        } else if c == '`' {
          assert h1 == ['`'];
          assert h2 == ['\\', '`'] by {
            assert ReplaceAll(h1, '`', "\\`") == "\\`" + ReplaceAll([], '`', "\\`");
          }
          assert h3 == h2;
        } else if c == '$' {
          assert h2 == ['$'] by {
            assert ReplaceAll(h1, '`', "\\`") == ['$'] + ReplaceAll([], '`', "\\`");
          }
          assert h3 == ['\\', '$'] by {
            assert ReplaceAll(h2, '$', "\\$") == "\\$" + ReplaceAll([], '$', "\\$");
          }
        } else {
          assert h2 == [c] by {
            assert ReplaceAll(h1, '`', "\\`") == [c] + ReplaceAll([], '`', "\\`");
          }
          assert h3 == [c] by {
            assert ReplaceAll(h2, '$', "\\$") == [c] + ReplaceAll([], '$', "\\$");
          }
        }
      }
      ThreeReplacementsAreOnePass(t);
    }
  }

  function Prepend(c: char, o: Option<string>): Option<string>
  {
    if o.Some? then Some([c] + o.value) else None
  }

  /** Reads back the inside of a double-quoted token: a backslash before ", ` or $ is dropped. */
  function UnescapeDoubleInterior(t: string): Option<string>
  {
    if t == [] then Some([])
    else if t[0] == '\\' && |t| >= 2 && IsEscapedInDouble(t[1]) then Prepend(t[1], UnescapeDoubleInterior(t[2..]))
    else if IsEscapedInDouble(t[0]) then None
    else Prepend(t[0], UnescapeDoubleInterior(t[1..]))
  }

  function UnescapeDouble(t: string): Option<string>
  {
    if |t| >= 2 && t[0] == '"' && t[|t| - 1] == '"' then UnescapeDoubleInterior(t[1..|t| - 1]) else None
  }

  lemma {:induction false} UnescapeBackslashEscape(s: string)
    ensures UnescapeDoubleInterior(BackslashEscape(s)) == Some(s)
  {
    if s != [] {
      var t := s[1..];
      UnescapeBackslashEscape(t);
      var b := BackslashEscape(t);
      if IsEscapedInDouble(s[0]) {
        assert BackslashEscape(s) == ['\\', s[0]] + b;
        assert (['\\', s[0]] + b)[2..] == b;
      } else {
        assert BackslashEscape(s) == [s[0]] + b;
        assert ([s[0]] + b)[1..] == b;
        if s[0] == '\\' {
          // the next character of the escaped text is never one of the three
          assert b == [] || !IsEscapedInDouble(b[0]);
        }
      }
      assert s == [s[0]] + t;
    }
  }

  /** Double-quote escaping can be undone, so it is injective. */
  lemma DoubleRoundTrip(s: string)
    ensures UnescapeDouble(EscapeDouble(s)) == Some(s)
  {
    ThreeReplacementsAreOnePass(s);
    var e := EscapeDouble(s);
    assert e == "\"" + BackslashEscape(s) + "\"";
    assert e[1..|e| - 1] == BackslashEscape(s);
    UnescapeBackslashEscape(s);
  }

  // ----- How a POSIX shell reads a quoted word -----

  /** The characters a backslash escapes inside double quotes (section 2.2.3 of the POSIX Shell Command Language). */
  predicate EscapableInDouble(c: char)
  {
    c == '$' || c == '`' || c == '"' || c == '\\' || c == '\n'
  }

  function Concat(s: string, o: Option<string>): Option<string>
  {
    if o.Some? then Some(s + o.value) else None
  }

  lemma PrependConcat(c: char, x: string, o: Option<string>)
    ensures Prepend(c, Concat(x, o)) == Concat([c] + x, o)
  {
    if o.Some? {
      assert [c] + (x + o.value) == ([c] + x) + o.value;
    }
  }

  /**
   * The literal value a POSIX shell gives one word made of quoted parts and
   * backslash-escaped characters (sections 2.2.1 to 2.2.3 of the POSIX Shell
   * Command Language). None when a quote is left open, when an expansion ($ or `)
   * would take place, or at an unquoted character other than a quote or a
   * backslash: those are outside what this reader covers.
   */
  function Word(t: string): Option<string>
    decreases |t|
  {
    if t == [] then Some([])
    else if t[0] == '\'' then SingleQuoted(t[1..])
    else if t[0] == '"' then DoubleQuoted(t[1..])
    else if t[0] == '\\' && |t| >= 2 then
      (if t[1] == '\n' then Word(t[2..]) else Prepend(t[1], Word(t[2..])))
    else None
  }

  /** Inside single quotes every character up to the next ' is literal (section 2.2.2 of the POSIX Shell Command Language). */
  function SingleQuoted(t: string): Option<string>
    decreases |t|
  {
    if t == [] then None
    else if t[0] == '\'' then Word(t[1..])
    else Prepend(t[0], SingleQuoted(t[1..]))
  }

  /** Inside double quotes a backslash escapes only $ ` " \ and newline (section 2.2.3 of the POSIX Shell Command Language). */
  function DoubleQuoted(t: string): Option<string>
    decreases |t|
  {
    if t == [] then None
    else if t[0] == '"' then Word(t[1..])
    else if t[0] == '\\' && |t| >= 2 && EscapableInDouble(t[1]) then
      (if t[1] == '\n' then DoubleQuoted(t[2..]) else Prepend(t[1], DoubleQuoted(t[2..])))
    else if t[0] == '$' || t[0] == '`' then None
    else Prepend(t[0], DoubleQuoted(t[1..]))
  }

  /** The escaped quote '\'' closes the quotes, emits a quote and reopens them. */
  lemma SingleQuotedEscapedQuote(t: string)
    ensures SingleQuoted("'\\''" + t) == Prepend('\'', SingleQuoted(t))
  {
    var w := ("'\\''" + t)[1..];
    assert w == "\\''" + t && w[2..] == "'" + t && w[2..][1..] == t;
    assert Word(w[2..]) == SingleQuoted(t);
  }

  lemma SingleQuotedPlain(c: char, t: string)
    requires c != '\''
    ensures SingleQuoted([c] + t) == Prepend(c, SingleQuoted(t))
  {
    assert ([c] + t)[1..] == t;
  }

  lemma {:induction false} SingleQuotedReadsBack(s: string, rest: string)
    ensures SingleQuoted(ReplaceAll(s, '\'', "'\\''") + "'" + rest) == Concat(s, Word(rest))
  {
    var t := ReplaceAll(s, '\'', "'\\''") + "'" + rest;
    if s == [] {
      assert t == "'" + rest && t[1..] == rest;
      assert Concat(s, Word(rest)) == Word(rest) by {
        if Word(rest).Some? { assert s + Word(rest).value == Word(rest).value; }
      }
    } else {
      var c := s[0];
      var piece := if c == '\'' then "'\\''" else [c];
      var t' := ReplaceAll(s[1..], '\'', "'\\''") + "'" + rest;
      assert t == piece + t';
      SingleQuotedReadsBack(s[1..], rest);
      PrependConcat(c, s[1..], Word(rest));
      assert s == [c] + s[1..];
      if c == '\'' {
        SingleQuotedEscapedQuote(t');
      } else {
        SingleQuotedPlain(c, t');
      }
    }
  }

  /** Single-quote escaping is undone exactly by a POSIX shell (section 2.2.2 of the POSIX Shell Command Language). */
  lemma SingleRoundTrip(s: string)
    ensures Word(EscapeSingle(s)) == Some(s)
  {
    var e := EscapeSingle(s);
    assert e == "'" + (ReplaceAll(s, '\'', "'\\''") + "'" + []);
    assert e[1..] == ReplaceAll(s, '\'', "'\\''") + "'" + [];
    assert Word(e) == SingleQuoted(e[1..]);
    SingleQuotedReadsBack(s, []);
    assert s + [] == s;
  }

  /**
   * Every backslash is followed by a character that a backslash does not
   * escape inside double quotes; only then does the shell keep it literally.
   */
  predicate BackslashSafe(s: string)
  {
    forall i :: 0 <= i < |s| && s[i] == '\\' ==> i + 1 < |s| && !EscapableInDouble(s[i + 1])
  }

  lemma BackslashSafeTail(s: string)
    requires s != [] && BackslashSafe(s)
    ensures BackslashSafe(s[1..])
  {
    forall i | 0 <= i < |s[1..]| && s[1..][i] == '\\'
      ensures i + 1 < |s[1..]| && !EscapableInDouble(s[1..][i + 1])
    {
      assert s[i + 1] == '\\';
    }
  }

  /** Inside double quotes a backslash before ", ` or $ yields that character. */
  lemma DoubleQuotedEscapedChar(c: char, u: string)
    requires IsEscapedInDouble(c)
    ensures DoubleQuoted(['\\', c] + u) == Prepend(c, DoubleQuoted(u))
  {
    assert (['\\', c] + u)[2..] == u;
  }

  /** Inside double quotes any other character stands for itself, a backslash when nothing escapable follows. */
  lemma DoubleQuotedLiteral(c: char, u: string)
    requires !IsEscapedInDouble(c)
    requires c == '\\' ==> u != [] && !EscapableInDouble(u[0])
    ensures DoubleQuoted([c] + u) == Prepend(c, DoubleQuoted(u))
  {
    assert ([c] + u)[1..] == u;
  }

  lemma {:induction false} DoubleQuotedReadsBack(s: string, rest: string)
    requires BackslashSafe(s)
    ensures DoubleQuoted(BackslashEscape(s) + "\"" + rest) == Concat(s, Word(rest))
  {
    var t := BackslashEscape(s) + "\"" + rest;
    if s == [] {
      assert t == "\"" + rest && t[1..] == rest;
      assert Concat(s, Word(rest)) == Word(rest) by {
        if Word(rest).Some? { assert s + Word(rest).value == Word(rest).value; }
      }
    } else {
      var c := s[0];
      var b := BackslashEscape(s[1..]);
      var t' := b + "\"" + rest;
      BackslashSafeTail(s);
      DoubleQuotedReadsBack(s[1..], rest);
      assert s == [c] + s[1..];
      PrependConcat(c, s[1..], Word(rest));
      if IsEscapedInDouble(c) {
        assert t == ['\\', c] + t';
        DoubleQuotedEscapedChar(c, t');
      } else {
        assert t == [c] + t';
        if c == '\\' {
          assert 1 < |s| && !EscapableInDouble(s[1]);
          assert t'[0] == b[0] == s[1];
        }
        DoubleQuotedLiteral(c, t');
      }
    }
  }

  /** In double-quote mode the shell reads the escape back only for backslash-safe strings. */
  lemma DoubleShellRoundTrip(s: string)
    requires BackslashSafe(s)
    ensures Word(EscapeDouble(s)) == Some(s)
  {
    ThreeReplacementsAreOnePass(s);
    var e := EscapeDouble(s);
    assert e == "\"" + (BackslashEscape(s) + "\"" + []);
    assert e[1..] == BackslashEscape(s) + "\"" + [];
    assert Word(e) == DoubleQuoted(e[1..]);
    DoubleQuotedReadsBack(s, []);
    assert s + [] == s;
  }

  /** A lone backslash escapes the closing quote: the shell sees an unterminated word. */
  lemma DoubleQuoteTrailingBackslash()
    ensures EscapeDouble("\\") == "\"\\\""
    ensures Word(EscapeDouble("\\")) == None
  {
    ThreeReplacementsAreOnePass("\\");
    assert BackslashEscape("\\") == "\\" by {
      assert BackslashEscape("\\") == "\\" + BackslashEscape([]);
    }
    var t := "\\\"";
    assert DoubleQuoted(t) == Prepend('"', DoubleQuoted([])) by {
      assert t[2..] == [];
    }
    assert Word(EscapeDouble("\\")) == DoubleQuoted(t) by {
      assert EscapeDouble("\\")[1..] == t;
    }
  }

  /** Two backslashes come back from the shell as one. */
  lemma DoubleQuoteBackslashPair()
    ensures EscapeDouble("\\\\") == "\"\\\\\""
    ensures Word(EscapeDouble("\\\\")) == Some("\\")
  {
    ThreeReplacementsAreOnePass("\\\\");
    assert BackslashEscape("\\\\") == "\\\\" by {
      assert BackslashEscape("\\\\") == "\\" + BackslashEscape("\\");
      assert BackslashEscape("\\") == "\\" + BackslashEscape([]);
    }
    var t := "\\\\\"";
    assert DoubleQuoted(t) == Prepend('\\', DoubleQuoted("\"")) by {
      assert t[2..] == "\"";
    }
    assert DoubleQuoted("\"") == Word([]) by {
      assert "\""[1..] == [];
    }
    assert Word(EscapeDouble("\\\\")) == DoubleQuoted(t) by {
      assert EscapeDouble("\\\\")[1..] == t;
    }
  }

  /** The reading each mode is built for: the shell for single quotes, backslash removal for double quotes. */
  function Unescape(style: Options.OutputStyle, t: string): Option<string>
  {
    if style.useDoubleQuotes then UnescapeDouble(t) else Word(t)
  }

  /** Escaping loses nothing in either mode. */
  lemma EscapeRoundTrip(style: Options.OutputStyle, s: string)
    ensures Unescape(style, Escape(style, s)) == Some(s)
  {
    if style.useDoubleQuotes {
      DoubleRoundTrip(s);
    } else {
      SingleRoundTrip(s);
    }
  }

  /** Different strings never escape to the same token. */
  lemma EscapeInjective(style: Options.OutputStyle, a: string, b: string)
    requires Escape(style, a) == Escape(style, b)
    ensures a == b
  {
    EscapeRoundTrip(style, a);
    EscapeRoundTrip(style, b);
  }

  /** The escapes the tests expect (command_test.go:162-211). */
  lemma EscapeExamples()
    ensures EscapeSingle("") == "''"
    ensures EscapeSingle("'") == "''\\'''"
    ensures EscapeDouble("") == "\"\""
    ensures EscapeDouble("\"") == "\"\\\"\""
  {
    assert ReplaceAll("'", '\'', "'\\''") == "'\\''" + ReplaceAll([], '\'', "'\\''");
    ThreeReplacementsAreOnePass("\"");
    assert BackslashEscape("\"") == "\\\"" + BackslashEscape([]);
  }

  /** A character between two single quotes: each quote becomes '\'' and the character stays. */
  lemma EscapeSingleTwoQuotes(c: char)
    requires c != '\''
    ensures EscapeSingle(['\'', c, '\'']) == "''\\''" + [c] + "'\\'''"
  {
    var s := ['\'', c, '\''];
    assert ReplaceAll(s[2..], '\'', "'\\''") == "'\\''" + ReplaceAll([], '\'', "'\\''");
    assert ReplaceAll(s[1..], '\'', "'\\''") == [c] + ReplaceAll(s[2..], '\'', "'\\''") by {
      assert s[1..][1..] == s[2..];
    }
    assert ReplaceAll(s, '\'', "'\\''") == "'\\''" + [c] + "'\\''";
  }

  /** A character between two double quotes: each quote gets a backslash and the character stays. */
  lemma EscapeDoubleTwoQuotes(c: char)
    requires !IsEscapedInDouble(c)
    ensures EscapeDouble(['"', c, '"']) == "\"\\\"" + [c] + "\\\"\""
  {
    var s := ['"', c, '"'];
    var b := BackslashEscape(s);
    assert EscapeDouble(s) == "\"" + b + "\"" by {
      ThreeReplacementsAreOnePass(s);
    }
    assert b == ['\\', '"', c, '\\', '"'] by {
      assert BackslashEscape(s[2..]) == ['\\', '"'] by {
        assert s[2..][1..] == [];
      }
      assert BackslashEscape(s[1..]) == [c, '\\', '"'] by {
        assert s[1..][1..] == s[2..];
      }
    }
  }
}
