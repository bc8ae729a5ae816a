/** Quoting of values in setup commands (internal/hub/setup_instructions.go), against the
    quoting rules of the two shells. */
module Quoting {
  import opened Options

  /** strings.ReplaceAll for a single character. */
  function Replaced(s: string, c: char, text: string): string {
    if s == "" then "" else (if s[0] == c then text else [s[0]]) + Replaced(s[1..], c, text)
  }

  function ShellQuote(value: string): string {
    "'" + Replaced(value, '\'', "'\"'\"'") + "'"
  }

  function PowershellQuote(value: string): string {
    "'" + Replaced(value, '\'', "''") + "'"
  }

  // ----- The shell -----

  /** Quoting of the Shell Command Language (IEEE Std 1003.1-2017, section 2.2). */
  datatype Mode = Unquoted | Single | Double

  predicate Blank(c: char) { c == ' ' || c == '\t' }

  /** Characters that mean something to the shell when they are not quoted. */
  predicate Special(c: char) {
    c == '|' || c == '&' || c == ';' || c == '<' || c == '>' || c == '(' || c == ')' || c == '$' || c == '`' || c == '\n'
    || c == '*' || c == '?' || c == '[' || c == '#' || c == '~' || c == '=' || c == '%' || c == '!' || c == '{' || c == '}'
  }

  function Append(word: Option<string>, c: char): Option<string> {
    Some((if word.Some? then word.value else "") + [c])
  }

  function Close(words: seq<string>, word: Option<string>): seq<string> {
    if word.Some? then words + [word.value] else words
  }

  /** The words that a line of input stands for after quote removal; None when it is not
      one simple list of literal words. `word` is the word being read. */
  function Words(s: string, mode: Mode, words: seq<string>, word: Option<string>): Option<seq<string>>
    decreases |s|
  {
    if s == "" then
      if mode == Unquoted then Some(Close(words, word)) else None
    else if s[0] == '\0' then None
    else
      match mode
      case Unquoted =>
        if s[0] == '\'' then Words(s[1..], Single, words, Some(if word.Some? then word.value else ""))
        else if s[0] == '"' then Words(s[1..], Double, words, Some(if word.Some? then word.value else ""))
        else if s[0] == '\\' then
          if |s| == 1 || s[1] == '\0' then None
          else if s[1] == '\n' then Words(s[2..], Unquoted, words, word)
          else Words(s[2..], Unquoted, words, Append(word, s[1]))
        else if Blank(s[0]) then Words(s[1..], Unquoted, Close(words, word), None)
        else if Special(s[0]) then None
        else Words(s[1..], Unquoted, words, Append(word, s[0]))
      case Single =>
        if s[0] == '\'' then Words(s[1..], Unquoted, words, word) else Words(s[1..], Single, words, Append(word, s[0]))
      case Double =>
        if s[0] == '"' then Words(s[1..], Unquoted, words, word)
        else if s[0] == '$' || s[0] == '`' then None
        else if s[0] == '\\' then
          if |s| == 1 || s[1] == '\0' then None
          else if s[1] == '\n' then Words(s[2..], Double, words, word)
          else if s[1] == '"' || s[1] == '\\' || s[1] == '$' || s[1] == '`' then Words(s[2..], Double, words, Append(word, s[1]))
          else Words(s[2..], Double, words, Append(Append(word, s[0]), s[1]))
        else Words(s[1..], Double, words, Append(word, s[0]))
  }

  /** A quoted apostrophe is read as one apostrophe. */
  lemma Apostrophe(rest: string, words: seq<string>, word: string)
    ensures Words("'\"'\"'" + rest, Single, words, Some(word)) == Words(rest, Single, words, Some(word + "'"))
  {
    var s := "'\"'\"'" + rest;
    assert s[1..] == "\"'\"'" + rest;
    assert s[1..][1..] == "'\"'" + rest;
    assert s[1..][1..][1..] == "\"'" + rest;
    assert s[1..][1..][1..][1..] == "'" + rest;
    assert s[1..][1..][1..][1..][1..] == rest;
    calc {
      Words(s, Single, words, Some(word));
      Words(s[1..], Unquoted, words, Some(word));
      Words(s[1..][1..], Double, words, Some(word));
      Words(s[1..][1..][1..], Double, words, Some(word + "'"));
      Words(s[1..][1..][1..][1..], Unquoted, words, Some(word + "'"));
      Words(rest, Single, words, Some(word + "'"));
    }
  }

  lemma {:induction false} QuotedBody(value: string, rest: string, words: seq<string>, word: string)
    ensures Words(Replaced(value, '\'', "'\"'\"'") + "'" + rest, Single, words, Some(word)) ==
            if '\0' in value then None else Words(rest, Unquoted, words, Some(word + value))
  {
    if value == "" {
      var s := Replaced(value, '\'', "'\"'\"'") + "'" + rest;
      assert s[0] == '\'' && s[1..] == rest;
      assert word + value == word;
    } else {
      var tail := Replaced(value[1..], '\'', "'\"'\"'") + "'" + rest;
      QuotedBody(value[1..], rest, words, word + [value[0]]);
      assert word + [value[0]] + value[1..] == word + value by { assert value == [value[0]] + value[1..]; }
      if value[0] == '\'' {
        Apostrophe(tail, words, word);
        assert Replaced(value, '\'', "'\"'\"'") + "'" + rest == "'\"'\"'" + tail;
      } else {
        assert Replaced(value, '\'', "'\"'\"'") + "'" + rest == [value[0]] + tail;
        assert ([value[0]] + tail)[1..] == tail;
      }
    }
  }

  /** Wherever a command has a quoted value, the shell adds exactly the value to the word
      it is reading and goes on after it, for every value without NUL. */
  lemma ShellInContext(value: string, rest: string, words: seq<string>, word: Option<string>)
    requires '\0' !in value
    ensures Words(ShellQuote(value) + rest, Unquoted, words, word) ==
            Words(rest, Unquoted, words, Some((if word.Some? then word.value else "") + value))
  {
    var q := ShellQuote(value) + rest;
    var body := Replaced(value, '\'', "'\"'\"'") + "'" + rest;
    assert q == "'" + body && q[1..] == body;
    QuotedBody(value, rest, words, if word.Some? then word.value else "");
  }

  /** Quote removal turns a quoted value back into the single word that is the value,
      for exactly the values without NUL. */
  lemma ShellRoundTrip(value: string)
    ensures Words(ShellQuote(value), Unquoted, [], None) == Some([value]) <==> '\0' !in value
  {
    var q := ShellQuote(value);
    var body := Replaced(value, '\'', "'\"'\"'") + "'" + "";
    assert q == "'" + body && q[1..] == body;
    assert Words(q, Unquoted, [], None) == Words(body, Single, [], Some(""));
    QuotedBody(value, "", [], "");
    assert "" + value == value && Close([], Some(value)) == [value];
  }

  // ----- PowerShell -----

  /** The single-quote characters of the PowerShell Language Specification (section
      2.3.5.2): the apostrophe and four typographic quotes. */
  predicate Typographic(c: char) {
    c == '\U{2018}' || c == '\U{2019}' || c == '\U{201A}' || c == '\U{201B}'
  }

  predicate Quote(c: char) { c == '\'' || Typographic(c) }

  /** The rest of a verbatim string that ends with the input: two single-quote
      characters stand for one. */
  function Verbatim(s: string): Option<string>
    decreases |s|
  {
    if s == "" then None
    else if !Quote(s[0]) then Prefixed(s[0], Verbatim(s[1..]))
    else if |s| == 1 then Some("")
    else if Quote(s[1]) then Prefixed(s[1], Verbatim(s[2..]))
    else None
  }

  function Prefixed(c: char, rest: Option<string>): Option<string> {
    if rest.None? then None else Some([c] + rest.value)
  }

  function Literal(s: string): Option<string> {
    if s == "" || !Quote(s[0]) then None else Verbatim(s[1..])
  }

  predicate Plain(value: string) {
    forall i :: 0 <= i < |value| ==> !Typographic(value[i])
  }

  function Body(value: string): string {
    Replaced(value, '\'', "''") + "'"
  }

  lemma BodyOf(value: string)
    ensures value == "" ==> Body(value) == "'"
    ensures value != "" && value[0] == '\'' ==> Body(value) == "''" + Body(value[1..])
    ensures value != "" && value[0] != '\'' ==> Body(value) == [value[0]] + Body(value[1..])
    ensures Body(value) != "" && (value != "" ==> Body(value)[0] == value[0])
  {
  }

  lemma {:induction false} PlainBody(value: string)
    requires Plain(value)
    ensures Verbatim(Body(value)) == Some(value)
  {
    BodyOf(value);
    if value == "" {
    } else {
      PlainBody(value[1..]);
      assert value == [value[0]] + value[1..];
      var b := Body(value);
      if value[0] == '\'' {
        assert b[0] == '\'' && b[1] == '\'' && b[2..] == Body(value[1..]);
      } else {
        assert b[1..] == Body(value[1..]);
      }
    }
  }

  lemma ReadPair(c: char, d: char, rest: string)
    requires Quote(c)
    ensures Verbatim([c] + ([d] + rest)) == if Quote(d) then Prefixed(d, Verbatim(rest)) else None
  {
    var s := [c] + ([d] + rest);
    assert s[0] == c && s[1] == d && s[2..] == rest;
  }

  /** A typographic quote swallows the character after it or ends the string. */
  lemma AfterTypographic(value: string)
    requires value != "" && Typographic(value[0])
    ensures Verbatim(Body(value)).Some? ==> |value| > 1 && Quote(value[1])
    ensures |value| > 1 && value[1] == '\'' ==> Verbatim(Body(value)) == Prefixed('\'', Verbatim("'" + Body(value[2..])))
    ensures |value| > 1 && Typographic(value[1]) ==> Verbatim(Body(value)) == Prefixed(value[1], Verbatim(Body(value[2..])))
  {
    var rest := value[1..];
    BodyOf(value);
    BodyOf(rest);
    NothingLeft();
    hide Body, Verbatim;
    if rest == "" {
      assert Body(value) == [value[0]] + (['\''] + "");
      ReadPair(value[0], '\'', "");
    } else {
      assert rest[1..] == value[2..] && rest[0] == value[1];
      if rest[0] == '\'' {
        assert Body(rest) == ['\''] + ("'" + Body(value[2..]));
        ReadPair(value[0], '\'', "'" + Body(value[2..]));
      } else {
        ReadPair(value[0], value[1], Body(value[2..]));
      }
    }
  }

  lemma NothingLeft()
    ensures Verbatim("") == None
  {
  }

  /** The same reading from between the two apostrophes of a pair. */
  lemma AfterApostrophe(value: string)
    ensures Verbatim("'" + Body(value)).Some? ==> value != "" && Quote(value[0])
    ensures value != "" && value[0] == '\'' ==> Verbatim("'" + Body(value)) == Prefixed('\'', Verbatim("'" + Body(value[1..])))
    ensures value != "" && Typographic(value[0]) ==> Verbatim("'" + Body(value)) == Prefixed(value[0], Verbatim(Body(value[1..])))
  {
    var m := "'" + Body(value);
    BodyOf(value);
    assert m[0] == '\'' && m[1] == Body(value)[0];
    if value == "" {
      assert m == "''" && m[2..] == "";
    } else if value[0] == '\'' {
      assert m == "'" + ("''" + Body(value[1..]));
      assert m[2..] == "'" + Body(value[1..]);
    } else {
      assert m == "'" + ([value[0]] + Body(value[1..]));
      assert m[2..] == Body(value[1..]);
    }
  }

  ghost predicate Shorter(read: Option<string>, bound: int) {
    read.Some? ==> |read.value| <= bound
  }

  /** Reading never gains characters, and a typographic quote loses one. */
  lemma {:induction false} NeverLonger(value: string)
    ensures Shorter(Verbatim(Body(value)), |value| - (if Plain(value) then 0 else 1))
    ensures Shorter(Verbatim("'" + Body(value)), |value|)
    decreases |value|
  {
    AfterApostrophe(value);
    BodyOf(value);
    if value == "" {
    } else {
      NeverLonger(value[1..]);
      var b := Body(value);
      if value[0] == '\'' {
        assert b[0] == '\'' && b[1] == '\'' && b[2..] == Body(value[1..]);
        PlainRest(value);
      } else if Typographic(value[0]) {
        AfterTypographic(value);
        if |value| <= 1 {
        } else {
          NeverLonger(value[2..]);
        }
      } else {
        assert b[0] == value[0] && b[1..] == Body(value[1..]);
        PlainRest(value);
      }
    }
  }

  lemma PlainRest(value: string)
    requires value != "" && !Typographic(value[0])
    ensures Plain(value) <==> Plain(value[1..])
  {
    if Plain(value[1..]) {
      forall i | 0 <= i < |value| ensures !Typographic(value[i]) {
        if i > 0 { assert !Typographic(value[1..][i - 1]); }
      }
    }
  }

  /** PowerShell reads a quoted value back as the value for exactly the values without
      typographic single quotes; these include all ASCII text. */
  lemma PowershellRoundTrip(value: string)
    ensures Literal(PowershellQuote(value)) == Some(value) <==> Plain(value)
  {
    var q := PowershellQuote(value);
    assert q == "'" + Body(value) && q[1..] == Body(value);
    if Plain(value) {
      PlainBody(value);
    }
    NeverLonger(value);
  }

  /** A value with a right single quotation mark does not come back. */
  lemma TypographicIsLost()
    ensures Literal(PowershellQuote("it\U{2019}s")) != Some("it\U{2019}s")
  {
    hide PowershellQuote, Literal;
    var value := "it\U{2019}s";
    assert Typographic(value[2]);
    PowershellRoundTrip(value);
  }
}
