/** Splitting a command line into arguments, and a quoting that it undoes for every argument list. */
module ShellArgs {

  datatype Result = Args(args: seq<string>) | UnbalancedQuote(quote: char) | UnterminatedEscape

  datatype Quote = NoQuote | InQuote(quote: char)

  datatype Scan = Scan(args: seq<string>, current: string, quote: Quote, escape: bool, seen: bool)

  const START := Scan([], "", NoQuote, false, false)

  predicate IsQuote(c: char) { c == '"' || c == '\'' }

  predicate IsBlank(c: char) { c == ' ' || c == '\t' || c == '\n' || c == '\r' }

  function Put(s: Scan, c: char): Scan {
    s.(current := s.current + [c], seen := true)
  }

  /** One character; a backslash looks ahead at `rest`, what follows it. */
  function Step(s: Scan, c: char, rest: string): Scan {
    if s.escape then Put(s, c).(escape := false)
    else if c == '\\' then
      if |rest| > 0 && IsQuote(rest[0]) then s.(escape := true, seen := true) else Put(s, c)
    else if s.quote.InQuote? then
      if c == s.quote.quote then s.(quote := NoQuote, seen := true) else Put(s, c)
    else if IsQuote(c) then s.(quote := InQuote(c), seen := true)
    else if IsBlank(c) then
      if s.seen then s.(args := s.args + [s.current], current := "", seen := false) else s
    else Put(s, c)
  }

  function ScanAll(s: Scan, text: string): Scan
    decreases |text|
  {
    if text == "" then s else ScanAll(Step(s, text[0], text[1..]), text[1..])
  }

  function Finish(s: Scan): Result {
    if s.quote.InQuote? then UnbalancedQuote(s.quote.quote)
    else if s.escape then UnterminatedEscape
    else if s.seen then Args(s.args + [s.current])
    else Args(s.args)
  }

  function Parse(text: string): Result {
    Finish(ScanAll(START, text))
  }

  /** The parser as one loop over the bytes. */
  method ParseShellArgs(text: string) returns (r: Result)
    ensures r == Parse(text)
    ensures r != UnterminatedEscape
  {
    var args: seq<string>, current, quote, escape, seen := [], "", NoQuote, false, false;
    for i := 0 to |text|
      invariant Parse(text) == Finish(ScanAll(Scan(args, current, quote, escape, seen), text[i..]))
      invariant escape ==> i < |text|
    {
      var c := text[i];
      ghost var tail := text[i..];
      assert tail[0] == c && tail[1..] == text[i + 1..];
      if escape {
        current, escape, seen := current + [c], false, true;
        continue;
      }
      if c == '\\' {
        if i + 1 < |text| && (text[i + 1] == '"' || text[i + 1] == '\'') {
          escape, seen := true, true;
          continue;
        }
        current, seen := current + [c], true;
        continue;
      }
      if quote.InQuote? {
        if c == quote.quote {
          quote := NoQuote;
        } else {
          current := current + [c];
        }
        seen := true;
        continue;
      }
      if IsQuote(c) {
        quote, seen := InQuote(c), true;
      } else if IsBlank(c) {
        if seen {
          args, current, seen := args + [current], "", false;
        }
      } else {
        current, seen := current + [c], true;
      }
    }
    if quote.InQuote? {
      return UnbalancedQuote(quote.quote);
    }
    if escape {
      return UnterminatedEscape;
    }
    if seen {
      args := args + [current];
    }
    return Args(args);
  }

  /** A pending escape is always resolved by the character that made it one. */
  lemma {:induction false} NoEscapeAtEnd(s: Scan, text: string)
    requires s.escape ==> text != ""
    ensures !ScanAll(s, text).escape
    decreases |text|
  {
    if text != "" {
      NoEscapeAtEnd(Step(s, text[0], text[1..]), text[1..]);
    }
  }

  lemma UnterminatedEscapeUnreachable(text: string)
    ensures Parse(text) != UnterminatedEscape
  {
    NoEscapeAtEnd(START, text);
  }

  // ---- Quoting ----

  /** Inside double quotes every quote character is escaped and everything else stands for itself. */
  function Escaped(s: string): string {
    if s == "" then "" else (if IsQuote(s[0]) then ['\\', s[0]] else [s[0]]) + Escaped(s[1..])
  }

  /** How many backslashes an argument ends in. */
  function Trailing(s: string): (n: nat)
    ensures n <= |s|
    ensures forall i :: |s| - n <= i < |s| ==> s[i] == '\\'
    ensures n < |s| ==> s[|s| - n - 1] != '\\'
  {
    if s == "" || s[|s| - 1] != '\\' then 0 else 1 + Trailing(s[..|s| - 1])
  }

  /** The argument without its trailing backslashes goes inside the quotes, and they follow outside,
      where they cannot escape the closing quote. */
  function Quoted(arg: string): string {
    var k := |arg| - Trailing(arg);
    "\"" + Escaped(arg[..k]) + "\"" + arg[k..]
  }

  function QuoteAll(args: seq<string>): string {
    if args == [] then ""
    else if |args| == 1 then Quoted(args[0])
    else Quoted(args[0]) + " " + QuoteAll(args[1..])
  }

  lemma ScanCons(s: Scan, c: char, rest: string)
    ensures ScanAll(s, [c] + rest) == ScanAll(Step(s, c, rest), rest)
  {
    assert ([c] + rest)[1..] == rest;
  }

  /** Inside the quotes the next character, escaped if it is a quote, is put as itself. */
  lemma ScanEscapedHead(s: Scan, body: string, rest: string)
    requires s.quote == InQuote('"') && !s.escape && s.seen
    requires body != "" && body[|body| - 1] != '\\'
    ensures ScanAll(s, Escaped(body) + rest) == ScanAll(Put(s, body[0]), Escaped(body[1..]) + rest)
  {
    var c, tail := body[0], Escaped(body[1..]) + rest;
    if IsQuote(c) {
      assert Escaped(body) + rest == ['\\'] + ([c] + tail);
      ScanCons(s, '\\', [c] + tail);
      ScanCons(s.(escape := true, seen := true), c, tail);
    } else {
      assert Escaped(body) + rest == [c] + tail;
      ScanCons(s, c, tail);
      if c == '\\' {
        EscapedHead(body[1..]);
        assert tail[0] == Escaped(body[1..])[0];
      }
    }
  }

  /** Inside the quotes the escaped text reads back as itself. */
  lemma {:induction false} ScanEscaped(s: Scan, body: string, rest: string)
    requires s.quote == InQuote('"') && !s.escape && s.seen
    requires body != "" ==> body[|body| - 1] != '\\'
    ensures ScanAll(s, Escaped(body) + rest) == ScanAll(s.(current := s.current + body), rest)
    decreases |body|
  {
    if body == "" {
      assert Escaped(body) + rest == rest && s.current + body == s.current;
    } else {
      var s' := Put(s, body[0]);
      ScanEscapedHead(s, body, rest);
      ScanEscaped(s', body[1..], rest);
      assert s.current + body == s'.current + body[1..];
    }
  }

  lemma EscapedHead(body: string)
    requires body != ""
    ensures Escaped(body) != "" && !IsQuote(Escaped(body)[0])
  {
  }

  /** Backslashes outside quotes, not followed by a quote, read back as themselves. */
  lemma {:induction false} ScanBackslashes(s: Scan, run: string, rest: string)
    requires s.quote == NoQuote && !s.escape && s.seen
    requires forall i :: 0 <= i < |run| ==> run[i] == '\\'
    requires rest != "" ==> !IsQuote(rest[0])
    ensures ScanAll(s, run + rest) == ScanAll(s.(current := s.current + run), rest)
    decreases |run|
  {
    if run == "" {
      assert run + rest == rest && s.current + run == s.current;
    } else {
      var tail := run[1..] + rest;
      assert run + rest == ['\\'] + tail;
      assert tail != "" ==> !IsQuote(tail[0]);
      ScanCons(s, '\\', tail);
      ScanBackslashes(Put(s, '\\'), run[1..], rest);
      assert s.current + run == s.current + ['\\'] + run[1..];
    }
  }

  lemma Regroup(a: string, b: string, c: string, d: string, e: string)
    ensures a + b + c + d + e == a + (b + (c + (d + e)))
  {
  }

  lemma ScanQuoted(args: seq<string>, arg: string, rest: string)
    requires rest != "" ==> !IsQuote(rest[0])
    ensures ScanAll(Scan(args, "", NoQuote, false, false), Quoted(arg) + rest) ==
            ScanAll(Scan(args, arg, NoQuote, false, true), rest)
  {
    var k := |arg| - Trailing(arg);
    var body, run := arg[..k], arg[k..];
    var s0, s1 := Scan(args, "", NoQuote, false, false), Scan(args, "", InQuote('"'), false, true);
    Regroup(['"'], Escaped(body), ['"'], run, rest);
    ScanCons(s0, '"', Escaped(body) + (['"'] + (run + rest)));
    ScanEscaped(s1, body, ['"'] + (run + rest));
    assert "" + body == body;
    ScanCons(s1.(current := body), '"', run + rest);
    ScanBackslashes(Scan(args, body, NoQuote, false, true), run, rest);
    assert arg == body + run;
  }

  lemma {:induction false} ScanQuoteAll(done: seq<string>, args: seq<string>)
    ensures Finish(ScanAll(Scan(done, "", NoQuote, false, false), QuoteAll(args))) == Args(done + args)
    decreases |args|
  {
    if args == [] {
      assert done + args == done;
    } else if |args| == 1 {
      ScanQuoted(done, args[0], "");
      assert Quoted(args[0]) + "" == Quoted(args[0]);
      assert args == [args[0]];
    } else {
      var rest := QuoteAll(args[1..]);
      assert QuoteAll(args) == Quoted(args[0]) + ([' '] + rest);
      ScanQuoted(done, args[0], [' '] + rest);
      ScanCons(Scan(done, args[0], NoQuote, false, true), ' ', rest);
      ScanQuoteAll(done + [args[0]], args[1..]);
      assert done + [args[0]] + args[1..] == done + args;
    }
  }

  /** Every argument list has a text that parses back to exactly that list. */
  lemma ParseUndoesQuoting(args: seq<string>)
    ensures Parse(QuoteAll(args)) == Args(args)
  {
    ScanQuoteAll([], args);
    assert [] + args == args;
  }

  // ---- Unquoted words ----

  /** Spaces, tabs and line ends. */
  predicate Blank(s: string) { forall i :: 0 <= i < |s| ==> s[i] in " \t\n\r" }

  predicate Plain(s: string) { s != "" && forall i :: 0 <= i < |s| ==> s[i] !in " \t\n\r\"'\\" }

  /** Words, each followed by its gap. */
  function Spaced(words: seq<string>, gaps: seq<string>): string
    requires |gaps| == |words|
  {
    if words == [] then "" else words[0] + (gaps[0] + Spaced(words[1..], gaps[1..]))
  }

  /** Plain words with a gap between any two of them. */
  predicate WellSpaced(words: seq<string>, gaps: seq<string>) {
    && |gaps| == |words|
    && (forall i :: 0 <= i < |words| ==> Plain(words[i]) && Blank(gaps[i]))
    && (forall i :: 0 <= i < |words| - 1 ==> gaps[i] != "")
  }

  lemma {:induction false} ScanBlanks(s: Scan, gap: string, rest: string)
    requires s.quote == NoQuote && !s.escape && !s.seen && Blank(gap)
    ensures ScanAll(s, gap + rest) == ScanAll(s, rest)
    decreases |gap|
  {
    if gap == "" {
      assert gap + rest == rest;
    } else {
      assert gap + rest == [gap[0]] + (gap[1..] + rest);
      ScanCons(s, gap[0], gap[1..] + rest);
      ScanBlanks(s, gap[1..], rest);
    }
  }

  lemma {:induction false} ScanWord(s: Scan, word: string, rest: string)
    requires s.quote == NoQuote && !s.escape && Plain(word)
    ensures ScanAll(s, word + rest) == ScanAll(s.(current := s.current + word, seen := true), rest)
    decreases |word|
  {
    assert word + rest == [word[0]] + (word[1..] + rest);
    ScanCons(s, word[0], word[1..] + rest);
    if |word| == 1 {
      assert word[1..] + rest == rest && word == [word[0]];
    } else {
      ScanWord(Put(s, word[0]), word[1..], rest);
      assert s.current + word == s.current + [word[0]] + word[1..];
    }
  }

  lemma {:induction false} ScanWords(done: seq<string>, words: seq<string>, gaps: seq<string>)
    requires WellSpaced(words, gaps)
    ensures Finish(ScanAll(Scan(done, "", NoQuote, false, false), Spaced(words, gaps))) == Args(done + words)
    decreases |words|
  {
    if words == [] {
      assert done + words == done;
    } else {
      var w, gap, rest := words[0], gaps[0], Spaced(words[1..], gaps[1..]);
      ScanWord(Scan(done, "", NoQuote, false, false), w, gap + rest);
      assert "" + w == w;
      if gap == "" {
        assert gap + rest == "" && done + words == done + [w];
      } else {
        assert gap + rest == [gap[0]] + (gap[1..] + rest);
        ScanCons(Scan(done, w, NoQuote, false, true), gap[0], gap[1..] + rest);
        ScanBlanks(Scan(done + [w], "", NoQuote, false, false), gap[1..], rest);
        ScanWords(done + [w], words[1..], gaps[1..]);
        assert done + [w] + words[1..] == done + words;
      }
    }
  }

  /** Words with no quote or backslash come back whatever blanks surround them. */
  lemma ParseWords(lead: string, words: seq<string>, gaps: seq<string>)
    requires Blank(lead) && WellSpaced(words, gaps)
    ensures Parse(lead + Spaced(words, gaps)) == Args(words)
  {
    ScanBlanks(START, lead, Spaced(words, gaps));
    ScanWords([], words, gaps);
    assert [] + words == words;
  }

  // ---- Quotes of either kind ----

  /** Text without quotes of this kind and without backslashes. */
  predicate Free(q: char, text: string) {
    forall i :: 0 <= i < |text| ==> text[i] != q && text[i] != '\\'
  }

  lemma {:induction false} ScanInside(s: Scan, q: char, text: string, rest: string)
    requires IsQuote(q) && s.quote == InQuote(q) && !s.escape && s.seen && Free(q, text)
    ensures ScanAll(s, text + rest) == ScanAll(s.(current := s.current + text), rest)
    decreases |text|
  {
    if text == "" {
      assert text + rest == rest && s.current + text == s.current;
    } else {
      assert text + rest == [text[0]] + (text[1..] + rest);
      ScanCons(s, text[0], text[1..] + rest);
      ScanInside(Put(s, text[0]), q, text[1..], rest);
      assert s.current + text == s.current + [text[0]] + text[1..];
    }
  }

  /** Quotes of either kind keep their text one argument, blanks, empty text and the other kind of quote
      included, and join it to a word before them. */
  lemma QuotedTextIsOneArgument(word: string, q: char, text: string)
    requires IsQuote(q) && Free(q, text) && (word == "" || Plain(word))
    ensures Parse(word + ([q] + (text + [q]))) == Args([word + text])
  {
    var tail := [q] + (text + [q]);
    var s := Scan([], word, NoQuote, false, word != "");
    if word == "" {
      assert word + tail == tail;
    } else {
      ScanWord(START, word, tail);
      assert "" + word == word;
    }
    ScanCons(s, q, text + [q]);
    var inside := Scan([], word, InQuote(q), false, true);
    ScanInside(inside, q, text, [q]);
    assert [q] == [q] + "";
    ScanCons(inside.(current := word + text), q, "");
  }

  /** A quote that is not closed is an error that names it. */
  lemma OpenQuoteIsAnError(q: char, text: string)
    requires IsQuote(q) && Free(q, text)
    ensures Parse([q] + text) == UnbalancedQuote(q)
  {
    ScanCons(START, q, text);
    var inside := Scan([], "", InQuote(q), false, true);
    assert text + "" == text;
    ScanInside(inside, q, text, "");
  }

  /** A backslash before a quote of either kind makes it an ordinary character, and before anything else is one
      itself. */
  lemma BackslashEscapesQuotes(c: char)
    ensures Parse(['\\', c]) ==
            if IsQuote(c) then Args([[c]])
            else if IsBlank(c) then Args([['\\']])
            else Args([['\\', c]])
  {
    assert ['\\', c][1..] == [c] && [c][1..] == "";
    assert ScanAll(START, ['\\', c]) == ScanAll(Step(START, '\\', [c]), [c]);
    var s := Step(START, '\\', [c]);
    assert ScanAll(s, [c]) == ScanAll(Step(s, c, ""), "");
    assert "" + ['\\'] == ['\\'] && "" + [c] == [c] && ['\\'] + [c] == ['\\', c];
    assert [] + [['\\']] == [['\\']] && [] + [[c]] == [[c]] && [] + [['\\', c]] == [['\\', c]];
  }
}
