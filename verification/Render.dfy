// Exporting values as text: POSIX shell `export` statements and dotenv lines, with readers that
// recover the key/value list.
module Render {
  import opened Wrappers
  import opened KeyOrder

  type Pairs = seq<(string, string)>

  /** Replace each single quote by: close the quote, an escaped quote, open it again. */
  function EscapeQuotes(value: string): string {
    if value == "" then ""
    else (if value[0] == '\'' then "'\\''" else [value[0]]) + EscapeQuotes(value[1..])
  }

  lemma {:induction false} QuoteEscapesConcat(value: string, rest: string)
    ensures EscapeQuotes(value + rest) == EscapeQuotes(value) + EscapeQuotes(rest)
    decreases |value|
  {
    if value == "" {
      assert value + rest == rest;
    } else {
      assert (value + rest)[1..] == value[1..] + rest;
      QuoteEscapesConcat(value[1..], rest);
    }
  }

  lemma {:induction false} QuoteEscapesPlain(value: string)
    requires forall c | c in value :: c != '\''
    ensures EscapeQuotes(value) == value
    decreases |value|
  {
    if value != "" {
      assert value[0] in value && forall c | c in value[1..] :: c in value;
      QuoteEscapesPlain(value[1..]);
      assert value == [value[0]] + value[1..];
    }
  }

  /** Each single quote is closed, escaped and opened again, and nothing else is changed. */
  lemma QuoteEscapes(value: string, rest: string)
    ensures (forall c | c in value :: c != '\'') ==> EscapeQuotes(value) == value
    ensures EscapeQuotes(value + rest) == EscapeQuotes(value) + EscapeQuotes(rest)
    ensures EscapeQuotes("'") == "'\\''"
  {
    QuoteEscapesConcat(value, rest);
    if forall c | c in value :: c != '\'' {
      QuoteEscapesPlain(value);
    }
  }

  function ShellLine(key: string, value: string): string {
    "export " + key + "='" + EscapeQuotes(value) + "'\n"
  }

  function ShellText(pairs: Pairs): string
    decreases |pairs|
  {
    if pairs == [] then "" else ShellLine(pairs[0].0, pairs[0].1) + ShellText(pairs[1..])
  }

  /** A map's pairs in key order. */
  function PairsOf(values: map<string, string>, keys: seq<string>): (pairs: Pairs)
    requires forall k | k in keys :: k in values
    ensures |pairs| == |keys| && forall i | 0 <= i < |keys| :: pairs[i] == (keys[i], values[keys[i]])
  {
    if keys == [] then [] else [(keys[0], values[keys[0]])] + PairsOf(values, keys[1..])
  }

  lemma {:induction false} ShellTextSnoc(pairs: Pairs, p: (string, string))
    ensures ShellText(pairs + [p]) == ShellText(pairs) + ShellLine(p.0, p.1)
    decreases |pairs|
  {
    if pairs == [] {
      assert ShellText([p]) == ShellLine(p.0, p.1) + ShellText([]);
    } else {
      assert (pairs + [p])[1..] == pairs[1..] + [p];
      ShellTextSnoc(pairs[1..], p);
    }
  }

  method RenderShell(values: map<string, string>) returns (out: string)
    ensures out == ShellText(PairsOf(values, SortedKeys(values.Keys)))
  {
    out := RenderShellPairs(PairsOf(values, SortedKeys(values.Keys)));
  }

  method RenderShellPairs(pairs: Pairs) returns (out: string)
    ensures out == ShellText(pairs)
  {
    out := "";
    for i := 0 to |pairs|
      invariant out == ShellText(pairs[..i])
    {
      assert pairs[..i + 1] == pairs[..i] + [pairs[i]];
      ShellTextSnoc(pairs[..i], pairs[i]);
      out := out + ShellLine(pairs[i].0, pairs[i].1);
    }
    assert pairs[..|pairs|] == pairs;
  }

  // ---- Reading shell words: section 2.2.1 (backslash) and 2.2.2 (single quotes) of the POSIX.1-2017
  // Shell Command Language. Other characters special to the shell are refused.

  predicate Blank(c: char) { c == ' ' || c == '\t' || c == '\n' }

  predicate OtherwiseSpecial(c: char) { c in "\"$`|&;<>()*?[#~%!{}" }

  /** Read one word: its value after quote removal, and the text from its delimiter on. */
  function LexWord(text: string, quoted: bool): Option<(string, string)>
    decreases |text|
  {
    if quoted then
      if text == "" then None
      else if text[0] == '\'' then LexWord(text[1..], false)
      else Prefixed(text[0], LexWord(text[1..], true))
    else if text == "" || Blank(text[0]) then Some(("", text))
    else if text[0] == '\'' then LexWord(text[1..], true)
    else if text[0] == '\\' then
      if |text| == 1 then None
      else if text[1] == '\n' then LexWord(text[2..], false)
      else Prefixed(text[1], LexWord(text[2..], false))
    else if OtherwiseSpecial(text[0]) then None
    else Prefixed(text[0], LexWord(text[1..], false))
  }

  function Prefixed(c: char, r: Option<(string, string)>): Option<(string, string)> {
    if r.Some? then Some(([c] + r.value.0, r.value.1)) else None
  }

  /** Split at the first `=`. */
  function Assignment(word: string): Option<(string, string)> {
    if word == "" then None
    else if word[0] == '=' then Some(("", word[1..]))
    else Prefixed(word[0], Assignment(word[1..]))
  }

  /** Read a list of one-assignment `export` commands, one per line. */
  function ReadShell(text: string): Option<Pairs>
    decreases |text|
  {
    if text == "" then Some([])
    else if !("export " <= text) then None
    else
      var word := LexWord(text[7..], false);
      if word.None? || |word.value.1| >= |text| || word.value.1 == "" || word.value.1[0] != '\n' then None
      else
        var pair, rest := Assignment(word.value.0), ReadShell(word.value.1[1..]);
        if pair.Some? && rest.Some? then Some([pair.value] + rest.value) else None
  }

  /** A character that stands for itself outside quotes. */
  predicate Literal(c: char) {
    !Blank(c) && c != '\'' && c != '\\' && !OtherwiseSpecial(c)
  }

  /** A key that can be written without quotes in front of the `=` of an assignment. */
  predicate PlainKey(key: string) {
    forall c | c in key :: Literal(c) && c != '='
  }

  lemma EscapedQuoteReads(more: string)
    ensures LexWord("'\\''" + more, true) == Prefixed('\'', LexWord(more, true))
  {
    var text := "'\\''" + more;
    var a, b := text[1..], text[3..];
    assert a[0] == '\\' && a[1] == '\'' && a[2..] == b && b[0] == '\'' && b[1..] == more;
    assert LexWord(b, false) == LexWord(more, true);
    assert LexWord(a, false) == Prefixed('\'', LexWord(b, false));
    assert LexWord(text, true) == LexWord(a, false);
  }

  lemma {:induction false} QuotedValueReads(value: string, rest: string)
    requires rest != "" && rest[0] == '\n'
    ensures LexWord(EscapeQuotes(value) + "'" + rest, true) == Some((value, rest))
    decreases |value|
  {
    var text := EscapeQuotes(value) + "'" + rest;
    if value == "" {
      assert text == "'" + rest;
      assert text[1..] == rest;
    } else {
      var tail := EscapeQuotes(value[1..]) + "'" + rest;
      QuotedValueReads(value[1..], rest);
      assert [value[0]] + value[1..] == value;
      if value[0] == '\'' {
        assert text == "'\\''" + tail;
        EscapedQuoteReads(tail);
      } else {
        assert text == [value[0]] + tail;
        assert text[1..] == tail;
      }
    }
  }

  lemma LiteralReads(c: char, more: string)
    requires Literal(c)
    ensures LexWord([c] + more, false) == Prefixed(c, LexWord(more, false))
  {
    assert ([c] + more)[0] == c && ([c] + more)[1..] == more;
  }

  /** The characters of a plain key are read as themselves. */
  lemma {:induction false} PlainKeyReads(key: string, suffix: string, word: string, rest: string)
    requires PlainKey(key) && LexWord(suffix, false) == Some((word, rest))
    ensures LexWord(key + suffix, false) == Some((key + word, rest))
    decreases |key|
  {
    if key == "" {
      assert key + suffix == suffix && key + word == word;
    } else {
      assert key[0] in key && forall c | c in key[1..] :: c in key;
      PlainKeyReads(key[1..], suffix, word, rest);
      LiteralReads(key[0], key[1..] + suffix);
      assert key + suffix == [key[0]] + (key[1..] + suffix);
      assert key + word == [key[0]] + (key[1..] + word);
    }
  }

  lemma QuoteOpens(quoted: string)
    ensures LexWord("='" + quoted, false) == Prefixed('=', LexWord(quoted, true))
  {
    var text := "='" + quoted;
    assert text[0] == '=' && text[1..] == "'" + quoted && text[1..][1..] == quoted;
    assert LexWord(text[1..], false) == LexWord(quoted, true);
  }

  lemma KeyThenQuoteReads(key: string, value: string, rest: string)
    requires PlainKey(key) && rest != "" && rest[0] == '\n'
    ensures LexWord(key + ("='" + (EscapeQuotes(value) + "'" + rest)), false) == Some((key + ("=" + value), rest))
  {
    var quoted := EscapeQuotes(value) + "'" + rest;
    QuotedValueReads(value, rest);
    QuoteOpens(quoted);
    assert ['='] + value == "=" + value;
    PlainKeyReads(key, "='" + quoted, "=" + value, rest);
  }

  lemma {:induction false} AssignmentSplits(key: string, value: string)
    requires '=' !in key
    ensures Assignment(key + "=" + value) == Some((key, value))
    decreases |key|
  {
    var word := key + "=" + value;
    if key == "" {
      assert word[0] == '=' && word[1..] == value;
    } else {
      assert word == [key[0]] + (key[1..] + "=" + value);
      assert word[1..] == key[1..] + "=" + value;
      AssignmentSplits(key[1..], value);
      assert [key[0]] + key[1..] == key;
    }
  }

  lemma LineReads(key: string, value: string, more: string)
    requires PlainKey(key)
    ensures ReadShell(ShellLine(key, value) + more) ==
            if ReadShell(more).Some? then Some([(key, value)] + ReadShell(more).value) else None
  {
    var rest := "\n" + more;
    var text := ShellLine(key, value) + more;
    var word := key + ("='" + (EscapeQuotes(value) + "'" + rest));
    assert text == "export " + word;
    assert text[7..] == word;
    KeyThenQuoteReads(key, value, rest);
    AssignmentSplits(key, value);
    assert key + ("=" + value) == key + "=" + value;
    assert rest[1..] == more;
  }

  /** The key of the assignment that a word spells. */
  function KeyRead(word: Option<(string, string)>): Option<string> {
    if word.Some? && Assignment(word.value.0).Some? then Some(Assignment(word.value.0).value.0) else None
  }

  lemma KeyOfPrefixed(c: char, word: Option<(string, string)>)
    ensures KeyRead(Prefixed(c, word)) ==
            if word.None? then None
            else if c == '=' then Some("")
            else if KeyRead(word).Some? then Some([c] + KeyRead(word).value) else None
  {
    if word.Some? {
      assert ([c] + word.value.0)[1..] == word.value.0;
    }
  }

  ghost predicate Within(key: Option<string>, n: int) {
    key.Some? ==> |key.value| <= n
  }

  /** However `s` is quoted, the key read from it and a following `=` is not longer than `s`. */
  lemma {:induction false} KeyNoLonger(s: string, r: string, quoted: bool)
    ensures Within(KeyRead(LexWord(s + ("=" + r), quoted)), |s|)
    decreases |s|
  {
    var text := s + ("=" + r);
    if s == "" {
      assert text == "=" + r && text[1..] == r;
      KeyOfPrefixed('=', LexWord(r, quoted));
    } else {
      assert text[0] == s[0] && text[1..] == s[1..] + ("=" + r);
      if !quoted && s[0] == '\\' {
        if |s| > 1 { KeyNoLonger(s[2..], r, false); }
        EscapeNoLonger(s, r);
      } else {
        var after := if s[0] == '\'' then !quoted else quoted;
        KeyNoLonger(s[1..], r, after);
        KeyOfPrefixed(s[0], LexWord(text[1..], after));
      }
    }
  }

  /** A backslash takes two characters and gives at most one. */
  lemma EscapeNoLonger(s: string, r: string)
    requires s != "" && s[0] == '\\'
    requires |s| > 1 ==> Within(KeyRead(LexWord(s[2..] + ("=" + r), false)), |s| - 2)
    ensures Within(KeyRead(LexWord(s + ("=" + r), false)), |s| - 1)
  {
    var text := s + ("=" + r);
    if |s| == 1 {
      assert text[1] == '=' && text[2..] == r;
      KeyOfPrefixed('=', LexWord(r, false));
    } else {
      assert text[1] == s[1] && text[2..] == s[2..] + ("=" + r);
      KeyOfPrefixed(s[1], LexWord(text[2..], false));
    }
  }

  /** A key with any other character is never the key that is read back. */
  lemma {:induction false} OtherKeyIsLost(key: string, r: string)
    requires !PlainKey(key)
    ensures Within(KeyRead(LexWord(key + ("=" + r), false)), |key| - 1)
    decreases |key|
  {
    var text := key + ("=" + r);
    assert text[0] == key[0] && text[1..] == key[1..] + ("=" + r);
    if Literal(key[0]) {
      LiteralReads(key[0], text[1..]);
      assert [key[0]] + text[1..] == text;
      KeyOfPrefixed(key[0], LexWord(text[1..], false));
      if key[0] != '=' {
        assert key == [key[0]] + key[1..];
        OtherKeyIsLost(key[1..], r);
      }
    } else if key[0] == '\\' {
      if |key| > 1 { KeyNoLonger(key[2..], r, false); }
      EscapeNoLonger(key, r);
    } else if key[0] == '\'' {
      KeyNoLonger(key[1..], r, true);
    }
  }

  lemma OtherLineIsLost(key: string, value: string, more: string)
    requires !PlainKey(key)
    ensures var read := ReadShell(ShellLine(key, value) + more);
            read.None? || (read.value != [] && read.value[0].0 != key)
  {
    var text := ShellLine(key, value) + more;
    var r := "'" + EscapeQuotes(value) + "'\n" + more;
    assert text == "export " + (key + ("=" + r));
    assert text[7..] == key + ("=" + r);
    OtherKeyIsLost(key, r);
  }

  ghost predicate PlainKeys(pairs: Pairs) {
    forall i | 0 <= i < |pairs| :: PlainKey(pairs[i].0)
  }

  /** Main result: reading the exported text by the shell's own quoting rules gives back exactly the
      pairs, whatever the values are (quotes, backslashes and newlines included), if and only if no
      key needs quoting. */
  lemma {:induction false} ShellRoundTrip(pairs: Pairs)
    ensures ReadShell(ShellText(pairs)) == Some(pairs) <==> PlainKeys(pairs)
    decreases |pairs|
  {
    if pairs != [] {
      ShellRoundTrip(pairs[1..]);
      assert pairs == [pairs[0]] + pairs[1..];
      if PlainKey(pairs[0].0) {
        LineReads(pairs[0].0, pairs[0].1, ShellText(pairs[1..]));
        assert PlainKeys(pairs) <==> PlainKeys(pairs[1..]);
      } else {
        OtherLineIsLost(pairs[0].0, pairs[0].1, ShellText(pairs[1..]));
      }
    }
  }

  /** Keys are written as they are, and a staged key may be any text without `=`: the exported line
      of such a key can fail to read back. */
  lemma KeyMayNeedQuoting()
    ensures exists key: string, pairs: Pairs ::
      key != "" && '=' !in key && pairs == [(key, "1")] && ReadShell(ShellText(pairs)) != Some(pairs)
  {
    var key := "X;Y";
    assert key[1] in key && OtherwiseSpecial(key[1]);
    OneKeyFails(key, "1", [(key, "1")]);
  }

  lemma OneKeyFails(key: string, value: string, pairs: Pairs)
    requires pairs == [(key, value)] && !PlainKey(key)
    ensures ReadShell(ShellText(pairs)) != Some(pairs)
  {
    ShellRoundTrip(pairs);
    assert !PlainKey(pairs[0].0);
  }

  // ---- Dotenv lines -----------------------------------------------------------------------------

  /** Unicode white space. */
  predicate Whitespace(c: char) {
    || '\U{0009}' <= c <= '\U{000D}' || c == ' ' || c == '\U{0085}' || c == '\U{00A0}' || c == '\U{1680}'
    || '\U{2000}' <= c <= '\U{200A}' || c == '\U{2028}' || c == '\U{2029}' || c == '\U{202F}' || c == '\U{205F}'
    || c == '\U{3000}'
  }

  predicate NeedsQuotes(value: string) {
    exists c | c in value :: Whitespace(c) || c == '=' || c == '"' || c == '\'' || c == '#'
  }

  function EscapeDotenv(value: string): string {
    if value == "" then ""
    else (if value[0] == '\\' || value[0] == '"' then ['\\', value[0]] else [value[0]]) + EscapeDotenv(value[1..])
  }

  function DotenvValue(value: string): string {
    if NeedsQuotes(value) then "\"" + EscapeDotenv(value) + "\"" else value
  }

  function DotenvLine(key: string, value: string): string {
    key + "=" + DotenvValue(value) + "\n"
  }

  function DotenvText(pairs: Pairs): string
    decreases |pairs|
  {
    if pairs == [] then "" else DotenvLine(pairs[0].0, pairs[0].1) + DotenvText(pairs[1..])
  }

  /** All white space there is. */
  const WHITE := "\U{0009}\U{000A}\U{000B}\U{000C}\U{000D}\U{0020}\U{0085}\U{00A0}\U{1680}\U{2000}\U{2001}\U{2002}" +
                 "\U{2003}\U{2004}\U{2005}\U{2006}\U{2007}\U{2008}\U{2009}\U{200A}\U{2028}\U{2029}\U{202F}" +
                 "\U{205F}\U{3000}"

  lemma {:induction false} EscapingLengthens(value: string)
    ensures |EscapeDotenv(value)| >= |value|
    decreases |value|
  {
    if value != "" {
      EscapingLengthens(value[1..]);
    }
  }

  lemma {:induction false} DotenvEscapesConcat(value: string, rest: string)
    ensures EscapeDotenv(value + rest) == EscapeDotenv(value) + EscapeDotenv(rest)
    decreases |value|
  {
    if value == "" {
      assert value + rest == rest;
    } else {
      assert (value + rest)[1..] == value[1..] + rest;
      DotenvEscapesConcat(value[1..], rest);
    }
  }

  lemma {:induction false} DotenvEscapesPlain(value: string)
    requires forall c | c in value :: c != '\\' && c != '"'
    ensures EscapeDotenv(value) == value
    decreases |value|
  {
    if value != "" {
      assert value[0] in value && forall c | c in value[1..] :: c in value;
      DotenvEscapesPlain(value[1..]);
      assert value == [value[0]] + value[1..];
    }
  }

  /** Escaping puts a backslash before each backslash and double quote, and changes nothing else. */
  lemma DotenvEscapes(value: string, rest: string)
    ensures (forall c | c in value :: c != '\\' && c != '"') ==> EscapeDotenv(value) == value
    ensures EscapeDotenv(value + rest) == EscapeDotenv(value) + EscapeDotenv(rest)
    ensures EscapeDotenv("\\") == "\\\\" && EscapeDotenv("\"") == "\\\""
  {
    DotenvEscapesConcat(value, rest);
    if forall c | c in value :: c != '\\' && c != '"' {
      DotenvEscapesPlain(value);
    }
  }

  lemma WhiteIs(c: char)
    ensures Whitespace(c) <==> c in WHITE
  {
    assert |WHITE| == 25;
    if '\U{0009}' <= c <= '\U{000D}' { assert WHITE[c as int - 9] == c; }
    if '\U{2000}' <= c <= '\U{200A}' { assert WHITE[9 + c as int - 0x2000] == c; }
    assert WHITE[5] == ' ' && WHITE[6] == '\U{0085}' && WHITE[7] == '\U{00A0}' && WHITE[8] == '\U{1680}';
    assert WHITE[20] == '\U{2028}' && WHITE[21] == '\U{2029}' && WHITE[22] == '\U{202F}';
    assert WHITE[23] == '\U{205F}' && WHITE[24] == '\U{3000}';
  }

  ghost predicate Special(c: char) {
    c in WHITE || c == '=' || c == '"' || c == '\'' || c == '#'
  }

  lemma NeedsQuotesIff(value: string)
    ensures NeedsQuotes(value) <==> exists c :: c in value && Special(c)
  {
    forall c | c in value ensures Whitespace(c) <==> c in WHITE { WhiteIs(c); }
    if NeedsQuotes(value) {
      var c :| c in value && (Whitespace(c) || c == '=' || c == '"' || c == '\'' || c == '#');
      assert Special(c);
    }
  }

  /** A value is written bare, as it is, exactly if it has no white space, equals sign, quote or hash;
      otherwise between double quotes. */
  lemma BareIff(value: string)
    ensures DotenvValue(value) == value <==> forall c | c in value :: !Special(c)
    ensures DotenvValue(value) != value ==> DotenvValue(value) == "\"" + EscapeDotenv(value) + "\""
  {
    NeedsQuotesIff(value);
    EscapingLengthens(value);
    assert |"\"" + EscapeDotenv(value) + "\""| == |EscapeDotenv(value)| + 2;
  }

  lemma {:induction false} DotenvTextSnoc(pairs: Pairs, p: (string, string))
    ensures DotenvText(pairs + [p]) == DotenvText(pairs) + DotenvLine(p.0, p.1)
    decreases |pairs|
  {
    if pairs == [] {
      assert DotenvText([p]) == DotenvLine(p.0, p.1) + DotenvText([]);
    } else {
      assert (pairs + [p])[1..] == pairs[1..] + [p];
      DotenvTextSnoc(pairs[1..], p);
    }
  }

  method RenderDotenv(values: map<string, string>) returns (out: string)
    ensures out == DotenvText(PairsOf(values, SortedKeys(values.Keys)))
  {
    out := RenderDotenvPairs(PairsOf(values, SortedKeys(values.Keys)));
  }

  method RenderDotenvPairs(pairs: Pairs) returns (out: string)
    ensures out == DotenvText(pairs)
  {
    out := "";
    for i := 0 to |pairs|
      invariant out == DotenvText(pairs[..i])
    {
      assert pairs[..i + 1] == pairs[..i] + [pairs[i]];
      DotenvTextSnoc(pairs[..i], pairs[i]);
      out := out + DotenvLine(pairs[i].0, pairs[i].1);
    }
    assert pairs[..|pairs|] == pairs;
  }

  /** Read up to the closing quote. */
  function ReadQuoted(text: string): Option<(string, string)>
    decreases |text|
  {
    if text == "" then None
    else if text[0] == '"' then Some(("", text[1..]))
    else if text[0] == '\\' then
      if |text| == 1 then None else Prefixed(text[1], ReadQuoted(text[2..]))
    else Prefixed(text[0], ReadQuoted(text[1..]))
  }

  /** Read up to the end of the line. */
  function ReadBare(text: string): Option<(string, string)> {
    if text == "" then None
    else if text[0] == '\n' then Some(("", text))
    else Prefixed(text[0], ReadBare(text[1..]))
  }

  function ReadValue(text: string): Option<(string, string)> {
    if text != "" && text[0] == '"' then ReadQuoted(text[1..]) else ReadBare(text)
  }

  function ReadDotenv(text: string): Option<Pairs>
    decreases |text|
  {
    if text == "" then Some([])
    else
      var key := Assignment(text);
      if key.None? then None
      else
        var value := ReadValue(key.value.1);
        if value.None? || value.value.1 == "" || value.value.1[0] != '\n' || |value.value.1| > |text| then None
        else
          var rest := ReadDotenv(value.value.1[1..]);
          if rest.Some? then Some([(key.value.0, value.value.0)] + rest.value) else None
  }

  lemma Regroup(a: string, b: string, c: string)
    ensures (a + b) + c == a + (b + c)
  {}

  lemma OneCharReads(c: char, tail: string)
    ensures c != '"' && c != '\\' ==> ReadQuoted([c] + tail) == Prefixed(c, ReadQuoted(tail))
    ensures ReadQuoted(['\\', c] + tail) == Prefixed(c, ReadQuoted(tail))
  {
    assert ([c] + tail)[1..] == tail && (['\\', c] + tail)[2..] == tail;
  }

  lemma {:induction false} EscapedReads(value: string, rest: string)
    ensures ReadQuoted(EscapeDotenv(value) + ("\"" + rest)) == Some((value, rest))
    decreases |value|
  {
    var text := EscapeDotenv(value) + ("\"" + rest);
    if value == "" {
      assert text == "\"" + rest && text[1..] == rest;
    } else {
      var tail := EscapeDotenv(value[1..]) + ("\"" + rest);
      EscapedReads(value[1..], rest);
      assert [value[0]] + value[1..] == value;
      var head := if value[0] == '\\' || value[0] == '"' then ['\\', value[0]] else [value[0]];
      Regroup(head, EscapeDotenv(value[1..]), "\"" + rest);
      OneCharReads(value[0], tail);
    }
  }

  lemma {:induction false} BareReads(value: string, rest: string)
    requires !NeedsQuotes(value) && rest != "" && rest[0] == '\n'
    ensures ReadBare(value + rest) == Some((value, rest))
    decreases |value|
  {
    var text := value + rest;
    if value == "" {
      assert text == rest;
    } else {
      assert value[0] in value && forall c | c in value[1..] :: c in value;
      assert Whitespace('\n') && value[0] != '\n';
      BareReads(value[1..], rest);
      assert text == [value[0]] + (value[1..] + rest);
      assert text[1..] == value[1..] + rest;
      assert [value[0]] + value[1..] == value;
    }
  }

  lemma Unquote(escaped: string, rest: string)
    ensures var text := "\"" + escaped + "\"" + rest; text[0] == '"' && text[1..] == escaped + ("\"" + rest)
  {}

  lemma QuotedReads(value: string, rest: string)
    requires NeedsQuotes(value)
    ensures ReadValue(DotenvValue(value) + rest) == Some((value, rest))
  {
    EscapedReads(value, rest);
    Unquote(EscapeDotenv(value), rest);
  }

  lemma ValueReads(value: string, rest: string)
    requires rest != "" && rest[0] == '\n'
    ensures ReadValue(DotenvValue(value) + rest) == Some((value, rest))
  {
    if NeedsQuotes(value) {
      QuotedReads(value, rest);
    } else {
      BareReads(value, rest);
      assert (value + rest)[0] == '"' ==> '"' in value;
    }
  }

  lemma DotenvLineReads(key: string, value: string, more: string)
    requires '=' !in key
    ensures ReadDotenv(DotenvLine(key, value) + more) ==
            if ReadDotenv(more).Some? then Some([(key, value)] + ReadDotenv(more).value) else None
  {
    var rest := "\n" + more;
    var after := DotenvValue(value) + rest;
    var text := DotenvLine(key, value) + more;
    assert text == key + "=" + after;
    AssignmentSplits(key, after);
    ValueReads(value, rest);
    assert rest[1..] == more;
  }

  ghost predicate NoEquals(pairs: Pairs) {
    forall i | 0 <= i < |pairs| :: '=' !in pairs[i].0
  }

  lemma {:induction false} KeyEndsAtEquals(word: string)
    ensures Assignment(word).Some? ==> '=' !in Assignment(word).value.0
    decreases |word|
  {
    if word != "" && word[0] != '=' {
      KeyEndsAtEquals(word[1..]);
    }
  }

  lemma FirstKeyHasNoEquals(text: string)
    ensures ReadDotenv(text).Some? && ReadDotenv(text).value != [] ==> '=' !in ReadDotenv(text).value[0].0
  {
    if text != "" {
      KeyEndsAtEquals(text);
    }
  }

  /** Dotenv text decodes to exactly the pairs, whatever the values are, if and only if no key
      contains `=`. */
  lemma {:induction false} DotenvRoundTrip(pairs: Pairs)
    ensures ReadDotenv(DotenvText(pairs)) == Some(pairs) <==> NoEquals(pairs)
    decreases |pairs|
  {
    if pairs != [] {
      DotenvRoundTrip(pairs[1..]);
      assert pairs == [pairs[0]] + pairs[1..];
      if '=' in pairs[0].0 {
        FirstKeyHasNoEquals(DotenvText(pairs));
      } else {
        DotenvLineReads(pairs[0].0, pairs[0].1, DotenvText(pairs[1..]));
        assert NoEquals(pairs) <==> NoEquals(pairs[1..]);
      }
    }
  }

  /** Keys are written as they are, so two different lists can give the same text once a key may
      contain `=` and a newline. Staging splits its argument at the first `=` and so never makes such
      a key; it can arrive in a tree that was made elsewhere. */
  lemma EqualsInKeyIsAmbiguous()
    ensures exists a: Pairs, b: Pairs :: a != b && DotenvText(a) == DotenvText(b)
  {
    var a := [("A", "1"), ("B", "2")];
    var b := [("A=1\nB", "2")];
    assert a[1..] == [("B", "2")] && [("B", "2")][1..] == [] && b[1..] == [];
    assert !NeedsQuotes("1") && !NeedsQuotes("2");
    assert DotenvText([("B", "2")]) == "B=2\n";
    assert DotenvText(a) == "A=1\nB=2\n";
    assert DotenvText(b) == "A=1\nB=2\n";
    assert |a| != |b|;
  }
}
