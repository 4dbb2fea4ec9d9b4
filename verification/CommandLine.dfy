// Typing a connector's command: the tokenizer behind "Paste a command" and the
// printer behind "Will run: ...".
module CommandLine {
  import opened Wrappers
  import Texts

  /** The white space of JavaScript's `\s` and `trim`. */
  predicate IsSpace(c: char) {
    || c in "\t\n\r "
    || c in "\U{0B}\U{0C}\U{A0}\U{1680}\U{2028}\U{2029}\U{202F}\U{205F}\U{3000}\U{FEFF}"
    || '\U{2000}' <= c <= '\U{200A}'
  }

  /** By code point. */
  lemma SpaceIs(c: char)
    ensures IsSpace(c) <==>
              || 9 <= c as int <= 13
              || c as int in {0x20, 0xA0, 0x1680, 0x2028, 0x2029, 0x202F, 0x205F, 0x3000, 0xFEFF}
              || 0x2000 <= c as int <= 0x200A
  {
  }

  // -------------------------------------------------------------------------
  // The tokenizer
  // -------------------------------------------------------------------------

  /** `started`: there is a word, though it may be empty; `quoted`: inside quotes. */
  datatype Lexer = Lexer(args: seq<string>, cur: string, started: bool, quoted: bool)

  const START := Lexer([], "", false, false)

  function Next(l: Lexer, c: char): Lexer {
    if l.quoted then
      if c == '"' then l.(quoted := false) else l.(cur := l.cur + [c])
    else if c == '"' then l.(quoted := true, started := true)
    else if IsSpace(c) then Lexer(if l.started then l.args + [l.cur] else l.args, "", false, false)
    else l.(cur := l.cur + [c], started := true)
  }

  function Scan(l: Lexer, input: string): Lexer {
    if input == "" then l else Next(Scan(l, input[..|input| - 1]), input[|input| - 1])
  }

  datatype Problem = OpenQuote | NoCommand

  function Words(input: string): Result<seq<string>, Problem> {
    var l := Scan(START, input);
    if l.quoted then Err(OpenQuote) else Ok(if l.started then l.args + [l.cur] else l.args)
  }

  method SplitArgs(input: string) returns (r: Result<seq<string>, Problem>)
    ensures r == Words(input)
  {
    var args: seq<string>, cur, started, quoted := [], "", false, false;
    for i := 0 to |input|
      invariant Lexer(args, cur, started, quoted) == Scan(START, input[..i])
    {
      var c := input[i];
      assert input[..i + 1][..i] == input[..i];
      if quoted {
        if c == '"' {
          quoted := false;
        } else {
          cur := cur + [c];
        }
      } else if c == '"' {
        quoted, started := true, true;
      } else if IsSpace(c) {
        if started {
          args := args + [cur];
        }
        cur, started := "", false;
      } else {
        cur, started := cur + [c], true;
      }
    }
    assert input[..|input|] == input;
    if quoted {
      return Err(OpenQuote);
    }
    if started {
      args := args + [cur];
    }
    return Ok(args);
  }

  function Quotes(s: string): nat {
    if s == "" then 0 else Quotes(s[..|s| - 1]) + (if s[|s| - 1] == '"' then 1 else 0)
  }

  lemma {:induction false} QuotedIsOdd(input: string)
    ensures Scan(START, input).quoted <==> Quotes(input) % 2 == 1
  {
    if input != "" {
      QuotedIsOdd(input[..|input| - 1]);
    }
  }

  /** Tokenizing fails exactly on an odd number of quotes. */
  lemma {:induction false} FailsOnOddQuotes(input: string)
    ensures Words(input).Err? <==> Quotes(input) % 2 == 1
  {
    QuotedIsOdd(input);
  }

  /** What the words are made of: everything but the quotes and the white space
      outside them, that is, after an even number of quotes. */
  function Kept(input: string): string {
    if input == "" then ""
    else
      var front, c := input[..|input| - 1], input[|input| - 1];
      Kept(front) + (if c != '"' && (Quotes(front) % 2 == 1 || !IsSpace(c)) then [c] else "")
  }

  function Flat(words: seq<string>): string {
    if words == [] then "" else Flat(words[..|words| - 1]) + words[|words| - 1]
  }

  lemma FlatAppend(words: seq<string>, word: string)
    ensures Flat(words + [word]) == Flat(words) + word
  {
    assert (words + [word])[..|words|] == words;
  }

  lemma {:induction false} ScanKeeps(input: string)
    ensures Flat(Scan(START, input).args) + Scan(START, input).cur == Kept(input)
    ensures !Scan(START, input).started ==> Scan(START, input).cur == ""
  {
    if input != "" {
      var front := input[..|input| - 1];
      ScanKeeps(front);
      QuotedIsOdd(front);
      var l := Scan(START, front);
      FlatAppend(l.args, l.cur);
    }
  }

  /** Tokenizing loses no character, adds none, and keeps their order. */
  lemma NothingIsLost(input: string)
    ensures Words(input).Ok? ==> Flat(Words(input).value) == Kept(input)
  {
    ScanKeeps(input);
    FlatAppend(Scan(START, input).args, Scan(START, input).cur);
  }

  ghost predicate NoQuotes(args: seq<string>) {
    forall i | 0 <= i < |args| :: '"' !in args[i]
  }

  lemma {:induction false} ScanDropsQuotes(input: string)
    ensures NoQuotes(Scan(START, input).args) && '"' !in Scan(START, input).cur
  {
    if input != "" {
      ScanDropsQuotes(input[..|input| - 1]);
    }
  }

  lemma WordsHaveNoQuotes(input: string)
    ensures Words(input).Ok? ==> NoQuotes(Words(input).value)
  {
    ScanDropsQuotes(input);
  }

  lemma {:induction false} ScanAppend(l: Lexer, a: string, b: string)
    ensures Scan(l, a + b) == Scan(Scan(l, a), b)
    decreases |b|
  {
    if b == "" {
      assert a + b == a;
    } else {
      var n := |b| - 1;
      ScanAppend(l, a, b[..n]);
      var ab := a + b;
      assert ab[..|ab| - 1] == a + b[..n] && ab[|ab| - 1] == b[n];
      assert Scan(l, ab) == Next(Scan(l, a + b[..n]), b[n]);
    }
  }

  /** Between words any white space counts as one space does: outside quotes more
      of it changes nothing, nor does any before the first word or after the last. */
  lemma SpacesCollapse(before: string, c: char, d: char, after: string)
    requires IsSpace(c) && IsSpace(d) && Quotes(before) % 2 == 0
    ensures Words(before + [c] + [d] + after) == Words(before + [c] + after) == Words(before + [d] + after)
    ensures Words([c] + after) == Words(after) && Words(before + [c]) == Words(before)
  {
    QuotedIsOdd(before);
    ScanSpace(before, c);
    ScanSpace(before, d);
    ScanSpace(before + [c], d);
    ScanAppend(START, before + [c] + [d], after);
    ScanAppend(START, before + [c], after);
    ScanAppend(START, before + [d], after);
    ScanOne(START, c);
    ScanAppend(START, [c], after);
  }

  /** A space outside quotes ends the word, if there is one. */
  lemma ScanSpace(before: string, c: char)
    requires IsSpace(c) && !Scan(START, before).quoted
    ensures var l := Scan(START, before);
            Scan(START, before + [c]) == Lexer(if l.started then l.args + [l.cur] else l.args, "", false, false)
  {
    ScanOne(Scan(START, before), c);
    ScanAppend(START, before, [c]);
  }

  lemma ScanOne(l: Lexer, c: char)
    ensures Scan(l, [c]) == Next(l, c)
  {
    assert [c][..0] == "";
  }

  // -------------------------------------------------------------------------
  // The printer
  // -------------------------------------------------------------------------

  function Escaped(a: string): string {
    if a == "" then ""
    else Escaped(a[..|a| - 1]) + (if a[|a| - 1] == '"' then "\\\"" else [a[|a| - 1]])
  }

  /** Printing a double quote puts a backslash before it, and changes nothing else. */
  lemma EscapedOne(c: char)
    ensures Escaped([c]) == if c == '"' then ['\\', '"'] else [c]
  {
    assert [c][..0] == "";
  }

  lemma {:induction false} EscapedAppend(a: string, b: string)
    ensures Escaped(a + b) == Escaped(a) + Escaped(b)
    decreases |b|
  {
    if b == "" {
      assert a + b == a;
    } else {
      EscapedAppend(a, b[..|b| - 1]);
      assert (a + b)[..|a + b| - 1] == a + b[..|b| - 1];
    }
  }

  /** An argument is printed in quotes if it is empty or has white space or a
      quote in it. */
  lemma QuotedExactlyWhen(a: string)
    ensures QuoteArg(a) == if a != "" && forall i | 0 <= i < |a| :: !IsSpace(a[i]) && a[i] != '"' then a
                           else "\"" + Escaped(a) + "\""
  {
  }

  predicate NeedsQuotes(a: string) {
    a == "" || exists i :: 0 <= i < |a| && (IsSpace(a[i]) || a[i] == '"')
  }

  /** An argument in the spelling the preview prints. */
  function QuoteArg(a: string): string {
    if NeedsQuotes(a) then "\"" + Escaped(a) + "\"" else a
  }

  function Join(words: seq<string>): string {
    if words == [] then ""
    else if |words| == 1 then words[0]
    else Join(words[..|words| - 1]) + " " + words[|words| - 1]
  }

  function Quoted(args: seq<string>): (r: seq<string>)
    ensures |r| == |args| && forall i | 0 <= i < |r| :: r[i] == QuoteArg(args[i])
  {
    seq(|args|, i requires 0 <= i < |args| => QuoteArg(args[i]))
  }

  lemma {:induction false} NothingToEscape(a: string)
    requires '"' !in a
    ensures Escaped(a) == a
  {
    if a != "" {
      NothingToEscape(a[..|a| - 1]);
    }
  }

  lemma {:induction false} ScanPlain(l: Lexer, a: string)
    requires !l.quoted && forall i | 0 <= i < |a| :: a[i] != '"' && !IsSpace(a[i])
    ensures Scan(l, a) == if a == "" then l else l.(cur := l.cur + a, started := true)
  {
    if a != "" {
      ScanPlain(l, a[..|a| - 1]);
    }
  }

  lemma {:induction false} ScanInside(l: Lexer, a: string)
    requires l.quoted && '"' !in a
    ensures Scan(l, a) == l.(cur := l.cur + a)
  {
    if a != "" {
      ScanInside(l, a[..|a| - 1]);
      assert l.cur + a[..|a| - 1] + [a[|a| - 1]] == l.cur + a;
    }
  }

  /** One printed argument is read back as that word. */
  lemma ScanQuoted(l: Lexer, a: string)
    requires '"' !in a && l.cur == "" && !l.started && !l.quoted
    ensures Scan(l, QuoteArg(a)) == Lexer(l.args, a, true, false)
  {
    if NeedsQuotes(a) {
      NothingToEscape(a);
      var inQuotes := l.(quoted := true, started := true);
      assert Scan(l, "\"") == inQuotes by {
        assert "\""[..0] == "";
      }
      ScanAppend(l, "\"", a);
      ScanInside(inQuotes, a);
      ScanAppend(l, "\"" + a, "\"");
      var inside := Scan(l, "\"" + a);
      assert Scan(inside, "\"") == Next(inside, '"') by {
        assert "\""[..0] == "";
      }
      assert QuoteArg(a) == ("\"" + a) + "\"";
    } else {
      ScanPlain(l, a);
    }
  }

  /** Having read `line`, the lexer is at the end of the last of these words. */
  predicate Reads(line: string, words: seq<string>) {
    var l := Scan(START, line);
    l.started && !l.quoted && l.args + [l.cur] == words
  }

  lemma ReadsOneMore(line: string, words: seq<string>, a: string)
    requires Reads(line, words) && '"' !in a
    ensures Reads(line + " " + QuoteArg(a), words + [a])
  {
    var l := Scan(START, line);
    ScanAppend(START, line, " ");
    assert Scan(l, " ") == Next(l, ' ') by {
      assert " "[..0] == "";
    }
    ScanAppend(START, line + " ", QuoteArg(a));
    ScanQuoted(Next(l, ' '), a);
  }

  lemma JoinQuoted(args: seq<string>, a: string)
    requires args != []
    ensures Join(Quoted(args + [a])) == Join(Quoted(args)) + " " + QuoteArg(a)
  {
    assert Quoted(args + [a]) == Quoted(args) + [QuoteArg(a)];
  }

  /** The printed command reads back as its words. */
  predicate ReadsBack(args: seq<string>) {
    Reads(Join(Quoted(args)), args)
  }

  lemma OneReadsBack(a: string)
    requires '"' !in a
    ensures ReadsBack([a])
  {
    assert Join(Quoted([a])) == QuoteArg(a);
    ScanQuoted(START, a);
  }

  lemma OneMoreReadsBack(args: seq<string>, a: string)
    requires args != [] && ReadsBack(args) && '"' !in a
    ensures ReadsBack(args + [a])
  {
    ReadsOneMore(Join(Quoted(args)), args, a);
    JoinQuoted(args, a);
  }

  lemma {:induction false} CommandReadsBack(args: seq<string>)
    requires NoQuotes(args) && args != []
    ensures ReadsBack(args)
    decreases |args|
  {
    var before, last := args[..|args| - 1], args[|args| - 1];
    assert before + [last] == args;
    if before == [] {
      assert args == [last];
      OneReadsBack(last);
    } else {
      CommandReadsBack(before);
      OneMoreReadsBack(before, last);
    }
  }

  /** Printing then tokenizing gives the arguments back, the empty ones and
      those with white space included, if and only if none has a double quote. */
  lemma RoundTrip(args: seq<string>)
    ensures Words(Join(Quoted(args))) == Ok(args) <==> NoQuotes(args)
  {
    WordsHaveNoQuotes(Join(Quoted(args)));
    if NoQuotes(args) && args != [] {
      CommandReadsBack(args);
    }
  }

  // -------------------------------------------------------------------------
  // Pasting a command
  // -------------------------------------------------------------------------

  function Trim(s: string): string {
    Texts.Trim(IsSpace, s)
  }

  predicate IsLetter(c: char) {
    'A' <= c <= 'Z' || 'a' <= c <= 'z' || c == '_'
  }

  function NameLength(word: string): (n: nat)
    ensures n <= |word|
  {
    if word != "" && (IsLetter(word[0]) || '0' <= word[0] <= '9') then 1 + NameLength(word[1..]) else 0
  }

  /** NAME=value */
  predicate IsSetting(word: string) {
    word != "" && IsLetter(word[0]) && NameLength(word) < |word| && word[NameLength(word)] == '='
  }

  type Setting = (string, string)

  function SettingOf(word: string): Setting
    requires IsSetting(word)
  {
    (word[..NameLength(word)], word[NameLength(word) + 1..])
  }

  /** A letter, an underscore or a digit, by code point. */
  predicate InName(c: char) {
    48 <= c as int <= 57 || 65 <= c as int <= 90 || c as int == 95 || 97 <= c as int <= 122
  }

  /** `word` is a name of `k` characters, none of them a digit at the start, an
      equals sign, and any text. */
  ghost predicate SettingAt(word: string, k: int) {
    && 0 < k < |word| && word[k] as int == 61 && !(48 <= word[0] as int <= 57)
    && forall i | 0 <= i < k :: InName(word[i])
  }

  lemma {:induction false} NameLengthIs(word: string, k: nat)
    requires k < |word| && !InName(word[k]) && forall i | 0 <= i < k :: InName(word[i])
    ensures NameLength(word) == k
  {
    if k > 0 {
      NameLengthIs(word[1..], k - 1);
    }
  }

  lemma {:induction false} NameIsInName(word: string)
    ensures forall i | 0 <= i < NameLength(word) :: InName(word[i])
  {
    if NameLength(word) > 0 {
      NameIsInName(word[1..]);
      assert forall i | 0 < i < NameLength(word) :: word[i] == word[1..][i - 1];
    }
  }

  /** A setting is exactly that, and is read as the name and the text. */
  lemma IsSettingExactly(word: string)
    ensures IsSetting(word) <==> exists k :: SettingAt(word, k)
    ensures forall k | SettingAt(word, k) :: IsSetting(word) && SettingOf(word) == (word[..k], word[k + 1..])
  {
    NameIsInName(word);
    if IsSetting(word) {
      assert NameLength(word) > 0;
      assert SettingAt(word, NameLength(word));
    }
    forall k | SettingAt(word, k)
      ensures NameLength(word) == k
    {
      NameLengthIs(word, k);
    }
  }

  lemma {:induction false} NameHasNoEquals(word: string)
    ensures '=' !in word[..NameLength(word)]
  {
    if NameLength(word) > 0 {
      NameHasNoEquals(word[1..]);
      assert word[..NameLength(word)] == [word[0]] + word[1..][..NameLength(word[1..])];
    }
  }

  /** A setting is split at its first equals sign. */
  lemma SettingSplits(word: string)
    requires IsSetting(word)
    ensures word == SettingOf(word).0 + "=" + SettingOf(word).1 && '=' !in SettingOf(word).0
  {
    NameHasNoEquals(word);
  }

  datatype Program = Npx | Uvx | File

  predicate IsSeparator(c: char) {
    c == '/' || c == '\\'
  }

  /** What follows the last separator. */
  function BaseName(path: string): (r: string)
    ensures |r| <= |path| && r == path[|path| - |r|..]
    ensures forall i | 0 <= i < |r| :: !IsSeparator(r[i])
    ensures |r| < |path| ==> IsSeparator(path[|path| - |r| - 1])
  {
    if path == "" || IsSeparator(path[|path| - 1]) then ""
    else BaseName(path[..|path| - 1]) + [path[|path| - 1]]
  }

  /** It has no slash or backslash, and comes right after one, if there is any. */
  lemma BaseNameIs(path: string)
    ensures var name := BaseName(path);
            && '/' !in name && '\\' !in name && |name| <= |path| && path == path[..|path| - |name|] + name
            && (name == path || path[|path| - |name| - 1] in {'/', '\\'})
  {
    var name := BaseName(path);
    assert forall i | 0 <= i < |name| :: !IsSeparator(name[i]);
  }

  /** Of the letters in the names it is compared with, only ASCII ones are
      lower-cased to them. */
  function Lower(s: string): string {
    Texts.Lower(s)
  }

  function WithoutSuffix(s: string): string {
    if |s| >= 4 && s[|s| - 4..] in [".cmd", ".exe"] then s[..|s| - 4] else s
  }

  function ProgramOf(path: string): Program {
    var name := WithoutSuffix(Lower(BaseName(path)));
    if name == "npx" then Npx else if name == "uvx" then Uvx else File
  }

  lemma WithoutSuffixIs(name: string, w: string)
    requires |w| == 3
    ensures WithoutSuffix(name) == w <==> Names(name, w)
  {
    if |name| >= 4 {
      assert name == name[..|name| - 4] + name[|name| - 4..];
    }
    if name == w + ".cmd" || name == w + ".exe" {
      assert name[..3] == w;
    }
  }

  /** The name of a program, in lower case, with or without a Windows suffix. */
  predicate Names(name: string, w: string) {
    name == w || name == w + ".cmd" || name == w + ".exe"
  }

  /** A path runs npx (or uvx) exactly when its base name is that, in any case,
      with or without a Windows suffix. */
  lemma ProgramIsItsBaseName(path: string)
    ensures ProgramOf(path) == Npx <==> Names(Lower(BaseName(path)), "npx")
    ensures ProgramOf(path) == Uvx <==> Names(Lower(BaseName(path)), "uvx")
  {
    var name := Lower(BaseName(path));
    WithoutSuffixIs(name, "npx");
    WithoutSuffixIs(name, "uvx");
    assert "npx" != "uvx" by {
      assert "npx"[0] != "uvx"[0];
    }
  }

  datatype Parsed = Parsed(program: Program, file: string, args: seq<string>, env: seq<Setting>)

  /** The first words are these settings. */
  ghost predicate StartsWith(words: seq<string>, env: seq<Setting>) {
    |env| <= |words| && forall i | 0 <= i < |env| :: IsSetting(words[i]) && env[i] == SettingOf(words[i])
  }

  /** The settings a command starts with, all of them. */
  function LeadingSettings(words: seq<string>): (env: seq<Setting>)
    ensures StartsWith(words, env)
    ensures |env| < |words| ==> !IsSetting(words[|env|])
  {
    if words != [] && IsSetting(words[0]) then [SettingOf(words[0])] + LeadingSettings(words[1..]) else []
  }

  lemma {:induction false} LeadingSettingsAre(words: seq<string>, env: seq<Setting>)
    requires StartsWith(words, env)
    requires |env| < |words| ==> !IsSetting(words[|env|])
    ensures env == LeadingSettings(words)
  {
    assert |env| == |LeadingSettings(words)|;
  }

  lemma StartsWithOneMore(words: seq<string>, env: seq<Setting>)
    requires StartsWith(words, env) && |env| < |words| && IsSetting(words[|env|])
    ensures StartsWith(words, env + [SettingOf(words[|env|])])
  {
  }

  /** What follows the settings: the program, then its arguments. */
  function AfterSettings(words: seq<string>, env: seq<Setting>): Result<Parsed, Problem>
    requires |env| <= |words|
  {
    if |env| == |words| then Err(NoCommand)
    else
      var program := ProgramOf(words[|env|]);
      Ok(Parsed(program, if program.File? then words[|env|] else "", words[|env| + 1..], env))
  }

  function Understood(words: seq<string>): Result<Parsed, Problem> {
    AfterSettings(words, LeadingSettings(words))
  }

  function Pasted(text: string): Result<Parsed, Problem> {
    match Words(Trim(text))
    case Err(e) => Err(e)
    case Ok(words) => Understood(words)
  }

  method ParseCommand(text: string) returns (r: Result<Parsed, Problem>)
    ensures r == Pasted(text)
  {
    var split := SplitArgs(Trim(text));
    match split {
      case Err(e) => return Err(e);
      case Ok(tokens) => r := Understand(tokens);
    }
  }

  method Understand(tokens: seq<string>) returns (r: Result<Parsed, Problem>)
    ensures r == Understood(tokens)
  {
    var env := TakeSettings(tokens);
    r := ReadProgram(tokens, env);
  }

  method ReadProgram(tokens: seq<string>, env: seq<Setting>) returns (r: Result<Parsed, Problem>)
    requires |env| <= |tokens|
    ensures r == AfterSettings(tokens, env)
  {
    var i := |env|;
    if i >= |tokens| {
      return Err(NoCommand);
    }
    var program := ProgramOf(tokens[i]);
    r := Ok(Parsed(program, if program.File? then tokens[i] else "", tokens[i + 1..], env));
  }

  method TakeSettings(tokens: seq<string>) returns (env: seq<Setting>)
    ensures env == LeadingSettings(tokens)
  {
    env := [];
    var i := 0;
    while i < |tokens| && IsSetting(tokens[i])
      invariant i == |env| <= |tokens|
      invariant StartsWith(tokens, env)
    {
      StartsWithOneMore(tokens, env);
      env := env + [SettingOf(tokens[i])];
      i := i + 1;
    }
    LeadingSettingsAre(tokens, env);
  }

  // -------------------------------------------------------------------------
  // The form's preview, pasted back
  // -------------------------------------------------------------------------

  /** The form to add a local connector, as far as its command goes. */
  datatype Draft = Draft(program: Option<Program>, file: string, args: seq<string>)

  function ProgramCommand(d: Draft): string {
    match d.program
    case None => ""
    case Some(Npx) => "npx"
    case Some(Uvx) => "uvx"
    case Some(File) => Trim(d.file)
  }

  function Filled(args: seq<string>): seq<string> {
    if args == [] then []
    else Filled(args[..|args| - 1]) + (if args[|args| - 1] == "" then [] else [args[|args| - 1]])
  }

  /** "Will run: ..." */
  function Preview(d: Draft): string {
    var command := ProgramCommand(d);
    Join([if command == "" then ELLIPSIS else QuoteArg(command)] + Quoted(Filled(d.args)))
  }

  /** The arguments printed are all but the empty ones, in order. */
  lemma {:induction false} FilledSkipsEmpty(args: seq<string>, more: seq<string>)
    ensures (forall i | 0 <= i < |args| :: args[i] != "") ==> Filled(args) == args
    ensures Filled(args + [""] + more) == Filled(args) + Filled(more)
    decreases |args| + |more|
  {
    if more != [] {
      var n := |more| - 1;
      FilledSkipsEmpty(args, more[..n]);
      assert (args + [""] + more)[..|args| + 1 + n] == args + [""] + more[..n];
    } else {
      assert args + [""] + more == args + [""];
      assert (args + [""])[..|args|] == args;
      if args != [] {
        FilledSkipsEmpty(args[..|args| - 1], []);
      }
    }
  }

  /** The program is printed by its own name, a file by its path without the
      white space around it. */
  lemma CommandIs(d: Draft)
    ensures ProgramCommand(d) == match d.program
                                 case None => ""
                                 case Some(Npx) => "npx"
                                 case Some(Uvx) => "uvx"
                                 case Some(File) => Texts.Trim(IsSpace, d.file)
  {
  }

  /** What the preview says when tokenized: the program (an ellipsis if there is
      none), then the arguments that aren't empty. */
  lemma PreviewSays(d: Draft)
    ensures var command := if ProgramCommand(d) == "" then "\U{2026}" else ProgramCommand(d);
            Words(Preview(d)) == Ok([command] + Filled(d.args)) <==> NoQuotes([command] + Filled(d.args))
  {
    PreviewIsPrinted(d);
    RoundTrip([if ProgramCommand(d) == "" then ELLIPSIS else ProgramCommand(d)] + Filled(d.args));
  }

  predicate Solid(s: string) {
    s != "" && !IsSpace(s[0]) && !IsSpace(s[|s| - 1])
  }

  lemma {:induction false} JoinIsSolid(words: seq<string>)
    requires words != [] && forall i | 0 <= i < |words| :: Solid(words[i])
    ensures Solid(Join(words))
    decreases |words|
  {
    if |words| > 1 {
      JoinIsSolid(words[..|words| - 1]);
    }
  }

  lemma QuotedIsSolid(a: string)
    ensures Solid(QuoteArg(a))
  {
    if !NeedsQuotes(a) {
      assert !IsSpace(a[0]) && !IsSpace(a[|a| - 1]);
    }
  }

  /** What reads back from a printed command of several words. */
  lemma PastedCommand(words: seq<string>)
    requires words != []
    ensures NoQuotes(words) ==> Pasted(Join(Quoted(words))) == Understood(words)
  {
    var line := Join(Quoted(words));
    forall i | 0 <= i < |words|
      ensures Solid(Quoted(words)[i])
    {
      QuotedIsSolid(words[i]);
    }
    JoinIsSolid(Quoted(words));
    assert Trim(line) == line;
    RoundTrip(words);
  }

  /** What is read has no quotes, whatever was pasted. */
  lemma PastedHasNoQuotes(text: string)
    ensures Pasted(text).Ok? ==> NoQuotes(Pasted(text).value.args) && '"' !in Pasted(text).value.file
  {
    var line := Trim(text);
    WordsHaveNoQuotes(line);
    if Words(line).Ok? {
      UnderstoodHasNoQuotes(Words(line).value);
    }
  }

  lemma UnderstoodHasNoQuotes(words: seq<string>)
    requires NoQuotes(words)
    ensures Understood(words).Ok? ==> NoQuotes(Understood(words).value.args) && '"' !in Understood(words).value.file
  {
  }

  lemma UnderstoodAs(command: string, args: seq<string>)
    ensures var program := ProgramOf(command);
            Understood([command] + args) == Ok(Parsed(program, if program.File? then command else "", args, []))
            <==> !IsSetting(command)
    ensures Understood([command] + args).Ok? && Understood([command] + args).value.env == [] ==> !IsSetting(command)
  {
    var words := [command] + args;
    assert words[0] == command && words[1..] == args;
    assert LeadingSettings(words) == [] <==> !IsSetting(command);
  }

  lemma NoQuotesAmong(command: string, args: seq<string>)
    ensures NoQuotes([command] + args) <==> '"' !in command && NoQuotes(args)
  {
    var words := [command] + args;
    assert words[0] == command;
    assert forall i | 0 <= i < |args| :: args[i] == words[i + 1];
    assert forall i | 0 < i < |words| :: words[i] == args[i - 1];
  }

  lemma QuotedTogether(command: string, args: seq<string>)
    ensures Quoted([command] + args) == [QuoteArg(command)] + Quoted(args)
  {
  }

  /** A program as the form holds it: a file's path, or "" for a known program. */
  function FileOf(program: Program, command: string): string {
    if program.File? then command else ""
  }

  lemma PrintedPastesBack(command: string, args: seq<string>, program: Program)
    requires program.File? || '"' !in command
    ensures Pasted(Join(Quoted([command] + args))) == Ok(Parsed(program, FileOf(program, command), args, []))
            <==> !IsSetting(command) && ProgramOf(command) == program && NoQuotes([command] + args)
  {
    PastedHasNoQuotes(Join(Quoted([command] + args)));
    NoQuotesAmong(command, args);
    if NoQuotes([command] + args) {
      PastedCommand([command] + args);
      UnderstoodAs(command, args);
    }
  }

  /** The preview shows an ellipsis for a program that isn't chosen yet. */
  const ELLIPSIS: string := "\U{2026}"

  lemma PreviewIsPrinted(d: Draft)
    ensures var command := if ProgramCommand(d) == "" then ELLIPSIS else ProgramCommand(d);
            Preview(d) == Join(Quoted([command] + Filled(d.args)))
  {
    assert QuoteArg(ELLIPSIS) == ELLIPSIS;
    QuotedTogether(if ProgramCommand(d) == "" then ELLIPSIS else ProgramCommand(d), Filled(d.args));
  }

  /** Pasting the preview gives the form back: its program and file, and its
      arguments but for blank ones. */
  predicate GivesBack(d: Draft) {
    && d.program.Some?
    && Pasted(Preview(d))
       == Ok(Parsed(d.program.value, FileOf(d.program.value, ProgramCommand(d)), Filled(d.args), []))
  }

  /** It does if and only if the program is chosen and named, isn't a NAME=
      word, isn't another program's name, and neither it nor an argument has a
      double quote. */
  lemma PreviewPastesBack(d: Draft)
    ensures GivesBack(d) <==>
            && d.program.Some? && ProgramCommand(d) != "" && !IsSetting(ProgramCommand(d))
            && ProgramOf(ProgramCommand(d)) == d.program.value && NoQuotes([ProgramCommand(d)] + Filled(d.args))
  {
    if d.program.Some? {
      if ProgramCommand(d) == "" {
        UnnamedIsAnEllipsis(d);
      } else {
        NamedPastesBack(d);
      }
    }
  }

  lemma NamedPastesBack(d: Draft)
    requires d.program.Some? && ProgramCommand(d) != ""
    ensures GivesBack(d) <==>
            && !IsSetting(ProgramCommand(d)) && ProgramOf(ProgramCommand(d)) == d.program.value
            && NoQuotes([ProgramCommand(d)] + Filled(d.args))
  {
    PreviewIsPrinted(d);
    KnownHasNoQuote(d);
    PrintedPastesBack(ProgramCommand(d), Filled(d.args), d.program.value);
  }

  lemma KnownHasNoQuote(d: Draft)
    requires d.program.Some?
    ensures d.program.value.File? || '"' !in ProgramCommand(d)
  {
  }

  lemma UnnamedIsAnEllipsis(d: Draft)
    requires d.program.Some? && ProgramCommand(d) == ""
    ensures !GivesBack(d)
  {
    PreviewIsPrinted(d);
    EllipsisIsAFile(Filled(d.args));
  }

  lemma EllipsisIsAFile(args: seq<string>)
    ensures Pasted(Join(Quoted([ELLIPSIS] + args))) != Ok(Parsed(File, "", args, []))
  {
    PastedHasNoQuotes(Join(Quoted([ELLIPSIS] + args)));
    NoQuotesAmong(ELLIPSIS, args);
    if NoQuotes([ELLIPSIS] + args) {
      PastedCommand([ELLIPSIS] + args);
      assert !IsSetting(ELLIPSIS);
      UnderstoodAs(ELLIPSIS, args);
    }
  }
}
