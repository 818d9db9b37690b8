/**
 * The CLI adapters: quoting a value for a POSIX shell, reading an agent's
 * state off the text of its tmux pane, and the launch commands of the two
 * agent programs.
 *
 * `Tokenize` is a small, conservative POSIX shell lexer (blanks, `&&`,
 * single quotes, backslash outside quotes; any other special character is
 * refused). It is the reference against which quoting and the launch
 * commands are proved: whatever the working directory or model name contains,
 * the shell hands it to the program as one intact argument.
 */
module Adapters {
  import opened Kernel
  import opened Text

  /** `AgentStatus`. */
  datatype AgentStatus = Idle | Active | Error | Stopped

  // ---------------------------------------------------------------------
  // Shell quoting

  /** The inside of the quotes: every `'` becomes `'\''` (close, escaped quote, reopen). */
  function EscapeQuotes(v: string): (r: string)
    ensures |r| >= |v|
  {
    if v == [] then []
    else (if v[0] == '\'' then "'\\''" else [v[0]]) + EscapeQuotes(v[1..])
  }

  /** `shellEscape`: the value inside single quotes, embedded quotes escaped. */
  function ShellEscape(v: string): string {
    "'" + EscapeQuotes(v) + "'"
  }

  /** Characters that end, split or expand an unquoted word in a POSIX shell. */
  predicate IsShellMeta(c: char) {
    c == ' ' || c == '\t' || c == '\n' || c == '|' || c == '&' || c == ';' || c == '('
    || c == ')' || c == '<' || c == '>' || c == '$' || c == '`' || c == '"' || c == '\''
    || c == '\\' || c == '*' || c == '?' || c == '[' || c == '#' || c == '~'
  }

  /** A word read off the front of the input, and what follows it. */
  datatype Lexed = Lexed(word: string, rest: string)

  function Cons(c: char, o: Option<Lexed>): Option<Lexed> {
    if o.None? then None else Some(Lexed([c] + o.value.word, o.value.rest))
  }

  function PrependWord(v: string, o: Option<Lexed>): Option<Lexed> {
    if o.None? then None else Some(Lexed(v + o.value.word, o.value.rest))
  }

  /** Reading a word outside quotes, up to an unquoted blank or the end of the input. */
  function LexUnquoted(s: string): (r: Option<Lexed>)
    decreases |s|
    ensures r.Some? ==> |r.value.rest| <= |s|
    ensures r.Some? && s != [] && s[0] != ' ' ==> |r.value.rest| < |s|
  {
    if s == [] || s[0] == ' ' then Some(Lexed([], s))
    else if s[0] == '\'' then LexQuoted(s[1..])
    else if s[0] == '\\' then (if |s| < 2 then None else Cons(s[1], LexUnquoted(s[2..])))
    else if IsShellMeta(s[0]) then None
    else Cons(s[0], LexUnquoted(s[1..]))
  }

  /** Reading inside single quotes: every character is literal up to the closing quote. */
  function LexQuoted(s: string): (r: Option<Lexed>)
    decreases |s|
    ensures r.Some? ==> |r.value.rest| < |s|
  {
    if s == [] then None
    else if s[0] == '\'' then LexUnquoted(s[1..])
    else Cons(s[0], LexQuoted(s[1..]))
  }

  /** What the shell sees in a command line: argument words and the `&&` operator. */
  datatype Token = Word(text: string) | AndIf

  function Prepend(t: Token, o: Option<seq<Token>>): Option<seq<Token>> {
    if o.None? then None else Some([t] + o.value)
  }

  /** Splitting a command line into tokens; `None` for anything outside the small grammar. */
  function Tokenize(s: string): Option<seq<Token>>
    decreases |s|
  {
    if s == [] then Some([])
    else if s[0] == ' ' then Tokenize(s[1..])
    else if |s| >= 2 && s[0] == '&' && s[1] == '&' then Prepend(AndIf, Tokenize(s[2..]))
    else
      var w := LexUnquoted(s);
      if w.None? then None else Prepend(Word(w.value.word), Tokenize(w.value.rest))
  }

  lemma LexQuotedLiteral(c: char, s: string)
    requires c != '\''
    ensures LexQuoted([c] + s) == Cons(c, LexQuoted(s))
  {
    assert ([c] + s)[1..] == s;
  }

  lemma LexQuotedClose(s: string)
    ensures LexQuoted("'" + s) == LexUnquoted(s)
  {
    assert ("'" + s)[1..] == s;
  }

  /** Outside quotes, the three characters `\''` read as a quote and reopen quoting. */
  lemma LexEscapedQuote(s: string)
    ensures LexUnquoted("\\''" + s) == Cons('\'', LexQuoted(s))
  {
    var s1 := "\\''" + s;
    assert s1[2..] == "'" + s;
    LexQuotedClose(s);
  }

  lemma EscapeQuotesHead(v: string)
    requires v != []
    ensures v[0] == '\'' ==> EscapeQuotes(v) + "'" == "'" + ("\\''" + EscapeQuotes(v[1..])) + "'"
  {
  }

  /** Inside quotes, an escaped value and the closing quote read back as the value. */
  lemma {:induction false} LexQuotedEscaped(v: string, q: string)
    requires q != [] && q[0] == '\''
    ensures LexQuoted(EscapeQuotes(v) + q) == PrependWord(v, LexUnquoted(q[1..]))
  {
    if v == [] {
      assert EscapeQuotes(v) + q == q;
      assert q == "'" + q[1..];
      LexQuotedClose(q[1..]);
      var o := LexUnquoted(q[1..]);
      if o.Some? {
        assert v + o.value.word == o.value.word;
      }
    } else {
      LexQuotedEscaped(v[1..], q);
      LexQuotedStep(v, q);
    }
  }

  /** One character of the value: a quote costs four characters of input, anything else one. */
  lemma LexQuotedStep(v: string, q: string)
    requires v != [] && q != [] && q[0] == '\''
    requires LexQuoted(EscapeQuotes(v[1..]) + q) == PrependWord(v[1..], LexUnquoted(q[1..]))
    ensures LexQuoted(EscapeQuotes(v) + q) == PrependWord(v, LexUnquoted(q[1..]))
  {
    var e := EscapeQuotes(v[1..]);
    var inner := LexQuoted(e + q);
    EscapeQuotesCons(v, q);
    if v[0] == '\'' {
      SplitEscapedQuote(e + q);
      LexQuotedClose("\\''" + (e + q));
      LexEscapedQuote(e + q);
    } else {
      LexQuotedLiteral(v[0], e + q);
    }
    var o := LexUnquoted(q[1..]);
    if o.Some? {
      ConsAppend(v, o.value.word);
    }
  }

  lemma EscapeQuotesCons(v: string, q: string)
    requires v != []
    ensures EscapeQuotes(v) + q == (if v[0] == '\'' then "'\\''" else [v[0]]) + (EscapeQuotes(v[1..]) + q)
  {
    Assoc(if v[0] == '\'' then "'\\''" else [v[0]], EscapeQuotes(v[1..]), q);
  }

  lemma SplitEscapedQuote(y: string)
    ensures "'\\''" + y == "'" + ("\\''" + y)
  {
  }

  lemma ConsAppend(v: string, w: string)
    requires v != []
    ensures [v[0]] + (v[1..] + w) == v + w
  {
    assert v == [v[0]] + v[1..];
  }

  /** A quoted value reads as exactly that value, whatever follows it. */
  lemma ShellEscapeLexes(v: string, t: string)
    ensures LexUnquoted(ShellEscape(v) + t) == PrependWord(v, LexUnquoted(t))
  {
    var s := ShellEscape(v) + t;
    var q := "'" + t;
    assert s[0] == '\'';
    assert s[1..] == EscapeQuotes(v) + q;
    assert q[1..] == t;
    LexQuotedEscaped(v, q);
  }

  /** A quoted value followed by a blank or the end is one token: the value. */
  lemma TokenizeEscaped(v: string, t: string)
    requires t == [] || t[0] == ' '
    ensures Tokenize(ShellEscape(v) + t) == Prepend(Word(v), Tokenize(t))
  {
    var s := ShellEscape(v) + t;
    assert s[0] == '\'';
    ShellEscapeLexes(v, t);
    assert v + [] == v;
  }

  /**
   * The promise of `shellEscape`, safe inclusion in a shell command: the
   * shell reads the quoted text as one word equal to the value.
   */
  lemma ShellEscapeRoundTrip(v: string)
    ensures Tokenize(ShellEscape(v)) == Some([Word(v)])
  {
    TokenizeEscaped(v, []);
    assert ShellEscape(v) + [] == ShellEscape(v);
    assert Tokenize([]) == Some([]);
    assert [Word(v)] + [] == [Word(v)];
  }

  /** A word of letters, digits, `_` and `-`, which the shell reads literally without quotes. */
  predicate PlainWord(w: string) {
    w != [] && forall k :: 0 <= k < |w| ==> IsWordChar(w[k]) || w[k] == '-'
  }

  lemma {:induction false} LexPlain(w: string, t: string)
    requires forall k :: 0 <= k < |w| ==> IsWordChar(w[k]) || w[k] == '-'
    requires t == [] || t[0] == ' '
    ensures LexUnquoted(w + t) == Some(Lexed(w, t))
  {
    if w == [] {
      assert w + t == t;
    } else {
      assert (w + t)[0] == w[0];
      assert (w + t)[1..] == w[1..] + t;
      LexPlain(w[1..], t);
      assert [w[0]] + w[1..] == w;
    }
  }

  lemma TokenizePlain(w: string, t: string)
    requires PlainWord(w)
    requires t == [] || t[0] == ' '
    ensures Tokenize(w + t) == Prepend(Word(w), Tokenize(t))
  {
    LexPlain(w, t);
    assert (w + t)[0] == w[0];
  }

  lemma TokenizeBlank(t: string)
    ensures Tokenize(" " + t) == Tokenize(t)
  {
    assert (" " + t)[1..] == t;
  }

  lemma TokenizeAndIf(t: string)
    ensures Tokenize("&&" + t) == Prepend(AndIf, Tokenize(t))
  {
    assert ("&&" + t)[2..] == t;
  }

  // ---------------------------------------------------------------------
  // Status detection

  /** The lines the detector looks at: at most the last five of the trimmed output. */
  function LastLines(out: string): string {
    var lines := Split(Trim(out), '\n');
    Join(if |lines| <= 5 then lines else lines[|lines| - 5..], "\n")
  }

  predicate IsPromptChar(c: char) {
    c == '$' || c == '%' || c == '#' || c == '>'
  }

  /** `$` in multiline mode: the end of the input or just before a line terminator. */
  predicate AtLineEnd(s: string, q: int)
    requires 0 <= q <= |s|
  {
    q == |s| || IsLineTerminator(s[q])
  }

  /** Whitespace from the head of `s` runs into a line terminator or the end of the input. */
  predicate BlanksToLineEnd(s: string) {
    s == [] || IsLineTerminator(s[0]) || (IsSpace(s[0]) && BlanksToLineEnd(s[1..]))
  }

  lemma AllSpaceCons(s: string, q: int)
    requires 0 < q <= |s|
    ensures AllSpace(s[..q]) <==> IsSpace(s[0]) && AllSpace(s[1..][..q - 1])
  {
    assert s[..q] == [s[0]] + s[1..][..q - 1];
  }

  /** `\s*$` in multiline mode, read at the head of `s`: whitespace, then a line end. */
  lemma {:induction false} BlanksToLineEndMeaning(s: string)
    ensures BlanksToLineEnd(s) <==> exists q :: 0 <= q <= |s| && AllSpace(s[..q]) && AtLineEnd(s, q)
  {
    if s == [] || IsLineTerminator(s[0]) {
      assert AllSpace(s[..0]) && AtLineEnd(s, 0);
    } else {
      BlanksToLineEndMeaning(s[1..]);
      if BlanksToLineEnd(s) {
        var q :| 0 <= q <= |s| - 1 && AllSpace(s[1..][..q]) && AtLineEnd(s[1..], q);
        AllSpaceCons(s, q + 1);
        assert AtLineEnd(s, q + 1);
      }
      if exists q :: 0 <= q <= |s| && AllSpace(s[..q]) && AtLineEnd(s, q) {
        var q :| 0 <= q <= |s| && AllSpace(s[..q]) && AtLineEnd(s, q);
        assert q > 0;
        AllSpaceCons(s, q);
        assert AtLineEnd(s[1..], q - 1);
      }
    }
  }

  /** The meaning of `/[$%#>]\s*$/m`: a prompt character followed by whitespace up to a line end. */
  predicate PromptAtLineEnd(s: string) {
    exists p :: 0 <= p < |s| && IsPromptChar(s[p]) && BlanksToLineEnd(s[p + 1..])
  }

  /** A left-to-right scan for the prompt pattern. */
  predicate ScanPrompt(s: string) {
    s != [] && ((IsPromptChar(s[0]) && BlanksToLineEnd(s[1..])) || ScanPrompt(s[1..]))
  }

  lemma {:induction false} ScanPromptIff(s: string)
    ensures ScanPrompt(s) <==> PromptAtLineEnd(s)
  {
    if s != [] {
      ScanPromptIff(s[1..]);
      if ScanPrompt(s[1..]) {
        var p :| 0 <= p < |s| - 1 && IsPromptChar(s[1..][p]) && BlanksToLineEnd(s[1..][p + 1..]);
        assert s[1..][p + 1..] == s[p + 2..];
      }
      if PromptAtLineEnd(s) {
        var p :| 0 <= p < |s| && IsPromptChar(s[p]) && BlanksToLineEnd(s[p + 1..]);
        if p > 0 {
          assert s[1..][p..] == s[p + 1..];
          assert s[1..][p - 1] == s[p];
        }
      }
    }
  }

  /** The error words of `/\b(?:Error|ENOENT|EACCES|fatal|panic)\b/`. */
  const ErrorWords: seq<string> := ["Error", "ENOENT", "EACCES", "fatal", "panic"]

  /** `\w`: the characters a word boundary looks at. */
  predicate IsWordChar(c: char) {
    ('a' <= c <= 'z') || ('A' <= c <= 'Z') || ('0' <= c <= '9') || c == '_'
  }

  /** `w` occurs at `i` with a word boundary on both sides. */
  predicate WordAt(s: string, i: int, w: string) {
    0 <= i && i + |w| <= |s| && s[i..i + |w|] == w
    && (i == 0 || !IsWordChar(s[i - 1]))
    && (i + |w| == |s| || !IsWordChar(s[i + |w|]))
  }

  predicate HasErrorWord(s: string) {
    exists i, k :: 0 <= k < |ErrorWords| && 0 <= i <= |s| && WordAt(s, i, ErrorWords[k])
  }

  /**
   * `detectAgentStatus`: idle when a prompt ends a line, else error when an
   * error word stands alone, else active. The prompt test wins over the
   * error test, and `stopped` is never produced.
   */
  function DetectAgentStatus(out: string): (r: AgentStatus)
    ensures r == Idle <==> PromptAtLineEnd(LastLines(out))
    ensures r == Error <==> !PromptAtLineEnd(LastLines(out)) && HasErrorWord(LastLines(out))
    ensures r == Active <==> !PromptAtLineEnd(LastLines(out)) && !HasErrorWord(LastLines(out))
    ensures r != Stopped
  {
    var l := LastLines(out);
    ScanPromptIff(l);
    if ScanPrompt(l) then Idle
    else if HasErrorWord(l) then Error
    else Active
  }

  /** Lines above the last five do not change the verdict. */
  lemma EarlierLineIgnored(p: string, x: string)
    requires p != [] && !IsSpace(p[0]) && '\n' !in p
    requires Trim(x) == x && |Split(x, '\n')| >= 5
    ensures DetectAgentStatus(p + "\n" + x) == DetectAgentStatus(x)
  {
    assert x != [];
    var y := p + "\n" + x;
    assert y[0] == p[0];
    assert TrimStart(y) == y;
    assert !IsSpace(x[|x| - 1]);
    assert y[|y| - 1] == x[|x| - 1];
    assert TrimEnd(y) == y;
    SplitConcat(p, x, '\n');
    var xs := Split(x, '\n');
    assert Split(y, '\n') == [p] + xs;
    assert ([p] + xs)[|[p] + xs| - 5..] == xs[|xs| - 5..];
  }

  /** A shell prompt at the end of the output reads as idle. */
  lemma ShellPromptIsIdle()
    ensures DetectAgentStatus(PromptOutput) == Idle
  {
    PromptOutputLastLines();
    var l := PromptOutput[..13];
    assert IsPromptChar(l[12]) && l[13..] == [];
  }

  /** A pane showing a shell prompt. */
  const PromptOutput := "user@host ~ $ "

  lemma PromptOutputLastLines()
    ensures LastLines(PromptOutput) == PromptOutput[..13]
  {
    var out := PromptOutput;
    assert TrimStart(out) == out;
    assert TrimEnd(out) == TrimEnd(out[..13]);
    assert TrimEnd(out[..13]) == out[..13];
    assert forall k :: 0 <= k < 13 ==> out[..13][k] != '\n';
    SplitNoSeparator(out[..13], '\n');
  }

  lemma NoPromptCharNotIdle(s: string)
    requires forall k :: 0 <= k < |s| ==> !IsPromptChar(s[k])
    ensures !PromptAtLineEnd(s)
  {
  }

  /** Every error word starts with `E`, `f` or `p`. */
  lemma NoInitialNoErrorWord(s: string)
    requires forall k :: 0 <= k < |s| ==> s[k] != 'E' && s[k] != 'f' && s[k] != 'p'
    ensures !HasErrorWord(s)
  {
    forall i, k | 0 <= k < |ErrorWords| && 0 <= i <= |s| ensures !WordAt(s, i, ErrorWords[k]) {
      if i + |ErrorWords[k]| <= |s| {
        assert s[i..i + |ErrorWords[k]|][0] == s[i];
      }
    }
  }

  /** Output with neither a prompt nor an error word reads as active. */
  lemma OrdinaryOutputIsActive()
    ensures DetectAgentStatus(ThinkingOutput) == Active
  {
    ThinkingLastLines();
    ThinkingOutputChars();
    NoPromptCharNotIdle(ThinkingOutput);
    NoInitialNoErrorWord(ThinkingOutput);
  }

  lemma ThinkingLastLines()
    ensures LastLines(ThinkingOutput) == ThinkingOutput
  {
    var out := ThinkingOutput;
    ThinkingOutputChars();
    assert TrimStart(out) == out;
    assert Trim(out) == out;
    SplitNoSeparator(out, '\n');
  }

  const ThinkingOutput := "Thinking about the task..."

  /** Letters, blanks and full stops. */
  predicate ProseChar(c: char) {
    ('a' <= c <= 'z') || ('A' <= c <= 'Z') || c == ' ' || c == '.'
  }

  lemma ThinkingOutputChars()
    ensures forall k :: 0 <= k < |ThinkingOutput| ==>
      ProseChar(ThinkingOutput[k]) && ThinkingOutput[k] != 'E' && ThinkingOutput[k] != 'f' && ThinkingOutput[k] != 'p'
    ensures !IsSpace(ThinkingOutput[0]) && !IsSpace(ThinkingOutput[|ThinkingOutput| - 1])
  {
  }

  // ---------------------------------------------------------------------
  // The two adapters

  /** A `CliAdapter`: the program it launches, its auto-approve flag and its clear keystroke. */
  datatype CliAdapter = CliAdapter(program: string, approveFlag: string, clearCommand: string)

  /** `ClaudeCodeAdapter`. */
  const ClaudeCode := CliAdapter("claude", "--dangerously-skip-permissions", "/clear")

  /** `CodexAdapter`: its clear command is the single escape character. */
  const Codex := CliAdapter("codex", "--full-auto", "\U{001B}")

  /** The model flag; an absent model is the empty string, which the source treats the same. */
  function ModelFlag(model: string): string {
    if model == "" then "" else " --model " + ShellEscape(model)
  }

  function ApproveFlag(a: CliAdapter, autoApprove: bool): string {
    if autoApprove then " " + a.approveFlag else ""
  }

  /** `startCommand`: change into the working directory, then launch the program. */
  function StartCommand(a: CliAdapter, model: string, cwd: string, autoApprove: bool): string {
    "cd " + (ShellEscape(cwd) + (" && " + (a.program + (ModelFlag(model) + ApproveFlag(a, autoApprove)))))
  }

  /** `detectStatus` of either adapter. */
  function DetectStatus(a: CliAdapter, out: string): (r: AgentStatus)
    ensures r == DetectAgentStatus(out)
  {
    DetectAgentStatus(out)
  }

  function ModelWords(model: string): seq<Token> {
    if model == "" then [] else [Word("--model"), Word(model)]
  }

  function ApproveWords(a: CliAdapter, autoApprove: bool): seq<Token> {
    if autoApprove then [Word(a.approveFlag)] else []
  }

  /** The words the shell runs: `cd <cwd> && <program> [--model <model>] [<approve flag>]`. */
  function CommandWords(a: CliAdapter, model: string, cwd: string, autoApprove: bool): seq<Token> {
    [Word("cd"), Word(cwd), AndIf, Word(a.program)] + (ModelWords(model) + ApproveWords(a, autoApprove))
  }

  predicate PlainAdapter(a: CliAdapter) {
    PlainWord(a.program) && PlainWord(a.approveFlag)
  }

  lemma BothAdaptersPlain()
    ensures PlainAdapter(ClaudeCode) && PlainAdapter(Codex)
  {
    ClaudeCodePlain();
    CodexPlain();
  }

  lemma ClaudeCodePlain()
    ensures PlainAdapter(ClaudeCode)
  {
    assert PlainWord("claude");
    assert PlainWord("--dangerously-skip-permissions");
  }

  lemma CodexPlain()
    ensures PlainAdapter(Codex)
  {
    assert PlainWord("codex");
    assert PlainWord("--full-auto");
  }

  function PrependAll(ts: seq<Token>, o: Option<seq<Token>>): Option<seq<Token>> {
    if o.None? then None else Some(ts + o.value)
  }

  lemma ApproveFlagWords(a: CliAdapter, autoApprove: bool)
    requires PlainWord(a.approveFlag)
    ensures Tokenize(ApproveFlag(a, autoApprove)) == Some(ApproveWords(a, autoApprove))
  {
    if autoApprove {
      assert a.approveFlag + [] == a.approveFlag;
      TokenizeBlank(a.approveFlag);
      TokenizePlain(a.approveFlag, []);
      assert Tokenize([]) == Some([]);
      assert [Word(a.approveFlag)] + [] == [Word(a.approveFlag)];
    }
  }

  lemma ModelFlagShape(model: string, t: string)
    requires model != ""
    ensures ModelFlag(model) + t == " " + ("--model" + (" " + (ShellEscape(model) + t)))
  {
    var x := ShellEscape(model);
    Assoc(" --model ", x, t);
    SplitModel(x + t);
  }

  lemma Assoc(a: string, b: string, c: string)
    ensures (a + b) + c == a + (b + c)
  {
  }

  lemma SplitModel(y: string)
    ensures " --model " + y == " " + ("--model" + (" " + y))
  {
  }

  lemma ModelFlagWords(model: string, t: string)
    requires t == [] || t[0] == ' '
    ensures Tokenize(ModelFlag(model) + t) == PrependAll(ModelWords(model), Tokenize(t))
  {
    var o := Tokenize(t);
    if model == "" {
      assert ModelFlag(model) + t == t;
      if o.Some? { assert [] + o.value == o.value; }
    } else {
      ModelFlagWordsGiven(model, t);
    }
  }

  lemma ModelFlagWordsGiven(model: string, t: string)
    requires model != ""
    requires t == [] || t[0] == ' '
    ensures Tokenize(ModelFlag(model) + t) == PrependAll([Word("--model"), Word(model)], Tokenize(t))
  {
    var rest := ShellEscape(model) + t;
    var o1 := Tokenize(rest);
    assert o1 == Prepend(Word(model), Tokenize(t)) by { TokenizeEscaped(model, t); }
    assert Tokenize(" " + rest) == o1 by { TokenizeBlank(rest); }
    var flag := "--model" + (" " + rest);
    assert Tokenize(flag) == Prepend(Word("--model"), o1) by {
      LiteralWordsPlain();
      TokenizePlain("--model", " " + rest);
    }
    assert Tokenize(" " + flag) == Tokenize(flag) by { TokenizeBlank(flag); }
    assert ModelFlag(model) + t == " " + flag by { ModelFlagShape(model, t); }
    var o := Tokenize(t);
    if o.Some? {
      assert [Word("--model")] + ([Word(model)] + o.value) == [Word("--model"), Word(model)] + o.value;
    }
  }

  lemma FlagWords(a: CliAdapter, model: string, autoApprove: bool)
    requires PlainAdapter(a)
    ensures Tokenize(ModelFlag(model) + ApproveFlag(a, autoApprove)) == Some(ModelWords(model) + ApproveWords(a, autoApprove))
  {
    ApproveFlagWords(a, autoApprove);
    ModelFlagWords(model, ApproveFlag(a, autoApprove));
  }

  lemma SplitCd(x: string)
    ensures "cd " + x == "cd" + (" " + x)
  {
  }

  lemma SplitAndIf(y: string)
    ensures " && " + y == " " + ("&&" + (" " + y))
  {
  }

  /** The launch command, regrouped word by word. */
  lemma StartCommandShape(a: CliAdapter, model: string, cwd: string, autoApprove: bool, tail: string)
    requires tail == ModelFlag(model) + ApproveFlag(a, autoApprove)
    ensures StartCommand(a, model, cwd, autoApprove)
      == "cd" + (" " + (ShellEscape(cwd) + (" " + ("&&" + (" " + (a.program + tail))))))
  {
    var p := a.program + tail;
    SplitAndIf(p);
    SplitCd(ShellEscape(cwd) + (" && " + p));
  }

  /**
   * The launch command runs the program from `cwd`: the working directory
   * and the model each reach the shell as one argument whatever they
   * contain, the model flag is there exactly when a model is given, and
   * the auto-approve flag exactly when asked for.
   */
  lemma StartCommandWords(a: CliAdapter, model: string, cwd: string, autoApprove: bool)
    requires PlainAdapter(a)
    ensures Tokenize(StartCommand(a, model, cwd, autoApprove)) == Some(CommandWords(a, model, cwd, autoApprove))
  {
    var tail := ModelFlag(model) + ApproveFlag(a, autoApprove);
    var flags := ModelWords(model) + ApproveWords(a, autoApprove);
    var t2 := " " + ("&&" + (" " + (a.program + tail)));
    ProgramWords(a, model, autoApprove, tail, t2);
    TokenizeEscaped(cwd, t2);
    TokenizeBlank(ShellEscape(cwd) + t2);
    LiteralWordsPlain();
    TokenizePlain("cd", " " + (ShellEscape(cwd) + t2));
    StartCommandShape(a, model, cwd, autoApprove, tail);
    assert [Word("cd")] + ([Word(cwd)] + ([AndIf, Word(a.program)] + flags))
      == CommandWords(a, model, cwd, autoApprove);
  }

  lemma LiteralWordsPlain()
    ensures PlainWord("cd") && PlainWord("--model")
  {
  }

  /** What follows the working directory: ` && <program><flags>`. */
  lemma ProgramWords(a: CliAdapter, model: string, autoApprove: bool, tail: string, t2: string)
    requires PlainAdapter(a)
    requires tail == ModelFlag(model) + ApproveFlag(a, autoApprove)
    requires t2 == " " + ("&&" + (" " + (a.program + tail)))
    ensures Tokenize(t2) == Some([AndIf, Word(a.program)] + (ModelWords(model) + ApproveWords(a, autoApprove)))
  {
    var flags := ModelWords(model) + ApproveWords(a, autoApprove);
    FlagWords(a, model, autoApprove);
    assert tail == [] || tail[0] == ' ';
    TokenizePlain(a.program, tail);
    var t1 := a.program + tail;
    TokenizeBlank(t1);
    TokenizeAndIf(" " + t1);
    TokenizeBlank("&&" + (" " + t1));
    assert [AndIf] + ([Word(a.program)] + flags) == [AndIf, Word(a.program)] + flags;
  }
}
