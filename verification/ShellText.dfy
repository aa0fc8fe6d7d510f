/**
  Quoting text as one shell word, and what a shell makes of it: quote removal
  and field splitting as in section 2.2 of the Shell Command Language of IEEE
  Std 1003.1, for commands built from plain characters, backslashes and single
  quotes. Anything that would need another rule of the language is not read.
*/
module ShellText {
  import opened Options

  const QUOTE: char := '\''

  /** Each single quote closes the quoting, is written escaped, and reopens it. */
  function QuotesEscaped(s: string): string {
    if s == "" then ""
    else (if s[0] == QUOTE then "'\\''" else [s[0]]) + QuotesEscaped(s[1..])
  }

  function ShellQuoted(s: string): string {
    "'" + QuotesEscaped(s) + "'"
  }

  // ---- the reader --------------------------------------------------------

  /** Characters that stand for themselves in a word. */
  predicate Plain(c: char) {
    'a' <= c <= 'z' || 'A' <= c <= 'Z' || '0' <= c <= '9' || c == '-' || c == '_' || c == '.' || c == '/'
    || c == '=' || c == ':'
  }

  /** The words of one command, and what follows its newline. */
  datatype Command = Command(words: seq<string>, rest: string)

  function Finished(words: seq<string>, word: Option<string>): seq<string> {
    if word.Some? then words + [word.value] else words
  }

  function Begun(word: Option<string>): string {
    if word.Some? then word.value else ""
  }

  /** Read on, outside quotes, with `word` the word being built, if any. */
  function ReadOn(text: string, words: seq<string>, word: Option<string>): Option<Command>
    decreases |text|
  {
    if text == "" then Some(Command(Finished(words, word), ""))
    else if text[0] == '\n' then Some(Command(Finished(words, word), text[1..]))
    else if text[0] == ' ' then ReadOn(text[1..], Finished(words, word), None)
    else if text[0] == QUOTE then ReadQuoted(text[1..], words, Begun(word))
    else if text[0] == '\\' then
      if |text| < 2 || text[1] == '\n' then None else ReadOn(text[2..], words, Some(Begun(word) + [text[1]]))
    else if Plain(text[0]) then ReadOn(text[1..], words, Some(Begun(word) + [text[0]]))
    else None
  }

  /** Read on inside single quotes, where only the closing quote is special. */
  function ReadQuoted(text: string, words: seq<string>, word: string): Option<Command>
    decreases |text|
  {
    if text == "" then None
    else if text[0] == QUOTE then ReadOn(text[1..], words, Some(word))
    else ReadQuoted(text[1..], words, word + [text[0]])
  }

  function ReadCommand(text: string): Option<Command> {
    ReadOn(text, [], None)
  }

  // ---- quoting is undone -------------------------------------------------

  lemma {:induction false} EscapedReads(s: string, tail: string, words: seq<string>, word: string)
    ensures ReadQuoted(QuotesEscaped(s) + "'" + tail, words, word) == ReadOn(tail, words, Some(word + s))
    decreases |s|
  {
    var text := QuotesEscaped(s) + "'" + tail;
    if s == "" {
      assert text == "'" + tail && text[1..] == tail;
      assert word + s == word;
    } else {
      var more := QuotesEscaped(s[1..]) + "'" + tail;
      EscapedReads(s[1..], tail, words, word + [s[0]]);
      assert word + [s[0]] + s[1..] == word + s;
      if s[0] == QUOTE {
        EscapedQuote(more, words, word);
        assert text == "'\\''" + more;
      } else {
        assert text == [s[0]] + more && text[1..] == more;
      }
    }
  }

  /** The escape of a quote adds one quote to the word. */
  lemma EscapedQuote(more: string, words: seq<string>, word: string)
    ensures ReadQuoted("'\\''" + more, words, word) == ReadQuoted(more, words, word + [QUOTE])
  {
    var text := "'\\''" + more;
    var closed := text[1..];
    assert text[0] == QUOTE && closed[0] == '\\' && closed[1] == QUOTE && |closed| >= 2;
    var reopened := closed[2..];
    assert reopened[0] == QUOTE && reopened[1..] == more;
    assert ReadQuoted(text, words, word) == ReadOn(closed, words, Some(word));
    assert ReadOn(closed, words, Some(word)) == ReadOn(reopened, words, Some(word + [QUOTE]));
    assert ReadOn(reopened, words, Some(word + [QUOTE])) == ReadQuoted(more, words, word + [QUOTE]);
  }

  lemma QuotedReads(s: string, tail: string, words: seq<string>, word: Option<string>)
    ensures ReadOn(ShellQuoted(s) + tail, words, word) == ReadOn(tail, words, Some(Begun(word) + s))
  {
    var text := ShellQuoted(s) + tail;
    assert text == "'" + (QuotesEscaped(s) + "'" + tail);
    assert text[1..] == QuotesEscaped(s) + "'" + tail;
    EscapedReads(s, tail, words, Begun(word));
  }

  /** Any text at all, quoted, is read back as the one word it is. */
  lemma QuotedIsOneWord(s: string)
    ensures ReadCommand(ShellQuoted(s)) == Some(Command([s], ""))
  {
    QuotedReads(s, "", [], None);
    assert ShellQuoted(s) + "" == ShellQuoted(s);
    assert "" + s == s;
    assert ReadOn("", [], Some(s)) == Some(Command([] + [s], ""));
    assert [] + [s] == [s];
  }

  lemma {:induction false} PlainReads(p: string, tail: string, words: seq<string>, word: Option<string>)
    requires p != "" && forall i :: 0 <= i < |p| ==> Plain(p[i])
    ensures ReadOn(p + tail, words, word) == ReadOn(tail, words, Some(Begun(word) + p))
    decreases |p|
  {
    assert (p + tail)[1..] == p[1..] + tail;
    assert ReadOn(p + tail, words, word) == ReadOn(p[1..] + tail, words, Some(Begun(word) + [p[0]]));
    if |p| == 1 {
      assert p[1..] + tail == tail && p == [p[0]];
    } else {
      PlainReads(p[1..], tail, words, Some(Begun(word) + [p[0]]));
      assert Begun(word) + [p[0]] + p[1..] == Begun(word) + p;
    }
  }

  // ---- whole commands ----------------------------------------------------

  /** How a word is spelled in a command: a plain part, then perhaps a quoted one. */
  datatype Spelling = Spelling(plain: string, quoted: Option<string>)

  function Spelled(w: Spelling): string {
    w.plain + if w.quoted.Some? then ShellQuoted(w.quoted.value) else ""
  }

  function Meaning(w: Spelling): string {
    w.plain + if w.quoted.Some? then w.quoted.value else ""
  }

  function SpelledOut(ws: seq<Spelling>): string {
    if ws == [] then "" else if |ws| == 1 then Spelled(ws[0]) else Spelled(ws[0]) + " " + SpelledOut(ws[1..])
  }

  function Meanings(ws: seq<Spelling>): seq<string> {
    if ws == [] then [] else [Meaning(ws[0])] + Meanings(ws[1..])
  }

  predicate Readable(w: Spelling) {
    && (forall i :: 0 <= i < |w.plain| ==> Plain(w.plain[i]))
    && (w.plain != "" || w.quoted.Some?)
  }

  lemma WordReads(w: Spelling, tail: string, words: seq<string>)
    requires Readable(w)
    ensures ReadOn(Spelled(w) + tail, words, None) == ReadOn(tail, words, Some(Meaning(w)))
  {
    var after := if w.quoted.Some? then ShellQuoted(w.quoted.value) + tail else tail;
    assert Spelled(w) + tail == w.plain + after;
    if w.plain == "" {
      assert w.plain + after == after && Meaning(w) == w.quoted.value && "" + w.quoted.value == w.quoted.value;
      QuotedReads(w.quoted.value, tail, words, None);
    } else {
      PlainReads(w.plain, after, words, None);
      assert "" + w.plain == w.plain;
      if w.quoted.Some? { QuotedReads(w.quoted.value, tail, words, Some(w.plain)); }
      else { assert Meaning(w) == w.plain; }
    }
  }

  lemma MeaningOf(w: Spelling)
    ensures w.quoted.None? ==> Meaning(w) == w.plain
    ensures w.plain == "" && w.quoted.Some? ==> Meaning(w) == w.quoted.value
  {
  }

  predicate EndsCommand(tail: string) {
    tail == "" || tail[0] == '\n'
  }

  function AfterNewline(tail: string): string {
    if tail == "" then "" else tail[1..]
  }

  /** A command spelled word by word is read back as the meanings of its words. */
  lemma {:induction false} CommandReads(ws: seq<Spelling>, tail: string, words: seq<string>)
    requires ws != [] && forall i :: 0 <= i < |ws| ==> Readable(ws[i])
    requires EndsCommand(tail)
    ensures ReadOn(SpelledOut(ws) + tail, words, None) == Some(Command(words + Meanings(ws), AfterNewline(tail)))
    decreases |ws|
  {
    hide ReadOn, Spelled, Meaning, Readable, AfterNewline, EndsCommand;
    var first := Meaning(ws[0]);
    if |ws| == 1 {
      LastWordReads(ws[0], tail, words);
      assert Meanings(ws) == [first];
    } else {
      FirstWordReads(ws[0], SpelledOut(ws[1..]) + tail, words);
      FirstSpelled(ws, tail);
      CommandReads(ws[1..], tail, words + [first]);
      assert words + [first] + Meanings(ws[1..]) == words + Meanings(ws) by { FirstMeaning(ws, words); }
    }
  }

  lemma FirstSpelled(ws: seq<Spelling>, tail: string)
    requires |ws| > 1
    ensures SpelledOut(ws) + tail == Spelled(ws[0]) + (" " + (SpelledOut(ws[1..]) + tail))
  {
  }

  lemma FirstMeaning(ws: seq<Spelling>, words: seq<string>)
    requires ws != []
    ensures words + [Meaning(ws[0])] + Meanings(ws[1..]) == words + Meanings(ws)
  {
    hide Meaning;
  }

  lemma FirstWordReads(w: Spelling, rest: string, words: seq<string>)
    requires Readable(w)
    ensures ReadOn(Spelled(w) + (" " + rest), words, None) == ReadOn(rest, words + [Meaning(w)], None)
  {
    hide Spelled, Meaning;
    WordReads(w, " " + rest, words);
    assert (" " + rest)[1..] == rest;
  }

  lemma LastWordReads(w: Spelling, tail: string, words: seq<string>)
    requires Readable(w) && EndsCommand(tail)
    ensures ReadOn(Spelled(w) + tail, words, None) == Some(Command(words + [Meaning(w)], AfterNewline(tail)))
  {
    hide Spelled, Meaning;
    WordReads(w, tail, words);
  }
}
