/** The option that a configuration line sets: option_name in ui/app/pki.py. */
module OptionName {
  const NUL := '\0'
  const SLASH := '\\'
  const DOUBLE_QUOTE := '"'
  const SINGLE_QUOTE := '\''

  datatype State = Start | Plain | Double | Single

  predicate IsSpace(c: char) {
    c == NUL || c == ' ' || '\t' <= c <= '\r'
  }

  predicate IsComment(c: char) { c == ';' || c == '#' }

  /** The character that completes the first parameter. */
  predicate Ends(state: State, c: char, backslash: bool) {
    match state
    case Start => false
    case Plain => IsSpace(c) && !backslash
    case Double => c == DOUBLE_QUOTE && !backslash
    case Single => c == SINGLE_QUOTE
  }

  /** The word read from s after `word`. */
  function Scan(s: string, state: State, backslash: bool, word: string): string {
    if s == [] then word
    else
      var c, rest := s[0], s[1..];
      if c == SLASH && !backslash && state != Single then Scan(rest, state, true, word)
      else if state == Start then
        if IsSpace(c) then Scan(rest, Start, false, word)
        else if IsComment(c) then word
        else if c == DOUBLE_QUOTE && !backslash then Scan(rest, Double, false, word)
        else if c == SINGLE_QUOTE && !backslash then Scan(rest, Single, false, word)
        else Scan(rest, Plain, false, word + [c])
      else if Ends(state, c, backslash) then word
      else Scan(rest, state, false, if c != NUL then word + [c] else word)
  }

  /** Drops a leading "--" and the brackets of an inline block. */
  function Resolve(word: string): string {
    var w := if |word| >= 3 && word[..2] == "--" then word[2..] else word;
    if w != [] && w[0] == '<' && w[|w| - 1] == '>' then w[1..|w| - 1] else w
  }

  function Name(line: string): string { Resolve(Scan(line + [NUL], Start, false, "")) }

  /** ui/app/pki.py:535-565 */
  method OptionName(line: string) returns (name: string)
    ensures name == Name(line)
  {
    var word, state, backslash := "", Start, false;
    var s := line + [NUL];
    var i := 0;
    while i < |s|
      invariant 0 <= i <= |s|
      invariant Scan(s, Start, false, "") == Scan(s[i..], state, backslash, word)
    {
      var c := s[i];
      assert s[i..][0] == c && s[i..][1..] == s[i + 1..];
      if c == SLASH && !backslash && state != Single {
        backslash := true;
        i := i + 1;
        continue;
      }
      if state == Start {
        if !IsSpace(c) {
          if IsComment(c) { break; }
          if c == DOUBLE_QUOTE && !backslash {
            state := Double;
          } else if c == SINGLE_QUOTE && !backslash {
            state := Single;
          } else {
            word := word + [c];
            state := Plain;
          }
        }
      } else if Ends(state, c, backslash) {
        break;
      } else if c != NUL {
        word := word + [c];
      }
      backslash := false;
      i := i + 1;
    }
    name := Resolve(word);
  }

  // ---- spellings ----------------------------------------------------------

  /** A character of a word, written as itself or after a backslash. */
  datatype Letter = Letter(c: char, escaped: bool)

  function Word(ls: seq<Letter>): string {
    if ls == [] then [] else [ls[0].c] + Word(ls[1..])
  }

  function Spell(ls: seq<Letter>): string {
    if ls == [] then [] else Spelled(ls[0]) + Spell(ls[1..])
  }

  /** White space as C has it, and NUL. */
  predicate White(c: char) { c in " \t\n\r" || c as int in {0, 11, 12} }

  /** A backslash and the character that would end the word need a backslash; NUL cannot be written. */
  predicate Readable(l: Letter, state: State) {
    l.c as int != 0
    && (l.c == '\\' || (state == Plain && White(l.c)) || (state == Double && l.c == '\"') || (state == Single && l.c == '\'')
        ==> l.escaped)
  }

  /** Letters that stand for themselves between double quotes. */
  ghost predicate DoubleSpelling(ls: seq<Letter>) {
    forall i :: 0 <= i < |ls| ==> Readable(ls[i], Double)
  }

  /** Letters of a word without quotes; the first also must not begin a quote or a comment. */
  ghost predicate PlainSpelling(ls: seq<Letter>) {
    && ls != [] && (forall i :: 0 <= i < |ls| ==> Readable(ls[i], Plain))
    && !White(ls[0].c) && ls[0].c !in ";#"
    && (ls[0].c == DOUBLE_QUOTE || ls[0].c == SINGLE_QUOTE ==> ls[0].escaped)
  }

  ghost predicate Blank(s: string) { forall i :: 0 <= i < |s| ==> White(s[i]) }

  /** No character that single quotes cannot hold. */
  ghost predicate Quotable(s: string) { forall i :: 0 <= i < |s| ==> s[i] != NUL && s[i] != SINGLE_QUOTE }

  lemma {:induction false} SkipBlanks(blanks: string, s: string)
    requires Blank(blanks)
    ensures Scan(blanks + s, Start, false, "") == Scan(s, Start, false, "")
  {
    if blanks == [] {
      assert blanks + s == s;
    } else {
      assert (blanks + s)[1..] == blanks[1..] + s;
      SkipBlanks(blanks[1..], s);
    }
  }

  function Spelled(l: Letter): string { if l.escaped then [SLASH, l.c] else [l.c] }

  /** One spelled letter is read as one character. */
  lemma ReadLetter(l: Letter, s: string, state: State, word: string)
    requires (state == Plain || state == Double) && Readable(l, state)
    ensures Scan(Spelled(l) + s, state, false, word) == Scan(s, state, false, word + [l.c])
  {
    var t := Spelled(l) + s;
    if l.escaped {
      assert t[0] == SLASH && t[1..] == [l.c] + s;
      assert t[1..][1..] == s;
    } else {
      assert t[1..] == s;
    }
  }

  lemma {:induction false} ReadLetters(ls: seq<Letter>, s: string, state: State, word: string)
    requires (state == Plain || state == Double) && forall i :: 0 <= i < |ls| ==> Readable(ls[i], state)
    ensures Scan(Spell(ls) + s, state, false, word) == Scan(s, state, false, word + Word(ls))
  {
    if ls == [] {
      assert Spell(ls) + s == s && word + Word(ls) == word;
    } else {
      var l, rest := ls[0], ls[1..];
      assert Spell(ls) + s == Spelled(l) + (Spell(rest) + s);
      ReadLetter(l, Spell(rest) + s, state, word);
      ReadLetters(rest, s, state, word + [l.c]);
      assert word + [l.c] + Word(rest) == word + Word(ls);
    }
  }

  lemma ScanQuote(q: char, state: State, s: string, word: string)
    requires (q == DOUBLE_QUOTE && state == Double) || (q == SINGLE_QUOTE && state == Single)
    ensures Scan([q] + s, Start, false, word) == Scan(s, state, false, word)
    ensures Scan([q] + s, state, false, word) == word
  {
    assert ([q] + s)[1..] == s;
  }

  /** Reading undoes double quotes and backslashes, whatever comes before and after. */
  lemma DoubleQuoted(blanks: string, ls: seq<Letter>, rest: string)
    requires Blank(blanks) && DoubleSpelling(ls)
    ensures Name(blanks + [DOUBLE_QUOTE] + Spell(ls) + [DOUBLE_QUOTE] + rest) == Resolve(Word(ls))
  {
    var tail := [DOUBLE_QUOTE] + (rest + [NUL]);
    var inner := Spell(ls) + tail;
    assert blanks + [DOUBLE_QUOTE] + Spell(ls) + [DOUBLE_QUOTE] + rest + [NUL] == blanks + ([DOUBLE_QUOTE] + inner);
    SkipBlanks(blanks, [DOUBLE_QUOTE] + inner);
    ScanQuote(DOUBLE_QUOTE, Double, inner, "");
    ReadLetters(ls, tail, Double, "");
    ScanQuote(DOUBLE_QUOTE, Double, rest + [NUL], "" + Word(ls));
    assert "" + Word(ls) == Word(ls);
  }

  lemma {:induction false} ReadSingle(s: string, text: string, word: string)
    requires Quotable(s)
    ensures Scan(s + text, Single, false, word) == Scan(text, Single, false, word + s)
  {
    if s == [] {
      assert s + text == text && word + s == word;
    } else {
      assert (s + text)[1..] == s[1..] + text && word + [s[0]] + s[1..] == word + s;
      ReadSingle(s[1..], text, word + [s[0]]);
    }
  }

  /** Reading undoes single quotes: everything between them stands for itself. */
  lemma SingleQuoted(blanks: string, word: string, rest: string)
    requires Blank(blanks) && Quotable(word)
    ensures Name(blanks + [SINGLE_QUOTE] + word + [SINGLE_QUOTE] + rest) == Resolve(word)
  {
    var tail := [SINGLE_QUOTE] + (rest + [NUL]);
    var inner := word + tail;
    assert blanks + [SINGLE_QUOTE] + word + [SINGLE_QUOTE] + rest + [NUL] == blanks + ([SINGLE_QUOTE] + inner);
    SkipBlanks(blanks, [SINGLE_QUOTE] + inner);
    ScanQuote(SINGLE_QUOTE, Single, inner, "");
    ReadSingle(word, tail, "");
    ScanQuote(SINGLE_QUOTE, Single, rest + [NUL], "" + word);
    assert "" + word == word;
  }

  /** The first letter of a plain word takes the reader out of the start state. */
  lemma FirstLetter(l: Letter, s: string)
    requires Readable(l, Plain) && !IsSpace(l.c) && !IsComment(l.c)
    requires l.c == DOUBLE_QUOTE || l.c == SINGLE_QUOTE ==> l.escaped
    ensures Scan(Spelled(l) + s, Start, false, "") == Scan(s, Plain, false, [l.c])
  {
    var t := Spelled(l) + s;
    assert "" + [l.c] == [l.c];
    if l.escaped {
      assert t[0] == SLASH && t[1..] == [l.c] + s;
      assert t[1..][1..] == s;
    } else {
      assert t[1..] == s;
    }
  }

  /** Reading undoes backslashes in a plain word that a space or the end of the line completes. */
  lemma PlainWord(blanks: string, ls: seq<Letter>, rest: string)
    requires Blank(blanks) && PlainSpelling(ls) && (rest == [] || White(rest[0]))
    ensures Name(blanks + Spell(ls) + rest) == Resolve(Word(ls))
  {
    var tail, l, more := rest + [NUL], ls[0], ls[1..];
    assert blanks + Spell(ls) + rest + [NUL] == blanks + (Spelled(l) + (Spell(more) + tail));
    SkipBlanks(blanks, Spelled(l) + (Spell(more) + tail));
    FirstLetter(l, Spell(more) + tail);
    ReadLetters(more, tail, Plain, [l.c]);
    assert Scan(tail, Plain, false, Word(ls)) == Word(ls);
  }

  // ---- what the name is ---------------------------------------------------

  /** Every letter after a backslash. */
  function Escaped(word: string): seq<Letter> { seq(|word|, i requires 0 <= i < |word| => Letter(word[i], true)) }

  lemma {:induction false} EscapedWord(word: string)
    ensures Word(Escaped(word)) == word
  {
    if word != [] {
      assert Escaped(word)[1..] == Escaped(word[1..]);
      EscapedWord(word[1..]);
    }
  }

  /** All three spellings of a word name the same option. */
  lemma SpellingsAgree(blanks: string, word: string, rest: string)
    requires Blank(blanks) && (rest == [] || White(rest[0]))
    requires Quotable(word)
    requires word != [] && !White(word[0]) && word[0] !in ";#"
    ensures Name(blanks + [DOUBLE_QUOTE] + Spell(Escaped(word)) + [DOUBLE_QUOTE] + rest)
         == Name(blanks + [SINGLE_QUOTE] + word + [SINGLE_QUOTE] + rest)
         == Name(blanks + Spell(Escaped(word)) + rest)
         == Resolve(word)
  {
    EscapedWord(word);
    DoubleQuoted(blanks, Escaped(word), rest);
    SingleQuoted(blanks, word, rest);
    PlainWord(blanks, Escaped(word), rest);
  }

  /** "--" and the brackets of an inline block do not change the option. */
  lemma Decorations(word: string)
    requires word != [] && word[0] != '<' && word[0] != '-'
    ensures Resolve(word) == Resolve("--" + word) == word
    ensures Resolve("<" + word + ">") == Resolve("--<" + word + ">") == word
  {
    assert ("--" + word)[2..] == word && ("--" + word)[..2] == "--";
    var block := "<" + word + ">";
    assert block[1..|block| - 1] == word;
    assert ("--<" + word + ">")[2..] == block && ("--<" + word + ">")[..2] == "--";
  }

  /** A comment or an empty line sets nothing. */
  lemma NothingSet(blanks: string, c: char, rest: string)
    requires Blank(blanks) && c in ";#"
    ensures Name(blanks) == "" && Name(blanks + [c] + rest) == ""
  {
    SkipBlanks(blanks, [NUL]);
    assert Scan([NUL], Start, false, "") == "";
    SkipBlanks(blanks, [c] + rest + [NUL]);
    assert blanks + [c] + rest + [NUL] == blanks + ([c] + rest + [NUL]);
  }
}
