/** Layout and errors of source text: white space that does not matter, and lines that are refused. */
module Layout {
  import opened Options
  import opened Machine
  import opened Text
  import opened Parser

  // ---- white space -------------------------------------------------------------------

  predicate AllWhite(s: string) {
    forall c | c in s :: IsWhite(c)
  }

  lemma {:induction false} TrimStartWhite(w: string, s: string)
    requires AllWhite(w)
    ensures TrimStart(w + s) == TrimStart(s)
  {
    if w == "" {
      assert w + s == s;
    } else {
      assert w[0] in w && (w + s)[1..] == w[1..] + s;
      TrimStartWhite(w[1..], s);
    }
  }

  lemma {:induction false} TrimEndWhite(s: string, w: string)
    requires AllWhite(w)
    ensures TrimEnd(s + w) == TrimEnd(s)
    decreases |w|
  {
    if w == "" {
      assert s + w == s;
    } else {
      var n := |w| - 1;
      assert w[n] in w && (s + w)[|s + w| - 1] == w[n] && (s + w)[..|s + w| - 1] == s + w[..n];
      TrimEndWhite(s, w[..n]);
    }
  }

  lemma {:induction false} TrimStartSplits(s: string, w: string)
    requires AllWhite(w)
    ensures if TrimStart(s) == "" then TrimStart(s + w) == "" else TrimStart(s + w) == TrimStart(s) + w
  {
    if s == "" {
      assert s + w == w && w + "" == w;
      TrimStartWhite(w, "");
    } else if IsWhite(s[0]) {
      assert (s + w)[1..] == s[1..] + w;
      TrimStartSplits(s[1..], w);
    }
  }

  lemma TrimAround(before: string, s: string, after: string)
    requires AllWhite(before) && AllWhite(after)
    ensures Trim(before + s + after) == Trim(s)
  {
    assert before + s + after == before + (s + after);
    TrimStartWhite(before, s + after);
    TrimStartSplits(s, after);
    TrimEndWhite(TrimStart(s), after);
  }

  /** White space around a line does not change what it means. */
  lemma IndentIgnored(before: string, line: string, after: string)
    requires AllWhite(before) && AllWhite(after)
    ensures ParseLine(before + line + after) == ParseLine(line)
  {
    hide Trim, SplitOnce, ParseCommand;
    TrimAround(before, line, after);
  }

  /** A line of only white space means nothing. */
  lemma WhiteLineIsBlank(line: string)
    requires AllWhite(line)
    ensures ParseLine(line) == Blank
  {
    IndentIgnored(line, "", "");
    assert line + "" + "" == line;
    assert Trim("") == "";
  }

  /** Leaving out a line without meaning changes no program; only the line numbers of errors move. */
  lemma {:induction false} BlankIgnored(before: seq<Line>, after: seq<Line>)
    ensures Assemble(before + [Blank] + after).Done? <==> Assemble(before + after).Done?
    ensures Assemble(before + after).Done? ==> Assemble(before + [Blank] + after) == Assemble(before + after)
    decreases |after|
  {
    hide Assemble;
    if after == [] {
      AssembleStep(before, Blank);
      assert before + [Blank] + after == before + [Blank] && before + after == before;
    } else {
      var rest, last := after[..|after| - 1], after[|after| - 1];
      BlankIgnored(before, rest);
      AssembleStep(before + rest, last);
      AssembleStep(before + [Blank] + rest, last);
      assert after == rest + [last];
      assert before + after == (before + rest) + [last];
      assert before + [Blank] + after == (before + [Blank] + rest) + [last];
    }
  }

  // ---- numbers -----------------------------------------------------------------------------

  lemma {:induction false} NumberOfZeros(zeros: string, s: string)
    requires (forall c | c in zeros :: c == '0') && forall c | c in s :: IsDigit(c)
    ensures (forall c | c in zeros + s :: IsDigit(c)) && Number(zeros + s) == Number(s)
    decreases |s|
  {
    if s == "" {
      assert zeros + s == zeros;
      AllZeros(zeros);
    } else {
      var n := |s| - 1;
      NumberOfZeros(zeros, s[..n]);
      assert (zeros + s)[..|zeros + s| - 1] == zeros + s[..n] && (zeros + s)[|zeros + s| - 1] == s[n];
      assert forall c | c in zeros + s :: c in zeros || c in s;
    }
  }

  lemma {:induction false} AllZeros(zeros: string)
    requires forall c | c in zeros :: c == '0'
    ensures (forall c | c in zeros :: IsDigit(c)) && Number(zeros) == 0
  {
    if zeros != "" {
      var n := |zeros| - 1;
      assert zeros[n] in zeros && forall c | c in zeros[..n] :: c in zeros;
      AllZeros(zeros[..n]);
    }
  }

  /** Leading zeros and one plus sign are accepted; numbers above 255 are not. */
  lemma NumberForms(zeros: string, v: nat)
    requires forall c | c in zeros :: c == '0'
    ensures var want := if v < 256 then Some(v) else None;
      ParseU8(zeros + ShowNumber(v)) == want && ParseU8("+" + zeros + ShowNumber(v)) == want
  {
    hide ShowNumber;
    var s := zeros + ShowNumber(v);
    ShownFacts(v);
    NumberOfZeros(zeros, ShowNumber(v));
    assert s[0] in s;
    assert ("+" + zeros + ShowNumber(v))[1..] == s;
  }

  lemma ShownFacts(v: nat)
    ensures ShowNumber(v) != "" && (forall c | c in ShowNumber(v) :: IsDigit(c)) && Number(ShowNumber(v)) == v
  {
  }

  // ---- refused lines ---------------------------------------------------------------------

  predicate Keyword(word: string) {
    word == "MOV" || word == "ADD" || word == "SUB" || word == "PRINT" || word == "JNZ"
  }

  /** A word that is no command and no label is refused, with or without arguments. */
  lemma UnknownRefused(word: string, args: string)
    requires Word(word) && !Keyword(word) && word[|word| - 1] != ':' && args != "" && Trimmed(args)
    ensures ParseLine(word + " " + args) == Wrong(UnknownCommand(word))
    ensures ParseLine(word) == Wrong(UnknownCommand(word))
  {
    hide Trim, IndexOf;
    CommandParses(word, args);
    TrimTrimmed(word);
    assert ' ' !in word;
    IndexAbsent(word, ' ');
  }

  /** `MOV`, `ADD` and `SUB` without a comma are refused with their arguments. */
  lemma CommaRequired(word: string, args: string)
    requires word == "MOV" || word == "ADD" || word == "SUB"
    requires args != "" && Trimmed(args) && ',' !in args
    ensures ParseLine(word + " " + args) == Wrong(UnexpectedArgs(args))
  {
    hide Trim, IndexOf, ParseLine;
    KeywordsAreWords();
    CommandParses(word, args);
    TrimTrimmed(args);
    IndexAbsent(args, ',');
  }

  /** A `JNZ` with an operand and no label panics. */
  lemma JumpNeedsLabel(o: Operand)
    requires LegalOperand(o)
    ensures ParseLine("JNZ" + " " + ShowOperand(o)) == Crash
  {
    hide Trim, IndexOf, ParseLine, ParseReadable, ShowOperand;
    KeywordsAreWords();
    OperandIsWord(o);
    var args := ShowOperand(o);
    CommandParses("JNZ", args);
    IndexAbsent(args, ',');
    assert args[..|args|] == args;
    ReadableParses(o);
  }

  /** A number is no destination. */
  lemma NumberIsNoDestination(word: string, v: nat, o: Operand)
    requires (word == "MOV" || word == "ADD" || word == "SUB") && LegalOperand(o)
    ensures ParseLine(word + " " + (ShowNumber(v) + "," + (" " + ShowOperand(o))))
         == Wrong(InvalidReadableExpr(ShowNumber(v)))
  {
    hide Trim, SplitOnce, ParseLine, ParseReadable, ShowOperand, ShowNumber;
    KeywordsAreWords();
    NumberIsWord(v);
    OperandIsWord(o);
    var dst, src := ShowNumber(v), ShowOperand(o);
    PairTrimmed(dst, src);
    CommandParses(word, dst + "," + (" " + src));
    TrimTrimmed(dst + "," + (" " + src));
    TrimTrimmed(dst);
    SplitOnceAt(dst, ',', " " + src);
    ReadableParses(o);
    ShownFacts(v);
    assert dst[0] in dst;
  }

  /** A register number above 255 is refused, and so is any other word that is neither a number nor a register. */
  lemma WordRefused(word: string)
    requires Word(word) && ParseU8(word) == None && (word[0] == 'R' ==> ParseU8(word[1..]) == None)
    ensures ParseReadable(word) == Bad(InvalidReadableExpr(word))
    ensures ParseWritable(word) == Bad(if word[0] == 'R' then InvalidWritableExpr(word) else InvalidReadableExpr(word))
  {
    hide Trim, ParseU8;
    TrimTrimmed(word);
  }

  lemma {:induction false} OnlyColons(colons: string)
    requires forall c | c in colons :: c == ':'
    ensures TrimColons(colons) == ""
  {
    if colons != "" {
      var rest := colons[..|colons| - 1];
      assert colons[|colons| - 1] in colons;
      forall c | c in rest ensures c == ':' {
        assert c in colons;
      }
      OnlyColons(rest);
    }
  }

  /** A label without a name is refused. */
  lemma LabelNeedsName(colons: string)
    requires colons != "" && forall c | c in colons :: c == ':'
    ensures ParseLine(colons) == Wrong(EmptyLabel)
  {
    hide Trim, IndexOf, TrimColons;
    assert colons[0] in colons && colons[|colons| - 1] in colons;
    TrimTrimmed(colons);
    assert ' ' !in colons;
    IndexAbsent(colons, ' ');
    OnlyColons(colons);
  }

  // ---- forms that are accepted ---------------------------------------------------------------

  /** Among the ASCII characters, the white ones are the space and the five from tab to carriage return. */
  lemma AsciiWhite(c: char)
    requires c as int < 128
    ensures IsWhite(c) <==> c == ' ' || 9 <= c as int <= 13
  {
  }

  /** A line may end in `\r\n`, and the last one in nothing. */
  lemma LineEnds(l: string, rest: string)
    requires '\n' !in l && '\r' !in l
    ensures Lines(l + "\r\n" + rest) == [l] + Lines(rest)
    ensures Lines(l) == if l == "" then [] else [l]
  {
    var s := l + "\r\n" + rest;
    assert s[..|l| + 1] == l + "\r" && s[|l| + 2..] == rest;
    IndexUnique(s, '\n', |l| + 1);
    IndexAbsent(l, '\n');
    assert (l + "\r")[..|l|] == l;
  }

  lemma {:induction false} TrimManyColons(name: string, colons: string)
    requires name != "" && name[|name| - 1] != ':' && forall c | c in colons :: c == ':'
    ensures TrimColons(name + colons) == name
    decreases |colons|
  {
    if colons == "" {
      assert name + colons == name;
    } else {
      var rest := colons[..|colons| - 1];
      assert colons[|colons| - 1] in colons;
      forall c | c in rest ensures c == ':' {
        assert c in colons;
      }
      assert (name + colons)[..|name + colons| - 1] == name + rest;
      TrimManyColons(name, rest);
    }
  }

  /** A label may end in several colons, and whatever follows it on its line is ignored. */
  lemma LabelForms(name: string, colons: string, args: string)
    requires LegalName(name) && colons != "" && (forall c | c in colons :: c == ':') && args != "" && Trimmed(args)
    ensures ParseLine(name + colons) == Mark(name)
    ensures ParseLine(name + colons + " " + args) == Mark(name)
  {
    hide Trim, IndexOf, TrimColons;
    var s := name + colons;
    assert colons[|colons| - 1] in colons;
    assert ' ' !in s;
    TrimManyColons(name, colons);
    TrimTrimmed(s);
    IndexAbsent(s, ' ');
    var long := s + " " + args;
    assert long[0] == name[0] && long[|long| - 1] == args[|args| - 1];
    TrimTrimmed(long);
    SplitOnceAt(s, ' ', args);
  }

  /** Whatever follows a second comma of a jump is ignored. */
  lemma JumpIgnoresRest(src: Operand, target: string, rest: string)
    requires LegalOperand(src) && LegalTarget(target)
    ensures ParseJump(ShowOperand(src) + "," + (" " + target + "," + rest)) == Code(JumpIfNotZero(src, target))
  {
    hide ParseReadable, Trim, ShowOperand;
    OperandIsWord(src);
    var w, more := ShowOperand(src), " " + target + "," + rest;
    var args := w + "," + more;
    assert args[..|w|] == w && args[|w| + 1..] == more;
    IndexUnique(args, ',', |w|);
    assert more[..|target| + 1] == " " + target;
    IndexUnique(more, ',', |target| + 1);
    TrimTrimmed(target);
    ReadableParses(src);
  }

  /** When both operands are wrong, the source's error is the one reported. */
  lemma SourceErrorFirst(dst: string, src: string)
    requires dst != "" && src != "" && Trimmed(dst) && Trimmed(src) && ',' !in dst && ParseReadable(src).Bad?
    ensures ParseDestSrc(dst + "," + (" " + src)) == Bad(InvalidReadableExpr(src))
  {
    hide Trim, SplitOnce, ParseU8, ParseRegister;
    PairTrimmed(dst, src);
    TrimTrimmed(dst + "," + (" " + src));
    TrimTrimmed(src);
    SplitOnceAt(dst, ',', " " + src);
  }
}
