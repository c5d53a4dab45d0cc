/** The parser of stage 4, and the canonical text it undoes. */
module Parser {
  import opened Options
  import opened Machine
  import opened Text

  datatype ErrorKind =
    | UnknownCommand(text: string)
    | UnexpectedArgs(text: string)
    | InvalidReadableExpr(text: string)
    | InvalidWritableExpr(text: string)
    | EmptyLabel
    | DuplicatedLabel(text: string)

  datatype Parsed<+T> = Good(value: T) | Bad(error: ErrorKind)

  function ParseRegister(s: string): Option<Place> {
    if s != "" && s[0] == 'R' then
      match ParseU8(s[1..])
      case Some(i) => Some(Register(i))
      case None => None
    else None
  }

  function ParseReadable(input: string): Parsed<Operand> {
    var s := Trim(input);
    match ParseU8(s)
    case Some(v) => Good(Constant(v))
    case None =>
      match ParseRegister(s)
      case Some(p) => Good(At(p))
      case None => Bad(InvalidReadableExpr(s))
  }

  /** A missing `R` is reported as an invalid readable expression, as the source does. */
  function ParseWritable(input: string): Parsed<Place> {
    var s := Trim(input);
    if s == "" || s[0] != 'R' then Bad(InvalidReadableExpr(s))
    else
      match ParseRegister(s)
      case Some(p) => Good(p)
      case None => Bad(InvalidWritableExpr(s))
  }

  /** The source operand is parsed first, so its error is the one reported. */
  function ParseDestSrc(input: string): Parsed<(Place, Operand)> {
    var args := Trim(input);
    match SplitOnce(args, ',')
    case None => Bad(UnexpectedArgs(args))
    case Some((dst, src)) =>
      match ParseReadable(src)
      case Bad(e) => Bad(e)
      case Good(o) =>
        match ParseWritable(dst)
        case Bad(e) => Bad(e)
        case Good(p) => Good((p, o))
  }

  function TrimColons(s: string): string {
    if s != "" && s[|s| - 1] == ':' then TrimColons(s[..|s| - 1]) else s
  }

  /** What one line means.  `Crash`: a `JNZ` without a comma, where an `unwrap` panics. */
  datatype Line = Blank | Code(instruction: Instruction) | Mark(name: string) | Wrong(error: ErrorKind) | Crash

  function ParseJump(args: string): Line {
    var i := IndexOf(args, ',');
    match ParseReadable(args[..i])
    case Bad(e) => Wrong(e)
    case Good(src) =>
      if i == |args| then Crash
      else
        var rest := args[i + 1..];
        Code(JumpIfNotZero(src, Trim(rest[..IndexOf(rest, ',')])))
  }

  function ParseMove(args: string, make: (Place, Operand) -> Simple): Line {
    match ParseDestSrc(args)
    case Bad(e) => Wrong(e)
    case Good((dest, src)) => Code(Do(make(dest, src)))
  }

  function ParseCommand(command: string, args: string): Line {
    if command == "MOV" then ParseMove(args, (d, s) => Set(d, s))
    else if command == "ADD" then ParseMove(args, (d, s) => Add(d, s))
    else if command == "SUB" then ParseMove(args, (d, s) => Sub(d, s))
    else if command == "PRINT" then
      (match ParseReadable(args)
       case Bad(e) => Wrong(e)
       case Good(o) => Code(Do(Print(o))))
    else if command == "JNZ" then ParseJump(args)
    else if command != "" && command[|command| - 1] == ':' then
      var name := TrimColons(command);
      if name == "" then Wrong(EmptyLabel) else Mark(name)
    else Wrong(UnknownCommand(command))
  }

  function ParseLine(line: string): Line {
    var s := Trim(line);
    if s == "" then Blank
    else
      match SplitOnce(s, ' ')
      case Some((command, args)) => ParseCommand(command, args)
      case None => ParseCommand(s, "")
  }

  // ---- programs -----------------------------------------------------------------------

  datatype Result =
    | Done(program: Program)
    | Failed(line: nat, error: ErrorKind)
    | Panicked

  /** One more line, number `n`, after a program without errors. */
  function Feed(p: Program, n: nat, line: Line): Result {
    match line
    case Blank => Done(p)
    case Code(i) => Done(p.(instructions := p.instructions + [i]))
    case Mark(name) =>
      if name in p.labels then Failed(n, DuplicatedLabel(name))
      else Done(p.(labels := p.labels[name := |p.instructions|]))
    case Wrong(e) => Failed(n, e)
    case Crash => Panicked
  }

  const EMPTY := Program([], map[])

  /** The result of parsing these lines. */
  function Assemble(lines: seq<Line>): Result {
    if lines == [] then Done(EMPTY)
    else
      var n := |lines| - 1;
      match Assemble(lines[..n])
      case Done(p) => Feed(p, n, lines[n])
      case r => r
  }

  function LinesOf(input: string): seq<Line> {
    var ls := Lines(input);
    seq(|ls|, k requires 0 <= k < |ls| => ParseLine(ls[k]))
  }

  lemma AssembleStep(lines: seq<Line>, line: Line)
    ensures Assemble(lines + [line]) == match Assemble(lines) case Done(p) => Feed(p, |lines|, line) case r => r
  {
    assert (lines + [line])[..|lines|] == lines;
  }

  /** Lines after the first problem are not looked at. */
  lemma {:induction false} AssemblePrefix(lines: seq<Line>, k: nat)
    requires k <= |lines| && !Assemble(lines[..k]).Done?
    ensures Assemble(lines) == Assemble(lines[..k])
  {
    if k < |lines| {
      var n := |lines| - 1;
      assert lines[..n][..k] == lines[..k];
      AssemblePrefix(lines[..n], k);
    } else {
      assert lines[..k] == lines;
    }
  }

  method ParseProgram(input: string) returns (r: Result)
    ensures r == Assemble(LinesOf(input))
  {
    var lines := Lines(input);
    ghost var all := LinesOf(input);
    var instructions: seq<Instruction>, labels: map<string, nat> := [], map[];
    for n := 0 to |lines|
      invariant |all| == |lines|
      invariant Assemble(all[..n]) == Done(Program(instructions, labels))
    {
      hide Assemble, ParseLine;
      var line := ParseLine(lines[n]);
      AssembleStep(all[..n], line);
      assert all[..n + 1] == all[..n] + [line];
      if line.Wrong? || line.Crash? || (line.Mark? && line.name in labels) {
        AssemblePrefix(all, n + 1);
      }
      match line
      case Blank =>
      case Code(instruction) =>
        instructions := instructions + [instruction];
      case Mark(name) =>
        if name in labels {
          return Failed(n, DuplicatedLabel(name));
        }
        labels := labels[name := |instructions|];
      case Wrong(e) => return Failed(n, e);
      case Crash => return Panicked;
    }
    assert all[..|lines|] == all;
    return Done(Program(instructions, labels));
  }

  // ---- what a parsed program is ----------------------------------------------------------

  /** The instruction lines. */
  function Codes(lines: seq<Line>): seq<Instruction> {
    if lines == [] then []
    else Codes(lines[..|lines| - 1]) + match lines[|lines| - 1] case Code(i) => [i] case _ => []
  }

  /** No line is wrong, and no label is repeated. */
  predicate Clean(lines: seq<Line>) {
    && (forall k | 0 <= k < |lines| :: !lines[k].Wrong? && !lines[k].Crash?)
    && (forall j, k | 0 <= j < k < |lines| && lines[j].Mark? && lines[k].Mark? :: lines[j].name != lines[k].name)
  }

  /** The program holds the instruction lines, and each label the number of instruction lines before it. */
  ghost predicate Describes(p: Program, lines: seq<Line>) {
    && p.instructions == Codes(lines)
    && (forall name :: name in p.labels ==> exists k :: 0 <= k < |lines| && lines[k] == Mark(name))
    && (forall k | 0 <= k < |lines| && lines[k].Mark? ::
          lines[k].name in p.labels && p.labels[lines[k].name] == |Codes(lines[..k])|)
  }

  lemma {:induction false} CodesGrow(lines: seq<Line>, k: nat)
    requires k <= |lines|
    ensures |Codes(lines[..k])| <= |Codes(lines)|
  {
    if k < |lines| {
      CodesGrow(lines[..|lines| - 1], k);
      assert lines[..|lines| - 1][..k] == lines[..k];
    } else {
      assert lines[..k] == lines;
    }
  }

  lemma FeedClean(p: Program, before: seq<Line>, line: Line)
    requires Clean(before) && Describes(p, before)
    ensures Feed(p, |before|, line).Done? <==> Clean(before + [line])
  {
    var all := before + [line];
    if line.Mark? && line.name in p.labels {
      var k :| 0 <= k < |before| && before[k] == Mark(line.name);
      assert all[k].Mark? && all[|before|].Mark? && all[k].name == all[|before|].name;
    }
    if line.Wrong? || line.Crash? {
      assert all[|before|] == line;
    }
  }

  lemma FeedDescribes(p: Program, before: seq<Line>, line: Line)
    requires Describes(p, before) && Feed(p, |before|, line).Done?
    ensures Describes(Feed(p, |before|, line).program, before + [line])
  {
    hide Codes;
    var all, q := before + [line], Feed(p, |before|, line).program;
    assert all[..|before|] == before;
    CodesStep(before, line);
    forall name | name in q.labels ensures exists k :: 0 <= k < |all| && all[k] == Mark(name) {
      if name in p.labels {
        var k :| 0 <= k < |before| && before[k] == Mark(name);
        assert all[k] == Mark(name);
      } else {
        assert all[|before|] == Mark(name);
      }
    }
    forall k | 0 <= k < |all| && all[k].Mark?
      ensures all[k].name in q.labels && q.labels[all[k].name] == |Codes(all[..k])|
    {
      if k < |before| {
        assert all[..k] == before[..k] && all[k] == before[k];
      }
    }
  }

  lemma CodesStep(before: seq<Line>, line: Line)
    ensures Codes(before + [line]) == Codes(before) + match line case Code(i) => [i] case _ => []
  {
    assert (before + [line])[..|before|] == before;
  }

  /** Parsing succeeds if and only if every line is right and no label repeats; then the program is what the lines describe. */
  lemma {:induction false} AssembleMeaning(lines: seq<Line>)
    ensures Assemble(lines).Done? <==> Clean(lines)
    ensures Assemble(lines).Done? ==> Describes(Assemble(lines).program, lines)
  {
    hide Describes, Clean, Feed;
    if lines == [] {
      NoLines();
    } else {
      var before, line := lines[..|lines| - 1], lines[|lines| - 1];
      AssembleMeaning(before);
      assert lines == before + [line];
      if Assemble(before).Done? {
        FeedClean(Assemble(before).program, before, line);
        if Clean(lines) {
          FeedDescribes(Assemble(before).program, before, line);
        }
      } else {
        DirtyPrefix(before, line);
      }
    }
  }

  lemma NoLines()
    ensures Clean([]) && Describes(EMPTY, [])
  {
  }

  lemma DirtyPrefix(before: seq<Line>, line: Line)
    ensures Clean(before + [line]) ==> Clean(before)
  {
    var all := before + [line];
    assert forall k | 0 <= k < |before| :: all[k] == before[k];
  }

  /** Every label of a parsed program names an instruction or the end. */
  lemma ParsedLabelsInside(input: string)
    requires Assemble(LinesOf(input)).Done?
    ensures LabelsInside(Assemble(LinesOf(input)).program)
  {
    hide Assemble, LinesOf, Codes;
    var lines := LinesOf(input);
    AssembleMeaning(lines);
    var p := Assemble(lines).program;
    forall l | l in p.labels ensures p.labels[l] <= |p.instructions| {
      var k :| 0 <= k < |lines| && lines[k] == Mark(l);
      CodesGrow(lines, k);
    }
  }

  /** A parsed program, run from anywhere inside it, stays inside it and halts only at its end. */
  lemma ParsedRunsStayInside(input: string, s: State, fuel: nat)
    requires Assemble(LinesOf(input)).Done?
    requires var p := Assemble(LinesOf(input)).program; s.ip <= |p.instructions|
    ensures var p := Assemble(LinesOf(input)).program; var (s', o) := Run(p, s, fuel);
      s'.ip <= |p.instructions| && (o.Halted? <==> s'.ip == |p.instructions|)
  {
    hide Assemble, LinesOf, LabelsInside, Run;
    ParsedLabelsInside(input);
    RunStaysInside(Assemble(LinesOf(input)).program, s, fuel);
  }

  lemma MarkIsKnown(p: Program, lines: seq<Line>, j: nat)
    requires Describes(p, lines) && j < |lines| && lines[j].Mark?
    ensures lines[j].name in p.labels
  {
    hide Codes;
  }

  /** The first repeated label is reported, with its line number. */
  lemma RepeatRejected(lines: seq<Line>, j: nat, k: nat)
    requires j < k < |lines| && Clean(lines[..k]) && lines[k].Mark? && lines[j] == lines[k]
    ensures Assemble(lines) == Failed(k, DuplicatedLabel(lines[k].name))
  {
    hide Assemble, Clean, Describes;
    var before := lines[..k];
    AssembleMeaning(before);
    assert before[j] == lines[j];
    MarkIsKnown(Assemble(before).program, before, j);
    AssembleStep(before, lines[k]);
    assert lines[..k + 1] == before + [lines[k]];
    AssemblePrefix(lines, k + 1);
  }

  // ---- canonical text --------------------------------------------------------------------------

  predicate LegalPlace(p: Place) {
    p.Register?
  }

  predicate LegalOperand(o: Operand) {
    o.At? ==> LegalPlace(o.place)
  }

  /** A label that a line of its own can carry. */
  predicate LegalName(name: string) {
    && name != "" && !IsWhite(name[0]) && name[|name| - 1] != ':'
    && ' ' !in name && '\n' !in name
  }

  /** A label that a jump can carry. */
  predicate LegalTarget(name: string) {
    name != "" && Trimmed(name) && ',' !in name && '\n' !in name
  }

  predicate LegalInstruction(i: Instruction) {
    match i
    case Do(op) => LegalOperand(op.src) && (op.Print? || LegalPlace(op.dest))
    case JumpIfNotZero(src, target) => LegalOperand(src) && LegalTarget(target)
  }

  predicate Legal(line: Line) {
    (line.Code? && LegalInstruction(line.instruction)) || (line.Mark? && LegalName(line.name))
  }

  function ShowPlace(p: Place): string
    requires LegalPlace(p)
  {
    "R" + ShowNumber(p.index)
  }

  function ShowOperand(o: Operand): string
    requires LegalOperand(o)
  {
    match o
    case Constant(v) => ShowNumber(v)
    case At(p) => ShowPlace(p)
  }

  function ShowLine(line: Line): string
    requires Legal(line)
  {
    match line
    case Mark(name) => name + ":"
    case Code(JumpIfNotZero(src, target)) => "JNZ" + " " + (ShowOperand(src) + "," + (" " + target))
    case Code(Do(Print(src))) => "PRINT" + " " + ShowOperand(src)
    case Code(Do(Set(dest, src))) => "MOV" + " " + (ShowPlace(dest) + "," + (" " + ShowOperand(src)))
    case Code(Do(Add(dest, src))) => "ADD" + " " + (ShowPlace(dest) + "," + (" " + ShowOperand(src)))
    case Code(Do(Sub(dest, src))) => "SUB" + " " + (ShowPlace(dest) + "," + (" " + ShowOperand(src)))
  }

  /** Words hold no blank, comma or line end and are not empty. */
  predicate Word(s: string) {
    s != "" && NoSeparator(s) && Trimmed(s)
  }

  lemma PlaceIsWord(p: Place)
    requires LegalPlace(p)
    ensures Word(ShowPlace(p)) && ShowPlace(p)[0] == 'R' && ShowPlace(p)[1..] == ShowNumber(p.index)
  {
    ShownIsWord(p.index);
    var s := ShowNumber(p.index);
    assert ("R" + s)[|s|] == s[|s| - 1];
    forall c | c in "R" + s ensures !IsWhite(c) && c != ',' {
      assert c == 'R' || c in s;
    }
  }

  lemma OperandIsWord(o: Operand)
    requires LegalOperand(o)
    ensures Word(ShowOperand(o))
  {
    hide Word;
    match o
    case Constant(v) => NumberIsWord(v);
    case At(p) => PlaceIsWord(p);
  }

  lemma NumberIsWord(v: nat)
    ensures Word(ShowNumber(v))
  {
    ShownIsWord(v);
  }

  lemma RegisterParses(p: Place)
    requires LegalPlace(p)
    ensures ParseRegister(ShowPlace(p)) == Some(p)
  {
    PlaceIsWord(p);
    ParseShown(p.index);
  }

  lemma WritableParses(p: Place)
    requires LegalPlace(p)
    ensures ParseWritable(ShowPlace(p)) == Good(p)
  {
    hide ParseRegister, Trim, ParseU8, ShowPlace;
    PlaceIsWord(p);
    RegisterParses(p);
    TrimTrimmed(ShowPlace(p));
  }

  lemma ReadableParses(o: Operand)
    requires LegalOperand(o)
    ensures ParseReadable(ShowOperand(o)) == Good(o) && ParseReadable(" " + ShowOperand(o)) == Good(o)
  {
    hide ParseRegister, Trim, ParseU8, ShowPlace;
    OperandIsWord(o);
    TrimTrimmed(ShowOperand(o));
    match o
    case Constant(v) => ParseShown(v);
    case At(p) =>
      PlaceIsWord(p);
      LettersAreNoNumbers(ShowPlace(p));
      RegisterParses(p);
  }

  lemma PairTrimmed(a: string, b: string)
    requires a != "" && b != "" && Trimmed(a) && Trimmed(b)
    ensures var s := a + "," + (" " + b); Trimmed(s) && s != ""
  {
    var s := a + "," + (" " + b);
    assert s[0] == a[0] && s[|s| - 1] == b[|b| - 1];
  }

  lemma DestSrcParses(p: Place, o: Operand)
    requires LegalPlace(p) && LegalOperand(o)
    ensures ParseDestSrc(ShowPlace(p) + "," + (" " + ShowOperand(o))) == Good((p, o))
  {
    hide ParseReadable, ParseWritable, Trim, SplitOnce, ShowPlace, ShowOperand;
    PlaceIsWord(p);
    OperandIsWord(o);
    PairTrimmed(ShowPlace(p), ShowOperand(o));
    TrimTrimmed(ShowPlace(p) + "," + (" " + ShowOperand(o)));
    SplitOnceAt(ShowPlace(p), ',', " " + ShowOperand(o));
    WritableParses(p);
    ReadableParses(o);
  }

  lemma JumpParses(src: Operand, target: string)
    requires LegalOperand(src) && LegalTarget(target)
    ensures ParseJump(ShowOperand(src) + "," + (" " + target)) == Code(JumpIfNotZero(src, target))
  {
    hide ParseReadable, Trim, ShowOperand;
    OperandIsWord(src);
    var w, rest := ShowOperand(src), " " + target;
    var args := w + "," + rest;
    assert args[..|w|] == w && args[|w| + 1..] == rest;
    IndexUnique(args, ',', |w|);
    IndexAbsent(rest, ',');
    assert rest[..|rest|] == rest;
    TrimTrimmed(target);
    ReadableParses(src);
  }

  /** A command word, a space and its arguments. */
  lemma CommandParses(command: string, args: string)
    requires Word(command) && args != "" && Trimmed(args)
    ensures ParseLine(command + " " + args) == ParseCommand(command, args)
    ensures Trimmed(command + " " + args)
  {
    hide ParseCommand, Trim, SplitOnce;
    var s := command + " " + args;
    assert s[0] == command[0] && s[|s| - 1] == args[|args| - 1];
    TrimTrimmed(s);
    SplitOnceAt(command, ' ', args);
  }

  lemma KeywordsAreWords()
    ensures Word("MOV") && Word("ADD") && Word("SUB") && Word("PRINT") && Word("JNZ")
  {
  }

  lemma MoveLine(name: string, p: Place, o: Operand)
    requires name == "MOV" || name == "ADD" || name == "SUB"
    requires LegalPlace(p) && LegalOperand(o)
    ensures var args := ShowPlace(p) + "," + (" " + ShowOperand(o)); var s := name + " " + args;
      && ParseLine(s) == ParseCommand(name, args) && ParseDestSrc(args) == Good((p, o))
      && Trimmed(s) && '\n' !in s
  {
    hide ParseLine, ParseCommand, ParseDestSrc, ShowPlace, ShowOperand, Word;
    KeywordsAreWords();
    PlaceIsWord(p);
    OperandIsWord(o);
    WordParts(ShowPlace(p));
    WordParts(ShowOperand(o));
    WordParts(name);
    PairTrimmed(ShowPlace(p), ShowOperand(o));
    CommandParses(name, ShowPlace(p) + "," + (" " + ShowOperand(o)));
    DestSrcParses(p, o);
  }

  lemma WordParts(s: string)
    requires Word(s)
    ensures s != "" && Trimmed(s) && '\n' !in s
  {
  }

  lemma PrintLine(o: Operand)
    requires LegalOperand(o)
    ensures var s := "PRINT" + " " + ShowOperand(o);
      ParseLine(s) == Code(Do(Print(o))) && Trimmed(s) && '\n' !in s
  {
    hide ParseLine, ParseReadable, ShowOperand, Word;
    KeywordsAreWords();
    OperandIsWord(o);
    WordParts(ShowOperand(o));
    CommandParses("PRINT", ShowOperand(o));
    ReadableParses(o);
  }

  lemma JumpLine(src: Operand, target: string)
    requires LegalOperand(src) && LegalTarget(target)
    ensures var s := "JNZ" + " " + (ShowOperand(src) + "," + (" " + target));
      ParseLine(s) == Code(JumpIfNotZero(src, target)) && Trimmed(s) && '\n' !in s
  {
    hide ParseLine, ParseJump, ShowOperand, Word;
    KeywordsAreWords();
    OperandIsWord(src);
    WordParts(ShowOperand(src));
    PairTrimmed(ShowOperand(src), target);
    CommandParses("JNZ", ShowOperand(src) + "," + (" " + target));
    JumpParses(src, target);
  }

  lemma TrimOneColon(name: string)
    requires name != "" && name[|name| - 1] != ':'
    ensures TrimColons(name + ":") == name
  {
    assert (name + ":")[..|name|] == name;
  }

  lemma MarkLine(name: string)
    requires LegalName(name)
    ensures ParseLine(name + ":") == Mark(name) && Trimmed(name + ":") && '\n' !in name + ":"
  {
    hide Trim, TrimColons;
    var s := name + ":";
    assert s[0] == name[0] && s[|s| - 1] == ':';
    TrimTrimmed(s);
    IndexAbsent(s, ' ');
    TrimOneColon(name);
  }

  /** A canonical line is read back as what it shows. */
  lemma LineRoundTrip(line: Line)
    requires Legal(line)
    ensures ParseLine(ShowLine(line)) == line && Trimmed(ShowLine(line)) && '\n' !in ShowLine(line)
  {
    hide ParseLine, ParseDestSrc, ShowPlace, ShowOperand, Trimmed;
    match line
    case Mark(name) => MarkLine(name);
    case Code(JumpIfNotZero(src, target)) => JumpLine(src, target);
    case Code(Do(Print(src))) => PrintLine(src);
    case Code(Do(Set(dest, src))) => MoveLine("MOV", dest, src);
    case Code(Do(Add(dest, src))) => MoveLine("ADD", dest, src);
    case Code(Do(Sub(dest, src))) => MoveLine("SUB", dest, src);
  }
}
