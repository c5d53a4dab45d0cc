/** Printing a program in canonical text and parsing it gives the program back. */
module RoundTrip {
  import opened Machine
  import opened Text
  import opened Parser

  /** The text of a list of instruction and label lines. */
  function Show(lines: seq<Line>): string
    requires forall l | l in lines :: Legal(l)
  {
    Unlines(seq(|lines|, k requires 0 <= k < |lines| => ShowLine(lines[k])))
  }

  lemma ShowReads(lines: seq<Line>)
    requires forall l | l in lines :: Legal(l)
    ensures LinesOf(Show(lines)) == lines
  {
    hide ShowLine, ParseLine, Legal, Trimmed, Unlines, Lines;
    var texts := seq(|lines|, k requires 0 <= k < |lines| => ShowLine(lines[k]));
    forall k | 0 <= k < |lines| ensures ParseLine(texts[k]) == lines[k] && Trimmed(texts[k]) && '\n' !in texts[k] {
      assert lines[k] in lines;
      LineRoundTrip(lines[k]);
    }
    LinesUnlines(texts);
  }

  /**
   Parsing canonical text gives exactly the instructions shown, and each label the number
   of instructions before its line, if and only if no label is shown twice.
   */
  lemma ShownLinesParse(lines: seq<Line>)
    requires forall l | l in lines :: Legal(l)
    ensures Assemble(LinesOf(Show(lines))).Done? <==> Clean(lines)
    ensures Clean(lines) ==> Describes(Assemble(LinesOf(Show(lines))).program, lines)
  {
    hide Show, LinesOf, Assemble, Legal, Describes, Clean;
    ShowReads(lines);
    AssembleMeaning(lines);
  }

  // ---- from a program to its lines ---------------------------------------------------------

  predicate LegalProgram(p: Program) {
    && (forall i | i in p.instructions :: LegalInstruction(i))
    && (forall l | l in p.labels :: LegalName(l) && p.labels[l] <= |p.instructions|)
  }

  /** The labels that name instruction `i`, in some order. */
  ghost function NamesOf(names: set<string>): (order: seq<string>)
    ensures forall n :: n in order <==> n in names
    ensures forall j, k | 0 <= j < k < |order| :: order[j] != order[k]
  {
    if names == {} then []
    else
      var n :| n in names;
      [n] + NamesOf(names - {n})
  }

  ghost function NamesAt(labels: map<string, nat>, i: nat): set<string> {
    set l | l in labels && labels[l] == i
  }

  function Marks(names: seq<string>): seq<Line> {
    seq(|names|, k requires 0 <= k < |names| => Mark(names[k]))
  }

  /** The lines before instruction `i`: labels stand before the instruction they name. */
  ghost function LinesBefore(p: Program, i: nat): seq<Line>
    requires i <= |p.instructions|
  {
    if i == 0 then []
    else LinesBefore(p, i - 1) + Marks(NamesOf(NamesAt(p.labels, i - 1))) + [Code(p.instructions[i - 1])]
  }

  ghost function Listing(p: Program): seq<Line> {
    LinesBefore(p, |p.instructions|) + Marks(NamesOf(NamesAt(p.labels, |p.instructions|)))
  }

  ghost function Below(labels: map<string, nat>, i: nat): map<string, nat> {
    map l | l in labels && labels[l] < i :: labels[l]
  }

  /** Label lines add their names at the current position. */
  lemma {:induction false} MarksAssemble(before: seq<Line>, p: Program, names: seq<string>, more: map<string, nat>)
    requires Assemble(before) == Done(p)
    requires forall n | n in names :: n !in p.labels
    requires forall j, k | 0 <= j < k < |names| :: names[j] != names[k]
    requires forall n :: n in more <==> n in p.labels || n in names
    requires forall n | n in more :: more[n] == if n in p.labels then p.labels[n] else |p.instructions|
    ensures Assemble(before + Marks(names)) == Done(p.(labels := more))
    decreases |names|
  {
    hide Assemble;
    if names == [] {
      assert before + Marks(names) == before;
      assert more == p.labels;
    } else {
      var n, rest := names[0], names[1..];
      AssembleStep(before, Mark(n));
      var q := p.(labels := p.labels[n := |p.instructions|]);
      assert before + Marks(names) == (before + [Mark(n)]) + Marks(rest);
      MarksAssemble(before + [Mark(n)], q, rest, more);
    }
  }

  lemma MarksReach(p: Program, before: seq<Line>, i: nat)
    requires i <= |p.instructions|
    requires Assemble(before) == Done(Program(p.instructions[..i], Below(p.labels, i)))
    ensures Assemble(before + Marks(NamesOf(NamesAt(p.labels, i))))
         == Done(Program(p.instructions[..i], Below(p.labels, i + 1)))
  {
    hide Assemble, NamesOf, Marks;
    var order := NamesOf(NamesAt(p.labels, i));
    NamesListed(NamesAt(p.labels, i));
    MarksAssemble(before, Program(p.instructions[..i], Below(p.labels, i)), order, Below(p.labels, i + 1));
  }

  lemma NamesListed(names: set<string>)
    ensures var order := NamesOf(names);
      && (forall n :: n in order <==> n in names)
      && (forall j, k | 0 <= j < k < |order| :: order[j] != order[k])
  {
  }

  lemma {:induction false} LinesBeforeAssemble(p: Program, i: nat)
    requires i <= |p.instructions|
    ensures Assemble(LinesBefore(p, i)) == Done(Program(p.instructions[..i], Below(p.labels, i)))
    decreases i
  {
    hide NamesOf, Marks, NamesAt;
    if i == 0 {
      assert Below(p.labels, 0) == map[];
      assert Program(p.instructions[..0], Below(p.labels, 0)) == EMPTY;
    } else {
      LinesBeforeAssemble(p, i - 1);
      hide Assemble, Below;
      MarksReach(p, LinesBefore(p, i - 1), i - 1);
      var lines := LinesBefore(p, i - 1) + Marks(NamesOf(NamesAt(p.labels, i - 1)));
      AssembleStep(lines, Code(p.instructions[i - 1]));
      assert p.instructions[..i] == p.instructions[..i - 1] + [p.instructions[i - 1]];
    }
  }

  lemma ListingAssembles(p: Program)
    requires forall l | l in p.labels :: p.labels[l] <= |p.instructions|
    ensures Assemble(Listing(p)) == Done(p)
  {
    hide Assemble, NamesOf, Marks, NamesAt, LinesBefore;
    var n := |p.instructions|;
    LinesBeforeAssemble(p, n);
    MarksReach(p, LinesBefore(p, n), n);
    assert p.instructions[..n] == p.instructions;
    assert Below(p.labels, n + 1) == p.labels;
  }

  lemma MarksLegal(names: seq<string>)
    requires forall n | n in names :: LegalName(n)
    ensures forall l | l in Marks(names) :: Legal(l)
  {
    hide LegalName;
  }

  lemma {:induction false} LinesBeforeLegal(p: Program, i: nat)
    requires LegalProgram(p) && i <= |p.instructions|
    ensures forall l | l in LinesBefore(p, i) :: Legal(l)
    decreases i
  {
    hide NamesOf, Marks, LegalName, LegalInstruction;
    if i > 0 {
      LinesBeforeLegal(p, i - 1);
      var names := NamesOf(NamesAt(p.labels, i - 1));
      NamesListed(NamesAt(p.labels, i - 1));
      MarksLegal(names);
      assert p.instructions[i - 1] in p.instructions;
    }
  }

  lemma ListingLegal(p: Program)
    requires LegalProgram(p)
    ensures forall l | l in Listing(p) :: Legal(l)
  {
    hide NamesOf, Marks, LegalName, LegalInstruction, LinesBefore, Legal;
    var n := |p.instructions|;
    LinesBeforeLegal(p, n);
    NamesListed(NamesAt(p.labels, n));
    MarksLegal(NamesOf(NamesAt(p.labels, n)));
  }

  /** Canonical text. */
  ghost function Print(p: Program): string
    requires LegalProgram(p)
  {
    ListingLegal(p);
    Show(Listing(p))
  }

  /** Parsing undoes printing: the same instructions and the same labels. */
  lemma ParsePrint(p: Program)
    requires LegalProgram(p)
    ensures Assemble(LinesOf(Print(p))) == Done(p)
  {
    hide Assemble, LinesOf, Listing, Show, Legal;
    ListingLegal(p);
    ShowReads(Listing(p));
    ListingAssembles(p);
  }
}
