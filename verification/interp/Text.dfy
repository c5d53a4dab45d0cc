/** The string operations the parser uses, and the number format of `u8`. */
module Text {
  import opened Options

  /** `char::is_whitespace`: the Unicode property White_Space. */
  predicate IsWhite(c: char) {
    || '\U{0009}' <= c <= '\U{000D}' || c == ' ' || c == '\U{0085}' || c == '\U{00A0}' || c == '\U{1680}'
    || '\U{2000}' <= c <= '\U{200A}' || c == '\U{2028}' || c == '\U{2029}' || c == '\U{202F}'
    || c == '\U{205F}' || c == '\U{3000}'
  }

  function TrimStart(s: string): string {
    if s != "" && IsWhite(s[0]) then TrimStart(s[1..]) else s
  }

  function TrimEnd(s: string): string {
    if s != "" && IsWhite(s[|s| - 1]) then TrimEnd(s[..|s| - 1]) else s
  }

  function Trim(s: string): string {
    TrimEnd(TrimStart(s))
  }

  predicate Trimmed(s: string) {
    s != "" ==> !IsWhite(s[0]) && !IsWhite(s[|s| - 1])
  }

  lemma TrimTrimmed(s: string)
    requires Trimmed(s)
    ensures Trim(s) == s && Trim(" " + s) == s
  {
    assert (" " + s)[1..] == s;
    assert TrimStart(" " + s) == TrimStart(s) == s;
  }

  /** Where `c` first occurs, or the length. */
  function IndexOf(s: string, c: char): (i: nat)
    ensures i <= |s|
    ensures c !in s[..i]
    ensures i < |s| ==> s[i] == c
  {
    if s == "" || s[0] == c then 0
    else
      var j := IndexOf(s[1..], c);
      assert s[..j + 1] == [s[0]] + s[1..][..j];
      1 + j
  }

  lemma IndexUnique(s: string, c: char, i: nat)
    requires i < |s| && s[i] == c && c !in s[..i]
    ensures IndexOf(s, c) == i
  {
    var j := IndexOf(s, c);
    assert forall k | 0 <= k < i :: s[k] == s[..i][k];
    assert forall k | 0 <= k < j :: s[k] == s[..j][k];
  }

  lemma IndexAbsent(s: string, c: char)
    requires c !in s
    ensures IndexOf(s, c) == |s|
  {
  }

  function SplitOnce(s: string, c: char): Option<(string, string)> {
    var i := IndexOf(s, c);
    if i == |s| then None else Some((s[..i], s[i + 1..]))
  }

  lemma SplitOnceAt(a: string, c: char, b: string)
    requires c !in a
    ensures SplitOnce(a + [c] + b, c) == Some((a, b))
  {
    var s := a + [c] + b;
    assert s[..|a|] == a && s[|a| + 1..] == b;
    IndexUnique(s, c, |a|);
  }

  // ---- lines ------------------------------------------------------------------------

  function StripReturn(s: string): string {
    if s != "" && s[|s| - 1] == '\r' then s[..|s| - 1] else s
  }

  /** `str::lines`: the final line end is optional, and `\r\n` ends a line too. */
  function Lines(s: string): seq<string>
    decreases |s|
  {
    if s == "" then []
    else
      var i := IndexOf(s, '\n');
      if i == |s| then [s] else [StripReturn(s[..i])] + Lines(s[i + 1..])
  }

  function Unlines(lines: seq<string>): string {
    if lines == [] then "" else lines[0] + "\n" + Unlines(lines[1..])
  }

  lemma FirstLine(l: string, rest: string)
    requires '\n' !in l && Trimmed(l)
    ensures Lines(l + "\n" + rest) == [l] + Lines(rest)
  {
    var s := l + "\n" + rest;
    IndexUnique(s, '\n', |l|);
    hide IndexOf;
    assert s[..|l|] == l && s[|l| + 1..] == rest;
  }

  lemma {:induction false} LinesUnlines(lines: seq<string>)
    requires forall l | l in lines :: '\n' !in l && Trimmed(l)
    ensures Lines(Unlines(lines)) == lines
  {
    if lines != [] {
      hide Lines, Trimmed, IndexOf;
      assert lines[0] in lines;
      FirstLine(lines[0], Unlines(lines[1..]));
      LinesUnlines(lines[1..]);
      assert lines == [lines[0]] + lines[1..];
    }
  }

  // ---- numbers -------------------------------------------------------------------------

  predicate IsDigit(c: char) {
    '0' <= c <= '9'
  }

  function Number(s: string): nat
    requires forall c | c in s :: IsDigit(c)
  {
    if s == "" then 0
    else
      var c := s[|s| - 1];
      assert c in s && IsDigit(c);
      10 * Number(s[..|s| - 1]) + (c as int - '0' as int)
  }

  /** `str::parse::<u8>`: an optional plus sign, then at least one digit, at most 255 in value. */
  function ParseU8(s: string): Option<nat> {
    var digits := if |s| > 1 && s[0] == '+' then s[1..] else s;
    if digits != "" && (forall c | c in digits :: IsDigit(c)) && Number(digits) < 256 then Some(Number(digits))
    else None
  }

  function Digit(d: nat): (c: char)
    requires d < 10
    ensures IsDigit(c) && c as int - '0' as int == d
  {
    ('0' as int + d) as char
  }

  function ShowNumber(v: nat): (s: string)
    ensures s != "" && forall c | c in s :: IsDigit(c)
    ensures Number(s) == v
  {
    if v < 10 then [Digit(v)]
    else
      var s := ShowNumber(v / 10) + [Digit(v % 10)];
      assert s[..|s| - 1] == ShowNumber(v / 10);
      s
  }

  /** What is shown is read back. */
  lemma ParseShown(v: nat)
    requires v < 256
    ensures ParseU8(ShowNumber(v)) == Some(v)
  {
    assert ShowNumber(v)[0] in ShowNumber(v);
  }

  predicate NoSeparator(s: string) {
    forall c | c in s :: !IsWhite(c) && c != ','
  }

  lemma ShownIsWord(v: nat)
    ensures NoSeparator(ShowNumber(v)) && Trimmed(ShowNumber(v))
  {
    var s := ShowNumber(v);
    assert forall c | c in s :: IsDigit(c);
    assert s[0] in s && s[|s| - 1] in s;
  }

  lemma LettersAreNoNumbers(s: string)
    requires s != "" && s[0] == 'R'
    ensures ParseU8(s) == None
  {
    assert s[0] in s && !IsDigit(s[0]);
  }
}
