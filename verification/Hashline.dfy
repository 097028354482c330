/** Line-anchored edits: `<line>#<hash>` anchors, their printer, their resolution, and the splice. */
module Hashline {
  import opened Wrappers
  import opened Decimal

  const NEWLINE := '\n'

  // ---- lines of a text ----

  /** Splitting at newlines: never empty, one part more than there are newlines. */
  function Split(text: string): (parts: seq<string>)
    ensures |parts| > 0
  {
    if text == "" then [""]
    else
      var rest := Split(text[1..]);
      if text[0] == NEWLINE then [""] + rest else [[text[0]] + rest[0]] + rest[1..]
  }

  function Join(parts: seq<string>): string
    decreases |parts|
  {
    if parts == [] then "" else if |parts| == 1 then parts[0] else parts[0] + "\n" + Join(parts[1..])
  }

  predicate EndsWithNewline(text: string) {
    text != "" && text[|text| - 1] == NEWLINE
  }

  /** The lines an editor sees: a final newline ends the last line and starts no other. */
  function Lines(text: string): seq<string> {
    var parts := Split(text);
    if parts[|parts| - 1] == "" then parts[..|parts| - 1] else parts
  }

  function Rebuild(lines: seq<string>, newlineAtEnd: bool): string {
    if newlineAtEnd then Join(lines) + "\n" else Join(lines)
  }

  ghost predicate Clean(lines: seq<string>) {
    forall i :: 0 <= i < |lines| ==> NEWLINE !in lines[i]
  }

  lemma {:induction false} JoinSplit(text: string)
    ensures Join(Split(text)) == text && Clean(Split(text))
  {
    if text != "" {
      JoinSplit(text[1..]);
      var rest := Split(text[1..]);
      assert text == [text[0]] + text[1..];
      if text[0] == NEWLINE {
        assert ([""] + rest)[1..] == rest;
      } else {
        assert ([[text[0]] + rest[0]] + rest[1..])[1..] == rest[1..];
      }
    }
  }

  lemma {:induction false} SplitLine(line: string)
    requires NEWLINE !in line
    ensures Split(line) == [line]
  {
    if line != "" {
      SplitLine(line[1..]);
      assert [line[0]] + line[1..] == line;
    }
  }

  lemma {:induction false} SplitConsLine(line: string, rest: string)
    requires NEWLINE !in line
    ensures Split(line + "\n" + rest) == [line] + Split(rest)
  {
    var text := line + "\n" + rest;
    if line == "" {
      assert text[0] == NEWLINE && text[1..] == rest;
    } else {
      assert text[0] == line[0] && text[1..] == line[1..] + "\n" + rest;
      SplitConsLine(line[1..], rest);
      assert ([line[1..]] + Split(rest))[1..] == Split(rest);
      assert [line[0]] + line[1..] == line;
    }
  }

  lemma {:induction false} SplitJoin(lines: seq<string>)
    requires lines != [] && Clean(lines)
    ensures Split(Join(lines)) == lines
    decreases |lines|
  {
    if |lines| == 1 {
      SplitLine(lines[0]);
      assert lines == [lines[0]];
    } else {
      SplitJoin(lines[1..]);
      SplitConsLine(lines[0], Join(lines[1..]));
    }
  }

  lemma {:induction false} JoinSnocEmpty(lines: seq<string>)
    requires lines != []
    ensures Join(lines + [""]) == Join(lines) + "\n"
    decreases |lines|
  {
    if |lines| == 1 {
      assert (lines + [""])[1..] == [""];
    } else {
      assert (lines + [""])[1..] == lines[1..] + [""];
      JoinSnocEmpty(lines[1..]);
    }
  }

  /** The text's two readings: all parts, and lines with the final newline apart. */
  lemma {:induction false} Readings(text: string)
    ensures Split(text) == if Lines(text) == [] || EndsWithNewline(text) then Lines(text) + [""] else Lines(text)
    ensures Clean(Lines(text)) && (Lines(text) == [] ==> text == "")
    ensures !EndsWithNewline(text) && Lines(text) != [] ==> Lines(text)[|Lines(text)| - 1] != ""
    ensures Rebuild(Lines(text), EndsWithNewline(text)) == text
  {
    var parts := Split(text);
    JoinSplit(text);
    var last := parts[|parts| - 1];
    if last == "" {
      assert parts == parts[..|parts| - 1] + [""];
      if |parts| > 1 {
        JoinSnocEmpty(parts[..|parts| - 1]);
      }
    } else {
      LastPart(parts);
    }
  }

  lemma {:induction false} LastPart(parts: seq<string>)
    requires parts != [] && Clean(parts) && parts[|parts| - 1] != ""
    ensures !EndsWithNewline(Join(parts)) && Join(parts) != ""
    decreases |parts|
  {
    if |parts| > 1 {
      LastPart(parts[1..]);
    }
  }

  // ---- anchors ----

  datatype Anchor = Anchor(hint: nat, hash: string)

  datatype Place = Start | End

  datatype EditError = InvalidAnchor(place: Place) | NotFound(place: Place) | Ambiguous(place: Place) | Inverted

  function HexDigit(n: nat): char
    requires n < 16
  {
    if n < 10 then Digit(n) else ('a' as int + (n - 10)) as char
  }

  predicate IsHexDigit(c: char) {
    '0' <= c <= '9' || 'a' <= c <= 'f'
  }

  predicate IsHash(s: string) {
    |s| == 6 && forall i :: 0 <= i < |s| ==> IsHexDigit(s[i])
  }

  function Hex(n: nat, digits: nat): (s: string)
    ensures |s| == digits && forall i :: 0 <= i < |s| ==> IsHexDigit(s[i])
  {
    if digits == 0 then "" else Hex(n / 16, digits - 1) + [HexDigit(n % 16)]
  }

  /** The six hexadecimal digits of a line's hash; `digest` stands for the first three bytes of its SHA-256. */
  function LineHash(digest: string -> nat, line: string): (h: string)
    ensures IsHash(h)
  {
    Hex(digest(line), 6)
  }

  function Print(a: Anchor): string {
    Digits(a.hint) + "#" + a.hash
  }

  function TrimStart(s: string): string {
    if s != "" && Blank([s[0]]) then TrimStart(s[1..]) else s
  }

  function TrimEnd(s: string): string {
    if s != "" && Blank([s[|s| - 1]]) then TrimEnd(s[..|s| - 1]) else s
  }

  function Trim(s: string): string {
    TrimEnd(TrimStart(s))
  }

  /** `^(\d+)#([0-9a-f]{6})$` on the trimmed text. */
  function ParseAnchor(text: string): Option<Anchor> {
    var s := Trim(text);
    if |s| >= 8 && s[|s| - 7] == '#' && AllDigits(s[..|s| - 7]) && IsHash(s[|s| - 6..])
    then Some(Anchor(Parse(s[..|s| - 7]), s[|s| - 6..]))
    else None
  }

  /** The one-based numbers of the lines with the given hash, in order. */
  function Matches(digest: string -> nat, lines: seq<string>, hash: string): seq<nat>
    decreases |lines|
  {
    if lines == [] then []
    else
      Matches(digest, lines[..|lines| - 1], hash)
      + if LineHash(digest, lines[|lines| - 1]) == hash then [|lines|] else []
  }

  function Resolve(digest: string -> nat, lines: seq<string>, text: string, place: Place): Result<nat, EditError> {
    var anchor := ParseAnchor(text);
    if anchor.None? then Err(InvalidAnchor(place))
    else
      var (hint, hash) := (anchor.value.hint, anchor.value.hash);
      if 1 <= hint <= |lines| && LineHash(digest, lines[hint - 1]) == hash then Ok(hint)
      else
        var found := Matches(digest, lines, hash);
        if |found| == 1 then Ok(found[0]) else if found == [] then Err(NotFound(place)) else Err(Ambiguous(place))
  }

  method ResolveHashlineAnchor(digest: string -> nat, lines: seq<string>, text: string, place: Place)
    returns (line: Result<nat, EditError>)
    ensures line == Resolve(digest, lines, text, place)
  {
    var anchor := ParseAnchor(text);
    if anchor.None? {
      return Err(InvalidAnchor(place));
    }
    var hint, hash := anchor.value.hint, anchor.value.hash;
    if 1 <= hint <= |lines| && LineHash(digest, lines[hint - 1]) == hash {
      return Ok(hint);
    }
    var matches: seq<nat> := [];
    for i := 0 to |lines|
      invariant matches == Matches(digest, lines[..i], hash)
    {
      assert lines[..i + 1][..i] == lines[..i];
      if LineHash(digest, lines[i]) == hash {
        matches := matches + [i + 1];
      }
    }
    assert lines[..|lines|] == lines;
    if |matches| == 1 {
      return Ok(matches[0]);
    }
    if |matches| == 0 {
      return Err(NotFound(place));
    }
    return Err(Ambiguous(place));
  }

  // ---- edits ----

  function IndexOfDash(s: string): (at: Option<nat>)
    ensures at.Some? ==> at.value < |s| && s[at.value] == '-'
  {
    if s == "" then None
    else if s[0] == '-' then Some(0)
    else
      var at := IndexOfDash(s[1..]);
      if at.Some? then Some(at.value + 1) else None
  }

  /** The start and end anchor texts of a target. */
  function Ends(target: string): (string, string) {
    var s := Trim(target);
    var dash := IndexOfDash(s);
    if dash.None? then (s, s) else (s[..dash.value], s[dash.value + 1..])
  }

  function Replacement(content: string): seq<string> {
    if content == "" then []
    else if EndsWithNewline(content) then Split(content[..|content| - 1])
    else Split(content)
  }

  function Splice(lines: seq<string>, start: nat, end: nat, replacement: seq<string>): seq<string>
    requires 1 <= start <= end <= |lines|
  {
    lines[..start - 1] + replacement + lines[end..]
  }

  datatype Edited = Edited(text: string, start: nat, end: nat)

  method SplitLines(text: string) returns (lines: seq<string>)
    ensures lines == Lines(text)
  {
    lines := Split(text);
    if lines[|lines| - 1] == "" {
      lines := lines[..|lines| - 1];
    }
  }

  method SpliceText(lines: seq<string>, newlineAtEnd: bool, start: nat, end: nat, content: string)
      returns (text: string)
    requires 1 <= start <= end <= |lines|
    ensures text == Rebuild(Splice(lines, start, end, Replacement(content)), newlineAtEnd)
  {
    var joined := Join(Splice(lines, start, end, Replacement(content)));
    text := if newlineAtEnd then joined + "\n" else joined;
  }

  method ApplyHashlineEdit(digest: string -> nat, existing: string, target: string, content: string)
    returns (edited: Result<Edited, EditError>)
    ensures edited == Apply(digest, existing, target, content)
  {
    var (startText, endText) := Ends(target);
    var hadTrailingNewline := EndsWithNewline(existing);
    var lines := SplitLines(existing);
    var start := ResolveHashlineAnchor(digest, lines, startText, Start);
    if start.Err? {
      return Err(start.error);
    }
    var end := ResolveHashlineAnchor(digest, lines, endText, End);
    if end.Err? {
      return Err(end.error);
    }
    if start.value > end.value {
      return Err(Inverted);
    }
    ResolvedLine(digest, lines, startText, Start);
    ResolvedLine(digest, lines, endText, End);
    var text := SpliceText(lines, hadTrailingNewline, start.value, end.value, content);
    return Ok(Edited(text, start.value, end.value));
  }

  function Apply(digest: string -> nat, existing: string, target: string, content: string): Result<Edited, EditError> {
    var lines := Lines(existing);
    var start := Resolve(digest, lines, Ends(target).0, Start);
    if start.Err? then Err(start.error)
    else
      var end := Resolve(digest, lines, Ends(target).1, End);
      if end.Err? then Err(end.error)
      else if start.value > end.value then Err(Inverted)
      else
        ResolvedLine(digest, lines, Ends(target).0, Start);
        ResolvedLine(digest, lines, Ends(target).1, End);
        Ok(Edited(Rebuild(Splice(lines, start.value, end.value, Replacement(content)), EndsWithNewline(existing)),
                  start.value, end.value))
  }

  function AnnotatedLine(digest: string -> nat, line: string, number: nat): string {
    Print(Anchor(number, LineHash(digest, line))) + " " + line
  }

  function AnnotateHashlines(digest: string -> nat, lines: seq<string>, firstLine: nat): string {
    Join(seq(|lines|, i requires 0 <= i < |lines| => AnnotatedLine(digest, lines[i], firstLine + i)))
  }

  // ---- resolution ----

  lemma {:induction false} MatchesHave(digest: string -> nat, lines: seq<string>, hash: string, k: nat)
    ensures k in Matches(digest, lines, hash) <==> 1 <= k <= |lines| && LineHash(digest, lines[k - 1]) == hash
    decreases |lines|
  {
    if lines != [] {
      MatchesHave(digest, lines[..|lines| - 1], hash, k);
    }
  }

  /** An anchor is never resolved to a line with another hash. */
  lemma {:induction false} ResolvedLine(digest: string -> nat, lines: seq<string>, text: string, place: Place)
    ensures var r := Resolve(digest, lines, text, place);
      r.Ok? ==> 1 <= r.value <= |lines| && LineHash(digest, lines[r.value - 1]) == ParseAnchor(text).value.hash
  {
    var r := Resolve(digest, lines, text, place);
    if r.Ok? {
      MatchesHave(digest, lines, ParseAnchor(text).value.hash, r.value);
    }
  }

  // ---- what each reading means ----

  ghost function DigitValue(c: char): nat {
    if '0' <= c <= '9' then c as int - '0' as int
    else if 'a' <= c <= 'f' then c as int - 'a' as int + 10
    else 0
  }

  /** The number a hexadecimal text stands for. */
  ghost function HexValue(s: string): nat {
    if s == "" then 0 else 16 * HexValue(s[..|s| - 1]) + DigitValue(s[|s| - 1])
  }

  ghost function PowerOf16(k: nat): (p: nat)
    ensures p > 0
  {
    if k == 0 then 1 else 16 * PowerOf16(k - 1)
  }

  lemma {:induction false} LastDigitOff(n: nat, q: nat)
    requires q > 0
    ensures 16 * (n / 16 % q) + n % 16 == n % (16 * q)
  {
    var a, r := n / 16, n / 16 % q;
    var c := a / q;
    assert a == q * c + r;
    assert n == 16 * a + n % 16;
    assert n == (16 * q) * c + (16 * r + n % 16);
    RemainderIs(n, 16 * q, c, 16 * r + n % 16);
  }

  lemma {:induction false} RemainderIs(n: nat, m: nat, c: nat, r: nat)
    requires n == m * c + r && r < m
    ensures n % m == r
  {
    assert n == m * (n / m) + n % m;
    assert m * (c - n / m) == n % m - r;
    SmallMultiple(m, c - n / m);
  }

  lemma {:induction false} SmallMultiple(m: int, k: int)
    requires -m < m * k < m
    ensures k == 0
  {
  }

  lemma {:induction false} HexIs(n: nat, digits: nat)
    ensures HexValue(Hex(n, digits)) == n % PowerOf16(digits)
    decreases digits
  {
    if digits > 0 {
      HexIs(n / 16, digits - 1);
      LastDigitOff(n, PowerOf16(digits - 1));
      assert DigitValue(HexDigit(n % 16)) == n % 16;
    }
  }

  lemma {:induction false} SameRemainderSameHex(a: nat, b: nat, digits: nat)
    requires a % PowerOf16(digits) == b % PowerOf16(digits)
    ensures Hex(a, digits) == Hex(b, digits)
    decreases digits
  {
    if digits > 0 {
      var q := PowerOf16(digits - 1);
      LastDigitOff(a, q);
      LastDigitOff(b, q);
      assert a / 16 % q == b / 16 % q && a % 16 == b % 16;
      SameRemainderSameHex(a / 16, b / 16, digits - 1);
    }
  }

  /** A line's hash spells the last three bytes of its digest, so two lines have one hash when those agree. */
  lemma {:induction false} LineHashIs(digest: string -> nat, a: string, b: string)
    ensures HexValue(LineHash(digest, a)) == digest(a) % 0x100_0000
    ensures LineHash(digest, a) == LineHash(digest, b) <==> digest(a) % 0x100_0000 == digest(b) % 0x100_0000
  {
    SixDigits();
    HexIs(digest(a), 6);
    HexIs(digest(b), 6);
    if digest(a) % 0x100_0000 == digest(b) % 0x100_0000 {
      SameRemainderSameHex(digest(a), digest(b), 6);
    }
  }

  lemma {:induction false} SixDigits()
    ensures PowerOf16(6) == 0x100_0000
  {
    assert PowerOf16(3) == 0x1000;
  }

  /** Trimming takes blanks off both ends, and all of them. */
  lemma {:induction false} TrimIs(text: string) returns (before: string, after: string)
    ensures text == before + Trim(text) + after && Blank(before) && Blank(after)
    ensures Trim(text) != "" ==> !Blank([Trim(text)[0]]) && !Blank([Trim(text)[|Trim(text)| - 1]])
  {
    before := TrimStartIs(text);
    after := TrimEndIs(TrimStart(text));
    TrimEndEnds(TrimStart(text));
    Assoc(before, Trim(text), after);
  }

  lemma {:induction false} TrimStartIs(s: string) returns (before: string)
    ensures s == before + TrimStart(s) && Blank(before)
    ensures TrimStart(s) != "" ==> !Blank([TrimStart(s)[0]])
  {
    before := "";
    if s != "" && Blank([s[0]]) {
      var more := TrimStartIs(s[1..]);
      BlankSnoc(more, s[0]);
      before := [s[0]] + more;
      assert s == [s[0]] + s[1..];
      Assoc([s[0]], more, TrimStart(s[1..]));
    }
  }

  lemma {:induction false} TrimEndIs(s: string) returns (after: string)
    ensures s == TrimEnd(s) + after && Blank(after)
  {
    after := "";
    if s != "" && Blank([s[|s| - 1]]) {
      var front, last := s[..|s| - 1], s[|s| - 1];
      var more := TrimEndIs(front);
      BlankSnoc(more, last);
      after := more + [last];
      assert s == front + [last];
      Assoc(TrimEnd(front), more, [last]);
    }
  }

  lemma {:induction false} TrimEndEnds(s: string)
    ensures TrimEnd(s) != "" ==> !Blank([TrimEnd(s)[|TrimEnd(s)| - 1]])
  {
    if s != "" && Blank([s[|s| - 1]]) {
      TrimEndEnds(s[..|s| - 1]);
    }
  }

  lemma {:induction false} BlankSnoc(s: string, c: char)
    requires Blank(s) && Blank([c])
    ensures Blank(s + [c]) && Blank([c] + s)
  {
    assert [c][0] == c;
  }

  /** An anchor is read from exactly the texts that are, blanks aside, a decimal number, `#` and a hash. */
  lemma {:induction false} ParseAnchorIff(text: string, a: Anchor)
    ensures ParseAnchor(text) == Some(a) <==>
      && IsHash(a.hash)
      && exists number :: number != "" && AllDigits(number) && Parse(number) == a.hint
                          && Trim(text) == number + "#" + a.hash
  {
    var s := Trim(text);
    if ParseAnchor(text) == Some(a) {
      var number := s[..|s| - 7];
      assert s == number + "#" + s[|s| - 6..];
      assert number != "" && AllDigits(number) && Parse(number) == a.hint;
    }
    forall number | number != "" && AllDigits(number) && s == number + "#" + a.hash && IsHash(a.hash)
      ensures s[..|s| - 7] == number && s[|s| - 7] == '#' && s[|s| - 6..] == a.hash
    {
    }
  }

  /** A target names one anchor, or two around its first dash. */
  lemma {:induction false} EndsAre(target: string)
    ensures var s, (first, second) := Trim(target), Ends(target);
      if '-' in s then s == first + "-" + second && '-' !in first else first == second == s
  {
    var s := Trim(target);
    FirstDash(s);
    if IndexOfDash(s).Some? {
      var at := IndexOfDash(s).value;
      assert s == s[..at] + [s[at]] + s[at + 1..];
    }
  }

  lemma {:induction false} FirstDash(s: string)
    ensures IndexOfDash(s).None? <==> '-' !in s
    ensures IndexOfDash(s).Some? ==> '-' !in s[..IndexOfDash(s).value]
  {
    if s != "" && s[0] != '-' {
      FirstDash(s[1..]);
      if IndexOfDash(s).Some? {
        var at := IndexOfDash(s).value;
        assert s[..at] == [s[0]] + s[1..][..at - 1];
      }
    }
  }

  /** The lines put in: none for no content, else those of the content without one final line break. */
  lemma {:induction false} ReplacementIs(content: string)
    ensures Clean(Replacement(content)) && (Replacement(content) == [] <==> content == "")
    ensures content != "" ==> Join(Replacement(content)) + (if EndsWithNewline(content) then "\n" else "") == content
  {
    JoinSplit(content);
    if content != "" {
      JoinSplit(content[..|content| - 1]);
      assert Join(Split(content)) + "" == content;
    }
  }

  /** Line `k` carries the hash. */
  ghost predicate Bears(digest: string -> nat, lines: seq<string>, hash: string, k: nat) {
    1 <= k <= |lines| && LineHash(digest, lines[k - 1]) == hash
  }

  lemma {:induction false} MatchesAscend(digest: string -> nat, lines: seq<string>, hash: string)
    ensures forall i, j :: 0 <= i < j < |Matches(digest, lines, hash)| ==>
      Matches(digest, lines, hash)[i] < Matches(digest, lines, hash)[j]
    decreases |lines|
  {
    if lines != [] {
      var earlier := lines[..|lines| - 1];
      var found := Matches(digest, earlier, hash);
      MatchesAscend(digest, earlier, hash);
      forall i | 0 <= i < |found|
        ensures found[i] < |lines|
      {
        assert found[i] in found;
        MatchesHave(digest, earlier, hash, found[i]);
      }
    }
  }

  lemma {:induction false} MatchesBear(digest: string -> nat, lines: seq<string>, hash: string)
    ensures forall k: nat :: k in Matches(digest, lines, hash) <==> Bears(digest, lines, hash, k)
  {
    forall k: nat
      ensures k in Matches(digest, lines, hash) <==> Bears(digest, lines, hash, k)
    {
      MatchesHave(digest, lines, hash, k);
    }
  }

  ghost predicate OnlyBearer(digest: string -> nat, lines: seq<string>, hash: string, k: nat) {
    Bears(digest, lines, hash, k) && forall m: nat :: Bears(digest, lines, hash, m) ==> m == k
  }

  lemma {:induction false} MatchesCount(digest: string -> nat, lines: seq<string>, hash: string)
    ensures Matches(digest, lines, hash) == [] <==> forall k: nat :: !Bears(digest, lines, hash, k)
    ensures forall k: nat :: Matches(digest, lines, hash) == [k] <==> OnlyBearer(digest, lines, hash, k)
  {
    var found := Matches(digest, lines, hash);
    MatchesBear(digest, lines, hash);
    MatchesAscend(digest, lines, hash);
    assert |found| > 1 ==> found[0] < found[1];
    if found != [] {
      assert found[0] in found;
    }
    forall k: nat | OnlyBearer(digest, lines, hash, k)
      ensures found == [k]
    {
      assert k in found;
      forall i | 0 <= i < |found|
        ensures found[i] == k
      {
        assert found[i] in found;
      }
    }
  }

  /** Which line an anchor resolves to, in any text: the hinted one when it carries the hash, else the only one that
      does; it is not found when none does, and ambiguous when several do and not the hinted one. */
  lemma {:induction false} ResolveIs(digest: string -> nat, lines: seq<string>, text: string, place: Place, hint: nat,
                                     hash: string)
    requires ParseAnchor(text) == Some(Anchor(hint, hash))
    ensures var r := Resolve(digest, lines, text, place);
      && (forall k: nat :: r == Ok(k) <==>
            if Bears(digest, lines, hash, hint) then k == hint else OnlyBearer(digest, lines, hash, k))
      && (r == Err(NotFound(place)) <==> forall k: nat :: !Bears(digest, lines, hash, k))
      && (r.Err? ==> r.error in {NotFound(place), Ambiguous(place)})
  {
    MatchesCount(digest, lines, hash);
    var found := Matches(digest, lines, hash);
    assert |found| == 1 ==> found == [found[0]];
  }

  lemma {:induction false} VisibleChars(c: char)
    requires IsHexDigit(c)
    ensures !Blank([c]) && c != '-'
  {
    assert [c][0] == c;
  }

  /** A printed anchor parses back to itself. */
  lemma {:induction false} ParsePrint(a: Anchor)
    requires IsHash(a.hash)
    ensures ParseAnchor(Print(a)) == Some(a)
  {
    var s, n := Print(a), Digits(a.hint);
    VisibleChars(n[0]);
    VisibleChars(a.hash[5]);
    assert s[..|s| - 7] == n && s[|s| - 6..] == a.hash;
    ParseDigits(a.hint);
  }

  function Range(a: Anchor, b: Anchor): string {
    Print(a) + "-" + Print(b)
  }

  lemma {:induction false} DashAfter(s: string, rest: string)
    requires '-' !in s
    ensures IndexOfDash(s) == None && IndexOfDash(s + "-" + rest) == Some(|s|)
  {
    if s != "" {
      DashAfter(s[1..], rest);
      assert (s + "-" + rest)[1..] == s[1..] + "-" + rest;
    }
  }

  lemma {:induction false} PrintHasNoDash(a: Anchor)
    requires IsHash(a.hash)
    ensures '-' !in Print(a) && Print(a) != "" && !Blank([Print(a)[0]]) && !Blank([Print(a)[|Print(a)| - 1]])
  {
    var n := Digits(a.hint);
    VisibleChars(n[0]);
    VisibleChars(a.hash[5]);
    assert forall i :: 0 <= i < |n| ==> IsDigit(n[i]);
  }

  /** A printed range splits into its two printed anchors. */
  lemma {:induction false} EndsOfRange(a: Anchor, b: Anchor)
    requires IsHash(a.hash) && IsHash(b.hash)
    ensures Ends(Range(a, b)) == (Print(a), Print(b)) && Ends(Print(a)) == (Print(a), Print(a))
  {
    var s := Range(a, b);
    PrintHasNoDash(a);
    PrintHasNoDash(b);
    DashAfter(Print(a), Print(b));
    assert s[0] == Print(a)[0] && s[|s| - 1] == Print(b)[|Print(b)| - 1];
    assert s[..|Print(a)|] == Print(a) && s[|Print(a)| + 1..] == Print(b);
  }

  /** Line `p` is the one line with this hash. */
  ghost predicate Pins(digest: string -> nat, lines: seq<string>, hash: string, p: nat) {
    && 1 <= p <= |lines| && LineHash(digest, lines[p - 1]) == hash
    && forall q :: 0 <= q < |lines| && q != p - 1 ==> LineHash(digest, lines[q]) != hash
  }

  lemma {:induction false} NoMatch(digest: string -> nat, lines: seq<string>, hash: string)
    requires forall q :: 0 <= q < |lines| ==> LineHash(digest, lines[q]) != hash
    ensures Matches(digest, lines, hash) == []
    decreases |lines|
  {
    if lines != [] {
      NoMatch(digest, lines[..|lines| - 1], hash);
    }
  }

  lemma {:induction false} UniqueMatch(digest: string -> nat, lines: seq<string>, hash: string, p: nat)
    requires Pins(digest, lines, hash, p)
    ensures Matches(digest, lines, hash) == [p]
    decreases |lines|
  {
    if p == |lines| {
      NoMatch(digest, lines[..|lines| - 1], hash);
    } else {
      UniqueMatch(digest, lines[..|lines| - 1], hash, p);
    }
  }

  /** An anchor whose hash occurs once finds its line, whatever line number it carries. */
  lemma {:induction false} PinnedAnchorResolves(digest: string -> nat, lines: seq<string>, a: Anchor, p: nat,
                                                place: Place)
    requires IsHash(a.hash) && Pins(digest, lines, a.hash, p)
    ensures Resolve(digest, lines, Print(a), place) == Ok(p)
  {
    ParsePrint(a);
    UniqueMatch(digest, lines, a.hash, p);
  }

  lemma {:induction false} AbsentAnchorFails(digest: string -> nat, lines: seq<string>, a: Anchor, place: Place)
    requires IsHash(a.hash) && forall q :: 0 <= q < |lines| ==> LineHash(digest, lines[q]) != a.hash
    ensures Resolve(digest, lines, Print(a), place) == Err(NotFound(place))
  {
    ParsePrint(a);
    NoMatch(digest, lines, a.hash);
  }

  function LineAnchor(digest: string -> nat, lines: seq<string>, p: nat): Anchor
    requires 1 <= p <= |lines|
  {
    Anchor(p, LineHash(digest, lines[p - 1]))
  }

  /** What is printed for a selection: one line for each, carrying exactly the anchor of that line and its text. */
  lemma {:induction false} AnnotationPrintsAnchors(digest: string -> nat, lines: seq<string>, firstLine: nat)
    requires lines != [] && Clean(lines)
    ensures var printed := Split(AnnotateHashlines(digest, lines, firstLine));
      && |printed| == |lines|
      && forall i :: 0 <= i < |lines| ==>
           printed[i] == Print(Anchor(firstLine + i, LineHash(digest, lines[i]))) + " " + lines[i]
  {
    var annotated := seq(|lines|, i requires 0 <= i < |lines| => AnnotatedLine(digest, lines[i], firstLine + i));
    forall i | 0 <= i < |annotated|
      ensures NEWLINE !in annotated[i]
    {
    }
    SplitJoin(annotated);
  }

  lemma {:induction false} PrintedAnchorResolves(digest: string -> nat, lines: seq<string>, p: nat, place: Place)
    requires 1 <= p <= |lines|
    ensures Resolve(digest, lines, Print(LineAnchor(digest, lines, p)), place) == Ok(p)
  {
    ParsePrint(LineAnchor(digest, lines, p));
  }

  /** On the same text, the anchors of lines i and j select exactly lines i to j. */
  lemma {:induction false} PrintedRangeSelectsItself(digest: string -> nat, text: string, i: nat, j: nat,
                                                     content: string)
    requires 1 <= i <= j <= |Lines(text)|
    ensures var lines := Lines(text);
      Apply(digest, text, Range(LineAnchor(digest, lines, i), LineAnchor(digest, lines, j)), content)
      == Ok(Edited(Rebuild(Splice(lines, i, j, Replacement(content)), EndsWithNewline(text)), i, j))
  {
    EndsOfRange(LineAnchor(digest, Lines(text), i), LineAnchor(digest, Lines(text), j));
    PrintedAnchorResolves(digest, Lines(text), i, Start);
    PrintedAnchorResolves(digest, Lines(text), j, End);
  }

  lemma {:induction false} OwnReplacement(lines: seq<string>)
    requires lines != [] && Clean(lines)
    ensures Replacement(Join(lines) + "\n") == lines
  {
    var content := Join(lines) + "\n";
    assert content[..|content| - 1] == Join(lines);
    SplitJoin(lines);
  }

  /** Replacing a range with its own newline-terminated text gives back the whole file, its end included. */
  lemma {:induction false} OwnTextIsIdentity(digest: string -> nat, text: string, i: nat, j: nat)
    requires 1 <= i <= j <= |Lines(text)|
    ensures var lines := Lines(text);
      Apply(digest, text, Range(LineAnchor(digest, lines, i), LineAnchor(digest, lines, j)),
            Join(lines[i - 1..j]) + "\n")
      == Ok(Edited(text, i, j))
  {
    var lines := Lines(text);
    Readings(text);
    PrintedRangeSelectsItself(digest, text, i, j, Join(lines[i - 1..j]) + "\n");
    OwnReplacement(lines[i - 1..j]);
    SpliceOwn(lines, i, j);
  }

  lemma {:induction false} SpliceOwn(lines: seq<string>, i: nat, j: nat)
    requires 1 <= i <= j <= |lines|
    ensures Splice(lines, i, j, lines[i - 1..j]) == lines
  {
  }

  // ---- edits elsewhere ----

  /** Where line `p` is after lines start..end have become `count` lines. */
  function Moved(p: nat, start: nat, end: nat, count: nat): nat
    requires 1 <= start <= end && (p < start || p > end)
  {
    if p < start then p else p - (end - start + 1) + count
  }

  /** After an edit elsewhere that brings no line with the same hash, the anchor still pins the same line. */
  lemma {:induction false} PinSurvivesSplice(digest: string -> nat, lines: seq<string>, hash: string, p: nat,
                                             start: nat, end: nat, replacement: seq<string>)
    requires Pins(digest, lines, hash, p) && 1 <= start <= end <= |lines| && (p < start || p > end)
    requires forall q :: 0 <= q < |replacement| ==> LineHash(digest, replacement[q]) != hash
    ensures var edited := Splice(lines, start, end, replacement); var moved := Moved(p, start, end, |replacement|);
      Pins(digest, edited, hash, moved) && edited[moved - 1] == lines[p - 1]
  {
    var edited, moved := Splice(lines, start, end, replacement), Moved(p, start, end, |replacement|);
    var shift := |replacement| - (end - start + 1);
    assert edited[moved - 1] == lines[p - 1];
    forall q | 0 <= q < |edited| && q != moved - 1
      ensures LineHash(digest, edited[q]) != hash
    {
      if q < start - 1 {
        assert edited[q] == lines[q];
      } else if q < start - 1 + |replacement| {
        assert edited[q] == replacement[q - (start - 1)];
      } else {
        assert edited[q] == lines[q - shift];
      }
    }
  }

  // ---- the end of the file ----

  lemma {:induction false} BlankLastEnds(lines: seq<string>)
    requires |lines| > 1 && lines[|lines| - 1] == ""
    ensures EndsWithNewline(Join(lines)) && Join(lines) == Join(lines[..|lines| - 1]) + "\n"
  {
    JoinSnocEmpty(lines[..|lines| - 1]);
    assert lines[..|lines| - 1] + [""] == lines;
  }

  /** How a rebuilt text is read again: a blank last line of a text without final newline becomes one. */
  lemma {:induction false} ReadBack(lines: seq<string>, newlineAtEnd: bool)
    requires lines != [] && Clean(lines)
    ensures var text := Rebuild(lines, newlineAtEnd); var blank := lines[|lines| - 1] == "";
      && Lines(text) == (if !newlineAtEnd && blank then lines[..|lines| - 1] else lines)
      && (EndsWithNewline(text) <==> newlineAtEnd || (blank && |lines| > 1))
  {
    if newlineAtEnd {
      JoinSnocEmpty(lines);
      SplitJoin(lines + [""]);
    } else {
      SplitJoin(lines);
      if lines[|lines| - 1] != "" {
        LastPart(lines);
      } else if |lines| > 1 {
        BlankLastEnds(lines);
      }
    }
  }

  lemma {:induction false} RebuiltEnd(lines: seq<string>, newlineAtEnd: bool)
    requires Clean(lines)
    ensures EndsWithNewline(Rebuild(lines, newlineAtEnd)) <==> newlineAtEnd || (|lines| > 1 && lines[|lines| - 1] == "")
  {
    if lines != [] {
      ReadBack(lines, newlineAtEnd);
    }
  }

  lemma {:induction false} ReplacementIsClean(content: string)
    ensures Clean(Replacement(content))
  {
    if content != "" {
      JoinSplit(content);
      JoinSplit(content[..|content| - 1]);
    }
  }

  lemma {:induction false} EditedText(digest: string -> nat, text: string, target: string, content: string, e: Edited)
    ensures Apply(digest, text, target, content) == Ok(e) ==>
      && 1 <= e.start <= e.end <= |Lines(text)|
      && e.text == Rebuild(Splice(Lines(text), e.start, e.end, Replacement(content)), EndsWithNewline(text))
  {
    if Apply(digest, text, target, content) == Ok(e) {
      ResolvedLine(digest, Lines(text), Ends(target).0, Start);
      ResolvedLine(digest, Lines(text), Ends(target).1, End);
    }
  }

  lemma {:induction false} RebuildKeepsNewlineIff(text: string, i: nat, j: nat, content: string)
    requires 1 <= i <= j <= |Lines(text)|
    ensures var edited := Splice(Lines(text), i, j, Replacement(content));
      EndsWithNewline(Rebuild(edited, EndsWithNewline(text))) == EndsWithNewline(text)
      <==> EndsWithNewline(text) || |edited| <= 1 || edited[|edited| - 1] != ""
  {
    CleanAfterSplice(text, i, j, content);
    RebuiltEnd(Splice(Lines(text), i, j, Replacement(content)), EndsWithNewline(text));
  }

  /** For any target that resolves: the final-newline state changes exactly when there was none and the spliced lines
      end in a blank one after another. */
  lemma {:induction false} SpliceKeepsFinalNewlineIff(digest: string -> nat, text: string, target: string,
                                                      content: string, e: Edited)
    ensures Apply(digest, text, target, content) == Ok(e) ==>
      && 1 <= e.start <= e.end <= |Lines(text)|
      && var edited := Splice(Lines(text), e.start, e.end, Replacement(content));
         (EndsWithNewline(e.text) == EndsWithNewline(text)
          <==> EndsWithNewline(text) || |edited| <= 1 || edited[|edited| - 1] != "")
  {
    EditedText(digest, text, target, content, e);
    if 1 <= e.start <= e.end <= |Lines(text)| {
      RebuildKeepsNewlineIff(text, e.start, e.end, content);
    }
  }

  lemma {:induction false} CleanAfterSplice(text: string, start: nat, end: nat, content: string)
    requires 1 <= start <= end <= |Lines(text)|
    ensures Clean(Splice(Lines(text), start, end, Replacement(content)))
  {
    Readings(text);
    ReplacementIsClean(content);
    SpliceIsClean(Lines(text), start, end, Replacement(content));
  }

  lemma {:induction false} SpliceIsClean(lines: seq<string>, start: nat, end: nat, replacement: seq<string>)
    requires 1 <= start <= end <= |lines| && Clean(lines) && Clean(replacement)
    ensures Clean(Splice(lines, start, end, replacement))
  {
  }

  /** What an edit does: it fails with its start anchor's error, else its end anchor's, else when they are the wrong way
      round; otherwise the lines from the start to the end give way to the content, and the text keeps its end. */
  lemma {:induction false} ApplyIs(digest: string -> nat, existing: string, target: string, content: string)
    ensures var lines, edited := Lines(existing), Apply(digest, existing, target, content);
      var start, end := Resolve(digest, lines, Ends(target).0, Start), Resolve(digest, lines, Ends(target).1, End);
      && (start.Err? ==> edited == Err(start.error))
      && (start.Ok? && end.Err? ==> edited == Err(end.error))
      && (start.Ok? && end.Ok? && start.value > end.value ==> edited == Err(Inverted))
      && (start.Ok? && end.Ok? && start.value <= end.value ==>
            && edited.Ok? && edited.value.start == start.value && edited.value.end == end.value
            && 1 <= start.value && end.value <= |lines|
            && edited.value.text == Join(lines[..start.value - 1] + Replacement(content) + lines[end.value..])
                                    + if EndsWithNewline(existing) then "\n" else "")
  {
    ResolvedLine(digest, Lines(existing), Ends(target).0, Start);
    ResolvedLine(digest, Lines(existing), Ends(target).1, End);
  }

  // ---- disjoint edits ----

  datatype Edit = Edit(from: Anchor, to: Anchor, content: string)

  function ApplyEdit(digest: string -> nat, text: string, e: Edit): Result<Edited, EditError> {
    Apply(digest, text, Range(e.from, e.to), e.content)
  }

  function ApplyBoth(digest: string -> nat, text: string, first: Edit, second: Edit): Result<string, EditError> {
    var once := ApplyEdit(digest, text, first);
    if once.Err? then Err(once.error)
    else
      var twice := ApplyEdit(digest, once.value.text, second);
      if twice.Err? then Err(twice.error) else Ok(twice.value.text)
  }

  /** The anchors of the edit pin lines i to j. */
  ghost predicate Selects(digest: string -> nat, lines: seq<string>, e: Edit, i: nat, j: nat) {
    IsHash(e.from.hash) && IsHash(e.to.hash) && i <= j && Pins(digest, lines, e.from.hash, i)
        && Pins(digest, lines, e.to.hash, j)
  }

  /** The edit brings no line that the other edit's anchors could mean. */
  ghost predicate Avoids(digest: string -> nat, e: Edit, other: Edit) {
    var lines := Replacement(e.content);
    forall q :: 0 <= q < |lines| ==> LineHash(digest, lines[q]) !in {other.from.hash, other.to.hash}
  }

  lemma {:induction false} SelectedEdit(digest: string -> nat, text: string, e: Edit, i: nat, j: nat)
    requires Selects(digest, Lines(text), e, i, j)
    ensures ApplyEdit(digest, text, e)
         == Ok(Edited(Rebuild(Splice(Lines(text), i, j, Replacement(e.content)), EndsWithNewline(text)), i, j))
  {
    EndsOfRange(e.from, e.to);
    PinnedAnchorResolves(digest, Lines(text), e.from, i, Start);
    PinnedAnchorResolves(digest, Lines(text), e.to, j, End);
  }

  lemma {:induction false} SelectionSurvives(digest: string -> nat, lines: seq<string>, e: Edit, i: nat, j: nat,
                                             other: Edit, start: nat, end: nat)
    requires Selects(digest, lines, e, i, j) && Avoids(digest, other, e)
    requires 1 <= start <= end <= |lines| && (j < start || i > end)
    ensures var n := |Replacement(other.content)|;
      Selects(digest, Splice(lines, start, end, Replacement(other.content)), e, Moved(i, start, end, n),
          Moved(j, start, end, n))
  {
    PinSurvivesSplice(digest, lines, e.from.hash, i, start, end, Replacement(other.content));
    PinSurvivesSplice(digest, lines, e.to.hash, j, start, end, Replacement(other.content));
  }

  lemma {:induction false} SplicesSwap(lines: seq<string>, a1: nat, b1: nat, r1: seq<string>, a2: nat, b2: nat,
                                       r2: seq<string>)
    requires 1 <= a1 <= b1 < a2 <= b2 <= |lines|
    ensures Splice(Splice(lines, a1, b1, r1), Moved(a2, a1, b1, |r1|), Moved(b2, a1, b1, |r1|), r2)
         == Splice(Splice(lines, a2, b2, r2), a1, b1, r1)
  {
    var middle := lines[b1..a2 - 1];
    var left := lines[..a1 - 1] + r1 + middle;
    assert lines[b1..] == middle + lines[a2 - 1..];
    assert Splice(lines, a1, b1, r1) == left + lines[a2 - 1..];
    assert Splice(lines, a2, b2, r2) == lines[..a2 - 1] + r2 + lines[b2..];
    assert lines[..a2 - 1] == lines[..b1] + middle;
  }

  lemma {:induction false} BothSteps(digest: string -> nat, text: string, first: Edit, second: Edit, once: Edited)
    ensures ApplyEdit(digest, text, first) == Ok(once) ==>
      ApplyBoth(digest, text, first, second)
      == (var twice := ApplyEdit(digest, once.text, second);
        if twice.Err? then Err(twice.error) else Ok(twice.value.text))
  {
  }

  /** The later edit leaves a blank last line in a text without a final newline. */
  ghost predicate LeavesBlankEnd(text: string, lines: seq<string>) {
    !EndsWithNewline(text) && lines != [] && lines[|lines| - 1] == ""
  }

  /** What one edit leaves, and how that text is read by the next. */
  lemma {:induction false} AfterEdit(digest: string -> nat, text: string, e: Edit, i: nat, j: nat, once: seq<string>)
    requires Selects(digest, Lines(text), e, i, j)
    requires once == Splice(Lines(text), i, j, Replacement(e.content)) && once != []
    ensures var mid := Rebuild(once, EndsWithNewline(text));
      && ApplyEdit(digest, text, e) == Ok(Edited(mid, i, j))
      && (EndsWithNewline(mid) <==> EndsWithNewline(text) || (once[|once| - 1] == "" && |once| > 1))
      && Lines(mid) == if LeavesBlankEnd(text, once) then once[..|once| - 1] else once
  {
    Readings(text);
    ReplacementIsClean(e.content);
    SpliceIsClean(Lines(text), i, j, Replacement(e.content));
    SelectedEdit(digest, text, e, i, j);
    ReadBack(once, EndsWithNewline(text));
  }

  lemma {:induction false} PinWithoutLast(digest: string -> nat, lines: seq<string>, a: Anchor, p: nat, place: Place)
    requires IsHash(a.hash) && Pins(digest, lines, a.hash, p)
    ensures Resolve(digest, lines[..|lines| - 1], Print(a), place)
         == if p < |lines| then Ok(p) else Err(NotFound(place))
  {
    if p < |lines| {
      PinnedAnchorResolves(digest, lines[..|lines| - 1], a, p, place);
    } else {
      AbsentAnchorFails(digest, lines[..|lines| - 1], a, place);
    }
  }

  lemma {:induction false} FoundAgain(digest: string -> nat, once: seq<string>, a: Anchor, p: nat, place: Place,
                                      dropped: bool)
    requires IsHash(a.hash) && Pins(digest, once, a.hash, p)
    ensures Resolve(digest, if dropped then once[..|once| - 1] else once, Print(a), place)
         == if dropped && p == |once| then Err(NotFound(place)) else Ok(p)
  {
    if dropped {
      PinWithoutLast(digest, once, a, p, place);
    } else {
      PinnedAnchorResolves(digest, once, a, p, place);
    }
  }

  /** "Editing a file with no final newline never adds one" has an exception: an edit of lines i to j changes the
      final-newline state exactly when there was none and it leaves a blank last line after another. */
  lemma {:induction false} FinalNewlineIsKeptIff(digest: string -> nat, text: string, e: Edit, i: nat, j: nat)
    requires Selects(digest, Lines(text), e, i, j)
    ensures var edited := Splice(Lines(text), i, j, Replacement(e.content));
      && ApplyEdit(digest, text, e).Ok?
      && (EndsWithNewline(ApplyEdit(digest, text, e).value.text) == EndsWithNewline(text)
          <==> EndsWithNewline(text) || |edited| <= 1 || edited[|edited| - 1] != "")
  {
    Readings(text);
    ReplacementIsClean(e.content);
    SpliceIsClean(Lines(text), i, j, Replacement(e.content));
    SelectedEdit(digest, text, e, i, j);
    RebuiltEnd(Splice(Lines(text), i, j, Replacement(e.content)), EndsWithNewline(text));
  }

  /** Resolution in the text an edit leaves, for a line pinned among the spliced lines. */
  lemma {:induction false} FoundAfterEdit(digest: string -> nat, text: string, e: Edit, i: nat, j: nat, a: Anchor,
                                          p: nat, place: Place, once: seq<string>)
    requires Selects(digest, Lines(text), e, i, j) && once == Splice(Lines(text), i, j, Replacement(e.content))
    requires IsHash(a.hash) && Pins(digest, once, a.hash, p)
    ensures ApplyEdit(digest, text, e).Ok?
    ensures Resolve(digest, Lines(ApplyEdit(digest, text, e).value.text), Print(a), place)
         == if LeavesBlankEnd(text, once) && p == |once| then Err(NotFound(place)) else Ok(p)
  {
    AfterEdit(digest, text, e, i, j, once);
    FoundAgain(digest, once, a, p, place, LeavesBlankEnd(text, once));
  }

  /** An anchor whose hash occurs once finds the same line after an edit elsewhere that brings no line with its hash;
      the one line that can go missing is a blank one left last in a text without a final newline. */
  lemma {:induction false} AnchorFollowsLine(digest: string -> nat, text: string, e: Edit, i: nat, j: nat, a: Anchor,
                                             p: nat, place: Place, once: seq<string>, moved: nat)
    requires Selects(digest, Lines(text), e, i, j) && once == Splice(Lines(text), i, j, Replacement(e.content))
    requires IsHash(a.hash) && Pins(digest, Lines(text), a.hash, p) && (p < i || p > j)
    requires moved == Moved(p, i, j, |Replacement(e.content)|)
    requires var lines := Replacement(e.content); forall q :: 0 <= q < |lines| ==> LineHash(digest, lines[q]) != a.hash
    ensures 1 <= moved <= |once| && once[moved - 1] == Lines(text)[p - 1]
    ensures ApplyEdit(digest, text, e).Ok?
    ensures Resolve(digest, Lines(ApplyEdit(digest, text, e).value.text), Print(a), place)
         == if LeavesBlankEnd(text, once) && moved == |once| then Err(NotFound(place)) else Ok(moved)
  {
    PinSurvivesSplice(digest, Lines(text), a.hash, p, i, j, Replacement(e.content));
    FoundAfterEdit(digest, text, e, i, j, a, moved, place, once);
  }

  lemma {:induction false} SecondEdit(digest: string -> nat, mid: string, a: Edit, a1: nat, b1: nat, lines: seq<string>)
    requires Selects(digest, lines, a, a1, b1) && Lines(mid) == lines
    ensures ApplyEdit(digest, mid, a)
         == Ok(Edited(Rebuild(Splice(lines, a1, b1, Replacement(a.content)), EndsWithNewline(mid)), a1, b1))
  {
    SelectedEdit(digest, mid, a, a1, b1);
  }

  lemma {:induction false} EarlierLeavesEnd(text: string, i: nat, j: nat, r: seq<string>)
    requires 1 <= i <= j < |Lines(text)|
    ensures var once := Splice(Lines(text), i, j, r); once != [] && !LeavesBlankEnd(text, once)
  {
    Readings(text);
  }

  /** The earlier edit first: its text is read as it was spliced, so the later edit still selects its lines. */
  lemma {:induction false} EarlierFirst(digest: string -> nat, text: string, a: Edit, a1: nat, b1: nat, b: Edit, i: nat,
                                        j: nat, once: seq<string>)
    requires Selects(digest, Lines(text), a, a1, b1) && b1 < |Lines(text)|
    requires once == Splice(Lines(text), a1, b1, Replacement(a.content)) && Selects(digest, once, b, i, j)
    ensures ApplyBoth(digest, text, a, b)
         == Ok(Rebuild(Splice(once, i, j, Replacement(b.content)), EndsWithNewline(text)))
  {
    var mid := Rebuild(once, EndsWithNewline(text));
    EarlierLeavesEnd(text, a1, b1, Replacement(a.content));
    AfterEdit(digest, text, a, a1, b1, once);
    BothSteps(digest, text, a, b, Edited(mid, a1, b1));
    SecondEdit(digest, mid, b, i, j, once);
  }

  lemma {:induction false} SpliceBeforeLast(lines: seq<string>, i: nat, j: nat, r: seq<string>)
    requires 1 <= i <= j < |lines|
    ensures var all := Splice(lines, i, j, r);
      all != [] && all[|all| - 1] == lines[|lines| - 1] && Splice(lines[..|lines| - 1], i, j, r) == all[..|all| - 1]
  {
    var all, last := Splice(lines, i, j, r), lines[|lines| - 1];
    assert lines == lines[..|lines| - 1] + [last];
    assert lines[j..] == lines[..|lines| - 1][j..] + [last];
    assert all == Splice(lines[..|lines| - 1], i, j, r) + [last];
  }

  lemma {:induction false} MissingEndFails(digest: string -> nat, text: string, e: Edit)
    requires IsHash(e.from.hash) && IsHash(e.to.hash)
    requires forall q :: 0 <= q < |Lines(text)| ==> LineHash(digest, Lines(text)[q]) != e.to.hash
    ensures ApplyEdit(digest, text, e).Err?
  {
    EndsOfRange(e.from, e.to);
    AbsentAnchorFails(digest, Lines(text), e.to, End);
  }

  /** The later edit first: the earlier one finds its lines unless the last of them was dropped. */
  lemma {:induction false} LaterFirst(digest: string -> nat, text: string, a: Edit, a1: nat, b1: nat, once: seq<string>)
    requires once != [] && Selects(digest, once, a, a1, b1)
    requires var mid := Rebuild(once, EndsWithNewline(text));
      && (EndsWithNewline(mid) <==> EndsWithNewline(text) || (once[|once| - 1] == "" && |once| > 1))
      && Lines(mid) == if LeavesBlankEnd(text, once) then once[..|once| - 1] else once
    ensures var both := Splice(once, a1, b1, Replacement(a.content));
      var last := ApplyEdit(digest, Rebuild(once, EndsWithNewline(text)), a);
      (last.Ok? && last.value.text == Rebuild(both, EndsWithNewline(text)))
      <==> !LeavesBlankEnd(text, once) || (b1 < |once| && |both| > 1)
  {
    var mid, r := Rebuild(once, EndsWithNewline(text)), Replacement(a.content);
    if !LeavesBlankEnd(text, once) {
      SecondEdit(digest, mid, a, a1, b1, once);
    } else if b1 == |once| {
      MissingEndFails(digest, mid, a);
    } else {
      SecondEdit(digest, mid, a, a1, b1, once[..|once| - 1]);
      SpliceBeforeLast(once, a1, b1, r);
      BlankEndTexts(Splice(once, a1, b1, r));
    }
  }

  /** Edits of disjoint, still uniquely anchored ranges commute, except at one place: when the later edit leaves a
      blank last line in a text without a final newline, the earlier one must neither reach it nor delete
      everything before it. */
  lemma {:induction false} DisjointEditsCommuteIff(digest: string -> nat, text: string,
                                                   a: Edit, a1: nat, b1: nat, b: Edit, a2: nat, b2: nat)
    requires Selects(digest, Lines(text), a, a1, b1) && Selects(digest, Lines(text), b, a2, b2) && b1 < a2
    requires Avoids(digest, a, b) && Avoids(digest, b, a)
    ensures var once := Splice(Lines(text), a2, b2, Replacement(b.content));
      && b1 <= |once|
      && var both := Splice(once, a1, b1, Replacement(a.content));
         (ApplyBoth(digest, text, a, b) == ApplyBoth(digest, text, b, a)
          <==> !LeavesBlankEnd(text, once) || (b1 < |once| && |both| > 1))
  {
    var lines := Lines(text);
    var once := Splice(lines, a2, b2, Replacement(b.content));
    var n := |Replacement(a.content)|;
    SelectionSurvives(digest, lines, b, a2, b2, a, a1, b1);
    EarlierFirst(digest, text, a, a1, b1, b, Moved(a2, a1, b1, n), Moved(b2, a1, b1, n), Splice(lines, a1, b1,
                 Replacement(a.content)));
    SplicesSwap(lines, a1, b1, Replacement(a.content), a2, b2, Replacement(b.content));
    SelectionSurvives(digest, lines, a, a1, b1, b, a2, b2);
    AfterEdit(digest, text, b, a2, b2, once);
    BothSteps(digest, text, b, a, Edited(Rebuild(once, EndsWithNewline(text)), a2, b2));
    LaterFirst(digest, text, a, a1, b1, once);
  }

  lemma {:induction false} BlankEndTexts(lines: seq<string>)
    requires lines != [] && lines[|lines| - 1] == ""
    ensures Rebuild(lines[..|lines| - 1], true) == Rebuild(lines, false) <==> |lines| > 1
  {
    if |lines| > 1 {
      BlankLastEnds(lines);
    } else {
      assert lines == [""] && lines[..0] == [];
    }
  }

  // ---- a text where both exceptions show ----

  function SampleDigest(line: string): nat {
    if line == "a" then 1 else if line == "b" then 2 else 3
  }

  lemma {:induction false} SampleHashes()
    ensures var a, b, other := LineHash(SampleDigest, "a"), LineHash(SampleDigest, "b"), LineHash(SampleDigest, "");
      a != b && a != other && b != other
  {
    assert LineHash(SampleDigest, "a")[5] == '1' && LineHash(SampleDigest, "b")[5] == '2'
        && LineHash(SampleDigest, "")[5] == '3';
  }

  lemma {:induction false} SampleLines()
    ensures Split("a\nb") == ["a", "b"] && Lines("a\nb") == ["a", "b"] && !EndsWithNewline("a\nb")
  {
    assert ["a", "b"][1..] == ["b"];
    assert Join(["a", "b"]) == "a\nb";
    SplitJoin(["a", "b"]);
  }

  /** Replaces line `p` of the sample text. */
  function SampleEdit(p: nat, content: string): Edit
    requires 1 <= p <= 2
  {
    var anchor := LineAnchor(SampleDigest, ["a", "b"], p);
    Edit(anchor, anchor, content)
  }

  lemma {:induction false} SampleSelects(p: nat, content: string)
    requires 1 <= p <= 2
    ensures Selects(SampleDigest, ["a", "b"], SampleEdit(p, content), p, p)
  {
    SampleHashes();
  }

  /** Replacing the last line of a text without final newline by a line break adds a final newline. */
  lemma {:induction false} BlankLineAddsFinalNewline()
    ensures ApplyEdit(SampleDigest, "a\nb", SampleEdit(2, "\n")) == Ok(Edited("a\n", 2, 2))
  {
    SampleLines();
    SampleSelects(2, "\n");
    SelectedEdit(SampleDigest, "a\nb", SampleEdit(2, "\n"), 2, 2);
    assert Splice(["a", "b"], 2, 2, [""]) == ["a", ""];
    BlankLastText();
  }

  lemma {:induction false} BlankLastText()
    ensures Rebuild(["a", ""], false) == "a\n"
  {
    assert ["a", ""][1..] == [""];
  }

  lemma {:induction false} SampleEditsAvoid()
    ensures Avoids(SampleDigest, SampleEdit(1, ""), SampleEdit(2, "\n"))
    ensures Avoids(SampleDigest, SampleEdit(2, "\n"), SampleEdit(1, ""))
  {
    SampleHashes();
  }

  /** And with the first line deleted as well, the order of the two edits shows. */
  lemma {:induction false} OrderOfEditsShows()
    ensures ApplyBoth(SampleDigest, "a\nb", SampleEdit(1, ""), SampleEdit(2, "\n"))
         != ApplyBoth(SampleDigest, "a\nb", SampleEdit(2, "\n"), SampleEdit(1, ""))
  {
    SampleLines();
    SampleSelects(1, "");
    SampleSelects(2, "\n");
    SampleEditsAvoid();
    assert Splice(["a", "b"], 2, 2, [""]) == ["a", ""];
    assert Splice(["a", ""], 1, 1, []) == [""];
    DisjointEditsCommuteIff(SampleDigest, "a\nb", SampleEdit(1, ""), 1, 1, SampleEdit(2, "\n"), 2, 2);
  }
}
