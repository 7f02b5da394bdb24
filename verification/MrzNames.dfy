/**
 The name field on line 1, and the split of a line into text and filler (web/src/lib/mrz.ts).
 */
module MrzNames {
  import opened MrzCheckDigit
  import opened MrzLayout

  const NAME_COLUMNS: nat := 38

  // ---- Splitting and joining at a filler ------------------------------------------------------

  /** JavaScript's split("<"): never empty, and the empty text splits into one empty piece. */
  function Split(s: string): (parts: seq<string>)
    ensures |parts| > 0
    decreases |s|
  {
    if s == [] then [[]]
    else
      var rest := Split(s[1..]);
      if s[0] == '<' then [[]] + rest else [[s[0]] + rest[0]] + rest[1..]
  }

  /** parts.join("<") */
  function Join(parts: seq<string>): string
  {
    if parts == [] then [] else if |parts| == 1 then parts[0] else parts[0] + ['<'] + Join(parts[1..])
  }

  /** parts.filter(Boolean) */
  function NonEmpty(parts: seq<string>): seq<string> {
    if parts == [] then [] else (if parts[0] == [] then [] else [parts[0]]) + NonEmpty(parts[1..])
  }

  predicate Alnum(s: string) {
    s != [] && forall i :: 0 <= i < |s| ==> IsAlnum(s[i])
  }

  predicate AllAlnum(parts: seq<string>) {
    forall i :: 0 <= i < |parts| ==> Alnum(parts[i])
  }

  lemma {:induction false} JoinOfSplit(s: string)
    ensures Join(Split(s)) == s
    decreases |s|
  {
    if s == [] {
    } else {
      var rest := Split(s[1..]);
      JoinOfSplit(s[1..]);
      if s[0] == '<' {
        assert Split(s)[1..] == rest;
      } else {
        assert Split(s)[1..] == rest[1..];
      }
    }
  }

  lemma {:induction false} SplitOfPiece(a: string, s: string)
    requires forall i :: 0 <= i < |a| ==> IsAlnum(a[i])
    ensures Split(a + ['<'] + s) == [a] + Split(s)
    ensures Split(a) == [a]
    decreases |a|
  {
    var whole := a + ['<'] + s;
    if a == [] {
      assert whole[1..] == s;
    } else {
      assert whole[1..] == a[1..] + ['<'] + s;
      SplitOfPiece(a[1..], s);
      assert a == [a[0]] + a[1..];
    }
  }

  lemma {:induction false} SplitOfJoin(parts: seq<string>)
    requires AllAlnum(parts) && parts != []
    ensures Split(Join(parts)) == parts
    decreases |parts|
  {
    if |parts| == 1 {
      SplitOfPiece(parts[0], []);
    } else {
      SplitOfJoin(parts[1..]);
      SplitOfPiece(parts[0], Join(parts[1..]));
    }
  }

  lemma {:induction false} PiecesAreAlnum(s: string)
    requires AllMrz(s)
    ensures forall p :: 0 <= p < |Split(s)| ==> forall i :: 0 <= i < |Split(s)[p]| ==> IsAlnum(Split(s)[p][i])
    decreases |s|
  {
    if s == [] {
    } else {
      PiecesAreAlnum(s[1..]);
    }
  }

  lemma {:induction false} FilteredAreAlnum(parts: seq<string>)
    requires forall p :: 0 <= p < |parts| ==> forall i :: 0 <= i < |parts[p]| ==> IsAlnum(parts[p][i])
    ensures AllAlnum(NonEmpty(parts))
    decreases |parts|
  {
    if parts == [] {
    } else {
      FilteredAreAlnum(parts[1..]);
    }
  }

  // ---- What sanitising leaves -------------------------------------------------------------------

  /** Every other character as a filler, place by place. */
  function Blank(s: string): (r: string)
    ensures |r| == |s| && forall i :: 0 <= i < |s| ==> r[i] == if IsAlnum(s[i]) then s[i] else '<'
  {
    seq(|s|, i requires 0 <= i < |s| => if IsAlnum(s[i]) then s[i] else '<')
  }

  /** The runs of letters and digits in a text, in order. */
  function Words(s: string): seq<string> {
    NonEmpty(Split(Blank(s)))
  }

  lemma {:induction false} FoldKeepsWords(s: string, inRun: bool)
    ensures var folded, blank := Split(FoldRuns(s, inRun)), Split(Blank(s));
            && NonEmpty(folded) == NonEmpty(blank)
            && (!inRun ==> folded[0] == blank[0] && NonEmpty(folded[1..]) == NonEmpty(blank[1..]))
    decreases |s|
  {
    if s == [] {
    } else {
      assert Blank(s)[1..] == Blank(s[1..]);
      FoldKeepsWords(s[1..], !IsAlnum(s[0]));
      if IsAlnum(s[0]) {
        assert FoldRuns(s, inRun)[1..] == FoldRuns(s[1..], false);
      } else if !inRun {
        assert FoldRuns(s, inRun)[1..] == FoldRuns(s[1..], true);
      }
    }
  }

  lemma {:induction false} TrimLeftKeepsWords(s: string)
    ensures NonEmpty(Split(TrimLeft(s))) == NonEmpty(Split(s))
    decreases |s|
  {
    if s != [] && s[0] == '<' {
      TrimLeftKeepsWords(s[1..]);
    }
  }

  lemma {:induction false} SplitEndingInFiller(s: string)
    ensures Split(s + ['<']) == Split(s) + [[]]
    decreases |s|
  {
    if s == [] {
      assert (s + ['<'])[1..] == [];
    } else {
      assert (s + ['<'])[1..] == s[1..] + ['<'];
      SplitEndingInFiller(s[1..]);
    }
  }

  lemma {:induction false} NonEmptyOfMore(parts: seq<string>, part: string)
    ensures NonEmpty(parts + [part]) == NonEmpty(parts) + if part == [] then [] else [part]
    decreases |parts|
  {
    if parts == [] {
      assert [part][1..] == [];
    } else {
      assert (parts + [part])[1..] == parts[1..] + [part];
      NonEmptyOfMore(parts[1..], part);
    }
  }

  lemma {:induction false} TrimRightKeepsWords(s: string)
    ensures NonEmpty(Split(TrimRight(s))) == NonEmpty(Split(s))
    decreases |s|
  {
    if s != [] && s[|s| - 1] == '<' {
      var shorter := s[..|s| - 1];
      assert s == shorter + ['<'];
      SplitEndingInFiller(shorter);
      NonEmptyOfMore(Split(shorter), []);
      TrimRightKeepsWords(shorter);
    }
  }

  /** Without doubled fillers or any at the ends, no piece is empty. */
  lemma {:induction false} CleanSplitsFull(s: string)
    requires NoDouble(s) && s != [] && s[|s| - 1] != '<'
    ensures forall p :: 1 <= p < |Split(s)| ==> Split(s)[p] != []
    ensures s[0] != '<' <==> Split(s)[0] != []
    decreases |s|
  {
    if |s| == 1 {
    } else {
      CleanSplitsFull(s[1..]);
    }
  }

  lemma {:induction false} NonEmptyIdle(parts: seq<string>)
    requires forall p :: 0 <= p < |parts| ==> parts[p] != []
    ensures NonEmpty(parts) == parts
    decreases |parts|
  {
    if parts == [] {
    } else {
      NonEmptyIdle(parts[1..]);
    }
  }

  lemma CleanIsItsWords(s: string)
    requires Clean(s)
    ensures Join(NonEmpty(Split(s))) == s
    ensures s != [] ==> NonEmpty(Split(s)) == Split(s)
  {
    if s != [] {
      CleanSplitsFull(s);
      NonEmptyIdle(Split(s));
      JoinOfSplit(s);
    }
  }

  /** The pieces of a sanitised text are the words of the upper-cased one. */
  lemma SanitiseKeepsWords(up: string -> string, input: string)
    ensures NonEmpty(Split(Sanitise(up, input))) == Words(up(input))
  {
    var folded := FoldRuns(up(input), false);
    FoldKeepsWords(up(input), false);
    TrimLeftKeepsWords(folded);
    TrimRightKeepsWords(TrimLeft(folded));
  }

  /** Sanitising a text leaves its words, upper-cased, in order, with one filler between them. */
  lemma SanitiseJoinsWords(up: string -> string, input: string)
    ensures Sanitise(up, input) == Join(Words(up(input)))
  {
    SanitiseIsClean(up, input);
    SanitiseKeepsWords(up, input);
    CleanIsItsWords(Sanitise(up, input));
  }

  // ---- Line 1 ---------------------------------------------------------------------------------

  /** Surname first, then the given names. */
  datatype HolderName = HolderName(family: string, given: seq<string>)

  function NameOf(up: string -> string, name: string): HolderName {
    var parts := NonEmpty(Split(Sanitise(up, name)));
    if |parts| > 1 then HolderName(parts[|parts| - 1], parts[..|parts| - 1])
    else HolderName(if parts == [] then "HOLDER" else parts[0], [])
  }

  /** The family name is the last word of the name and the given names are the others, in order. */
  lemma FamilyIsTheLastWord(up: string -> string, name: string)
    ensures var n, words := NameOf(up, name), Words(up(name));
            if words == [] then n == HolderName("HOLDER", []) else n.given + [n.family] == words
  {
    SanitiseKeepsWords(up, name);
    var words := Words(up(name));
    if |words| > 1 {
      assert words[..|words| - 1] + [words[|words| - 1]] == words;
    } else if |words| == 1 {
      assert [] + [words[0]] == words;
    }
  }

  function NameField(n: HolderName): string {
    if n.given != [] then n.family + "<<" + Join(n.given) else n.family
  }

  function LineOne(up: string -> string, name: string): string {
    Fit("AC<SUA" + NameField(NameOf(up, name)), MRZ_WIDTH)
  }

  predicate GoodName(n: HolderName) {
    Alnum(n.family) && AllAlnum(n.given)
  }

  lemma NamesAreGood(up: string -> string, name: string)
    ensures GoodName(NameOf(up, name))
  {
    var clean := Sanitise(up, name);
    SanitiseIsClean(up, name);
    PiecesAreAlnum(clean);
    FilteredAreAlnum(Split(clean));
  }

  // ---- Reading a name back ----------------------------------------------------------------------

  /** Where the first doubled filler starts, or the length if there is none. */
  function FirstDouble(s: string): (i: nat)
    ensures i <= |s|
    ensures i < |s| ==> i + 1 < |s| && s[i] == '<' && s[i + 1] == '<'
    decreases |s|
  {
    if |s| < 2 then |s|
    else if s[0] == '<' && s[1] == '<' then 0
    else 1 + FirstDouble(s[1..])
  }

  /** Split at "<<", then the rest at "<". */
  function ReadName(s: string): HolderName {
    var i := FirstDouble(s);
    if i == |s| then HolderName(s, []) else HolderName(s[..i], Split(s[i + 2..]))
  }

  function ReadLineOne(line: string): HolderName
    requires |line| >= 6
  {
    ReadName(TrimRight(line[6..]))
  }

  /** Whatever a reading makes of a text, writing it again gives the same text. */
  lemma WriteOfRead(s: string)
    ensures NameField(ReadName(s)) == s
  {
    var i := FirstDouble(s);
    if i < |s| {
      JoinOfSplit(s[i + 2..]);
      assert s == s[..i] + "<<" + s[i + 2..];
    }
  }

  lemma {:induction false} FirstDoubleAfter(a: string, s: string)
    requires forall i :: 0 <= i < |a| ==> IsAlnum(a[i])
    ensures FirstDouble(a + "<<" + s) == |a|
    ensures FirstDouble(a) == |a|
    decreases |a|
  {
    var whole := a + "<<" + s;
    if a == [] {
    } else {
      assert whole[1..] == a[1..] + "<<" + s;
      FirstDoubleAfter(a[1..], s);
    }
  }

  lemma ReadOfWrite(n: HolderName)
    requires GoodName(n)
    ensures ReadName(NameField(n)) == n
  {
    FirstDoubleAfter(n.family, Join(n.given));
    if n.given != [] {
      SplitOfJoin(n.given);
      var field := NameField(n);
      assert field[..|n.family|] == n.family;
      assert field[|n.family| + 2..] == Join(n.given);
    }
  }

  lemma {:induction false} LastOfJoin(parts: seq<string>)
    requires AllAlnum(parts) && parts != []
    ensures Join(parts) != [] && IsAlnum(Join(parts)[|Join(parts)| - 1])
    decreases |parts|
  {
    if |parts| <= 1 {
    } else {
      LastOfJoin(parts[1..]);
    }
  }

  lemma LastOfField(n: HolderName)
    requires GoodName(n)
    ensures NameField(n) != [] && IsAlnum(NameField(n)[|NameField(n)| - 1])
  {
    if n.given != [] {
      LastOfJoin(n.given);
    }
  }

  lemma {:induction false} TrimPadding(s: string, n: nat)
    requires s != [] && s[|s| - 1] != '<'
    ensures TrimRight(s + Filler(n)) == s
    decreases n
  {
    if n == 0 {
      assert s + Filler(0) == s;
    } else {
      assert (s + Filler(n))[..|s| + n - 1] == s + Filler(n - 1);
      TrimPadding(s, n - 1);
    }
  }

  lemma {:induction false} TrimShortens(s: string)
    ensures |TrimRight(s)| <= |s|
    decreases |s|
  {
    if s != [] && s[|s| - 1] == '<' {
      TrimShortens(s[..|s| - 1]);
    }
  }

  /**
   Stripping the padding from line 1 and splitting at the double filler, then at single ones, gives
   back exactly the family and given names that were written, if and only if they fit the 38
   columns the name field has.
   */
  lemma NameRoundTrip(up: string -> string, name: string)
    ensures |LineOne(up, name)| == MRZ_WIDTH
    ensures ReadLineOne(LineOne(up, name)) == NameOf(up, name) <==> |NameField(NameOf(up, name))| <= NAME_COLUMNS
  {
    var n := NameOf(up, name);
    var field, line := NameField(n), LineOne(up, name);
    NamesAreGood(up, name);
    if |field| <= NAME_COLUMNS {
      LastOfField(n);
      assert line[6..] == field + Filler(NAME_COLUMNS - |field|);
      TrimPadding(field, NAME_COLUMNS - |field|);
      ReadOfWrite(n);
    } else {
      TrimShortens(line[6..]);
      WriteOfRead(TrimRight(line[6..]));
    }
  }

  lemma LineOneStarts(up: string -> string, name: string)
    ensures LineOne(up, name)[..6] == "AC<SUA"
  {
    var whole := "AC<SUA" + NameField(NameOf(up, name));
    forall i | 0 <= i < 6 ensures LineOne(up, name)[i] == "AC<SUA"[i] {
      assert whole[i] == "AC<SUA"[i];
    }
  }

  // ---- Text and filler ----------------------------------------------------------------------

  datatype Run = Run(text: string, filler: bool)

  function Texts(runs: seq<Run>): string {
    if runs == [] then [] else Texts(runs[..|runs| - 1]) + runs[|runs| - 1].text
  }

  predicate Uniform(s: string, filler: bool) {
    forall i :: 0 <= i < |s| ==> (s[i] == '<') == filler
  }

  /** Every piece is of one kind and not empty, and neighbours are of different kinds. */
  predicate AreRuns(runs: seq<Run>) {
    && (forall i :: 0 <= i < |runs| ==> runs[i].text != [] && Uniform(runs[i].text, runs[i].filler))
    && (forall i :: 0 <= i < |runs| - 1 ==> runs[i].filler != runs[i + 1].filler)
  }

  /** `buffer` is the run being read: unlike the last finished piece, if there is one. */
  predicate Reading(parts: seq<Run>, buffer: string, filler: bool) {
    AreRuns(parts) && Uniform(buffer, filler) && (parts != [] ==> parts[|parts| - 1].filler != filler)
  }

  lemma Finish(parts: seq<Run>, buffer: string, filler: bool)
    requires Reading(parts, buffer, filler) && buffer != []
    ensures Texts(parts + [Run(buffer, filler)]) == Texts(parts) + buffer
    ensures Reading(parts + [Run(buffer, filler)], [], !filler)
  {
    assert (parts + [Run(buffer, filler)])[..|parts|] == parts;
  }

  /** The first `i` characters are read: finished pieces, then the run being read. */
  predicate ReadTo(line: string, i: nat, parts: seq<Run>, buffer: string, filler: bool) {
    && i <= |line| && Texts(parts) + buffer == line[..i]
    && Reading(parts, buffer, filler)
    && (i > 0 ==> buffer != [])
    && (i == 0 ==> parts == [] && filler == (line != [] && line[0] == '<'))
  }

  lemma SameKind(line: string, i: nat, parts: seq<Run>, buffer: string, filler: bool)
    requires i < |line| && ReadTo(line, i, parts, buffer, filler) && (line[i] == '<') == filler
    ensures ReadTo(line, i + 1, parts, buffer + [line[i]], filler)
  {
    assert Texts(parts) + (buffer + [line[i]]) == Texts(parts) + buffer + [line[i]];
  }

  lemma OtherKind(line: string, i: nat, parts: seq<Run>, buffer: string, filler: bool)
    requires i < |line| && ReadTo(line, i, parts, buffer, filler) && (line[i] == '<') != filler
    ensures buffer != []
    ensures ReadTo(line, i + 1, parts + [Run(buffer, filler)], [line[i]], !filler)
  {
    Finish(parts, buffer, filler);
  }

  /** The pieces put back together are the line, and they are its maximal runs. */
  method SplitFiller(line: string) returns (parts: seq<Run>)
    ensures Texts(parts) == line && AreRuns(parts)
  {
    parts := [];
    var buffer: string := [];
    var filler := line != [] && line[0] == '<';
    for i := 0 to |line|
      invariant ReadTo(line, i, parts, buffer, filler)
    {
      var isFiller := line[i] == '<';
      if isFiller != filler {
        OtherKind(line, i, parts, buffer, filler);
        if buffer != [] {
          parts := parts + [Run(buffer, filler)];
        }
        buffer := [];
        filler := isFiller;
      } else {
        SameKind(line, i, parts, buffer, filler);
      }
      buffer := buffer + [line[i]];
    }
    assert line[..|line|] == line;
    if buffer != [] {
      Finish(parts, buffer, filler);
      parts := parts + [Run(buffer, filler)];
    }
  }
}
