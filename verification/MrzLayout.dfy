/**
 The two lines of a credential's machine-readable zone (web/src/lib/mrz.ts), in the TD3 layout of
 section 4.2.2 of ICAO Doc 9303 Part 4.

 `up` is JavaScript's String.prototype.toUpperCase, of which the proofs use only that it leaves a
 string of A-Z, 0-9 and '<' alone.
 */
module MrzLayout {
  import opened MrzCheckDigit

  const MRZ_WIDTH: nat := 44

  // ---- Text ---------------------------------------------------------------------------------

  /** Every run of other characters becomes one filler; `inRun` says we are inside such a run. */
  function FoldRuns(s: string, inRun: bool): string
    decreases |s|
  {
    if s == [] then []
    else if IsAlnum(s[0]) then [s[0]] + FoldRuns(s[1..], false)
    else if inRun then FoldRuns(s[1..], true)
    else ['<'] + FoldRuns(s[1..], true)
  }

  function TrimLeft(s: string): string {
    if s != [] && s[0] == '<' then TrimLeft(s[1..]) else s
  }

  function TrimRight(s: string): string {
    if s != [] && s[|s| - 1] == '<' then TrimRight(s[..|s| - 1]) else s
  }

  function Sanitise(up: string -> string, input: string): string {
    TrimRight(TrimLeft(FoldRuns(up(input), false)))
  }

  function Filler(n: nat): (s: string)
    ensures |s| == n && forall i :: 0 <= i < n ==> s[i] == '<'
  {
    seq(n, _ => '<')
  }

  function Fit(value: string, width: nat): (r: string)
    ensures |r| == width
    ensures AllMrz(value) ==> AllMrz(r)
    ensures forall i :: 0 <= i < width ==> r[i] == if i < |value| then value[i] else '<'
  {
    if |value| >= width then value[..width] else value + Filler(width - |value|)
  }

  predicate NoDouble(s: string) {
    forall i :: 0 <= i < |s| - 1 ==> !(s[i] == '<' && s[i + 1] == '<')
  }

  /** No filler at either end and none doubled. */
  predicate Clean(s: string) {
    AllMrz(s) && NoDouble(s) && (s != [] ==> s[0] != '<' && s[|s| - 1] != '<')
  }

  lemma {:induction false} FoldRunsIsSingle(s: string, inRun: bool)
    ensures var r := FoldRuns(s, inRun);
            AllMrz(r) && NoDouble(r) && (inRun && r != [] ==> r[0] != '<')
    decreases |s|
  {
    if s == [] {
    } else {
      FoldRunsIsSingle(s[1..], !IsAlnum(s[0]));
    }
  }

  lemma {:induction false} TrimLeftKeeps(s: string)
    requires AllMrz(s) && NoDouble(s)
    ensures var r := TrimLeft(s); AllMrz(r) && NoDouble(r) && (r != [] ==> r[0] != '<')
    decreases |s|
  {
    if s != [] && s[0] == '<' {
      TrimLeftKeeps(s[1..]);
    }
  }

  lemma {:induction false} TrimRightKeeps(s: string)
    requires AllMrz(s) && NoDouble(s) && (s != [] ==> s[0] != '<')
    ensures Clean(TrimRight(s))
    decreases |s|
  {
    if s != [] && s[|s| - 1] == '<' {
      TrimRightKeeps(s[..|s| - 1]);
    }
  }

  lemma SanitiseIsClean(up: string -> string, input: string)
    ensures Clean(Sanitise(up, input))
  {
    var folded := FoldRuns(up(input), false);
    FoldRunsIsSingle(up(input), false);
    TrimLeftKeeps(folded);
    TrimRightKeeps(TrimLeft(folded));
  }

  lemma {:induction false} FoldRunsIdle(s: string, inRun: bool)
    requires AllMrz(s) && NoDouble(s) && (inRun && s != [] ==> s[0] != '<')
    ensures FoldRuns(s, inRun) == s
    decreases |s|
  {
    if s == [] {
    } else {
      FoldRunsIdle(s[1..], !IsAlnum(s[0]));
    }
  }

  /** Sanitising twice is sanitising once, and once leaves no filler at the ends and none doubled. */
  lemma SanitiseIdempotent(up: string -> string, input: string)
    requires forall s :: AllMrz(s) ==> up(s) == s
    ensures Sanitise(up, Sanitise(up, input)) == Sanitise(up, input)
    ensures Clean(Sanitise(up, input))
  {
    SanitiseIsClean(up, input);
    FoldRunsIdle(Sanitise(up, input), false);
  }

  // ---- Dates --------------------------------------------------------------------------------

  /** A UTC calendar date, as the Date object reports it. */
  datatype Day = Day(year: int, month: int, day: int)
  {
    predicate Valid() {
      1 <= month <= 12 && 1 <= day <= 31
    }
  }

  /** String(n).padStart(2, "0") for a number of at most two digits. */
  function TwoDigits(n: int): string
    requires -100 < n < 100
  {
    if n >= 0 then [DigitChar(n / 10), DigitChar(n % 10)]
    else if n > -10 then ['-', DigitChar(-n)]
    else ['-', DigitChar(-n / 10), DigitChar(-n % 10)]
  }

  /** JavaScript's `%` takes the sign of the dividend. */
  function YearOfCentury(year: int): (r: int)
    ensures -100 < r < 100
  {
    if year >= 0 then year % 100 else -((-year) % 100)
  }

  function MrzDate(d: Day): string
    requires d.Valid()
  {
    TwoDigits(YearOfCentury(d.year)) + TwoDigits(d.month) + TwoDigits(d.day)
  }

  predicate SixDigits(s: string) {
    |s| == 6 && forall i :: 0 <= i < 6 ==> IsDigit(s[i])
  }

  /** A date takes the six digits its field expects unless its year is negative and not a round century. */
  lemma SixDigitsExactly(d: Day)
    requires d.Valid()
    ensures SixDigits(MrzDate(d)) <==> d.year >= 0 || (-d.year) % 100 == 0
  {
    var s := MrzDate(d);
    if d.year < 0 && (-d.year) % 100 != 0 {
      assert s[0] == '-';
    }
  }

  /** The number two digits show. */
  function Shown(s: string): int
    requires |s| == 2
  {
    10 * (s[0] as int - 48) + (s[1] as int - 48)
  }

  /** The date field shows year within its century, month and day, in that order. */
  lemma DateShowsItself(d: Day)
    requires d.Valid() && SixDigits(MrzDate(d))
    ensures var s := MrzDate(d);
            && Shown(s[0..2]) == d.year % 100
            && Shown(s[2..4]) == d.month
            && Shown(s[4..6]) == d.day
  {
    SixDigitsExactly(d);
    if d.year < 0 {
      RoundCentury(-d.year);
    }
    var s := MrzDate(d);
    assert s[0..2] == TwoDigits(YearOfCentury(d.year)) && s[2..4] == TwoDigits(d.month) && s[4..6] == TwoDigits(d.day);
  }

  lemma RoundCentury(n: int)
    requires n % 100 == 0
    ensures -n % 100 == 0
  {
    var q := n / 100;
    assert -n == 100 * -q;
  }

  // ---- Line 2 ---------------------------------------------------------------------------------

  datatype Subject = Subject(
    name: string,
    email: string,
    userId: string,
    role: string,        // lower-cased already
    sessionId: string,
    issued: Day,
    expires: Day)

  function StripPrefix(s: string, prefix: string): string {
    if prefix <= s then s[|prefix|..] else s
  }

  function RoleCode(role: string): string {
    if role == "user" then "USR" else if role == "admin" then "ADM" else "GEN"
  }

  function IdField(up: string -> string, subject: Subject): string {
    Fit(StripPrefix(Sanitise(up, subject.userId), "USR<"), 9)
  }

  function OptionalField(up: string -> string, subject: Subject): string {
    Fit(StripPrefix(Sanitise(up, subject.sessionId), "SES<"), 14)
  }

  function HolderMark(subject: Subject): string {
    if '@' in subject.email then "H" else "<"
  }

  function LineTwo(up: string -> string, subject: Subject): string
    requires subject.issued.Valid() && subject.expires.Valid()
  {
    var idField := IdField(up, subject);
    var role := Fit(RoleCode(subject.role), 3);
    var issued, expires := MrzDate(subject.issued), MrzDate(subject.expires);
    var optional := OptionalField(up, subject);
    var composite := idField + [CheckDigitOf(idField)] + issued + [CheckDigitOf(issued)]
                     + expires + [CheckDigitOf(expires)] + optional + [CheckDigitOf(optional)];
    Fit(idField + [CheckDigitOf(idField)] + role + issued + [CheckDigitOf(issued)] + HolderMark(subject)
        + expires + [CheckDigitOf(expires)] + optional + [CheckDigitOf(optional)] + [CheckDigitOf(composite)],
        MRZ_WIDTH)
  }

  lemma FieldsAreMrz(up: string -> string, subject: Subject)
    ensures AllMrz(IdField(up, subject)) && AllMrz(OptionalField(up, subject))
  {
    SanitiseIsClean(up, subject.userId);
    SanitiseIsClean(up, subject.sessionId);
  }

  /** Nine fields and their digits laid end to end come back when cut at the TD3 columns. */
  lemma Columns(a: string, ac: char, role: string, b: string, bc: char, mark: string,
                c: string, cc: char, o: string, oc: char, z: char)
    requires |a| == 9 && |role| == 3 && |b| == 6 && |mark| == 1 && |c| == 6 && |o| == 14
    ensures var line := a + [ac] + role + b + [bc] + mark + c + [cc] + o + [oc] + [z];
            && |line| == 44
            && line[0..9] == a && line[9] == ac && line[10..13] == role
            && line[13..19] == b && line[19] == bc && line[20..21] == mark
            && line[21..27] == c && line[27] == cc
            && line[28..42] == o && line[42] == oc && line[43] == z
            && line[0..10] + line[13..20] + line[21..43] == a + [ac] + b + [bc] + c + [cc] + o + [oc]
  {
    var line := a + [ac] + role + b + [bc] + mark + c + [cc] + o + [oc] + [z];
    assert line[0..10] == a + [ac];
    assert line[13..20] == b + [bc];
    assert line[21..43] == c + [cc] + o + [oc];
  }

  lemma ColumnsAreMrz(a: string, ac: char, role: string, b: string, bc: char, mark: string,
                      c: string, cc: char, o: string, oc: char, z: char)
    requires AllMrz(a) && AllMrz(role) && AllMrz(b) && AllMrz(mark) && AllMrz(c) && AllMrz(o)
    requires IsMrz(ac) && IsMrz(bc) && IsMrz(cc) && IsMrz(oc) && IsMrz(z)
    ensures AllMrz(a + [ac] + role + b + [bc] + mark + c + [cc] + o + [oc] + [z])
  {
    assert AllMrz(a + [ac] + role);
    assert AllMrz(a + [ac] + role + b + [bc]);
    assert AllMrz(a + [ac] + role + b + [bc] + mark + c + [cc]);
  }

  /** Line 2 is its fields end to end: they fill the width exactly, so nothing is padded or cut. */
  lemma LineTwoIsItsFields(up: string -> string, subject: Subject)
    requires subject.issued.Valid() && subject.expires.Valid()
    requires SixDigits(MrzDate(subject.issued)) && SixDigits(MrzDate(subject.expires))
    ensures var a, b := IdField(up, subject), MrzDate(subject.issued);
            var c, o := MrzDate(subject.expires), OptionalField(up, subject);
            var composite :=
              a + [CheckDigitOf(a)] + b + [CheckDigitOf(b)] + c + [CheckDigitOf(c)] + o + [CheckDigitOf(o)];
            LineTwo(up, subject)
            == a + [CheckDigitOf(a)] + RoleCode(subject.role) + b + [CheckDigitOf(b)] + HolderMark(subject)
               + c + [CheckDigitOf(c)] + o + [CheckDigitOf(o)] + [CheckDigitOf(composite)]
  {
    assert Fit(RoleCode(subject.role), 3) == RoleCode(subject.role);
  }

  /**
   Line 2 of any subject with six-digit dates: 44 characters of the machine-readable alphabet;
   cutting it at the TD3 columns gives back every field; each field's digit verifies, and the last
   digit verifies over columns 1-10, 14-20 and 22-43.
   */
  lemma LineTwoRoundTrip(up: string -> string, subject: Subject)
    requires subject.issued.Valid() && subject.expires.Valid()
    requires SixDigits(MrzDate(subject.issued)) && SixDigits(MrzDate(subject.expires))
    ensures var line := LineTwo(up, subject);
            && |line| == MRZ_WIDTH && AllMrz(line)
            && line[0..9] == IdField(up, subject)
            && line[10..13] == RoleCode(subject.role)
            && (line[10..13] == "USR" <==> subject.role == "user")
            && (line[10..13] == "ADM" <==> subject.role == "admin")
            && (line[10..13] == "GEN" <==> subject.role != "user" && subject.role != "admin")
            && line[13..19] == MrzDate(subject.issued)
            && line[20] == (if '@' in subject.email then 'H' else '<')
            && Shown(line[13..19][0..2]) == subject.issued.year % 100
            && Shown(line[13..19][2..4]) == subject.issued.month && Shown(line[13..19][4..6]) == subject.issued.day
            && Shown(line[21..27][0..2]) == subject.expires.year % 100
            && Shown(line[21..27][2..4]) == subject.expires.month && Shown(line[21..27][4..6]) == subject.expires.day
            && line[21..27] == MrzDate(subject.expires)
            && line[28..42] == OptionalField(up, subject)
            && CheckDigitOf(line[0..9]) == line[9]
            && CheckDigitOf(line[13..19]) == line[19]
            && CheckDigitOf(line[21..27]) == line[27]
            && CheckDigitOf(line[28..42]) == line[42]
            && CheckDigitOf(line[0..10] + line[13..20] + line[21..43]) == line[43]
  {
    var a, role, b := IdField(up, subject), RoleCode(subject.role), MrzDate(subject.issued);
    var c, o, mark := MrzDate(subject.expires), OptionalField(up, subject), HolderMark(subject);
    var ac, bc, cc, oc := CheckDigitOf(a), CheckDigitOf(b), CheckDigitOf(c), CheckDigitOf(o);
    var z := CheckDigitOf(a + [ac] + b + [bc] + c + [cc] + o + [oc]);
    LineTwoIsItsFields(up, subject);
    Columns(a, ac, role, b, bc, mark, c, cc, o, oc, z);
    FieldsAreMrz(up, subject);
    ColumnsAreMrz(a, ac, role, b, bc, mark, c, cc, o, oc, z);
    var line := LineTwo(up, subject);
    assert line[20] == line[20..21][0];
    DateShowsItself(subject.issued);
    DateShowsItself(subject.expires);
  }

  /** The id fields hold the sanitised ids without their prefixes, cut or filled up on the right. */
  lemma IdsWithoutPrefix(up: string -> string, subject: Subject, i: nat)
    ensures var id := Sanitise(up, subject.userId);
            var rest := if |id| >= 4 && id[..4] == "USR<" then id[4..] else id;
            i < 9 ==> IdField(up, subject)[i] == if i < |rest| then rest[i] else '<'
    ensures var id := Sanitise(up, subject.sessionId);
            var rest := if |id| >= 4 && id[..4] == "SES<" then id[4..] else id;
            i < 14 ==> OptionalField(up, subject)[i] == if i < |rest| then rest[i] else '<'
  {
  }
}
