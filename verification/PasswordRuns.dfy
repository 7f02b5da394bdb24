/**
 The two run detectors of the password policy (server/src/lib/password.ts): one pass each, with
 running counters, proved to find exactly the windows they are meant to find.

 Like the code they work on UTF-16 code units. The last section says what that makes of windows of
 whole characters.
 */
module PasswordRuns {
  import opened Utf16

  /** Inside s[lo..hi] each code is the one before it plus `delta`. */
  ghost predicate StepsBy(s: seq<int>, lo: nat, hi: nat, delta: int) {
    hi <= |s| && forall i :: lo < i < hi ==> s[i] == s[i - 1] + delta
  }

  ghost predicate Window(s: seq<int>, k: nat, length: nat, delta: int) {
    StepsBy(s, k, k + length, delta)
  }

  ghost predicate HasWindow(s: seq<int>, length: nat, delta: int) {
    exists k: nat :: Window(s, k, length, delta)
  }

  /** `run` is the length of the longest stretch with that step ending just before `i`. */
  ghost predicate LongestEndingAt(s: seq<int>, i: nat, run: nat, delta: int)
    requires 0 < i <= |s|
  {
    && 1 <= run <= i
    && StepsBy(s, i - run, i, delta)
    && (run < i ==> s[i - run] != s[i - run - 1] + delta)
  }

  ghost predicate NoWindowBefore(s: seq<int>, i: nat, length: nat, delta: int) {
    forall k: nat :: k + length <= i ==> !Window(s, k, length, delta)
  }

  lemma ExtendRun(s: seq<int>, i: nat, run: nat, delta: int) returns (run': nat)
    requires 0 < i < |s| && LongestEndingAt(s, i, run, delta)
    ensures run' == if s[i] == s[i - 1] + delta then run + 1 else 1
    ensures LongestEndingAt(s, i + 1, run', delta)
  {
    run' := if s[i] == s[i - 1] + delta then run + 1 else 1;
  }

  /** With the longest run too short, no window ends here either. */
  lemma NoneEndsHere(s: seq<int>, i: nat, run: nat, length: nat, delta: int)
    requires 0 < i <= |s| && LongestEndingAt(s, i, run, delta) && run < length
    requires i > 1 ==> NoWindowBefore(s, i - 1, length, delta)
    requires length >= 2
    ensures NoWindowBefore(s, i, length, delta)
  {
    forall k: nat | k + length <= i ensures !Window(s, k, length, delta) {
      // The run broke at i - run, strictly inside any window this long.
      assert k + length == i ==> k < i - run < i;
    }
  }

  lemma FoundHere(s: seq<int>, i: nat, run: nat, length: nat, delta: int)
    requires 0 < i <= |s| && LongestEndingAt(s, i, run, delta) && length <= run
    ensures HasWindow(s, length, delta)
  {
    assert Window(s, i - length, length, delta);
  }

  lemma NoneAtAll(s: seq<int>, length: nat, delta: int)
    requires NoWindowBefore(s, |s|, length, delta)
    ensures !HasWindow(s, length, delta)
  {
  }

  /** What one counter knows before position `i`: its run, and that no window has ended yet. */
  ghost predicate Scanned(s: seq<int>, i: nat, run: nat, length: nat, delta: int)
    requires 0 < i <= |s|
  {
    && LongestEndingAt(s, i, run, delta)
    && (length >= 2 ==> NoWindowBefore(s, i, length, delta))
    && (length < 2 ==> i == 1)
  }

  /** The counter's step; if it has not reached the length, nothing has been missed. */
  lemma ScanOne(s: seq<int>, i: nat, run: nat, run': nat, length: nat, delta: int)
    requires 0 < i < |s| && Scanned(s, i, run, length, delta)
    requires run' == if s[i] == s[i - 1] + delta then run + 1 else 1
    ensures run' >= length ==> HasWindow(s, length, delta)
    ensures run' < length ==> Scanned(s, i + 1, run', length, delta)
  {
    var longer := ExtendRun(s, i, run, delta);
    if run' >= length {
      FoundHere(s, i + 1, run', length, delta);
    } else {
      NoneEndsHere(s, i + 1, run', length, delta);
    }
  }

  method HasSequentialRun(lower: Units, minLength: nat) returns (r: bool)
    ensures minLength >= 2 ==> (r <==> HasWindow(lower, minLength, 1) || HasWindow(lower, minLength, -1))
    ensures minLength < 2 ==> (r <==> |lower| >= 2)
  {
    var ascending, descending := 1, 1;
    if |lower| == 0 {
      return false;
    }
    var i := 1;
    while i < |lower|
      invariant 1 <= i <= |lower|
      invariant Scanned(lower, i, ascending, minLength, 1) && Scanned(lower, i, descending, minLength, -1)
    {
      var up := if lower[i] as int == lower[i - 1] as int + 1 then ascending + 1 else 1;
      var down := if lower[i] as int == lower[i - 1] as int - 1 then descending + 1 else 1;
      ScanOne(lower, i, ascending, up, minLength, 1);
      ScanOne(lower, i, descending, down, minLength, -1);
      ascending, descending, i := up, down, i + 1;
      if ascending >= minLength || descending >= minLength {
        return true;
      }
    }
    if minLength >= 2 {
      NoneAtAll(lower, minLength, 1);
      NoneAtAll(lower, minLength, -1);
    }
    return false;
  }

  method HasRepeatedRun(value: Units, minLength: nat) returns (r: bool)
    ensures minLength >= 2 ==> (r <==> HasWindow(value, minLength, 0))
    ensures minLength < 2 ==> (r <==> |value| >= 2)
  {
    var run := 1;
    if |value| == 0 {
      return false;
    }
    var i := 1;
    while i < |value|
      invariant 1 <= i <= |value|
      invariant Scanned(value, i, run, minLength, 0)
    {
      var longer := if value[i] == value[i - 1] then run + 1 else 1;
      ScanOne(value, i, run, longer, minLength, 0);
      run, i := longer, i + 1;
      if run >= minLength {
        return true;
      }
    }
    if minLength >= 2 {
      NoneAtAll(value, minLength, 0);
    }
    return false;
  }

  // ---- Units and characters -------------------------------------------------------------------

  function Codes(s: string): (r: seq<int>)
    ensures |r| == |s| && forall i :: 0 <= i < |s| ==> r[i] == s[i] as int
  {
    seq(|s|, i requires 0 <= i < |s| => s[i] as int)
  }

  /** A window of characters that each fit one code unit. */
  ghost predicate BmpWindow(codes: seq<int>, k: nat, length: nat, delta: int) {
    Window(codes, k, length, delta) && forall i :: k <= i < k + length ==> codes[i] < 0x10000
  }

  ghost predicate HasBmpWindow(codes: seq<int>, length: nat, delta: int) {
    exists k: nat :: BmpWindow(codes, k, length, delta)
  }

  /**
   A window of code units that starts with the first of these characters and takes in one half of
   a surrogate pair: U+D7FF runs on into the first high surrogate, the last low surrogate runs on
   into U+E000, and two units can be the middle of one pair or the meeting of two.
   */
  ghost predicate Seam(codes: seq<int>, length: nat, delta: int) {
    || (delta == 1 && EndsInPair(codes, length))
    || (delta == 1 && StartsInPair(codes, length))
    || (delta == 1 && length == 2 && codes != [] && LastHigh(codes[0]) && FirstLow(codes[0]))
    || (delta == -1 && length == 2 && |codes| > 1 && FirstLow(codes[0]) && LastHigh(codes[1]))
  }

  ghost predicate EndsInPair(codes: seq<int>, length: nat) {
    && 2 <= length <= |codes| && BmpWindow(codes, 0, length - 1, 1)
    && codes[length - 2] == 0xD7FF && 0x10000 <= codes[length - 1] < 0x10400
  }

  ghost predicate StartsInPair(codes: seq<int>, length: nat) {
    && 2 <= length <= |codes| && BmpWindow(codes, 1, length - 1, 1)
    && codes[0] >= 0x10000 && codes[0] % 0x400 == 0x3FF && codes[1] == 0xE000
  }

  /** Its low surrogate is 0xDC00. */
  predicate FirstLow(code: int) {
    code >= 0x10000 && code % 0x400 == 0
  }

  /** Its high surrogate is 0xDBFF. */
  predicate LastHigh(code: int) {
    code >= 0x10FC00
  }

  ghost predicate HasSeam(codes: seq<int>, length: nat, delta: int) {
    exists k: nat :: k <= |codes| && Seam(codes[k..], length, delta)
  }

  lemma SeamHereOrLater(codes: seq<int>, length: nat, delta: int)
    requires codes != []
    ensures HasSeam(codes, length, delta) <==> Seam(codes, length, delta) || HasSeam(codes[1..], length, delta)
  {
    if k: nat :| k <= |codes| && Seam(codes[k..], length, delta) {
      if k == 0 {
        assert codes[0..] == codes;
      } else {
        assert codes[1..][k - 1..] == codes[k..];
      }
    }
    if Seam(codes, length, delta) {
      assert codes[0..] == codes;
    }
    if k: nat :| k <= |codes[1..]| && Seam(codes[1..][k..], length, delta) {
      assert codes[k + 1..] == codes[1..][k..];
    }
  }

  lemma WindowHereOrLater(s: seq<int>, length: nat, delta: int)
    requires s != [] && length > 0
    ensures HasWindow(s, length, delta) <==> Window(s, 0, length, delta) || HasWindow(s[1..], length, delta)
  {
    if k: nat :| Window(s, k, length, delta) {
      if k > 0 {
        assert Window(s[1..], k - 1, length, delta);
      }
    }
    if k: nat :| Window(s[1..], k, length, delta) {
      assert Window(s, k + 1, length, delta) by {
        forall i | k + 1 < i < k + 1 + length ensures s[i] == s[i - 1] + delta {
          assert s[i] == s[1..][i - 1] && s[i - 1] == s[1..][i - 2];
        }
      }
    }
  }

  lemma BmpWindowHereOrLater(s: seq<int>, length: nat, delta: int)
    requires s != [] && length > 0
    ensures HasBmpWindow(s, length, delta) <==> BmpWindow(s, 0, length, delta) || HasBmpWindow(s[1..], length, delta)
  {
    if k: nat :| BmpWindow(s, k, length, delta) {
      if k > 0 {
        assert BmpWindow(s[1..], k - 1, length, delta);
      }
    }
    if k: nat :| BmpWindow(s[1..], k, length, delta) {
      assert BmpWindow(s, k + 1, length, delta) by {
        forall i | k + 1 <= i < k + 1 + length ensures s[i] < 0x10000 && (i > k + 1 ==> s[i] == s[i - 1] + delta) {
          assert s[i] == s[1..][i - 1];
          assert i > k + 1 ==> s[i - 1] == s[1..][i - 2];
        }
      }
    }
  }

  lemma WindowTail(s: seq<int>, length: nat, delta: int)
    requires |s| >= 2 && length >= 2
    ensures Window(s, 0, length, delta) <==> s[1] == s[0] + delta && Window(s[1..], 0, length - 1, delta)
  {
    if s[1] == s[0] + delta && Window(s[1..], 0, length - 1, delta) {
      forall i | 0 < i < length ensures s[i] == s[i - 1] + delta {
        assert i > 1 ==> s[i] == s[1..][i - 1] && s[i - 1] == s[1..][i - 2];
      }
    }
  }

  lemma BmpWindowTail(s: seq<int>, length: nat, delta: int)
    requires |s| >= 2 && length >= 2
    ensures BmpWindow(s, 0, length, delta)
            <==> s[0] < 0x10000 && s[1] == s[0] + delta && BmpWindow(s[1..], 0, length - 1, delta)
  {
    WindowTail(s, length, delta);
    if s[0] < 0x10000 && s[1] == s[0] + delta && BmpWindow(s[1..], 0, length - 1, delta) {
      forall i | 0 <= i < length ensures s[i] < 0x10000 {
        assert i > 0 ==> s[i] == s[1..][i - 1];
      }
    }
  }

  lemma EndsInPairTail(s: seq<int>, length: nat)
    requires |s| >= 2 && length >= 3
    ensures EndsInPair(s, length) <==> s[0] < 0x10000 && s[1] == s[0] + 1 && EndsInPair(s[1..], length - 1)
  {
    BmpWindowTail(s, length - 1, 1);
  }

  /** From a one-unit character, a window stays among such characters or ends in the first pair. */
  lemma {:induction false} WindowFromBmp(s: string, length: nat, delta: int)
    requires s != [] && IsBmp(s[0]) && length > 0 && -1 <= delta <= 1
    ensures Window(Encode(s), 0, length, delta)
            <==> BmpWindow(Codes(s), 0, length, delta) || (delta == 1 && EndsInPair(Codes(s), length))
    decreases length
  {
    var units, codes := Encode(s), Codes(s);
    assert units[1..] == Encode(s[1..]) && codes[1..] == Codes(s[1..]);
    if length == 1 || |s| == 1 {
    } else {
      WindowTail(units, length, delta);
      BmpWindowTail(codes, length, delta);
      assert units[1] == UnitsOf(s[1])[0];
      if IsBmp(s[1]) {
        WindowFromBmp(s[1..], length - 1, delta);
        if length > 2 {
          EndsInPairTail(codes, length);
        }
      } else {
        assert units[2] == units[1..][1] == UnitsOf(s[1])[1];
        OuterHalves(s[1]);
        assert units[1] == units[0] + delta ==> units[2] != units[1] + delta;
      }
    }
  }

  lemma {:induction false} NoReturn(codes: seq<int>, length: nat)
    requires codes != [] && codes[0] >= 0xE000
    ensures !EndsInPair(codes, length)
    decreases length
  {
    if EndsInPair(codes, length) && length > 2 {
      EndsInPairTail(codes, length);
      NoReturn(codes[1..], length - 1);
    }
  }

  lemma ShiftBmp(codes: seq<int>, length: nat, delta: int)
    requires codes != []
    ensures BmpWindow(codes[1..], 0, length, delta) <==> BmpWindow(codes, 1, length, delta)
  {
    forall i | 0 <= i < |codes| - 1 ensures codes[1..][i] == codes[i + 1] {
    }
    if BmpWindow(codes[1..], 0, length, delta) {
      forall i | 1 <= i < 1 + length ensures codes[i] < 0x10000 && (i > 1 ==> codes[i] == codes[i - 1] + delta) {
        assert codes[i] == codes[1..][i - 1];
        assert i > 1 ==> codes[i - 1] == codes[1..][i - 2];
      }
    }
  }

  /** A window from the low half of a pair into a one-unit character. */
  lemma LowThenBmp(low: seq<int>, s: string, length: nat, delta: int)
    requires |s| > 1 && !IsBmp(s[0]) && IsBmp(s[1]) && length >= 2 && -1 <= delta <= 1
    requires low == [UnitsOf(s[0])[1]] + Encode(s[1..])
    ensures Window(low, 0, length, delta) <==> delta == 1 && StartsInPair(Codes(s), length)
  {
    var rest, codes := Encode(s[1..]), Codes(s);
    assert low[1..] == rest && codes[1..] == Codes(s[1..]);
    WindowTail(low, length, delta);
    assert low[1] == rest[0] == s[1] as int;
    OuterHalves(s[0]);
    WindowFromBmp(s[1..], length - 1, delta);
    if s[1] as int == 0xE000 {
      NoReturn(codes[1..], length - 1);
    }
    ShiftBmp(codes, length - 1, delta);
  }

  /** A window from the low half of a pair into the next pair. */
  lemma LowThenHigh(low: seq<int>, s: string, length: nat, delta: int)
    requires |s| > 1 && !IsBmp(s[0]) && !IsBmp(s[1]) && length >= 2 && -1 <= delta <= 1
    requires low == [UnitsOf(s[0])[1]] + Encode(s[1..])
    ensures Window(low, 0, length, delta)
            <==> delta == -1 && length == 2 && FirstLow(s[0] as int) && LastHigh(s[1] as int)
  {
    var rest := Encode(s[1..]);
    assert low[1] == rest[0] == UnitsOf(s[1])[0];
    assert low[2] == rest[1] == UnitsOf(s[1])[1];
    OuterHalves(s[0]);
    OuterHalves(s[1]);
    assert low[1] == low[0] + delta ==> low[2] != low[1] + delta;
  }

  /** From the low half of a pair a window goes on into U+E000, or down into the last high half. */
  lemma WindowFromLow(s: string, length: nat, delta: int)
    requires s != [] && !IsBmp(s[0]) && length >= 2 && -1 <= delta <= 1
    ensures Window(Encode(s)[1..], 0, length, delta)
            <==> (delta == 1 && StartsInPair(Codes(s), length))
                 || (delta == -1 && length == 2 && |s| > 1 && FirstLow(Codes(s)[0]) && LastHigh(Codes(s)[1]))
  {
    var low := Encode(s)[1..];
    assert low == [UnitsOf(s[0])[1]] + Encode(s[1..]);
    if |s| > 1 && IsBmp(s[1]) {
      LowThenBmp(low, s, length, delta);
    } else if |s| > 1 {
      LowThenHigh(low, s, length, delta);
    }
  }

  /** From the high half a window takes in just the pair it starts in. */
  lemma WindowFromHigh(s: string, length: nat, delta: int)
    requires s != [] && !IsBmp(s[0]) && length >= 2 && -1 <= delta <= 1
    ensures Window(Encode(s), 0, length, delta)
            <==> delta == 1 && length == 2 && LastHigh(Codes(s)[0]) && FirstLow(Codes(s)[0])
  {
    var units, rest := Encode(s), Encode(s[1..]);
    assert units[0] == UnitsOf(s[0])[0] && units[1] == UnitsOf(s[0])[1] && units[2..] == rest;
    if |s| > 1 {
      assert units[2] == rest[0] == UnitsOf(s[1])[0];
    }
    OuterHalves(s[0]);
    assert |units| > 2 && units[1] == units[0] + delta ==> units[2] != units[1] + delta;
  }

  /**
   What the detectors see of any text: the windows of characters that fit one code unit, and the
   few that run over a seam of the surrogates. A repeated or consecutive run of characters beyond
   the first plane is not found.
   */
  lemma {:induction false} UnitWindowsOfText(s: string, length: nat, delta: int)
    requires length >= 2 && -1 <= delta <= 1
    ensures HasWindow(Encode(s), length, delta)
            <==> HasBmpWindow(Codes(s), length, delta) || HasSeam(Codes(s), length, delta)
    decreases |s|
  {
    var units, codes := Encode(s), Codes(s);
    if s == [] {
      assert forall k: nat :: !Window(units, k, length, delta) && !Window(codes, k, length, delta);
    } else {
      assert codes[1..] == Codes(s[1..]);
      UnitWindowsOfText(s[1..], length, delta);
      WindowHereOrLater(units, length, delta);
      BmpWindowHereOrLater(codes, length, delta);
      SeamHereOrLater(codes, length, delta);
      if IsBmp(s[0]) {
        assert units[1..] == Encode(s[1..]);
        WindowFromBmp(s, length, delta);
      } else {
        assert units[1..][1..] == Encode(s[1..]);
        WindowHereOrLater(units[1..], length, delta);
        WindowFromHigh(s, length, delta);
        WindowFromLow(s, length, delta);
      }
    }
  }

  const SAME := "\U{1F600}\U{1F600}\U{1F600}\U{1F600}\U{1F600}"
  const IN_ORDER := "\U{1F600}\U{1F601}\U{1F602}\U{1F603}\U{1F604}"

  /** Characters beyond the first plane and away from its start make no window the code can see. */
  lemma BeyondIsMissed(s: string, length: nat, delta: int)
    requires length > 2 && -1 <= delta <= 1
    requires forall i :: 0 <= i < |s| ==> s[i] as int >= 0x10400
    ensures !HasWindow(Encode(s), length, delta)
  {
    UnitWindowsOfText(s, length, delta);
    var codes := Codes(s);
    forall k: nat ensures !BmpWindow(codes, k, length, delta) {
      assert k < |codes| ==> codes[k] >= 0x10400;
    }
    forall k: nat | k <= |codes| ensures !Seam(codes[k..], length, delta) {
      assert forall i :: 0 <= i < |codes| - k ==> codes[k..][i] >= 0x10400;
    }
  }

  /** Five of one face, or five faces in order, are windows of characters that the code does not see. */
  lemma FacesAreMissed()
    ensures HasWindow(Codes(SAME), 5, 0) && !HasWindow(Encode(SAME), 5, 0)
    ensures HasWindow(Codes(IN_ORDER), 5, 1) && !HasWindow(Encode(IN_ORDER), 5, 1)
  {
    assert Window(Codes(SAME), 0, 5, 0) && Window(Codes(IN_ORDER), 0, 5, 1);
    BeyondIsMissed(SAME, 5, 0);
    BeyondIsMissed(IN_ORDER, 5, 1);
  }
}
