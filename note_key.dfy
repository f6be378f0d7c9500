/**
 * The note-key pattern `(?<step>\d*):(?<note>\d*)` (no flags, so unanchored)
 * as JavaScript's backtracking matcher runs it: candidate start positions are
 * tried left to right; at each one the `step` group first takes every digit it
 * can and gives them back one at a time until a `:` follows; the `note` group
 * then takes every digit after the `:`.
 */
module NoteKey {
  import opened Wrappers
  import opened Decimal

  /** The result of `exec`: where the match starts and the two named groups. */
  datatype NoteMatch = NoteMatch(index: nat, step: string, note: string)

  /** Length of the longest run of digits starting at index `i`. */
  function DigitRun(s: string, i: nat): (n: nat)
    requires i <= |s|
    ensures i + n <= |s|
    ensures forall t :: i <= t < i + n ==> IsDigit(s[t])
    ensures i + n == |s| || !IsDigit(s[i + n])
    decreases |s| - i
  {
    if i < |s| && IsDigit(s[i]) then 1 + DigitRun(s, i + 1) else 0
  }

  /** Where an attempt succeeded: its start position and how many digits the `step` group holds. */
  datatype Span = Span(start: nat, stepLen: nat)

  /**
   * The attempt at start `p` with the `step` group holding `k` digits, giving
   * them back one at a time until a ':' follows; the number it settles on.
   */
  function StepLength(s: string, p: nat, k: nat): (r: Option<nat>)
    requires p + k <= |s|
    ensures r.Some? ==> r.value <= k && p + r.value < |s| && s[p + r.value] == ':'
    decreases k
  {
    if p + k < |s| && s[p + k] == ':' then Some(k)
    else if k == 0 then None
    else StepLength(s, p, k - 1)
  }

  /** The leftmost successful attempt at a start position `p` or later. */
  function SearchFrom(s: string, p: nat): (r: Option<Span>)
    requires p <= |s|
    ensures r.Some? ==> p <= r.value.start && r.value.start + r.value.stepLen < |s|
    ensures r.Some? ==> s[r.value.start + r.value.stepLen] == ':'
    decreases |s| - p
  {
    var k := StepLength(s, p, DigitRun(s, p));
    if k.Some? then Some(Span(p, k.value))
    else if p < |s| then SearchFrom(s, p + 1)
    else None
  }

  /** The groups of a successful attempt: the `note` group takes every digit after the ':'. */
  function Capture(s: string, m: Span): NoteMatch
    requires m.start + m.stepLen < |s|
  {
    var c := m.start + m.stepLen;
    NoteMatch(m.start, s[m.start..c], s[c + 1..c + 1 + DigitRun(s, c + 1)])
  }

  /**
   * `noteRegex.exec(s)`: `None` stands for JavaScript's `null`. A match's
   * `step` group is the text at its index, and a ':' follows it.
   */
  function NoteRegexExec(s: string): (r: Option<NoteMatch>)
    ensures r.Some? ==>
      var m := r.value;
      && m.index + |m.step| < |s| && s[m.index + |m.step|] == ':'
      && s[m.index..m.index + |m.step|] == m.step
  {
    var m := SearchFrom(s, 0);
    if m.None? then None else Some(Capture(s, m.value))
  }

  // ---------------------------------------------------------------------------
  // An independent description of the match, in terms of the first ':'

  /** Index of the first ':' at or after `i`, or `|s|` when there is none. */
  function ColonFrom(s: string, i: nat): (c: nat)
    requires i <= |s|
    ensures i <= c <= |s|
    ensures c < |s| ==> s[c] == ':'
    ensures forall t :: i <= t < c ==> s[t] != ':'
    decreases |s| - i
  {
    if i == |s| || s[i] == ':' then i else ColonFrom(s, i + 1)
  }

  /** Length of the longest run of digits that ends just before index `c`. */
  function DigitRunBefore(s: string, c: nat): (n: nat)
    requires c <= |s|
    ensures n <= c
    ensures forall t :: c - n <= t < c ==> IsDigit(s[t])
    ensures n == c || !IsDigit(s[c - n - 1])
    decreases c
  {
    if c > 0 && IsDigit(s[c - 1]) then 1 + DigitRunBefore(s, c - 1) else 0
  }

  /**
   * No match without a ':'; otherwise the match starts where the longest digit
   * run right before the first ':' starts, and `step` is that whole run.
   */
  function FirstColonSpan(s: string): (r: Option<Span>)
    ensures r.Some? <==> ':' in s
    ensures r.Some? ==> r.value.start + r.value.stepLen < |s| && s[r.value.start + r.value.stepLen] == ':'
  {
    var c := ColonFrom(s, 0);
    if c == |s| then None else Some(Span(c - DigitRunBefore(s, c), DigitRunBefore(s, c)))
  }

  /**
   * The match `exec` should return: none without a ':'; otherwise `step` is
   * the longest digit run right before the first ':' and `note` the longest
   * digit run right after it.
   */
  function FirstColonMatch(s: string): Option<NoteMatch> {
    var m := FirstColonSpan(s);
    if m.None? then None else Some(Capture(s, m.value))
  }

  /** `DigitRun` is the only length whose digits are followed by a non-digit or the end. */
  lemma {:induction false} DigitRunUnique(s: string, i: nat, m: nat)
    requires i + m <= |s|
    requires forall t :: i <= t < i + m ==> IsDigit(s[t])
    requires i + m == |s| || !IsDigit(s[i + m])
    ensures DigitRun(s, i) == m
    decreases m
  {
    if m > 0 {
      DigitRunUnique(s, i + 1, m - 1);
    }
  }

  /** A digit run stops at the first non-digit. */
  lemma {:induction false} DigitRunStops(s: string, i: nat, j: nat)
    requires i <= j < |s| && !IsDigit(s[j])
    ensures i + DigitRun(s, i) <= j
    decreases j - i
  {
    if i < j && IsDigit(s[i]) {
      DigitRunStops(s, i + 1, j);
    }
  }

  /** Backtracking finds nothing when no ':' follows any of the candidate lengths. */
  lemma {:induction false} StepLengthFails(s: string, p: nat, k: nat)
    requires p + k <= |s|
    requires forall t :: p <= t <= p + k && t < |s| ==> s[t] != ':'
    ensures StepLength(s, p, k) == None
    decreases k
  {
    if k > 0 {
      StepLengthFails(s, p, k - 1);
    }
  }

  /** Searching a stretch without ':' finds nothing. */
  lemma {:induction false} SearchWithoutColon(s: string, p: nat)
    requires p <= |s|
    requires forall t :: p <= t < |s| ==> s[t] != ':'
    ensures SearchFrom(s, p) == None
    decreases |s| - p
  {
    StepLengthFails(s, p, DigitRun(s, p));
    if p < |s| {
      SearchWithoutColon(s, p + 1);
    }
  }

  /** Every start before the digit run that precedes the first ':' (at `c`) fails. */
  lemma {:induction false} SearchSkipsToRun(s: string, c: nat, p: nat)
    requires c < |s| && s[c] == ':' && forall t :: 0 <= t < c ==> s[t] != ':'
    requires p <= c - DigitRunBefore(s, c)
    ensures SearchFrom(s, p) == SearchFrom(s, c - DigitRunBefore(s, c))
    decreases c - p
  {
    var start := c - DigitRunBefore(s, c);
    if p < start {
      DigitRunStops(s, p, start - 1);
      StepLengthFails(s, p, DigitRun(s, p));
      SearchSkipsToRun(s, c, p + 1);
    }
  }

  /** The attempt at the start of the digit run before a ':' (at `c`) succeeds at once. */
  lemma MatchAtRun(s: string, c: nat)
    requires c < |s| && s[c] == ':'
    ensures SearchFrom(s, c - DigitRunBefore(s, c)) == Some(Span(c - DigitRunBefore(s, c), DigitRunBefore(s, c)))
  {
    var start := c - DigitRunBefore(s, c);
    DigitRunUnique(s, start, c - start);
    assert StepLength(s, start, c - start) == Some(c - start);
  }

  /** The backtracking search stops exactly where the first-':' description says. */
  lemma SearchSpec(s: string)
    ensures SearchFrom(s, 0) == FirstColonSpan(s)
  {
    var c := ColonFrom(s, 0);
    if c == |s| {
      SearchWithoutColon(s, 0);
    } else {
      SearchSkipsToRun(s, c, 0);
      MatchAtRun(s, c);
    }
  }

  /** The backtracking matcher returns exactly the match the first-':' description gives. */
  lemma NoteRegexExecSpec(s: string)
    ensures NoteRegexExec(s) == FirstColonMatch(s)
  {
    SearchSpec(s);
  }

  /** The pattern matches exactly the strings that contain a ':'. */
  lemma MatchIffColon(s: string)
    ensures NoteRegexExec(s).Some? <==> ':' in s
  {
    SearchSpec(s);
    var c := ColonFrom(s, 0);
    if c < |s| {
      assert s[c] == ':';
    }
  }

  /** Both groups of a match hold decimal digits only, and they sit around a ':' of `s`. */
  lemma MatchGroupsAreDigits(s: string)
    ensures NoteRegexExec(s).Some? ==>
      var m := NoteRegexExec(s).value;
      && AllDigits(m.step) && AllDigits(m.note)
      && m.index + |m.step| + 1 + |m.note| <= |s|
      && s[m.index..m.index + |m.step|] == m.step
      && s[m.index + |m.step|] == ':'
      && s[m.index + |m.step| + 1..m.index + |m.step| + 1 + |m.note|] == m.note
  {
    SearchSpec(s);
  }

  /** The pattern also matches a bare ':' with both groups empty. */
  lemma EmptyGroupsMatch()
    ensures NoteRegexExec(":") == Some(NoteMatch(0, "", ""))
  {
    var s := ":";
    SearchSpec(s);
    assert ColonFrom(s, 0) == 0;
    assert s[0..0] == "" && s[1..1] == "";
  }

  /** A key made of two digit strings around a ':' gives both strings back. */
  lemma DigitsColonDigits(a: string, b: string)
    requires AllDigits(a) && AllDigits(b)
    ensures NoteRegexExec(a + ":" + b) == Some(NoteMatch(0, a, b))
  {
    var s := a + ":" + b;
    var c := |a|;
    FirstColonOfKey(a, b);
    DigitRunBeforeAll(s, c);
    SearchSpec(s);
    assert SearchFrom(s, 0) == Some(Span(0, c));
    SuffixOfKey(a, b);
    RunOfDigitSuffix(s, c + 1, b);
    assert s[0..c] == a;
  }

  /** In `a + ":" + b` with `a` all digits, the first ':' is the one after `a`. */
  lemma FirstColonOfKey(a: string, b: string)
    requires AllDigits(a)
    ensures ColonFrom(a + ":" + b, 0) == |a|
    ensures forall t :: 0 <= t < |a| ==> IsDigit((a + ":" + b)[t])
  {
    var s := a + ":" + b;
    assert s[|a|] == ':';
    assert forall t :: 0 <= t < |a| ==> s[t] == a[t];
    ColonFromFirst(s, 0, |a|);
  }

  /** `ColonFrom` stops at a ':' when none comes before it. */
  lemma {:induction false} ColonFromFirst(s: string, i: nat, c: nat)
    requires i <= c < |s| && s[c] == ':'
    requires forall t :: i <= t < c ==> IsDigit(s[t])
    ensures ColonFrom(s, i) == c
    decreases c - i
  {
    if i < c {
      ColonFromFirst(s, i + 1, c);
    }
  }

  /** When the suffix from `i` on is the digit string `b`, the run at `i` is all of `b`. */
  lemma RunOfDigitSuffix(s: string, i: nat, b: string)
    requires i <= |s| && s[i..] == b && AllDigits(b)
    ensures DigitRun(s, i) == |b|
    ensures s[i..i + |b|] == b
  {
    forall t | i <= t < |s|
      ensures IsDigit(s[t])
    {
      assert s[t] == s[i..][t - i];
    }
    DigitRunUnique(s, i, |s| - i);
    assert s[i..i + |b|] == s[i..];
  }

  /** What follows the ':' of `a + ":" + b` is `b`. */
  lemma SuffixOfKey(a: string, b: string)
    ensures |a + ":" + b| == |a| + 1 + |b|
    ensures (a + ":" + b)[|a| + 1..] == b
  {
    assert a + ":" + b == (a + ":") + b;
  }

  /** When every character before `c` is a digit, the run before `c` is all of them. */
  lemma {:induction false} DigitRunBeforeAll(s: string, c: nat)
    requires c <= |s|
    requires forall t :: 0 <= t < c ==> IsDigit(s[t])
    ensures DigitRunBefore(s, c) == c
  {
    if c > 0 {
      DigitRunBeforeAll(s, c - 1);
    }
  }
}
