/**
 * The label extraction `s.match(/console\.log\(['"](.+?)['"]\)/)[1]`, with
 * JavaScript's regular-expression semantics: the leftmost start position wins,
 * the lazy `.+?` takes the shortest non-empty label, and `.` matches any
 * character except a line terminator.
 */
module Label {
  import opened Text

  datatype Option<T> = None | Some(value: T)

  /** The literal text `console.log(` that opens a match. */
  const ConsoleLogOpen: string := "console.log("

  /** The character class `['"]`. */
  predicate IsQuote(c: char) {
    c == '\'' || c == '"'
  }

  /** The characters `.` refuses. */
  predicate IsLineTerminator(c: char) {
    c == '\n' || c == '\r' || c == '\U{2028}' || c == '\U{2029}'
  }

  /** A quote at position e followed by `)`: the tail `['"]\)` of the pattern. */
  predicate ClosesAt(s: string, e: int) {
    0 <= e && e + 2 <= |s| && IsQuote(s[e]) && s[e + 1] == ')'
  }

  /** The head `console\.log\(['"]` of the pattern matches at position p. */
  predicate OpensAt(s: string, p: int) {
    0 <= p && p + 13 <= |s| && s[p..p + 12] == ConsoleLogOpen && IsQuote(s[p + 12])
  }

  predicate NoLineTerminator(s: string, from: int, to: int)
    requires 0 <= from <= to <= |s|
  {
    forall i :: from <= i < to ==> !IsLineTerminator(s[i])
  }

  /** Reference definition: the whole pattern matches s[p..e + 2], capturing s[p + 13..e]. */
  predicate IsMatch(s: string, p: int, e: int) {
    && OpensAt(s, p)
    && p + 13 < e
    && ClosesAt(s, e)
    && NoLineTerminator(s, p + 13, e)
  }

  /** The match JavaScript reports: no match starts further left, and no
      shorter label works at the same start. */
  ghost predicate IsFirstMatch(s: string, p: int, e: int) {
    && IsMatch(s, p, e)
    && forall p', e' :: IsMatch(s, p', e') ==> p < p' || (p == p' && e <= e')
  }

  /** The lazy `.+?`: having consumed the label up to position k (exclusive of
      s[k]), consume s[k] and try the closing `['"]\)` right after it;
      otherwise extend the label by one character. */
  function ScanLabel(s: string, k: nat): (r: Option<nat>)
    ensures r.Some? ==> k < r.value && r.value + 2 <= |s|
    decreases |s| - k
  {
    if k >= |s| || IsLineTerminator(s[k]) then None
    else if ClosesAt(s, k + 1) then Some(k + 1)
    else ScanLabel(s, k + 1)
  }

  /** The match attempt at start position p: the end of the shortest label, if any. */
  function MatchAt(s: string, p: nat): (r: Option<nat>)
    ensures r.Some? ==> p + 13 < r.value <= |s|
  {
    if OpensAt(s, p) then ScanLabel(s, p + 13) else None
  }

  /** Trying start positions left to right, from p on. */
  function FirstMatchFrom(s: string, p: nat): (r: Option<(nat, nat)>)
    ensures r.Some? ==> p <= r.value.0 && r.value.0 + 13 < r.value.1 <= |s|
    decreases |s| - p
  {
    if p >= |s| then None
    else match MatchAt(s, p)
      case Some(e) => Some((p, e))
      case None => FirstMatchFrom(s, p + 1)
  }

  /** `match[1]` of the label pattern, or None when `match` returns null. */
  function MatchLabel(s: string): Option<string> {
    match FirstMatchFrom(s, 0)
    case Some((p, e)) => Some(s[p + 13..e])
    case None => None
  }

  /** ScanLabel finds the nearest closing quote-and-paren reachable without
      crossing a line terminator, and reports none exactly when there is none. */
  lemma {:induction false} ScanLabelSpec(s: string, k: nat)
    ensures ScanLabel(s, k).Some? ==>
      var e := ScanLabel(s, k).value;
      k < e && ClosesAt(s, e) && NoLineTerminator(s, k, e)
      && forall e' :: k < e' < e ==> !ClosesAt(s, e')
    ensures ScanLabel(s, k).None? ==>
      forall e' :: k < e' && ClosesAt(s, e') ==> !NoLineTerminator(s, k, e')
    decreases |s| - k
  {
    if k >= |s| || IsLineTerminator(s[k]) {
    } else if ClosesAt(s, k + 1) {
    } else {
      ScanLabelSpec(s, k + 1);
      if ScanLabel(s, k + 1).None? {
        forall e' | k < e' && ClosesAt(s, e') ensures !NoLineTerminator(s, k, e') {
          if e' > k + 1 {
            assert !NoLineTerminator(s, k + 1, e');
          }
        }
      }
    }
  }

  /** The attempt at p succeeds with the shortest label there, and fails
      exactly when no label works at p. */
  lemma MatchAtSpec(s: string, p: nat)
    ensures MatchAt(s, p).Some? ==>
      var e := MatchAt(s, p).value;
      IsMatch(s, p, e) && forall e' :: IsMatch(s, p, e') ==> e <= e'
    ensures MatchAt(s, p).None? ==> forall e' :: !IsMatch(s, p, e')
  {
    if OpensAt(s, p) {
      ScanLabelSpec(s, p + 13);
    }
  }

  /** Scanning from p finds the leftmost start at or after p, with its shortest label. */
  lemma {:induction false} FirstMatchFromSpec(s: string, p: nat)
    ensures FirstMatchFrom(s, p).Some? ==>
      var (q, e) := FirstMatchFrom(s, p).value;
      p <= q && IsMatch(s, q, e)
      && forall q', e' :: p <= q' && IsMatch(s, q', e') ==> q < q' || (q == q' && e <= e')
    ensures FirstMatchFrom(s, p).None? ==>
      forall q', e' :: p <= q' ==> !IsMatch(s, q', e')
    decreases |s| - p
  {
    if p >= |s| {
    } else {
      MatchAtSpec(s, p);
      if MatchAt(s, p).None? {
        FirstMatchFromSpec(s, p + 1);
      }
    }
  }

  /** The regex's result against the reference definition: null exactly when
      the pattern matches nowhere on the line, and otherwise the label of the
      leftmost-shortest match. */
  lemma MatchLabelSpec(s: string)
    ensures MatchLabel(s).None? <==> forall p, e :: !IsMatch(s, p, e)
    ensures MatchLabel(s).Some? ==>
      exists p, e :: IsFirstMatch(s, p, e) && MatchLabel(s).value == s[p + 13..e]
  {
    FirstMatchFromSpec(s, 0);
    match FirstMatchFrom(s, 0)
    case Some((p, e)) =>
      assert IsFirstMatch(s, p, e);
    case None =>
  }

  /** Every label the pattern captures is non-empty and lies on one line. */
  lemma MatchLabelShape(s: string)
    ensures MatchLabel(s).Some? ==>
      var l := MatchLabel(s).value;
      l != [] && forall i :: 0 <= i < |l| ==> !IsLineTerminator(l[i])
  {
    FirstMatchFromSpec(s, 0);
    match FirstMatchFrom(s, 0)
    case Some((p, e)) =>
      var l := s[p + 13..e];
      forall i | 0 <= i < |l| ensures !IsLineTerminator(l[i]) {
        assert l[i] == s[p + 13 + i];
      }
    case None =>
  }
}
