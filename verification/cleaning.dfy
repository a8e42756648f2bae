/** The whitespace normaliser that the chat section applies to every answer before showing
    it: a fixed chain of global regular-expression replacements, then two anchored
    deletions and a final trim. */
module ResponseCleaning {
  import opened Common

  /** The three shapes of unanchored pattern in the chain:
      `/\s+/g`, `/\s+X/g` (a whitespace run followed by the mark X) and
      `/X\s+/g` (the mark X followed by a whitespace run). */
  datatype Pattern = WsRun | WsRunThen(mark: char) | MarkThenWsRun(mark: char)

  /** What each pattern is replaced by: `" "`, `"X"` and `"X "` respectively. */
  function Replacement(p: Pattern): (r: string)
    ensures |r| > 0
  {
    match p
    case WsRun => " "
    case WsRunThen(c) => [c]
    case MarkThenWsRun(c) => [c, ' ']
  }

  predicate ValidPattern(p: Pattern)
  {
    p.WsRun? || !IsWs(p.mark)
  }

  /** Length of the whitespace run that starts `s`. */
  function RunLen(s: string): (k: nat)
    ensures k <= |s|
    ensures forall i :: 0 <= i < k ==> IsWs(s[i])
    ensures k < |s| ==> !IsWs(s[k])
  {
    if s != [] && IsWs(s[0]) then 1 + RunLen(s[1..]) else 0
  }

  /** Length of the match of `p` at the start of `s`, 0 when there is none. A `\s+` is
      greedy, and a shorter run is always followed by whitespace, so a match always takes
      the whole run. */
  function MatchAt(p: Pattern, s: string): (n: nat)
    ensures n <= |s|
    ensures n > 0 ==> |Replacement(p)| <= n
    ensures p.WsRun? ==> (n > 0 <==> s != [] && IsWs(s[0]))
    ensures n > 0 && p.WsRun? ==> forall i :: 0 <= i < n ==> IsWs(s[i])
    ensures n > 0 && p.WsRunThen? ==> s[n - 1] == p.mark && forall i :: 0 <= i < n - 1 ==> IsWs(s[i])
    ensures n > 0 && p.MarkThenWsRun? ==> s[0] == p.mark && forall i :: 0 < i < n ==> IsWs(s[i])
    ensures n > 0 && !p.WsRunThen? ==> n == |s| || !IsWs(s[n])
  {
    match p
    case WsRun => RunLen(s)
    case WsRunThen(c) =>
      var k := RunLen(s);
      if 0 < k < |s| && s[k] == c then k + 1 else 0
    case MarkThenWsRun(c) =>
      if s != [] && s[0] == c && RunLen(s[1..]) > 0 then
        var k := RunLen(s[1..]);
        assert forall i :: 0 < i < 1 + k ==> s[i] == s[1..][i - 1];
        1 + k
      else 0
  }

  /** `s.replace(p, Replacement(p))` with the global flag: scan from the left, replace a
      match where there is one and continue after it, otherwise keep one character. */
  function ReplaceAll(s: string, p: Pattern): (r: string)
    decreases |s|
    ensures |r| <= |s|
  {
    if s == [] then []
    else
      var n := MatchAt(p, s);
      if n > 0 then Replacement(p) + ReplaceAll(s[n..], p)
      else [s[0]] + ReplaceAll(s[1..], p)
  }

  /** `/\s+$/g` replaced by `""`: drop the whitespace run that ends the string. */
  function TrimEnd(s: string): (r: string)
    ensures r <= s
    ensures r == [] || !IsWs(r[|r| - 1])
    ensures forall i :: |r| <= i < |s| ==> IsWs(s[i])
  {
    if s == [] then []
    else if IsWs(s[|s| - 1]) then TrimEnd(s[..|s| - 1])
    else s
  }

  /** `/^\s+/g` replaced by `""`: drop the whitespace run that starts the string. */
  function TrimStart(s: string): (r: string)
    ensures r == [] || !IsWs(r[0])
  {
    s[RunLen(s)..]
  }

  /** `String.prototype.trim`. */
  function Trim(s: string): (r: string)
    ensures |r| <= |s|
    ensures r == [] || (!IsWs(r[0]) && !IsWs(r[|r| - 1]))
  {
    TrimStart(TrimEnd(s))
  }

  /** The thirteen unanchored replacements, in the order the chain applies them. */
  const Chain: seq<Pattern> := [
    WsRun,
    WsRunThen('.'), WsRunThen(','), MarkThenWsRun(','), MarkThenWsRun('.'),
    WsRunThen('!'), MarkThenWsRun('!'),
    WsRunThen('?'), MarkThenWsRun('?'),
    WsRunThen(':'), MarkThenWsRun(':'),
    WsRunThen(';'), MarkThenWsRun(';')
  ]

  /** The chain from its step `k` on. */
  function ApplyFrom(s: string, k: nat): string
    requires k <= |Chain|
    decreases |Chain| - k
  {
    if k == |Chain| then s else ApplyFrom(ReplaceAll(s, Chain[k]), k + 1)
  }

  /** The cleaned answer the chat section displays: it neither starts nor ends with
      whitespace (`CleanIsTidy` states the rest). */
  function Clean(s: string): (r: string)
    ensures r == [] || (!IsWs(r[0]) && !IsWs(r[|r| - 1]))
  {
    Trim(TrimStart(TrimEnd(ApplyFrom(s, 0))))
  }

  // ---------------------------------------------------------------------------------
  // Properties of adjacent characters.

  datatype PairRule = NoDoubleWs | NoWsBefore(mark: char)

  /** Whether `y` may follow `x`; only whitespace `x` is constrained. */
  predicate Allowed(r: PairRule, x: char, y: char)
  {
    IsWs(x) ==> match r
                case NoDoubleWs => !IsWs(y)
                case NoWsBefore(c) => y != c
  }

  predicate Keeps(s: string, r: PairRule)
  {
    forall i :: 0 <= i < |s| - 1 ==> Allowed(r, s[i], s[i + 1])
  }

  /** Every whitespace character is a plain space. */
  predicate SpacesOnly(s: string)
  {
    forall i :: 0 <= i < |s| && IsWs(s[i]) ==> s[i] == ' '
  }

  const Marks: seq<char> := ['.', ',', '!', '?', ':', ';']

  /** The shape every cleaned answer has. */
  predicate Tidy(s: string)
  {
    && (s == [] || (!IsWs(s[0]) && !IsWs(s[|s| - 1])))
    && SpacesOnly(s)
    && Keeps(s, NoDoubleWs)
    && forall c :: c in Marks ==> Keeps(s, NoWsBefore(c))
  }

  lemma KeepsSlice(s: string, lo: nat, hi: nat, r: PairRule)
    requires lo <= hi <= |s| && Keeps(s, r)
    ensures Keeps(s[lo..hi], r)
  {
    forall i | 0 <= i < hi - lo - 1 ensures Allowed(r, s[lo..hi][i], s[lo..hi][i + 1]) {
      assert s[lo..hi][i] == s[lo + i] && s[lo..hi][i + 1] == s[lo + i + 1];
    }
  }

  lemma KeepsJoin(a: string, b: string, r: PairRule)
    requires Keeps(a, r) && Keeps(b, r)
    requires a != [] && b != [] ==> Allowed(r, a[|a| - 1], b[0])
    ensures Keeps(a + b, r)
  {
    forall i | 0 <= i < |a + b| - 1 ensures Allowed(r, (a + b)[i], (a + b)[i + 1]) {
      if i + 1 < |a| {
      } else if i + 1 == |a| {
      } else {
        assert (a + b)[i] == b[i - |a|] && (a + b)[i + 1] == b[i - |a| + 1];
      }
    }
  }

  lemma SpacesOnlyJoin(a: string, b: string)
    requires SpacesOnly(a) && SpacesOnly(b)
    ensures SpacesOnly(a + b)
  {
    forall i | 0 <= i < |a + b| && IsWs((a + b)[i]) ensures (a + b)[i] == ' ' {
      if i >= |a| { assert (a + b)[i] == b[i - |a|]; }
    }
  }

  lemma ReplaceHead(s: string, p: Pattern)
    requires s != []
    ensures ReplaceAll(s, p) != []
    ensures ReplaceAll(s, p)[0] == if MatchAt(p, s) > 0 then Replacement(p)[0] else s[0]
  {
  }

  /** After a whitespace run that `p` did not match, the rest of the output starts with the
      character that followed the run's first character. */
  lemma ReplaceAfterUnmatchedWs(s: string, p: Pattern)
    requires |s| > 1 && IsWs(s[0]) && MatchAt(p, s) == 0 && ValidPattern(p)
    ensures ReplaceAll(s[1..], p)[0] == s[1]
  {
    ReplaceHead(s[1..], p);
    var t := s[1..];
    match p
    case WsRun =>
    case WsRunThen(c) =>
      assert RunLen(s) == 1 + RunLen(t);
      if 0 < RunLen(t) < |t| {
        assert t[RunLen(t)] == s[RunLen(s)];
      }
    case MarkThenWsRun(c) =>
  }

  /** A maximal whitespace run ended at `s[n - 1]`, and the output for `s[n..]` starts with
      the non-whitespace character `s[n]`, for every pattern but `WsRunThen`. */
  lemma ReplaceAfterRun(s: string, n: nat, p: Pattern)
    requires 0 < n < |s| && !IsWs(s[n]) && !p.WsRunThen? && ValidPattern(p)
    ensures ReplaceAll(s[n..], p)[0] == s[n]
  {
    ReplaceHead(s[n..], p);
  }

  /** The character after a replaced run may follow the run's last character. */
  lemma JoinAfterMatch(s: string, p: Pattern, r: PairRule)
    requires s != [] && ValidPattern(p) && Keeps(s, r) && MatchAt(p, s) > 0
    requires MatchAt(p, s) < |s|
    ensures Allowed(r, Replacement(p)[|Replacement(p)| - 1], ReplaceAll(s[MatchAt(p, s)..], p)[0])
  {
    var n := MatchAt(p, s);
    ReplaceHead(s[n..], p);
    if !p.WsRunThen? {
      ReplaceAfterRun(s, n, p);
      assert Allowed(r, s[n - 1], s[n]);
    }
  }

  /** The character after an unmatched first character may follow it. */
  lemma JoinAfterNoMatch(s: string, p: Pattern, r: PairRule)
    requires |s| > 1 && ValidPattern(p) && Keeps(s, r) && MatchAt(p, s) == 0
    ensures Allowed(r, s[0], ReplaceAll(s[1..], p)[0])
  {
    ReplaceHead(s[1..], p);
    if IsWs(s[0]) {
      ReplaceAfterUnmatchedWs(s, p);
      assert Allowed(r, s[0], s[1]);
    }
  }

  lemma ReplacementKeeps(p: Pattern, r: PairRule)
    requires ValidPattern(p)
    ensures Keeps(Replacement(p), r)
  {
  }

  /** The step of `ReplaceKeeps` where `p` matches at the start. */
  lemma KeepsAfterMatch(s: string, p: Pattern, r: PairRule)
    requires s != [] && ValidPattern(p) && Keeps(s, r) && MatchAt(p, s) > 0
    requires Keeps(ReplaceAll(s[MatchAt(p, s)..], p), r)
    ensures Keeps(ReplaceAll(s, p), r)
  {
    var n := MatchAt(p, s);
    if n < |s| { JoinAfterMatch(s, p, r); ReplaceHead(s[n..], p); }
    ReplacementKeeps(p, r);
    KeepsJoin(Replacement(p), ReplaceAll(s[n..], p), r);
  }

  /** The step of `ReplaceKeeps` where the first character is kept. */
  lemma KeepsAfterNoMatch(s: string, p: Pattern, r: PairRule)
    requires s != [] && ValidPattern(p) && Keeps(s, r) && MatchAt(p, s) == 0
    requires Keeps(ReplaceAll(s[1..], p), r)
    ensures Keeps(ReplaceAll(s, p), r)
  {
    if |s| > 1 { JoinAfterNoMatch(s, p, r); ReplaceHead(s[1..], p); }
    KeepsJoin([s[0]], ReplaceAll(s[1..], p), r);
  }

  lemma {:induction false} ReplaceKeeps(s: string, p: Pattern, r: PairRule)
    requires ValidPattern(p) && Keeps(s, r)
    ensures Keeps(ReplaceAll(s, p), r)
    decreases |s|
  {
    if s != [] {
      var n := MatchAt(p, s);
      if n > 0 {
        KeepsSlice(s, n, |s|, r);
        ReplaceKeeps(s[n..], p, r);
        KeepsAfterMatch(s, p, r);
      } else {
        KeepsSlice(s, 1, |s|, r);
        ReplaceKeeps(s[1..], p, r);
        KeepsAfterNoMatch(s, p, r);
      }
    }
  }

  lemma {:induction false} CollapseNoDoubleWs(s: string)
    ensures Keeps(ReplaceAll(s, WsRun), NoDoubleWs)
    decreases |s|
  {
    if s != [] {
      var n := MatchAt(WsRun, s);
      if n > 0 {
        CollapseNoDoubleWs(s[n..]);
        if n < |s| { ReplaceAfterRun(s, n, WsRun); }
        KeepsJoin(" ", ReplaceAll(s[n..], WsRun), NoDoubleWs);
      } else {
        CollapseNoDoubleWs(s[1..]);
        KeepsJoin([s[0]], ReplaceAll(s[1..], WsRun), NoDoubleWs);
      }
    }
  }

  lemma {:induction false} CollapseSpacesOnly(s: string)
    ensures SpacesOnly(ReplaceAll(s, WsRun))
    decreases |s|
  {
    if s != [] {
      var n := MatchAt(WsRun, s);
      if n > 0 {
        CollapseSpacesOnly(s[n..]);
        SpacesOnlyJoin(" ", ReplaceAll(s[n..], WsRun));
      } else {
        CollapseSpacesOnly(s[1..]);
        SpacesOnlyJoin([s[0]], ReplaceAll(s[1..], WsRun));
      }
    }
  }

  lemma {:induction false} ReplaceSpacesOnly(s: string, p: Pattern)
    requires ValidPattern(p) && SpacesOnly(s)
    ensures SpacesOnly(ReplaceAll(s, p))
    decreases |s|
  {
    if s != [] {
      var n := MatchAt(p, s);
      if n > 0 {
        assert SpacesOnly(s[n..]) by {
          forall i | 0 <= i < |s[n..]| && IsWs(s[n..][i]) ensures s[n..][i] == ' ' {
            assert s[n..][i] == s[n + i];
          }
        }
        ReplaceSpacesOnly(s[n..], p);
        SpacesOnlyJoin(Replacement(p), ReplaceAll(s[n..], p));
      } else {
        assert SpacesOnly(s[1..]) by {
          forall i | 0 <= i < |s[1..]| && IsWs(s[1..][i]) ensures s[1..][i] == ' ' {
            assert s[1..][i] == s[1 + i];
          }
        }
        ReplaceSpacesOnly(s[1..], p);
        SpacesOnlyJoin([s[0]], ReplaceAll(s[1..], p));
      }
    }
  }

  /** Deleting whitespace in front of `c` leaves no whitespace in front of `c`. */
  lemma {:induction false} DeleteBeforeMark(s: string, c: char)
    requires !IsWs(c)
    ensures Keeps(ReplaceAll(s, WsRunThen(c)), NoWsBefore(c))
    decreases |s|
  {
    var p := WsRunThen(c);
    if s != [] {
      var n := MatchAt(p, s);
      if n > 0 {
        DeleteBeforeMark(s[n..], c);
        KeepsJoin([c], ReplaceAll(s[n..], p), NoWsBefore(c));
      } else {
        DeleteBeforeMark(s[1..], c);
        if |s| > 1 && IsWs(s[0]) {
          ReplaceAfterUnmatchedWs(s, p);
          assert RunLen(s) == 1 + RunLen(s[1..]);
          if !IsWs(s[1]) {
            assert RunLen(s) == 1;
          }
        }
        KeepsJoin([s[0]], ReplaceAll(s[1..], p), NoWsBefore(c));
      }
    }
  }

  lemma NonWsOfRun(s: string, k: nat)
    requires k <= |s| && forall i :: 0 <= i < k ==> IsWs(s[i])
    ensures NonWs(s[..k]) == []
  {
    BlankIffNoNonWs(s[..k]);
  }

  /** A match holds the same non-whitespace characters as its replacement. */
  lemma MatchText(s: string, p: Pattern)
    requires MatchAt(p, s) > 0
    ensures NonWs(s[..MatchAt(p, s)]) == NonWs(Replacement(p))
  {
    var n := MatchAt(p, s);
    match p
    case WsRun =>
      NonWsOfRun(s, n);
    case WsRunThen(c) =>
      var k := RunLen(s);
      NonWsOfRun(s, k);
      assert s[..n] == s[..k] + [c];
      NonWsAppend(s[..k], [c]);
    case MarkThenWsRun(c) =>
      var t := s[1..];
      NonWsOfRun(t, n - 1);
      assert s[..n] == [c] + t[..n - 1];
      NonWsAppend([c], t[..n - 1]);
  }

  /** Replacing keeps every non-whitespace character, in order. */
  lemma {:induction false} ReplaceKeepsText(s: string, p: Pattern)
    ensures NonWs(ReplaceAll(s, p)) == NonWs(s)
    decreases |s|
  {
    if s != [] {
      var n := MatchAt(p, s);
      if n > 0 {
        ReplaceKeepsText(s[n..], p);
        NonWsAppend(Replacement(p), ReplaceAll(s[n..], p));
        assert s == s[..n] + s[n..];
        NonWsAppend(s[..n], s[n..]);
        MatchText(s, p);
      } else {
        ReplaceKeepsText(s[1..], p);
        NonWsAppend([s[0]], ReplaceAll(s[1..], p));
        assert s == [s[0]] + s[1..];
        NonWsAppend([s[0]], s[1..]);
      }
    }
  }

  // ---------------------------------------------------------------------------------
  // The anchored deletions only cut off an end of the string.

  lemma TrimEndIsPrefix(s: string)
    ensures NonWs(TrimEnd(s)) == NonWs(s)
    ensures s == TrimEnd(s) + s[|TrimEnd(s)|..]
  {
    var r := TrimEnd(s);
    assert s == r + s[|r|..];
    NonWsAppend(r, s[|r|..]);
    NonWsOfRun(s[|r|..], |s| - |r|);
    assert s[|r|..][..|s| - |r|] == s[|r|..];
  }

  lemma TrimStartIsSuffix(s: string)
    ensures NonWs(TrimStart(s)) == NonWs(s)
    ensures TrimStart(s) == [] || !IsWs(TrimStart(s)[0])
    ensures s == s[..|s| - |TrimStart(s)|] + TrimStart(s)
    ensures forall i :: 0 <= i < |s| - |TrimStart(s)| ==> IsWs(s[i])
  {
    var k := RunLen(s);
    assert s == s[..k] + s[k..];
    NonWsAppend(s[..k], s[k..]);
    NonWsOfRun(s, k);
  }

  /** Everything in `s` before `lo` and from `hi` on is whitespace. */
  predicate WsAround(s: string, lo: nat, hi: nat)
  {
    && lo <= hi <= |s|
    && (forall i :: 0 <= i < lo ==> IsWs(s[i]))
    && (forall i :: hi <= i < |s| ==> IsWs(s[i]))
  }

  /** Cutting a whitespace suffix off `s` to get `e`, then a whitespace prefix off `e` to
      get `t`, leaves `t` as an infix of `s` with only whitespace around it. */
  lemma CutBothEnds(s: string, e: string, t: string)
    requires |t| <= |e| <= |s|
    requires s == e + s[|e|..] && forall i :: |e| <= i < |s| ==> IsWs(s[i])
    requires e == e[..|e| - |t|] + t && forall i :: 0 <= i < |e| - |t| ==> IsWs(e[i])
    ensures exists lo: nat, hi: nat :: WsAround(s, lo, hi) && t == s[lo..hi]
  {
    var lo, hi := |e| - |t|, |e|;
    assert t == s[lo..hi];
    forall i | 0 <= i < lo ensures IsWs(s[i]) {
      assert s[i] == e[i];
    }
    assert WsAround(s, lo, hi);
  }

  /** `trim` cuts a whitespace run off each end and keeps everything between them. */
  lemma TrimIsInfix(s: string)
    ensures exists lo: nat, hi: nat :: WsAround(s, lo, hi) && Trim(s) == s[lo..hi]
    ensures NonWs(Trim(s)) == NonWs(s)
  {
    var e, t := TrimEnd(s), Trim(s);
    assert |e| <= |s| && s == e + s[|e|..] && forall i :: |e| <= i < |s| ==> IsWs(s[i]) by {
      TrimEndIsPrefix(s);
    }
    assert |t| <= |e| && e == e[..|e| - |t|] + t && forall i :: 0 <= i < |e| - |t| ==> IsWs(e[i])
    by {
      TrimStartIsSuffix(e);
    }
    CutBothEnds(s, e, t);
    assert NonWs(t) == NonWs(s) by {
      TrimEndIsPrefix(s);
      TrimStartIsSuffix(e);
    }
  }

  /** The pair and space properties the chain establishes. */
  predicate Shaped(s: string)
  {
    && SpacesOnly(s)
    && Keeps(s, NoDoubleWs)
    && forall c :: c in Marks ==> Keeps(s, NoWsBefore(c))
  }

  lemma SliceShaped(s: string, lo: nat, hi: nat)
    requires lo <= hi <= |s| && Shaped(s)
    ensures Shaped(s[lo..hi])
  {
    KeepsSlice(s, lo, hi, NoDoubleWs);
    forall c | c in Marks ensures Keeps(s[lo..hi], NoWsBefore(c)) {
      KeepsSlice(s, lo, hi, NoWsBefore(c));
    }
  }

  lemma TrimEndShaped(s: string)
    requires Shaped(s)
    ensures Shaped(TrimEnd(s)) && NonWs(TrimEnd(s)) == NonWs(s)
  {
    TrimEndIsPrefix(s);
    SliceShaped(s, 0, |TrimEnd(s)|);
    assert s[0..|TrimEnd(s)|] == TrimEnd(s);
  }

  lemma TrimStartShaped(s: string)
    requires Shaped(s)
    ensures Shaped(TrimStart(s)) && NonWs(TrimStart(s)) == NonWs(s)
    ensures TrimStart(s) == [] || !IsWs(TrimStart(s)[0])
    ensures s == [] || !IsWs(s[|s| - 1]) ==> TrimStart(s) == [] || !IsWs(TrimStart(s)[|TrimStart(s)| - 1])
  {
    TrimStartIsSuffix(s);
    SliceShaped(s, RunLen(s), |s|);
  }

  // ---------------------------------------------------------------------------------
  // The chain.

  /** Invariant of the chain after its first `k` steps (k >= 1). */
  predicate ChainShape(s: string, k: nat)
    requires k <= |Chain|
  {
    && SpacesOnly(s)
    && Keeps(s, NoDoubleWs)
    && forall j :: 1 <= j < k && Chain[j].WsRunThen? ==> Keeps(s, NoWsBefore(Chain[j].mark))
  }

  lemma {:induction false} ChainSteps(s: string, k: nat)
    requires 1 <= k <= |Chain| && ChainShape(s, k)
    ensures ChainShape(ApplyFrom(s, k), |Chain|)
    ensures NonWs(ApplyFrom(s, k)) == NonWs(s)
    decreases |Chain| - k
  {
    if k < |Chain| {
      var p := Chain[k];
      var t := ReplaceAll(s, p);
      assert ValidPattern(p);
      ReplaceSpacesOnly(s, p);
      ReplaceKeeps(s, p, NoDoubleWs);
      forall j | 1 <= j < k + 1 && Chain[j].WsRunThen?
        ensures Keeps(t, NoWsBefore(Chain[j].mark))
      {
        if j == k {
          DeleteBeforeMark(s, p.mark);
        } else {
          ReplaceKeeps(s, p, NoWsBefore(Chain[j].mark));
        }
      }
      ReplaceKeepsText(s, p);
      ChainSteps(t, k + 1);
    }
  }

  lemma ChainResult(s: string)
    ensures ChainShape(ApplyFrom(s, 0), |Chain|)
    ensures NonWs(ApplyFrom(s, 0)) == NonWs(s)
  {
    var t := ReplaceAll(s, WsRun);
    CollapseSpacesOnly(s);
    CollapseNoDoubleWs(s);
    ReplaceKeepsText(s, WsRun);
    assert ChainShape(t, 1);
    ChainSteps(t, 1);
  }

  lemma MarksAreChecked(c: char)
    requires c in Marks
    ensures exists j :: 1 <= j < |Chain| && Chain[j] == WsRunThen(c)
  {
    if c == '.' { assert Chain[1] == WsRunThen(c); }
    else if c == ',' { assert Chain[2] == WsRunThen(c); }
    else if c == '!' { assert Chain[5] == WsRunThen(c); }
    else if c == '?' { assert Chain[7] == WsRunThen(c); }
    else if c == ':' { assert Chain[9] == WsRunThen(c); }
    else { assert Chain[11] == WsRunThen(c); }
  }

  /** The cleaned answer keeps exactly the non-whitespace characters of the raw answer, in
      order, and is tidy: no whitespace at either end, every whitespace a single plain
      space, and no whitespace in front of `.` `,` `!` `?` `:` `;`. */
  lemma CleanIsTidy(s: string)
    ensures NonWs(Clean(s)) == NonWs(s)
    ensures Tidy(Clean(s))
  {
    var a := ApplyFrom(s, 0);
    ChainResult(s);
    forall c | c in Marks ensures Keeps(a, NoWsBefore(c)) {
      MarksAreChecked(c);
      var j :| 1 <= j < |Chain| && Chain[j] == WsRunThen(c);
      assert Chain[j].mark == c;
    }
    assert Shaped(a);
    TrimEndShaped(a);
    TrimStartShaped(TrimEnd(a));
    TrimEndShaped(TrimStart(TrimEnd(a)));
    TrimStartShaped(TrimEnd(TrimStart(TrimEnd(a))));
  }

  /** Cleaning changes only whitespace: a raw answer with none comes back unchanged. */
  lemma CleanWithoutWs(s: string)
    requires forall i :: 0 <= i < |s| ==> !IsWs(s[i])
    ensures Clean(s) == s
  {
    ApplyFromWithoutWs(s, 0);
  }

  lemma {:induction false} ReplaceWithoutWs(s: string, p: Pattern)
    requires forall i :: 0 <= i < |s| ==> !IsWs(s[i])
    ensures ReplaceAll(s, p) == s
    decreases |s|
  {
    if s != [] {
      assert !IsWs(s[0]) && (|s| > 1 ==> !IsWs(s[1]));
      assert MatchAt(p, s) == 0;
      ReplaceWithoutWs(s[1..], p);
    }
  }

  lemma {:induction false} ApplyFromWithoutWs(s: string, k: nat)
    requires k <= |Chain|
    requires forall i :: 0 <= i < |s| ==> !IsWs(s[i])
    ensures ApplyFrom(s, k) == s
    decreases |Chain| - k
  {
    if k < |Chain| {
      ReplaceWithoutWs(s, Chain[k]);
      ApplyFromWithoutWs(s, k + 1);
    }
  }

  // ---------------------------------------------------------------------------------
  // A whitespace run between two words becomes one space.

  /** Length of the run of non-whitespace characters that starts `s`. */
  function WordLen(s: string): (k: nat)
    ensures k <= |s|
    ensures k < |s| ==> IsWs(s[k])
  {
    if s != [] && !IsWs(s[0]) then 1 + WordLen(s[1..]) else 0
  }

  lemma {:induction false} WordLenIsWord(s: string)
    ensures forall i :: 0 <= i < WordLen(s) ==> !IsWs(s[i])
    decreases |s|
  {
    if s != [] && !IsWs(s[0]) {
      WordLenIsWord(s[1..]);
      forall i | 0 < i < WordLen(s) ensures !IsWs(s[i]) {
        assert s[i] == s[1..][i - 1];
      }
    }
  }

  predicate IsWord(w: string)
  {
    w != [] && forall j :: 0 <= j < |w| ==> !IsWs(w[j])
  }

  /** The words of `s`: its maximal runs of non-whitespace characters, in order. */
  function Words(s: string): (ws: seq<string>)
    ensures forall i :: 0 <= i < |ws| ==> IsWord(ws[i])
    ensures s != [] && !IsWs(s[0]) ==> ws != []
    decreases |s|
  {
    if s == [] then []
    else if IsWs(s[0]) then Words(s[RunLen(s)..])
    else
      WordLenIsWord(s);
      [s[..WordLen(s)]] + Words(s[WordLen(s)..])
  }

  /** The words separated by single spaces. */
  function JoinWords(ws: seq<string>): string
  {
    if ws == [] then [] else if |ws| == 1 then ws[0] else ws[0] + " " + JoinWords(ws[1..])
  }

  lemma {:induction false} JoinWordsEnds(ws: seq<string>)
    requires forall i :: 0 <= i < |ws| ==> IsWord(ws[i])
    ensures JoinWords(ws) == [] || (!IsWs(JoinWords(ws)[0]) && !IsWs(JoinWords(ws)[|JoinWords(ws)| - 1]))
    ensures ws != [] ==> JoinWords(ws) != []
    decreases |ws|
  {
    if |ws| > 1 {
      JoinWordsEnds(ws[1..]);
      assert IsWord(ws[0]);
    } else if |ws| == 1 {
      assert IsWord(ws[0]);
    }
  }

  /** `/\s+/g` writes one space for a whole whitespace run. */
  lemma CollapseRun(s: string)
    requires s != [] && IsWs(s[0])
    ensures ReplaceAll(s, WsRun) == " " + ReplaceAll(s[RunLen(s)..], WsRun)
  {
  }

  /** Whitespace at the end of `a + b` lies in `b` when `b` starts with a non-whitespace
      character. */
  lemma {:induction false} TrimEndAppend(a: string, b: string)
    requires b != [] && !IsWs(b[0])
    ensures TrimEnd(a + b) == a + TrimEnd(b)
    decreases |b|
  {
    var ab := a + b;
    if IsWs(b[|b| - 1]) {
      assert ab[..|ab| - 1] == a + b[..|b| - 1];
      TrimEndAppend(a, b[..|b| - 1]);
    }
  }

  /** What follows the first word of `s` and the whitespace run after it. */
  function AfterGap(s: string): (r: string)
    ensures |r| <= |s|
    ensures r == [] || !IsWs(r[0])
  {
    var t := s[WordLen(s)..];
    t[RunLen(t)..]
  }

  lemma WordsStep(s: string)
    requires s != [] && !IsWs(s[0])
    ensures Words(s) == [s[..WordLen(s)]] + Words(AfterGap(s))
  {
    var t := s[WordLen(s)..];
    if t != [] {
      assert Words(t) == Words(AfterGap(s));
    }
  }

  /** `/\s+/g` leaves a lone word unchanged. */
  lemma CollapseWholeWord(s: string)
    requires WordLen(s) == |s|
    ensures ReplaceAll(s, WsRun) == s
  {
    WordLenIsWord(s);
    ReplaceWithoutWs(s, WsRun);
  }

  /** `/\s+/g` copies the first word and writes one space for the run after it. */
  lemma {:induction false} CollapseWordGap(s: string)
    requires WordLen(s) < |s|
    ensures ReplaceAll(s, WsRun) == (s[..WordLen(s)] + " ") + ReplaceAll(AfterGap(s), WsRun)
    decreases |s|
  {
    if WordLen(s) == 0 {
      CollapseRun(s);
      assert s[..0] + " " == " ";
    } else {
      var t, k := s[1..], WordLen(s);
      var c := ReplaceAll(AfterGap(s), WsRun);
      assert ReplaceAll(s, WsRun) == [s[0]] + ReplaceAll(t, WsRun) by {
        assert MatchAt(WsRun, s) == 0;
      }
      assert ReplaceAll(t, WsRun) == (t[..k - 1] + " ") + c by {
        assert WordLen(t) == k - 1;
        assert t[k - 1..] == s[k..];
        CollapseWordGap(t);
      }
      assert s[..k] == [s[0]] + t[..k - 1];
      assert [s[0]] + ((t[..k - 1] + " ") + c) == (([s[0]] + t[..k - 1]) + " ") + c;
    }
  }

  /** Collapsing, then cutting the trailing space, gives the words of a text that starts
      with a word, joined by single spaces. */
  lemma {:induction false} CollapseFromWord(s: string)
    requires s == [] || !IsWs(s[0])
    ensures TrimEnd(ReplaceAll(s, WsRun)) == JoinWords(Words(s))
    decreases |s|
  {
    if s != [] {
      var w, u := s[..WordLen(s)], AfterGap(s);
      WordsStep(s);
      if u == [] {
        assert Words(s) == [w];
        if WordLen(s) < |s| {
          CollapseWordGap(s);
          assert (w + " ")[..|w|] == w;
        } else {
          CollapseWholeWord(s);
          assert w == s;
        }
        assert TrimEnd(w) == w;
      } else {
        var c := ReplaceAll(u, WsRun);
        CollapseWordGap(s);
        CollapseFromWord(u);
        ReplaceHead(u, WsRun);
        TrimEndAppend(w + " ", c);
        JoinCons(w, Words(u));
      }
    }
  }

  lemma JoinCons(w: string, ws: seq<string>)
    requires ws != []
    ensures JoinWords([w] + ws) == w + " " + JoinWords(ws)
  {
    assert ([w] + ws)[1..] == ws;
  }

  lemma TrimStartAfterSpace(x: string)
    requires x != [] && !IsWs(x[0])
    ensures TrimStart(" " + x) == x
  {
    assert RunLen(" " + x) == 1 by {
      assert (" " + x)[1..] == x;
    }
  }

  lemma CollapseJoinsFromGap(s: string)
    requires s != [] && IsWs(s[0])
    ensures Trim(ReplaceAll(s, WsRun)) == JoinWords(Words(s))
  {
    var u := s[RunLen(s)..];
    assert Words(s) == Words(u);
    assert ReplaceAll(s, WsRun) == " " + ReplaceAll(u, WsRun) by {
      CollapseRun(s);
    }
    if u == [] {
      assert TrimEnd(" ") == [];
    } else {
      var c, j := ReplaceAll(u, WsRun), JoinWords(Words(u));
      assert TrimEnd(c) == j by {
        CollapseFromWord(u);
      }
      assert TrimEnd(" " + c) == " " + TrimEnd(c) by {
        ReplaceHead(u, WsRun);
        TrimEndAppend(" ", c);
      }
      assert TrimStart(" " + j) == j by {
        JoinWordsEnds(Words(u));
        TrimStartAfterSpace(j);
      }
    }
  }

  /** `/\s+/g` followed by `trim` joins the words of the text with single spaces: a
      whitespace run between two words becomes exactly one space, and runs at the ends go. */
  lemma CollapseJoinsWords(s: string)
    ensures Trim(ReplaceAll(s, WsRun)) == JoinWords(Words(s))
  {
    if s != [] && IsWs(s[0]) {
      CollapseJoinsFromGap(s);
    } else {
      var j := JoinWords(Words(s));
      assert TrimEnd(ReplaceAll(s, WsRun)) == j by {
        CollapseFromWord(s);
      }
      assert TrimStart(j) == j by {
        JoinWordsEnds(Words(s));
        assert j == [] || RunLen(j) == 0;
      }
    }
  }

  predicate IsMark(c: char)
  {
    c == '.' || c == ',' || c == '!' || c == '?' || c == ':' || c == ';'
  }

  /** The text holds none of the marks the chain treats specially. */
  predicate NoMarks(s: string)
  {
    forall i :: 0 <= i < |s| ==> !IsMark(s[i])
  }

  lemma {:induction false} CollapseNoMarks(s: string)
    requires NoMarks(s)
    ensures NoMarks(ReplaceAll(s, WsRun))
    decreases |s|
  {
    if s != [] {
      var n := MatchAt(WsRun, s);
      var k := if n > 0 then n else 1;
      assert NoMarks(s[k..]) by {
        forall i | 0 <= i < |s[k..]| ensures !IsMark(s[k..][i]) { assert s[k..][i] == s[k + i]; }
      }
      CollapseNoMarks(s[k..]);
    }
  }

  /** A pattern whose mark does not occur leaves the text unchanged. */
  lemma {:induction false} ReplaceWithoutMark(s: string, p: Pattern)
    requires !p.WsRun? && forall i :: 0 <= i < |s| ==> s[i] != p.mark
    ensures ReplaceAll(s, p) == s
    decreases |s|
  {
    if s != [] {
      assert MatchAt(p, s) == 0;
      assert forall i :: 0 <= i < |s[1..]| ==> s[1..][i] != p.mark by {
        forall i | 0 <= i < |s[1..]| ensures s[1..][i] != p.mark { assert s[1..][i] == s[1 + i]; }
      }
      ReplaceWithoutMark(s[1..], p);
    }
  }

  lemma ChainMarks(k: nat)
    requires 1 <= k < |Chain|
    ensures !Chain[k].WsRun? && IsMark(Chain[k].mark)
  {
  }

  lemma {:induction false} ApplyFromWithoutMarks(s: string, k: nat)
    requires 1 <= k <= |Chain| && NoMarks(s)
    ensures ApplyFrom(s, k) == s
    decreases |Chain| - k
  {
    if k < |Chain| {
      var p := Chain[k];
      ChainMarks(k);
      assert forall i :: 0 <= i < |s| ==> s[i] != p.mark by {
        forall i | 0 <= i < |s| ensures s[i] != p.mark { assert !IsMark(s[i]); }
      }
      ReplaceWithoutMark(s, p);
      ApplyFromWithoutMarks(s, k + 1);
    }
  }

  /** On a text without `. , ! ? : ;` the cleaned answer is its words joined by single
      spaces. */
  lemma CleanJoinsWords(s: string)
    requires NoMarks(s)
    ensures Clean(s) == JoinWords(Words(s))
  {
    var c := ReplaceAll(s, WsRun);
    CollapseNoMarks(s);
    ApplyFromWithoutMarks(c, 1);
    assert ApplyFrom(s, 0) == c;
    CollapseJoinsWords(s);
    var j := JoinWords(Words(s));
    JoinWordsEnds(Words(s));
    assert TrimEnd(j) == j;
    assert RunLen(j) == 0;
  }

  // ---------------------------------------------------------------------------------
  // Cleaning a cleaned answer again changes nothing.

  /** Every replacement of the chain leaves a shaped string as it is: each whitespace is
      already a lone space, none stands before a mark, and after a mark it is already the
      single space the replacement writes. */
  lemma NoMatchBeforeMark(s: string, c: char)
    requires Shaped(s) && c in Marks
    ensures MatchAt(WsRunThen(c), s) == 0
  {
    if 0 < RunLen(s) < |s| {
      assert Allowed(NoDoubleWs, s[0], s[1]);
      assert Allowed(NoWsBefore(c), s[0], s[1]);
    }
  }

  /** On a shaped text a match is already its own replacement. */
  lemma ShapedMatchIsReplacement(s: string, p: Pattern)
    requires Shaped(s) && s != [] && MatchAt(p, s) > 0 && !p.WsRunThen?
    ensures Replacement(p) == s[..MatchAt(p, s)]
  {
    var n := MatchAt(p, s);
    if p.WsRun? {
      assert n == 1 by { if |s| > 1 { assert Allowed(NoDoubleWs, s[0], s[1]); } }
    } else {
      assert s[1..][0] == s[1];
      assert n == 2 by {
        if |s| > 2 {
          assert Allowed(NoDoubleWs, s[1], s[2]);
          assert s[1..][1] == s[2];
        }
      }
    }
  }

  /** Where the scan goes on after the first step: past the match, or past one kept
      character. */
  function Skip(p: Pattern, s: string): (k: nat)
    requires s != []
    ensures 0 < k <= |s|
  {
    if MatchAt(p, s) > 0 then MatchAt(p, s) else 1
  }

  /** The step of `ReplaceShaped`: the first match or character is left as it is. */
  lemma ReplaceShapedStep(s: string, p: Pattern)
    requires s != [] && Shaped(s) && (p.WsRunThen? ==> p.mark in Marks)
    requires ReplaceAll(s[Skip(p, s)..], p) == s[Skip(p, s)..]
    ensures ReplaceAll(s, p) == s
  {
    var n := MatchAt(p, s);
    if p.WsRunThen? {
      NoMatchBeforeMark(s, p.mark);
    }
    if n > 0 {
      ShapedMatchIsReplacement(s, p);
      assert s == s[..n] + s[n..];
    } else {
      assert s == [s[0]] + s[1..];
    }
  }

  lemma {:induction false} ReplaceShaped(s: string, p: Pattern)
    requires Shaped(s) && (p.WsRunThen? ==> p.mark in Marks)
    ensures ReplaceAll(s, p) == s
    decreases |s|
  {
    if s != [] {
      var k := Skip(p, s);
      SliceShaped(s, k, |s|);
      ReplaceShaped(s[k..], p);
      ReplaceShapedStep(s, p);
    }
  }

  lemma {:induction false} ApplyFromShaped(s: string, k: nat)
    requires k <= |Chain| && Shaped(s)
    ensures ApplyFrom(s, k) == s
    decreases |Chain| - k
  {
    if k < |Chain| {
      assert Chain[k].WsRunThen? ==> Chain[k].mark in Marks;
      ReplaceShaped(s, Chain[k]);
      ApplyFromShaped(s, k + 1);
    }
  }

  /** A tidy answer is left unchanged by cleaning. */
  lemma CleanKeepsTidy(s: string)
    requires Tidy(s)
    ensures Clean(s) == s
  {
    ApplyFromShaped(s, 0);
    assert TrimEnd(s) == s by {
      if |TrimEnd(s)| < |s| { assert false; }
    }
    assert RunLen(s) == 0;
  }

  /** Cleaning is idempotent. */
  lemma CleanIdempotent(s: string)
    ensures Clean(Clean(s)) == Clean(s)
  {
    CleanIsTidy(s);
    CleanKeepsTidy(Clean(s));
  }
}
