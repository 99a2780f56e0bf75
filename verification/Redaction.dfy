/**
 The secret redactor: iterated replace-all.  A secret can survive it, in some
 redactor and on some text, exactly if it touches the mark; without brackets that
 means it is a piece of the word "redacted".  Strings are byte strings, as the
 source measures and compares them.
 */
module Redaction {

  const WORD := "redacted"
  const MARK := "[" + WORD + "]"

  // ----- strings -----

  ghost predicate OccursAt(s: string, v: string, i: int) {
    0 <= i <= |s| - |v| && s[i..i + |v|] == v
  }

  ghost predicate Contains(s: string, v: string) {
    exists i :: OccursAt(s, v, i)
  }

  predicate Plain(v: string) {
    '[' !in v && ']' !in v
  }

  predicate StartsWith(s: string, v: string) {
    |v| <= |s| && s[..|v|] == v
  }

  /** strings.ReplaceAll for a non-empty pattern: leftmost, non-overlapping. */
  function ReplaceAll(s: string, v: string): string
    requires v != ""
    decreases |s|
  {
    if |s| < |v| then s
    else if StartsWith(s, v) then MARK + ReplaceAll(s[|v|..], v)
    else [s[0]] + ReplaceAll(s[1..], v)
  }

  lemma ContainsTail(s: string, k: nat, u: string)
    requires k <= |s| && Contains(s[k..], u)
    ensures Contains(s, u)
  {
    var i :| OccursAt(s[k..], u, i);
    assert OccursAt(s, u, i + k);
  }

  /** Where an occurrence in a concatenation can lie. */
  lemma OccursInTail(a: string, b: string, u: string, i: int)
    requires OccursAt(a + b, u, i) && i >= |a|
    ensures OccursAt(b, u, i - |a|)
  {
    assert (a + b)[i..i + |u|] == b[i - |a|..i - |a| + |u|];
  }

  lemma CoversLetter(s: string, u: string, i: int, p: int)
    requires OccursAt(s, u, i) && i <= p < i + |u|
    ensures s[p] in u
  {
    assert u[p - i] == s[p];
  }

  /** What sets a string apart from the mark: it is not inside the mark, does not
      contain it, and does not overlap it at either end. */
  ghost predicate TouchesMark(mark: string, u: string) {
    || Contains(mark, u)
    || Contains(u, mark)
    || (exists k :: MarkEndsIn(mark, u, k))
    || (exists k :: MarkStartsIn(mark, u, k))
  }

  /** A proper prefix of `u`, of length `k`, ends the mark. */
  predicate MarkEndsIn(mark: string, u: string, k: int) {
    0 < k < |u| && k <= |mark| && u[..k] == mark[|mark| - k..]
  }

  /** A proper suffix of `u`, from `k` on, starts the mark. */
  predicate MarkStartsIn(mark: string, u: string, k: int) {
    0 < k < |u| && |u| - k <= |mark| && u[k..] == mark[..|u| - k]
  }

  ghost predicate Touches(u: string) {
    TouchesMark(MARK, u)
  }

  /** A string that starts inside the mark touches it. */
  lemma StartsInMark(mark: string, rest: string, u: string, i: int)
    requires u != "" && OccursAt(mark + rest, u, i) && i < |mark|
    ensures TouchesMark(mark, u)
  {
    var whole, m := mark + rest, |mark|;
    if i + |u| <= m {
      assert whole[i..i + |u|] == mark[i..i + |u|];
      assert OccursAt(mark, u, i);
    } else if i == 0 {
      assert u[0..m] == whole[..m] == mark;
      assert OccursAt(u, mark, 0);
    } else {
      assert u[..m - i] == whole[i..m] == mark[m - (m - i)..];
      assert MarkEndsIn(mark, u, m - i);
    }
  }

  /** A string that does not touch the mark lies behind it. */
  lemma AfterAnyMark(mark: string, rest: string, u: string)
    requires u != "" && Contains(mark + rest, u)
    ensures TouchesMark(mark, u) || Contains(rest, u)
  {
    var i :| OccursAt(mark + rest, u, i);
    if i >= |mark| {
      OccursInTail(mark, rest, u, i);
    } else {
      StartsInMark(mark, rest, u, i);
    }
  }

  /** No tail of `p` begins like the mark. */
  ghost predicate Clear(mark: string, p: string) {
    forall k :: 0 <= k < |p| ==> !StartsWith(p[k..], mark) && !StartsWith(mark, p[k..])
  }

  lemma UntouchedIsClear(mark: string, u: string)
    requires !TouchesMark(mark, u)
    ensures Clear(mark, u)
  {
    forall k | 0 <= k < |u|
      ensures !StartsWith(u[k..], mark) && !StartsWith(mark, u[k..])
    {
      assert !OccursAt(u, mark, k);
      if k == 0 {
        assert u[0..] == u;
        assert !OccursAt(mark, u, 0);
      } else {
        assert !MarkStartsIn(mark, u, k);
      }
    }
  }

  lemma ClearTail(mark: string, p: string)
    requires Clear(mark, p) && p != ""
    ensures Clear(mark, p[1..])
  {
    forall k | 0 <= k < |p[1..]|
      ensures !StartsWith(p[1..][k..], mark) && !StartsWith(mark, p[1..][k..])
    {
      assert p[1..][k..] == p[k + 1..];
    }
  }

  lemma MarkBegins(mark: string, p: string, rest: string)
    requires StartsWith(mark + rest, p)
    ensures StartsWith(mark, p) || StartsWith(p, mark)
  {
    if |p| <= |mark| {
      assert mark[..|p|] == (mark + rest)[..|p|];
    } else {
      assert p[..|mark|] == (mark + rest)[..|mark|] == mark;
    }
  }

  lemma ClearIsNoMark(mark: string, p: string, rest: string)
    requires Clear(mark, p) && p != ""
    ensures !StartsWith(mark + rest, p)
  {
    assert p[0..] == p;
    if StartsWith(mark + rest, p) {
      MarkBegins(mark, p, rest);
    }
  }

  /** Up to the first mark, replacing changes nothing. */
  lemma {:induction false} ClearPrefixKept(s: string, v: string, p: string)
    requires v != "" && Clear(MARK, p) && StartsWith(ReplaceAll(s, v), p)
    ensures StartsWith(s, p)
    decreases |s|
  {
    if p != "" && |s| >= |v| {
      hide Clear;
      if StartsWith(s, v) {
        ClearIsNoMark(MARK, p, ReplaceAll(s[|v|..], v));
      } else {
        var rest := ReplaceAll(s[1..], v);
        assert p[0] == s[0] && rest[..|p| - 1] == p[1..];
        ClearTail(MARK, p);
        ClearPrefixKept(s[1..], v, p[1..]);
        assert s[..|p|] == [s[0]] + s[1..][..|p| - 1];
      }
    }
  }

  /** No replacement recreates a string that does not touch the mark: if it is in
      the result it was in the input, and is not what was replaced. */
  lemma {:induction false} SurvivorsWereThere(s: string, v: string, u: string)
    requires v != "" && u != "" && !Touches(u) && Contains(ReplaceAll(s, v), u)
    ensures Contains(s, u) && u != v
    decreases |s|
  {
    hide TouchesMark;
    var r := ReplaceAll(s, v);
    var i :| OccursAt(r, u, i);
    if |s| < |v| {
      assert Contains(s, u);
    } else if StartsWith(s, v) {
      AfterAnyMark(MARK, ReplaceAll(s[|v|..], v), u);
      SurvivorsWereThere(s[|v|..], v, u);
      ContainsTail(s, |v|, u);
    } else if i == 0 {
      UntouchedIsClear(MARK, u);
      assert StartsWith(r, u);
      ClearPrefixKept(s, v, u);
      assert OccursAt(s, u, 0);
    } else {
      OccursInTail([s[0]], ReplaceAll(s[1..], v), u, i);
      SurvivorsWereThere(s[1..], v, u);
      ContainsTail(s, 1, u);
    }
  }

  // ----- plain strings -----

  lemma AfterBrackets(word: string, u: string)
    requires Plain(u) && u != "" && Contains("[" + word + "]", u)
    ensures Contains(word, u)
  {
    var whole, n := "[" + word + "]", |word| + 1;
    var i :| OccursAt(whole, u, i);
    CoversLetter(whole, u, i, i);
    if i + |u| > n {
      CoversLetter(whole, u, i, n);
    }
    assert whole[i..i + |u|] == word[i - 1..i - 1 + |u|];
    assert OccursAt(word, u, i - 1);
  }

  lemma PlainMeetsNoEnd(word: string, u: string, k: int)
    requires Plain(u)
    ensures !MarkEndsIn("[" + word + "]", u, k) && !MarkStartsIn("[" + word + "]", u, k)
  {
    var mark := "[" + word + "]";
    if 0 < k < |u| {
      assert u[..k][k - 1] in u && u[k..][0] in u;
      assert k <= |mark| ==> mark[|mark| - k..][k - 1] == ']';
      assert |u| - k <= |mark| ==> mark[..|u| - k][0] == '[';
    }
  }

  /** A string without brackets touches the mark iff it is a piece of the word. */
  lemma PlainTouchesIff(u: string)
    requires Plain(u) && u != ""
    ensures Touches(u) <==> Contains(WORD, u)
  {
    if Contains(WORD, u) {
      assert MARK[1..1 + |WORD|] == WORD;
      assert OccursAt(MARK, WORD, 1);
      ContainsTrans(MARK, WORD, u);
    }
    if Contains(MARK, u) {
      AfterBrackets(WORD, u);
    }
    if Contains(u, MARK) {
      assert MARK[0] == '[';
      LetterThere(u, MARK, '[');
    }
    forall k
      ensures !MarkEndsIn(MARK, u, k) && !MarkStartsIn(MARK, u, k)
    {
      PlainMeetsNoEnd(WORD, u, k);
    }
  }

  /** Without an occurrence nothing changes; with one the mark appears. */
  lemma {:induction false} ReplaceAbsent(s: string, v: string)
    requires v != "" && !Contains(s, v)
    ensures ReplaceAll(s, v) == s
    decreases |s|
  {
    if |s| >= |v| {
      assert !OccursAt(s, v, 0);
      if Contains(s[1..], v) {
        ContainsTail(s, 1, v);
      }
      ReplaceAbsent(s[1..], v);
    }
  }

  lemma {:induction false} ReplacePresent(s: string, v: string)
    requires v != "" && Contains(s, v)
    ensures Contains(ReplaceAll(s, v), WORD)
    decreases |s|
  {
    var r := ReplaceAll(s, v);
    if StartsWith(s, v) {
      assert r[1..9] == WORD;
      assert OccursAt(r, WORD, 1);
    } else {
      var i :| OccursAt(s, v, i);
      assert OccursAt(s[1..], v, i - 1);
      ReplacePresent(s[1..], v);
      assert r[1..] == ReplaceAll(s[1..], v);
      ContainsTail(r, 1, WORD);
    }
  }

  // ----- the loop over the values -----

  function RedactAll(values: seq<string>, s: string): string
    requires "" !in values
  {
    if values == [] then s else RedactAll(values[1..], ReplaceAll(s, values[0]))
  }

  /** A value that does not touch the mark never survives, whatever the other
      values and their order. */
  lemma {:induction false} ValueRemoved(values: seq<string>, s: string, u: string)
    requires "" !in values && u != "" && !Touches(u)
    requires u in values || !Contains(s, u)
    ensures !Contains(RedactAll(values, s), u)
  {
    hide Touches, Contains;
    if values != [] {
      var s' := ReplaceAll(s, values[0]);
      if Contains(s', u) {
        SurvivorsWereThere(s, values[0], u);
      }
      ValueRemoved(values[1..], s', u);
    }
  }

  /** Every plain piece of the text is a piece of the word. */
  ghost predicate OnlyMarks(s: string) {
    forall u :: u != "" && Plain(u) && Contains(s, u) ==> Contains(WORD, u)
  }

  lemma {:induction false} WordSurvives(values: seq<string>, s: string)
    requires "" !in values && (forall v :: v in values ==> Plain(v))
    requires Contains(s, WORD) && OnlyMarks(s)
    ensures Contains(RedactAll(values, s), WORD)
  {
    if values != [] {
      var v := values[0];
      var s' := ReplaceAll(s, v);
      assert OnlyMarks(s') by {
        forall u | u != "" && Plain(u) && Contains(s', u)
          ensures Contains(WORD, u)
        {
          PlainTouchesIff(u);
          if !Contains(WORD, u) {
            SurvivorsWereThere(s, v, u);
          }
        }
      }
      if Contains(s, v) {
        ReplacePresent(s, v);
      } else {
        ReplaceAbsent(s, v);
      }
      WordSurvives(values[1..], s');
    }
  }

  lemma {:induction false} ContainsTrans(s: string, v: string, u: string)
    requires Contains(s, v) && Contains(v, u)
    ensures Contains(s, u)
  {
    var i :| OccursAt(s, v, i);
    var j :| OccursAt(v, u, j);
    var t := s[i + j..i + j + |u|];
    forall k | 0 <= k < |u|
      ensures t[k] == u[k]
    {
      assert s[i..i + |v|][j + k] == s[i + j + k];
      assert v[j..j + |u|][k] == v[j + k];
    }
    assert OccursAt(s, u, i + j);
  }

  ghost predicate Survives(values: seq<string>, s: string, u: string)
    requires "" !in values
  {
    Contains(RedactAll(values, s), u)
  }

  /** Among plain values, a value survives on some input iff it is a piece of the
      word "redacted"; all others are removed from every input. */
  lemma PlainRemovedIff(values: seq<string>, u: string)
    requires "" !in values && (forall v :: v in values ==> Plain(v)) && u in values
    ensures (exists s :: Survives(values, s, u)) <==> Contains(WORD, u)
  {
    if Contains(WORD, u) {
      var s := WORD;
      assert OccursAt(s, s, 0);
      WordSurvives(values, s);
      ContainsTrans(RedactAll(values, s), WORD, u);
      assert Survives(values, s, u);
    } else {
      PlainTouchesIff(u);
      forall s
        ensures !Survives(values, s, u)
      {
        ValueRemoved(values, s, u);
      }
    }
  }

  // ----- a value that touches the mark survives somewhere -----

  predicate LongestFirst(values: seq<string>) {
    forall i, j :: 0 <= i < j < |values| ==> |values[i]| >= |values[j]|
  }

  lemma OneValue(a: string, s: string)
    requires a != ""
    ensures RedactAll([a], s) == ReplaceAll(s, a)
  {
    var none: seq<string> := [];
    assert [a][1..] == none;
  }

  lemma TwoValues(a: string, b: string, s: string)
    requires a != "" && b != ""
    ensures RedactAll([a, b], s) == ReplaceAll(ReplaceAll(s, a), b)
  {
    assert [a, b][1..] == [b] && [b][1..] == [];
    assert RedactAll([a, b], s) == RedactAll([b], ReplaceAll(s, a));
  }

  lemma TooShort(s: string, v: string)
    requires |s| < |v|
    ensures !Contains(s, v)
  {
  }

  lemma ScanOne(c: char, t: string, v: string)
    requires v != "" && !OccursAt([c] + t, v, 0)
    ensures ReplaceAll([c] + t, v) == [c] + ReplaceAll(t, v)
  {
    var s := [c] + t;
    assert s[1..] == t && s[0] == c;
    if |s| < |v| {
      TooShort(t, v);
      ReplaceAbsent(t, v);
    } else {
      assert !StartsWith(s, v);
    }
  }

  lemma OccursShifted(c: char, t: string, v: string, i: int)
    requires OccursAt(t, v, i)
    ensures OccursAt([c] + t, v, i + 1)
  {
    assert ([c] + t)[i + 1..i + 1 + |v|] == t[i..i + |v|];
  }

  /** Scanning passes a stretch in which no occurrence starts. */
  lemma {:induction false} ScanSkips(a: string, rest: string, v: string)
    requires v != "" && forall i :: 0 <= i < |a| ==> !OccursAt(a + rest, v, i)
    ensures ReplaceAll(a + rest, v) == a + ReplaceAll(rest, v)
  {
    hide ReplaceAll, OccursAt;
    if a == "" {
      assert a + rest == rest;
    } else {
      var c, tail := a[0], a[1..];
      assert a == [c] + tail && a + rest == [c] + (tail + rest);
      forall i | 0 <= i < |tail|
        ensures !OccursAt(tail + rest, v, i)
      {
        if OccursAt(tail + rest, v, i) {
          OccursShifted(c, tail + rest, v, i);
        }
      }
      ScanSkips(tail, rest, v);
      ScanOne(c, tail + rest, v);
    }
  }

  lemma ReplacesPrefix(b: string, x: string)
    requires b != "" && !Contains(x, b)
    ensures ReplaceAll(b + x, b) == MARK + x
  {
    assert (b + x)[..|b|] == b && (b + x)[|b|..] == x;
    ReplaceAbsent(x, b);
  }

  /** A letter other than three given ones, which JSON leaves alone. */
  function Other(a: char, b: char, c: char): (d: char)
    ensures d != a && d != b && d != c && d in "wxyz"
  {
    if 'w' != a && 'w' != b && 'w' != c then 'w'
    else if 'x' != a && 'x' != b && 'x' != c then 'x'
    else if 'y' != a && 'y' != b && 'y' != c then 'y'
    else 'z'
  }

  predicate IsRun(b: string, c: char) {
    forall k :: 0 <= k < |b| ==> b[k] == c
  }

  lemma LetterAt(s: string, v: string, j: int, k: int)
    requires OccursAt(s, v, j) && 0 <= k < |v|
    ensures s[j + k] == v[k]
  {
    assert s[j..j + |v|][k] == s[j + k];
  }

  lemma RunAt(x: string, b: string, y: string, c: char, j: nat)
    requires IsRun(b, c) && j < |b|
    ensures (x + b + y)[j + |x|] == c
  {
    assert (x + b + y)[j + |x|] == b[j];
  }

  /** Between `x` and `y` a run of `c` hides what is at least as long as itself. */
  lemma NotSeenYet(u: string, x: string, b: string, y: string, c: char)
    requires |b| <= |u| && |x| + |y| < |b| && u[|x|] != c && IsRun(b, c)
    ensures !Contains(x + b + y, u)
  {
    var text, n := x + b + y, |x|;
    if j :| OccursAt(text, u, j) {
      LetterAt(text, u, j, n);
      RunAt(x, b, y, c, j);
    }
  }

  lemma NotEarlier(x: string, b: string, rest: string, c: char, i: nat)
    requires i < |x| < |b| && x[|x| - 1] != c && IsRun(b, c)
    ensures !OccursAt(x + rest, b, i)
  {
    if OccursAt(x + rest, b, i) {
      LetterAt(x + rest, b, i, |x| - 1 - i);
    }
  }

  /** A run that does not continue the end of `x` is found where it starts. */
  lemma FoundInPlace(x: string, b: string, y: string, c: char)
    requires (x != "" ==> x[|x| - 1] != c) && |x| < |b| && |y| < |b| && IsRun(b, c)
    ensures ReplaceAll(x + b + y, b) == x + (MARK + y)
  {
    hide OccursAt, ReplaceAll, IsRun, Contains;
    TooShort(y, b);
    ReplacesPrefix(b, y);
    ScanReaches(x, b, b + y, c);
    assert x + b + y == x + (b + y);
  }

  lemma ScanReaches(x: string, b: string, rest: string, c: char)
    requires (x != "" ==> x[|x| - 1] != c) && |x| < |b| && IsRun(b, c)
    ensures ReplaceAll(x + rest, b) == x + ReplaceAll(rest, b)
  {
    hide OccursAt, ReplaceAll, IsRun;
    forall i | 0 <= i < |x|
      ensures !OccursAt(x + rest, b, i)
    {
      NotEarlier(x, b, rest, c, i);
    }
    ScanSkips(x, rest, b);
  }

  /** A string that touches the mark is completed by it, between two pieces that
      are together shorter. */
  lemma TouchingIsCompleted(u: string) returns (x: string, y: string)
    requires u != "" && Touches(u)
    ensures |x| + |y| < |u| && Contains(x + (MARK + y), u)
  {
    assert |MARK| > 0;
    hide MARK;
    if Contains(MARK, u) {
      x, y := "", "";
      assert x + (MARK + y) == MARK;
    } else if Contains(u, MARK) {
      var i :| OccursAt(u, MARK, i);
      x, y := u[..i], u[i + |MARK|..];
      assert x + (MARK + y) == u;
      assert OccursAt(u, u, 0);
    } else if k :| MarkEndsIn(MARK, u, k) {
      x, y := "", u[k..];
      var head := MARK[..|MARK| - k];
      assert x + (MARK + y) == head + u;
      assert OccursAt(head + u, u, |head|);
    } else {
      var k :| MarkStartsIn(MARK, u, k);
      x, y := u[..k], "";
      var tail := MARK[|u| - k..];
      assert x + (MARK + y) == u + tail;
      assert OccursAt(u + tail, u, 0);
    }
  }

  lemma {:induction false} RunEscapes(b: string, c: char)
    requires c in "wxyz" && IsRun(b, c)
    ensures JsonEscape(b) == b
  {
    if b != "" {
      RunEscapes(b[1..], c);
      assert b == [c] + b[1..];
    }
  }

  /** What newRedactor makes of these secrets. */
  ghost predicate RedactorOf(secrets: map<string, string>, values: seq<string>) {
    "" !in values && LongestFirst(values) && forall v :: v in values <==> Wanted(secrets, JsonEscape, v)
  }

  /** The values of two secrets, the second of which JSON leaves alone. */
  function PairOf(u: string, b: string): seq<string> {
    if JsonEscape(u) == u then [u, b] else [JsonEscape(u), u, b]
  }

  lemma PairRedactor(u: string, b: string)
    requires |u| == |b| >= MIN_SECRET && JsonEscape(b) == b
    ensures RedactorOf(map["u" := u, "b" := b], PairOf(u, b)) && u in PairOf(u, b)
  {
    TextEscapes(u);
    hide JsonEscape;
    var secrets, values := map["u" := u, "b" := b], PairOf(u, b);
    assert secrets["u"] == u && secrets["b"] == b;
    assert values[|values| - 2] == u && values[|values| - 1] == b;
    assert JsonEscape(u) != u ==> values[0] == JsonEscape(u);
  }

  lemma ThreeInTurn(a: string, b: string, c: string, s: string)
    requires a != "" && b != "" && c != ""
    ensures RedactAll([a, b, c], s) == ReplaceAll(ReplaceAll(ReplaceAll(s, a), b), c)
  {
    assert [a, b, c][1..] == [b, c];
    assert RedactAll([a, b, c], s) == RedactAll([b, c], ReplaceAll(s, a));
    TwoValues(b, c, ReplaceAll(s, a));
  }

  lemma PairInTurn(u: string, b: string, s: string)
    requires u != "" && b != "" && JsonEscape(u) != "" && !Contains(s, JsonEscape(u)) && !Contains(s, u)
    ensures "" !in PairOf(u, b) && RedactAll(PairOf(u, b), s) == ReplaceAll(s, b)
  {
    hide JsonEscape, Contains, ReplaceAll;
    ReplaceAbsent(s, JsonEscape(u));
    ReplaceAbsent(s, u);
    TwoValues(u, b, s);
    ThreeInTurn(JsonEscape(u), u, b, s);
  }

  /** A secret that touches the mark survives: beside a second secret of its length,
      which is replaced by a mark that completes it. */
  lemma TouchingSurvives(u: string) returns (b: string, s: string)
    requires |u| >= MIN_SECRET && Touches(u)
    ensures SecretSurvives(map["u" := u, "b" := b], PairOf(u, b), s, u)
  {
    hide Touches, JsonEscape, RedactorOf, PairOf, Contains, RedactAll, IsRun, MARK;
    var x, y := TouchingIsCompleted(u);
    TextEscapes(u);
    var c;
    b, c := RunFor(|u|, u[|x|], JsonEscape(u)[|x|], if x == "" then 'w' else x[|x| - 1]);
    s := x + b + y;
    PairRedactor(u, b);
    HiddenThenCompleted(u, x, b, y, c);
    InPair(u, b);
  }

  lemma InPair(u: string, b: string)
    ensures u in map["u" := u, "b" := b].Values
  {
    assert map["u" := u, "b" := b]["u"] == u;
  }

  /** A run of a letter that is none of three, and that JSON leaves alone. */
  lemma RunFor(n: nat, p: char, q: char, r: char) returns (b: string, c: char)
    ensures |b| == n && IsRun(b, c) && JsonEscape(b) == b && c != p && c != q && c != r
  {
    c := Other(p, q, r);
    b := seq(n, _ => c);
    RunEscapes(b, c);
  }

  lemma HiddenThenCompleted(u: string, x: string, b: string, y: string, c: char)
    requires |b| == |u| <= |JsonEscape(u)| && |x| + |y| < |u| && IsRun(b, c)
    requires u[|x|] != c && JsonEscape(u)[|x|] != c && (x != "" ==> x[|x| - 1] != c)
    ensures "" !in PairOf(u, b) && RedactAll(PairOf(u, b), x + b + y) == x + (MARK + y)
  {
    hide JsonEscape, PairOf, RedactAll, ReplaceAll, IsRun, Contains;
    NotSeenYet(JsonEscape(u), x, b, y, c);
    NotSeenYet(u, x, b, y, c);
    FoundInPlace(x, b, y, c);
    PairInTurn(u, b, x + b + y);
  }

  /** `u` is one of the secrets, and is still there after redaction. */
  ghost predicate SecretSurvives(secrets: map<string, string>, values: seq<string>, s: string, u: string) {
    u in secrets.Values && RedactorOf(secrets, values) && u in values && Survives(values, s, u)
  }

  /** Exactly the secrets that touch the mark can survive, on some text, in a
      redactor built for them; all others are removed from every text. */
  lemma SurvivesIff(u: string)
    requires |u| >= MIN_SECRET
    ensures (exists secrets, values, s :: SecretSurvives(secrets, values, s, u)) <==> Touches(u)
  {
    if Touches(u) {
      var b, s := TouchingSurvives(u);
    } else {
      forall secrets, values, s
        ensures !SecretSurvives(secrets, values, s, u)
      {
        hide Touches;
        if RedactorOf(secrets, values) && u in values {
          ValueRemoved(values, s, u);
        }
      }
    }
  }

  lemma NeedsItsLetters(s: string, v: string, c: char)
    requires c in v && c !in s
    ensures !Contains(s, v)
  {
    if Contains(s, v) {
      LetterThere(s, v, c);
    }
  }

  lemma LetterThere(s: string, v: string, c: char)
    requires Contains(s, v) && c in v
    ensures c in s
  {
    var i :| OccursAt(s, v, i);
    var k :| 0 <= k < |v| && v[k] == c;
    assert s[i + k] == c;
  }

  /** The leftmost occurrence becomes the mark, and the search goes on behind it. */
  lemma {:induction false} FirstReplaced(a: string, v: string, b: string)
    requires v != "" && forall i :: OccursAt(a + v + b, v, i) ==> i >= |a|
    ensures ReplaceAll(a + v + b, v) == a + "[redacted]" + ReplaceAll(b, v)
  {
    var s := a + v + b;
    if a == "" {
      assert s[..|v|] == v && s[|v|..] == b;
    } else {
      assert s[1..] == a[1..] + v + b;
      forall i | OccursAt(s[1..], v, i)
        ensures i >= |a| - 1
      {
        assert s[1..][i..i + |v|] == s[i + 1..i + 1 + |v|];
        assert OccursAt(s, v, i + 1);
      }
      assert StartsWith(s, v) ==> OccursAt(s, v, 0);
      FirstReplaced(a[1..], v, b);
      assert [a[0]] + (a[1..] + "[redacted]" + ReplaceAll(b, v)) == a + "[redacted]" + ReplaceAll(b, v);
    }
  }

  // ----- the values a redactor holds -----

  const MIN_SECRET := 4

  /** What is asked of JSON escaping: it adds no brackets, and where it changes a
      string it writes a backslash. */
  ghost predicate EscapesJson(escape: string -> string) {
    && (forall v :: Plain(v) ==> Plain(escape(v)))
    && (forall v :: escape(v) != v ==> '\\' in escape(v))
  }

  /** A secret of at least four bytes among the named ones, or its escaped form. */
  ghost predicate WantedFrom(secrets: map<string, string>, names: set<string>, escape: string -> string, v: string) {
    exists name :: name in names && name in secrets && |secrets[name]| >= MIN_SECRET
      && (v == secrets[name] || v == escape(secrets[name]))
  }

  ghost predicate Wanted(secrets: map<string, string>, escape: string -> string, v: string) {
    WantedFrom(secrets, secrets.Keys, escape, v)
  }

  lemma WantedMore(secrets: map<string, string>, names: set<string>, escape: string -> string, name: string, v: string)
    requires name in secrets
    ensures WantedFrom(secrets, names + {name}, escape, v) <==>
            (|| WantedFrom(secrets, names, escape, v)
             || (|secrets[name]| >= MIN_SECRET && (v == secrets[name] || v == escape(secrets[name]))))
  {
  }

  function InsertAt(sorted: seq<string>, j: nat, v: string): seq<string>
    requires j <= |sorted|
  {
    sorted[..j] + [v] + sorted[j..]
  }

  lemma InsertedOrder(sorted: seq<string>, j: nat, v: string, a: nat, b: nat)
    requires LongestFirst(sorted) && j <= |sorted| && a < b <= |sorted|
    requires forall k :: 0 <= k < j ==> |sorted[k]| >= |v|
    requires j < |sorted| ==> |sorted[j]| < |v|
    ensures |InsertAt(sorted, j, v)[a]| >= |InsertAt(sorted, j, v)[b]|
  {
    if j < b - 1 {
      assert |sorted[j]| >= |sorted[b - 1]|;
    }
  }

  lemma Inserted(sorted: seq<string>, j: nat, v: string)
    requires LongestFirst(sorted) && j <= |sorted|
    requires forall k :: 0 <= k < j ==> |sorted[k]| >= |v|
    requires j < |sorted| ==> |sorted[j]| < |v|
    ensures LongestFirst(InsertAt(sorted, j, v))
    ensures multiset(InsertAt(sorted, j, v)) == multiset(sorted) + multiset{v}
  {
    assert sorted == sorted[..j] + sorted[j..];
    forall a, b | 0 <= a < b < |InsertAt(sorted, j, v)|
      ensures |InsertAt(sorted, j, v)[a]| >= |InsertAt(sorted, j, v)[b]|
    {
      InsertedOrder(sorted, j, v, a, b);
    }
  }

  method SortByLength(values: seq<string>) returns (sorted: seq<string>)
    ensures LongestFirst(sorted) && multiset(sorted) == multiset(values)
  {
    hide LongestFirst;
    NoneIsSorted();
    sorted := [];
    for i := 0 to |values|
      invariant LongestFirst(sorted) && multiset(sorted) == multiset(values[..i])
    {
      var j := 0;
      while j < |sorted| && |sorted[j]| >= |values[i]|
        invariant 0 <= j <= |sorted|
        invariant forall k :: 0 <= k < j ==> |sorted[k]| >= |values[i]|
      {
        j := j + 1;
      }
      Inserted(sorted, j, values[i]);
      assert values[..i + 1] == values[..i] + [values[i]];
      sorted := InsertAt(sorted, j, values[i]);
    }
    assert values[..|values|] == values;
  }

  lemma NoneIsSorted()
    ensures LongestFirst([])
  {
  }

  lemma SameMembers(a: seq<string>, b: seq<string>)
    requires multiset(a) == multiset(b)
    ensures forall v :: v in a <==> v in b
  {
    forall v
      ensures v in a <==> v in b
    {
      assert v in a <==> v in multiset(a);
      assert v in b <==> v in multiset(b);
    }
  }

  class Redactor {
    var values: seq<string>

    /** Collects every secret of at least four bytes and its escaped form, then
        sorts by length. */
    constructor (secrets: map<string, string>, escape: string -> string)
      requires EscapesJson(escape)
      ensures "" !in values && LongestFirst(values)
      ensures forall v :: v in values <==> Wanted(secrets, escape, v)
      ensures forall name :: name in secrets && |secrets[name]| >= 4 ==>
                secrets[name] in values && escape(secrets[name]) in values
      ensures forall v :: v in values ==>
                exists name ::
                  name in secrets && |secrets[name]| >= 4 && (v == secrets[name] || v == escape(secrets[name]))
    {
      var all: seq<string> := [];
      var todo := secrets.Keys;
      while todo != {}
        invariant todo <= secrets.Keys
        invariant forall v :: v in all <==> WantedFrom(secrets, secrets.Keys - todo, escape, v)
        decreases |todo|
      {
        var name :| name in todo;
        forall v
          ensures WantedFrom(secrets, secrets.Keys - (todo - {name}), escape, v) <==>
                  (|| WantedFrom(secrets, secrets.Keys - todo, escape, v)
                   || (|secrets[name]| >= MIN_SECRET && (v == secrets[name] || v == escape(secrets[name]))))
        {
          assert secrets.Keys - todo + {name} == secrets.Keys - (todo - {name});
          WantedMore(secrets, secrets.Keys - todo, escape, name, v);
        }
        todo := todo - {name};
        var v := secrets[name];
        if |v| >= MIN_SECRET {
          all := all + [v];
          var escaped := escape(v);
          if escaped != v {
            all := all + [escaped];
          }
        }
      }
      assert secrets.Keys - {} == secrets.Keys;
      var sorted := SortByLength(all);
      SameMembers(all, sorted);
      values := sorted;
    }

    /** The replacement loop. */
    method Redact(text: string) returns (s: string)
      requires "" !in values
      ensures s == RedactAll(values, text)
    {
      s := text;
      for i := 0 to |values|
        invariant RedactAll(values, text) == RedactAll(values[i..], s)
      {
        s := ReplaceAll(s, values[i]);
      }
    }
  }

  /** Nothing stays behind where every value that touches the mark contains one
      that does not: then no value survives on any text. */
  lemma NothingLeftBehind(values: seq<string>)
    requires "" !in values
    requires forall u :: u in values && Touches(u) ==> exists v :: v in values && Contains(u, v) && !Touches(v)
    ensures forall s, u :: u in values ==> !Survives(values, s, u)
  {
    hide Touches, Contains, RedactAll;
    forall s, u | u in values
      ensures !Survives(values, s, u)
    {
      if Touches(u) {
        var v :| v in values && Contains(u, v) && !Touches(v);
        ValueRemoved(values, s, v);
        if Survives(values, s, u) {
          ContainsTrans(RedactAll(values, s), u, v);
        }
      } else {
        ValueRemoved(values, s, u);
      }
    }
  }

  /** In particular where no secret of four bytes or more and no escaped form of
      one touches the mark. */
  lemma NoSecretLeftBehind(secrets: map<string, string>, escape: string -> string, values: seq<string>)
    requires "" !in values && forall v :: v in values <==> Wanted(secrets, escape, v)
    requires forall name :: name in secrets && |secrets[name]| >= MIN_SECRET ==>
               !Touches(secrets[name]) && !Touches(escape(secrets[name]))
    ensures forall s, v :: v in values ==> !Survives(values, s, v)
  {
    hide Touches, Survives, Contains;
    forall v | v in values
      ensures !Touches(v)
    {
      var name :|
        name in secrets && |secrets[name]| >= MIN_SECRET && (v == secrets[name] || v == escape(secrets[name]));
    }
    NothingLeftBehind(values);
  }

  // ----- touching is not enough by itself -----

  /** Up to a bracket that was kept or begins a replaced occurrence. */
  lemma {:induction false} KeptUpToBracket(t: string, v: string, n: nat)
    requires v != "" && v[0] == '[' && n < |ReplaceAll(t, v)|
    requires Plain(ReplaceAll(t, v)[..n]) && ReplaceAll(t, v)[n] == '['
    ensures n < |t| && t[..n] == ReplaceAll(t, v)[..n] && t[n] == '['
    decreases |t|
  {
    var r := ReplaceAll(t, v);
    assert n > 0 ==> r[0] in r[..n];
    if |t| >= |v| {
      if StartsWith(t, v) {
        assert r[0] == '[' && t[0] == v[0];
      } else if n > 0 {
        var rest := ReplaceAll(t[1..], v);
        assert r[..n] == [t[0]] + rest[..n - 1];
        KeptUpToBracket(t[1..], v, n - 1);
        assert t[..n] == [t[0]] + t[1..][..n - 1];
      }
    }
  }

  lemma MarkLetters(i: int)
    requires 0 <= i < |MARK|
    ensures MARK[i] == '[' <==> i == 0
    ensures MARK[i] == ']' <==> i == |MARK| - 1
  {
  }

  lemma InnerLetter(x: string, k: int)
    requires 0 < k <= |x|
    ensures ("[" + x + "[")[k] in x
  {
    assert ("[" + x + "[")[k] == x[k - 1];
  }

  lemma NotInMark(x: string, rest: string, i: int)
    requires Plain(x) && i < |MARK|
    ensures !OccursAt(MARK + rest, "[" + x + "[", i)
  {
    var whole, u, last := MARK + rest, "[" + x + "[", |MARK| - 1;
    if OccursAt(whole, u, i) {
      LetterAt(whole, u, i, 0);
      MarkLetters(i);
      MarkLetters(last);
      if last <= |x| {
        LetterAt(whole, u, 0, last);
        InnerLetter(x, last);
      } else {
        LetterAt(whole, u, 0, |x| + 1);
        MarkLetters(|x| + 1);
      }
    }
  }

  /** The letter between brackets is kept only with both of them. */
  lemma NotAtStart(x: string, s: string)
    requires Plain(x) && s != "" && !StartsWith(s, "[" + x + "[")
    ensures var u := "[" + x + "["; !OccursAt([s[0]] + ReplaceAll(s[1..], u), u, 0)
  {
    var u := "[" + x + "[";
    var tail := s[1..];
    var rest := ReplaceAll(tail, u);
    if OccursAt([s[0]] + rest, u, 0) {
      Unwrapped(x, s[0], rest);
      KeptUpToBracket(tail, u, |x|);
      Wrapped(x, s);
    }
  }

  lemma Unwrapped(x: string, c: char, rest: string)
    requires OccursAt([c] + rest, "[" + x + "[", 0)
    ensures c == '[' && |x| < |rest| && rest[..|x|] == x && rest[|x|] == '['
  {
    var whole, u := [c] + rest, "[" + x + "[";
    assert whole[0..|u|] == u;
    assert u[0] == '[' && u[|x| + 1] == '[' && u[1..|x| + 1] == x;
    assert whole[0] == c && whole[|x| + 1] == rest[|x|] && whole[1..|x| + 1] == rest[..|x|];
  }

  lemma Wrapped(x: string, s: string)
    requires s != "" && s[0] == '[' && |x| < |s[1..]| && s[1..][..|x|] == x && s[1..][|x|] == '['
    ensures StartsWith(s, "[" + x + "[")
  {
    assert s[..|x| + 2] == [s[0]] + s[1..][..|x|] + [s[1..][|x|]];
  }

  /** A secret between two opening brackets is not recreated by its own mark. */
  lemma {:induction false} BracketedOnce(x: string, s: string, i: int)
    requires Plain(x)
    ensures var u := "[" + x + "["; !OccursAt(ReplaceAll(s, u), u, i)
    decreases |s|
  {
    var u := "[" + x + "[";
    if |s| >= |u| {
      if StartsWith(s, u) {
        var rest := ReplaceAll(s[|u|..], u);
        if i < |MARK| {
          NotInMark(x, rest, i);
        }
        BracketedOnce(x, s[|u|..], i - |MARK|);
        if OccursAt(MARK + rest, u, i) {
          OccursInTail(MARK, rest, u, i);
        }
      } else {
        var rest := ReplaceAll(s[1..], u);
        NotAtStart(x, s);
        BracketedOnce(x, s[1..], i - 1);
        if OccursAt([s[0]] + rest, u, i) && i > 0 {
          OccursInTail([s[0]], rest, u, i);
        }
      }
    }
  }

  /** Touching the mark does not make a secret survive in every redactor: one
      between two opening brackets, alone, never does. */
  lemma TouchingMayBeRemoved(x: string)
    requires x != "" && Plain(x)
    ensures var u := "[" + x + "["; Touches(u) && forall s :: !Survives([u], s, u)
  {
    var u := "[" + x + "[";
    var k := |u| - 1;
    assert u[k..] == "[" == MARK[..1];
    assert MarkStartsIn(MARK, u, k);
    forall s
      ensures !Survives([u], s, u)
    {
      OneValue(u, s);
      forall i
        ensures !OccursAt(ReplaceAll(s, u), u, i)
      {
        BracketedOnce(x, s, i);
      }
    }
  }

  /** For secrets without brackets the condition is exact for the whole set: some
      value survives on some text iff some secret is a piece of "redacted". */
  lemma PlainSecretsIff(secrets: map<string, string>, escape: string -> string, values: seq<string>)
    requires EscapesJson(escape) && forall name :: name in secrets ==> Plain(secrets[name])
    requires "" !in values && forall v :: v in values <==> Wanted(secrets, escape, v)
    ensures (exists s, v :: v in values && Survives(values, s, v)) <==>
            (exists name :: name in secrets && |secrets[name]| >= MIN_SECRET && Contains(WORD, secrets[name]))
  {
    hide Contains, Survives;
    forall v | v in values
      ensures Plain(v) && (Contains(WORD, v) ==> IsLongSecret(secrets, v))
    {
      var name :|
        name in secrets && |secrets[name]| >= MIN_SECRET && (v == secrets[name] || v == escape(secrets[name]));
      if v != secrets[name] {
        NeedsItsLetters(WORD, v, '\\');
      }
    }
    forall v | v in values
      ensures (exists s :: Survives(values, s, v)) <==> Contains(WORD, v)
    {
      PlainRemovedIff(values, v);
    }
    if name :| name in secrets && |secrets[name]| >= MIN_SECRET && Contains(WORD, secrets[name]) {
      var v := secrets[name];
      assert Wanted(secrets, escape, v);
      var s :| Survives(values, s, v);
    }
  }

  ghost predicate IsLongSecret(secrets: map<string, string>, v: string) {
    exists name :: name in secrets && |secrets[name]| >= MIN_SECRET && secrets[name] == v
  }

  // ----- JSON escaping -----

  function Hex(n: nat): char
    requires n < 16
  {
    "0123456789abcdef"[n]
  }

  /** One byte of a string, as encoding/json writes it. */
  function EscapeByte(c: char): string {
    if c == '"' then "\\\""
    else if c == '\\' then "\\\\"
    else if c == '\n' then "\\n"
    else if c == '\r' then "\\r"
    else if c == '\t' then "\\t"
    else if c as int == 8 then "\\b"
    else if c as int == 12 then "\\f"
    else if (c as int) < 0x20 || c == '<' || c == '>' || c == '&' then
      "\\u00" + [Hex(c as int / 16 % 16), Hex(c as int % 16)]
    else [c]
  }

  function JsonEscape(v: string): string {
    if v == "" then "" else EscapeByte(v[0]) + JsonEscape(v[1..])
  }

  lemma ByteEscapes(c: char)
    ensures c != '[' && c != ']' ==> Plain(EscapeByte(c))
    ensures EscapeByte(c) != [c] ==> '\\' in EscapeByte(c)
    ensures EscapeByte(c) != ""
  {
    assert Plain("0123456789abcdef");
  }

  lemma PlainConcat(a: string, b: string)
    ensures Plain(a) && Plain(b) <==> Plain(a + b)
    ensures forall c :: c in a + b <==> c in a || c in b
  {
  }

  lemma {:induction false} TextEscapes(v: string)
    ensures Plain(v) ==> Plain(JsonEscape(v))
    ensures JsonEscape(v) != v ==> '\\' in JsonEscape(v)
    ensures |JsonEscape(v)| >= |v|
  {
    hide EscapeByte, Plain;
    if v != "" {
      var head, tail := [v[0]], v[1..];
      ByteEscapes(v[0]);
      TextEscapes(tail);
      assert v == head + tail;
      PlainConcat(head, tail);
      PlainConcat(EscapeByte(v[0]), JsonEscape(tail));
      PlainLetter(v[0]);
    }
  }

  lemma PlainLetter(c: char)
    ensures Plain([c]) ==> c != '[' && c != ']'
  {
    assert c in [c];
  }

  /** The escaping of ASCII text meets what the redactor asks of it. */
  lemma JsonEscapeIsFit()
    ensures EscapesJson(JsonEscape)
  {
    forall v
      ensures Plain(v) ==> Plain(JsonEscape(v))
      ensures JsonEscape(v) != v ==> '\\' in JsonEscape(v)
    {
      TextEscapes(v);
    }
  }
}
