/**
 What the redactor leaves of a secret.  For values that do not touch the mark,
 iterated replacement is shown to be a choice of disjoint occurrences in the
 original text, each printed as one mark; so a letter of a secret is left behind
 exactly where no chosen occurrence covers it.
 */
module Fragments {
  import opened Redaction

  /** Each letter of the text is free, or belongs to a chosen occurrence as its
      first letter or as a later one. */
  datatype Tag = Free | First | Rest

  function AllFree(n: nat): seq<Tag> {
    seq(n, _ => Free)
  }

  // ----- the text that tags stand for -----

  function Piece(s: string, tags: seq<Tag>, i: nat): string
    requires i < |s| == |tags|
  {
    match tags[i]
    case Free => [s[i]]
    case First => MARK
    case Rest => ""
  }

  function RenderFrom(s: string, tags: seq<Tag>, i: nat): string
    requires i <= |s| == |tags|
    decreases |s| - i
  {
    if i == |s| then "" else Piece(s, tags, i) + RenderFrom(s, tags, i + 1)
  }

  /** The text with every chosen occurrence replaced by one mark. */
  function Render(s: string, tags: seq<Tag>): string
    requires |s| == |tags|
  {
    RenderFrom(s, tags, 0)
  }

  // ----- choosing the occurrences of one value -----

  ghost predicate FreeAt(tags: seq<Tag>, i: nat, n: nat)
    requires i + n <= |tags|
  {
    forall k :: i <= k < i + n ==> tags[k] == Free
  }

  ghost predicate Available(s: string, tags: seq<Tag>, v: string, i: nat)
    requires |s| == |tags|
  {
    OccursAt(s, v, i) && FreeAt(tags, i, |v|)
  }

  function Mark(tags: seq<Tag>, i: nat, n: nat): (tags': seq<Tag>)
    requires i + n <= |tags|
    ensures |tags'| == |tags|
    ensures forall k :: 0 <= k < |tags| ==>
              tags'[k] == if i == k && n > 0 then First else if i < k < i + n then Rest else tags[k]
  {
    seq(|tags|, k requires 0 <= k < |tags| =>
      if i == k && n > 0 then First else if i < k < i + n then Rest else tags[k])
  }

  /** Left to right, every occurrence of `v` that is still free. */
  ghost function SelectFrom(s: string, tags: seq<Tag>, v: string, i: nat): (tags': seq<Tag>)
    requires i <= |s| == |tags| && v != ""
    ensures |tags'| == |tags|
    ensures forall k :: 0 <= k < |tags| && (k < i || tags[k] != Free) ==> tags'[k] == tags[k]
    decreases |s| - i
  {
    if i == |s| then tags
    else if Available(s, tags, v, i) then SelectFrom(s, Mark(tags, i, |v|), v, i + |v|)
    else SelectFrom(s, tags, v, i + 1)
  }

  /** The values in turn. */
  ghost function SelectAll(values: seq<string>, s: string, tags: seq<Tag>): (tags': seq<Tag>)
    requires |s| == |tags| && "" !in values
    ensures |tags'| == |tags|
    ensures forall k :: 0 <= k < |tags| && tags[k] != Free ==> tags'[k] == tags[k]
  {
    if values == [] then tags else SelectAll(values[1..], s, SelectFrom(s, tags, values[0], 0))
  }

  // ----- replacement is selection -----

  /** Every later letter of an occurrence follows a chosen one. */
  ghost predicate Proper(tags: seq<Tag>) {
    && (tags != [] ==> tags[0] != Rest)
    && forall i, j :: 0 <= i < j < |tags| && j == i + 1 && tags[j] == Rest ==> tags[i] != Free
  }

  lemma MarkKeepsProper(tags: seq<Tag>, i: nat, n: nat)
    requires Proper(tags) && i + n <= |tags| && n > 0
    ensures Proper(Mark(tags, i, n))
  {
  }

  lemma {:induction false} RenderSame(s: string, tags: seq<Tag>, tags': seq<Tag>, i: nat)
    requires i <= |s| == |tags| == |tags'| && forall k :: i <= k < |s| ==> tags[k] == tags'[k]
    ensures RenderFrom(s, tags, i) == RenderFrom(s, tags', i)
    decreases |s| - i
  {
    hide RenderFrom, MARK;
    if i == |s| {
      RenderEnd(s, tags);
      RenderEnd(s, tags');
    } else {
      RenderSame(s, tags, tags', i + 1);
      RenderOne(s, tags, i);
      RenderOne(s, tags', i);
    }
  }

  lemma RenderOne(s: string, tags: seq<Tag>, i: nat)
    requires i < |s| == |tags|
    ensures tags[i] == Free ==> RenderFrom(s, tags, i) == [s[i]] + RenderFrom(s, tags, i + 1)
    ensures tags[i] == First ==> RenderFrom(s, tags, i) == MARK + RenderFrom(s, tags, i + 1)
    ensures tags[i] == Rest ==> RenderFrom(s, tags, i) == RenderFrom(s, tags, i + 1)
  {
    assert "" + RenderFrom(s, tags, i + 1) == RenderFrom(s, tags, i + 1);
  }

  lemma RenderEnd(s: string, tags: seq<Tag>)
    requires |s| == |tags|
    ensures RenderFrom(s, tags, |s|) == ""
  {
  }

  lemma {:induction false} RenderFree(s: string, tags: seq<Tag>, i: nat, n: nat)
    requires |s| == |tags| && i + n <= |s| && FreeAt(tags, i, n)
    ensures RenderFrom(s, tags, i) == s[i..i + n] + RenderFrom(s, tags, i + n)
    decreases n
  {
    hide RenderFrom;
    if n == 0 {
      assert s[i..i + n] == "";
    } else {
      RenderOne(s, tags, i);
      RenderFree(s, tags, i + 1, n - 1);
      assert s[i..i + n] == [s[i]] + s[i + 1..i + n];
    }
  }

  lemma {:induction false} RenderRest(s: string, tags: seq<Tag>, i: nat, n: nat)
    requires |s| == |tags| && i + n <= |s| && forall k :: i <= k < i + n ==> tags[k] == Rest
    ensures RenderFrom(s, tags, i) == RenderFrom(s, tags, i + n)
    decreases n
  {
    hide RenderFrom;
    if n > 0 {
      RenderOne(s, tags, i);
      RenderRest(s, tags, i + 1, n - 1);
    }
  }

  /** A piece of the rendered text that does not meet a mark is a piece of the text. */
  lemma {:induction false} ClearPrefixIsFree(s: string, tags: seq<Tag>, i: nat, p: string)
    requires i <= |s| == |tags| && Proper(tags) && (i < |s| ==> tags[i] != Rest)
    requires Clear(MARK, p) && StartsWith(RenderFrom(s, tags, i), p)
    ensures i + |p| <= |s| && FreeAt(tags, i, |p|) && s[i..i + |p|] == p
    decreases |p|
  {
    hide RenderFrom;
    RenderEnd(s, tags);
    if p != "" {
      RenderOne(s, tags, i);
      var rest := RenderFrom(s, tags, i + 1);
      if tags[i] == First {
        ClearIsNoMark(MARK, p, rest);
      } else {
        assert p[0] == s[i] && rest[..|p| - 1] == p[1..];
        ClearTail(MARK, p);
        hide Clear;
        ClearPrefixIsFree(s, tags, i + 1, p[1..]);
        assert s[i..i + |p|] == [s[i]] + s[i + 1..i + |p|];
      }
    }
  }

  lemma ReplacesFirst(v: string, rest: string)
    requires v != ""
    ensures ReplaceAll(v + rest, v) == MARK + ReplaceAll(rest, v)
  {
    assert (v + rest)[..|v|] == v && (v + rest)[|v|..] == rest;
  }

  lemma ScanPassesMark(v: string, rest: string)
    requires v != "" && !Touches(v)
    ensures ReplaceAll(MARK + rest, v) == MARK + ReplaceAll(rest, v)
  {
    forall i | 0 <= i < |MARK|
      ensures !OccursAt(MARK + rest, v, i)
    {
      if OccursAt(MARK + rest, v, i) {
        StartsInMark(MARK, rest, v, i);
      }
    }
    ScanSkips(MARK, rest, v);
  }

  /** Scanning passes a free letter at which no occurrence is available. */
  lemma ScanPassesLetter(s: string, tags: seq<Tag>, v: string, i: nat)
    requires i < |s| == |tags| && Proper(tags) && v != "" && !Touches(v)
    requires tags[i] == Free && !Available(s, tags, v, i)
    ensures ReplaceAll(RenderFrom(s, tags, i), v) == [s[i]] + ReplaceAll(RenderFrom(s, tags, i + 1), v)
  {
    hide RenderFrom, ReplaceAll;
    RenderOne(s, tags, i);
    var rest := RenderFrom(s, tags, i + 1);
    UntouchedIsClear(MARK, v);
    if OccursAt([s[i]] + rest, v, 0) {
      assert StartsWith(RenderFrom(s, tags, i), v);
      ClearPrefixIsFree(s, tags, i, v);
    }
    ScanOne(s[i], rest, v);
  }

  lemma {:induction false} ReplaceIsSelect(s: string, tags: seq<Tag>, v: string, i: nat)
    requires i <= |s| == |tags| && Proper(tags) && v != "" && !Touches(v)
    ensures ReplaceAll(RenderFrom(s, tags, i), v) == RenderFrom(s, SelectFrom(s, tags, v, i), i)
    ensures Proper(SelectFrom(s, tags, v, i))
    decreases |s| - i
  {
    hide ReplaceAll, Touches, Proper, RenderFrom;
    var chosen := SelectFrom(s, tags, v, i);
    if i == |s| {
      NothingToReplace(v);
      RenderEnd(s, tags);
    } else if Available(s, tags, v, i) {
      TakeRenders(s, tags, v, i);
      MarkKeepsProper(tags, i, |v|);
      ReplaceIsSelect(s, Mark(tags, i, |v|), v, i + |v|);
    } else {
      ReplaceIsSelect(s, tags, v, i + 1);
      RenderOne(s, tags, i);
      RenderOne(s, chosen, i);
      match tags[i]
      case Free => ScanPassesLetter(s, tags, v, i);
      case First => ScanPassesMark(v, RenderFrom(s, tags, i + 1));
      case Rest =>
    }
  }

  lemma NothingToReplace(v: string)
    requires v != ""
    ensures ReplaceAll("", v) == ""
  {
  }

  lemma TakeRenders(s: string, tags: seq<Tag>, v: string, i: nat)
    requires i < |s| == |tags| && v != "" && Available(s, tags, v, i)
    ensures var n, marked := |v|, Mark(tags, i, |v|);
      && ReplaceAll(RenderFrom(s, tags, i), v) == MARK + ReplaceAll(RenderFrom(s, marked, i + n), v)
      && RenderFrom(s, SelectFrom(s, marked, v, i + n), i) ==
         MARK + RenderFrom(s, SelectFrom(s, marked, v, i + n), i + n)
  {
    hide ReplaceAll, RenderFrom;
    var n, marked := |v|, Mark(tags, i, |v|);
    RenderFree(s, tags, i, n);
    RenderSame(s, tags, marked, i + n);
    ReplacesFirst(v, RenderFrom(s, marked, i + n));
    var chosen := SelectFrom(s, marked, v, i + n);
    RenderOne(s, chosen, i);
    RenderRest(s, chosen, i + 1, n - 1);
  }

  /** Iterated replacement prints the text with the selected occurrences marked. */
  lemma {:induction false} RedactIsSelection(values: seq<string>, s: string, tags: seq<Tag>)
    requires |s| == |tags| && Proper(tags) && "" !in values && forall v :: v in values ==> !Touches(v)
    ensures RedactAll(values, Render(s, tags)) == Render(s, SelectAll(values, s, tags))
    ensures Proper(SelectAll(values, s, tags))
  {
    hide ReplaceAll, Touches, Proper;
    if values != [] {
      ReplaceIsSelect(s, tags, values[0], 0);
      RedactIsSelection(values[1..], s, SelectFrom(s, tags, values[0], 0));
    }
  }

  /** What the redactor makes of a text. */
  ghost function Chosen(values: seq<string>, s: string): (tags: seq<Tag>)
    requires "" !in values
    ensures |tags| == |s|
  {
    SelectAll(values, s, AllFree(|s|))
  }

  lemma RedactionIsChoice(values: seq<string>, s: string)
    requires "" !in values && forall v :: v in values ==> !Touches(v)
    ensures RedactAll(values, s) == Render(s, Chosen(values, s)) && Proper(Chosen(values, s))
  {
    var tags := AllFree(|s|);
    hide RenderFrom, RedactAll, SelectAll, Touches;
    RenderFree(s, tags, 0, |s|);
    RenderEnd(s, tags);
    assert s[0..|s|] == s && s + "" == s;
    RedactIsSelection(values, s, tags);
  }

  // ----- what is chosen -----

  /** The chosen occurrence that starts at `x` reaches `p`. */
  ghost predicate InBlock(tags: seq<Tag>, x: int, p: int) {
    0 <= x <= p < |tags| && tags[x] == First && forall k :: x < k <= p ==> tags[k] == Rest
  }

  /** The chosen occurrence that starts at `x` is one of `v`, from end to end. */
  ghost predicate IsOf(s: string, tags: seq<Tag>, v: string, x: int)
    requires |s| == |tags|
  {
    && v != "" && OccursAt(s, v, x) && InBlock(tags, x, x + |v| - 1)
    && (x + |v| < |s| ==> tags[x + |v|] != Rest)
  }

  ghost predicate Sourced(values: seq<string>, s: string, tags: seq<Tag>)
    requires |s| == |tags|
  {
    forall x :: 0 <= x < |s| && tags[x] == First ==> exists v :: v in values && IsOf(s, tags, v, x)
  }

  lemma MarkIsOf(s: string, tags: seq<Tag>, v: string, i: nat)
    requires |s| == |tags| && Proper(tags) && v != "" && Available(s, tags, v, i)
    ensures IsOf(s, Mark(tags, i, |v|), v, i)
  {
    var last := i + |v| - 1;
    assert tags[last] == Free;
  }

  lemma MarkKeepsIsOf(s: string, tags: seq<Tag>, v: string, i: nat, u: string, x: int)
    requires |s| == |tags| && v != "" && Available(s, tags, v, i) && IsOf(s, tags, u, x)
    ensures IsOf(s, Mark(tags, i, |v|), u, x)
  {
    var last := x + |u| - 1;
    assert tags[last] != Free;
    assert tags[x] == First;
  }

  lemma MarkKeepsSourced(values: seq<string>, s: string, tags: seq<Tag>, v: string, i: nat)
    requires |s| == |tags| && Proper(tags) && Sourced(values, s, tags) && v in values && v != ""
    requires Available(s, tags, v, i)
    ensures Sourced(values, s, Mark(tags, i, |v|))
  {
    hide IsOf, Proper;
    var marked := Mark(tags, i, |v|);
    forall x | 0 <= x < |s| && marked[x] == First
      ensures exists u :: u in values && IsOf(s, marked, u, x)
    {
      if x == i {
        MarkIsOf(s, tags, v, i);
      } else {
        var u :| u in values && IsOf(s, tags, u, x);
        MarkKeepsIsOf(s, tags, v, i, u, x);
      }
    }
  }

  lemma {:induction false} SelectKeeps(values: seq<string>, s: string, tags: seq<Tag>, v: string, i: nat)
    requires i <= |s| == |tags| && Proper(tags) && Sourced(values, s, tags) && v in values && v != ""
    ensures Proper(SelectFrom(s, tags, v, i)) && Sourced(values, s, SelectFrom(s, tags, v, i))
    decreases |s| - i
  {
    hide Proper, Sourced, Available;
    if i < |s| {
      if Available(s, tags, v, i) {
        AvailableFits(s, tags, v, i);
        MarkKeepsProper(tags, i, |v|);
        MarkKeepsSourced(values, s, tags, v, i);
        SelectKeeps(values, s, Mark(tags, i, |v|), v, i + |v|);
      } else {
        SelectKeeps(values, s, tags, v, i + 1);
      }
    }
  }

  lemma AvailableFits(s: string, tags: seq<Tag>, v: string, i: nat)
    requires |s| == |tags| && Available(s, tags, v, i)
    ensures i + |v| <= |s|
  {
  }

  lemma {:induction false} SelectAllKeeps(all: seq<string>, values: seq<string>, s: string, tags: seq<Tag>)
    requires |s| == |tags| && "" !in values && Proper(tags) && Sourced(all, s, tags)
    requires forall v :: v in values ==> v in all
    ensures Proper(SelectAll(values, s, tags)) && Sourced(all, s, SelectAll(values, s, tags))
  {
    hide Proper, Sourced;
    if values != [] {
      SelectKeeps(all, s, tags, values[0], 0);
      SelectAllKeeps(all, values[1..], s, SelectFrom(s, tags, values[0], 0));
    }
  }

  /** Every chosen occurrence is an occurrence of a value in the original text. */
  lemma ChosenAreOccurrences(values: seq<string>, s: string)
    requires "" !in values
    ensures Proper(Chosen(values, s)) && Sourced(values, s, Chosen(values, s))
  {
    SelectAllKeeps(values, values, s, AllFree(|s|));
  }

  // ----- nothing available is passed over -----

  lemma FewerAvailable(s: string, tags: seq<Tag>, tags': seq<Tag>, v: string, j: nat)
    requires |s| == |tags| == |tags'| && forall k :: 0 <= k < |s| && tags[k] != Free ==> tags'[k] == tags[k]
    requires Available(s, tags', v, j)
    ensures Available(s, tags, v, j)
  {
  }

  lemma {:induction false} SelectExhausts(s: string, tags: seq<Tag>, v: string, i: nat)
    requires i <= |s| == |tags| && v != "" && forall j :: 0 <= j < i ==> !Available(s, tags, v, j)
    ensures forall j :: 0 <= j < |s| ==> !Available(s, SelectFrom(s, tags, v, i), v, j)
    decreases |s| - i
  {
    if i < |s| {
      if Available(s, tags, v, i) {
        var marked := Mark(tags, i, |v|);
        forall j | 0 <= j < i + |v|
          ensures !Available(s, marked, v, j)
        {
          if Available(s, marked, v, j) {
            assert marked[j] == Free;
            FewerAvailable(s, tags, marked, v, j);
          }
        }
        hide Available;
        SelectExhausts(s, marked, v, i + |v|);
      } else {
        hide Available;
        SelectExhausts(s, tags, v, i + 1);
      }
    }
  }

  lemma {:induction false} SelectAllExhausts(values: seq<string>, s: string, tags: seq<Tag>, v: string, j: nat)
    requires |s| == |tags| && "" !in values && j < |s| && (v in values || !Available(s, tags, v, j))
    ensures !Available(s, SelectAll(values, s, tags), v, j)
  {
    hide Available;
    if values != [] {
      var next := SelectFrom(s, tags, values[0], 0);
      if v == values[0] {
        SelectExhausts(s, tags, v, 0);
      } else if Available(s, next, v, j) && v !in values[1..] {
        FewerAvailable(s, tags, next, v, j);
      }
      SelectAllExhausts(values[1..], s, next, v, j);
    }
  }

  /** So every occurrence of a value is hit. */
  lemma OccurrenceIsHit(values: seq<string>, s: string, b: string, i: nat) returns (p: nat)
    requires "" !in values && b in values && OccursAt(s, b, i)
    ensures i <= p < i + |b| && Chosen(values, s)[p] != Free
  {
    assert b != "";
    SelectAllExhausts(values, s, AllFree(|s|), b, i);
    p :| i <= p < i + |b| && Chosen(values, s)[p] != Free;
  }

  // ----- what is left of an occurrence -----

  ghost predicate NoLetterLeft(tags: seq<Tag>, i: nat, n: nat)
    requires i + n <= |tags|
  {
    forall p :: i <= p < i + n ==> tags[p] != Free
  }

  /** No chosen occurrence partly overlaps this one: each that meets it contains it. */
  ghost predicate Unclipped(tags: seq<Tag>, i: nat, n: nat)
    requires i + n <= |tags|
  {
    forall x, p :: InBlock(tags, x, p) && i <= p < i + n ==> x <= i && InBlock(tags, x, i + n - 1)
  }

  /** One chosen occurrence covers its start and ends where another begins that
      covers its end. */
  ghost predicate Abutted(tags: seq<Tag>, i: nat, n: nat)
    requires i + n <= |tags|
  {
    exists x, m :: MeetAt(tags, i, n, x, m)
  }

  ghost predicate MeetAt(tags: seq<Tag>, i: nat, n: nat, x: int, m: int) {
    x < i < m < i + n && InBlock(tags, x, m - 1) && InBlock(tags, m, i + n - 1)
  }

  lemma {:induction false} StartOfBlock(tags: seq<Tag>, p: nat) returns (x: nat)
    requires Proper(tags) && p < |tags| && tags[p] != Free
    ensures InBlock(tags, x, p)
  {
    if tags[p] == First {
      x := p;
    } else {
      var q := p - 1;
      assert tags[q] != Free;
      x := StartOfBlock(tags, q);
    }
  }

  lemma OneBlockEach(tags: seq<Tag>, x: int, y: int, p: int)
    requires InBlock(tags, x, p) && InBlock(tags, y, p)
    ensures x == y
  {
  }

  lemma BlockCovers(tags: seq<Tag>, x: int, p: int, q: int)
    requires InBlock(tags, x, p) && x <= q <= p
    ensures InBlock(tags, x, q) && tags[q] != Free
  {
  }

  lemma LongBlocks(values: seq<string>, s: string, tags: seq<Tag>, x: nat, n: nat)
    requires |s| == |tags| && Sourced(values, s, tags) && (forall v :: v in values ==> |v| >= n) && n > 0
    requires x < |s| && tags[x] == First
    ensures InBlock(tags, x, x + n - 1)
  {
    var v :| v in values && IsOf(s, tags, v, x);
    BlockCovers(tags, x, x + |v| - 1, x + n - 1);
  }

  lemma {:induction false} NextStart(tags: seq<Tag>, x: int, p: int, q: int) returns (m: int)
    requires InBlock(tags, x, p) && p <= q < |tags| && !InBlock(tags, x, q)
    requires forall k :: p <= k <= q ==> tags[k] != Free
    ensures p < m <= q && tags[m] == First && InBlock(tags, x, m - 1)
    decreases q - p
  {
    var r := p + 1;
    if tags[r] == First {
      m := r;
    } else {
      assert InBlock(tags, x, r);
      m := NextStart(tags, x, r, q);
    }
  }

  lemma CoveredIsWhole(tags: seq<Tag>, i: nat, n: nat, x: int)
    requires i + n <= |tags| && n > 0 && x <= i && InBlock(tags, x, i + n - 1)
    ensures Unclipped(tags, i, n) && NoLetterLeft(tags, i, n)
  {
    forall y, p | InBlock(tags, y, p) && i <= p < i + n
      ensures y <= i && InBlock(tags, y, i + n - 1)
    {
      BlockCovers(tags, x, i + n - 1, p);
      OneBlockEach(tags, x, y, p);
    }
    forall p | i <= p < i + n
      ensures tags[p] != Free
    {
      BlockCovers(tags, x, i + n - 1, p);
    }
  }

  lemma LeavesNothingOnlyIf(values: seq<string>, s: string, tags: seq<Tag>, i: nat, n: nat)
    requires |s| == |tags| && Proper(tags) && Sourced(values, s, tags) && (forall v :: v in values ==> |v| >= n)
    requires n > 0 && i + n <= |s| && NoLetterLeft(tags, i, n)
    ensures Unclipped(tags, i, n) || Abutted(tags, i, n)
  {
    hide Proper, Sourced, InBlock;
    var x := StartOfBlock(tags, i);
    StartsBelow(tags, x, i);
    if InBlock(tags, x, i + n - 1) {
      CoveredIsWhole(tags, i, n, x);
    } else {
      var m := NextStart(tags, x, i, i + n - 1);
      if x == i {
        StartsBelow(tags, x, i);
        LongBlocks(values, s, tags, x, n);
      }
      LongBlocks(values, s, tags, m, n);
      BlockCovers(tags, m, m + n - 1, i + n - 1);
      assert MeetAt(tags, i, n, x, m);
    }
  }

  lemma StartsBelow(tags: seq<Tag>, x: int, p: int)
    requires InBlock(tags, x, p)
    ensures 0 <= x <= p < |tags| && tags[x] == First
  {
  }

  lemma LeavesNothingIf(values: seq<string>, s: string, b: string, i: nat)
    requires "" !in values && b in values && OccursAt(s, b, i)
    requires var tags := Chosen(values, s); Unclipped(tags, i, |b|) || Abutted(tags, i, |b|)
    ensures NoLetterLeft(Chosen(values, s), i, |b|)
  {
    var tags, n := Chosen(values, s), |b|;
    ChosenAreOccurrences(values, s);
    hide Sourced, Proper;
    if Unclipped(tags, i, n) {
      var p := OccurrenceIsHit(values, s, b, i);
      hide Chosen;
      var x := StartOfBlock(tags, p);
      CoveredIsWhole(tags, i, n, x);
    } else {
      hide Chosen;
      var x, m :| MeetAt(tags, i, n, x, m);
      forall p | i <= p < i + n
        ensures tags[p] != Free
      {
        if p < m {
          BlockCovers(tags, x, m - 1, p);
        } else {
          BlockCovers(tags, m, i + n - 1, p);
        }
      }
    }
  }

  /** Right after its turn, longest first, an occurrence of a value has left no
      letter behind iff no chosen occurrence partly overlaps it, or two of them
      meet inside it. */
  lemma LeavesNothingIff(values: seq<string>, m: nat, s: string, i: nat)
    requires "" !in values && LongestFirst(values) && m < |values| && OccursAt(s, values[m], i)
    ensures var tags, n := Chosen(values[..m + 1], s), |values[m]|;
            NoLetterLeft(tags, i, n) <==> Unclipped(tags, i, n) || Abutted(tags, i, n)
  {
    var upTo, b := values[..m + 1], values[m];
    assert upTo[m] == b && "" !in upTo;
    forall v | v in upTo
      ensures |v| >= |b|
    {
      var j :| 0 <= j < |upTo| && upTo[j] == v;
    }
    ChosenAreOccurrences(upTo, s);
    hide Chosen, Proper, Sourced, Unclipped, Abutted, NoLetterLeft;
    if NoLetterLeft(Chosen(upTo, s), i, |b|) {
      LeavesNothingOnlyIf(upTo, s, Chosen(upTo, s), i, |b|);
    } else if Unclipped(Chosen(upTo, s), i, |b|) || Abutted(Chosen(upTo, s), i, |b|) {
      LeavesNothingIf(upTo, s, b, i);
    }
  }

  // ----- what can be seen in the text beforehand -----

  lemma {:induction false} SelectAllSplits(a: seq<string>, b: seq<string>, s: string, tags: seq<Tag>)
    requires |s| == |tags| && "" !in a && "" !in b
    ensures SelectAll(a + b, s, tags) == SelectAll(b, s, SelectAll(a, s, tags))
  {
    if a == [] {
      assert a + b == b;
    } else {
      assert (a + b)[1..] == a[1..] + b;
      SelectAllSplits(a[1..], b, s, SelectFrom(s, tags, a[0], 0));
    }
  }

  /** Every occurrence of a value at least as long that meets this one contains it. */
  ghost predicate NoneStraddles(values: seq<string>, s: string, i: nat, n: nat) {
    forall v, j :: v in values && |v| >= n && OccursAt(s, v, j) && j < i + n && i < j + |v| ==>
      j <= i && i + n <= j + |v|
  }

  lemma NoneStraddlesUnclipped(values: seq<string>, s: string, tags: seq<Tag>, i: nat, n: nat)
    requires |s| == |tags| && Sourced(values, s, tags) && (forall v :: v in values ==> |v| >= n)
    requires n > 0 && i + n <= |s| && NoneStraddles(values, s, i, n)
    ensures Unclipped(tags, i, n)
  {
    forall x, p | InBlock(tags, x, p) && i <= p < i + n
      ensures x <= i && InBlock(tags, x, i + n - 1)
    {
      var v :| v in values && IsOf(s, tags, v, x);
      assert p < x + |v|;
      BlockCovers(tags, x, x + |v| - 1, i + n - 1);
    }
  }

  /** Longest first, an occurrence of a value that no occurrence of a value at
      least as long straddles leaves no letter in the redacted text. */
  lemma NoStraddleNoFragment(values: seq<string>, m: nat, s: string, i: nat)
    requires "" !in values && LongestFirst(values) && m < |values| && OccursAt(s, values[m], i)
    requires NoneStraddles(values, s, i, |values[m]|)
    ensures NoLetterLeft(Chosen(values, s), i, |values[m]|)
  {
    var upTo, rest, b := values[..m + 1], values[m + 1..], values[m];
    assert upTo[m] == b && values == upTo + rest;
    forall v | v in upTo
      ensures |v| >= |b| && v in values
    {
      var j :| 0 <= j < |upTo| && upTo[j] == v;
    }
    ChosenAreOccurrences(upTo, s);
    var tags := Chosen(upTo, s);
    assert NoneStraddles(upTo, s, i, |b|);
    NoneStraddlesUnclipped(upTo, s, tags, i, |b|);
    LeavesNothingIf(upTo, s, b, i);
    SelectAllSplits(upTo, rest, s, AllFree(|s|));
    assert Chosen(values, s) == SelectAll(rest, s, tags);
  }

  // ----- what can be seen in the values alone -----

  /** The last `k` letters of `v` are the first `k` letters of `b`. */
  predicate EndStarts(v: string, b: string, k: int) {
    0 < k <= |v| && k <= |b| && v[|v| - k..] == b[..k]
  }

  /** `v` reaches into `b` from one side, and not over all of it. */
  ghost predicate OverlapsAtEnd(v: string, b: string) {
    exists k :: 0 < k < |b| && (EndStarts(v, b, k) || EndStarts(b, v, k))
  }

  lemma StraddleOverlaps(s: string, v: string, j: int, b: string, i: int)
    requires |v| >= |b| && OccursAt(s, v, j) && OccursAt(s, b, i)
    requires j < i + |b| && i < j + |v| && !(j <= i && i + |b| <= j + |v|)
    ensures OverlapsAtEnd(v, b)
  {
    if j > i {
      var k := i + |b| - j;
      assert b[|b| - k..] == s[j..i + |b|] == v[..k];
      assert EndStarts(b, v, k);
    } else {
      var k := j + |v| - i;
      assert v[|v| - k..] == s[i..j + |v|] == b[..k];
      assert EndStarts(v, b, k);
    }
  }

  /** Longest first, a value that no value at least as long overlaps at an end,
      itself included, leaves no letter of any occurrence in any text. */
  lemma NoOverlapNoFragment(values: seq<string>, m: nat, s: string, i: nat)
    requires "" !in values && LongestFirst(values) && m < |values| && OccursAt(s, values[m], i)
    requires forall v :: v in values && |v| >= |values[m]| ==> !OverlapsAtEnd(v, values[m])
    ensures NoLetterLeft(Chosen(values, s), i, |values[m]|)
  {
    hide Chosen;
    var b := values[m];
    forall v, j | v in values && |v| >= |b| && OccursAt(s, v, j) && j < i + |b| && i < j + |v|
      ensures j <= i && i + |b| <= j + |v|
    {
      if !(j <= i && i + |b| <= j + |v|) {
        StraddleOverlaps(s, v, j, b, i);
      }
    }
    NoStraddleNoFragment(values, m, s, i);
  }

  // ----- overlapping secrets, in text -----

  lemma NotBehindMark(rest: string, v: string)
    requires v != "" && !Touches(v) && !Contains(rest, v)
    ensures !Contains(MARK + rest, v)
  {
    if Contains(MARK + rest, v) {
      AfterAnyMark(MARK, rest, v);
    }
  }

  /** Two values that share `y`: of `x + y + z` the second leaves `z` behind, in
      the order the redactor uses. */
  lemma OverlapLeavesFragment(x: string, y: string, z: string)
    requires y != "" && z != "" && |x| >= |z| && !Touches(y + z)
    ensures LongestFirst([x + y, y + z]) && RedactAll([x + y, y + z], x + y + z) == MARK + z
  {
    TooShort(z, x + y);
    ReplacesPrefix(x + y, z);
    TooShort(z, y + z);
    NotBehindMark(z, y + z);
    ReplaceAbsent(MARK + z, y + z);
    TwoValues(x + y, y + z, x + y + z);
  }

  lemma TwoSecretRedactor(a: string, b: string)
    requires |a| >= |b| >= MIN_SECRET && JsonEscape(a) == a && JsonEscape(b) == b
    ensures RedactorOf(map["a" := a, "b" := b], [a, b])
  {
    hide JsonEscape;
    var secrets, values := map["a" := a, "b" := b], [a, b];
    assert secrets["a"] == a && secrets["b"] == b;
    assert values[0] == a && values[1] == b;
  }

  /** Two secrets that share a part, in the redactor that holds them. */
  lemma OverlappingSecretsLeaveFragment(x: string, y: string, z: string)
    requires y != "" && z != "" && |x| >= |z| && !Touches(y + z)
    requires |y + z| >= MIN_SECRET && JsonEscape(x + y) == x + y && JsonEscape(y + z) == y + z
    ensures RedactorOf(map["a" := x + y, "b" := y + z], [x + y, y + z])
    ensures RedactAll([x + y, y + z], x + y + z) == MARK + z
  {
    hide RedactAll, JsonEscape, RedactorOf, Touches;
    OverlapLeavesFragment(x, y, z);
    TwoSecretRedactor(x + y, y + z);
  }

  /** Two occurrences that meet inside a third leave nothing of it, although both
      overlap it. */
  lemma AbuttingLeavesNothing(x: string, y: string, z: string, w: string)
    requires y != "" && z != "" && !Contains(z + w, x + y) && !Touches(z + w) && !Touches(y + z)
    requires |x + y| >= |z + w| >= |y + z|
    ensures LongestFirst([x + y, z + w, y + z])
    ensures RedactAll([x + y, z + w, y + z], x + y + (z + w)) == MARK + MARK
  {
    var a, b, c := x + y, z + w, y + z;
    ReplacesPrefix(a, b);
    ScanPassesMark(b, b);
    TooShort("", b);
    ReplacesPrefix(b, "");
    assert b + "" == b && MARK + "" == MARK;
    TooShort("", c);
    NotBehindMark("", c);
    NotBehindMark(MARK, c);
    ReplaceAbsent(MARK + MARK, c);
    ThreeInTurn(a, b, c, a + b);
  }

  lemma {:induction false} MarkStays(values: seq<string>)
    requires "" !in values && forall v :: v in values ==> !Touches(v)
    ensures RedactAll(values, MARK) == MARK
  {
    if values != [] {
      assert !Touches(values[0]);
      ReplaceAbsent(MARK, values[0]);
      MarkStays(values[1..]);
    }
  }

  lemma NoLongerThan(b: string, v: string)
    requires |v| >= |b| && Contains(b, v)
    ensures v == b
  {
    assert b[0..|b|] == b;
  }

  /** Longest first, a text that is one of the values becomes a single mark. */
  lemma {:induction false} WholeSecretReplaced(values: seq<string>, b: string)
    requires "" !in values && LongestFirst(values) && b in values && forall v :: v in values ==> !Touches(v)
    ensures RedactAll(values, b) == MARK
  {
    hide Touches, Contains, ReplaceAll;
    var v := values[0];
    if v == b {
      TooShort("", b);
      ReplacesPrefix(b, "");
      assert b + "" == b && MARK + "" == MARK;
      MarkStays(values[1..]);
    } else {
      var j :| 0 <= j < |values| && values[j] == b;
      if Contains(b, v) {
        NoLongerThan(b, v);
      }
      ReplaceAbsent(b, v);
      WholeSecretReplaced(values[1..], b);
    }
  }

  /** Shorter first, a secret that begins with another one would leave its end. */
  lemma ShorterFirstLeavesFragment(a: string, x: string)
    requires a != "" && x != "" && !Contains(x, a) && !Touches(a + x)
    ensures !LongestFirst([a, a + x]) && RedactAll([a, a + x], a + x) == MARK + x
  {
    assert |[a, a + x][0]| < |[a, a + x][1]|;
    ReplacesPrefix(a, x);
    TooShort(x, a + x);
    NotBehindMark(x, a + x);
    ReplaceAbsent(MARK + x, a + x);
    TwoValues(a, a + x, a + x);
  }
}
