/**
 Redacted text as a JSON reader sees it.  The reader of JSON strings here is
 written by itself, not from the escaping; the escaping is read back exactly, and
 what the redactor leaves of a marshalled text cannot be read as a secret it holds.
 */
module JsonText {
  import opened Definitions
  import opened Redaction

  // ----- a reader of JSON string contents -----

  function HexValue(c: char): Option<nat> {
    if '0' <= c <= '9' then Some((c - '0') as nat)
    else if 'a' <= c <= 'f' then Some((c - 'a') as nat + 10)
    else if 'A' <= c <= 'F' then Some((c - 'A') as nat + 10)
    else None
  }

  /** The code a \u escape spells with the four characters of `s`. */
  function HexCode(s: string): Option<nat>
    requires |s| == 4
  {
    var a, b, c, d := HexValue(s[0]), HexValue(s[1]), HexValue(s[2]), HexValue(s[3]);
    if a.Some? && b.Some? && c.Some? && d.Some?
    then Some(0x1000 * a.value + 0x100 * b.value + 0x10 * c.value + d.value)
    else None
  }

  /** What stands for one character, and how long it is. */
  datatype Token = Token(c: char, length: nat)

  /** One escape sequence at the start of `s`. */
  function ReadEscape(s: string): (r: Option<Token>)
    requires s != "" && s[0] == '\\'
    ensures r.Some? ==> 2 <= r.value.length <= |s|
  {
    if |s| < 2 then None
    else if s[1] == '"' || s[1] == '\\' || s[1] == '/' then Some(Token(s[1], 2))
    else if s[1] == 'n' then Some(Token('\n', 2))
    else if s[1] == 'r' then Some(Token('\r', 2))
    else if s[1] == 't' then Some(Token('\t', 2))
    else if s[1] == 'b' then Some(Token(8 as char, 2))
    else if s[1] == 'f' then Some(Token(12 as char, 2))
    else if s[1] == 'u' && |s| >= 6 && HexCode(s[2..6]).Some? && HexCode(s[2..6]).value < 0xD800 then
      Some(Token(HexCode(s[2..6]).value as char, 6))
    else None
  }

  function Cons(c: char, rest: Option<string>): Option<string> {
    if rest.Some? then Some([c] + rest.value) else None
  }

  /** The characters a JSON string spells; none where a quote or a control character
      stands raw, or an escape is malformed. */
  function Unescape(s: string): Option<string>
    decreases |s|
  {
    if s == "" then Some("")
    else if s[0] == '\\' then
      var t := ReadEscape(s);
      if t.Some? then Cons(t.value.c, Unescape(s[t.value.length..])) else None
    else if s[0] == '"' || s[0] as int < 0x20 then None
    else Cons(s[0], Unescape(s[1..]))
  }

  // ----- what is escaped is read back -----

  lemma HexReads(n: nat)
    requires n < 16
    ensures HexValue(Hex(n)) == Some(n)
    ensures '0' <= Hex(n) <= '9' || 'a' <= Hex(n) <= 'f'
  {
  }

  predicate IsHexDigit(c: char) {
    '0' <= c <= '9' || 'a' <= c <= 'f'
  }

  /** The three shapes of an escape: the character itself, two characters, or six. */
  predicate Raw(c: char, e: string) {
    e == [c] && c != '\\' && c != '"' && c as int >= 0x20
  }

  predicate Short(c: char, e: string) {
    |e| == 2 && e[0] == '\\' && ReadEscape(e) == Some(Token(c, 2)) && e[1] in "\"\\nrtbf"
  }

  predicate Long(c: char, e: string) {
    && |e| == 6 && e[0] == '\\' && e[1] == 'u' && e[2] == '0' && e[3] == '0' && IsHexDigit(e[4]) && IsHexDigit(e[5])
    && ReadEscape(e) == Some(Token(c, 6))
  }

  lemma LongShape(c: char, a: nat, b: nat)
    requires a < 16 && b < 16 && c as int == 16 * a + b
    ensures Long(c, "\\u00" + [Hex(a), Hex(b)])
  {
    var e := "\\u00" + [Hex(a), Hex(b)];
    HexReads(a);
    HexReads(b);
    assert e[2] == '0' && e[3] == '0' && e[4] == Hex(a) && e[5] == Hex(b);
    assert HexValue('0') == Some(0);
    hide Hex, HexValue;
    var four := e[2..6];
    assert four[0] == '0' && four[1] == '0' && four[2] == Hex(a) && four[3] == Hex(b);
    assert HexCode(four) == Some(16 * a + b);
  }

  lemma EscapeShape(c: char)
    ensures var e := EscapeByte(c); Raw(c, e) || Short(c, e) || Long(c, e)
  {
    var e := EscapeByte(c);
    if IsLong(c) {
      LongShape(c, c as int / 16 % 16, c as int % 16);
    } else if e != [c] {
      hide HexCode;
      assert e[1] in "\"\\nrtbf";
    }
  }

  predicate IsLong(c: char) {
    && c != '\n' && c != '\r' && c != '\t' && c as int != 8 && c as int != 12
    && (c as int < 0x20 || c == '<' || c == '>' || c == '&')
  }

  lemma ReadEscapeMore(e: string, rest: string)
    requires e != "" && e[0] == '\\' && ReadEscape(e).Some? && ReadEscape(e).value.length == |e|
    ensures ReadEscape(e + rest) == ReadEscape(e)
  {
    assert |e| == 6 ==> (e + rest)[2..6] == e[2..6];
  }

  lemma ReadOne(c: char, rest: string)
    ensures Unescape(EscapeByte(c) + rest) == Cons(c, Unescape(rest))
  {
    var e := EscapeByte(c);
    EscapeShape(c);
    hide EscapeByte, HexCode, HexValue;
    if !Raw(c, e) {
      ReadEscapeMore(e, rest);
      hide ReadEscape;
      assert (e + rest)[|e|..] == rest && (e + rest)[0] == '\\';
    } else {
      assert (e + rest)[1..] == rest;
    }
  }

  /** Reading undoes escaping; in particular no quote or control character is raw. */
  lemma {:induction false} JsonRoundTrip(v: string)
    ensures Unescape(JsonEscape(v)) == Some(v)
    ensures forall c :: c in JsonEscape(v) ==> c as int >= 0x20
  {
    if v != "" {
      hide EscapeByte, Unescape;
      JsonRoundTrip(v[1..]);
      ReadOne(v[0], JsonEscape(v[1..]));
      assert v == [v[0]] + v[1..];
      PrintableEscape(v[0]);
    } else {
      assert Unescape("") == Some("");
    }
  }

  /** The form each character takes: seven short escapes, a lower-case \u escape for the
      other control characters and for <, > and &, and nothing for the rest. */
  lemma EscapeForms(c: char)
    ensures JsonEscape("\"") == "\\\"" && JsonEscape("\\") == "\\\\" && JsonEscape("\n") == "\\n"
    ensures JsonEscape("\r") == "\\r" && JsonEscape("\t") == "\\t"
    ensures JsonEscape([8 as char]) == "\\b" && JsonEscape([12 as char]) == "\\f"
    ensures JsonEscape("<") == "\\u003c" && JsonEscape(">") == "\\u003e" && JsonEscape("&") == "\\u0026"
    ensures c as int < 0x20 && c !in "\n\r\t" && c as int != 8 && c as int != 12 ==>
              |JsonEscape([c])| == 6 && forall d :: d in JsonEscape([c]) ==> !('A' <= d <= 'F')
    ensures c as int >= 0x20 && c !in "\"\\<>&" ==> JsonEscape([c]) == [c]
  {
    OneShort();
    OneMarkup();
    OneOther(c);
    hide EscapeByte;
    forall d: char
      ensures JsonEscape([d]) == EscapeByte(d)
    {
      EscapeCons(d, "");
    }
  }

  lemma OneShort()
    ensures EscapeByte('"') == "\\\"" && EscapeByte('\\') == "\\\\"
    ensures EscapeByte('\n') == "\\n" && EscapeByte('\r') == "\\r" && EscapeByte('\t') == "\\t"
    ensures EscapeByte(8 as char) == "\\b" && EscapeByte(12 as char) == "\\f"
  {
  }

  lemma OneMarkup()
    ensures EscapeByte('<') == "\\u003c" && EscapeByte('>') == "\\u003e" && EscapeByte('&') == "\\u0026"
  {
    assert Hex(3) == '3' && Hex(2) == '2' && Hex(6) == '6' && Hex(12) == 'c' && Hex(14) == 'e';
    hide Hex;
  }

  lemma OneOther(c: char)
    ensures c as int < 0x20 && c !in "\n\r\t" && c as int != 8 && c as int != 12 ==>
              |EscapeByte(c)| == 6 && forall d :: d in EscapeByte(c) ==> !('A' <= d <= 'F')
    ensures c as int >= 0x20 && c !in "\"\\<>&" ==> EscapeByte(c) == [c]
  {
    LowerCase(c as int / 16 % 16);
    LowerCase(c as int % 16);
    hide Hex;
  }

  lemma LowerCase(n: nat)
    requires n < 16
    ensures !('A' <= Hex(n) <= 'F')
  {
  }

  lemma PrintableEscape(c: char)
    ensures forall d :: d in EscapeByte(c) ==> d as int >= 0x20
  {
  }

  lemma {:induction false} EscapeConcat(a: string, b: string)
    ensures JsonEscape(a + b) == JsonEscape(a) + JsonEscape(b)
  {
    hide EscapeByte;
    if a == "" {
      assert a + b == b;
    } else {
      assert (a + b)[1..] == a[1..] + b;
      EscapeConcat(a[1..], b);
    }
  }

  // ----- a reader sees the mark as it stands -----

  /** Characters that are read as themselves. */
  predicate Straight(m: string) {
    forall c :: c in m ==> c != '\\' && c != '"' && c as int >= 0x20
  }

  lemma {:induction false} ReadsStraight(m: string, y: string)
    requires Straight(m)
    ensures Unescape(m + y).Some? <==> Unescape(y).Some?
    ensures Unescape(y).Some? ==> Unescape(m + y) == Some(m + Unescape(y).value)
  {
    if m == "" {
      assert m + y == y;
      assert Unescape(y).Some? ==> m + Unescape(y).value == Unescape(y).value;
    } else {
      assert m[0] in m && (m + y)[1..] == m[1..] + y;
      forall c | c in m[1..]
        ensures c in m
      {
      }
      ReadsStraight(m[1..], y);
      assert Unescape(y).Some? ==> [m[0]] + (m[1..] + Unescape(y).value) == m + Unescape(y).value;
    }
  }

  lemma ReadsItself(m: string)
    requires Straight(m)
    ensures Unescape(m) == Some(m)
  {
    ReadsStraight(m, "");
    assert m + "" == m;
  }

  /** No escape reaches over an opening bracket. */
  lemma EscapeStops(x: string, q: string)
    requires x != "" && x[0] == '\\' && q != "" && q[0] == '[' && ReadEscape(x + q).Some?
    ensures ReadEscape(x + q).value.length <= |x| && ReadEscape(x) == ReadEscape(x + q)
  {
    var s := x + q;
    assert s[|x|] == '[';
    if s[1] == 'u' {
      NoBracketInHex(s[2..6]);
      forall k | 2 <= k < 6
        ensures s[k] != '['
      {
        assert s[2..6][k - 2] == s[k];
      }
      assert x[2..6] == s[2..6];
    }
  }

  lemma NoBracketInHex(h: string)
    requires |h| == 4 && HexCode(h).Some?
    ensures forall k :: 0 <= k < 4 ==> h[k] != '['
  {
  }

  /** So a reader that gets past it was at its own boundary there. */
  lemma {:induction false} ReadsApart(x: string, q: string)
    requires q != "" && q[0] == '[' && Unescape(x + q).Some?
    ensures Unescape(x).Some? && Unescape(q).Some?
    ensures Unescape(x + q).value == Unescape(x).value + Unescape(q).value
    decreases |x|
  {
    hide ReadEscape;
    if x == "" {
      assert x + q == q;
    } else if x[0] == '\\' {
      EscapeStops(x, q);
      var n := ReadEscape(x).value.length;
      assert (x + q)[n..] == x[n..] + q;
      ReadsApart(x[n..], q);
    } else {
      assert (x + q)[1..] == x[1..] + q;
      ReadsApart(x[1..], q);
    }
  }

  lemma {:induction false} ReadsSome(p: string)
    requires p != "" && Unescape(p).Some?
    ensures Unescape(p).value != ""
  {
  }

  lemma MarkIsStraight()
    ensures MARK != "" && Straight(MARK) && MARK[0] == '['
  {
  }

  lemma PartIsStraight(m: string, i: nat, j: nat)
    requires Straight(m) && i <= j <= |m|
    ensures Straight(m[i..j])
  {
    forall c | c in m[i..j]
      ensures c in m
    {
    }
  }

  /** What reads as a string apart from the mark is itself apart from it. */
  lemma TouchIsRead(p: string, v: string)
    requires Unescape(p) == Some(v) && Touches(p)
    ensures Touches(v)
  {
    MarkIsStraight();
    var mark := MARK;
    hide Unescape, MARK;
    if Contains(mark, p) {
      var i :| OccursAt(mark, p, i);
      PartIsStraight(mark, i, i + |p|);
      ReadsItself(p);
    } else if Contains(p, mark) {
      var i :| OccursAt(p, mark, i);
      assert p == p[..i] + mark + p[i + |mark|..];
      ReadsAround(p[..i], mark, p[i + |mark|..], p, v);
    } else if k :| MarkEndsIn(mark, p, k) {
      EndIsRead(mark, p, v, k);
    } else {
      var k :| MarkStartsIn(mark, p, k);
      StartIsRead(mark, p, v, k);
    }
  }

  lemma ReadsAround(x: string, mark: string, y: string, p: string, v: string)
    requires Straight(mark) && mark != "" && mark[0] == '[' && p == x + mark + y && Unescape(p) == Some(v)
    ensures Contains(v, mark)
  {
    hide Unescape;
    assert p == x + (mark + y);
    ReadsApart(x, mark + y);
    ReadsStraight(mark, y);
    var a, b := Unescape(x).value, Unescape(y).value;
    assert v == a + (mark + b);
    assert v[|a|..|a| + |mark|] == mark;
    assert OccursAt(v, mark, |a|);
  }

  lemma EndIsRead(mark: string, p: string, v: string, k: int)
    requires Straight(mark) && MarkEndsIn(mark, p, k) && Unescape(p) == Some(v)
    ensures MarkEndsIn(mark, v, k)
  {
    hide Unescape;
    var head, tail := p[..k], p[k..];
    assert p == head + tail;
    PartIsStraight(mark, |mark| - k, |mark|);
    assert head == mark[|mark| - k..|mark|];
    ReadsStraight(head, tail);
    ReadsSome(tail);
    assert v[..k] == head;
  }

  lemma StartIsRead(mark: string, p: string, v: string, k: int)
    requires Straight(mark) && mark != "" && mark[0] == '[' && MarkStartsIn(mark, p, k) && Unescape(p) == Some(v)
    ensures exists j :: MarkStartsIn(mark, v, j)
  {
    hide Unescape;
    var head, tail := p[..k], p[k..];
    assert p == head + tail && tail[0] == mark[0];
    PartIsStraight(mark, 0, |tail|);
    assert tail == mark[0..|tail|];
    ReadsItself(tail);
    ReadsApart(head, tail);
    ReadsSome(head);
    var j := |v| - |tail|;
    assert v[j..] == tail;
    assert MarkStartsIn(mark, v, j);
  }

  // ----- the pieces of an escaped text -----

  lemma StraightEscapes(c: char)
    requires c == 'u' || c == '/' || IsHexDigit(c) || c in "nrtbf"
    ensures EscapeByte(c) == [c]
  {
  }

  lemma CutEscapeFails(p: string, e: string, c: char)
    requires (Short(c, e) || Long(c, e)) && 0 < |p| < |e| && p[0] == '\\' && (|p| >= 2 ==> p[1] == e[1])
    ensures Unescape(p).None?
  {
    hide HexCode;
    assert ReadEscape(p).None?;
  }

  lemma FirstToken(p: string, e: string, rest: string, c: char)
    requires StartsWith(e + rest, p) && p != "" && Unescape(p).Some? && (Raw(c, e) || Short(c, e) || Long(c, e))
    ensures |e| <= |p| && p == e + p[|e|..] && StartsWith(rest, p[|e|..])
  {
    TokenShape(c, e);
    hide *;
    PrefixMeets(e, rest, p);
    if |p| < |e| {
      CutEscapeFails(p, e, c);
    }
  }

  lemma TokenShape(c: char, e: string)
    requires Raw(c, e) || Short(c, e) || Long(c, e)
    ensures |e| > 0 && (|e| > 1 ==> e[0] == '\\' && (Short(c, e) || Long(c, e)))
  {
    hide ReadEscape, HexCode;
  }

  lemma PrefixMeets(e: string, rest: string, p: string)
    requires StartsWith(e + rest, p)
    ensures forall i :: 0 <= i < |p| && i < |e| ==> p[i] == e[i]
    ensures |p| >= |e| ==> p == e + p[|e|..] && StartsWith(rest, p[|e|..])
  {
    var text := e + rest;
    assert forall i :: 0 <= i < |p| ==> p[i] == text[i];
    if |p| >= |e| {
      assert rest[..|p| - |e|] == text[|e|..|p|] == p[|e|..];
    }
  }

  /** A readable piece that starts with a token is what it reads as, escaped. */
  lemma {:induction false} PieceAtToken(w: string, p: string, v: string)
    requires StartsWith(JsonEscape(w), p) && Unescape(p) == Some(v)
    ensures p == JsonEscape(v) && StartsWith(w, v)
  {
    hide EscapeByte, Unescape;
    if p == "" {
      assert Unescape("") == Some("") by {
        ReadsItself("");
      }
    } else {
      var c, e, rest := w[0], EscapeByte(w[0]), JsonEscape(w[1..]);
      EscapeShape(c);
      FirstToken(p, e, rest, c);
      ReadOne(c, p[|e|..]);
      var v' := Unescape(p[|e|..]).value;
      PieceAtToken(w[1..], p[|e|..], v');
      assert v == [c] + v' && v[1..] == v';
    }
  }

  /** The text spells a \u escape of its own. */
  predicate SpellsAt(w: string, i: int) {
    0 <= i <= |w| - 6 && w[i] == '\\' && w[i + 1] == 'u' && HexCode(w[i + 2..i + 6]).Some?
  }

  ghost predicate SpellsEscape(w: string) {
    exists i :: SpellsAt(w, i)
  }

  lemma SpellsMore(head: string, w: string)
    requires SpellsEscape(w)
    ensures SpellsEscape(head + w)
  {
    hide HexCode;
    var i :| SpellsAt(w, i);
    var j := i + |head|;
    assert (head + w)[j + 2..j + 6] == w[i + 2..i + 6];
    assert SpellsAt(head + w, j);
  }

  /** A readable piece is what it reads as, escaped, up to one backslash before it. */
  predicate NearlyEscaped(p: string, v: string) {
    p == JsonEscape(v) || p == "\\" + JsonEscape(v)
  }

  lemma {:induction false} StableEscapes(t: string)
    requires forall c :: c in t ==> c == 'u' || c == '/' || IsHexDigit(c) || c in "nrtbf"
    ensures JsonEscape(t) == t && Straight(t)
  {
    if t != "" {
      StraightEscapes(t[0]);
      IsStraight(t[0]);
      hide EscapeByte, IsHexDigit, Straight;
      StableEscapes(t[1..]);
      EscapeCons(t[0], t[1..]);
      assert t == [t[0]] + t[1..];
      StraightCons(t[0], t[1..]);
    }
  }

  lemma IsStraight(c: char)
    requires c == 'u' || c == '/' || IsHexDigit(c) || c in "nrtbf"
    ensures c != '\\' && c != '"' && c as int >= 0x20
  {
  }

  lemma StraightCons(c: char, t: string)
    requires c != '\\' && c != '"' && c as int >= 0x20 && Straight(t)
    ensures Straight([c] + t)
  {
  }

  /** Behind the backslash of an escape stand plain characters, unless it is an
      escaped quote or backslash. */
  lemma PieceInStable(t: string, w: string, p: string, v: string)
    requires forall c :: c in t ==> c == 'u' || c == '/' || IsHexDigit(c) || c in "nrtbf"
    requires StartsWith(t + JsonEscape(w), p) && Unescape(p) == Some(v)
    ensures p == JsonEscape(v)
  {
    hide Unescape, JsonEscape;
    var text := t + JsonEscape(w);
    if |p| <= |t| {
      assert p == t[..|p|];
      forall c | c in p
        ensures c in t
      {
      }
      StableEscapes(p);
      ReadsItself(p);
    } else {
      var rest := p[|t|..];
      assert p[..|t|] == text[..|t|] == t && p == t + rest;
      assert rest == JsonEscape(w)[..|rest|];
      StableEscapes(t);
      ReadsStraight(t, rest);
      var v' := Unescape(rest).value;
      PieceAtToken(w, rest, v');
      EscapeConcat(t, v');
    }
  }

  lemma {:induction false} PieceBehind(c: char, k: nat, w: string, p: string, v: string)
    requires !Raw(c, EscapeByte(c)) && 0 < k < |EscapeByte(c)| && !SpellsEscape([c] + w)
    requires StartsWith(EscapeByte(c)[k..] + JsonEscape(w), p) && Unescape(p) == Some(v)
    ensures NearlyEscaped(p, v)
    decreases |w|, 1
  {
    var e := EscapeByte(c);
    EscapeShape(c);
    hide EscapeByte, Unescape, JsonEscape, SpellsEscape;
    if p == "" {
      NothingRead();
    } else if Long(c, e) || e[1] in "nrtbf" {
      BehindIsStable(c, e, k);
      PieceInStable(e[k..], w, p, v);
    } else {
      assert e[k..] == [e[1]];
      assert p[0] == ([e[1]] + JsonEscape(w))[0] == e[1];
      if e[1] == '"' {
        RawQuoteFails(p);
      } else {
        SecondBackslash(w, p, v);
      }
    }
  }

  lemma NothingRead()
    ensures Unescape("") == Some("") && JsonEscape("") == ""
  {
  }

  lemma RawQuoteFails(p: string)
    requires p != "" && p[0] == '"'
    ensures Unescape(p).None?
  {
  }

  lemma BehindIsStable(c: char, e: string, k: nat)
    requires 0 < k < |e| && (Long(c, e) || (Short(c, e) && e[1] in "nrtbf"))
    ensures forall d :: d in e[k..] ==> d == 'u' || d == '/' || IsHexDigit(d) || d in "nrtbf"
  {
    hide ReadEscape;
  }

  /** A piece that starts with the second backslash of an escaped backslash. */
  lemma {:induction false} SecondBackslash(w: string, p: string, v: string)
    requires !SpellsEscape("\\" + w) && p != "" && StartsWith("\\" + JsonEscape(w), p) && Unescape(p) == Some(v)
    ensures NearlyEscaped(p, v)
    decreases |w|, 0
  {
    var text := "\\" + JsonEscape(w);
    assert p[0] == text[0] == '\\';
    var t := ReadEscape(p).value;
    assert p[1] == text[1] == JsonEscape(w)[0];
    var d, e, w' := w[0], EscapeByte(w[0]), w[1..];
    EscapeShape(d);
    assert JsonEscape(w) == e + JsonEscape(w');
    assert p[1] == e[0];
    var rest := p[t.length..];
    assert Unescape(p) == Cons(t.c, Unescape(rest));
    var v' := Unescape(rest).value;
    assert v == [t.c] + v';
    if !Raw(d, e) {
      assert t == Token('\\', 2);
      hide Unescape, JsonEscape, EscapeByte, ReadEscape, SpellsEscape;
      RestBehind(text, e, JsonEscape(w'), p);
      if SpellsEscape(w) {
        SpellsMore("\\", w);
      }
      assert w == [d] + w';
      PieceBehind(d, 1, w', rest, v');
      DoubledBackslash(p, rest, v, v');
    } else if t.length == 2 {
      hide Unescape, JsonEscape, SpellsEscape, HexCode;
      RestAfter(text, d, JsonEscape(w'), p);
      PieceAtToken(w', rest, v');
      ShortRead(d, p, rest, t.c, v');
    } else {
      hide Unescape, JsonEscape, EscapeByte;
      SpelledHere(text, w, p);
    }
  }

  lemma RestBehind(text: string, e: string, tail: string, p: string)
    requires text == "\\" + (e + tail) && StartsWith(text, p) && |p| >= 2 && |e| >= 2
    ensures StartsWith(e[1..] + tail, p[2..])
  {
    assert text[2..] == e[1..] + tail;
    assert text[..|p|][2..] == text[2..][..|p| - 2];
  }

  lemma RestAfter(text: string, d: char, tail: string, p: string)
    requires text == "\\" + ([d] + tail) && StartsWith(text, p) && |p| >= 2
    ensures StartsWith(tail, p[2..])
  {
    assert text[2..] == tail;
    assert text[..|p|][2..] == text[2..][..|p| - 2];
  }

  lemma DoubledBackslash(p: string, rest: string, v: string, v': string)
    requires |p| >= 2 && p[0] == '\\' && p[1] == '\\' && rest == p[2..] && v == ['\\'] + v' && NearlyEscaped(rest, v')
    ensures NearlyEscaped(p, v)
  {
    assert p == "\\\\" + rest;
    assert v[0] == '\\' && v[1..] == v';
    assert EscapeByte('\\') == "\\\\";
    var x := JsonEscape(v');
    assert JsonEscape(v) == "\\\\" + x;
    assert "\\\\" + ("\\" + x) == "\\" + ("\\\\" + x);
  }

  /** One escape of two characters, then escaped text. */
  lemma ShortRead(d: char, p: string, rest: string, c: char, v': string)
    requires |p| >= 2 && p[0] == '\\' && p[1] == d && rest == p[2..] && rest == JsonEscape(v')
    requires ReadEscape(p) == Some(Token(c, 2)) && d != '"' && d != '\\'
    ensures NearlyEscaped(p, [c] + v')
  {
    ShortLetter(d, p, c);
    IsNearly(p, [c] + v');
    hide *;
    EscapeCons(c, v');
    StartsWithTwo(p, d, rest);
  }

  lemma StartsWithTwo(p: string, d: char, rest: string)
    requires |p| >= 2 && p[0] == '\\' && p[1] == d && rest == p[2..]
    ensures p == ['\\', d] + rest && p == "\\" + ([d] + rest)
  {
  }

  lemma EscapeCons(c: char, v: string)
    ensures JsonEscape([c] + v) == EscapeByte(c) + JsonEscape(v)
  {
    hide EscapeByte;
    assert ([c] + v)[0] == c && ([c] + v)[1..] == v;
  }

  lemma ShortLetter(d: char, p: string, c: char)
    requires |p| >= 2 && p[0] == '\\' && p[1] == d && ReadEscape(p) == Some(Token(c, 2)) && d != '"' && d != '\\'
    ensures if d == '/' then c == '/' && EscapeByte(c) == [d] else EscapeByte(c) == ['\\', d]
  {
    hide HexCode;
  }

  lemma HexIsStraight(h: string)
    requires |h| == 4 && HexCode(h).Some?
    ensures Straight(h)
  {
  }

  lemma SpelledHere(text: string, w: string, p: string)
    requires w != "" && Raw(w[0], EscapeByte(w[0])) && JsonEscape(w) == EscapeByte(w[0]) + JsonEscape(w[1..])
    requires text == "\\" + JsonEscape(w) && StartsWith(text, p) && p != "" && p[0] == '\\'
    requires ReadEscape(p).Some? && ReadEscape(p).value.length == 6
    ensures SpellsEscape("\\" + w)
  {
    hide JsonEscape, EscapeByte, Unescape;
    var tail, h := JsonEscape(w[1..]), p[2..6];
    assert p[1] == text[1] == w[0] == 'u';
    assert text[2..] == tail;
    assert h == text[2..6] == tail[..4];
    HexIsStraight(h);
    ReadsItself(h);
    PieceAtToken(w[1..], h, h);
    assert ("\\" + w)[2..6] == w[1..][..4];
    assert SpellsAt("\\" + w, 0);
  }

  // ----- what a reader can find in redacted text -----

  /** In an escaped text that spells no \u escape, whatever can be read as `v` holds
      the escaped form of `v`. */
  lemma {:induction false} ReadableHoldsEscaped(w: string, p: string, v: string, i: nat)
    requires !SpellsEscape(w) && OccursAt(JsonEscape(w), p, i) && Unescape(p) == Some(v) && v != ""
    ensures Contains(p, JsonEscape(v))
    decreases |w|
  {
    SomethingWasEscaped(w, p, v, i);
    var text, e, rest := JsonEscape(w), EscapeByte(w[0]), JsonEscape(w[1..]);
    hide *;
    if i < |e| {
      StartsThere(text, p, i);
      if i == 0 {
        assert text[0..] == text;
        PieceAtToken(w, p, v);
        HoldsItself(p, p, v);
      } else {
        assert text[i..] == e[i..] + rest;
        PieceBehind(w[0], i, w[1..], p, v);
        IsNearly(p, v);
        HoldsItself(p, JsonEscape(v), v);
      }
    } else {
      OccursInTail(e, rest, p, i);
      if SpellsEscape(w[1..]) {
        SpellsMore([w[0]], w[1..]);
      }
      ReadableHoldsEscaped(w[1..], p, v, i - |e|);
    }
  }

  lemma StartsThere(text: string, p: string, i: nat)
    requires OccursAt(text, p, i)
    ensures StartsWith(text[i..], p)
  {
    assert text[i..][..|p|] == text[i..i + |p|];
  }

  lemma SomethingWasEscaped(w: string, p: string, v: string, i: nat)
    requires OccursAt(JsonEscape(w), p, i) && Unescape(p) == Some(v) && v != ""
    ensures w != "" && JsonEscape(w) == EscapeByte(w[0]) + JsonEscape(w[1..]) && w == [w[0]] + w[1..]
    ensures |EscapeByte(w[0])| > 0
  {
    NothingRead();
    hide Unescape, EscapeByte;
    if w != "" {
      OneIsRaw(w[0]);
    }
  }

  lemma OneIsRaw(c: char)
    ensures |EscapeByte(c)| > 0 && (Raw(c, EscapeByte(c)) ==> |EscapeByte(c)| == 1)
  {
  }

  lemma HoldsItself(p: string, x: string, v: string)
    requires x == JsonEscape(v) && (p == x || p == "\\" + x)
    ensures Contains(p, JsonEscape(v))
  {
    hide JsonEscape;
    if p == x {
      assert OccursAt(p, x, 0);
    } else {
      assert OccursAt(p, x, 1);
    }
  }

  lemma IsNearly(p: string, v: string)
    ensures NearlyEscaped(p, v) <==> p == JsonEscape(v) || p == "\\" + JsonEscape(v)
  {
  }

  lemma {:induction false} SurvivorsWereInText(values: seq<string>, s: string, p: string)
    requires "" !in values && p != "" && !Touches(p) && Contains(RedactAll(values, s), p)
    ensures Contains(s, p)
  {
    hide Touches, Contains, ReplaceAll;
    if values != [] {
      SurvivorsWereInText(values[1..], ReplaceAll(s, values[0]), p);
      SurvivorsWereThere(s, values[0], p);
    }
  }

  /** In the redacted form of a marshalled text nothing can be read as a secret the
      redactor holds, among any other values, if neither the secret nor its escaped
      form touches the mark and the text spells no \u escape. */
  lemma SecretUnreadable(values: seq<string>, w: string, v: string, p: string)
    requires "" !in values && JsonEscape(v) in values && v != "" && !Touches(v) && !Touches(JsonEscape(v))
    requires !SpellsEscape(w) && Contains(RedactAll(values, JsonEscape(w)), p)
    ensures Unescape(p) != Some(v)
  {
    var text, done := JsonEscape(w), RedactAll(values, JsonEscape(w));
    if Unescape(p) == Some(v) {
      NothingRead();
      hide Touches, RedactAll, SpellsEscape, Unescape, JsonEscape;
      if Touches(p) {
        TouchIsRead(p, v);
      }
      SurvivorsWereInText(values, text, p);
      var i :| OccursAt(text, p, i);
      ReadableHoldsEscaped(w, p, v, i);
      ContainsTrans(done, p, JsonEscape(v));
      ValueRemoved(values, text, JsonEscape(v));
    }
  }

  /** In particular where the secret stands inside the text. */
  lemma MarshalledSecretGone(values: seq<string>, a: string, v: string, b: string, p: string)
    requires "" !in values && JsonEscape(v) in values && v != "" && !Touches(v) && !Touches(JsonEscape(v))
    requires !SpellsEscape(a + v + b)
    ensures Contains(JsonEscape(a + v + b), JsonEscape(v))
    ensures Contains(RedactAll(values, JsonEscape(a + v + b)), p) ==> Unescape(p) != Some(v)
  {
    hide Unescape, Touches, RedactAll, SpellsEscape;
    if Contains(RedactAll(values, JsonEscape(a + v + b)), p) {
      SecretUnreadable(values, a + v + b, v, p);
    }
    EscapeConcat(a + v, b);
    EscapeConcat(a, v);
    hide JsonEscape;
    var x, y, z := JsonEscape(a), JsonEscape(v), JsonEscape(b);
    assert (x + y + z)[|x|..|x| + |y|] == y;
    assert OccursAt(x + y + z, y, |x|);
  }

  /** The \u escape of a byte. */
  function Spelled(c: char): string
    requires c as int < 0x100
  {
    "\\u00" + [Hex(c as int / 16), Hex(c as int % 16)]
  }

  /** A text that spells an escape does hold a readable piece: a reader that starts
      behind the first of two backslashes reads `c + x`, which is nowhere redacted. */
  lemma SpelledEscapeReads(c: char, x: string)
    requires c as int < 0x100 && JsonEscape(x) == x && !Contains(JsonEscape(Spelled(c) + x), [c] + x)
    ensures SpellsEscape(Spelled(c) + x) && Unescape(Spelled(c) + x) == Some([c] + x)
    ensures Contains(RedactAll([[c] + x], JsonEscape(Spelled(c) + x)), Spelled(c) + x)
  {
    hide *;
    SpelledText(c, x);
    SpelledReads(c, x);
    OneValue([c] + x, JsonEscape(Spelled(c) + x));
    ReplaceAbsent(JsonEscape(Spelled(c) + x), [c] + x);
    HoldsTail("\\", Spelled(c) + x);
  }

  lemma HoldsTail(a: string, b: string)
    ensures Contains(a + b, b)
  {
    assert OccursAt(a + b, b, |a|);
  }

  lemma SpelledText(c: char, x: string)
    requires c as int < 0x100 && JsonEscape(x) == x
    ensures JsonEscape(Spelled(c) + x) == "\\" + (Spelled(c) + x)
  {
    SpelledIsEscaped(c);
    hide *;
    EscapeConcat(Spelled(c), x);
    Reassociate("\\", Spelled(c), x);
  }

  lemma Reassociate(a: string, b: string, c: string)
    ensures (a + b) + c == a + (b + c)
  {
  }

  lemma SpelledReads(c: char, x: string)
    requires c as int < 0x100 && JsonEscape(x) == x
    ensures SpellsEscape(Spelled(c) + x) && Unescape(Spelled(c) + x) == Some([c] + x)
  {
    var e := Spelled(c);
    LongShape(c, c as int / 16, c as int % 16);
    JsonRoundTripOf(x);
    hide Hex, JsonEscape, Spelled, HexCode, SpellsEscape;
    SpellsAtStart(c, e, x);
    hide Long;
    ReadEscapeMore(e, x);
    assert (e + x)[6..] == x;
    hide ReadEscape;
    assert Unescape(e + x) == Cons(c, Unescape(x));
  }

  lemma JsonRoundTripOf(x: string)
    requires JsonEscape(x) == x
    ensures Unescape(x) == Some(x)
  {
    JsonRoundTrip(x);
  }

  lemma SpellsAtStart(c: char, e: string, x: string)
    requires Long(c, e)
    ensures SpellsEscape(e + x)
  {
    hide HexCode;
    assert (e + x)[2..6] == e[2..6];
    assert SpellsAt(e + x, 0);
  }

  lemma SpelledIsEscaped(c: char)
    requires c as int < 0x100
    ensures JsonEscape(Spelled(c)) == "\\" + Spelled(c)
  {
    var t := SpelledTail(c);
    BackslashEscapes();
    hide *;
    StableEscapes(t);
    EscapeCons('\\', t);
    assert "\\\\" + t == "\\" + (['\\'] + t);
  }

  lemma SpelledTail(c: char) returns (t: string)
    requires c as int < 0x100
    ensures Spelled(c) == ['\\'] + t
    ensures forall d :: d in t ==> d == 'u' || d == '/' || IsHexDigit(d) || d in "nrtbf"
  {
    var a, b := Hex(c as int / 16), Hex(c as int % 16);
    HexReads(c as int / 16);
    HexReads(c as int % 16);
    t := ['u', '0', '0', a, b];
    assert IsHexDigit('0');
    hide Hex, HexValue, IsHexDigit;
    assert Spelled(c) == ['\\'] + t;
  }

  lemma BackslashEscapes()
    ensures EscapeByte('\\') == "\\\\"
  {
  }
}
