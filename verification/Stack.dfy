/** Error-stack text. A driver message carries bracketed codes such as `[CNT6] ... [WEX1]`.
    `extract_codes` scans them out; the classifier looks for them with substring tests.
    This module says what a message is made of, and what both readings of it return. */
module Stack {
  import opened Prelude

  // ---- the parts of a message ----------------------------------------------------

  /** Free text, or a bracketed group. */
  datatype Piece = Text(s: string) | Group(s: string)

  predicate Proper(p: Piece) {
    match p
    case Text(s) => '[' !in s
    case Group(s) => ']' !in s
  }

  predicate AllProper(ps: seq<Piece>) {
    forall i :: 0 <= i < |ps| ==> Proper(ps[i])
  }

  function RenderPiece(p: Piece): string {
    match p
    case Text(s) => s
    case Group(s) => "[" + s + "]"
  }

  function Render(ps: seq<Piece>): string {
    if ps == [] then "" else RenderPiece(ps[0]) + Render(ps[1..])
  }

  /** What can follow the last group: nothing, or an opening bracket that is never closed. */
  predicate Unclosed(tail: string) {
    tail == "" || (tail[0] == '[' && ']' !in tail)
  }

  predicate CodeChar(c: char) {
    'A' <= c <= 'Z' || '0' <= c <= '9'
  }

  predicate IsCode(s: string) {
    s != "" && forall i :: 0 <= i < |s| ==> CodeChar(s[i])
  }

  function Emit(s: string): seq<string> {
    if IsCode(s) then [s] else []
  }

  function CodesOfPiece(p: Piece): seq<string> {
    if p.Group? then Emit(p.s) else []
  }

  /** The groups of a message that are codes, in order. */
  function CodesOf(ps: seq<Piece>): seq<string> {
    if ps == [] then [] else CodesOfPiece(ps[0]) + CodesOf(ps[1..])
  }

  // ---- extract_codes ---------------------------------------------------------------

  /** A closed group occupies positions i to j of the message. */
  predicate GroupAt(m: string, i: nat, j: nat) {
    i < j < |m| && m[i] == '[' && m[j] == ']' && forall x :: i < x < j ==> m[x] != ']'
  }

  lemma GroupEndUnique(m: string, i: nat, j: nat, k: nat)
    requires GroupAt(m, i, j) && GroupAt(m, i, k)
    ensures j == k
  {
  }

  ghost function GroupEnd(m: string, i: nat): (j: Option<nat>)
    ensures j.Some? ==> GroupAt(m, i, j.value)
    ensures j.None? ==> forall k :: !GroupAt(m, i, k)
  {
    if k: nat :| GroupAt(m, i, k) then Some(k) else None
  }

  /** What the scan yields from position `i` onwards. */
  ghost function CodesFrom(m: string, i: nat): seq<string>
    requires i <= |m|
    decreases |m| - i
  {
    if i == |m| then []
    else
      match GroupEnd(m, i)
      case None => CodesFrom(m, i + 1)
      case Some(j) => Emit(m[i + 1..j]) + CodesFrom(m, j + 1)
  }

  ghost function Codes(m: string): seq<string> {
    CodesFrom(m, 0)
  }

  lemma TakeGroup(m: string, i: nat, j: nat)
    requires GroupAt(m, i, j)
    ensures CodesFrom(m, i) == Emit(m[i + 1..j]) + CodesFrom(m, j + 1)
  {
    GroupEndUnique(m, i, j, GroupEnd(m, i).value);
  }

  /** `str::find` for one character. */
  method Find(s: string, c: char) returns (k: Option<nat>)
    ensures k == None ==> c !in s
    ensures k.Some? ==> k.value < |s| && s[k.value] == c && c !in s[..k.value]
  {
    for i := 0 to |s|
      invariant c !in s[..i]
    {
      if s[i] == c {
        return Some(i);
      }
    }
    return None;
  }

  method ExtractCodes(message: string) returns (out: seq<string>)
    ensures out == Codes(message)
  {
    hide CodesFrom;
    out := [];
    var i := 0;
    while i < |message|
      invariant 0 <= i <= |message|
      invariant out + CodesFrom(message, i) == Codes(message)
    {
      if message[i] == '[' {
        var end := Find(message[i + 1..], ']');
        if end.Some? {
          var j := i + 1 + end.value;
          var code := message[i + 1..j];
          assert forall x :: i < x < j ==> message[x] == message[i + 1..][..end.value][x - i - 1];
          TakeGroup(message, i, j);
          i := j + 1;
          ghost var rest := CodesFrom(message, i);
          assert out + (Emit(code) + rest) == out + Emit(code) + rest;
          if IsCode(code) {
            out := out + [code];
          } else {
            assert out + Emit(code) == out;
          }
          continue;
        }
        assert forall x :: i < x < |message| ==> message[x] == message[i + 1..][x - i - 1];
      }
      StepOver(message, i);
      i := i + 1;
    }
    NoGroupNoCodes(message, i);
    assert out + [] == out;
  }

  lemma StepOver(m: string, i: nat)
    requires i < |m| && forall j: nat :: !GroupAt(m, i, j)
    ensures CodesFrom(m, i) == CodesFrom(m, i + 1)
  {
  }

  lemma {:induction false} NoGroupNoCodes(m: string, i: nat)
    requires i <= |m| && forall x :: i <= x < |m| ==> m[x] != ']'
    ensures CodesFrom(m, i) == []
    decreases |m| - i
  {
    if i < |m| {
      NoGroupNoCodes(m, i + 1);
    }
  }

  lemma {:induction false} SkipText(m: string, i: nat, j: nat)
    requires i <= j <= |m| && forall x :: i <= x < j ==> m[x] != '['
    ensures CodesFrom(m, i) == CodesFrom(m, j)
    decreases j - i
  {
    if i < j {
      SkipText(m, i + 1, j);
    }
  }

  lemma Reading(m: string, i: nat, t: string, rest: string)
    requires i <= |m| && m[i..] == t + rest
    ensures i + |t| <= |m| && m[i + |t|..] == rest && m[i..i + |t|] == t
    ensures forall x :: 0 <= x < |t| ==> m[i + x] == t[x]
  {
    assert m[i + |t|..] == m[i..][|t|..];
    assert m[i..i + |t|] == m[i..][..|t|];
    assert forall x :: 0 <= x < |t| ==> m[i + x] == m[i..][x];
  }

  lemma PassText(m: string, i: nat, s: string, rest: string)
    requires i <= |m| && m[i..] == s + rest && '[' !in s
    ensures i + |s| <= |m| && m[i + |s|..] == rest && CodesFrom(m, i) == CodesFrom(m, i + |s|)
  {
    hide CodesFrom;
    Reading(m, i, s, rest);
    assert forall x :: i <= x < i + |s| ==> m[x] == s[x - i];
    SkipText(m, i, i + |s|);
  }

  lemma PassGroup(m: string, i: nat, s: string, rest: string)
    requires i <= |m| && m[i..] == "[" + s + "]" + rest && ']' !in s
    ensures i + |s| + 2 <= |m| && m[i + |s| + 2..] == rest
    ensures CodesFrom(m, i) == Emit(s) + CodesFrom(m, i + |s| + 2)
  {
    hide CodesFrom;
    var j := i + |s| + 1;
    Reading(m, i, "[" + s + "]", rest);
    assert m[i + 0] == '[' && m[i + (|s| + 1)] == ']';
    assert m[i + 1..j] == s by {
      assert forall x :: 0 <= x < |s| ==> m[i + (x + 1)] == s[x];
    }
    assert forall x :: i < x < j ==> m[x] == m[i + 1..j][x - i - 1];
    TakeGroup(m, i, j);
  }

  /** The scan passes over one part of the message. */
  lemma TakePiece(m: string, i: nat, p: Piece, rest: string)
    requires i <= |m| && m[i..] == RenderPiece(p) + rest && Proper(p)
    ensures var j := i + |RenderPiece(p)|;
      j <= |m| && m[j..] == rest && CodesFrom(m, i) == CodesOfPiece(p) + CodesFrom(m, j)
  {
    hide CodesFrom;
    match p {
      case Text(s) =>
        PassText(m, i, s, rest);
        var k := CodesFrom(m, i + |s|);
        assert CodesOfPiece(p) + k == k;
      case Group(s) =>
        PassGroup(m, i, s, rest);
    }
  }

  lemma TailHasNoCodes(m: string, i: nat, tail: string)
    requires i <= |m| && m[i..] == tail && Unclosed(tail)
    ensures CodesFrom(m, i) == []
  {
    assert forall x :: i <= x < |m| ==> m[x] == tail[x - i];
    NoGroupNoCodes(m, i);
  }

  lemma {:induction false} RenderingFrom(m: string, i: nat, ps: seq<Piece>, tail: string)
    requires AllProper(ps) && Unclosed(tail) && i <= |m| && m[i..] == Render(ps) + tail
    ensures CodesFrom(m, i) == CodesOf(ps)
    decreases |ps|
  {
    hide CodesFrom, CodesOfPiece, Unclosed;
    if ps == [] {
      assert Render(ps) + tail == tail;
      TailHasNoCodes(m, i, tail);
    } else {
      RenderFront(ps, tail);
      assert Proper(ps[0]);
      hide Proper;
      TakePiece(m, i, ps[0], Render(ps[1..]) + tail);
      var j := i + |RenderPiece(ps[0])|;
      RenderingFrom(m, j, ps[1..], tail);
      calc {
        CodesFrom(m, i);
        CodesOfPiece(ps[0]) + CodesFrom(m, j);
        CodesOfPiece(ps[0]) + CodesOf(ps[1..]);
        CodesOf(ps);
      }
    }
  }

  lemma RenderFront(ps: seq<Piece>, tail: string)
    requires ps != []
    ensures Render(ps) + tail == RenderPiece(ps[0]) + (Render(ps[1..]) + tail)
  {
  }

  /** Extraction inverts rendering: whatever free text and whatever groups a message is made of,
      the scan returns exactly its code groups, in order. */
  lemma ExtractionInvertsRendering(ps: seq<Piece>, tail: string)
    requires AllProper(ps) && Unclosed(tail)
    ensures Codes(Render(ps) + tail) == CodesOf(ps)
  {
    var m := Render(ps) + tail;
    assert m[0..] == m;
    RenderingFrom(m, 0, ps, tail);
  }

  /** The first part of a nonempty message, and what follows it. */
  lemma FirstPiece(m: string) returns (p: Option<Piece>, rest: string)
    requires m != ""
    ensures p == None ==> Unclosed(m)
    ensures p.Some? ==> Proper(p.value) && m == RenderPiece(p.value) + rest && |rest| < |m|
  {
    p, rest := None, "";
    var j := GroupEnd(m, 0);
    if m[0] != '[' {
      p, rest := Some(Text([m[0]])), m[1..];
    } else if j.Some? {
      p, rest := Some(Group(m[1..j.value])), m[j.value + 1..];
    } else {
      NoEndNoClose(m, |m|);
    }
  }

  lemma {:induction false} NoEndNoClose(m: string, n: nat)
    requires 1 <= n <= |m| && m[0] == '[' && forall k: nat :: !GroupAt(m, 0, k)
    ensures forall x :: 0 <= x < n ==> m[x] != ']'
  {
    if n > 1 {
      NoEndNoClose(m, n - 1);
      assert !GroupAt(m, 0, n - 1);
    }
  }

  /** Every message whatsoever is made of such parts. */
  lemma {:induction false} EveryMessageSplits(m: string) returns (ps: seq<Piece>, tail: string)
    ensures AllProper(ps) && Unclosed(tail) && m == Render(ps) + tail
    decreases |m|
  {
    ps, tail := [], m;
    if m != "" {
      var p, rest := FirstPiece(m);
      if p.Some? {
        ps, tail := EveryMessageSplits(rest);
        ps := Prepend(p.value, ps, tail);
      }
    }
  }

  lemma Prepend(p: Piece, ps: seq<Piece>, tail: string) returns (qs: seq<Piece>)
    requires Proper(p) && AllProper(ps)
    ensures AllProper(qs) && Render(qs) + tail == RenderPiece(p) + (Render(ps) + tail)
  {
    qs := [p] + ps;
    assert qs[1..] == ps;
  }

  // ---- substring tests --------------------------------------------------------------

  predicate OccursAt(m: string, pat: string, i: nat) {
    i + |pat| <= |m| && m[i..i + |pat|] == pat
  }

  predicate Contains(m: string, pat: string) {
    exists i: nat :: i <= |m| && OccursAt(m, pat, i)
  }

  /** `p` can only meet a closing bracket at its very end, and has no opening bracket. */
  predicate Marker(p: string) {
    '[' !in p && forall i :: 0 <= i < |p| - 1 ==> p[i] != ']'
  }

  lemma OccurrenceChars(m: string, pat: string, i: nat)
    requires OccursAt(m, pat, i)
    ensures forall j :: 0 <= j < |pat| ==> m[i + j] == pat[j]
  {
    assert forall j :: 0 <= j < |pat| ==> m[i..i + |pat|][j] == pat[j];
  }

  lemma MatchNeedsChar(m: string, pat: string, j: nat)
    requires j < |pat|
    ensures Contains(m, pat) ==> pat[j] in m
  {
    forall i: nat | OccursAt(m, pat, i)
      ensures pat[j] in m
    {
      OccurrenceChars(m, pat, i);
      assert m[i + j] == pat[j];
    }
  }

  /** If no occurrence crosses the seam, containment distributes over concatenation. */
  lemma ContainsConcat(a: string, b: string, pat: string)
    requires forall i: nat :: OccursAt(a + b, pat, i) ==> i + |pat| <= |a| || i >= |a|
    ensures Contains(a + b, pat) <==> Contains(a, pat) || Contains(b, pat)
  {
    var m := a + b;
    forall i: nat | i <= |a| && OccursAt(a, pat, i)
      ensures OccursAt(m, pat, i)
    {
      assert m[i..i + |pat|] == a[i..i + |pat|];
    }
    forall i: nat | i <= |b| && OccursAt(b, pat, i)
      ensures OccursAt(m, pat, |a| + i)
    {
      assert m[|a| + i..|a| + i + |pat|] == b[i..i + |pat|];
    }
    forall i: nat | OccursAt(m, pat, i)
      ensures Contains(a, pat) || Contains(b, pat)
    {
      if i + |pat| <= |a| {
        assert a[i..i + |pat|] == m[i..i + |pat|];
        assert OccursAt(a, pat, i);
      } else {
        assert b[i - |a|..i - |a| + |pat|] == m[i..i + |pat|];
        assert OccursAt(b, pat, i - |a|);
      }
    }
  }

  lemma TextSeam(s: string, rest: string, p: string)
    requires '[' !in s
    ensures Contains(s + rest, "[" + p) <==> Contains(rest, "[" + p)
  {
    var pat := "[" + p;
    forall i: nat | OccursAt(s + rest, pat, i)
      ensures i >= |s|
    {
      OccurrenceChars(s + rest, pat, i);
      assert pat[0] == '[' && (s + rest)[i + 0] == pat[0];
    }
    ContainsConcat(s, rest, pat);
    MatchNeedsChar(s, pat, 0);
  }

  lemma GroupSeam(s: string, rest: string, p: string)
    requires ']' !in s && Marker(p)
    ensures var g := "[" + s + "]"; Contains(g + rest, "[" + p) <==> Contains(g, "[" + p) || Contains(rest, "[" + p)
  {
    var g, pat := "[" + s + "]", "[" + p;
    forall i: nat | OccursAt(g + rest, pat, i)
      ensures i + |pat| <= |g| || i >= |g|
    {
      OccurrenceChars(g + rest, pat, i);
      var j := |g| - 1 - i;
      assert (g + rest)[|g| - 1] == ']';
      assert 0 <= j < |pat| ==> pat[j] == ']';
      assert forall k :: 0 < k < |pat| - 1 ==> pat[k] == p[k - 1];
    }
    ContainsConcat(g, rest, pat);
  }

  ghost predicate InSomeGroup(ps: seq<Piece>, p: string) {
    exists k :: 0 <= k < |ps| && ps[k].Group? && Contains(RenderPiece(ps[k]), "[" + p)
  }

  lemma EmptyHasNoGroup(p: string)
    ensures !InSomeGroup([], p)
  {
  }

  lemma GroupHereOrLater(ps: seq<Piece>, p: string)
    requires ps != []
    ensures InSomeGroup(ps, p) <==>
            (ps[0].Group? && Contains(RenderPiece(ps[0]), "[" + p)) || InSomeGroup(ps[1..], p)
  {
    hide Contains;
    assert ps == [ps[0]] + ps[1..];
  }

  /** No marker is found across the parts of a message: it is inside one bracketed group, or in
      the unclosed tail. */
  lemma {:induction false} MarkersAreLocal(ps: seq<Piece>, tail: string, p: string)
    requires AllProper(ps) && Marker(p)
    ensures Contains(Render(ps) + tail, "[" + p) <==> InSomeGroup(ps, p) || Contains(tail, "[" + p)
  {
    hide Contains, InSomeGroup;
    if ps == [] {
      EmptyHasNoGroup(p);
      assert Render(ps) + tail == tail;
    } else {
      var rest := Render(ps[1..]) + tail;
      RenderFront(ps, tail);
      MarkersAreLocal(ps[1..], tail, p);
      GroupHereOrLater(ps, p);
      match ps[0] {
        case Text(s) => TextSeam(s, rest, p);
        case Group(s) => GroupSeam(s, rest, p);
      }
    }
  }

  /** Inside a group without inner opening bracket a marker can only stand at the front. */
  lemma MarkerAtFront(s: string, p: string)
    requires '[' !in s
    ensures Contains("[" + s + "]", "[" + p) <==> p <= s + "]"
  {
    var g, pat := "[" + s + "]", "[" + p;
    if p <= s + "]" {
      assert g == "[" + (s + "]");
      assert g[0..|pat|] == pat;
      assert OccursAt(g, pat, 0);
    }
    forall i: nat | i <= |g| && OccursAt(g, pat, i)
      ensures p <= s + "]"
    {
      OccurrenceChars(g, pat, i);
      assert pat[0] == '[' && g[i + 0] == pat[0];
      assert forall k :: 0 < k < |g| - 1 ==> g[k] == s[k - 1];
      assert i == 0;
      assert g[1..] == s + "]";
      assert g[..|pat|][1..] == p;
      assert (s + "]")[..|p|] == g[1..][..|p|] == g[1..|pat|];
    }
  }

  // ---- stacks of codes --------------------------------------------------------------

  /** The stacks the driver renders: codes in brackets, between text without opening bracket. */
  predicate CodeStack(ps: seq<Piece>) {
    forall i :: 0 <= i < |ps| ==> if ps[i].Group? then IsCode(ps[i].s) else '[' !in ps[i].s
  }

  /** A stack written out: texts, with a code in brackets between each two of them. */
  function Stacked(codes: seq<string>, texts: seq<string>): string
    requires |texts| == |codes| + 1
  {
    if codes == [] then texts[0] else texts[0] + ("[" + codes[0] + "]" + Stacked(codes[1..], texts[1..]))
  }

  function PiecesOf(codes: seq<string>, texts: seq<string>): seq<Piece>
    requires |texts| == |codes| + 1
  {
    if codes == [] then [Text(texts[0])]
    else [Text(texts[0]), Group(codes[0])] + PiecesOf(codes[1..], texts[1..])
  }

  lemma TwoPieces(p: Piece, q: Piece, rest: seq<Piece>)
    ensures Render([p, q] + rest) == RenderPiece(p) + (RenderPiece(q) + Render(rest))
    ensures CodesOf([p, q] + rest) == CodesOfPiece(p) + (CodesOfPiece(q) + CodesOf(rest))
  {
    hide RenderPiece, CodesOfPiece;
    assert ([p, q] + rest)[1..] == [q] + rest;
    assert ([q] + rest)[1..] == rest;
  }

  lemma {:induction false} PiecesOfStack(codes: seq<string>, texts: seq<string>)
    requires |texts| == |codes| + 1 && (forall c :: c in codes ==> IsCode(c)) && forall t :: t in texts ==> '[' !in t
    ensures var ps := PiecesOf(codes, texts);
      AllProper(ps) && Render(ps) == Stacked(codes, texts) && CodesOf(ps) == codes
  {
    if codes == [] {
      assert Render([Text(texts[0])]) == texts[0] + "";
    } else {
      PiecesOfStack(codes[1..], texts[1..]);
      CodesHaveNoBrackets(codes[0]);
      TwoPieces(Text(texts[0]), Group(codes[0]), PiecesOf(codes[1..], texts[1..]));
      hide PiecesOf, IsCode;
      assert [] + ([codes[0]] + codes[1..]) == codes;
    }
  }

  predicate Spelled(c: string) {
    c != "" && forall x :: x in c ==> 'A' <= x <= 'Z' || '0' <= x <= '9'
  }

  lemma CodesAreSpelled(c: string)
    ensures IsCode(c) <==> Spelled(c)
  {
    assert forall i :: 0 <= i < |c| ==> c[i] in c;
  }

  /** From such a stack the scan reads back exactly the codes, each as often as it was written and in order. */
  lemma StackReadsBack(codes: seq<string>, texts: seq<string>)
    requires |texts| == |codes| + 1 && forall t :: t in texts ==> '[' !in t
    requires forall c :: c in codes ==> Spelled(c)
    ensures Codes(Stacked(codes, texts)) == codes
  {
    forall c | c in codes
      ensures IsCode(c)
    {
      CodesAreSpelled(c);
    }
    hide IsCode, Spelled;
    PiecesOfStack(codes, texts);
    var ps := PiecesOf(codes, texts);
    ExtractionInvertsRendering(ps, "");
    assert Render(ps) + "" == Render(ps);
  }

  /** And from no message does it read anything but nonempty strings of capitals and digits. */
  lemma {:induction false} OnlyCodesFrom(m: string, i: nat, c: string)
    requires i <= |m| && c in CodesFrom(m, i)
    ensures Spelled(c)
    decreases |m| - i
  {
    CodesAreSpelled(c);
    hide IsCode, Spelled;
    match GroupEnd(m, i)
    case None => OnlyCodesFrom(m, i + 1, c);
    case Some(j) =>
      if c !in Emit(m[i + 1..j]) {
        OnlyCodesFrom(m, j + 1, c);
      }
  }

  lemma CodesHaveNoBrackets(c: string)
    requires IsCode(c)
    ensures '[' !in c && ']' !in c
  {
  }

  lemma {:induction false} CodesOfStack(ps: seq<Piece>, c: string)
    requires CodeStack(ps)
    ensures c in CodesOf(ps) <==> exists k :: 0 <= k < |ps| && ps[k] == Group(c)
  {
    if ps != [] {
      CodesOfStack(ps[1..], c);
      assert ps == [ps[0]] + ps[1..];
    }
  }

  lemma StackMarkers(ps: seq<Piece>, p: string)
    requires CodeStack(ps) && Marker(p)
    ensures AllProper(ps)
    ensures Contains(Render(ps), "[" + p) <==> exists k :: 0 <= k < |ps| && ps[k].Group? && p <= ps[k].s + "]"
  {
    forall k | 0 <= k < |ps| && ps[k].Group?
      ensures Proper(ps[k]) && (Contains(RenderPiece(ps[k]), "[" + p) <==> p <= ps[k].s + "]")
    {
      CodesHaveNoBrackets(ps[k].s);
      MarkerAtFront(ps[k].s, p);
    }
    MarkersAreLocal(ps, "", p);
    assert Render(ps) + "" == Render(ps);
  }

  /** On a stack the test for a whole code is membership in the extracted list. */
  lemma MarkerIsMembership(ps: seq<Piece>, c: string)
    requires CodeStack(ps) && IsCode(c)
    ensures Contains(Render(ps), "[" + c + "]") <==> c in CodesOf(ps)
  {
    CodesHaveNoBrackets(c);
    assert "[" + c + "]" == "[" + (c + "]");
    StackMarkers(ps, c + "]");
    CodesOfStack(ps, c);
    forall k | 0 <= k < |ps| && ps[k].Group?
      ensures c + "]" <= ps[k].s + "]" <==> ps[k].s == c
    {
      CodesHaveNoBrackets(ps[k].s);
      if c + "]" <= ps[k].s + "]" {
        assert (c + "]")[|c|] == (ps[k].s + "]")[|c|];
        assert c == (c + "]")[..|c|] == (ps[k].s + "]")[..|c|];
      }
    }
  }

  lemma PrefixOfCode(f: string, s: string)
    requires ']' !in f
    ensures f <= s + "]" <==> f <= s
  {
    assert (s + "]")[|s|] == ']';
    assert forall i :: 0 <= i < |s| ==> (s + "]")[i] == s[i];
    assert f <= s + "]" <==> |f| <= |s| + 1 && forall i :: 0 <= i < |f| ==> f[i] == (s + "]")[i];
    assert f <= s <==> |f| <= |s| && forall i :: 0 <= i < |f| ==> f[i] == s[i];
  }

  /** On a stack the test for a family is a prefix test on the extracted list. */
  lemma FamilyIsPrefix(ps: seq<Piece>, f: string)
    requires CodeStack(ps) && IsCode(f)
    ensures Contains(Render(ps), "[" + f) <==> exists c :: c in CodesOf(ps) && f <= c
  {
    CodesHaveNoBrackets(f);
    StackMarkers(ps, f);
    if Contains(Render(ps), "[" + f) {
      var k :| 0 <= k < |ps| && ps[k].Group? && f <= ps[k].s + "]";
      CodesOfStack(ps, ps[k].s);
      PrefixOfCode(f, ps[k].s);
    }
    forall c | c in CodesOf(ps) && f <= c
      ensures exists k :: 0 <= k < |ps| && ps[k].Group? && f <= ps[k].s + "]"
    {
      CodesOfStack(ps, c);
      PrefixOfCode(f, c);
    }
  }

  // ---- arbitrary messages: when the two readings differ ------------------------------

  predicate EndsWith(s: string, t: string) {
    |t| <= |s| && s[|s| - |t|..] == t
  }

  lemma SwallowedIsFound(s: string, c: string)
    requires EndsWith(s, "[" + c)
    ensures Contains("[" + s + "]", "[" + c + "]")
  {
    var g, pat := "[" + s + "]", "[" + c + "]";
    var i := |s| - |c|;
    var t := s[..i - 1];
    assert s == t + ("[" + c);
    assert g == ("[" + t) + pat;
    assert g[i..i + |pat|] == pat;
    assert OccursAt(g, pat, i);
  }

  lemma MatchReachesClose(s: string, c: string, i: nat)
    requires ']' !in s && OccursAt("[" + s + "]", "[" + c + "]", i)
    ensures i + |c| == |s|
  {
    var g, pat := "[" + s + "]", "[" + c + "]";
    OccurrenceChars(g, pat, i);
    assert pat[|c| + 1] == ']';
    assert g[i + (|c| + 1)] == ']';
    assert forall k :: 0 < k < |g| - 1 ==> g[k] == s[k - 1];
  }

  lemma FoundAtEnd(s: string, c: string, i: nat)
    requires ']' !in s && OccursAt("[" + s + "]", "[" + c + "]", i)
    ensures s == c || EndsWith(s, "[" + c)
  {
    var g, pat := "[" + s + "]", "[" + c + "]";
    MatchReachesClose(s, c, i);
    assert g[i..] == pat;
    if i == 0 {
      assert s == g[1..|g| - 1] == pat[1..|pat| - 1] == c;
    } else {
      assert s[i - 1..] == g[i..][..|c| + 1];
    }
  }

  /** In an arbitrary group, a whole-code test finds the group itself, or a code after an inner
      opening bracket that the group swallowed. */
  lemma MarkerInGroup(s: string, c: string)
    requires ']' !in s && IsCode(c)
    ensures Contains("[" + s + "]", "[" + c + "]") <==> s == c || EndsWith(s, "[" + c)
  {
    var g, pat := "[" + s + "]", "[" + c + "]";
    if s == c {
      assert g[0..|pat|] == pat;
      assert OccursAt(g, pat, 0);
    }
    if EndsWith(s, "[" + c) {
      SwallowedIsFound(s, c);
    }
    forall i: nat | i <= |g| && OccursAt(g, pat, i)
      ensures s == c || EndsWith(s, "[" + c)
    {
      FoundAtEnd(s, c, i);
    }
  }

  ghost predicate Swallowed(ps: seq<Piece>, c: string) {
    exists k :: 0 <= k < |ps| && ps[k].Group? && EndsWith(ps[k].s, "[" + c)
  }

  lemma {:induction false} CodesOfProper(ps: seq<Piece>, c: string)
    requires IsCode(c)
    ensures c in CodesOf(ps) <==> Group(c) in ps
  {
    if ps != [] {
      CodesOfProper(ps[1..], c);
      assert ps == [ps[0]] + ps[1..];
    }
  }

  /** In any message, the test for a whole code finds a group that is the code, or one that has
      swallowed it. */
  lemma MarkerInMessage(ps: seq<Piece>, tail: string, c: string)
    requires AllProper(ps) && Unclosed(tail) && IsCode(c)
    ensures Contains(Render(ps) + tail, "[" + c + "]") <==> Group(c) in ps || Swallowed(ps, c)
  {
    CodesHaveNoBrackets(c);
    var pat := "[" + c + "]";
    assert pat == "[" + (c + "]");
    MarkersAreLocal(ps, tail, c + "]");
    forall k | 0 <= k < |ps| && ps[k].Group?
      ensures Contains(RenderPiece(ps[k]), pat) <==> ps[k].s == c || EndsWith(ps[k].s, "[" + c)
    {
      assert Proper(ps[k]);
      MarkerInGroup(ps[k].s, c);
    }
    MatchNeedsChar(tail, pat, |c| + 1);
  }

  /** For every message and every code: the substring test and the extracted list agree exactly
      when the code is a group of its own as well, or no group has swallowed it after an inner bracket. */
  lemma ReadingsAgreeIff(m: string, ps: seq<Piece>, tail: string, c: string)
    requires AllProper(ps) && Unclosed(tail) && m == Render(ps) + tail && IsCode(c)
    ensures (Contains(m, "[" + c + "]") <==> c in Codes(m)) <==> (Group(c) in ps || !Swallowed(ps, c))
  {
    ExtractionInvertsRendering(ps, tail);
    CodesOfProper(ps, c);
    MarkerInMessage(ps, tail, c);
  }

  /** The readings do differ: here the classifier sees a write-pipeline failure, and no code is
      reported. */
  lemma ReadingsCanDiffer()
    ensures Contains("[x [WEX1]", "[WEX1]") && Codes("[x [WEX1]") == []
  {
    var m := "[x [WEX1]";
    assert m[3..9] == "[WEX1]";
    assert OccursAt(m, "[WEX1]", 3);
    assert m[1..8][0] == 'x';
    TakeGroup(m, 0, 8);
    assert CodesFrom(m, 9) == [];
  }
}
