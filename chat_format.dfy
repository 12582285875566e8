/**
 * How a chat message is laid out: the content is cut into lines, and each
 * line becomes a line break, a heading, a check-marked item, a bullet item or
 * a paragraph, with `**…**` runs inside items and paragraphs shown in bold.
 * Colours and spacing, which depend only on who wrote the message, are not
 * part of the layout modelled here.
 */
module ChatFormat {
  import opened JsText
  import opened FleetTypes
  import ArrayOps

  /** A piece of an item or paragraph. */
  datatype Segment = Strong(text: string) | Plain(text: string)

  /** What one line of a message becomes. */
  datatype Block =
    | LineBreak
    | Heading(text: string)
    | CheckItem(parts: seq<Segment>)
    | BulletItem(parts: seq<Segment>)
    | Paragraph(parts: seq<Segment>)

  const CheckMark: char := '\U{2713}'
  const Bullet: char := '\U{2022}'

  /** The characters of `s` other than `*`, in order. */
  function NonStars(s: string): string
  {
    if s == [] then [] else (if s[0] == '*' then [] else [s[0]]) + NonStars(s[1..])
  }

  // `.replace(/\*\*/g, '')`: every `**`, scanning from the left, removed.
  function StripStars(s: string): (r: string)
    ensures |r| <= |s|
    ensures |s| > 0 && s[0] != '*' ==> |r| > 0 && r[0] == s[0]
    ensures forall i :: 0 <= i < |r| - 1 ==> !(r[i] == '*' && r[i + 1] == '*')
    decreases |s|
  {
    if |s| == 0 then ""
    else if |s| >= 2 && s[0] == '*' && s[1] == '*' then StripStars(s[2..])
    else
      var rest := StripStars(s[1..]);
      assert s[0] == '*' && |s| >= 2 ==> s[1] != '*' && rest[0] == s[1];
      [s[0]] + rest
  }

  /**
   * Removing the `**` pairs takes only stars, an even number of them: every
   * other character stays, in its order, and a text without stars is
   * unchanged.
   */
  lemma {:induction false} StripStarsRemovesPairs(s: string)
    ensures (|s| - |StripStars(s)|) % 2 == 0
    ensures NonStars(StripStars(s)) == NonStars(s)
    ensures '*' !in s ==> StripStars(s) == s
    decreases |s|
  {
    if |s| >= 2 && s[0] == '*' && s[1] == '*' {
      StripStarsRemovesPairs(s[2..]);
      assert StripStars(s) == StripStars(s[2..]);
      assert s[1..][1..] == s[2..];
      assert NonStars(s) == NonStars(s[1..]) == NonStars(s[2..]);
      assert s[0] in s;
    } else if |s| > 0 {
      StripStarsRemovesPairs(s[1..]);
      var rest := StripStars(s[1..]);
      assert StripStars(s) == [s[0]] + rest;
      assert ([s[0]] + rest)[1..] == rest;
      assert '*' !in s ==> '*' !in s[1..] && [s[0]] + s[1..] == s;
    }
  }

  /** `k` stars in a row. */
  function Stars(k: nat): (r: string)
    ensures |r| == k && NonStars(r) == ""
  {
    if k == 0 then "" else
      var r := "*" + Stars(k - 1);
      assert r[1..] == Stars(k - 1);
      r
  }

  /** A character other than `*` survives in place: the text on each side is stripped on its own. */
  lemma {:induction false} StripStarsAround(a: string, c: char, b: string)
    requires c != '*'
    ensures StripStars(a + [c] + b) == StripStars(a) + [c] + StripStars(b)
    decreases |a|
  {
    var t := a + [c] + b;
    if a == [] {
      assert t == [c] + b && t[1..] == b;
    } else if |a| >= 2 && a[0] == '*' && a[1] == '*' {
      assert t[2..] == a[2..] + [c] + b;
      StripStarsAround(a[2..], c, b);
    } else {
      assert t[0] == a[0] && t[1..] == a[1..] + [c] + b;
      assert |a| == 1 ==> t[1] == c;
      StripStarsAround(a[1..], c, b);
    }
  }

  /** A leading `**` is removed. */
  lemma StripStarsPair(u: string)
    ensures StripStars("**" + u) == StripStars(u)
  {
    assert ("**" + u)[2..] == u;
  }

  /** A lone leading `*` stays. */
  lemma StripStarsSingle(b: string)
    requires b == [] || b[0] != '*'
    ensures StripStars("*" + b) == "*" + StripStars(b)
  {
    assert ("*" + b)[1..] == b;
  }

  /** A whole run of `k` stars keeps `k % 2` of them: the pairs go from the left and an odd star stays. */
  lemma {:induction false} StripStarsRun(k: nat, b: string)
    requires b == [] || b[0] != '*'
    ensures StripStars(Stars(k) + b) == (if k % 2 == 0 then "" else "*") + StripStars(b)
    decreases k
  {
    if k >= 2 {
      var rest := Stars(k - 2);
      assert Stars(k) == "*" + ("*" + rest);
      assert Stars(k) + b == "**" + (rest + b);
      assert (k - 2) % 2 == k % 2;
      StripStarsPair(rest + b);
      StripStarsRun(k - 2, b);
    } else if k == 1 {
      assert Stars(k) + b == "*" + b;
      StripStarsSingle(b);
    } else {
      assert Stars(k) + b == b;
    }
  }

  /** The characters `.` does not match in a JavaScript regular expression. */
  predicate IsLineTerminator(c: char)
  {
    c == '\n' || c == '\r' || c == '\U{2028}' || c == '\U{2029}'
  }

  /** A `**` starts at `j`. */
  predicate StarsAt(s: string, j: nat)
  {
    j + 2 <= |s| && s[j] == '*' && s[j + 1] == '*'
  }

  /** Seen from `k`, a `**` starts at `j` with no line terminator between. */
  predicate ClosesAt(s: string, k: nat, j: nat)
  {
    k <= j && StarsAt(s, j) && forall i :: k <= i < j ==> !IsLineTerminator(s[i])
  }

  /** Some `**` is reachable from `k`. */
  predicate CloseReachable(s: string, k: nat)
  {
    exists j :: k <= j <= |s| && ClosesAt(s, k, j)
  }

  /**
   * The lazy `.*?\*\*` after an opening `**`: the end of the first `**` at or
   * after `k` that is reached without crossing a line terminator.
   */
  function BoldCloseFrom(s: string, k: nat): (e: Option<nat>)
    requires k <= |s|
    ensures e.Some? ==> k + 2 <= e.value <= |s| && s[e.value - 2] == '*' && s[e.value - 1] == '*'
    ensures e.Some? ==> forall i :: k <= i < e.value - 2 ==> !IsLineTerminator(s[i])
    decreases |s| - k
  {
    if StarsAt(s, k) then Some(k + 2)
    else if k < |s| && !IsLineTerminator(s[k]) then BoldCloseFrom(s, k + 1)
    else None
  }

  /**
   * The close found is the first `**` after `k`, and there is none exactly
   * when no `**` is reachable from `k`.
   */
  lemma {:induction false} BoldCloseFirst(s: string, k: nat)
    requires k <= |s|
    ensures BoldCloseFrom(s, k).Some? ==>
      ClosesAt(s, k, BoldCloseFrom(s, k).value - 2)
      && forall j :: k <= j < BoldCloseFrom(s, k).value - 2 ==> !StarsAt(s, j)
    ensures BoldCloseFrom(s, k).None? <==> forall j: nat :: !ClosesAt(s, k, j)
    decreases |s| - k
  {
    if StarsAt(s, k) {
      assert ClosesAt(s, k, k);
    } else if k < |s| && !IsLineTerminator(s[k]) {
      BoldCloseFirst(s, k + 1);
      forall j: nat | ClosesAt(s, k, j) ensures ClosesAt(s, k + 1, j) {
      }
      if BoldCloseFrom(s, k + 1).Some? {
        assert ClosesAt(s, k + 1, BoldCloseFrom(s, k + 1).value - 2);
      }
    } else {
      forall j: nat ensures !ClosesAt(s, k, j) {
        if k < j && j + 2 <= |s| {
          assert IsLineTerminator(s[k]);
        }
      }
    }
  }

  // The pattern `/\*\*.*?\*\*/` tried at position `q`: where the match ends, if it matches there.
  function BoldAt(s: string, q: nat): (e: Option<nat>)
    requires q <= |s|
    ensures e.Some? ==> q + 4 <= e.value <= |s| && s[q..q + 2] == "**" && s[e.value - 2..e.value] == "**"
  {
    if StarsAt(s, q) then BoldCloseFrom(s, q + 2) else None
  }

  /**
   * The pattern matches at `q` exactly when `**` opens there and another is
   * reachable after it, and the match then ends after the first reachable one.
   */
  lemma BoldAtFirst(s: string, q: nat)
    requires q <= |s|
    ensures BoldAt(s, q).Some? <==> StarsAt(s, q) && CloseReachable(s, q + 2)
    ensures BoldAt(s, q).Some? ==>
      ClosesAt(s, q + 2, BoldAt(s, q).value - 2)
      && forall j :: q + 2 <= j < BoldAt(s, q).value - 2 ==> !StarsAt(s, j)
  {
    if StarsAt(s, q) {
      BoldCloseFirst(s, q + 2);
    }
  }

  // `split(/(\*\*.*?\*\*)/g)` from position `q`, the current piece starting at
  // `p`: every match is cut out and kept (it is captured) between the text
  // before and after it. Pieces alternate text, match, text, …: there is an
  // odd number of them, and every second one is a bold run.
  function BoldSplitFrom(s: string, p: nat, q: nat): (parts: seq<string>)
    requires p <= q <= |s|
    ensures |parts| % 2 == 1
    ensures forall i :: 0 <= i < |parts| && i % 2 == 1 ==>
      |parts[i]| >= 4 && StartsWith(parts[i], "**") && EndsWith(parts[i], "**")
    decreases |s| - q
  {
    if q == |s| then [s[p..]]
    else
      match BoldAt(s, q)
      case Some(e) =>
        var rest := BoldSplitFrom(s, e, e);
        var pieces := [s[p..q], s[q..e]] + rest;
        assert forall i :: 2 <= i < |pieces| ==> pieces[i] == rest[i - 2];
        pieces
      case None => BoldSplitFrom(s, p, q + 1)
  }

  function Concat(parts: seq<string>): string
  {
    if parts == [] then "" else parts[0] + Concat(parts[1..])
  }

  /** Gluing the pieces of the split back together gives the text back. */
  lemma {:induction false} BoldSplitConcat(s: string, p: nat, q: nat)
    requires p <= q <= |s|
    ensures Concat(BoldSplitFrom(s, p, q)) == s[p..]
    decreases |s| - q
  {
    if q == |s| {
      assert Concat([s[p..]]) == s[p..] + Concat([]);
    } else {
      match BoldAt(s, q)
      case Some(e) =>
        BoldSplitConcat(s, e, e);
        var rest := BoldSplitFrom(s, e, e);
        assert BoldSplitFrom(s, p, q) == [s[p..q], s[q..e]] + rest;
        ConcatPair(s[p..q], s[q..e], rest);
        assert s[p..] == s[p..q] + (s[q..e] + s[e..]);
      case None =>
        assert BoldSplitFrom(s, p, q) == BoldSplitFrom(s, p, q + 1);
        BoldSplitConcat(s, p, q + 1);
    }
  }

  /** No `**…**` run matches anywhere in `t`. */
  predicate NoBold(t: string)
  {
    forall j :: 0 <= j <= |t| ==> BoldAt(t, j).None?
  }

  /** A `**` inside a slice of `s` is a `**` of `s`. */
  lemma StarsSlice(s: string, a: nat, b: nat, j: nat)
    requires a <= b <= |s| && StarsAt(s[a..b], j)
    ensures StarsAt(s, a + j)
  {
    assert s[a..b][j] == s[a + j] && s[a..b][j + 1] == s[a + j + 1];
  }

  /** A `**` reachable inside a slice of `s` is reachable in `s` from the same place. */
  lemma ClosesAtSlice(s: string, a: nat, b: nat, k: nat, m: nat)
    requires a <= b <= |s| && ClosesAt(s[a..b], k, m)
    ensures ClosesAt(s, a + k, a + m)
  {
    var t := s[a..b];
    StarsSlice(s, a, b, m);
    forall i | a + k <= i < a + m ensures !IsLineTerminator(s[i]) {
      assert s[i] == t[i - a];
    }
  }

  /** A run that matches inside a slice of `s` matches in `s` at the same place. */
  lemma BoldAtSlice(s: string, a: nat, b: nat, j: nat)
    requires a <= b <= |s| && j <= b - a
    requires BoldAt(s[a..b], j).Some?
    ensures BoldAt(s, a + j).Some?
  {
    var t := s[a..b];
    BoldAtFirst(t, j);
    assert CloseReachable(t, j + 2);
    var m :| j + 2 <= m <= |t| && ClosesAt(t, j + 2, m);
    StarsSlice(s, a, b, j);
    var k := a + j + 2;
    ClosesAtSlice(s, a, b, j + 2, m);
    assert ClosesAt(s, k, a + m);
    BoldCloseFirst(s, k);
    assert BoldCloseFrom(s, k).Some?;
    assert StarsAt(s, a + j);
    assert BoldAt(s, a + j) == BoldCloseFrom(s, k);
  }

  /** A slice of `s` in which no run of `s` begins holds no run of its own. */
  lemma SliceNoBold(s: string, a: nat, b: nat)
    requires a <= b <= |s|
    requires forall j :: a <= j < b ==> BoldAt(s, j).None?
    ensures NoBold(s[a..b])
  {
    forall j | 0 <= j <= b - a ensures BoldAt(s[a..b], j).None? {
      if BoldAt(s[a..b], j).Some? {
        BoldAtSlice(s, a, b, j);
      }
    }
  }

  /** A property of every text piece stays so when a text piece that has it and a run are put in front. */
  lemma EvenCons(a: string, b: string, rest: seq<string>, ok: string -> bool)
    requires ok(a)
    requires forall i :: 0 <= i < |rest| && i % 2 == 0 ==> ok(rest[i])
    ensures forall i :: 0 <= i < |[a, b] + rest| && i % 2 == 0 ==> ok(([a, b] + rest)[i])
  {
    forall i | 0 <= i < |[a, b] + rest| && i % 2 == 0 ensures ok(([a, b] + rest)[i]) {
      if i >= 2 {
        assert ([a, b] + rest)[i] == rest[i - 2];
      }
    }
  }

  /**
   * The text pieces of the split, from a piece starting at `p` where no run
   * matches before `q`, each hold no run of their own.
   */
  lemma {:induction false} BoldSplitTextPieces(s: string, p: nat, q: nat)
    requires p <= q <= |s|
    requires forall j :: p <= j < q ==> BoldAt(s, j).None?
    ensures forall i :: 0 <= i < |BoldSplitFrom(s, p, q)| && i % 2 == 0 ==> NoBold(BoldSplitFrom(s, p, q)[i])
    decreases |s| - q
  {
    if q == |s| {
      SliceNoBold(s, p, |s|);
      assert s[p..] == s[p..|s|];
      assert BoldSplitFrom(s, p, q) == [s[p..]];
    } else {
      match BoldAt(s, q)
      case Some(e) =>
        BoldSplitTextPieces(s, e, e);
        SliceNoBold(s, p, q);
        assert BoldSplitFrom(s, p, q) == [s[p..q], s[q..e]] + BoldSplitFrom(s, e, e);
        EvenCons(s[p..q], s[q..e], BoldSplitFrom(s, e, e), NoBold);
      case None =>
        assert BoldSplitFrom(s, p, q) == BoldSplitFrom(s, p, q + 1);
        BoldSplitTextPieces(s, p, q + 1);
    }
  }

  /** Where piece `i` of a split whose first piece starts at `p` begins in the text. */
  function PieceStart(parts: seq<string>, p: nat, i: nat): nat
    requires i <= |parts|
  {
    p + |Concat(parts[..i])|
  }

  /** Piece `i` is exactly the run the pattern matches where the piece begins. */
  predicate MatchedAt(s: string, parts: seq<string>, p: nat, i: nat)
    requires i < |parts|
  {
    var o := PieceStart(parts, p, i);
    o <= |s| && BoldAt(s, o) == Some(o + |parts[i]|)
  }

  /** The pattern matches the text at no position of piece `i` from `q` on. */
  predicate UnmatchedFrom(s: string, parts: seq<string>, p: nat, q: nat, i: nat)
    requires i < |parts|
  {
    var o := PieceStart(parts, p, i);
    forall j :: q <= j <= |s| && o <= j < o + |parts[i]| ==> BoldAt(s, j).None?
  }

  lemma ConcatPair(a: string, b: string, y: seq<string>)
    ensures Concat([a, b] + y) == a + (b + Concat(y))
  {
    assert ([a, b] + y)[1..] == [b] + y;
    assert ([b] + y)[1..] == y;
  }

  /** A match cut out at `q`, with the text before it, extends a leftmost split of what follows. */
  lemma LeftmostCons(s: string, p: nat, q: nat, e: nat, rest: seq<string>)
    requires p <= q <= e <= |s| && BoldAt(s, q) == Some(e)
    requires forall i :: 0 <= i < |rest| && i % 2 == 1 ==> MatchedAt(s, rest, e, i)
    requires forall i :: 0 <= i < |rest| && i % 2 == 0 ==> UnmatchedFrom(s, rest, e, e, i)
    ensures forall i :: 0 <= i < |[s[p..q], s[q..e]] + rest| && i % 2 == 1 ==>
      MatchedAt(s, [s[p..q], s[q..e]] + rest, p, i)
    ensures forall i :: 0 <= i < |[s[p..q], s[q..e]] + rest| && i % 2 == 0 ==>
      UnmatchedFrom(s, [s[p..q], s[q..e]] + rest, p, q, i)
  {
    var a, b := s[p..q], s[q..e];
    var parts := [a, b] + rest;
    assert parts[..0] == [];
    assert parts[..1] == [a] && Concat([a]) == a + Concat([]);
    assert PieceStart(parts, p, 1) == q;
    forall i | 2 <= i < |parts|
      ensures parts[i] == rest[i - 2] && PieceStart(parts, p, i) == PieceStart(rest, e, i - 2)
    {
      assert parts[..i] == [a, b] + rest[..i - 2];
      ConcatPair(a, b, rest[..i - 2]);
    }
    forall i | 0 <= i < |parts| && i % 2 == 1 ensures MatchedAt(s, parts, p, i) {
      if i >= 2 {
        assert MatchedAt(s, rest, e, i - 2);
      }
    }
    forall i | 0 <= i < |parts| && i % 2 == 0 ensures UnmatchedFrom(s, parts, p, q, i) {
      if i >= 2 {
        assert UnmatchedFrom(s, rest, e, e, i - 2);
      }
    }
  }

  /** Moving the scan back over a position where nothing matches keeps text pieces free of matches. */
  lemma UnmatchedBack(s: string, parts: seq<string>, p: nat, q: nat)
    requires q < |s| && BoldAt(s, q).None?
    requires forall i :: 0 <= i < |parts| && i % 2 == 0 ==> UnmatchedFrom(s, parts, p, q + 1, i)
    ensures forall i :: 0 <= i < |parts| && i % 2 == 0 ==> UnmatchedFrom(s, parts, p, q, i)
  {
    forall i | 0 <= i < |parts| && i % 2 == 0 ensures UnmatchedFrom(s, parts, p, q, i) {
      assert UnmatchedFrom(s, parts, p, q + 1, i);
    }
  }

  /**
   * The split takes the leftmost match each time: every captured run is the
   * match of the text where it begins, and no match begins inside a text
   * piece (from `q` on), so no run of the text is left uncaptured.
   */
  lemma {:induction false} BoldSplitLeftmost(s: string, p: nat, q: nat)
    requires p <= q <= |s|
    ensures forall i :: 0 <= i < |BoldSplitFrom(s, p, q)| && i % 2 == 1 ==> MatchedAt(s, BoldSplitFrom(s, p, q), p, i)
    ensures forall i :: 0 <= i < |BoldSplitFrom(s, p, q)| && i % 2 == 0 ==>
      UnmatchedFrom(s, BoldSplitFrom(s, p, q), p, q, i)
    decreases |s| - q
  {
    if q == |s| {
      var parts := BoldSplitFrom(s, p, q);
      assert parts == [s[p..]];
      assert parts[..0] == [];
    } else {
      match BoldAt(s, q)
      case Some(e) =>
        BoldSplitLeftmost(s, e, e);
        assert BoldSplitFrom(s, p, q) == [s[p..q], s[q..e]] + BoldSplitFrom(s, e, e);
        LeftmostCons(s, p, q, e, BoldSplitFrom(s, e, e));
      case None =>
        assert BoldSplitFrom(s, p, q) == BoldSplitFrom(s, p, q + 1);
        BoldSplitLeftmost(s, p, q + 1);
        UnmatchedBack(s, BoldSplitFrom(s, p, q + 1), p, q);
    }
  }

  /**
   * `split(/(\*\*.*?\*\*)/g)`: the pieces glue back to the text, every
   * second piece is a captured run, the leftmost match where it begins, and no
   * match begins inside a text piece.
   */
  function BoldSplit(s: string): (parts: seq<string>)
    ensures Concat(parts) == s
    ensures |parts| % 2 == 1
    ensures forall i :: 0 <= i < |parts| && i % 2 == 1 ==>
      |parts[i]| >= 4 && StartsWith(parts[i], "**") && EndsWith(parts[i], "**")
    ensures forall i :: 0 <= i < |parts| && i % 2 == 0 ==> NoBold(parts[i])
    ensures forall i :: 0 <= i < |parts| && i % 2 == 1 ==> MatchedAt(s, parts, 0, i)
    ensures forall i :: 0 <= i < |parts| && i % 2 == 0 ==> UnmatchedFrom(s, parts, 0, 0, i)
  {
    BoldSplitConcat(s, 0, 0);
    BoldSplitTextPieces(s, 0, 0);
    BoldSplitLeftmost(s, 0, 0);
    BoldSplitFrom(s, 0, 0)
  }

  /** A piece that starts and ends with `**` is bold, without its stars; any other is plain. */
  function SegmentOf(part: string): (g: Segment)
    ensures g.Strong? <==> StartsWith(part, "**") && EndsWith(part, "**")
    ensures g.Plain? ==> g.text == part
    ensures g.Strong? ==> g.text == StripStars(part)
  {
    if StartsWith(part, "**") && EndsWith(part, "**") then Strong(StripStars(part)) else Plain(part)
  }

  /**
   * The pieces of a text: one per piece of the split, and every captured
   * `**…**` run is bold; no bold text shows `**`.
   */
  function Segments(text: string): (gs: seq<Segment>)
    ensures |gs| == |BoldSplit(text)|
    ensures forall i :: 0 <= i < |gs| ==> gs[i] == SegmentOf(BoldSplit(text)[i])
    ensures forall i :: 0 <= i < |gs| && i % 2 == 1 ==> gs[i] == Strong(StripStars(BoldSplit(text)[i]))
    ensures forall i :: 0 <= i < |gs| && gs[i].Plain? ==> gs[i].text == BoldSplit(text)[i] && NoBold(gs[i].text)
    ensures forall i :: 0 <= i < |gs| && gs[i].Strong? ==>
      forall k :: 0 <= k < |gs[i].text| - 1 ==> !(gs[i].text[k] == '*' && gs[i].text[k + 1] == '*')
  {
    var parts := BoldSplit(text);
    seq(|parts|, i requires 0 <= i < |parts| => SegmentOf(parts[i]))
  }

  /** `.replace(c, '')` with a one-character string: the first occurrence of `c` removed. */
  function RemoveFirst(s: string, c: char): (r: string)
    ensures c !in s ==> r == s
    ensures c in s ==> |r| == |s| - 1 && multiset(r) + multiset{c} == multiset(s)
  {
    var k := ArrayOps.FirstIndex(s, x => x == c);
    if k < 0 then s
    else
      assert s == s[..k] + [s[k]] + s[k + 1..];
      s[..k] + s[k + 1..]
  }

  /** The occurrence removed is the first one. */
  lemma RemoveFirstIsFirst(s: string, c: char, k: nat)
    requires k < |s| && s[k] == c && forall j :: 0 <= j < k ==> s[j] != c
    ensures RemoveFirst(s, c) == s[..k] + s[k + 1..]
  {
    var f := ArrayOps.FirstIndex(s, x => x == c);
    assert (x => x == c)(s[k]);
    assert f == k;
  }

  /**
   * One line: blank lines break; a line wrapped in `**` is a heading without
   * its stars; a line whose text starts with ✓ or • is an item with that mark
   * removed; anything else is a paragraph.
   */
  function ClassifyLine(line: string): (b: Block)
    ensures b.LineBreak? <==> forall i :: 0 <= i < |line| ==> IsSpace(line[i])
    ensures b.Heading? <==> Trim(line) != "" && StartsWith(line, "**") && EndsWith(line, "**")
    ensures b.Heading? ==> b.text == StripStars(line)
    ensures b.CheckItem? ==> StartsWith(Trim(line), [CheckMark]) && b.parts == Segments(Trim(RemoveFirst(line, CheckMark)))
    ensures b.BulletItem? ==> StartsWith(Trim(line), [Bullet]) && b.parts == Segments(Trim(RemoveFirst(line, Bullet)))
    ensures b.Paragraph? ==>
      (b.parts == Segments(line) && !StartsWith(Trim(line), [CheckMark]) && !StartsWith(Trim(line), [Bullet]))
  {
    if Trim(line) == "" then LineBreak
    else if StartsWith(line, "**") && EndsWith(line, "**") then Heading(StripStars(line))
    else if StartsWith(Trim(line), [CheckMark]) then CheckItem(Segments(Trim(RemoveFirst(line, CheckMark))))
    else if StartsWith(Trim(line), [Bullet]) then BulletItem(Segments(Trim(RemoveFirst(line, Bullet))))
    else Paragraph(Segments(line))
  }

  /** `formatMessageContent`: one block per line of the content, in order. */
  function FormatMessageContent(content: string): (blocks: seq<Block>)
    ensures |blocks| == |Split(content, '\n')|
    ensures forall i :: 0 <= i < |blocks| ==> blocks[i] == ClassifyLine(Split(content, '\n')[i])
  {
    var lines := Split(content, '\n');
    seq(|lines|, i requires 0 <= i < |lines| => ClassifyLine(lines[i]))
  }

  /** Number of occurrences of `c` in `s`. */
  function Count(s: string, c: char): nat
  {
    if s == [] then 0 else (if s[0] == c then 1 else 0) + Count(s[1..], c)
  }

  /** There is one more line than there are newlines. */
  lemma {:induction false} SplitCount(s: string, sep: char)
    ensures |Split(s, sep)| == Count(s, sep) + 1
    decreases |s|
  {
    var k := ArrayOps.FirstIndex(s, c => c == sep);
    if k < 0 {
      CountAbsent(s, sep);
    } else {
      SplitCount(s[k + 1..], sep);
      CountAbsent(s[..k], sep);
      CountAppend(s[..k], s[k..], sep);
      assert s == s[..k] + s[k..];
      assert s[k..][1..] == s[k + 1..];
    }
  }

  lemma {:induction false} CountAbsent(s: string, c: char)
    requires forall i :: 0 <= i < |s| ==> s[i] != c
    ensures Count(s, c) == 0
  {
    if s != [] {
      CountAbsent(s[1..], c);
    }
  }

  lemma {:induction false} CountAppend(a: string, b: string, c: char)
    ensures Count(a + b, c) == Count(a, c) + Count(b, c)
  {
    if a != [] {
      CountAppend(a[1..], b, c);
      assert (a + b)[1..] == a[1..] + b;
    } else {
      assert a + b == b;
    }
  }

  /** A message has exactly one block per newline, plus one. */
  lemma BlocksPerLine(content: string)
    ensures |FormatMessageContent(content)| == Count(content, '\n') + 1
  {
    SplitCount(content, '\n');
  }
}
