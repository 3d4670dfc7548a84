/** Tag stripping: `re.sub(r"<[^>]+>", " ", s)`. */
module Normalizer {
  import opened Common

  /** The first `>` at or after `i`, or the length of the text. */
  function NextClose(s: string, i: nat): (j: nat)
    requires i <= |s|
    ensures i <= j <= |s|
    ensures forall x :: i <= x < j ==> s[x] != '>'
    ensures j < |s| ==> s[j] == '>'
    decreases |s| - i
  {
    if i == |s| || s[i] == '>' then i else NextClose(s, i + 1)
  }

  /** `s[i..j]` is a match of `<[^>]+>`. */
  predicate IsTag(s: string, i: nat, j: nat) {
    && i + 2 < j <= |s|
    && s[i] == '<'
    && s[j - 1] == '>'
    && forall x :: i < x < j - 1 ==> s[x] != '>'
  }

  /** Where the match starting at `i` ends, if one starts there; `[^>]+` stops at the first `>`. */
  function TagEnd(s: string, i: nat): (r: Option<nat>)
    requires i < |s|
    ensures r.Some? ==> IsTag(s, i, r.value)
    ensures r.None? ==> forall j: nat :: !IsTag(s, i, j)
  {
    var close := NextClose(s, i + 1);
    if s[i] == '<' && close < |s| && close > i + 1 then Some(close + 1)
    else
      assert forall j: nat :: IsTag(s, i, j) ==> s[j - 1] == '>' && close <= j - 1;
      None
  }

  /** Leftmost, non-overlapping replacement from position `i` on. */
  function StripFrom(s: string, i: nat): string
    requires i <= |s|
    decreases |s| - i
  {
    if i == |s| then ""
    else match TagEnd(s, i)
      case Some(j) => " " + StripFrom(s, j)
      case None => [s[i]] + StripFrom(s, i + 1)
  }

  function StripHtml(s: string): string {
    StripFrom(s, 0)
  }

  // ---- the output holds no tag ---------------------------------------------------

  ghost predicate TagFree(s: string) {
    forall i: nat, j: nat :: !IsTag(s, i, j)
  }

  /** What a suffix of the output still knows about its input: a `>` in it comes from a `>` of the
      input, and a leading `>` from a leading `>`. */
  lemma {:induction false} StripFromShape(s: string, i: nat)
    requires i <= |s|
    ensures '>' in StripFrom(s, i) ==> NextClose(s, i) < |s|
    ensures |StripFrom(s, i)| > 0 && i < |s| && s[i] == '>' ==> StripFrom(s, i)[0] == '>'
    ensures i < |s| ==> |StripFrom(s, i)| > 0
    decreases |s| - i
  {
    if i < |s| {
      match TagEnd(s, i) {
        case Some(j) => StripFromShape(s, j);
        case None => StripFromShape(s, i + 1);
      }
    }
  }

  lemma PrefixKeepsTagFree(c: char, t: string)
    requires TagFree(t)
    requires c == '<' ==> (|t| > 0 && t[0] == '>') || '>' !in t
    ensures TagFree([c] + t)
  {
    var s := [c] + t;
    assert forall x :: 0 < x < |s| ==> s[x] == t[x - 1];
    forall i: nat, j: nat | IsTag(s, i, j)
      ensures i > 0 && IsTag(t, i - 1, j - 1)
    {
      assert s[1] == t[0] && s[j - 1] == t[j - 2];
      forall x | i <= x < j - 2 ensures t[x] != '>' { assert s[x + 1] == t[x]; }
    }
  }

  lemma {:induction false} StripFromIsTagFree(s: string, i: nat)
    requires i <= |s|
    ensures TagFree(StripFrom(s, i))
    decreases |s| - i
  {
    if i < |s| {
      match TagEnd(s, i) {
        case Some(j) =>
          StripFromIsTagFree(s, j);
          PrefixKeepsTagFree(' ', StripFrom(s, j));
        case None =>
          StripFromIsTagFree(s, i + 1);
          StripFromShape(s, i + 1);
          PrefixKeepsTagFree(s[i], StripFrom(s, i + 1));
      }
    }
  }

  lemma {:induction false} TagFreeIsUntouched(s: string, i: nat)
    requires i <= |s| && TagFree(s)
    ensures StripFrom(s, i) == s[i..]
    decreases |s| - i
  {
    if i < |s| {
      assert TagEnd(s, i).None?;
      TagFreeIsUntouched(s, i + 1);
    }
  }

  /** No text keeps a tag after stripping, so stripping twice is stripping once. */
  lemma StripHtmlIdempotent(s: string)
    ensures TagFree(StripHtml(s))
    ensures StripHtml(StripHtml(s)) == StripHtml(s)
    ensures StripHtml(s) == s <==> TagFree(s)
  {
    StripFromIsTagFree(s, 0);
    TagFreeIsUntouched(StripHtml(s), 0);
    if TagFree(s) {
      TagFreeIsUntouched(s, 0);
    }
  }

  // ---- what is kept ---------------------------------------------------------------

  /** The text is cut into `pieces`: tags of the text, and single characters at which no tag starts. */
  datatype Piece = Tag(text: string) | Kept(c: char)

  function Source(pieces: seq<Piece>): string {
    if pieces == [] then ""
    else (match pieces[0] case Tag(t) => t case Kept(c) => [c]) + Source(pieces[1..])
  }

  function Rendered(pieces: seq<Piece>): string {
    if pieces == [] then ""
    else (match pieces[0] case Tag(_) => " " case Kept(c) => [c]) + Rendered(pieces[1..])
  }

  ghost predicate Tiles(s: string, i: nat, pieces: seq<Piece>)
    requires i <= |s|
    decreases pieces
  {
    if pieces == [] then i == |s|
    else match pieces[0]
      case Tag(t) => IsTag(s, i, i + |t|) && s[i..i + |t|] == t && Tiles(s, i + |t|, pieces[1..])
      case Kept(c) => i < |s| && s[i] == c && (forall j: nat :: !IsTag(s, i, j)) && Tiles(s, i + 1, pieces[1..])
  }

  lemma {:induction false} StripFromTiles(s: string, i: nat) returns (pieces: seq<Piece>)
    requires i <= |s|
    ensures Tiles(s, i, pieces)
    ensures Source(pieces) == s[i..]
    ensures Rendered(pieces) == StripFrom(s, i)
    decreases |s| - i
  {
    if i == |s| {
      pieces := [];
    } else {
      match TagEnd(s, i) {
        case Some(j) =>
          var rest := StripFromTiles(s, j);
          TagComesFirst(s, i, j, rest);
          pieces := [Tag(s[i..j])] + rest;
        case None =>
          var rest := StripFromTiles(s, i + 1);
          CharComesFirst(s, i, rest);
          pieces := [Kept(s[i])] + rest;
      }
    }
  }

  lemma TagComesFirst(s: string, i: nat, j: nat, rest: seq<Piece>)
    requires i < |s| && TagEnd(s, i) == Some(j)
    requires Tiles(s, j, rest) && Source(rest) == s[j..] && Rendered(rest) == StripFrom(s, j)
    ensures var pieces := [Tag(s[i..j])] + rest;
      Tiles(s, i, pieces) && Source(pieces) == s[i..] && Rendered(pieces) == StripFrom(s, i)
  {
    AddPiece(Tag(s[i..j]), rest);
    AddTile(s, i, Tag(s[i..j]), rest);
    assert s[i..j] + s[j..] == s[i..];
  }

  lemma CharComesFirst(s: string, i: nat, rest: seq<Piece>)
    requires i < |s| && TagEnd(s, i) == None
    requires Tiles(s, i + 1, rest) && Source(rest) == s[i + 1..] && Rendered(rest) == StripFrom(s, i + 1)
    ensures var pieces := [Kept(s[i])] + rest;
      Tiles(s, i, pieces) && Source(pieces) == s[i..] && Rendered(pieces) == StripFrom(s, i)
  {
    AddPiece(Kept(s[i]), rest);
    AddTile(s, i, Kept(s[i]), rest);
    assert [s[i]] + s[i + 1..] == s[i..];
  }

  lemma AddTile(s: string, i: nat, p: Piece, rest: seq<Piece>)
    requires i < |s|
    requires match p
      case Tag(t) => IsTag(s, i, i + |t|) && s[i..i + |t|] == t && Tiles(s, i + |t|, rest)
      case Kept(c) => s[i] == c && (forall j: nat :: !IsTag(s, i, j)) && Tiles(s, i + 1, rest)
    ensures Tiles(s, i, [p] + rest)
  {
    assert ([p] + rest)[1..] == rest;
  }

  lemma AddPiece(p: Piece, rest: seq<Piece>)
    ensures var pieces := [p] + rest;
      && pieces[1..] == rest
      && Source(pieces) == (match p case Tag(t) => t case Kept(c) => [c]) + Source(rest)
      && Rendered(pieces) == (match p case Tag(_) => " " case Kept(c) => [c]) + Rendered(rest)
  {
    assert ([p] + rest)[1..] == rest;
  }

  function TagCount(pieces: seq<Piece>): nat {
    if pieces == [] then 0 else (if pieces[0].Tag? then 1 else 0) + TagCount(pieces[1..])
  }

  lemma {:induction false} TagsCostTwo(s: string, i: nat, pieces: seq<Piece>)
    requires i <= |s| && Tiles(s, i, pieces)
    ensures |Rendered(pieces)| + 2 * TagCount(pieces) <= |s| - i
    decreases pieces
  {
    if pieces != [] {
      TagsCostTwo(s, if pieces[0].Tag? then i + |pieces[0].text| else i + 1, pieces[1..]);
    }
  }

  /** Every text splits, from the left, into tags and kept characters; stripping renders each tag
      as one space and keeps every other character in order, and each tag costs at least two. */
  lemma StripHtmlKeepsTheRest(s: string)
    ensures exists pieces ::
      && Tiles(s, 0, pieces)
      && Source(pieces) == s
      && Rendered(pieces) == StripHtml(s)
      && |StripHtml(s)| + 2 * TagCount(pieces) <= |s|
  {
    var pieces := StripFromTiles(s, 0);
    TagsCostTwo(s, 0, pieces);
  }
}
