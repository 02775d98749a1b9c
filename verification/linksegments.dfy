/**
 * The `Link` header parsers that do not use a regular expression: they split
 * the header at ',' and hand each piece to a per-client routine that splits it
 * at ';' and trims brackets, quotes and white space.
 */
module LinkSegments {
  import opened GoText
  import opened LinkPattern

  /** One link as a server writes it: `<url>; rel="rel"`. */
  function Piece(m: LinkMatch): string
  {
    "<" + m.url + ">; " + RelOpen + m.rel + "\""
  }

  /**
   * A link the split-based parsers can read back: well-formed, and neither
   * its URL nor its rel holds ',' or ';', the characters they split at.
   */
  predicate Separable(m: LinkMatch)
  {
    WellFormed(m) && ',' !in m.url && ';' !in m.url && ',' !in m.rel && ';' !in m.rel
  }

  function Found(o: Option<LinkMatch>): seq<LinkMatch>
  {
    if o.Some? then [o.value] else []
  }

  /** The links read from the comma-separated pieces in order, pieces `seg` rejects skipped. */
  function Segments(parts: seq<string>, seg: string -> Option<LinkMatch>): (ms: seq<LinkMatch>)
    ensures |ms| <= |parts|
  {
    if |parts| == 0 then [] else Segments(parts[..|parts| - 1], seg) + Found(seg(parts[|parts| - 1]))
  }

  lemma {:induction false} SegmentsConcat(a: seq<string>, b: seq<string>, seg: string -> Option<LinkMatch>)
    ensures Segments(a + b, seg) == Segments(a, seg) + Segments(b, seg)
  {
    if |b| == 0 {
      assert a + b == a;
    } else {
      var init := b[..|b| - 1];
      var x := b[|b| - 1];
      SegmentsConcat(a, init, seg);
      assert b == init + [x];
      assert a + b == (a + init) + [x];
      SegmentsLast(a + init, x, seg);
      SegmentsLast(init, x, seg);
      AppendAssoc(Segments(a, seg), Segments(init, seg), Found(seg(x)));
    }
  }

  lemma AppendAssoc(p: seq<LinkMatch>, q: seq<LinkMatch>, r: seq<LinkMatch>)
    ensures (p + q) + r == p + (q + r)
  {
  }

  lemma SegmentsLast(parts: seq<string>, x: string, seg: string -> Option<LinkMatch>)
    ensures Segments(parts + [x], seg) == Segments(parts, seg) + Found(seg(x))
  {
    assert (parts + [x])[..|parts|] == parts;
  }

  /** One more piece read: the links so far, then the piece's link if it has one. */
  lemma SegmentsSnoc(parts: seq<string>, i: int, seg: string -> Option<LinkMatch>)
    requires 0 <= i < |parts|
    ensures Segments(parts[..i + 1], seg) == Segments(parts[..i], seg) + Found(seg(parts[i]))
  {
    assert parts[..i + 1][..i] == parts[..i];
  }

  lemma RenderThenIsPiece(m: LinkMatch, rest: string)
    ensures RenderThen(m, rest) == Piece(m) + rest
  {
  }

  lemma NoCommaInPiece(m: LinkMatch, sp: string)
    requires Separable(m) && ',' !in sp
    ensures ',' !in sp + Piece(m)
  {
  }

  lemma RenderAllCons(ms: seq<LinkMatch>, sp: string)
    requires |ms| > 1
    ensures sp + RenderAll(ms) == (sp + Piece(ms[0])) + [','] + (" " + RenderAll(ms[1..]))
  {
    RenderThenIsPiece(ms[0], ", " + RenderAll(ms[1..]));
  }

  lemma RenderAllOne(ms: seq<LinkMatch>)
    requires |ms| == 1
    ensures RenderAll(ms) == Piece(ms[0])
  {
    RenderThenIsPiece(ms[0], "");
  }

  lemma SegmentsOne(x: string, seg: string -> Option<LinkMatch>)
    ensures Segments([x], seg) == Found(seg(x))
  {
    assert [x][..0] == [];
  }

  /** The first piece of a header read back as its link. */
  lemma FirstPiece(m: LinkMatch, seg: string -> Option<LinkMatch>, sp: string)
    requires sp == "" || sp == " "
    requires Separable(m)
    requires seg(Piece(m)) == Some(m) && seg(" " + Piece(m)) == Some(m)
    ensures ',' !in sp + Piece(m)
    ensures Segments([sp + Piece(m)], seg) == [m]
  {
    NoCommaInPiece(m, sp);
    SegmentsOne(sp + Piece(m), seg);
    if sp == "" {
      assert sp + Piece(m) == Piece(m);
    }
  }

  lemma SplitRenderedStep(ms: seq<LinkMatch>, seg: string -> Option<LinkMatch>, sp: string)
    requires sp == "" || sp == " "
    requires |ms| > 1
    requires ',' !in sp + Piece(ms[0])
    requires Segments([sp + Piece(ms[0])], seg) == [ms[0]]
    requires Segments(Split(" " + RenderAll(ms[1..]), ','), seg) == ms[1..]
    ensures Segments(Split(sp + RenderAll(ms), ','), seg) == ms
  {
    var first := sp + Piece(ms[0]);
    var tail := " " + RenderAll(ms[1..]);
    RenderAllCons(ms, sp);
    SplitFirst(first, tail, ',');
    SegmentsConcat([first], Split(tail, ','), seg);
    assert ms == [ms[0]] + ms[1..];
  }

  /**
   * Splitting a header of separable links written `<url>; rel="rel"` and
   * separated by `, ` gives one piece per link; when `seg` reads each piece
   * (with or without the space that follows a comma) back as its link, the
   * parser recovers exactly the links, in order.
   */
  lemma {:induction false} SplitRendered(ms: seq<LinkMatch>, seg: string -> Option<LinkMatch>, sp: string)
    requires sp == "" || sp == " "
    requires |ms| > 0
    requires forall i :: 0 <= i < |ms| ==> Separable(ms[i])
    requires forall i :: 0 <= i < |ms| ==> seg(Piece(ms[i])) == Some(ms[i]) && seg(" " + Piece(ms[i])) == Some(ms[i])
    ensures Segments(Split(sp + RenderAll(ms), ','), seg) == ms
  {
    FirstPiece(ms[0], seg, sp);
    if |ms| == 1 {
      RenderAllOne(ms);
      assert sp + RenderAll(ms) == sp + Piece(ms[0]);
      SplitWithoutSeparator(sp + Piece(ms[0]), ',');
    } else {
      SplitRendered(ms[1..], seg, " ");
      SplitRenderedStep(ms, seg, sp);
    }
  }

  /** `SplitRendered` for a whole header, which starts with no space. */
  lemma SplitRenderedAll(ms: seq<LinkMatch>, seg: string -> Option<LinkMatch>)
    requires |ms| > 0
    requires forall i :: 0 <= i < |ms| ==> Separable(ms[i])
    requires forall i :: 0 <= i < |ms| ==> seg(Piece(ms[i])) == Some(ms[i]) && seg(" " + Piece(ms[i])) == Some(ms[i])
    ensures Segments(Split(RenderAll(ms), ','), seg) == ms
  {
    SplitRendered(ms, seg, "");
    assert "" + RenderAll(ms) == RenderAll(ms);
  }

  /** A rendered link splits at ';' into the bracketed URL and the rel attribute. */
  lemma PieceHalves(m: LinkMatch, sp: string)
    requires Separable(m) && (sp == "" || sp == " ")
    ensures Split(sp + Piece(m), ';') == [sp + ("<" + (m.url + ">")), " " + (RelOpen + m.rel + "\"")]
  {
    var a := sp + ("<" + (m.url + ">"));
    var b := " " + (RelOpen + m.rel + "\"");
    assert sp + Piece(m) == a + [';'] + b;
    SplitFirst(a, b, ';');
    SplitWithoutSeparator(b, ';');
  }

  /** Trimming the cutset "<>" takes off the angle brackets around a URL and nothing else. */
  lemma BracketsTrimmed(u: string)
    requires |u| > 0 && '<' !in u && '>' !in u
    ensures Trim("<" + (u + ">"), "<>") == u
  {
    assert "<" + (u + ">") == ['<'] + u + ['>'];
    assert u[0] !in "<>" && u[|u| - 1] !in "<>";
    TrimEnclosed('<', u, '>', "<>");
  }

  /** White space before `<url>` is all `TrimSpace` removes. */
  lemma SpacedUrl(url: string, sp: string)
    requires sp == "" || sp == " "
    ensures TrimSpace(sp + ("<" + (url + ">"))) == "<" + (url + ">")
  {
    var x := "<" + (url + ">");
    assert x[0] == '<' && x[|x| - 1] == '>';
    assert forall i :: 0 <= i < |sp| ==> IsSpace(sp[i]);
    TrimSpaceAfterSpaces(sp, x);
  }
}
