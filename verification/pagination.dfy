/**
 * The switch over link relations that every regex-based `Link` header parser
 * runs: only `first`, `prev`, `next` and `last` are kept, and a later link
 * with the same relation replaces an earlier one.
 */
module Pagination {
  import opened GoText
  import opened LinkPattern

  /** The four pagination URLs; "" stands for a relation the header did not carry. */
  datatype Links = Links(first: string, prev: string, next: string, last: string)

  const NoLinks: Links := Links("", "", "", "")

  predicate IsKnownRel(rel: string)
  {
    rel == "first" || rel == "prev" || rel == "next" || rel == "last"
  }

  /** The URL of the last match with relation `rel` whose URL `keep` accepts, or "". */
  function LastUrlFor(ms: seq<LinkMatch>, rel: string, keep: string -> bool): string
  {
    if |ms| == 0 then ""
    else if ms[|ms| - 1].rel == rel && keep(ms[|ms| - 1].url) then ms[|ms| - 1].url
    else LastUrlFor(ms[..|ms| - 1], rel, keep)
  }

  /** What the switch leaves behind after seeing all of `ms`. */
  function Recorded(ms: seq<LinkMatch>, keep: string -> bool): Links
  {
    Links(LastUrlFor(ms, "first", keep), LastUrlFor(ms, "prev", keep),
          LastUrlFor(ms, "next", keep), LastUrlFor(ms, "last", keep))
  }

  /** Accepts every URL: the parsers that do not validate the URL they store. */
  function KeepAll(url: string): bool { true }

  /**
   * The loop of the parsers: for each match, skip it when `keep` refuses its
   * URL, otherwise store the URL under its relation if that is one of the four.
   */
  method CollectKnownRels(ms: seq<LinkMatch>, keep: string -> bool) returns (links: Links)
    ensures links == Recorded(ms, keep)
  {
    links := NoLinks;
    var i := 0;
    while i < |ms|
      invariant 0 <= i <= |ms|
      invariant links == Recorded(ms[..i], keep)
    {
      assert ms[..i + 1][..i] == ms[..i];
      var m := ms[i];
      if keep(m.url) {
        match m.rel {
          case "first" => links := links.(first := m.url);
          case "prev" => links := links.(prev := m.url);
          case "next" => links := links.(next := m.url);
          case "last" => links := links.(last := m.url);
          case _ =>
        }
      }
      i := i + 1;
    }
    assert ms[..i] == ms;
  }

  /** `CollectKnownRels` applied to every match of the link pattern in `header`. */
  method ParseLinkValues(header: string, keep: string -> bool) returns (links: Links)
    ensures links == Recorded(FindAll(header), keep)
  {
    var matches := FindAll(header);
    links := CollectKnownRels(matches, keep);
  }

  /** A link whose relation is not one of the four leaves every field as it was. */
  lemma UnknownRelIgnored(ms: seq<LinkMatch>, m: LinkMatch, keep: string -> bool)
    requires !IsKnownRel(m.rel)
    ensures Recorded(ms + [m], keep) == Recorded(ms, keep)
  {
    assert (ms + [m])[..|ms|] == ms;
  }

  /** A later link with a known relation overwrites that field and only that field. */
  lemma LaterLinkOverwrites(ms: seq<LinkMatch>, m: LinkMatch, keep: string -> bool)
    requires IsKnownRel(m.rel) && keep(m.url)
    ensures var r := Recorded(ms + [m], keep); var o := Recorded(ms, keep);
      r == (if m.rel == "first" then o.(first := m.url)
            else if m.rel == "prev" then o.(prev := m.url)
            else if m.rel == "next" then o.(next := m.url)
            else o.(last := m.url))
  {
    assert (ms + [m])[..|ms|] == ms;
  }

  /** `m` is accepted and carries relation `rel`. */
  predicate KeptWith(m: LinkMatch, rel: string, keep: string -> bool)
  {
    m.rel == rel && keep(m.url)
  }

  /**
   * When every match has a non-empty URL (as every match of the link pattern
   * does), a relation's field is set exactly when some accepted match carries
   * that relation, and then it holds the URL of the last such match.
   */
  lemma {:induction false} LastUrlForSetIff(ms: seq<LinkMatch>, rel: string, keep: string -> bool)
    requires forall i :: 0 <= i < |ms| ==> |ms[i].url| > 0
    ensures LastUrlFor(ms, rel, keep) != "" <==> exists i :: 0 <= i < |ms| && KeptWith(ms[i], rel, keep)
    ensures LastUrlFor(ms, rel, keep) != "" ==>
      exists i :: 0 <= i < |ms| && KeptWith(ms[i], rel, keep) && ms[i].url == LastUrlFor(ms, rel, keep)
        && forall j :: i < j < |ms| ==> !KeptWith(ms[j], rel, keep)
  {
    if |ms| > 0 {
      var init := ms[..|ms| - 1];
      LastUrlForSetIff(init, rel, keep);
      if !KeptWith(ms[|ms| - 1], rel, keep) {
        if exists i :: 0 <= i < |ms| && KeptWith(ms[i], rel, keep) {
          var i :| 0 <= i < |ms| && KeptWith(ms[i], rel, keep);
          assert init[i] == ms[i];
        }
        if LastUrlFor(ms, rel, keep) != "" {
          var i :| 0 <= i < |init| && KeptWith(init[i], rel, keep) && init[i].url == LastUrlFor(init, rel, keep)
            && forall j :: i < j < |init| ==> !KeptWith(init[j], rel, keep);
          assert ms[i] == init[i];
          assert forall j :: i < j < |ms| - 1 ==> ms[j] == init[j];
        }
      }
    }
  }

  /** An empty header (and any header without a well-formed link) yields no URLs at all. */
  lemma NoMatchesNoLinks(keep: string -> bool)
    ensures Recorded([], keep) == NoLinks
  {
  }
}
