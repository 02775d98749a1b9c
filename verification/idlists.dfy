/**
 * Entry-id lists in query strings: every client renders ids as decimal
 * strings and joins them with ",".
 */
module IdLists {
  import opened GoText

  /** The decimal rendering of each id, in input order. */
  function Decimals(ids: seq<int>): (r: seq<string>)
    ensures |r| == |ids|
    ensures forall i :: 0 <= i < |ids| ==> r[i] == Itoa(ids[i])
  {
    if |ids| == 0 then [] else Decimals(ids[..|ids| - 1]) + [Itoa(ids[|ids| - 1])]
  }

  /** The `ids` query value: decimals joined with ",". */
  function IdsValue(ids: seq<int>): string
  {
    Join(Decimals(ids), ",")
  }

  /**
   * The loop each client runs before `strings.Join`: render every id with
   * `strconv.FormatInt(id, 10)` (or `strconv.Itoa`) into a slice of the same length.
   */
  method FormatIds(ids: seq<int>) returns (strs: seq<string>)
    ensures strs == Decimals(ids)
  {
    strs := [];
    var i := 0;
    while i < |ids|
      invariant 0 <= i <= |ids|
      invariant strs == Decimals(ids[..i])
    {
      assert ids[..i + 1][..i] == ids[..i];
      strs := strs + [Itoa(ids[i])];
      i := i + 1;
    }
    assert ids[..i] == ids;
  }

  /** Splitting a join at a separator that no piece contains gives the pieces back. */
  lemma {:induction false} SplitJoin(parts: seq<string>, sep: char)
    requires |parts| > 0
    requires forall i :: 0 <= i < |parts| ==> sep !in parts[i]
    ensures Split(Join(parts, [sep]), sep) == parts
  {
    if |parts| == 1 {
      SplitWithoutSeparator(parts[0], sep);
    } else {
      SplitJoin(parts[1..], sep);
      assert Join(parts, [sep]) == parts[0] + [sep] + Join(parts[1..], [sep]);
      SplitFirst(parts[0], Join(parts[1..], [sep]), sep);
      assert parts == [parts[0]] + parts[1..];
    }
  }

  /**
   * A non-empty id list is recoverable from its query value: the value has
   * one "," fewer than there are ids, and splitting it at "," and reading each
   * piece with `strconv.Atoi` gives back every id in its original position.
   */
  lemma IdsValueRoundTrip(ids: seq<int>)
    requires |ids| > 0
    requires forall i :: 0 <= i < |ids| ==> InInt64(ids[i])
    ensures Count(IdsValue(ids), ',') == |ids| - 1
    ensures |Split(IdsValue(ids), ',')| == |ids|
    ensures forall i :: 0 <= i < |ids| ==> Atoi(Split(IdsValue(ids), ',')[i]) == Some(ids[i])
  {
    var parts := Decimals(ids);
    forall i | 0 <= i < |parts|
      ensures ',' !in parts[i]
    {
      ItoaHasNoComma(ids[i]);
    }
    SplitJoin(parts, ',');
    SplitLength(IdsValue(ids), ',');
    forall i | 0 <= i < |ids|
      ensures Atoi(Split(IdsValue(ids), ',')[i]) == Some(ids[i])
    {
      AtoiItoa(ids[i]);
    }
  }

  lemma ItoaHasNoComma(n: int)
    ensures ',' !in Itoa(n)
  {
    var r := Itoa(n);
    assert forall k :: 0 <= k < |r| ==> r[k] == '-' || IsDigit(r[k]);
  }
}
