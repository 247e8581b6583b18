/** groupIntoLines: the partition of the item sequence into line groups,
    using the empty break markers alone. */
module Lines {
  import opened Base

  /** No item of the sequence is a break marker. */
  predicate NoMarkers(items: seq<Bytes>)
  {
    forall k :: 0 <= k < |items| ==> items[k] != []
  }

  /** Every group is non-empty and holds no break marker. */
  predicate WellFormed(groups: seq<seq<Bytes>>)
  {
    forall k :: 0 <= k < |groups| ==> groups[k] != [] && NoMarkers(groups[k])
  }

  /** The line being collected, as a group if it holds anything. */
  function Close(line: seq<Bytes>): seq<seq<Bytes>>
  {
    if line == [] then [] else [line]
  }

  /** The groups of `items`, with `line` the items collected so far on the
      current line: a marker closes the line, any other item joins it. */
  function GroupFrom(line: seq<Bytes>, items: seq<Bytes>): seq<seq<Bytes>>
    decreases |items|
  {
    if items == [] then Close(line)
    else if IsMarker(items[0]) then Close(line) + GroupFrom([], items[1..])
    else GroupFrom(line + [items[0]], items[1..])
  }

  function GroupIntoLines(items: seq<Bytes>): seq<seq<Bytes>>
  {
    GroupFrom([], items)
  }

  /** The groups laid end to end. */
  function Flatten(groups: seq<seq<Bytes>>): seq<Bytes>
  {
    if groups == [] then [] else groups[0] + Flatten(groups[1..])
  }

  /** The groups written back as an item sequence, with one marker between
      consecutive groups. */
  function JoinLines(groups: seq<seq<Bytes>>): seq<Bytes>
  {
    if groups == [] then []
    else if |groups| == 1 then groups[0]
    else groups[0] + [[]] + JoinLines(groups[1..])
  }

  lemma {:induction false} FlattenAppend(xs: seq<seq<Bytes>>, ys: seq<seq<Bytes>>)
    ensures Flatten(xs + ys) == Flatten(xs) + Flatten(ys)
  {
    if xs == [] {
      assert xs + ys == ys;
    } else {
      assert (xs + ys)[1..] == xs[1..] + ys;
      FlattenAppend(xs[1..], ys);
    }
  }

  lemma {:induction false} GroupFromWellFormed(line: seq<Bytes>, items: seq<Bytes>)
    requires NoMarkers(line)
    ensures WellFormed(GroupFrom(line, items))
    decreases |items|
  {
    if items == [] {
    } else if IsMarker(items[0]) {
      GroupFromWellFormed([], items[1..]);
    } else {
      GroupFromWellFormed(line + [items[0]], items[1..]);
    }
  }

  /** Every group is non-empty and marker-free. */
  lemma GroupsWellFormed(items: seq<Bytes>)
    ensures WellFormed(GroupIntoLines(items))
  {
    GroupFromWellFormed([], items);
  }

  lemma {:induction false} GroupFromKeepsItems(line: seq<Bytes>, items: seq<Bytes>)
    ensures Flatten(GroupFrom(line, items)) == line + NonEmpty(items)
    decreases |items|
  {
    if items == [] {
    } else if IsMarker(items[0]) {
      GroupFromKeepsItems([], items[1..]);
      FlattenAppend(Close(line), GroupFrom([], items[1..]));
    } else {
      GroupFromKeepsItems(line + [items[0]], items[1..]);
    }
  }

  /** The groups hold exactly the text runs, in their original order. */
  lemma GroupsKeepItems(items: seq<Bytes>)
    ensures Flatten(GroupIntoLines(items)) == NonEmpty(items)
  {
    GroupFromKeepsItems([], items);
  }

  lemma {:induction false} GroupFromSplits(line: seq<Bytes>, xs: seq<Bytes>, ys: seq<Bytes>)
    ensures GroupFrom(line, xs + [[]] + ys) == GroupFrom(line, xs) + GroupFrom([], ys)
    decreases |xs|
  {
    if xs == [] {
      assert xs + [[]] + ys == [[]] + ys;
      assert ([[]] + ys)[1..] == ys;
    } else {
      assert (xs + [[]] + ys)[0] == xs[0];
      assert (xs + [[]] + ys)[1..] == xs[1..] + [[]] + ys;
      GroupFromSplits(if IsMarker(xs[0]) then [] else line + [xs[0]], xs[1..], ys);
    }
  }

  /** A marker always ends a group: what precedes it and what follows it are
      grouped independently. */
  lemma GroupsSplitAtMarker(xs: seq<Bytes>, ys: seq<Bytes>)
    ensures GroupIntoLines(xs + [[]] + ys) == GroupIntoLines(xs) + GroupIntoLines(ys)
  {
    GroupFromSplits([], xs, ys);
  }

  lemma {:induction false} GroupFromOneLine(line: seq<Bytes>, items: seq<Bytes>)
    requires NoMarkers(items)
    ensures GroupFrom(line, items) == Close(line + items)
    decreases |items|
  {
    if items == [] {
      assert line + items == line;
    } else {
      assert items[0] != [];
      assert (line + [items[0]]) + items[1..] == line + items;
      GroupFromOneLine(line + [items[0]], items[1..]);
    }
  }

  /** Runs with no marker between them share one group. */
  lemma OneLine(items: seq<Bytes>)
    requires NoMarkers(items)
    ensures GroupIntoLines(items) == (if items == [] then [] else [items])
  {
    GroupFromOneLine([], items);
    assert [] + items == items;
  }

  /** Markers around the items change nothing: leading, trailing and
      repeated markers produce no empty group. */
  lemma MarkersAroundIgnored(xs: seq<Bytes>)
    ensures GroupIntoLines([[]] + xs) == GroupIntoLines(xs)
    ensures GroupIntoLines(xs + [[]]) == GroupIntoLines(xs)
  {
    GroupsSplitAtMarker([], xs);
    assert [] + [[]] + xs == [[]] + xs;
    GroupsSplitAtMarker(xs, []);
    assert xs + [[]] + [] == xs + [[]];
  }

  /** Grouping is the inverse of joining well-formed groups with markers. */
  lemma {:induction false} GroupJoinRoundTrip(groups: seq<seq<Bytes>>)
    requires WellFormed(groups)
    ensures GroupIntoLines(JoinLines(groups)) == groups
  {
    if groups == [] {
    } else if |groups| == 1 {
      OneLine(groups[0]);
    } else {
      assert WellFormed(groups[1..]) by {
        forall k | 0 <= k < |groups[1..]| ensures groups[1..][k] == groups[k + 1] { }
      }
      GroupJoinRoundTrip(groups[1..]);
      GroupsSplitAtMarker(groups[0], JoinLines(groups[1..]));
      OneLine(groups[0]);
      assert groups == [groups[0]] + groups[1..];
    }
  }

  /** Regrouping the joined groups reproduces the same partition. */
  lemma GroupingIdempotent(items: seq<Bytes>)
    ensures GroupIntoLines(JoinLines(GroupIntoLines(items))) == GroupIntoLines(items)
  {
    GroupsWellFormed(items);
    GroupJoinRoundTrip(GroupIntoLines(items));
  }

  /** Joining keeps the runs: the join holds the groups' items in order,
      with markers only at the boundaries. */
  lemma {:induction false} JoinKeepsItems(groups: seq<seq<Bytes>>)
    requires WellFormed(groups)
    ensures NonEmpty(JoinLines(groups)) == Flatten(groups)
  {
    if groups == [] {
    } else if |groups| == 1 {
      NonEmptyOfRuns(groups[0]);
      assert Flatten(groups) == groups[0] + Flatten([]);
    } else {
      var g, rest := groups[0], groups[1..];
      assert WellFormed(rest) by {
        forall k | 0 <= k < |rest| ensures rest[k] == groups[k + 1] { }
      }
      JoinKeepsItems(rest);
      assert NonEmpty(g) == g by {
        assert NoMarkers(groups[0]);
        NonEmptyOfRuns(g);
      }
      assert JoinLines(groups) == (g + [[]]) + JoinLines(rest);
      NonEmptyAppend(g + [[]], JoinLines(rest));
      assert NonEmpty(g + [[]]) == g by {
        NonEmptyAppend(g, [[]]);
        assert NonEmpty([[]]) == [] + NonEmpty([]);
      }
      assert Flatten(groups) == g + Flatten(rest);
    }
  }
}
