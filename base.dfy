/** Values shared by every stage of the content-stream extractor. */
module Base {

  /** One byte of a page content stream, written as the character with that code. */
  type Byte = c: char | c <= '\U{FF}'

  /** A byte string: the raw content stream and every extracted text item. */
  type Bytes = seq<Byte>

  datatype Option<+T> = None | Some(value: T)

  /** The empty item is the break marker; every other item is a text run. */
  predicate IsMarker(item: Bytes) { item == [] }

  /** The items of `items` that are text runs, in order: what every test of
      the extractor keeps after dropping break markers. */
  function NonEmpty(items: seq<Bytes>): (r: seq<Bytes>)
    ensures forall k :: 0 <= k < |r| ==> r[k] != []
    ensures |r| <= |items|
  {
    if items == [] then []
    else (if items[0] == [] then [] else [items[0]]) + NonEmpty(items[1..])
  }

  lemma {:induction false} NonEmptyAppend(xs: seq<Bytes>, ys: seq<Bytes>)
    ensures NonEmpty(xs + ys) == NonEmpty(xs) + NonEmpty(ys)
  {
    if xs == [] {
      assert xs + ys == ys;
    } else {
      assert (xs + ys)[1..] == xs[1..] + ys;
      NonEmptyAppend(xs[1..], ys);
    }
  }

  /** Removing markers from a sequence that has none changes nothing. */
  lemma {:induction false} NonEmptyOfRuns(xs: seq<Bytes>)
    requires forall k :: 0 <= k < |xs| ==> xs[k] != []
    ensures NonEmpty(xs) == xs
  {
    if xs != [] {
      NonEmptyOfRuns(xs[1..]);
    }
  }

  lemma AppendAssociative<T>(a: seq<T>, b: seq<T>, c: seq<T>)
    ensures a + b + c == a + (b + c)
  {
  }

  function Concat(parts: seq<Bytes>): Bytes
  {
    if parts == [] then [] else parts[0] + Concat(parts[1..])
  }

  lemma {:induction false} ConcatAppend(xs: seq<Bytes>, ys: seq<Bytes>)
    ensures Concat(xs + ys) == Concat(xs) + Concat(ys)
  {
    if xs == [] {
      assert xs + ys == ys;
    } else {
      assert (xs + ys)[1..] == xs[1..] + ys;
      ConcatAppend(xs[1..], ys);
    }
  }

  function AbsReal(x: real): (r: real)
    ensures r >= 0.0 && (r == x || r == -x)
  {
    if x < 0.0 then -x else x
  }
}
