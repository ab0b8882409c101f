/**
 * The length search behind `Data.domainCMP` and `Data.learn`: which prefix
 * lengths of the content a leaf may consume, and in which order they are
 * tried. The methods in `DataLeaf` are proved against `AcceptedSizes`.
 */
module LengthSearch {
  import opened Wrappers
  import opened FieldTypes

  /** A prefix of `size` bits is consumable: the empty prefix always is (an optional data). */
  predicate Accepts(ft: FieldType, content: Bits, size: nat)
    requires size <= |content|
  {
    size == 0 || ft.canParse(content[..size])
  }

  /** The smallest length tried; the carnivorous flag pins it to the whole content. */
  function Lower(ft: FieldType, content: Bits, carnivorous: bool): nat
  {
    if carnivorous then |content| else ft.minSize
  }

  /** The largest length tried: the type's maximum, an absent one read as the content length, capped by the content length. */
  function Upper(ft: FieldType, content: Bits, carnivorous: bool): (hi: nat)
    ensures hi <= |content|
  {
    if carnivorous then |content|
    else match ft.maxSize
      case None => |content|
      case Some(m) => if m < |content| then m else |content|
  }

  /** The accepted lengths among `hi`, `hi - 1`, ..., `lo`, in that order. */
  function AcceptedBetween(ft: FieldType, content: Bits, lo: nat, hi: int): (r: seq<nat>)
    requires hi <= |content|
    ensures forall i :: 0 <= i < |r| ==> lo <= r[i] <= hi && Accepts(ft, content, r[i])
    decreases hi + 1 - lo
  {
    if hi < lo then []
    else (if Accepts(ft, content, hi) then [hi] else []) + AcceptedBetween(ft, content, lo, hi - 1)
  }

  /**
   * The lengths `domainCMP` and `learn` turn into paths, in the order of the
   * paths they return: nothing when the content is shorter than the type's
   * minimum, otherwise the accepted lengths from `Upper` down to `Lower`.
   */
  function AcceptedSizes(ft: FieldType, content: Bits, carnivorous: bool): seq<nat>
  {
    if |content| < ft.minSize then []
    else AcceptedBetween(ft, content, Lower(ft, content, carnivorous), Upper(ft, content, carnivorous))
  }

  /** Peeling the lowest length off the search: the loop of `domainCMP` extends its results this way. */
  lemma {:induction false} AcceptedBetweenSplitLow(ft: FieldType, content: Bits, lo: nat, hi: int)
    requires lo <= hi <= |content|
    ensures AcceptedBetween(ft, content, lo, hi)
         == AcceptedBetween(ft, content, lo + 1, hi) + (if Accepts(ft, content, lo) then [lo] else [])
    decreases hi - lo
  {
    if lo < hi {
      AcceptedBetweenSplitLow(ft, content, lo, hi - 1);
    }
  }

  /** Every length comes after all longer ones. */
  predicate StrictlyDescending(s: seq<nat>)
  {
    forall i, j :: 0 <= i < j < |s| ==> s[i] > s[j]
  }

  lemma {:induction false} AcceptedBetweenDescending(ft: FieldType, content: Bits, lo: nat, hi: int)
    requires hi <= |content|
    ensures StrictlyDescending(AcceptedBetween(ft, content, lo, hi))
    decreases hi + 1 - lo
  {
    if lo <= hi {
      AcceptedBetweenDescending(ft, content, lo, hi - 1);
      var rest := AcceptedBetween(ft, content, lo, hi - 1);
      var r := AcceptedBetween(ft, content, lo, hi);
      if Accepts(ft, content, hi) {
        assert r == [hi] + rest;
        forall i, j | 0 <= i < j < |r| ensures r[i] > r[j] {
          assert r[j] == rest[j - 1];
          if i > 0 { assert r[i] == rest[i - 1]; }
        }
      } else {
        assert r == rest;
      }
    }
  }

  lemma {:induction false} AcceptedBetweenComplete(ft: FieldType, content: Bits, lo: nat, hi: int, size: nat)
    requires hi <= |content|
    requires lo <= size <= hi && Accepts(ft, content, size)
    ensures size in AcceptedBetween(ft, content, lo, hi)
    decreases hi + 1 - lo
  {
    if size < hi {
      AcceptedBetweenComplete(ft, content, lo, hi - 1, size);
    }
  }

  /** Content shorter than the type's minimum yields no path, whether or not the search is carnivorous. */
  lemma TooShortYieldsNothing(ft: FieldType, content: Bits, carnivorous: bool)
    requires |content| < ft.minSize
    ensures AcceptedSizes(ft, content, carnivorous) == []
  {
  }

  /**
   * The lengths come strictly decreasing, never above the content length,
   * never above the type's maximum unless carnivorous, never below the type's
   * minimum.
   */
  lemma AcceptedSizesOrdered(ft: FieldType, content: Bits, carnivorous: bool)
    ensures var r := AcceptedSizes(ft, content, carnivorous);
            StrictlyDescending(r) &&
            (forall i :: 0 <= i < |r| ==> ft.minSize <= r[i] <= |content|) &&
            (forall i :: 0 <= i < |r| && !carnivorous && ft.maxSize.Some? ==> r[i] <= ft.maxSize.value)
  {
    if ft.minSize <= |content| {
      AcceptedBetweenDescending(ft, content, Lower(ft, content, carnivorous), Upper(ft, content, carnivorous));
      var r := AcceptedSizes(ft, content, carnivorous);
      assert r == AcceptedBetween(ft, content, Lower(ft, content, carnivorous), Upper(ft, content, carnivorous));
    }
  }

  /**
   * Soundness and completeness: a length yields a path exactly when it lies
   * in the searched range and the prefix of that length is accepted.
   */
  lemma AcceptedSizesSoundComplete(ft: FieldType, content: Bits, carnivorous: bool, size: nat)
    ensures size in AcceptedSizes(ft, content, carnivorous) <==>
            ft.minSize <= |content| &&
            Lower(ft, content, carnivorous) <= size <= Upper(ft, content, carnivorous) &&
            Accepts(ft, content, size)
  {
    var lo, hi := Lower(ft, content, carnivorous), Upper(ft, content, carnivorous);
    if ft.minSize <= |content| && lo <= size <= hi && Accepts(ft, content, size) {
      AcceptedBetweenComplete(ft, content, lo, hi, size);
    }
  }

  /**
   * A carnivorous search yields at most one length, the whole content, even
   * when that exceeds the type's maximum; it yields it exactly when the
   * content is not shorter than the minimum and is accepted as a whole.
   */
  lemma CarnivorousTakesAll(ft: FieldType, content: Bits)
    ensures var r := AcceptedSizes(ft, content, true);
            r == (if ft.minSize <= |content| && Accepts(ft, content, |content|) then [|content|] else [])
  {
    if ft.minSize <= |content| {
      var n := |content|;
      assert AcceptedBetween(ft, content, n, n - 1) == [];
    }
  }

  /**
   * Longer matches are hypothesised first: when the largest candidate length
   * is accepted it is the first length returned.
   */
  lemma LongestFirst(ft: FieldType, content: Bits, carnivorous: bool)
    requires ft.minSize <= |content|
    requires Lower(ft, content, carnivorous) <= Upper(ft, content, carnivorous)
    requires Accepts(ft, content, Upper(ft, content, carnivorous))
    ensures var r := AcceptedSizes(ft, content, carnivorous);
            |r| > 0 && r[0] == Upper(ft, content, carnivorous)
  {
  }
}
