/** String helpers shared by expression building and the Python printer. */
module Strings {

  /**
   * JavaScript's `Array.prototype.join(sep)`: the items in order, with `sep`
   * between each adjacent pair and nowhere else.
   */
  function Join(items: seq<string>, sep: string): string
  {
    if |items| == 0 then ""
    else if |items| == 1 then items[0]
    else items[0] + sep + Join(items[1..], sep)
  }

  /**
   * Join built from the left, one item at a time, as the printer's loops do:
   * the separator goes before every item but the first, so no separator trails.
   */
  lemma {:induction false} JoinSnoc(items: seq<string>, x: string, sep: string)
    requires |items| > 0
    ensures Join(items + [x], sep) == Join(items, sep) + sep + x
  {
    if |items| == 1 {
      assert items + [x] == [items[0], x];
      assert (items + [x])[1..] == [x];
    } else {
      assert (items + [x])[1..] == items[1..] + [x];
      JoinSnoc(items[1..], x, sep);
    }
  }

  /**
   * One step of a loop that appends item `i` after a separator unless it is
   * the first: the prefix of `i` items joined becomes the prefix of `i + 1`.
   */
  lemma JoinPrefixStep(items: seq<string>, i: nat, sep: string)
    requires i < |items|
    ensures Join(items[..i], sep) + (if i > 0 then sep else "") + items[i] == Join(items[..i + 1], sep)
  {
    assert items[..i + 1] == items[..i] + [items[i]];
    if i > 0 {
      JoinSnoc(items[..i], items[i], sep);
    }
  }

  /** Appending is associative; stated once so that proofs about appended output can regroup. */
  lemma AppendAssoc<T>(a: seq<T>, b: seq<T>, c: seq<T>)
    ensures (a + b) + c == a + (b + c)
  {
  }

  /** The length of a join: every item once, and one separator fewer than items. */
  lemma {:induction false} JoinLength(items: seq<string>, sep: string)
    requires |items| > 0
    ensures |Join(items, sep)| == Lengths(items) + (|items| - 1) * |sep|
  {
    if |items| > 1 {
      JoinLength(items[1..], sep);
    }
  }

  /** The summed lengths of the items. */
  function Lengths(items: seq<string>): nat
  {
    if items == [] then 0 else |items[0]| + Lengths(items[1..])
  }

  /** `level` copies of the four-space indent unit. */
  function Indentation(level: nat): string
  {
    if level == 0 then "" else Indentation(level - 1) + "    "
  }

  /** An indent of `level` levels is exactly `4 * level` spaces. */
  lemma {:induction false} IndentationIsFourSpacesPerLevel(level: nat)
    ensures |Indentation(level)| == 4 * level
    ensures forall i :: 0 <= i < |Indentation(level)| ==> Indentation(level)[i] == ' '
  {
    if level > 0 {
      IndentationIsFourSpacesPerLevel(level - 1);
    }
  }

  /** `n` newline characters; a count that is not positive gives none. */
  function Newlines(n: int): string
    decreases n
  {
    if n <= 0 then "" else Newlines(n - 1) + "\n"
  }

  /** `Newlines(n)` is made of newline characters only, `n` of them when `n` is positive. */
  lemma {:induction false} NewlinesShape(n: int)
    decreases n
    ensures |Newlines(n)| == if n > 0 then n else 0
    ensures forall i :: 0 <= i < |Newlines(n)| ==> Newlines(n)[i] == '\n'
  {
    if n > 0 {
      NewlinesShape(n - 1);
    }
  }
}
