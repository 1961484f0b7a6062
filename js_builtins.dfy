/** The built-in operations the collector relies on:
    `String.prototype.includes`, `Array.prototype.map` with an index, and
    `Array.prototype.join`. */
module JsBuiltins {

  /** `needle` occurs in `hay` starting at offset `k`. */
  predicate OccursAt(hay: string, needle: string, k: nat) {
    k + |needle| <= |hay| && hay[k..k + |needle|] == needle
  }

  /** `hay.includes(needle)`: `needle` is a prefix of `hay` or of one of its
      suffixes. The empty string is included in every string. */
  function Includes(hay: string, needle: string): (r: bool)
    ensures needle == [] ==> r
    ensures r ==> |needle| <= |hay|
    decreases |hay|
  {
    needle <= hay || (|hay| > 0 && Includes(hay[1..], needle))
  }

  /** An occurrence in the tail of `hay` is an occurrence in `hay` one
      offset further on, and conversely. */
  lemma OccursAtShift(hay: string, needle: string, k: nat)
    requires |hay| > 0
    ensures OccursAt(hay[1..], needle, k) <==> OccursAt(hay, needle, k + 1)
  {
    if k + 1 + |needle| <= |hay| {
      assert hay[1..][k..k + |needle|] == hay[k + 1..k + 1 + |needle|];
    }
  }

  /** Includes agrees with the offset-based definition, in both directions. */
  lemma {:induction false} IncludesIff(hay: string, needle: string)
    ensures Includes(hay, needle) <==> exists k: nat :: OccursAt(hay, needle, k)
  {
    if needle <= hay {
      assert OccursAt(hay, needle, 0);
    } else if |hay| == 0 {
      assert |needle| > 0;
    } else {
      IncludesIff(hay[1..], needle);
      if Includes(hay[1..], needle) {
        var k: nat :| OccursAt(hay[1..], needle, k);
        OccursAtShift(hay, needle, k);
      } else {
        forall k: nat ensures !OccursAt(hay, needle, k) {
          if k > 0 {
            OccursAtShift(hay, needle, k - 1);
          }
        }
      }
    }
  }

  /** Whatever a string includes, it still includes after text is put after it. */
  lemma {:induction false} IncludesExtendRight(a: string, b: string, needle: string)
    requires Includes(a, needle)
    ensures Includes(a + b, needle)
    decreases |a|
  {
    if needle <= a {
      assert needle <= a + b;
    } else {
      assert (a + b)[1..] == a[1..] + b;
      IncludesExtendRight(a[1..], b, needle);
    }
  }

  /** Whatever a string includes, it still includes after text is put before it. */
  lemma {:induction false} IncludesExtendLeft(a: string, b: string, needle: string)
    requires Includes(b, needle)
    ensures Includes(a + b, needle)
    decreases |a|
  {
    if a == [] {
      assert a + b == b;
    } else {
      assert (a + b)[1..] == a[1..] + b;
      IncludesExtendLeft(a[1..], b, needle);
    }
  }

  /** A text is included in any text that has it in the middle. */
  lemma IncludesMiddle(front: string, middle: string, back: string)
    ensures Includes(front + middle + back, middle)
  {
    assert Includes(middle, middle);
    IncludesExtendRight(middle, back, middle);
    IncludesExtendLeft(front, middle + back, middle);
    assert front + middle + back == front + (middle + back);
  }

  /** Both texts placed between fixed pieces are included in the whole. */
  lemma IncludesBothParts(front: string, x: string, middle: string, y: string)
    ensures Includes(front + x + middle + y, x) && Includes(front + x + middle + y, y)
  {
    IncludesMiddle(front, x, middle + y);
    assert front + x + middle + y == front + x + (middle + y);
    IncludesMiddle(front + x + middle, y, "");
    assert front + x + middle + y == front + x + middle + y + "";
  }

  /** `items.map((item, index) => f(index, item))` */
  function MapIndexed<T, U>(items: seq<T>, f: (nat, T) -> U): (r: seq<U>)
    ensures |r| == |items|
  {
    seq(|items|, i requires 0 <= i < |items| => f(i, items[i]))
  }

  /** Mapping one more item adds its image, at its own index, at the end. */
  lemma MapIndexedSnoc<T, U>(items: seq<T>, f: (nat, T) -> U, last: T)
    ensures MapIndexed(items + [last], f) == MapIndexed(items, f) + [f(|items|, last)]
  {
    var longer := MapIndexed(items + [last], f);
    var expected := MapIndexed(items, f) + [f(|items|, last)];
    forall i | 0 <= i < |longer| ensures longer[i] == expected[i] {
      if i < |items| {
        assert (items + [last])[i] == items[i];
      }
    }
  }

  /** `parts.join(sep)`: the parts in order with `sep` between neighbours;
      the empty array joins to the empty string. */
  function Join(parts: seq<string>, sep: string): (r: string)
    ensures parts == [] ==> r == []
    ensures |parts| == 1 ==> r == parts[0]
    ensures |parts| >= 1 ==> parts[0] <= r
    decreases |parts|
  {
    if |parts| == 0 then ""
    else if |parts| == 1 then parts[0]
    else parts[0] + sep + Join(parts[1..], sep)
  }

  /** Joining one more part adds the separator and that part at the end. */
  lemma {:induction false} JoinSnoc(parts: seq<string>, sep: string, last: string)
    requires |parts| >= 1
    ensures Join(parts + [last], sep) == Join(parts, sep) + sep + last
    decreases |parts|
  {
    if |parts| == 1 {
      assert (parts + [last])[1..] == [last];
    } else {
      assert (parts + [last])[1..] == parts[1..] + [last];
      JoinSnoc(parts[1..], sep, last);
    }
  }

  /** Every part is included in the joined text. */
  lemma {:induction false} JoinIncludesPart(parts: seq<string>, sep: string, i: nat)
    requires i < |parts|
    ensures Includes(Join(parts, sep), parts[i])
    decreases |parts|
  {
    if |parts| == 1 {
      assert Join(parts, sep) == parts[0];
      assert parts[i] <= parts[0];
    } else if i == 0 {
      assert parts[0] <= Join(parts, sep);
    } else {
      JoinIncludesPart(parts[1..], sep, i - 1);
      IncludesExtendLeft(parts[0] + sep, Join(parts[1..], sep), parts[i]);
    }
  }
}
