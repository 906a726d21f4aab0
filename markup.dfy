/**
 * Markup strings and the generic list-to-markup helpers of the dashboard:
 * `joinMapperFunction` (map every item to markup and join with '') and
 * `wrappingDivFunction` (put that output inside a `<div class="...">`).
 *
 * Beside them are the small readers (`Expect`, `Until`, `Inside`) with which
 * the rendered strings are decoded again, so that what the renderer puts in
 * a page can be stated as a round trip.
 */
module Markup {
  import opened Wrappers

  // ---------------------------------------------------------------- readers

  /** Consumes the literal `p` from the front of `s`. */
  function Expect(p: string, s: string): (r: Option<string>)
    ensures r.Some? <==> p <= s
    ensures r.Some? ==> s == p + r.value
  {
    if p <= s then Some(s[|p|..]) else None
  }

  /** Splits `s` just before the first occurrence of `c` (all of `s` if there is none). */
  function Until(s: string, c: char): (r: (string, string))
    ensures r.0 + r.1 == s
    ensures c !in r.0
    ensures r.1 == [] || r.1[0] == c
  {
    if s == [] then ([], [])
    else if s[0] == c then ([], s)
    else
      var (field, rest) := Until(s[1..], c);
      ([s[0]] + field, rest)
  }

  /** The text between the fixed `open` and `close` of `s`, if `s` has both. */
  function Inside(open: string, close: string, s: string): (r: Option<string>)
    ensures r.Some? ==> s == open + r.value + close
  {
    if |open| + |close| <= |s| && open <= s && s[|s| - |close|..] == close
    then Some(s[|open|..|s| - |close|])
    else None
  }

  /** The split point is the first `c`: `Until` never looks past it. */
  lemma {:induction false} UntilSplit(field: string, c: char, rest: string)
    requires c !in field
    requires rest == [] || rest[0] == c
    ensures Until(field + rest, c) == (field, rest)
  {
    if field == [] {
      assert field + rest == rest;
    } else {
      assert (field + rest)[0] == field[0] != c;
      assert (field + rest)[1..] == field[1..] + rest;
      UntilSplit(field[1..], c, rest);
      assert [field[0]] + field[1..] == field;
    }
  }

  lemma ExpectPrefix(p: string, rest: string)
    ensures Expect(p, p + rest) == Some(rest)
  {
  }

  /** Concatenation regrouped to the right, the shape in which the readers consume it. */
  lemma Regroup(a: string, b: string, t: string)
    ensures (a + b) + t == a + (b + t)
  {
  }

  lemma InsideEnclosed(open: string, inner: string, close: string)
    ensures Inside(open, close, open + inner + close) == Some(inner)
  {
    var s := open + inner + close;
    assert s[..|open|] == open;
    assert s[|s| - |close|..] == close;
    assert s[|open|..|s| - |close|] == inner;
  }

  // ------------------------------------------------------- joinMapperFunction

  /** `parts.join('')` */
  function Join(parts: seq<string>): string
  {
    if parts == [] then "" else parts[0] + Join(parts[1..])
  }

  /** `mapThis.map(f)` */
  function MapSeq<T, U>(items: seq<T>, f: T -> U): (r: seq<U>)
    ensures |r| == |items|
    ensures forall i :: 0 <= i < |items| ==> r[i] == f(items[i])
  {
    seq(|items|, i requires 0 <= i < |items| => f(items[i]))
  }

  /** `joinMapperFunction`: every item's markup, in list order, joined with ''. */
  function JoinMap<T>(items: seq<T>, maker: T -> string): (r: string)
    ensures items == [] ==> r == ""
    ensures |items| > 0 ==> r == maker(items[0]) + Join(MapSeq(items[1..], maker))
  {
    assert |items| > 0 ==> MapSeq(items, maker)[1..] == MapSeq(items[1..], maker);
    Join(MapSeq(items, maker))
  }

  lemma {:induction false} JoinAppend(a: seq<string>, b: seq<string>)
    ensures Join(a + b) == Join(a) + Join(b)
  {
    if a == [] {
      assert a + b == b;
    } else {
      assert (a + b)[1..] == a[1..] + b;
      JoinAppend(a[1..], b);
    }
  }

  /** A list's markup, and the text after it, read as the first item's markup and then the rest. */
  lemma JoinMapConsThen<T>(items: seq<T>, maker: T -> string, t: string)
    requires |items| > 0
    ensures JoinMap(items, maker) + t == maker(items[0]) + (JoinMap(items[1..], maker) + t)
  {
    Regroup(maker(items[0]), JoinMap(items[1..], maker), t);
  }

  /** Markup of a concatenated list is the concatenation of the markups. */
  lemma JoinMapAppend<T>(xs: seq<T>, ys: seq<T>, maker: T -> string)
    ensures JoinMap(xs + ys, maker) == JoinMap(xs, maker) + JoinMap(ys, maker)
  {
    assert MapSeq(xs + ys, maker) == MapSeq(xs, maker) + MapSeq(ys, maker);
    JoinAppend(MapSeq(xs, maker), MapSeq(ys, maker));
  }

  /**
   * Item `i`'s markup sits right after the joined markup of the items before
   * it, and the joined markup of the first `i + 1` items is exactly that.
   */
  lemma JoinMapSegment<T>(items: seq<T>, maker: T -> string, i: nat)
    requires i < |items|
    ensures var lo := |JoinMap(items[..i], maker)|;
      lo + |maker(items[i])| <= |JoinMap(items, maker)| &&
      JoinMap(items, maker)[..lo] == JoinMap(items[..i], maker) &&
      JoinMap(items, maker)[lo..lo + |maker(items[i])|] == maker(items[i]) &&
      JoinMap(items[..i + 1], maker) == JoinMap(items[..i], maker) + maker(items[i])
  {
    var before, here, after := items[..i], [items[i]], items[i + 1..];
    assert items == before + here + after;
    JoinMapAppend(before + here, after, maker);
    JoinMapAppend(before, here, maker);
    assert here[1..] == [];
    assert JoinMap(here, maker) == maker(items[i]);
    assert items[..i + 1] == before + here;
  }

  // ------------------------------------------------------ wrappingDivFunction

  function DivOpen(divClass: string): string
  {
    "<div class=\"" + divClass + "\">"
  }

  const DivClose: string := "</div >"

  /**
   * `wrappingDivFunction`: the mapper's output for these items, inside a div
   * whose class is `divClass`.
   */
  function WrappingDiv<T>(divClass: string, mapper: (seq<T>, T -> string) -> string,
                          items: seq<T>, maker: T -> string): (r: string)
    ensures Inside(DivOpen(divClass), DivClose, r) == Some(mapper(items, maker))
  {
    InsideEnclosed(DivOpen(divClass), mapper(items, maker), DivClose);
    DivOpen(divClass) + mapper(items, maker) + DivClose
  }
}
