/** The two Python string methods the character builder relies on, and the
    `str.join` used to list the valid options in an error message. */
module PyText {

  /** Python's `str.lower` and `str.strip`. Unicode case mapping and
      whitespace classification are not modelled: any pair of total string
      functions may stand for them. */
  datatype StrOps = StrOps(lower: string -> string, strip: string -> string)

  /** The one fact about `str.strip` the model relies on: stripping the empty
      string gives the empty string. */
  type Ops = o: StrOps | o.strip("") == "" witness StrOps(s => s, s => s)

  /** Python's `x in xs` on a list: compare `x` with each entry in turn. */
  function ListContains(xs: seq<string>, x: string): (r: bool)
    ensures r <==> exists k :: 0 <= k < |xs| && xs[k] == x
  {
    if |xs| == 0 then false
    else xs[0] == x || ListContains(xs[1..], x)
  }

  /** Python's `sep.join(xs)`. */
  function Join(sep: string, xs: seq<string>): (r: string)
    ensures |xs| == 0 ==> r == ""
    ensures |xs| > 0 ==> |xs[0]| <= |r| && r[..|xs[0]|] == xs[0]
    ensures |xs| > 0 ==> |xs[|xs| - 1]| <= |r| && r[|r| - |xs[|xs| - 1]|..] == xs[|xs| - 1]
  {
    if |xs| == 0 then ""
    else if |xs| == 1 then xs[0]
    else
      var rest := Join(sep, xs[1..]);
      var r := xs[0] + sep + rest;
      assert r[|r| - |rest|..] == rest;
      r
  }

  /** `needle` occurs in `hay` starting at index `i`. */
  predicate OccursAt(needle: string, hay: string, i: int) {
    0 <= i && i + |needle| <= |hay| && hay[i..i + |needle|] == needle
  }

  /** `needle` occurs somewhere in `hay`. */
  predicate Mentions(hay: string, needle: string) {
    exists i | 0 <= i <= |hay| :: OccursAt(needle, hay, i)
  }

  lemma OccursAfterPrefix(needle: string, prefix: string, hay: string, i: int)
    requires OccursAt(needle, hay, i)
    ensures OccursAt(needle, prefix + hay, |prefix| + i)
  {
    assert (prefix + hay)[|prefix| + i..|prefix| + i + |needle|] == hay[i..i + |needle|];
  }

  /** Every entry of a joined list can be found in the joined string. */
  lemma {:induction false} JoinContainsEach(sep: string, xs: seq<string>, k: int)
    requires 0 <= k < |xs|
    ensures Mentions(Join(sep, xs), xs[k])
  {
    if |xs| == 1 {
      assert OccursAt(xs[k], Join(sep, xs), 0);
    } else if k == 0 {
      var j := Join(sep, xs);
      assert j == xs[0] + (sep + Join(sep, xs[1..]));
      assert j[0..|xs[0]|] == xs[0];
      assert OccursAt(xs[k], j, 0);
    } else {
      JoinContainsEach(sep, xs[1..], k - 1);
      var i :| OccursAt(xs[1..][k - 1], Join(sep, xs[1..]), i);
      OccursAfterPrefix(xs[k], xs[0] + sep, Join(sep, xs[1..]), i);
      assert Join(sep, xs) == (xs[0] + sep) + Join(sep, xs[1..]);
    }
  }
}
