/** Template literals: fixed text with values spliced in at "holes"
    (`${…}`). The injected scripts are of this shape. What the sources rely
    on is where each spliced value ends up, and that the fixed text sits
    unchanged between the holes. */
module Template {

  /** `parts[0] ${holes[0]} parts[1] ${holes[1]} … parts[n]`. */
  function Interpolate(parts: seq<string>, holes: seq<string>): string
    requires |parts| == |holes| + 1
    decreases |holes|
  {
    if |holes| == 0 then parts[0]
    else parts[0] + holes[0] + Interpolate(parts[1..], holes[1..])
  }

  /** `s` holds `v` starting at offset `o`. */
  predicate HoldsAt(s: string, o: nat, v: string) {
    o + |v| <= |s| && s[o..o + |v|] == v
  }

  /** `s` reads as the template: `parts[0]`, then `holes[0]`, then the rest
      of the text read the same way against the remaining parts and holes,
      ending exactly with the last part. */
  predicate Fills(s: string, parts: seq<string>, holes: seq<string>)
    requires |parts| == |holes| + 1
    decreases |holes|
  {
    if |holes| == 0 then s == parts[0]
    else
      && HoldsAt(s, 0, parts[0])
      && HoldsAt(s, |parts[0]|, holes[0])
      && Fills(s[|parts[0]| + |holes[0]|..], parts[1..], holes[1..])
  }

  /** Interpolation puts every fixed part and every spliced value in its
      place, and nothing else. */
  lemma {:induction false} InterpolateFills(parts: seq<string>, holes: seq<string>)
    requires |parts| == |holes| + 1
    ensures Fills(Interpolate(parts, holes), parts, holes)
    decreases |holes|
  {
    if |holes| > 0 {
      var rest := Interpolate(parts[1..], holes[1..]);
      var s := Interpolate(parts, holes);
      InterpolateFills(parts[1..], holes[1..]);
      assert s == parts[0] + holes[0] + rest;
      assert s[..|parts[0]|] == parts[0];
      assert s[|parts[0]|..|parts[0]| + |holes[0]|] == holes[0];
      assert s[|parts[0]| + |holes[0]|..] == rest;
    }
  }

  /** A text that reads as a two-hole template with the same value in both
      holes determines that value. */
  lemma SameValueTwiceDetermined(s: string, p: seq<string>, a: string, b: string)
    requires |p| == 3
    requires Fills(s, p, [a, a]) && Fills(s, p, [b, b])
    ensures a == b
  {
    var ra := s[|p[0]| + |a|..];
    var rb := s[|p[0]| + |b|..];
    assert [a, a][1..] == [a] && [b, b][1..] == [b];
    assert Fills(ra, p[1..], [a]) && Fills(rb, p[1..], [b]);
    assert p[1..][0] == p[1] && p[1..][1..] == [p[2]];
    assert Fills(ra[|p[1]| + |a|..], [p[2]], []) && Fills(rb[|p[1]| + |b|..], [p[2]], []);
    assert ra[|p[1]| + |a|..] == p[2] && rb[|p[1]| + |b|..] == p[2];
    assert |a| == |b|;
    assert s[|p[0]|..|p[0]| + |a|] == a;
  }

  /** A two-hole template is as long as its parts and its two values. */
  lemma TwoHoleLength(p: seq<string>, a: string, b: string)
    requires |p| == 3
    ensures |Interpolate(p, [a, b])| == |p[0]| + |p[1]| + |p[2]| + |a| + |b|
  {
    assert [a, b][1..] == [b];
    assert |Interpolate(p[1..], [b])| == |p[1]| + |b| + |p[2]|;
  }
}
