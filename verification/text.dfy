/** Case-insensitive substring search as the pages perform it:
    `field.toLowerCase().includes(term.toLowerCase())`. */
module Text {

  /** Lower-cases one ASCII letter; every other character is left alone. */
  function LowerChar(c: char): char {
    if 'A' <= c <= 'Z' then (c as int - 'A' as int + 'a' as int) as char else c
  }

  /** `String.prototype.toLowerCase`, restricted to ASCII letters. */
  function Lower(s: string): (r: string)
    ensures |r| == |s|
    ensures forall i :: 0 <= i < |s| ==> r[i] == LowerChar(s[i])
    ensures forall i :: 0 <= i < |r| ==> !('A' <= r[i] <= 'Z')
  {
    seq(|s|, i requires 0 <= i < |s| => LowerChar(s[i]))
  }

  /** `needle` occurs in `hay` starting at position `i`. */
  predicate OccursAt(needle: string, hay: string, i: int) {
    0 <= i && i + |needle| <= |hay| && hay[i..i + |needle|] == needle
  }

  /** Declarative meaning of `hay.includes(needle)`: `needle` occurs at some position. */
  ghost predicate IsSubstring(needle: string, hay: string) {
    exists i :: OccursAt(needle, hay, i)
  }

  predicate StartsWith(s: string, prefix: string) {
    |prefix| <= |s| && s[..|prefix|] == prefix
  }

  /** `hay.includes(needle)`, computed by trying every start position from the left. */
  function Includes(hay: string, needle: string): (b: bool)
    decreases |hay|
    ensures b <==> IsSubstring(needle, hay)
  {
    if StartsWith(hay, needle) then
      assert OccursAt(needle, hay, 0);
      true
    else if |hay| == 0 then
      false
    else
      var b := Includes(hay[1..], needle);
      assert b ==> IsSubstring(needle, hay) by {
        if b {
          var i :| OccursAt(needle, hay[1..], i);
          assert hay[i + 1..i + 1 + |needle|] == hay[1..][i..i + |needle|];
          assert OccursAt(needle, hay, i + 1);
        }
      }
      assert IsSubstring(needle, hay) ==> b by {
        if IsSubstring(needle, hay) {
          var i :| OccursAt(needle, hay, i);
          assert i != 0;
          assert hay[1..][i - 1..i - 1 + |needle|] == hay[i..i + |needle|];
          assert OccursAt(needle, hay[1..], i - 1);
        }
      }
      b
  }

  /** The empty search term occurs in every text. */
  lemma IncludesEmpty(hay: string)
    ensures Includes(hay, "")
  {
    assert hay[0..0] == "";
  }

  /** Every text contains itself. */
  lemma IncludesSelf(s: string)
    ensures Includes(s, s)
  {
    assert s[0..|s|] == s;
  }
}
