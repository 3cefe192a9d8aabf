/** Text matching used by every search box of the dashboard: the search term
    and the designated fields are lower-cased and the term must occur in a field.
    Lower-casing is modelled on ASCII letters only; Hebrew letters, digits and
    punctuation have no case and are left unchanged. */
module Text {

  /** Lower-cases one character: 'A'..'Z' become 'a'..'z', everything else is kept. */
  function LowerChar(c: char): (r: char)
    ensures 'A' <= c <= 'Z' ==> 'a' <= r <= 'z' && r as int == c as int + 32
    ensures !('A' <= c <= 'Z') ==> r == c
  {
    if 'A' <= c <= 'Z' then (c as int + 32) as char else c
  }

  /** String.prototype.toLowerCase, restricted to ASCII. */
  function Lower(s: string): (r: string)
    ensures |r| == |s|
    ensures forall i :: 0 <= i < |s| ==> r[i] == LowerChar(s[i])
  {
    if s == [] then [] else [LowerChar(s[0])] + Lower(s[1..])
  }

  predicate HasNoUpperAscii(s: string)
  {
    forall i :: 0 <= i < |s| ==> !('A' <= s[i] <= 'Z')
  }

  /** Lower-casing twice is lower-casing once. */
  lemma LowerIdempotent(s: string)
    ensures Lower(Lower(s)) == Lower(s)
  {
  }

  /** A string without ASCII capitals (every Hebrew string) is its own lower case. */
  lemma {:induction false} LowerKeepsUncased(s: string)
    requires HasNoUpperAscii(s)
    ensures Lower(s) == s
  {
    if s != [] {
      assert HasNoUpperAscii(s[1..]) by {
        forall i | 0 <= i < |s[1..]| ensures !('A' <= s[1..][i] <= 'Z') {
          assert s[1..][i] == s[i + 1];
        }
      }
      LowerKeepsUncased(s[1..]);
    }
  }

  /** `needle` occurs in `hay` starting at position `i`. */
  predicate OccursAt(hay: string, needle: string, i: int)
  {
    0 <= i && i + |needle| <= |hay| && hay[i..i + |needle|] == needle
  }

  predicate IsPrefix(needle: string, hay: string)
  {
    |needle| <= |hay| && hay[..|needle|] == needle
  }

  /** String.prototype.includes: scans the start positions left to right.
      Its contract is the declarative meaning, "some position holds the needle". */
  function Contains(hay: string, needle: string): (r: bool)
    ensures r <==> exists i :: OccursAt(hay, needle, i)
    decreases |hay|
  {
    if IsPrefix(needle, hay) then
      assert OccursAt(hay, needle, 0);
      true
    else if hay == [] then
      false
    else
      var rest := Contains(hay[1..], needle);
      assert forall i :: OccursAt(hay[1..], needle, i) ==> OccursAt(hay, needle, i + 1) by {
        forall i | OccursAt(hay[1..], needle, i) ensures OccursAt(hay, needle, i + 1) {
          assert hay[1..][i..i + |needle|] == hay[i + 1..i + 1 + |needle|];
        }
      }
      assert forall i :: OccursAt(hay, needle, i) && i > 0 ==> OccursAt(hay[1..], needle, i - 1) by {
        forall i | OccursAt(hay, needle, i) && i > 0 ensures OccursAt(hay[1..], needle, i - 1) {
          assert hay[1..][i - 1..i - 1 + |needle|] == hay[i..i + |needle|];
        }
      }
      assert OccursAt(hay, needle, 0) ==> IsPrefix(needle, hay);
      rest
  }

  /** The empty search term occurs in every field. */
  lemma EmptyOccursEverywhere(hay: string)
    ensures Contains(hay, "")
  {
    assert OccursAt(hay, "", 0);
  }

  /** A term holding a character that the field lacks cannot occur in it. */
  lemma MissingCharNotContained(hay: string, needle: string, c: char)
    requires c in needle && c !in hay
    ensures !Contains(hay, needle)
  {
  }

  /** Lower-casing creates no character other than an ASCII lower-case letter:
      any other character absent from a field is absent from its lower case. */
  lemma LowerKeepsNonLetterAbsent(s: string, c: char)
    requires !('a' <= c <= 'z') && c !in s
    ensures c !in Lower(s)
  {
  }

  /** Lower-casing both sides keeps an occurrence where it was. */
  lemma {:induction false} LowerKeepsOccurrence(hay: string, needle: string, i: int)
    requires OccursAt(hay, needle, i)
    ensures OccursAt(Lower(hay), Lower(needle), i)
    ensures Contains(Lower(hay), Lower(needle))
  {
    var lh, ln := Lower(hay), Lower(needle);
    forall k | 0 <= k < |needle| ensures lh[i..i + |needle|][k] == ln[k] {
      calc {
        lh[i..i + |needle|][k];
        lh[i + k];
        LowerChar(hay[i + k]);
        { assert hay[i + k] == hay[i..i + |needle|][k]; }
        LowerChar(needle[k]);
        ln[k];
      }
    }
    assert lh[i..i + |needle|] == ln;
    assert OccursAt(lh, ln, i);
    assert exists j :: OccursAt(lh, ln, j);
  }

  /** A term with a character that is no ASCII letter and is missing from the field
      does not occur in the field, whatever the case of either. */
  lemma {:induction false} NoOccurrenceWithoutChar(hay: string, needle: string, c: char)
    requires c in needle && !('A' <= c <= 'Z') && !('a' <= c <= 'z') && c !in hay
    ensures !Contains(Lower(hay), Lower(needle))
  {
    LowerKeepsNonLetterAbsent(hay, c);
    var k :| 0 <= k < |needle| && needle[k] == c;
    assert Lower(needle)[k] == c;
    MissingCharNotContained(Lower(hay), Lower(needle), c);
  }
}
