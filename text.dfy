/**
 The two string operations the classifier is built from: case folding
 (`String.prototype.toLowerCase`) and substring search
 (`String.prototype.includes`). Case folding is modelled over ASCII: the
 capitals 'A'..'Z' become 'a'..'z' and every other character is kept.
 */
module Text {

  /** True of the 26 ASCII capital letters. */
  predicate IsUpper(c: char) {
    'A' <= c <= 'Z'
  }

  /** True of a string in which no ASCII capital letter is left. */
  predicate IsLowerCase(s: string) {
    forall i :: 0 <= i < |s| ==> !IsUpper(s[i])
  }

  /** The lower-case counterpart of one character. */
  function LowerChar(c: char): (d: char)
    ensures !IsUpper(d)
    ensures !IsUpper(c) ==> d == c
    ensures IsUpper(c) ==> 'a' <= d <= 'z' && d as int - 'a' as int == c as int - 'A' as int
  {
    if IsUpper(c) then (c as int - 'A' as int + 'a' as int) as char else c
  }

  /** `toLowerCase`: folds every character, keeps the length. */
  function Lower(s: string): (r: string)
    ensures |r| == |s|
    ensures forall i :: 0 <= i < |s| ==> r[i] == LowerChar(s[i])
    ensures IsLowerCase(r)
  {
    if s == [] then [] else [LowerChar(s[0])] + Lower(s[1..])
  }

  /** A string without capitals is its own lower case. */
  lemma LowerOfLowerCase(s: string)
    requires IsLowerCase(s)
    ensures Lower(s) == s
  {
    assert forall i :: 0 <= i < |s| ==> Lower(s)[i] == s[i];
  }

  /** Folding twice is folding once. */
  lemma LowerIdempotent(s: string)
    ensures Lower(Lower(s)) == Lower(s)
  {
    LowerOfLowerCase(Lower(s));
  }

  /** Folding distributes over concatenation. */
  lemma {:induction false} LowerAppend(a: string, b: string)
    ensures Lower(a + b) == Lower(a) + Lower(b)
  {
    if a == [] {
      assert a + b == b;
    } else {
      assert (a + b)[1..] == a[1..] + b;
      LowerAppend(a[1..], b);
    }
  }

  /** A lower-case letter is absent from the folding of a string lacking both its cases. */
  lemma LowerAvoids(s: string, c: char)
    requires 'a' <= c <= 'z'
    requires c !in s && (c as int - 'a' as int + 'A' as int) as char !in s
    ensures c !in Lower(s)
  {
    forall i | 0 <= i < |s| ensures Lower(s)[i] != c {
      assert s[i] in s;
    }
  }

  /** `needle` occurs in `hay` starting at position `i`. */
  predicate MatchesAt(hay: string, needle: string, i: int) {
    0 <= i && i + |needle| <= |hay| && hay[i..i + |needle|] == needle
  }

  /** The meaning of `hay.includes(needle)`: some position holds `needle`. */
  ghost predicate Occurs(hay: string, needle: string) {
    exists i :: MatchesAt(hay, needle, i)
  }

  /** An occurrence in `hay` is either at its head or an occurrence in its tail. */
  lemma OccursStep(hay: string, needle: string)
    requires |needle| <= |hay| && 0 < |hay|
    ensures Occurs(hay, needle) <==> hay[..|needle|] == needle || Occurs(hay[1..], needle)
  {
    if Occurs(hay, needle) {
      var i :| MatchesAt(hay, needle, i);
      if i > 0 {
        assert hay[1..][i - 1..i - 1 + |needle|] == hay[i..i + |needle|];
        assert MatchesAt(hay[1..], needle, i - 1);
      }
    }
    if hay[..|needle|] == needle {
      assert MatchesAt(hay, needle, 0);
    }
    if Occurs(hay[1..], needle) {
      var j :| MatchesAt(hay[1..], needle, j);
      assert hay[1..][j..j + |needle|] == hay[j + 1..j + 1 + |needle|];
      assert MatchesAt(hay, needle, j + 1);
    }
  }

  /** A needle placed between two strings occurs in the result. */
  lemma OccursBetween(a: string, needle: string, b: string)
    ensures Occurs(a + needle + b, needle)
  {
    assert (a + needle + b)[|a|..|a| + |needle|] == needle;
    assert MatchesAt(a + needle + b, needle, |a|);
  }

  /** A needle longer than the hay occurs nowhere in it. */
  lemma TooLongNeverOccurs(hay: string, needle: string)
    requires |hay| < |needle|
    ensures !Occurs(hay, needle)
  {
    forall i ensures !MatchesAt(hay, needle, i) {
    }
  }

  /** `hay.includes(needle)`, computed by trying each position in turn. */
  function Includes(hay: string, needle: string): (b: bool)
    ensures b <==> Occurs(hay, needle)
    decreases |hay|
  {
    if |hay| < |needle| then
      TooLongNeverOccurs(hay, needle);
      false
    else if hay[..|needle|] == needle then
      assert MatchesAt(hay, needle, 0);
      true
    else
      OccursStep(hay, needle);
      Includes(hay[1..], needle)
  }

  /** A needle holding a character that the hay lacks occurs nowhere in it. */
  lemma MissingCharNeverOccurs(hay: string, needle: string, c: char)
    requires c in needle && c !in hay
    ensures !Occurs(hay, needle)
  {
    var k :| 0 <= k < |needle| && needle[k] == c;
    forall i ensures !MatchesAt(hay, needle, i) {
      if 0 <= i && i + |needle| <= |hay| {
        assert hay[i..i + |needle|][k] == hay[i + k];
      }
    }
  }

  /** Some keyword of the list occurs in the text. */
  ghost predicate MentionsAny(text: string, keywords: seq<string>) {
    exists k :: k in keywords && Occurs(text, k)
  }

  /**
   `text.includes(k0) || text.includes(k1) || ...`, evaluated left to
   right with short-circuit, as the classifier writes it.
   */
  function IncludesAny(text: string, keywords: seq<string>): (b: bool)
    ensures b <==> MentionsAny(text, keywords)
  {
    if keywords == [] then
      false
    else
      assert forall k :: k in keywords <==> k == keywords[0] || k in keywords[1..];
      Includes(text, keywords[0]) || IncludesAny(text, keywords[1..])
  }
}
