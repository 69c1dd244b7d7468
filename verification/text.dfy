/**
 * The two "yes" tests the decision policy applies to free-text answers.
 *
 * The feasibility gate asks whether the lower-cased answer IS "y"; the two
 * recommenders ask whether the lower-cased answer CONTAINS a 'y'. Both rest on
 * Python's str.lower(), modelled here on ASCII letters.
 */
module Text {

  /** Lower-cases one ASCII letter; every other character is left as it is. */
  function LowerChar(c: char): char {
    if 'A' <= c <= 'Z' then (c as int + 32) as char else c
  }

  /** The upper-case partner of a lower-case ASCII letter. */
  function UpperOf(c: char): char
    requires 'a' <= c <= 'z'
  {
    (c as int - 32) as char
  }

  /** str.lower(): the string with every character lower-cased, position by position. */
  function Lower(s: string): (r: string)
    ensures |r| == |s|
    ensures forall k :: 0 <= k < |s| ==> r[k] == LowerChar(s[k])
  {
    if s == [] then [] else [LowerChar(s[0])] + Lower(s[1..])
  }

  /** `c in s.lower()` for a lower-case letter c holds exactly when s holds c in either case. */
  lemma LowerContains(s: string, c: char)
    requires 'a' <= c <= 'z'
    ensures c in Lower(s) <==> c in s || UpperOf(c) in s
  {
    var r := Lower(s);
    if c in r {
      var k :| 0 <= k < |r| && r[k] == c;
      assert s[k] == c || s[k] == UpperOf(c);
    }
    if c in s {
      var k :| 0 <= k < |s| && s[k] == c;
      assert r[k] == c;
    }
    if UpperOf(c) in s {
      var k :| 0 <= k < |s| && s[k] == UpperOf(c);
      assert r[k] == c;
    }
  }

  /** `'y' in s.lower()`: the yes-test of the two recommenders. */
  predicate HasYes(s: string)
    ensures HasYes(s) <==> 'y' in s || 'Y' in s
  {
    LowerContains(s, 'y');
    'y' in Lower(s)
  }

  /** `s.lower() == 'y'`: the yes-test of the feasibility gate. */
  predicate IsYes(s: string)
    ensures IsYes(s) <==> s == "y" || s == "Y"
  {
    ExactYes(s);
    Lower(s) == "y"
  }

  /** Only the one-letter answers "y" and "Y" lower-case to "y". */
  lemma ExactYes(s: string)
    ensures Lower(s) == "y" <==> s == "y" || s == "Y"
  {
    if Lower(s) == "y" {
      assert |s| == 1;
      assert LowerChar(s[0]) == 'y';
      assert s == [s[0]];
    }
    if s == "y" || s == "Y" {
      assert Lower(s)[0] == 'y';
    }
  }

  /** The two tests disagree on longer answers: "yes" is a yes only for the recommenders. */
  lemma YesTestsDiffer()
    ensures HasYes("yes") && !IsYes("yes")
    ensures HasYes("Y") && IsYes("Y") && IsYes("y")
    ensures !HasYes("N") && !HasYes("NA") && !HasYes("U") && !IsYes("U")
  {
    assert "yes"[0] == 'y';
    assert "Y"[0] == 'Y';
  }
}
