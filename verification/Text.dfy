/** Trimming a string of the characters its language counts as white space. */
module Text {
  function TrimLeft(s: string, space: char -> bool): string {
    if s != [] && space(s[0]) then TrimLeft(s[1..], space) else s
  }

  function TrimRight(s: string, space: char -> bool): string {
    if s != [] && space(s[|s| - 1]) then TrimRight(s[..|s| - 1], space) else s
  }

  function Trim(s: string, space: char -> bool): string {
    TrimRight(TrimLeft(s, space), space)
  }

  lemma {:induction false} TrimLeftShape(s: string, space: char -> bool)
    ensures |TrimLeft(s, space)| <= |s| && TrimLeft(s, space) == s[|s| - |TrimLeft(s, space)|..]
    ensures TrimLeft(s, space) != [] ==> !space(TrimLeft(s, space)[0])
    ensures forall i :: 0 <= i < |s| - |TrimLeft(s, space)| ==> space(s[i])
  {
    if s != [] && space(s[0]) {
      TrimLeftShape(s[1..], space);
    }
  }

  lemma {:induction false} TrimRightShape(s: string, space: char -> bool)
    ensures TrimRight(s, space) <= s
    ensures TrimRight(s, space) != [] ==> !space(TrimRight(s, space)[|TrimRight(s, space)| - 1])
    ensures forall i :: |TrimRight(s, space)| <= i < |s| ==> space(s[i])
  {
    if s != [] && space(s[|s| - 1]) {
      TrimRightShape(s[..|s| - 1], space);
    }
  }

  /** The trimmed form is a part of the string without white space at its ends. */
  lemma TrimShape(s: string, space: char -> bool)
    ensures |Trim(s, space)| <= |s|
    ensures Trim(s, space) != [] ==> !space(Trim(s, space)[0]) && !space(Trim(s, space)[|Trim(s, space)| - 1])
  {
    TrimLeftShape(s, space);
    TrimRightShape(TrimLeft(s, space), space);
  }

  predicate Blank(s: string, space: char -> bool) {
    forall i :: 0 <= i < |s| ==> space(s[i])
  }

  /** What trimming takes away, in front and behind, is white space. */
  lemma TrimKeeps(s: string, space: char -> bool) returns (front: string, back: string)
    ensures s == front + Trim(s, space) + back && Blank(front, space) && Blank(back, space)
  {
    var left := TrimLeft(s, space);
    TrimLeftShape(s, space);
    TrimRightShape(left, space);
    front, back := s[..|s| - |left|], left[|Trim(s, space)|..];
    assert s == front + left;
  }

  /** A string is its own trimmed form exactly when no white space is at either end. */
  lemma TrimmedIff(s: string, space: char -> bool)
    ensures Trim(s, space) == s <==> s == [] || (!space(s[0]) && !space(s[|s| - 1]))
  {
    TrimShape(s, space);
  }

  lemma TrimTwice(s: string, space: char -> bool)
    ensures Trim(Trim(s, space), space) == Trim(s, space)
  {
    TrimShape(s, space);
    TrimmedIff(Trim(s, space), space);
  }
}
