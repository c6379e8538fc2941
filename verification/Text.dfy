/** White space, as trimming removes it. */
module Text {
  predicate Space(c: char) {
    var n := c as int;
    9 <= n <= 13 || n == 32 || n == 0xA0 || n == 0x1680 || 0x2000 <= n <= 0x200A || n == 0x2028 || n == 0x2029
    || n == 0x202F || n == 0x205F || n == 0x3000 || n == 0xFEFF
  }

  function Trim(s: string): string
    decreases |s|
  {
    if s == [] then s
    else if Space(s[0]) then Trim(s[1..])
    else if Space(s[|s| - 1]) then Trim(s[..|s| - 1])
    else s
  }

  /** A usable identifier: not empty, and not padded. */
  predicate Stable(s: string) {
    s != "" && !Space(s[0]) && !Space(s[|s| - 1])
  }

  /** Every character the language counts as white space. */
  const SPACES := "\t\n\U{b}\U{c}\r \U{a0}\U{1680}\U{2000}\U{2001}\U{2002}\U{2003}\U{2004}\U{2005}\U{2006}\U{2007}\U{2008}\U{2009}\U{200a}\U{2028}\U{2029}\U{202f}\U{205f}\U{3000}\U{feff}"

  predicate White(c: char) {
    c in SPACES
  }

  ghost predicate Blank(s: string) {
    forall i :: 0 <= i < |s| ==> White(s[i])
  }

  /** Nothing but white space is around the text, at either end. */
  ghost predicate Around(s: string, before: string, text: string, after: string) {
    s == before + text + after && Blank(before) && Blank(after)
  }

  lemma SpaceIff(c: char)
    ensures Space(c) <==> White(c)
  {
    if Space(c) {
      var n := c as int;
      var k := if n <= 13 then n - 9 else if n == 32 then 5 else if n == 0xA0 then 6 else if n == 0x1680 then 7
               else if n <= 0x200A then n - 0x2000 + 8 else if n == 0x2028 then 19 else if n == 0x2029 then 20
               else if n == 0x202F then 21 else if n == 0x205F then 22 else if n == 0x3000 then 23 else 24;
      assert SPACES[k] == c;
    }
  }

  /** A usable identifier begins and ends with something that is not white space. */
  lemma StableIff(s: string)
    ensures Stable(s) <==> s != "" && !White(s[0]) && !White(s[|s| - 1])
  {
    if s != "" {
      SpaceIff(s[0]);
      SpaceIff(s[|s| - 1]);
    }
  }

  lemma OneMoreBefore(s: string, before: string, text: string, after: string)
    requires s != "" && White(s[0]) && Around(s[1..], before, text, after)
    ensures Around(s, [s[0]] + before, text, after)
  {
    calc {
      s;
      [s[0]] + s[1..];
      [s[0]] + (before + text + after);
      ([s[0]] + before) + text + after;
    }
  }

  lemma OneMoreAfter(s: string, before: string, text: string, after: string)
    requires s != "" && White(s[|s| - 1]) && Around(s[..|s| - 1], before, text, after)
    ensures Around(s, before, text, after + [s[|s| - 1]])
  {
    calc {
      s;
      s[..|s| - 1] + [s[|s| - 1]];
      (before + text + after) + [s[|s| - 1]];
      before + text + (after + [s[|s| - 1]]);
    }
  }

  /** Trimming takes exactly the white space at both ends: what is left is nothing, or a usable identifier. */
  lemma {:induction false} TrimLaw(s: string) returns (before: string, after: string)
    ensures Around(s, before, Trim(s), after)
    ensures Trim(s) == "" || Stable(Trim(s))
    decreases |s|
  {
    before, after := "", "";
    if s != "" && Space(s[0]) {
      before, after := TrimLaw(s[1..]);
      SpaceIff(s[0]);
      OneMoreBefore(s, before, Trim(s), after);
      before := [s[0]] + before;
    } else if s != "" && Space(s[|s| - 1]) {
      before, after := TrimLaw(s[..|s| - 1]);
      SpaceIff(s[|s| - 1]);
      OneMoreAfter(s, before, Trim(s), after);
      after := after + [s[|s| - 1]];
    }
  }
}
