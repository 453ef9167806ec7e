/** Handling of the free-text answers typed at the console by the two
    front-ends: the `str.strip()` applied to the run id, the
    `.lower() != 's'` test after a prediction, and the continue/exit
    decision a menu iteration ends with. */
module Console {

  /** Whether a menu iteration goes round the `while True` loop again or
      leaves it with `break`/`return`. */
  datatype Control = Continue | Exit

  /** Python's `str.isspace` on one character: the ASCII controls TAB..CR
      and FS..US, SPACE, NEL, NO-BREAK SPACE and the Unicode space
      separators and line/paragraph separators. */
  predicate IsSpace(c: char) {
    var n := c as int;
    || 9 <= n <= 13
    || 28 <= n <= 32
    || n == 0x85 || n == 0xA0 || n == 0x1680
    || 0x2000 <= n <= 0x200A
    || n == 0x2028 || n == 0x2029 || n == 0x202F || n == 0x205F || n == 0x3000
  }

  /** Drops leading whitespace: the result is a suffix of `s`, everything
      dropped is whitespace, and what is left does not start with it. */
  function TrimStart(s: string): (r: string)
    ensures |r| <= |s| && r == s[|s| - |r|..]
    ensures forall i :: 0 <= i < |s| - |r| ==> IsSpace(s[i])
    ensures r != [] ==> !IsSpace(r[0])
    decreases |s|
  {
    if s != [] && IsSpace(s[0]) then TrimStart(s[1..]) else s
  }

  /** Drops trailing whitespace: the result is a prefix of `s`, everything
      dropped is whitespace, and what is left does not end with it. */
  function TrimEnd(s: string): (r: string)
    ensures |r| <= |s| && r == s[..|r|]
    ensures forall i :: |r| <= i < |s| ==> IsSpace(s[i])
    ensures r != [] ==> !IsSpace(r[|r| - 1])
    decreases |s|
  {
    if s != [] && IsSpace(s[|s| - 1]) then TrimEnd(s[..|s| - 1]) else s
  }

  /** Python's `str.strip()` with no argument. */
  function Strip(s: string): (r: string)
    ensures |r| <= |s|
    ensures r != [] ==> !IsSpace(r[0]) && !IsSpace(r[|r| - 1])
    ensures var a := |s| - |TrimStart(s)|;
            && a + |r| <= |s|
            && r == s[a..a + |r|]
            && forall i :: 0 <= i < |s| && !(a <= i < a + |r|) ==> IsSpace(s[i])
  {
    var t := TrimStart(s);
    MiddleSlice(s, t, TrimEnd(t));
    TrimEnd(t)
  }

  /** A prefix `r` of a suffix `t` of `s` is a slice of `s`, and when both
      cuts removed only whitespace, everything outside the slice is
      whitespace. */
  lemma MiddleSlice(s: string, t: string, r: string)
    requires |t| <= |s| && t == s[|s| - |t|..]
    requires forall i :: 0 <= i < |s| - |t| ==> IsSpace(s[i])
    requires |r| <= |t| && r == t[..|r|]
    requires forall i :: |r| <= i < |t| ==> IsSpace(t[i])
    ensures var a := |s| - |t|;
            && a + |r| <= |s|
            && r == s[a..a + |r|]
            && forall i :: 0 <= i < |s| && !(a <= i < a + |r|) ==> IsSpace(s[i])
  {
    var a := |s| - |t|;
    forall i | a + |r| <= i < |s|
      ensures IsSpace(s[i])
    {
      assert s[i] == t[i - a];
    }
  }

  /** A string strips to nothing exactly when every character of it is
      whitespace. */
  lemma {:induction false} StripEmptyIffBlank(s: string)
    ensures Strip(s) == [] <==> forall i :: 0 <= i < |s| ==> IsSpace(s[i])
  {
    var t := TrimStart(s);
    if Strip(s) == [] {
      assert t == [];
    } else {
      assert t != [];
      assert t[0] == s[|s| - |t|];
    }
  }

  /** Lower-casing of one character, restricted to the ASCII letters. */
  function LowerChar(c: char): char {
    if 'A' <= c <= 'Z' then (c as int + 32) as char else c
  }

  /** `str.lower()` on ASCII text: every character is lower-cased in place. */
  function Lower(s: string): (r: string)
    ensures |r| == |s|
    ensures forall i :: 0 <= i < |s| ==> r[i] == LowerChar(s[i])
  {
    seq(|s|, i requires 0 <= i < |s| => LowerChar(s[i]))
  }

  /** The answer to "¿Hacer otra predicción? (s/n)" that keeps the session
      going: `answer.lower() == 's'`. */
  predicate WantsAnother(answer: string) {
    Lower(answer) == "s"
  }

  /** Only "s" and "S" ask for another prediction; every other answer,
      the empty one included, ends the session. */
  lemma WantsAnotherIff(answer: string)
    ensures WantsAnother(answer) <==> answer == "s" || answer == "S"
  {
    if WantsAnother(answer) {
      assert |answer| == 1;
      assert LowerChar(answer[0]) == 's';
      assert answer == [answer[0]];
    }
  }
}
