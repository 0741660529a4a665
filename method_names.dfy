/**
 * Turning a user-facing caption ("Survival Function") into the name of a method of a
 * frozen distribution ("survivalfunction"): every space is removed, then the result
 * is lowercased (utils.py, lines 118 and 121).
 */
module MethodNames {

  predicate IsUpper(c: char) {
    'A' <= c <= 'Z'
  }

  predicate NoUpper(s: string) {
    forall i :: 0 <= i < |s| ==> !IsUpper(s[i])
  }

  /** `str.lower` on one character; only the ASCII letters are mapped. */
  function LowerChar(c: char): (d: char)
    ensures !IsUpper(d)
    ensures d == ' ' <==> c == ' '
    ensures !IsUpper(c) ==> d == c
    ensures IsUpper(c) ==> d as int - c as int == 'a' as int - 'A' as int
  {
    if IsUpper(c) then (c as int - 'A' as int + 'a' as int) as char else c
  }

  /** `s.replace(' ', '')`: the characters of `s` other than spaces, in their order. */
  function StripSpaces(s: string): (r: string)
    ensures ' ' !in r
    ensures |r| == |s| - Count(s, ' ')
    ensures forall c :: c != ' ' ==> Count(r, c) == Count(s, c)
    ensures ' ' !in s ==> r == s
  {
    if s == [] then []
    else if s[0] == ' ' then StripSpaces(s[1..])
    else
      var rest := StripSpaces(s[1..]);
      assert ([s[0]] + rest)[1..] == rest;
      [s[0]] + rest
  }

  /** The number of occurrences of `c` in `s`. */
  function Count(s: string, c: char): (n: nat)
    ensures n <= |s|
    ensures c !in s ==> n == 0
  {
    if s == [] then 0 else (if s[0] == c then 1 else 0) + Count(s[1..], c)
  }

  /** `s.lower()`: the same length, every character lowered. */
  function Lower(s: string): (r: string)
    ensures |r| == |s|
    ensures forall i :: 0 <= i < |s| ==> r[i] == LowerChar(s[i])
    ensures NoUpper(r)
  {
    if s == [] then [] else [LowerChar(s[0])] + Lower(s[1..])
  }

  /** The method name looked up for a caption (`caption.replace(' ', '').lower()`). */
  function MethodName(caption: string): (name: string)
    ensures ' ' !in name
    ensures NoUpper(name)
    ensures |name| == |caption| - Count(caption, ' ')
  {
    Lower(StripSpaces(caption))
  }

  /** Removing spaces commutes with concatenation: it works character by character, in order. */
  lemma {:induction false} StripSpacesAppend(a: string, b: string)
    ensures StripSpaces(a + b) == StripSpaces(a) + StripSpaces(b)
  {
    if a == [] {
      assert a + b == b;
    } else {
      var ab := a + b;
      assert ab[0] == a[0] && ab[1..] == a[1..] + b;
      StripSpacesAppend(a[1..], b);
      if a[0] == ' ' {
        calc {
          StripSpaces(ab);
          StripSpaces(ab[1..]);
          StripSpaces(a[1..]) + StripSpaces(b);
        }
      } else {
        calc {
          StripSpaces(ab);
          [a[0]] + StripSpaces(ab[1..]);
          [a[0]] + (StripSpaces(a[1..]) + StripSpaces(b));
          ([a[0]] + StripSpaces(a[1..])) + StripSpaces(b);
        }
      }
    }
  }

  lemma {:induction false} LowerAppend(a: string, b: string)
    ensures Lower(a + b) == Lower(a) + Lower(b)
  {
    var whole, parts := Lower(a + b), Lower(a) + Lower(b);
    assert |whole| == |parts|;
    forall i | 0 <= i < |whole|
      ensures whole[i] == parts[i]
    {
      if i < |a| {
        assert (a + b)[i] == a[i];
      } else {
        assert (a + b)[i] == b[i - |a|];
      }
    }
  }

  /** Lowering leaves spaces where they are, so it commutes with removing them. */
  lemma {:induction false} StripSpacesLower(s: string)
    ensures StripSpaces(Lower(s)) == Lower(StripSpaces(s))
  {
    if s != [] {
      StripSpacesLower(s[1..]);
      assert Lower(s) == [LowerChar(s[0])] + Lower(s[1..]);
      assert Lower(s)[1..] == Lower(s[1..]);
    }
  }

  /** A string without upper-case letters is its own lower-case form. */
  lemma LowerOfLower(s: string)
    requires NoUpper(s)
    ensures Lower(s) == s
  {
  }

  /** Normalising an already normalised name changes nothing. */
  lemma {:induction false} MethodNameIdempotent(caption: string)
    ensures MethodName(MethodName(caption)) == MethodName(caption)
  {
    var name := MethodName(caption);
    assert StripSpaces(name) == name;
    LowerOfLower(name);
  }

  /** Labels that differ only in the case of their letters name the same method. */
  lemma {:induction false} MethodNameCaseInsensitive(a: string, b: string)
    requires Lower(a) == Lower(b)
    ensures MethodName(a) == MethodName(b)
  {
    StripSpacesLower(a);
    StripSpacesLower(b);
  }

  /** Spaces anywhere in a caption do not change the method it names. */
  lemma {:induction false} MethodNameIgnoresSpace(a: string, b: string)
    ensures MethodName(a + " " + b) == MethodName(a + b)
  {
    StripSpacesSkipsSpace(a, b);
  }

  /** Removing the spaces ignores a space between two parts. */
  lemma {:induction false} StripSpacesSkipsSpace(a: string, b: string)
    ensures StripSpaces(a + " " + b) == StripSpaces(a + b)
  {
    var x := StripSpaces(a);
    var y := StripSpaces(b);
    assert StripSpaces(" ") == [] by {
      assert " "[1..] == [];
    }
    calc {
      StripSpaces(a + " " + b);
      { StripSpacesAppend(a + " ", b); }
      StripSpaces(a + " ") + y;
      { StripSpacesAppend(a, " "); }
      x + StripSpaces(" ") + y;
      x + [] + y;
      { assert x + [] == x; }
      x + y;
      { StripSpacesAppend(a, b); }
      StripSpaces(a + b);
    }
  }

  /** A two-word label ("Survival Function") names the two words lowered and run together. */
  lemma {:induction false} MethodNameOfTwoWords(a: string, b: string)
    requires ' ' !in a && ' ' !in b
    ensures MethodName(a + " " + b) == Lower(a) + Lower(b)
  {
    MethodNameIgnoresSpace(a, b);
    assert ' ' !in a + b;
    LowerAppend(a, b);
  }
}
