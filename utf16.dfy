/**
 * Java strings as sequences of UTF-16 code units, and what
 * `new StringBuilder(s).reverse()` does to them.
 *
 * A Dafny `char` is a Unicode scalar value, so it cannot hold a lone
 * surrogate and a character outside the Basic Multilingual Plane is one
 * `char` where Java has two. A Java `String` is therefore modelled as a
 * sequence of 16-bit code units, and `Encode` gives the units Java uses for
 * a piece of Unicode text.
 */
module Utf16 {

  /** A Java `char`: one UTF-16 code unit. */
  newtype Char16 = x: int | 0 <= x < 0x1_0000

  /** The characters of a non-null Java `String`. */
  type JString = seq<Char16>

  predicate IsHighSurrogate(c: Char16) {
    0xD800 <= c <= 0xDBFF
  }

  predicate IsLowSurrogate(c: Char16) {
    0xDC00 <= c <= 0xDFFF
  }

  predicate IsSurrogate(c: Char16) {
    IsHighSurrogate(c) || IsLowSurrogate(c)
  }

  predicate NoSurrogates(s: JString) {
    forall i :: 0 <= i < |s| ==> !IsSurrogate(s[i])
  }

  /** Plain reversal of a sequence: the last element first. */
  function Reverse<T>(s: seq<T>): (r: seq<T>)
    ensures |r| == |s|
  {
    if s == [] then [] else Reverse(s[1..]) + [s[0]]
  }

  lemma {:induction false} ReverseAt<T>(s: seq<T>, i: nat)
    requires i < |s|
    ensures Reverse(s)[i] == s[|s| - 1 - i]
  {
    if i < |s| - 1 {
      ReverseAt(s[1..], i);
    }
  }

  lemma {:induction false} ReverseAppend<T>(a: seq<T>, b: seq<T>)
    ensures Reverse(a + b) == Reverse(b) + Reverse(a)
  {
    if a == [] {
      assert a + b == b;
    } else {
      assert (a + b)[1..] == a[1..] + b;
      ReverseAppend(a[1..], b);
    }
  }

  lemma {:induction false} ReverseMultiset<T>(s: seq<T>)
    ensures multiset(Reverse(s)) == multiset(s)
  {
    if s != [] {
      ReverseMultiset(s[1..]);
      assert s == [s[0]] + s[1..];
    }
  }

  lemma ReverseReverse<T>(s: seq<T>)
    ensures Reverse(Reverse(s)) == s
  {
    forall i | 0 <= i < |s|
      ensures Reverse(Reverse(s))[i] == s[i]
    {
      ReverseAt(Reverse(s), i);
      ReverseAt(s, |s| - 1 - i);
    }
  }

  /**
   * The second pass of `StringBuilder.reverse`: scanning left to right,
   * every low surrogate immediately followed by a high surrogate is swapped
   * with it, so that a surrogate pair of the original string, which the
   * plain reversal turned round, is put back in order.
   */
  function RestorePairs(s: JString): (r: JString)
    ensures |r| == |s|
    ensures multiset(r) == multiset(s)
    decreases |s|
  {
    if |s| < 2 then s
    else if IsLowSurrogate(s[0]) && IsHighSurrogate(s[1]) then
      assert s == [s[0], s[1]] + s[2..];
      [s[1], s[0]] + RestorePairs(s[2..])
    else
      assert s == [s[0]] + s[1..];
      [s[0]] + RestorePairs(s[1..])
  }

  /** `new StringBuilder(s).reverse().toString()`. */
  function BuilderReverse(s: JString): (r: JString)
    ensures |r| == |s|
    ensures multiset(r) == multiset(s)
  {
    ReverseMultiset(s);
    RestorePairs(Reverse(s))
  }

  lemma {:induction false} RestorePairsIdentity(s: JString)
    requires NoSurrogates(s)
    ensures RestorePairs(s) == s
  {
    if |s| >= 2 {
      RestorePairsIdentity(s[1..]);
    }
  }

  /** Without surrogates, the builder's reversal is the plain reversal. */
  lemma BuilderReverseIsReverse(s: JString)
    requires NoSurrogates(s)
    ensures BuilderReverse(s) == Reverse(s)
  {
    forall i | 0 <= i < |s|
      ensures !IsSurrogate(Reverse(s)[i])
    {
      ReverseAt(s, i);
    }
    RestorePairsIdentity(Reverse(s));
  }

  /** The code units of one Unicode scalar value, as Java stores them. */
  function Units(c: char): (u: JString)
    ensures 1 <= |u| <= 2
  {
    var v := c as int;
    if v < 0x1_0000 then [v as Char16]
    else [(0xD800 + (v - 0x1_0000) / 0x400) as Char16, (0xDC00 + (v - 0x1_0000) % 0x400) as Char16]
  }

  /** The UTF-16 form of a piece of Unicode text: the `String` Java holds for it. */
  function Encode(text: string): JString {
    if text == [] then [] else Units(text[0]) + Encode(text[1..])
  }

  lemma {:induction false} EncodeAppend(a: string, b: string)
    ensures Encode(a + b) == Encode(a) + Encode(b)
  {
    if a == [] {
      assert a + b == b;
    } else {
      assert (a + b)[1..] == a[1..] + b;
      EncodeAppend(a[1..], b);
    }
  }

  /** Reversing the units of one character, then restoring pairs, gives the character back first. */
  lemma RestoreOneCharacter(c: char, rest: JString)
    ensures RestorePairs(Reverse(Units(c)) + rest) == Units(c) + RestorePairs(rest)
  {
  }

  /**
   * For text Java stores as well-formed UTF-16, the builder's reversal
   * reverses the characters, keeping each surrogate pair intact.
   */
  lemma {:induction false} BuilderReverseEncode(text: string)
    ensures BuilderReverse(Encode(text)) == Encode(Reverse(text))
  {
    if text != [] {
      var n := |text|;
      var init, last := text[..n - 1], text[n - 1];
      assert text == init + [last];
      EncodeAppend(init, [last]);
      assert Encode([last]) == Units(last);
      ReverseAppend(Encode(init), Units(last));
      RestoreOneCharacter(last, Reverse(Encode(init)));
      BuilderReverseEncode(init);
      ReverseAppend(init, [last]);
      assert Reverse(text) == [last] + Reverse(init);
      EncodeAppend([last], Reverse(init));
    }
  }
}
