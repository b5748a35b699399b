/**
 * `StringProcessor`: reversing a string, and the null-tolerant length of a
 * string. A Java `String` argument that may be null is an
 * `Option<JString>`; `reverseString` reports its error by throwing, which
 * is the `Threw` case of an `Outcome`.
 */
module StringProcessor {
  import opened JavaLang
  import opened Utf16

  /** The exception `reverseString` throws for a null input. */
  const NullInput: Throwable :=
    Throwable("java.lang.IllegalArgumentException", Some("Input cannot be null"))

  /** `reverseString`: rejects null, otherwise returns the builder's reversal. */
  function ReverseString(input: Option<JString>): (o: Outcome<JString>)
    ensures input.None? <==> o.Threw?
    ensures input.None? ==> o == Threw(NullInput)
    ensures input.Some? ==> o.Ok? && |o.value| == |input.value|
    ensures input.Some? ==> multiset(o.value) == multiset(input.value)
    ensures !o.ThrewOther?
  {
    match input
    case None => Threw(NullInput)
    case Some(s) => Ok(BuilderReverse(s))
  }

  /** `getStringLength`: 0 for null, otherwise the number of code units. */
  function GetStringLength(input: Option<JString>): (n: nat)
    ensures n == 0 <==> input == None || input == Some([])
    ensures input.Some? ==> n == |input.value|
  {
    match input
    case None => 0
    case Some(s) => |s|
  }

  /** A surrogate-free string comes back mirrored, character by character. */
  lemma ReverseStringMirrors(s: JString)
    requires NoSurrogates(s)
    ensures ReverseString(Some(s)).Ok?
    ensures forall i :: 0 <= i < |s| ==> ReverseString(Some(s)).value[i] == s[|s| - 1 - i]
  {
    BuilderReverseIsReverse(s);
    forall i | 0 <= i < |s|
      ensures Reverse(s)[i] == s[|s| - 1 - i]
    {
      ReverseAt(s, i);
    }
  }

  /** Reversing a surrogate-free string twice gives it back. */
  lemma ReverseStringTwice(s: JString)
    requires NoSurrogates(s)
    ensures ReverseString(Some(s)).Ok?
    ensures ReverseString(Some(ReverseString(Some(s)).value)) == Ok(s)
  {
    BuilderReverseIsReverse(s);
    var r := Reverse(s);
    forall i | 0 <= i < |r|
      ensures !IsSurrogate(r[i])
    {
      ReverseAt(s, i);
    }
    BuilderReverseIsReverse(r);
    ReverseReverse(s);
  }

  /**
   * For any well-formed text, including characters stored as surrogate
   * pairs, `reverseString` reverses the characters, and so reversing twice
   * gives the text back.
   */
  lemma ReverseStringText(text: string)
    ensures ReverseString(Some(Encode(text))) == Ok(Encode(Reverse(text)))
    ensures ReverseString(Some(Encode(Reverse(text)))) == Ok(Encode(text))
  {
    BuilderReverseEncode(text);
    BuilderReverseEncode(Reverse(text));
    ReverseReverse(text);
  }

  /**
   * A lone low surrogate followed by a lone high surrogate is not restored
   * by a second reversal: the two units form a pair after the first one.
   */
  lemma ReverseStringTwiceUnpaired()
    ensures ReverseString(Some([0xDC00, 0xD800])) == Ok([0xD800, 0xDC00])
    ensures ReverseString(Some([0xD800, 0xDC00])) == Ok([0xD800, 0xDC00])
  {
    var s: JString := [0xDC00, 0xD800];
    assert Reverse(s) == [0xD800, 0xDC00] by {
      assert Reverse(s[1..]) == [0xD800];
    }
    var p: JString := [0xD800, 0xDC00];
    assert RestorePairs(p) == p by {
      assert p[1..] == [0xDC00];
    }
    var t: JString := [0xD800, 0xDC00];
    assert Reverse(t) == [0xDC00, 0xD800] by {
      assert Reverse(t[1..]) == [0xDC00];
    }
    var q: JString := [0xDC00, 0xD800];
    assert RestorePairs(q) == p by {
      assert q[2..] == [];
    }
  }

  /** Reversing never changes the length `getStringLength` reports. */
  lemma LengthOfReverse(s: JString)
    ensures ReverseString(Some(s)).Ok?
    ensures GetStringLength(Some(ReverseString(Some(s)).value)) == GetStringLength(Some(s))
  {
  }
}
