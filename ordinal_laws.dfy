/** Properties of `Ordinal` that relate several of its operations. */
module OrdinalLaws {
  import JavaInt
  import Decimal
  import opened Ordinals

  /** Every index from 0 below `Integer.MAX_VALUE` survives the trip to an ordinal and back. */
  lemma IndexRoundTrip(index: JavaInt.Int32)
    requires 0 <= index < JavaInt.MAX_VALUE
    ensures FromIndex(index).Ok? && FromIndex(index).value.ToIndex() == index
  {
  }

  /** Every ordinal survives the trip to an index and back. */
  lemma OrdinalRoundTrip(o: Ordinal)
    ensures FromIndex(o.ToIndex()) == Ok(o)
  {
  }

  /** `of(n)` and `fromIndex(n - 1)` agree wherever `n - 1` does not wrap. */
  lemma OfIsFromIndexOfPredecessor(num: JavaInt.Int32)
    requires num > JavaInt.MIN_VALUE
    ensures Of(num) == FromIndex(num - 1)
  {
  }

  /** `Integer.MIN_VALUE` renders as "-2147483648". */
  lemma RenderMinValue()
    ensures Decimal.FromInt(JavaInt.MIN_VALUE) == "-2147483648"
  {
    assert Decimal.FromNat(2) == "2";
    assert Decimal.FromNat(21) == "21";
    assert Decimal.FromNat(214) == "214";
    assert Decimal.FromNat(2147) == "2147";
    assert Decimal.FromNat(21474) == "21474";
    assert Decimal.FromNat(214748) == "214748";
    assert Decimal.FromNat(2147483) == "2147483";
    assert Decimal.FromNat(21474836) == "21474836";
    assert Decimal.FromNat(214748364) == "214748364";
    assert Decimal.FromNat(2147483648) == "2147483648";
  }

  /** `fromIndex(Integer.MAX_VALUE)` fails because `index + 1` wraps to `Integer.MIN_VALUE`. */
  lemma FromIndexOfMaxValue()
    ensures FromIndex(JavaInt.MAX_VALUE) == Err(IllegalArgumentException("-2147483648 <= 0"))
  {
    RenderMinValue();
  }

  /** The largest ordinal has no successor, for the same reason. */
  lemma NoSuccessorOfLargest(o: Ordinal)
    requires o.num == JavaInt.MAX_VALUE
    ensures o.Next() == Err(IllegalArgumentException("-2147483648 <= 0"))
  {
    FromIndexOfMaxValue();
  }

  /** `next()` is `fromIndex(toIndex() + 1)`. */
  lemma NextIsFromIndexOfSuccessor(o: Ordinal)
    ensures o.Next() == FromIndex(o.ToIndex() + 1)
  {
  }

  // Natural order

  /** Reversing the operands of `compareTo` reverses the sign. */
  lemma CompareAntisymmetric(a: Ordinal, b: Ordinal)
    ensures a.CompareTo(b) < 0 <==> b.CompareTo(a) > 0
    ensures a.CompareTo(b) == 0 <==> b.CompareTo(a) == 0
  {
  }

  lemma CompareTransitive(a: Ordinal, b: Ordinal, c: Ordinal)
    requires a.CompareTo(b) < 0 && b.CompareTo(c) < 0
    ensures a.CompareTo(c) < 0
  {
  }

  /** Any two ordinals are ordered one way or the other, or are equal. */
  lemma CompareTotal(a: Ordinal, b: Ordinal)
    ensures a.CompareTo(b) < 0 || a == b || b.CompareTo(a) < 0
  {
  }

  /** An ordinal comes before its successor. */
  lemma BeforeNext(o: Ordinal)
    requires o.Next().Ok?
    ensures o.CompareTo(o.Next().value) < 0
  {
  }

  /** `compareTo` is consistent with `equals`. */
  lemma CompareConsistentWithEquals(a: Ordinal, b: Ordinal)
    ensures a.CompareTo(b) == 0 <==> a.Equals(AnOrdinal(b))
  {
  }

  // equals and hashCode

  lemma EqualsIsEquivalence(a: Ordinal, b: Ordinal, c: Ordinal)
    ensures a.Equals(AnOrdinal(a))
    ensures a.Equals(AnOrdinal(b)) <==> b.Equals(AnOrdinal(a))
    ensures a.Equals(AnOrdinal(b)) && b.Equals(AnOrdinal(c)) ==> a.Equals(AnOrdinal(c))
  {
  }

  /** Nothing but an `Ordinal` equals an ordinal. */
  lemma NotEqualToOtherObjects(o: Ordinal, className: string)
    ensures !o.Equals(Null)
    ensures !o.Equals(OtherObject(className))
  {
  }

  /** Equal ordinals have equal hash codes, and the hash code tells ordinals apart. */
  lemma HashCodeMatchesEquals(a: Ordinal, b: Ordinal)
    ensures a.Equals(AnOrdinal(b)) <==> a.HashCode() == b.HashCode()
  {
  }

  // toString

  /** Distinct ordinals have distinct strings: the suffix is always two characters long. */
  lemma ToStringInjective(a: Ordinal, b: Ordinal)
    ensures a.ToString() == b.ToString() <==> a == b
  {
    if a.ToString() == b.ToString() {
      var da, db := Decimal.FromNat(a.num), Decimal.FromNat(b.num);
      assert |da| == |db| && da == a.ToString()[..|da|] && db == b.ToString()[..|db|];
      Decimal.FromNatInjective(a.num, b.num);
    }
  }

  /** The digits before the suffix read back as the ordinal's number. */
  lemma ToStringNumber(o: Ordinal)
    ensures var s := o.ToString();
      |s| > 2 && Decimal.IsDigits(s[..|s| - 2]) && Decimal.Parse(s[..|s| - 2]) == o.num
  {
    var s := o.ToString();
    assert s[..|s| - 2] == Decimal.FromNat(o.num);
    Decimal.ParseFromNat(o.num);
  }

  /** The examples: the documented "1st", the teens, and their neighbours. */
  lemma ToStringOf1()
    ensures Ordinal(1).ToString() == "1st"
  {
    assert Decimal.FromNat(1) == "1";
    assert EnglishSuffix("1") == "st";
  }

  lemma ToStringOf2()
    ensures Ordinal(2).ToString() == "2nd"
  {
    assert Decimal.FromNat(2) == "2";
    assert EnglishSuffix("2") == "nd";
  }

  lemma ToStringOf3()
    ensures Ordinal(3).ToString() == "3rd"
  {
    assert Decimal.FromNat(3) == "3";
    assert EnglishSuffix("3") == "rd";
  }

  lemma ToStringOf4()
    ensures Ordinal(4).ToString() == "4th"
  {
    assert Decimal.FromNat(4) == "4";
    assert EnglishSuffix("4") == "th";
  }

  lemma ToStringOf11()
    ensures Ordinal(11).ToString() == "11th"
  {
    assert Decimal.FromNat(11) == "11";
    assert EnglishSuffix("11") == "th";
  }

  lemma ToStringOf12()
    ensures Ordinal(12).ToString() == "12th"
  {
    assert Decimal.FromNat(12) == "12";
    assert EnglishSuffix("12") == "th";
  }

  lemma ToStringOf13()
    ensures Ordinal(13).ToString() == "13th"
  {
    assert Decimal.FromNat(13) == "13";
    assert EnglishSuffix("13") == "th";
  }

  lemma ToStringOf21()
    ensures Ordinal(21).ToString() == "21st"
  {
    assert Decimal.FromNat(21) == "21";
    assert EnglishSuffix("21") == "st";
  }

  lemma ToStringOf22()
    ensures Ordinal(22).ToString() == "22nd"
  {
    assert Decimal.FromNat(22) == "22";
    assert EnglishSuffix("22") == "nd";
  }

  lemma ToStringOf23()
    ensures Ordinal(23).ToString() == "23rd"
  {
    assert Decimal.FromNat(23) == "23";
    assert EnglishSuffix("23") == "rd";
  }

  lemma ToStringOf101()
    ensures Ordinal(101).ToString() == "101st"
  {
    assert Decimal.FromNat(101) == "101";
    assert EnglishSuffix("101") == "st";
  }

  lemma ToStringOf111()
    ensures Ordinal(111).ToString() == "111th"
  {
    assert Decimal.FromNat(111) == "111";
    assert EnglishSuffix("111") == "th";
  }

  lemma ToStringOf112()
    ensures Ordinal(112).ToString() == "112th"
  {
    assert Decimal.FromNat(112) == "112";
    assert EnglishSuffix("112") == "th";
  }

  // first() and natural()

  /** The documented example: `of(1).toString()` is "1st", and `of(1)` is `first()`. */
  lemma FirstIsOfOne()
    ensures Of(1) == Ok(First()) && Of(1).value.ToString() == "1st"
  {
    ToStringOf1();
  }

  /** Consecutive elements of `natural()` are related by `next()`, up to the step
      after the largest ordinal, where `next()` throws. */
  lemma NaturalSteps(k: nat)
    requires k < JavaInt.MAX_VALUE
    ensures NaturalAt(k).Ok? && NaturalAt(k + 1) == NaturalAt(k).value.Next()
  {
  }
}
