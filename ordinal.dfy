/** Type-safe conversion between 1-based ordinals ("1st", "2nd", ...) and the
    0-based indexes used for arrays and lists. An `Ordinal` is an immutable value
    wrapping a positive Java `int`. */
module Ordinals {
  import JavaInt
  import Decimal

  /** The values the private constructor accepts: a positive `int`. */
  type Positive = x: int | 0 < x <= 0x7fff_ffff witness 1

  datatype Error = IllegalArgumentException(message: string)

  datatype Result<+T> = Ok(value: T) | Err(error: Error)

  /** What any other Java object looks like to `equals(Object)`. */
  datatype JavaObject = Null | AnOrdinal(ordinal: Ordinal) | OtherObject(className: string)

  /** Number of ordinals built once, at class initialisation, and shared. */
  const CACHE_SIZE: nat := 100

  /** The `FIRST` cache: the ordinals 1 to 100, in order. */
  const FIRST: seq<Ordinal> := Consecutive(1, CACHE_SIZE)

  /** `IntStream.iterate(start, n -> n + 1).limit(count)`, each number wrapped as an ordinal. */
  function Consecutive(start: int, count: nat): (r: seq<Ordinal>)
    requires count > 0 ==> 0 < start && start + count - 1 <= JavaInt.MAX_VALUE
    ensures |r| == count
    decreases count
  {
    if count == 0 then [] else [Ordinal(start)] + Consecutive(start + 1, count - 1)
  }

  /** Element `k` of `Consecutive(start, count)` is the ordinal `start + k`. */
  lemma {:induction false} ConsecutiveAt(start: int, count: nat, k: nat)
    requires count > 0 ==> 0 < start && start + count - 1 <= JavaInt.MAX_VALUE
    requires k < count
    ensures Consecutive(start, count)[k].num == start + k
    decreases count
  {
    if k > 0 {
      ConsecutiveAt(start + 1, count - 1, k - 1);
    }
  }

  /** The exception the private constructor throws for a non-positive `num`. */
  function NotPositive(num: JavaInt.Int32): (e: Error)
    requires num <= 0
    ensures e.message == Decimal.FromInt(num) + " <= 0"
  {
    IllegalArgumentException(Decimal.FromInt(num) + " <= 0")
  }

  /** An ordinal; `num` is 1-based and always positive. */
  datatype Ordinal = Ordinal(num: Positive) {

    /** The 0-based index: "1st" maps to 0. Computed as `num - 1` in `int`, which cannot overflow. */
    function ToIndex(): (i: JavaInt.Int32)
      ensures 0 <= i < JavaInt.MAX_VALUE
      ensures i + 1 == num
    {
      JavaInt.Sub(num, 1)
    }

    /** The next ordinal; `num + 1` wraps for the largest one, which the positivity check rejects. */
    function Next(): (r: Result<Ordinal>)
      ensures r.Ok? <==> num < JavaInt.MAX_VALUE
      ensures r.Ok? ==> r.value.ToIndex() == ToIndex() + 1
      ensures num == JavaInt.MAX_VALUE ==> r == Err(NotPositive(JavaInt.MIN_VALUE))
    {
      Of(JavaInt.Add(num, 1))
    }

    /** Natural order: the sign of comparing the two `num` values. */
    function CompareTo(that: Ordinal): (c: int)
      ensures c < 0 <==> num < that.num
      ensures c == 0 <==> this == that
      ensures c > 0 <==> num > that.num
    {
      JavaInt.Compare(num, that.num)
    }

    /** `hashCode()`: the 1-based number itself, one more than the index. */
    function HashCode(): (h: JavaInt.Int32)
      ensures h > 0
      ensures h == ToIndex() + 1
    {
      num
    }

    /** `equals(Object)`: true exactly for an `Ordinal` with the same `num`. */
    function Equals(obj: JavaObject): (b: bool)
      ensures b <==> obj == AnOrdinal(this)
    {
      match obj
      case AnOrdinal(that) => num == that.num
      case _ => false
    }

    /** The decimal `num` followed by its English ordinal suffix: "1st", "12th", "23rd". */
    function ToString(): (s: string)
      ensures s == Decimal.FromNat(num) + EnglishSuffix(Decimal.FromNat(num))
    {
      var digits := Decimal.FromNat(num);
      SuffixByDigits(num);
      match num % 100
      case 11 | 12 | 13 => digits + "th"
      case _ =>
        match num % 10
        case 1 => digits + "st"
        case 2 => digits + "nd"
        case 3 => digits + "rd"
        case _ => digits + "th"
    }
  }

  /** The private constructor, with its check that `num` is positive. */
  function New(num: JavaInt.Int32): (r: Result<Ordinal>)
    ensures r.Ok? <==> num > 0
    ensures r.Ok? ==> r.value.num == num
    ensures num <= 0 ==> r == Err(NotPositive(num))
  {
    if num <= 0 then Err(NotPositive(num)) else Ok(Ordinal(num))
  }

  /** `of(num)`: the cached instance for 1 to 100, a new one above, an exception at or below 0. */
  function Of(num: JavaInt.Int32): (r: Result<Ordinal>)
    ensures r.Ok? <==> num > 0
    ensures r.Ok? ==> r.value.num == num
    ensures num <= 0 ==> r == Err(NotPositive(num))
  {
    if 0 < num <= |FIRST| then
      ConsecutiveAt(1, CACHE_SIZE, num - 1);
      Ok(FIRST[num - 1])
    else
      New(num)
  }

  /** `first()`: the cached "1st". */
  function First(): (o: Ordinal)
    ensures o.ToIndex() == 0
    ensures Of(1) == Ok(o)
  {
    ConsecutiveAt(1, CACHE_SIZE, 0);
    FIRST[0]
  }

  /** `fromIndex(index)`: the ordinal at 0-based `index`, through `of(index + 1)` in `int`
      arithmetic, so `Integer.MAX_VALUE` wraps to a negative number and is rejected. */
  function FromIndex(index: JavaInt.Int32): (r: Result<Ordinal>)
    ensures r.Ok? <==> 0 <= index < JavaInt.MAX_VALUE
    ensures r.Ok? ==> r.value.ToIndex() == index
    ensures index < 0 ==> r == Err(NotPositive(index + 1))
    ensures index == JavaInt.MAX_VALUE ==> r == Err(NotPositive(JavaInt.MIN_VALUE))
  {
    Of(JavaInt.Add(index, 1))
  }

  /** Element `k` (0-based) of `natural()`, the stream `first(), first().next(), ...`.
      Computing the element after the largest ordinal throws. */
  function NaturalAt(k: nat): (r: Result<Ordinal>)
    ensures k < JavaInt.MAX_VALUE ==> r == FromIndex(k)
    ensures k >= JavaInt.MAX_VALUE ==> r == Err(NotPositive(JavaInt.MIN_VALUE))
    decreases k
  {
    if k == 0 then Ok(First())
    else
      match NaturalAt(k - 1)
      case Err(e) => Err(e)
      case Ok(o) => o.Next()
  }

  /** The English suffix read off the decimal digits: "th" when the tens digit is 1
      (eleventh, twelfth, thirteenth), otherwise "st", "nd", "rd" for a last digit
      1, 2, 3, and "th" for the rest. */
  function EnglishSuffix(digits: string): (suffix: string)
    requires |digits| >= 1
    ensures |suffix| == 2
  {
    var units := digits[|digits| - 1];
    var tens := if |digits| >= 2 then digits[|digits| - 2] else '0';
    if tens == '1' then "th"
    else if units == '1' then "st"
    else if units == '2' then "nd"
    else if units == '3' then "rd"
    else "th"
  }

  /** The arithmetic tests on `num % 100` and `num % 10` select the suffix the digits do. */
  lemma SuffixByDigits(num: Positive)
    ensures var digits := Decimal.FromNat(num);
      && (num % 100 in {11, 12, 13} ==> EnglishSuffix(digits) == "th")
      && (num % 100 !in {11, 12, 13} && num % 10 == 1 ==> EnglishSuffix(digits) == "st")
      && (num % 100 !in {11, 12, 13} && num % 10 == 2 ==> EnglishSuffix(digits) == "nd")
      && (num % 100 !in {11, 12, 13} && num % 10 == 3 ==> EnglishSuffix(digits) == "rd")
      && (num % 100 !in {11, 12, 13} && num % 10 !in {1, 2, 3} ==> EnglishSuffix(digits) == "th")
  {
    var digits := Decimal.FromNat(num);
    var tens, units := (num / 10) % 10, num % 10;
    assert num % 100 == 10 * tens + units by { DivMod100(num); }
    if num >= 10 {
      Decimal.TensDigit(num);
    }
    assert (|digits| >= 2 && digits[|digits| - 2] == '1') <==> tens == 1 by {
      if |digits| >= 2 { assert num >= 10; }
    }
  }

  lemma DivMod100(n: nat)
    ensures n % 100 == 10 * ((n / 10) % 10) + n % 10
  {
  }
}
