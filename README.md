# Ordinal: 1-based ordinals and 0-based indexes

This project is a Dafny model of `com.google.mu.util.Ordinal` from the Mug library.
`Ordinal` is an immutable value type. It wraps a positive Java `int` (`num`) and
converts between user-facing 1-based ordinals and 0-based indexes. It also offers a
successor, a natural order, `equals`/`hashCode`, and English rendering ("1st",
"2nd", "11th", "23rd"). The model's contracts and lemmas cover the following:

- `of(n)` succeeds exactly for `n > 0` and keeps `n`. Otherwise it fails with
  `IllegalArgumentException("<n> <= 0")`. For 1 to 100 it returns an entry of the
  prebuilt `FIRST` cache.
- Round trips hold between `fromIndex` and `toIndex` in both directions.
- `fromIndex(Integer.MAX_VALUE)` fails, and so does `next()` on the largest ordinal.
  In both cases the Java `int` addition `+ 1` wraps to `Integer.MIN_VALUE`, which the
  positivity check rejects. The exception message is "-2147483648 <= 0".
- `compareTo` has the sign of comparing the two numbers. It is a total order,
  consistent with `equals`, and every ordinal is below its successor.
- `equals` holds exactly for another `Ordinal` with the same number. `hashCode` is
  the number, so hash codes are equal exactly when the ordinals are equal.
- `toString()` is the decimal number followed by the suffix that English gives it
  when the rule is read off the last two digits. The source instead tests
  `num % 100` and `num % 10`, and a lemma proves that both give the same suffix.
  Distinct ordinals also render differently.
- Element `k` of `natural()` is `fromIndex(k)`. Once the stream passes
  `Integer.MAX_VALUE` ordinals, reaching the next element throws.

Files:

- `java_int.dfy` (module `JavaInt`): Java's 32-bit `int`, with wrapping `+` and
  `-` and with `Integer.compare`.
- `decimal.dfy` (module `Decimal`): `Integer.toString` (the digits string
  concatenation produces) and reading the digits back.
- `ordinal.dfy` (module `Ordinals`): the `Ordinal` value and its operations.
- `ordinal_laws.dfy` (module `OrdinalLaws`): properties that relate several
  operations.

Java exceptions are modelled by the datatype `Result` with constructors `Ok` and
`Err(IllegalArgumentException(message))`. The private constructor's positivity check
works in two ways. The field `num` has the subset type `Positive`, so no `Ordinal`
with `num <= 0` exists. The function `New` rejects a non-positive argument, as the
constructor does at run time. Java's `%` is applied only to the positive `num`, where
it agrees with Dafny's `%`.

## Model

| member | source | states |
|---|---|---|
| `JavaInt.Add` | mug/src/main/java/com/google/mu/util/Ordinal.java:73 | Java `int` addition: the exact sum when it fits, otherwise the sum minus or plus 2^32 |
| `JavaInt.Sub` | mug/src/main/java/com/google/mu/util/Ordinal.java:81 | Java `int` subtraction: the exact difference when it fits, otherwise wrapped by 2^32 |
| `JavaInt.IncrementOverflow` | mug/src/main/java/com/google/mu/util/Ordinal.java:86 | `n + 1` in `int` is smaller than `n` exactly for `Integer.MAX_VALUE`, and it is then `Integer.MIN_VALUE` |
| `JavaInt.Compare` | mug/src/main/java/com/google/mu/util/Ordinal.java:91 | `Integer.compare` returns -1, 0 or 1, negative exactly when x < y, zero exactly when x == y, positive exactly when x > y |
| `Decimal.FromNat` | mug/src/main/java/com/google/mu/util/Ordinal.java:114 | the rendering of `num` in `num + "th"` is a non-empty string of digits, starts with '0' only for 0, and ends with the units digit |
| `Decimal.FromInt` | mug/src/main/java/com/google/mu/util/Ordinal.java:42 | the rendering of `num` in `num + " <= 0"` starts with '-' exactly for a negative value, followed by the digits of its magnitude |
| `Decimal.ParseFromNat` | mug/src/main/java/com/google/mu/util/Ordinal.java:114 | reading the rendered digits of n back gives n |
| `Decimal.FromNatInjective` | mug/src/main/java/com/google/mu/util/Ordinal.java:114 | two numbers have the same rendering exactly when they are equal |
| `Ordinals.Consecutive` | mug/src/main/java/com/google/mu/util/Ordinal.java:34-37 | `IntStream.iterate(start, n -> n + 1).limit(count)` mapped to ordinals has exactly `count` elements |
| `Ordinals.ConsecutiveAt` | mug/src/main/java/com/google/mu/util/Ordinal.java:34-37 | element k of that stream is the ordinal start + k, so `FIRST[k]` is the ordinal k + 1 |
| `Ordinals.NotPositive` | mug/src/main/java/com/google/mu/util/Ordinal.java:42 | the exception's message is the decimal `num` followed by " <= 0" |
| `Ordinals.New` | mug/src/main/java/com/google/mu/util/Ordinal.java:41-44 | the private constructor succeeds exactly for a positive `num` and keeps it, and otherwise throws the `NotPositive` exception |
| `Ordinals.Of` | mug/src/main/java/com/google/mu/util/Ordinal.java:56-64 | `of(num)` succeeds exactly for num > 0 with that number (a cache entry for 1 to 100, a new value above), and otherwise throws the constructor's exception |
| `Ordinals.First` | mug/src/main/java/com/google/mu/util/Ordinal.java:46-49 | `first()` has index 0 and equals `of(1)` |
| `Ordinals.FromIndex` | mug/src/main/java/com/google/mu/util/Ordinal.java:66-74 | `fromIndex(i)` succeeds exactly for 0 <= i < Integer.MAX_VALUE, with `toIndex() == i`; a negative i throws for i + 1, and Integer.MAX_VALUE throws for the wrapped Integer.MIN_VALUE |
| `Ordinals.Ordinal.ToIndex` | mug/src/main/java/com/google/mu/util/Ordinal.java:76-82 | `toIndex()` is one less than `num`, and lies in [0, Integer.MAX_VALUE), so `num - 1` never wraps |
| `Ordinals.Ordinal.Next` | mug/src/main/java/com/google/mu/util/Ordinal.java:84-87 | `next()` succeeds exactly below Integer.MAX_VALUE, with an index one greater; at Integer.MAX_VALUE it throws for the wrapped Integer.MIN_VALUE |
| `Ordinals.Ordinal.CompareTo` | mug/src/main/java/com/google/mu/util/Ordinal.java:89-92 | `compareTo` is negative, zero or positive exactly as `num` is below, equal to or above `that.num`; zero exactly for equal values |
| `Ordinals.Ordinal.HashCode` | mug/src/main/java/com/google/mu/util/Ordinal.java:94-96 | `hashCode()` is positive and one more than `toIndex()` |
| `Ordinals.Ordinal.Equals` | mug/src/main/java/com/google/mu/util/Ordinal.java:98-103 | `equals(obj)` holds exactly when obj is an `Ordinal` equal to this one |
| `Ordinals.Ordinal.ToString` | mug/src/main/java/com/google/mu/util/Ordinal.java:105-127 | `toString()` is the decimal `num` followed by the English suffix that its last two digits select |
| `Ordinals.NaturalAt` | mug/src/main/java/com/google/mu/util/Ordinal.java:51-54 | element k of `natural()` is `fromIndex(k)` for k < Integer.MAX_VALUE; computing any later element throws the wrap-around exception |
| `Ordinals.EnglishSuffix` | mug/src/main/java/com/google/mu/util/Ordinal.java:109-127 | the suffix read off the digits is always two characters |
| `Ordinals.SuffixByDigits` | mug/src/main/java/com/google/mu/util/Ordinal.java:110-125 | the `switch` on `num % 100` (11, 12, 13 give "th") and then on `num % 10` (1 "st", 2 "nd", 3 "rd", else "th") selects the same suffix as the digit rule |
| `OrdinalLaws.IndexRoundTrip` | mug/src/main/java/com/google/mu/util/Ordinal.java:66-82 | for 0 <= i < Integer.MAX_VALUE, `fromIndex(i).toIndex() == i` |
| `OrdinalLaws.OrdinalRoundTrip` | mug/src/main/java/com/google/mu/util/Ordinal.java:66-82 | for every ordinal o, `fromIndex(o.toIndex())` is o |
| `OrdinalLaws.OfIsFromIndexOfPredecessor` | mug/src/main/java/com/google/mu/util/Ordinal.java:62-74 | `of(n)` and `fromIndex(n - 1)` agree, failure included, wherever n - 1 does not wrap |
| `OrdinalLaws.RenderMinValue` | mug/src/main/java/com/google/mu/util/Ordinal.java:42 | Integer.MIN_VALUE renders as "-2147483648" in the exception message |
| `OrdinalLaws.FromIndexOfMaxValue` | mug/src/main/java/com/google/mu/util/Ordinal.java:72-74 | `fromIndex(Integer.MAX_VALUE)` throws `IllegalArgumentException("-2147483648 <= 0")` |
| `OrdinalLaws.NoSuccessorOfLargest` | mug/src/main/java/com/google/mu/util/Ordinal.java:84-87 | `next()` on the ordinal Integer.MAX_VALUE throws `IllegalArgumentException("-2147483648 <= 0")` |
| `OrdinalLaws.NextIsFromIndexOfSuccessor` | mug/src/main/java/com/google/mu/util/Ordinal.java:84-87 | `next()` is `fromIndex(toIndex() + 1)`, failure included |
| `OrdinalLaws.CompareAntisymmetric` | mug/src/main/java/com/google/mu/util/Ordinal.java:89-92 | swapping the operands of `compareTo` swaps negative and positive and keeps zero |
| `OrdinalLaws.CompareTransitive` | mug/src/main/java/com/google/mu/util/Ordinal.java:89-92 | a < b and b < c give a < c under `compareTo` |
| `OrdinalLaws.CompareTotal` | mug/src/main/java/com/google/mu/util/Ordinal.java:89-92 | any two ordinals are equal or ordered one way or the other |
| `OrdinalLaws.BeforeNext` | mug/src/main/java/com/google/mu/util/Ordinal.java:84-92 | every ordinal that has a successor compares below it |
| `OrdinalLaws.CompareConsistentWithEquals` | mug/src/main/java/com/google/mu/util/Ordinal.java:89-103 | `compareTo` is zero exactly when `equals` holds |
| `OrdinalLaws.EqualsIsEquivalence` | mug/src/main/java/com/google/mu/util/Ordinal.java:98-103 | `equals` is reflexive, symmetric and transitive on ordinals |
| `OrdinalLaws.NotEqualToOtherObjects` | mug/src/main/java/com/google/mu/util/Ordinal.java:98-103 | an ordinal equals neither null nor an object of another class |
| `OrdinalLaws.HashCodeMatchesEquals` | mug/src/main/java/com/google/mu/util/Ordinal.java:94-103 | two ordinals have the same hash code exactly when they are equal |
| `OrdinalLaws.ToStringInjective` | mug/src/main/java/com/google/mu/util/Ordinal.java:109-127 | two ordinals render the same exactly when they are equal |
| `OrdinalLaws.ToStringNumber` | mug/src/main/java/com/google/mu/util/Ordinal.java:109-127 | the characters before the two-letter suffix are digits that read back as `num` |
| `OrdinalLaws.ToStringOf1` | mug/src/main/java/com/google/mu/util/Ordinal.java:105-108 | 1 renders as "1st" |
| `OrdinalLaws.ToStringOf2` | mug/src/main/java/com/google/mu/util/Ordinal.java:119-120 | 2 renders as "2nd" |
| `OrdinalLaws.ToStringOf3` | mug/src/main/java/com/google/mu/util/Ordinal.java:121-122 | 3 renders as "3rd" |
| `OrdinalLaws.ToStringOf4` | mug/src/main/java/com/google/mu/util/Ordinal.java:123-124 | 4 renders as "4th" |
| `OrdinalLaws.ToStringOf11` | mug/src/main/java/com/google/mu/util/Ordinal.java:110-114 | 11 renders as "11th", not "11st" |
| `OrdinalLaws.ToStringOf12` | mug/src/main/java/com/google/mu/util/Ordinal.java:110-114 | 12 renders as "12th", not "12nd" |
| `OrdinalLaws.ToStringOf13` | mug/src/main/java/com/google/mu/util/Ordinal.java:110-114 | 13 renders as "13th", not "13rd" |
| `OrdinalLaws.ToStringOf21` | mug/src/main/java/com/google/mu/util/Ordinal.java:116-118 | 21 renders as "21st" |
| `OrdinalLaws.ToStringOf22` | mug/src/main/java/com/google/mu/util/Ordinal.java:116-120 | 22 renders as "22nd" |
| `OrdinalLaws.ToStringOf23` | mug/src/main/java/com/google/mu/util/Ordinal.java:116-122 | 23 renders as "23rd" |
| `OrdinalLaws.ToStringOf101` | mug/src/main/java/com/google/mu/util/Ordinal.java:110-118 | 101 renders as "101st": only the last two digits matter |
| `OrdinalLaws.ToStringOf111` | mug/src/main/java/com/google/mu/util/Ordinal.java:110-114 | 111 renders as "111th": the teens rule applies above 100 too |
| `OrdinalLaws.ToStringOf112` | mug/src/main/java/com/google/mu/util/Ordinal.java:110-114 | 112 renders as "112th" |
| `OrdinalLaws.FirstIsOfOne` | mug/src/main/java/com/google/mu/util/Ordinal.java:105-108 | `of(1)` is `first()` and renders as "1st" |
| `OrdinalLaws.NaturalSteps` | mug/src/main/java/com/google/mu/util/Ordinal.java:51-54 | consecutive elements of `natural()` are related by `next()`, including the last step, where `next()` on the largest ordinal throws |

## Left out

- Object identity: `of` returns the same shared instance for 1 to 100 and a fresh one
  above. The model treats `Ordinal` as a value, so only `num` is observable. The cache
  is modelled by its contents: `FIRST` is the sequence of ordinals 1 to 100.
- `natural()` is a lazy `java.util.stream.Stream`. The model gives its element at each
  position (`NaturalAt`) rather than a stream object.
- `equals(Object)` accepts any Java object. The model represents the argument as
  `null`, an `Ordinal`, or an object of some other class. Only that distinction
  matters to the method.
- `Ordinals.Ordinal.CompareTo`: the model returns -1, 0 or 1, as the JDK's
  `Integer.compare` does. Its contract states only the sign, which is all that
  `Comparable` promises.
- `Ordinals.Ordinal.CompareTo`: the argument is always an `Ordinal`. The model does
  not represent `compareTo(null)`, which throws `NullPointerException` when it reads
  `that.num`.
- Java exceptions are modelled as `Err` results. Stack traces and exception chaining
  are not modelled.
- The retry engine (`Retryer`, `Retryer.Delay`) and its test helpers are not part of
  this model. They work through asynchronous futures, a scheduler, a clock and
  floating-point randomisation, none of which touches the `Ordinal` value type.
