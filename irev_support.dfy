/**
 * Configuration defaulting and pool selection of the IReV client
 * (src/services/irev_api/index.ts, lines 6-28).
 */
module IrevSupport {
  import opened Wrappers

  /** The hosts the client rotates between when none are configured. */
  const DefaultHosts: seq<string> := [
    "https://lv001-g.inecelectionresults.ng",
    "https://lv001-r.inecelectionresults.ng",
    "https://irev-v2.herokuapp.com"
  ]

  /** The browser user agent sent when none is configured. */
  const SafariBrowser: string :=
    "Mozilla/5.0 (Macintosh; Intel Mac OS X 10_15_7) AppleWebKit/605.1.15 (KHTML, like Gecko) Version/15.0 Safari/605.1.15"

  const NonEmptyMessage: string := "A non-empty value is required for this argument"

  /** A plain JavaScript `Error` with its message. */
  datatype Error = Error(message: string)

  /**
   * The JavaScript values a configuration field can hold: `undefined`, a
   * string, or an array of strings.
   */
  datatype Value = Undefined | Str(text: string) | Strings(items: seq<string>)

  /** JavaScript truthiness: `undefined` and `""` are falsy, every array is truthy. */
  predicate Truthy(v: Value) {
    match v
    case Undefined => false
    case Str(s) => s != ""
    case Strings(_) => true
  }

  /** A value `nonEmpty` keeps: truthy and, when it is an array, not empty. */
  predicate Usable(v: Value) {
    Truthy(v) && (v.Strings? ==> |v.items| > 0)
  }

  /**
   * `nonEmpty(value, defaultValue)`: the value when it is usable, otherwise the
   * default when that is truthy, otherwise a thrown `Error`.
   */
  function NonEmpty(value: Value, defaultValue: Value): (r: Result<Value, Error>)
    ensures Usable(value) ==> r == Success(value)
    ensures !Usable(value) && Truthy(defaultValue) ==> r == Success(defaultValue)
    ensures !Usable(value) && !Truthy(defaultValue) ==> r == Failure(Error(NonEmptyMessage))
  {
    if Truthy(value) && (!value.Strings? || |value.items| > 0) then Success(value)
    else if Truthy(defaultValue) then Success(defaultValue)
    else Failure(Error(NonEmptyMessage))
  }

  /** With a usable default, `nonEmpty` never throws and always yields a usable value. */
  lemma NonEmptyWithUsableDefault(value: Value, defaultValue: Value)
    requires Usable(defaultValue)
    ensures NonEmpty(value, defaultValue).Success?
    ensures Usable(NonEmpty(value, defaultValue).value)
    ensures NonEmpty(value, defaultValue).value == value || NonEmpty(value, defaultValue).value == defaultValue
  {
  }

  /** Without a default, `nonEmpty` throws exactly when the value is not usable. */
  lemma NonEmptyWithoutDefault(value: Value)
    ensures NonEmpty(value, Undefined).Success? <==> Usable(value)
    ensures NonEmpty(value, Undefined).Success? ==> NonEmpty(value, Undefined).value == value
  {
  }

  /** A value `Math.random()` can return. */
  predicate Roll(r: real) {
    0.0 <= r < 1.0
  }

  /**
   * The index `Math.floor(roll * n)` that `sample` reads, for a roll
   * `Math.random()` in [0, 1).
   */
  function SampleIndex(n: nat, roll: real): (k: nat)
    requires n > 0
    requires Roll(roll)
    ensures k < n
  {
    ProductBelow(roll, n);
    (roll * n as real).Floor
  }

  /** 0 <= roll * n < n for a roll in [0, 1). */
  lemma ProductBelow(roll: real, n: nat)
    requires n > 0
    requires Roll(roll)
    ensures 0.0 <= roll * n as real < n as real
  {
    assert (1.0 - roll) * n as real > 0.0;
  }

  /** `sample(arr)`: the element at a random index of a non-empty array. */
  function Sample<T>(arr: seq<T>, roll: real): (r: T)
    requires |arr| > 0
    requires Roll(roll)
    ensures r in arr
  {
    arr[SampleIndex(|arr|, roll)]
  }

  /** Every element of the pool is picked for some roll: the choice covers the whole pool. */
  lemma SampleReachesEvery<T>(arr: seq<T>, k: nat)
    requires k < |arr|
    ensures Roll(k as real / |arr| as real)
    ensures Sample(arr, k as real / |arr| as real) == arr[k]
  {
    var n := |arr| as real;
    var roll := k as real / n;
    assert roll * n == k as real;
    assert (k as real).Floor == k;
    assert SampleIndex(|arr|, roll) == k;
  }
}
