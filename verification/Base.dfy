/** Containers, account names and integer bounds shared by all pallets. */
module Base {
  const U32_MAX: nat := 0xFFFF_FFFF
  const U64_MAX: nat := 0xFFFF_FFFF_FFFF_FFFF
  const U128_MAX: nat := 0xFFFF_FFFF_FFFF_FFFF_FFFF_FFFF_FFFF_FFFF

  datatype Option<+T> = None | Some(value: T)

  datatype Result<+T, +E> = Ok(value: T) | Err(error: E) {
    predicate IsFailure() { Err? }

    function PropagateFailure<U>(): Result<U, E>
      requires Err?
    {
      Err(error)
    }

    function Extract(): T
      requires Ok?
    {
      value
    }

    /** The same outcome, with the failure reported as `e`. */
    function OrElse<F>(e: F): Result<T, F> {
      if Ok? then Ok(value) else Err(e)
    }
  }

  type AccountId = nat

  /** A byte vector as the dispatchables receive it: text, or bytes that are not valid UTF-8. */
  datatype RawText = Utf8(text: string) | NotUtf8(bytes: seq<nat>)

  /** Machine arithmetic that keeps the low 32 (64, 128) bits. */
  function WrapU32(x: nat): nat { x % (U32_MAX + 1) }

  function WrapU64(x: nat): nat { x % (U64_MAX + 1) }

  function WrapU128(x: nat): nat { x % (U128_MAX + 1) }

  /** Wrapping after every addition or once at the end makes no difference. */
  lemma WrapAdd(a: nat, b: nat)
    ensures WrapU128(WrapU128(a) + b) == WrapU128(a + b)
  {
    var m := U128_MAX + 1;
    WrapIs(a + b, a / m + (a % m + b) / m, (a % m + b) % m);
  }

  lemma WrapIs(x: nat, q: nat, r: nat)
    requires x == q * (U128_MAX + 1) + r && r <= U128_MAX
    ensures WrapU128(x) == r
  {}

  function SaturatingSub(x: nat, y: nat): nat {
    if x >= y then x - y else 0
  }

  function SaturatingAddU128(x: nat, y: nat): nat {
    if x + y <= U128_MAX then x + y else U128_MAX
  }

  /** A `ValueQuery` storage map: an absent key reads as the default. */
  function Get<K, V>(m: map<K, V>, k: K, default: V): V {
    if k in m then m[k] else default
  }

  function Lookup<K, V>(m: map<K, V>, k: K): Option<V> {
    if k in m then Some(m[k]) else None
  }
}
