// Vocabulary shared by all components.
module Base {
  datatype Option<+T> = None | Some(value: T)

  // Go strings and []byte values are sequences of these.
  type Byte = b: int | 0 <= b < 256

  function Last<T>(s: seq<T>): T
    requires s != []
  {
    s[|s| - 1]
  }

  lemma Associative<T>(a: seq<T>, b: seq<T>, c: seq<T>)
    ensures a + (b + c) == (a + b) + c
  {
  }

  ghost predicate Distinct<T(!new)>(s: seq<T>) {
    forall j, k | 0 <= j < k < |s| :: s[j] != s[k]
  }

  // The value Go's int32(n) conversion yields: two's-complement truncation.
  function ToInt32(n: int): int {
    (n + 0x8000_0000) % 0x1_0000_0000 - 0x8000_0000
  }

  predicate FitsInt32(n: int) {
    -0x8000_0000 <= n < 0x8000_0000
  }

  // Truncation keeps the value modulo 2^32, and the value itself if it fits.
  lemma ToInt32Truncates(n: int)
    ensures FitsInt32(ToInt32(n)) && (n - ToInt32(n)) % 0x1_0000_0000 == 0
    ensures FitsInt32(n) ==> ToInt32(n) == n
  {
  }
}
