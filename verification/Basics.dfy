/** Small shared vocabulary: optional values, API replies and the string helpers of the provider. */
module Basics {

  datatype Option<+T> = None | Some(value: T)

  /** What one API call, or one controller operation, reports back. */
  datatype Reply = Ok | NotFound | Conflict | BadRequest | Other

  const MAX_NAME: nat := 255

  /** Go's `cutString`. */
  function Cut(s: string, length: nat): string {
    if |s| > length then s[..length] else s
  }

  /** Decimal digits of a natural number, as printed by "%d". */
  function Digits(n: nat): string
    ensures n >= 10 ==> |Digits(n)| > 1
    ensures |Digits(n)| >= 1
  {
    var d := ['0' + (n % 10) as char];
    if n < 10 then d else Digits(n / 10) + d
  }

  function Decimal(n: int): string {
    if n < 0 then "-" + Digits(-n) else Digits(n)
  }

  predicate Distinct<T(==)>(s: seq<T>) {
    forall i, j :: 0 <= i < j < |s| ==> s[i] != s[j]
  }
}
