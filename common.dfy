/** Shared vocabulary of the efl-util model: the public error codes, an Option type,
    the C-string prefix test used by every name comparison, and bit tests on C enum masks. */
module Common {

  /** The public error codes of the library (their numeric values live in efl_util.h,
      which is not part of this model; only their identity matters here). */
  datatype ErrorCode =
    | None
    | InvalidParameter
    | OutOfMemory
    | PermissionDenied
    | NoSuchDevice
    | InvalidOperation
    | NotSupportedWindowType
    | ScreenshotInitFail
    | ScreenshotExecutionFail

  datatype Option<T> = Nothing | Some(value: T)

  /** `strncmp(s, prefix, strlen(prefix)) == 0` on C strings: the first |prefix|
      characters of s are exactly prefix (a shorter s differs at its terminator). */
  predicate HasPrefix(s: string, prefix: string)
  {
    |prefix| <= |s| && s[..|prefix|] == prefix
  }

  function Pow2(k: nat): (r: nat)
    ensures r >= 1
  {
    if k == 0 then 1 else 2 * Pow2(k - 1)
  }

  /** Bit k of a C int in two's complement.  Dafny's division by a positive divisor
      rounds toward negative infinity, so this is right for negative masks too. */
  predicate HasBit(mask: int, k: nat)
  {
    (mask / Pow2(k)) % 2 == 1
  }
}
