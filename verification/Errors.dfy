/** Error values as trees. `Wrap` is `fmt.Errorf("...: %w", err)` and `Join` is `errors.Join`;
    a sentinel is found in a tree with `Is`, which is `errors.Is`. */
module Errors {
  datatype Option<+T> = None | Some(value: T)

  datatype Error =
    | ErrKeyNotFound
    | ErrTrustAnchorNotFound
    | CngKeyNotFound                      // the key library's own sentinel
    | Errno(code: nat)                    // an operating-system error number
    | Text(text: string)                  // errors.New, or fmt.Errorf without %w
    | Wrap(op: string, inner: Error)
    | Join(errs: seq<Error>)
    | Terminated                          // the calling process is gone, so nothing sees this value

  predicate Is(e: Error, target: Error)
    decreases e
  {
    e == target ||
    match e
    case Wrap(_, inner) => Is(inner, target)
    case Join(errs) => exists i :: 0 <= i < |errs| && Is(errs[i], target)
    case _ => false
  }

  /** `errors.Join` over a list that holds no nil: nil exactly for the empty list. */
  function JoinAll(errs: seq<Error>): Option<Error> {
    if errs == [] then None else Some(Join(errs))
  }

  predicate Contains(s: string, sub: string) {
    exists i: nat, j: nat :: i <= j <= |s| && s[i..j] == sub
  }

  const CRYPT_E_NOT_FOUND: nat := 0x80092004

  /** Does an enumeration error mean "no more certificates"? Any errno whose low 16 bits are 0x2004 does. */
  predicate IsEnumEnd(e: Error) {
    match e
    case Errno(code) => code % 0x1_0000 == 0x2004 || code == CRYPT_E_NOT_FOUND
    case Text(text) => Contains(text, "0x80092004")
    case _ => false
  }

  /** `isCertNotFound`: the same test for a subject search, with one more accepted message. */
  predicate IsCertNotFound(e: Error) {
    match e
    case Errno(code) => code % 0x1_0000 == 0x2004 || code == CRYPT_E_NOT_FOUND
    case Text(text) => Contains(text, "0x80092004") || Contains(text, "Cannot find object or property")
    case _ => false
  }

  const ERROR_FILE_NOT_FOUND: nat := 2
  const ERROR_PATH_NOT_FOUND: nat := 3

  /** `os.IsNotExist`. */
  predicate IsNotExist(e: Error) {
    e == Errno(ERROR_FILE_NOT_FOUND) || e == Errno(ERROR_PATH_NOT_FOUND)
  }

  /** `mapCNGError`: only the library's missing-key sentinel becomes ErrKeyNotFound. */
  function MapCngError(e: Error): Error {
    if Is(e, CngKeyNotFound) then ErrKeyNotFound else e
  }

  predicate AlreadyAbsent(e: Error) {
    Is(e, ErrKeyNotFound) || Is(e, ErrTrustAnchorNotFound)
  }

  /** A failing call that does not claim the thing it worked on is missing. */
  predicate PlainFailure(e: Error) {
    && !IsEnumEnd(e)
    && !IsCertNotFound(e)
    && !IsNotExist(e)
    && !AlreadyAbsent(e)
    && !Is(e, CngKeyNotFound)
  }
}
