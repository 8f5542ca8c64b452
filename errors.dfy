/**
 * The two error classes of the backup bot and the plain JavaScript `Error` they wrap.
 * Each wrapper's message is fixed by its constructor: a class prefix followed by the
 * wrapped text, and the wrapped error is kept for `getError()`.
 */
module Errors {

  /** A thrown value: a plain `Error`, or one of the two wrapper classes with their wrapped error. */
  datatype Error =
    | Plain(message: string)
    | Authorization(message: string, wrapped: Error)
    | Backup(message: string, wrapped: Error)

  /** The argument of a wrapper constructor: `Error | string`. */
  datatype Cause = FromString(text: string) | FromError(error: Error)

  /** How an async step ended: resolved, or rejected with an error. */
  datatype Outcome = Done | Thrown(error: Error)

  /** How a value-returning async step ended. */
  datatype Result<+T> = Ok(value: T) | Failed(error: Error)

  const AUTHORIZATION_PREFIX := "Authorization failed | "
  const BACKUP_PREFIX := "Backup failed | "

  /** The text a wrapper appends: the string itself, or the wrapped error's message. */
  function CauseText(c: Cause): string
  {
    match c
    case FromString(s) => s
    case FromError(e) => e.message
  }

  /** The error `getError()` hands back: the given error itself, or `new Error(s)` for a string. */
  function CauseError(c: Cause): (e: Error)
    ensures e.message == CauseText(c)
    ensures c.FromError? ==> e == c.error
    ensures c.FromString? ==> e == Plain(c.text)
  {
    match c
    case FromString(s) => Plain(s)
    case FromError(e) => e
  }

  /** The `name` property of an error. */
  function Name(e: Error): string
  {
    match e
    case Plain(_) => "Error"
    case Authorization(_, _) => "AuthorizationError"
    case Backup(_, _) => "BackupError"
  }

  /** `getError()` of a wrapper. */
  function GetError(e: Error): Error
    requires !e.Plain?
  {
    e.wrapped
  }

  /** `new AuthorizationError(cause)`. */
  function NewAuthorizationError(c: Cause): (e: Error)
    ensures Name(e) == "AuthorizationError"
    ensures e.message == AUTHORIZATION_PREFIX + GetError(e).message
    ensures c.FromError? ==> GetError(e) == c.error
    ensures c.FromString? ==> GetError(e) == Plain(c.text)
  {
    Authorization(AUTHORIZATION_PREFIX + CauseText(c), CauseError(c))
  }

  /** `new BackupError(cause)`. */
  function NewBackupError(c: Cause): (e: Error)
    ensures Name(e) == "BackupError"
    ensures e.message == BACKUP_PREFIX + GetError(e).message
    ensures c.FromError? ==> GetError(e) == c.error
    ensures c.FromString? ==> GetError(e) == Plain(c.text)
  {
    Backup(BACKUP_PREFIX + CauseText(c), CauseError(c))
  }

  /** Whatever was given, `getError()` unwraps back to an error carrying the given text. */
  lemma WrapUnwrap(c: Cause)
    ensures GetError(NewAuthorizationError(c)).message == CauseText(c)
    ensures GetError(NewBackupError(c)).message == CauseText(c)
    ensures NewAuthorizationError(c).message == AUTHORIZATION_PREFIX + CauseText(c)
    ensures NewBackupError(c).message == BACKUP_PREFIX + CauseText(c)
  {
  }

  /** A wrapped error is never confused with what it wraps: the message strictly grows. */
  lemma WrappingLengthens(c: Cause)
    ensures |NewAuthorizationError(c).message| > |CauseText(c)|
    ensures |NewBackupError(c).message| > |CauseText(c)|
  {
  }

  /** The two prefixes written one after the other. */
  lemma PrefixesJoined()
    ensures BACKUP_PREFIX + AUTHORIZATION_PREFIX == "Backup failed | Authorization failed | "
  {
  }

  /** A failed authorization escaping the run reads "Backup failed | Authorization failed | s". */
  lemma BackupOfAuthorization(s: string)
    ensures NewBackupError(FromError(NewAuthorizationError(FromString(s)))).message
         == "Backup failed | Authorization failed | " + s
  {
    var inner := NewAuthorizationError(FromString(s));
    assert inner.message == AUTHORIZATION_PREFIX + s;
    PrefixesJoined();
    assert BACKUP_PREFIX + (AUTHORIZATION_PREFIX + s) == (BACKUP_PREFIX + AUTHORIZATION_PREFIX) + s;
  }
}
