/** The three exception types of the common library and the strings they
    build (common/src/exceptions), plus the standard-library exceptions the
    services throw, gathered into one `Exception` value so that every
    operation of the model can return `Result<T, Exception>`. */
module Exceptions {
  import opened Text

  /** Validation error codes; `ValidationFailed` is the constructor's default. */
  datatype ErrorCode = ValidationFailed | MissingField | InvalidFormat

  /** A ValidationException. `message` holds the formatted text that `what()` exposes. */
  datatype ValidationException = ValidationException(field: string, code: ErrorCode, message: string)

  datatype DatabaseErrorCode =
    | ConnectionFailed
    | QueryFailed
    | RecordNotFound
    | ConstraintViolation
    | UniqueViolation
    | ForeignKeyViolation
    | Unknown

  datatype DatabaseException = DatabaseException(message: string, errorCode: DatabaseErrorCode)

  datatype CommunicationErrorCode =
    | SendFailed
    | InvalidRecipient
    | ChannelUnavailable
    | RateLimitExceeded
    | Unknown

  /** The channels a communication failure can be attributed to. */
  datatype ChannelType = Email | SMS | VoiceCall

  datatype CommunicationException =
    CommunicationException(message: string, channel: ChannelType, errorCode: CommunicationErrorCode)

  /** Anything an operation of the model can throw. */
  datatype Exception =
    | Validation(validation: ValidationException)
    | Database(database: DatabaseException)
    | Communication(communication: CommunicationException)
    | InvalidArgument(argument: string)   // std::invalid_argument
    | JsonError(key: string)              // nlohmann::json: member `key` missing or of the wrong type

  const ValidationPrefix: string := "Validation error ["
  const DatabasePrefix: string := "Database error ["
  const CommunicationPrefix: string := "Communication error ["

  /** The string a `const char*` shows: everything before the first NUL. */
  function CStr(s: string): (r: string)
    ensures |r| <= |s| && r == s[..|r|]
    ensures '\0' !in r
    ensures |r| < |s| ==> s[|r|] == '\0'
  {
    if |s| == 0 || s[0] == '\0' then "" else [s[0]] + CStr(s[1..])
  }

  /** Builds a ValidationException; the stored message is the caller's
      message behind a "Validation error [<field>]: " prefix. */
  function NewValidation(message: string, field: string := "", code: ErrorCode := ValidationFailed): (e: ValidationException)
    ensures e.field == field && e.code == code
    ensures IsPrefix(ValidationPrefix + field + "]: ", e.message)
    ensures |e.message| == |ValidationPrefix| + |field| + 3 + |message|
    ensures e.message[|e.message| - |message|..] == message
  {
    ValidationException(field, code, ValidationPrefix + field + "]: " + message)
  }

  /** Shorthand for the common `throw ValidationException(message, field)`. */
  function Invalid(message: string, field: string := "", code: ErrorCode := ValidationFailed): (e: Exception)
    ensures e.Validation? && e.validation == NewValidation(message, field, code)
  {
    Validation(NewValidation(message, field, code))
  }

  function ValidationWhat(e: ValidationException): string {
    CStr(e.message)
  }

  function DatabaseWhat(e: DatabaseException): string {
    CStr(e.message)
  }

  function CommunicationWhat(e: CommunicationException): string {
    CStr(e.message)
  }

  /** `what()` gives back exactly the constructor's message unless that
      message contains a NUL character, where the C string stops. */
  lemma WhatIsMessage(message: string, field: string, code: ErrorCode, dcode: DatabaseErrorCode,
                      channel: ChannelType, ccode: CommunicationErrorCode)
    requires '\0' !in message && '\0' !in field
    ensures ValidationWhat(NewValidation(message, field, code)) == ValidationPrefix + field + "]: " + message
    ensures DatabaseWhat(DatabaseException(message, dcode)) == message
    ensures CommunicationWhat(CommunicationException(message, channel, ccode)) == message
  {
    CStrNoNul(ValidationPrefix + field + "]: " + message);
    CStrNoNul(message);
  }

  /** An embedded NUL cuts `what()` short. */
  lemma WhatStopsAtNul()
    ensures DatabaseWhat(DatabaseException("id\0tail", DatabaseErrorCode.Unknown)) == "id"
  {
    assert "id\0tail"[0] == 'i' && "id\0tail"[1..][0] == 'd' && "id\0tail"[1..][1..][0] == '\0';
  }

  lemma {:induction false} CStrNoNul(s: string)
    requires '\0' !in s
    ensures CStr(s) == s
    decreases |s|
  {
    if |s| > 0 {
      assert s[0] != '\0';
      assert '\0' !in s[1..];
      CStrNoNul(s[1..]);
    }
  }

  /** Two field/message pairs build the same validation text only if they
      are the same pair, provided the fields contain no ']'. */
  lemma ValidationMessageInjective(m1: string, f1: string, m2: string, f2: string, code: ErrorCode)
    requires ']' !in f1 && ']' !in f2
    requires NewValidation(m1, f1, code) == NewValidation(m2, f2, code)
    ensures m1 == m2 && f1 == f2
  {
    assert ValidationPrefix + f1 + "]: " + m1 == ValidationPrefix + (f1 + ("]: " + m1));
    assert ValidationPrefix + f2 + "]: " + m2 == ValidationPrefix + (f2 + ("]: " + m2));
    CancelPrefix(ValidationPrefix, f1 + ("]: " + m1), f2 + ("]: " + m2));
    SplitAtDelimiter(f1, "]: " + m1, f2, "]: " + m2, ']');
    CancelPrefix("]: ", m1, m2);
  }

  /** A field that contains "]: " makes the text ambiguous: two different
      field/message pairs give the same `what()`. */
  lemma ValidationMessageAmbiguous()
    ensures NewValidation("c", "a]: b").message == NewValidation("b]: c", "a").message
  {
  }

  /** If `a + s1 == b + s2`, neither `a` nor `b` contains `d`, and both tails
      start with `d`, then the split is the same on both sides. */
  lemma SplitAtDelimiter(a: string, s1: string, b: string, s2: string, d: char)
    requires d !in a && d !in b
    requires |s1| > 0 && s1[0] == d && |s2| > 0 && s2[0] == d
    requires a + s1 == b + s2
    ensures a == b && s1 == s2
  {
    assert a == (a + s1)[..|a|];
    assert b == (b + s2)[..|b|];
    assert s1 == (a + s1)[|a|..];
    assert s2 == (b + s2)[|b|..];
  }

  /** The name `getDetail()` prints for a database error code. */
  function DatabaseCodeName(c: DatabaseErrorCode): (r: string)
    ensures |r| > 0 && ']' !in r
  {
    match c
    case ConnectionFailed => "ConnectionFailed"
    case ConstraintViolation => "ConstraintViolation"
    case QueryFailed => "QueryFailed"
    case RecordNotFound => "RecordNotFound"
    case ForeignKeyViolation => "ForeignKeyViolation"
    case UniqueViolation => "UniqueViolation"
    case Unknown => "Unknown"
  }

  /** Each of the seven codes prints a name of its own. */
  lemma DatabaseCodeNameInjective(a: DatabaseErrorCode, b: DatabaseErrorCode)
    ensures DatabaseCodeName(a) == DatabaseCodeName(b) ==> a == b
  {
  }

  function DatabaseDetail(e: DatabaseException): (r: string)
    ensures IsPrefix(DatabasePrefix, r)
    ensures |r| > |e.message| && r[|r| - |e.message|..] == e.message
  {
    DatabasePrefix + (DatabaseCodeName(e.errorCode) + ("]: " + e.message))
  }

  /** The detail string determines the exception: code and message can be read back. */
  lemma DatabaseDetailInjective(e1: DatabaseException, e2: DatabaseException)
    requires DatabaseDetail(e1) == DatabaseDetail(e2)
    ensures e1 == e2
  {
    var t1, t2 := "]: " + e1.message, "]: " + e2.message;
    CancelPrefix(DatabasePrefix, DatabaseCodeName(e1.errorCode) + t1, DatabaseCodeName(e2.errorCode) + t2);
    SplitAtDelimiter(DatabaseCodeName(e1.errorCode), t1, DatabaseCodeName(e2.errorCode), t2, ']');
    DatabaseCodeNameInjective(e1.errorCode, e2.errorCode);
    CancelPrefix("]: ", e1.message, e2.message);
  }

  function CommunicationCodeName(c: CommunicationErrorCode): (r: string)
    ensures |r| > 0 && ']' !in r
  {
    match c
    case SendFailed => "SendFailed"
    case InvalidRecipient => "InvalidRecipient"
    case ChannelUnavailable => "ChannelUnavailable"
    case RateLimitExceeded => "RateLimitExceeded"
    case Unknown => "Unknown"
  }

  function ChannelName(c: ChannelType): (r: string)
    ensures |r| > 0 && ']' !in r
  {
    match c
    case SMS => "SMS"
    case Email => "Email"
    case VoiceCall => "VoiceCall"
  }

  lemma CommunicationNamesInjective(a: CommunicationErrorCode, b: CommunicationErrorCode, x: ChannelType, y: ChannelType)
    ensures CommunicationCodeName(a) == CommunicationCodeName(b) ==> a == b
    ensures ChannelName(x) == ChannelName(y) ==> x == y
  {
  }

  const ChannelInfix: string := "] on channel ["

  function CommunicationDetail(e: CommunicationException): (r: string)
    ensures IsPrefix(CommunicationPrefix, r)
    ensures |r| > |e.message| && r[|r| - |e.message|..] == e.message
  {
    CommunicationPrefix + (CommunicationCodeName(e.errorCode) + (ChannelInfix + (ChannelName(e.channel) + ("]: " + e.message))))
  }

  /** The communication detail string determines code, channel and message. */
  lemma CommunicationDetailInjective(e1: CommunicationException, e2: CommunicationException)
    requires CommunicationDetail(e1) == CommunicationDetail(e2)
    ensures e1 == e2
  {
    var c1, c2 := CommunicationCodeName(e1.errorCode), CommunicationCodeName(e2.errorCode);
    var k1, k2 := ChannelName(e1.channel), ChannelName(e2.channel);
    var u1, u2 := "]: " + e1.message, "]: " + e2.message;
    CancelPrefix(CommunicationPrefix, c1 + (ChannelInfix + (k1 + u1)), c2 + (ChannelInfix + (k2 + u2)));
    SplitAtDelimiter(c1, ChannelInfix + (k1 + u1), c2, ChannelInfix + (k2 + u2), ']');
    CancelPrefix(ChannelInfix, k1 + u1, k2 + u2);
    SplitAtDelimiter(k1, u1, k2, u2, ']');
    CommunicationNamesInjective(e1.errorCode, e2.errorCode, e1.channel, e2.channel);
    CancelPrefix("]: ", e1.message, e2.message);
  }

  lemma CancelPrefix(p: string, x: string, y: string)
    requires p + x == p + y
    ensures x == y
  {
    assert x == (p + x)[|p|..];
    assert y == (p + y)[|p|..];
  }
}
