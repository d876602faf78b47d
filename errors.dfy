/**
  The library's error taxonomy and `Client._raiseError`, which maps an error
  name to the exception class it raises (vkmusix/client.py). Localisation of
  messages is not modelled: a raised error is identified by its kind alone.
 */
module Errors {
  import opened Wrappers

  datatype ErrorKind =
    | Unknown
    | SessionClosed | SessionAlreadyClosed | SessionAlreadyOpened
    | VKInvalidToken
    | RuCaptchaInvalidKey | RuCaptchaZeroBalance | RuCaptchaBannedIP | RuCaptchaBannedAccount
    | InvalidMethod | AccessDenied
    | UserWasDeletedOrBanned | TrackRestorationTimeEnded
    | NotFound | ChatNotFound
    | NoneQuery
    | OwnerIdsAndTrackIdsTypeDifferent | OwnerIdsAndTrackIdsLenDifferent
    | TrackReorderNeedsBeforeOrAfterArgument | TrackReorderNeedsOnlyBeforeOrAfterNotBoth
    | MP3FileNotFound | MP3FileTooBig
    | TooHighRequestSendingRate
    | InvalidProxyType | InvalidProxyDict
      // raised by the legacy client only (its table has this name)
    | AccessDeniedWithoutCookie
      // a Python runtime exception (TypeError, AttributeError, ValueError,
      // IndexError) that escapes the library rather than one it raises itself
    | RuntimeFault

  /** The value of an operation that either returns or raises. */
  datatype Result<+T> = Ok(value: T) | Fail(kind: ErrorKind)

  /** The name-to-class table of `_raiseError`. */
  const ErrorTable: map<string, ErrorKind> := map[
    "unknown" := Unknown,
    "sessionClosed" := SessionClosed,
    "sessionAlreadyClosed" := SessionAlreadyClosed,
    "sessionAlreadyOpened" := SessionAlreadyOpened,
    "VKInvalidToken" := VKInvalidToken,
    "RuCaptchaInvalidKey" := RuCaptchaInvalidKey,
    "RuCaptchaZeroBalance" := RuCaptchaZeroBalance,
    "RuCaptchaBannedIP" := RuCaptchaBannedIP,
    "RuCaptchaBannedAccount" := RuCaptchaBannedAccount,
    "invalidMethod" := InvalidMethod,
    "accessDenied" := AccessDenied,
    "userWasDeletedOrBanned" := UserWasDeletedOrBanned,
    "trackRestorationTimeEnded" := TrackRestorationTimeEnded,
    "notFound" := NotFound,
    "chatNotFound" := ChatNotFound,
    "noneQuery" := NoneQuery,
    "ownerIdsAndTrackIdsTypeDifferent" := OwnerIdsAndTrackIdsTypeDifferent,
    "ownerIdsAndTrackIdsLenDifferent" := OwnerIdsAndTrackIdsLenDifferent,
    "trackReorderNeedsBeforeOrAfterArgument" := TrackReorderNeedsBeforeOrAfterArgument,
    "trackReorderNeedsOnlyBeforeOrAfterNotBoth" := TrackReorderNeedsOnlyBeforeOrAfterNotBoth,
    "MP3FileNotFound" := MP3FileNotFound,
    "MP3FileTooBig" := MP3FileTooBig,
    "tooHighRequestSendingRate" := TooHighRequestSendingRate,
    "invalidProxyType" := InvalidProxyType,
    "invalidProxyDict" := InvalidProxyDict
  ]

  /** `_raiseError(name)`: an empty name raises nothing (None); a name missing
      from the table raises Unknown. */
  function RaiseError(name: string): (r: Option<ErrorKind>)
    ensures r == None <==> name == ""
    ensures name != "" && name !in ErrorTable ==> r == Some(Unknown)
    ensures name in ErrorTable ==> r == Some(ErrorTable[name])
  {
    if name == "" then None
    else if name in ErrorTable then Some(ErrorTable[name])
    else Some(Unknown)
  }

  /** The table name of each kind it holds (the inverse of the table). */
  function NameOf(k: ErrorKind): Option<string>
  {
    match k
    case Unknown => Some("unknown")
    case SessionClosed => Some("sessionClosed")
    case SessionAlreadyClosed => Some("sessionAlreadyClosed")
    case SessionAlreadyOpened => Some("sessionAlreadyOpened")
    case VKInvalidToken => Some("VKInvalidToken")
    case RuCaptchaInvalidKey => Some("RuCaptchaInvalidKey")
    case RuCaptchaZeroBalance => Some("RuCaptchaZeroBalance")
    case RuCaptchaBannedIP => Some("RuCaptchaBannedIP")
    case RuCaptchaBannedAccount => Some("RuCaptchaBannedAccount")
    case InvalidMethod => Some("invalidMethod")
    case AccessDenied => Some("accessDenied")
    case UserWasDeletedOrBanned => Some("userWasDeletedOrBanned")
    case TrackRestorationTimeEnded => Some("trackRestorationTimeEnded")
    case NotFound => Some("notFound")
    case ChatNotFound => Some("chatNotFound")
    case NoneQuery => Some("noneQuery")
    case OwnerIdsAndTrackIdsTypeDifferent => Some("ownerIdsAndTrackIdsTypeDifferent")
    case OwnerIdsAndTrackIdsLenDifferent => Some("ownerIdsAndTrackIdsLenDifferent")
    case TrackReorderNeedsBeforeOrAfterArgument => Some("trackReorderNeedsBeforeOrAfterArgument")
    case TrackReorderNeedsOnlyBeforeOrAfterNotBoth => Some("trackReorderNeedsOnlyBeforeOrAfterNotBoth")
    case MP3FileNotFound => Some("MP3FileNotFound")
    case MP3FileTooBig => Some("MP3FileTooBig")
    case TooHighRequestSendingRate => Some("tooHighRequestSendingRate")
    case InvalidProxyType => Some("invalidProxyType")
    case InvalidProxyDict => Some("invalidProxyDict")
    case AccessDeniedWithoutCookie => None
    case RuntimeFault => None
  }

  /** Raising by the table name of a kind raises exactly that kind. The
      proof goes by the length of the name, which keeps each step to the
      few table names of that length. */
  lemma RaiseByName(k: ErrorKind)
    ensures NameOf(k).Some? ==> RaiseError(NameOf(k).value) == Some(k)
  {
    if NameOf(k).Some? {
      var name := NameOf(k).value;
      if |name| <= 9 {
        RaisedUpTo9(k);
      } else if |name| <= 12 {
        RaisedUpTo12(k);
      } else if |name| <= 13 {
        RaisedUpTo13(k);
      } else if |name| <= 16 {
        RaisedUpTo16(k);
      } else if |name| <= 19 {
        RaisedUpTo19(k);
      } else if |name| <= 20 {
        RaisedUpTo20(k);
      } else if |name| <= 22 {
        RaisedUpTo22(k);
      } else if |name| <= 31 {
        RaisedUpTo31(k);
      } else {
        RaisedLonger(k);
      }
    }
  }

  /** Every table entry is named back by its kind: the table is a bijection
      between its names and the kinds that have a name. */
  lemma TableNamesItsKinds(name: string)
    ensures name in ErrorTable ==> NameOf(ErrorTable[name]) == Some(name)
  {
    if |name| <= 9 {
      NamedUpTo9(name);
    } else if |name| <= 12 {
      NamedUpTo12(name);
    } else if |name| <= 13 {
      NamedUpTo13(name);
    } else if |name| <= 16 {
      NamedUpTo16(name);
    } else if |name| <= 19 {
      NamedUpTo19(name);
    } else if |name| <= 20 {
      NamedUpTo20(name);
    } else if |name| <= 22 {
      NamedUpTo22(name);
    } else if |name| <= 31 {
      NamedUpTo31(name);
    } else {
      NamedLonger(name);
    }
  }

  // The RaisedUpTo* and NamedUpTo* lemmas below state nothing of their own:
  // they only split RaiseByName and TableNamesItsKinds into bands of name
  // length, so that the solver looks at a few table entries at a time.

  /** A kind whose name has at most 9 characters is what the table holds for that name. */
  lemma RaisedUpTo9(k: ErrorKind)
    requires NameOf(k).Some? && |NameOf(k).value| <= 9
    ensures NameOf(k).value in ErrorTable && ErrorTable[NameOf(k).value] == k
  {
  }

  /** A kind whose name has 10 to 12 characters is what the table holds for that name. */
  lemma RaisedUpTo12(k: ErrorKind)
    requires NameOf(k).Some? && 9 < |NameOf(k).value| <= 12
    ensures NameOf(k).value in ErrorTable && ErrorTable[NameOf(k).value] == k
  {
  }

  /** A kind whose name has 13 characters is what the table holds for that name. */
  lemma RaisedUpTo13(k: ErrorKind)
    requires NameOf(k).Some? && 12 < |NameOf(k).value| <= 13
    ensures NameOf(k).value in ErrorTable && ErrorTable[NameOf(k).value] == k
  {
  }

  /** A kind whose name has 14 to 16 characters is what the table holds for that name. */
  lemma RaisedUpTo16(k: ErrorKind)
    requires NameOf(k).Some? && 13 < |NameOf(k).value| <= 16
    ensures NameOf(k).value in ErrorTable && ErrorTable[NameOf(k).value] == k
  {
  }

  /** A kind whose name has 17 to 19 characters is what the table holds for that name. */
  lemma RaisedUpTo19(k: ErrorKind)
    requires NameOf(k).Some? && 16 < |NameOf(k).value| <= 19
    ensures NameOf(k).value in ErrorTable && ErrorTable[NameOf(k).value] == k
  {
  }

  /** A kind whose name has 20 characters is what the table holds for that name. */
  lemma RaisedUpTo20(k: ErrorKind)
    requires NameOf(k).Some? && 19 < |NameOf(k).value| <= 20
    ensures NameOf(k).value in ErrorTable && ErrorTable[NameOf(k).value] == k
  {
  }

  /** A kind whose name has 21 to 22 characters is what the table holds for that name. */
  lemma RaisedUpTo22(k: ErrorKind)
    requires NameOf(k).Some? && 20 < |NameOf(k).value| <= 22
    ensures NameOf(k).value in ErrorTable && ErrorTable[NameOf(k).value] == k
  {
  }

  /** A kind whose name has 23 to 31 characters is what the table holds for that name. */
  lemma RaisedUpTo31(k: ErrorKind)
    requires NameOf(k).Some? && 22 < |NameOf(k).value| <= 31
    ensures NameOf(k).value in ErrorTable && ErrorTable[NameOf(k).value] == k
  {
  }

  /** A kind whose name has more than 31 characters is what the table holds for that name. */
  lemma RaisedLonger(k: ErrorKind)
    requires NameOf(k).Some? && 31 < |NameOf(k).value|
    ensures NameOf(k).value in ErrorTable && ErrorTable[NameOf(k).value] == k
  {
  }

  /** A table name of at most 9 characters is named back by its kind. */
  lemma NamedUpTo9(name: string)
    requires |name| <= 9
    ensures name in ErrorTable ==> NameOf(ErrorTable[name]) == Some(name)
  {
  }

  /** A table name of 10 to 12 characters is named back by its kind. */
  lemma NamedUpTo12(name: string)
    requires 9 < |name| <= 12
    ensures name in ErrorTable ==> NameOf(ErrorTable[name]) == Some(name)
  {
  }

  /** A table name of 13 characters is named back by its kind. */
  lemma NamedUpTo13(name: string)
    requires 12 < |name| <= 13
    ensures name in ErrorTable ==> NameOf(ErrorTable[name]) == Some(name)
  {
  }

  /** A table name of 14 to 16 characters is named back by its kind. */
  lemma NamedUpTo16(name: string)
    requires 13 < |name| <= 16
    ensures name in ErrorTable ==> NameOf(ErrorTable[name]) == Some(name)
  {
  }

  /** A table name of 17 to 19 characters is named back by its kind. */
  lemma NamedUpTo19(name: string)
    requires 16 < |name| <= 19
    ensures name in ErrorTable ==> NameOf(ErrorTable[name]) == Some(name)
  {
  }

  /** A table name of 20 characters is named back by its kind. */
  lemma NamedUpTo20(name: string)
    requires 19 < |name| <= 20
    ensures name in ErrorTable ==> NameOf(ErrorTable[name]) == Some(name)
  {
  }

  /** A table name of 21 to 22 characters is named back by its kind. */
  lemma NamedUpTo22(name: string)
    requires 20 < |name| <= 22
    ensures name in ErrorTable ==> NameOf(ErrorTable[name]) == Some(name)
  {
  }

  /** A table name of 23 to 31 characters is named back by its kind. */
  lemma NamedUpTo31(name: string)
    requires 22 < |name| <= 31
    ensures name in ErrorTable ==> NameOf(ErrorTable[name]) == Some(name)
  {
  }

  /** A table name of more than 31 characters is named back by its kind. */
  lemma NamedLonger(name: string)
    requires 31 < |name|
    ensures name in ErrorTable ==> NameOf(ErrorTable[name]) == Some(name)
  {
  }
}
