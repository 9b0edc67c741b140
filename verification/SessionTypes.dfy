/** The values the session scheduler passes around: credentials, tokens, requests, error codes
    and the two advisory state machines. */
module SessionTypes {
  import opened Basics

  /** src/mediafire_sdk/api/credentials.hpp, compared field by field. */
  datatype Credentials =
    | Email(email: string, emailPassword: string)
    | Ekey(ekey: string, ekeyPassword: string)
    | Facebook(accessToken: string)

  datatype SessionToken = SessionToken(id: string, pkey: string, time: string, secretKey: int)

  /** The identity and the constant fields of a SessionMaintainerRequest. `maxRetryTime` is in
      whole seconds, as the source's second_clock has it. */
  datatype Request = Request(id: nat, usesToken: bool, timeoutSeconds: nat, maxRetryTime: nat)

  /** The std::error_code values the scheduler tells apart; Failure stands for all others. */
  datatype ErrorCode =
    | NoError
    | SessionTokenInvalid
    | SignatureInvalid
    | CredentialsInvalid
    | ParametersInvalid
    | FacebookAuthenticationFailure
    | AccountTemporarilyLocked
    | AsyncOperationInProgress
    | UnableToConnect
    | UnableToConnectToProxy
    | UnableToResolve
    | SslHandshakeFailure
    | WriteFailure
    | ReadFailure
    | ProxyProtocolFailure
    | IoTimeout
    | Failure(code: int)

  predicate IsInvalidSessionTokenError(e: ErrorCode) {
    e == SessionTokenInvalid || e == SignatureInvalid
  }

  predicate IsInvalidCredentialsError(e: ErrorCode) {
    e == CredentialsInvalid || e == ParametersInvalid || e == FacebookAuthenticationFailure
  }

  predicate IsConnectionError(e: ErrorCode) {
    || e == UnableToConnect || e == UnableToConnectToProxy || e == UnableToResolve
    || e == SslHandshakeFailure || e == WriteFailure || e == ReadFailure
    || e == ProxyProtocolFailure || e == IoTimeout
  }

  /** Payloads are the fields that the source's operator== compares, no more. */
  datatype SessionState =
    | Uninitialized
    | Initialized
    | CredentialsFailure(pkey: Option<string>, credentialsError: ErrorCode)
    | ProlongedError(prolongedError: ErrorCode)
    | Running(tokenId: string, tokenPkey: string)

  datatype ConnectionState = ConnectionUninitialized | Unconnected(error: ErrorCode) | Connected

  /** The answer to user/get_session_token; the token is meaningful only without an error. */
  datatype TokenResponse = TokenResponse(error: ErrorCode, pkey: string, token: SessionToken)

  /** The answer to a scheduled request. */
  datatype ApiResponse = ApiResponse(error: ErrorCode, newKey: bool)
}
