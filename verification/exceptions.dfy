/** The exception kinds the two clients raise, as plain values. */
module Exceptions {

  datatype Error =
    | StatusCode(status: int)   // StatusCodeException, carrying the reply's status code
    | InvalidResponse           // InvalidResponseException
    | Unauthorized              // UnauthorizedException
    | Forbidden                 // ForbiddenException
    | IndexError                // Python's IndexError, raised by the earlier `aichat` client only
}
