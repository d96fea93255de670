// The one-time-password helpers of user/utils.py. The authentication app
// imports the same helpers from authentication.helpers.utils, which is not
// part of this model; it is taken to behave like user/utils.py.
module Otp {
  import opened Common
  import opened Text

  /**
   * generate_otp draws `length` characters from string.digits. The draws are
   * the random source and come in as a parameter: each is an index into
   * "0123456789".
   */
  function OtpFromDraws(draws: seq<nat>): (otp: string)
    requires forall i :: 0 <= i < |draws| ==> draws[i] < 10
    ensures |otp| == |draws|
    ensures AllDigits(otp)
    ensures forall i :: 0 <= i < |draws| ==> otp[i] as int - '0' as int == draws[i]
  {
    if draws == [] then []
    else [('0' as int + draws[0]) as char] + OtpFromDraws(draws[1..])
  }

  const DefaultOtpLength := 6

  /** The outcome of valid_otp: a flag and a message. */
  datatype OtpCheck = OtpCheck(valid: bool, message: string)

  const NoOtpMessage := "No OTP found. Please request a new one."
  const WrongOtpMessage := "Invalid OTP. Please try again."
  const ExpiredOtpMessage := "OTP has expired. Please request a new one."
  const ValidOtpMessage := "OTP is valid."

  /** A stored secret counts only when it is present and non-empty (Python truthiness). */
  predicate HasOtp(secret: Option<string>, createdAt: Option<int>)
  {
    secret.Some? && secret.value != [] && createdAt.Some?
  }

  /**
   * valid_otp: the stored pair must exist, the input must equal the secret,
   * and `now` must not be later than the creation time plus the expiration
   * window (a strict comparison, so the last second is still valid).
   */
  function ValidOtp(secret: Option<string>, createdAt: Option<int>, input: string, expirationMinutes: int, now: int): (r: OtpCheck)
    ensures r.valid <==> HasOtp(secret, createdAt) && secret.value == input && now <= createdAt.value + expirationMinutes * Minute
    ensures !HasOtp(secret, createdAt) ==> r.message == NoOtpMessage
    ensures HasOtp(secret, createdAt) && secret.value != input ==> r.message == WrongOtpMessage
    ensures r.valid <==> r.message == ValidOtpMessage
  {
    if !HasOtp(secret, createdAt) then OtpCheck(false, NoOtpMessage)
    else if secret.value != input then OtpCheck(false, WrongOtpMessage)
    else if now > createdAt.value + expirationMinutes * Minute then OtpCheck(false, ExpiredOtpMessage)
    else OtpCheck(true, ValidOtpMessage)
  }

  /** A wrong code is reported as wrong even once the window has passed. */
  lemma WrongCodeBeforeExpiry(secret: string, createdAt: int, input: string, expirationMinutes: int, now: int)
    requires secret != [] && secret != input
    requires now > createdAt + expirationMinutes * Minute
    ensures ValidOtp(Some(secret), Some(createdAt), input, expirationMinutes, now).message == WrongOtpMessage
  {
  }

  /** A valid code stays valid from its creation until exactly the end of the window. */
  lemma ValidityWindow(secret: string, createdAt: int, expirationMinutes: nat, now: int)
    requires secret != []
    requires createdAt <= now <= createdAt + expirationMinutes * Minute
    ensures ValidOtp(Some(secret), Some(createdAt), secret, expirationMinutes, now).valid
    ensures !ValidOtp(Some(secret), Some(createdAt), secret, expirationMinutes, createdAt + expirationMinutes * Minute + 1).valid
  {
  }

  /** The cooldown guard of the OTP request mutations: a previous OTP younger than the cooldown blocks a new one. */
  predicate InCooldown(createdAt: Option<int>, now: int, cooldownSeconds: int)
  {
    createdAt.Some? && now - createdAt.value < cooldownSeconds
  }

  /**
   * get_email_from_payload_handler: `payload.get("email") or
   * payload.get("email_id") or payload.get("sub")`. A missing key reads as
   * None; the last operand is returned as it is when the first two are falsy.
   */
  function EmailFromPayload(payload: map<string, string>): (r: Option<string>)
    ensures r.Some? && r.value != [] <==>
      (("email" in payload && payload["email"] != []) ||
       ("email_id" in payload && payload["email_id"] != []) ||
       ("sub" in payload && payload["sub"] != []))
    ensures "email" in payload && payload["email"] != [] ==> r == Some(payload["email"])
  {
    if "email" in payload && payload["email"] != [] then Some(payload["email"])
    else if "email_id" in payload && payload["email_id"] != [] then Some(payload["email_id"])
    else if "sub" in payload then Some(payload["sub"])
    else None
  }

  /** The first truthy claim wins: email beats email_id, which beats sub. */
  lemma PayloadPrefersEmailId(id: string, sub: string)
    requires id != []
    ensures EmailFromPayload(map["email" := "", "email_id" := id, "sub" := sub]) == Some(id)
  {
  }
}
