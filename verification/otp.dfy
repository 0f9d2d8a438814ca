/** The one-time-code store of the password reset (controllers/otpController.js):
    a process-wide map from email to the code issued and its expiry. The
    clock (`now`, in milliseconds) and the random code are parameters; the
    mail that carries the code is reduced to whether it was delivered. */
module Otp {
  import opened Wrappers
  import Text
  import opened Accounts

  /** What the store keeps for an email: the code as text and the instant
      after which it no longer counts. */
  datatype OtpRecord = OtpRecord(otp: string, expiresAt: int)

  /** A code lives five minutes. */
  const OTP_LIFETIME_MS := 5 * 60 * 1000

  /** The range `crypto.randomInt(100000, 999999)` draws from: the upper
      bound is excluded. */
  predicate IsCode(code: int) {
    100000 <= code < 999999
  }

  /** Issuing a code for an email: its text and expiry replace whatever the
      store held for that email. */
  function Issue(store: map<string, OtpRecord>, email: string, code: nat, now: int): (s: map<string, OtpRecord>)
    ensures email in s && s[email] == OtpRecord(Text.ToDecimal(code), now + OTP_LIFETIME_MS)
    ensures s.Keys == store.Keys + {email}
    ensures forall e :: e in store && e != email ==> s[e] == store[e]
  {
    store[email := OtpRecord(Text.ToDecimal(code), now + OTP_LIFETIME_MS)]
  }

  /** The text of a drawn code is six decimal digits that read back as the
      code. */
  lemma CodeText(code: nat)
    requires IsCode(code)
    ensures |Text.ToDecimal(code)| == 6 && Text.AllDigits(Text.ToDecimal(code))
    ensures Text.DigitsValue(Text.ToDecimal(code)) == code
  {
    assert Text.Pow10(5) == 100000 && Text.Pow10(6) == 1000000;
    Text.DecimalLength(code, 5);
    Text.DecimalRoundTrip(code);
  }

  /** Issuing twice for the same email keeps only the second code. */
  lemma ReissueOverwrites(store: map<string, OtpRecord>, email: string, c1: nat, t1: int, c2: nat, t2: int)
    ensures Issue(Issue(store, email, c1, t1), email, c2, t2) == Issue(store, email, c2, t2)
  {
  }

  datatype VerifyOutcome = NotFound | Expired | Invalid | Verified

  /** The outcome of a verification and the store it leaves. */
  datatype Verification = Verification(outcome: VerifyOutcome, store: map<string, OtpRecord>)

  /** `verifyOtp`: no record fails; a record past its expiry is deleted and
      fails; a wrong code fails and stays; the right code is consumed. */
  function Verify(store: map<string, OtpRecord>, email: string, otp: string, now: int): (v: Verification)
    ensures v.outcome == NotFound <==> email !in store
    ensures v.store.Keys <= store.Keys
    ensures forall e :: e in store && e != email ==> e in v.store && v.store[e] == store[e]
    ensures email in v.store <==> v.outcome == Invalid
  {
    if email !in store then Verification(NotFound, store)
    else if now > store[email].expiresAt then Verification(Expired, store - {email})
    else if store[email].otp != otp then Verification(Invalid, store)
    else Verification(Verified, store - {email})
  }

  /** The status of the response to a verification. */
  function VerifyStatus(outcome: VerifyOutcome): (code: int)
    ensures code == OK <==> outcome == Verified
    ensures code != OK ==> code == BAD_REQUEST
  {
    if outcome == Verified then OK else BAD_REQUEST
  }

  /** A code issued at `issued` verifies at any instant up to and including
      its expiry, and verifying it removes it and nothing else. */
  lemma IssueThenVerify(store: map<string, OtpRecord>, email: string, code: nat, issued: int, now: int)
    requires issued <= now <= issued + OTP_LIFETIME_MS
    ensures var s := Issue(store, email, code, issued);
            Verify(s, email, Text.ToDecimal(code), now) == Verification(Verified, s - {email})
  {
  }

  /** After its expiry the same code fails and its record is gone. */
  lemma VerifyAfterExpiry(store: map<string, OtpRecord>, email: string, code: nat, issued: int, now: int)
    requires now > issued + OTP_LIFETIME_MS
    ensures var s := Issue(store, email, code, issued);
            Verify(s, email, Text.ToDecimal(code), now) == Verification(Expired, s - {email})
  {
  }

  /** A successful verification consumes the code: repeating it fails. */
  lemma VerifyOnce(store: map<string, OtpRecord>, email: string, otp: string, t1: int, t2: int)
    requires Verify(store, email, otp, t1).outcome == Verified
    ensures Verify(Verify(store, email, otp, t1).store, email, otp, t2).outcome == NotFound
  {
  }

  /** A wrong code before expiry fails and leaves the store as it was, so
      the right code still verifies afterwards. */
  lemma WrongCodeKeeps(store: map<string, OtpRecord>, email: string, otp: string, now: int)
    requires email in store && now <= store[email].expiresAt && store[email].otp != otp
    ensures Verify(store, email, otp, now) == Verification(Invalid, store)
    ensures Verify(store, email, store[email].otp, now).outcome == Verified
  {
  }

  /** The process-wide store. */
  class OtpStore {
    var records: map<string, OtpRecord>

    constructor ()
      ensures records == map[]
    {
      records := map[];
    }

    /** `sendOtp`: 400 without an email and 404 for an unknown one, both
        before the store is touched; then the code is stored, and the
        response is 500 if the mail could not be sent (the code stays
        stored) and 200 otherwise. */
    method SendOtp(email: string, userExists: bool, code: nat, now: int, mailed: bool) returns (status: int)
      requires IsCode(code)
      modifies this`records
      ensures email == "" ==> status == BAD_REQUEST && records == old(records)
      ensures email != "" && !userExists ==> status == NOT_FOUND && records == old(records)
      ensures email != "" && userExists ==> records == Issue(old(records), email, code, now)
      ensures email != "" && userExists ==> status == (if mailed then OK else SERVER_ERROR)
    {
      if email == "" {
        return BAD_REQUEST;
      }
      if !userExists {
        return NOT_FOUND;
      }
      records := records[email := OtpRecord(Text.ToDecimal(code), now + OTP_LIFETIME_MS)];
      status := if mailed then OK else SERVER_ERROR;
    }

    /** `verifyOtp`. */
    method VerifyOtp(email: string, otp: string, now: int) returns (status: int)
      modifies this`records
      ensures records == Verify(old(records), email, otp, now).store
      ensures status == VerifyStatus(Verify(old(records), email, otp, now).outcome)
    {
      if email !in records {
        return BAD_REQUEST;
      }
      var record := records[email];
      if now > record.expiresAt {
        records := records - {email};
        return BAD_REQUEST;
      }
      if record.otp != otp {
        return BAD_REQUEST;
      }
      records := records - {email};
      return OK;
    }
  }

  /** The status of `resetPassword`: 400 unless both the email and the new
      password are given, 404 when no user has that email, otherwise 200.
      The code store plays no part. */
  function ResetStatus(email: string, newPassword: string, userExists: bool): (code: int)
    ensures code == BAD_REQUEST <==> email == "" || newPassword == ""
    ensures code == NOT_FOUND <==> email != "" && newPassword != "" && !userExists
    ensures code == OK <==> email != "" && newPassword != "" && userExists
  {
    if email == "" || newPassword == "" then BAD_REQUEST
    else if !userExists then NOT_FOUND
    else OK
  }

  /** As written, the reset goes through for an email that holds no code at
      all, or whose code has expired: nothing ties it to a verification. */
  lemma ResetWithoutCode(store: map<string, OtpRecord>, email: string, newPassword: string, otp: string, now: int)
    requires email != "" && newPassword != ""
    ensures email !in store ==> Verify(store, email, otp, now).outcome == NotFound && ResetStatus(email, newPassword, true) == OK
    ensures email in store && now > store[email].expiresAt ==>
              Verify(store, email, otp, now).outcome == Expired && ResetStatus(email, newPassword, true) == OK
  {
  }

  /** `resetPassword` as written: the status follows ResetStatus, and on
      200 the password is replaced and nothing else changes. */
  method ResetPassword(email: string, newPassword: string, user: User?, hash: Hasher) returns (status: int)
    requires user != null ==> user.email == email
    modifies user
    ensures status == ResetStatus(email, newPassword, user != null)
    ensures user != null && status == OK ==> user.password == hash(newPassword)
    ensures user != null && status != OK ==> user.password == old(user.password)
    ensures user != null ==> user.name == old(user.name) && user.email == old(user.email) &&
                             user.role == old(user.role) && user.wishlist == old(user.wishlist) &&
                             user.number == old(user.number) && user.address == old(user.address)
  {
    if email == "" || newPassword == "" {
      return BAD_REQUEST;
    }
    if user == null {
      return NOT_FOUND;
    }
    user.SetPassword(newPassword, hash);
    return OK;
  }

  /** The reset the code flow is there for: the request carries the code,
      which must verify (and is consumed) before the password changes. A
      missing field is 400 first, then a code that does not verify is 400,
      then an unknown user is 404. Returns the status and the store left
      behind. */
  function CheckedReset(store: map<string, OtpRecord>, email: string, otp: string, newPassword: string,
                        userExists: bool, now: int): (r: (int, map<string, OtpRecord>))
    ensures r.0 == OK <==> email != "" && newPassword != "" && userExists &&
                           Verify(store, email, otp, now).outcome == Verified
    ensures r.0 == OK ==> email in store && store[email].otp == otp && now <= store[email].expiresAt
    ensures email == "" || newPassword == "" ==> r == (BAD_REQUEST, store)
    ensures r.0 != BAD_REQUEST ==> r.1 == store - {email}
  {
    if email == "" || newPassword == "" then (BAD_REQUEST, store)
    else
      var v := Verify(store, email, otp, now);
      if v.outcome != Verified then (BAD_REQUEST, v.store)
      else if !userExists then (NOT_FOUND, v.store)
      else (OK, v.store)
  }

  /** With the check, an email without a live code cannot be reset, and an
      issued code resets once. */
  lemma CheckedResetNeedsCode(store: map<string, OtpRecord>, email: string, otp: string, newPassword: string, now: int)
    requires email !in store || now > store[email].expiresAt
    ensures CheckedReset(store, email, otp, newPassword, true, now).0 != OK
  {
  }

  lemma CheckedResetOnce(store: map<string, OtpRecord>, email: string, code: nat, issued: int, now: int, newPassword: string)
    requires email != "" && newPassword != "" && issued <= now <= issued + OTP_LIFETIME_MS
    ensures var r := CheckedReset(Issue(store, email, code, issued), email, Text.ToDecimal(code), newPassword, true, now);
            r.0 == OK && CheckedReset(r.1, email, Text.ToDecimal(code), newPassword, true, now).0 != OK
  {
    IssueThenVerify(store, email, code, issued, now);
  }

  /** The corrected handler on the process-wide store. */
  method ResetPasswordChecked(otps: OtpStore, email: string, otp: string, newPassword: string, now: int,
                              user: User?, hash: Hasher) returns (status: int)
    requires user != null ==> user.email == email
    modifies otps`records, user
    ensures (status, otps.records) == CheckedReset(old(otps.records), email, otp, newPassword, user != null, now)
    ensures user != null && status == OK ==> user.password == hash(newPassword)
    ensures user != null && status != OK ==> user.password == old(user.password)
    ensures user != null ==> user.name == old(user.name) && user.email == old(user.email) &&
                             user.role == old(user.role) && user.wishlist == old(user.wishlist) &&
                             user.number == old(user.number) && user.address == old(user.address)
  {
    if email == "" || newPassword == "" {
      return BAD_REQUEST;
    }
    var v := otps.VerifyOtp(email, otp, now);
    if v != OK {
      return BAD_REQUEST;
    }
    if user == null {
      return NOT_FOUND;
    }
    user.SetPassword(newPassword, hash);
    return OK;
  }
}
