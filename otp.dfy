// The server's OTP service: phone normalisation, six-digit code generation, the hourly rate
// limit, issuing (delete the phone's codes, store a fresh one, mail it, all in one transaction)
// and single-use verification, over an in-memory OTP table.
module OtpEmail {
  import opened Wrappers
  import opened JsStrings
  import JsNumbers
  import Seqs

  /** Times are seconds. */
  const OtpExpirySeconds: int := 5 * 60
  const OtpLength: nat := 6
  const MaxAttemptsPerHour: nat := 5
  const OneHour: int := 60 * 60

  const EmptyPhone := "Phone number cannot be empty"
  const EmailRequired := "Email address is required"
  const RateLimited := "Too many OTP requests. Please try again after 1 hour."
  const IssuePrefix := "Failed to generate OTP: "
  const MailPrefix := "Failed to send OTP email: "

  // ---- phone numbers ------------------------------------------------------

  /** The characters `[0-9+]` that normalisation keeps. */
  predicate IsDialChar(c: char)
  {
    JsNumbers.IsDigit(c) || c == '+'
  }

  predicate AllDialChars(s: string)
  {
    forall i :: 0 <= i < |s| ==> IsDialChar(s[i])
  }

  /** `replaceAll("[^0-9+]", "")` */
  function KeepDialChars(s: string): (r: string)
    ensures AllDialChars(r)
    ensures |r| <= |s|
    decreases |s|
  {
    if s == [] then []
    else (if IsDialChar(s[0]) then [s[0]] else []) + KeepDialChars(s[1..])
  }

  /** The prefix rules applied to the cleaned number. */
  function AddCountryCode(k: string): string
  {
    if |k| > 0 && k[0] == '+' then k
    else if |k| == 10 then "+91" + k
    else if |k| == 12 && k[..2] == "91" then "+" + k
    else k
  }

  /** `formatPhoneNumber`. */
  function FormatPhone(phone: Option<string>): Result<string>
  {
    if phone.None? || phone.value == "" then Err(EmptyPhone)
    else Ok(AddCountryCode(KeepDialChars(phone.value)))
  }

  // ---- the OTP table ------------------------------------------------------

  datatype OtpRecord = OtpRecord(phoneNumber: string, otp: string, createdAt: int, expiresAt: int, isUsed: bool)

  /** `countByPhoneNumberAndCreatedAtAfter` */
  function RecentCount(rows: seq<OtpRecord>, phone: string, since: int): nat
    decreases |rows|
  {
    if rows == [] then 0
    else (if rows[0].phoneNumber == phone && rows[0].createdAt > since then 1 else 0) + RecentCount(rows[1..], phone, since)
  }

  /** `canSendOtp`: fewer than five codes for the normalised phone in the last hour; false when
    * the phone does not normalise. */
  predicate CanSend(rows: seq<OtpRecord>, phone: Option<string>, now: int)
  {
    var f := FormatPhone(phone);
    f.Ok? && RecentCount(rows, f.value, now - OneHour) < MaxAttemptsPerHour
  }

  /** `deleteByPhoneNumber` */
  function DeletePhone(rows: seq<OtpRecord>, phone: string): seq<OtpRecord>
  {
    Seqs.Filter(rows, (x: OtpRecord) => x.phoneNumber != phone)
  }

  /** What the mail step does. */
  datatype MailResult = Delivered | MailFailed(reason: string)

  /** `generateAndSendOtp` on the table `rows` at time `now`, with the generated code `otp` and
    * the mail step's result: the outcome and the table after the transaction. Any failure rolls
    * the transaction back. */
  function IssueOutcome(rows: seq<OtpRecord>, phone: Option<string>, email: Option<string>, now: int,
                        otp: string, mail: MailResult): (Result<Unit>, seq<OtpRecord>)
  {
    var f := FormatPhone(phone);
    if f.Err? then (Err(IssuePrefix + f.msg), rows)
    else if !Truthy(email) then (Err(IssuePrefix + EmailRequired), rows)
    else if !CanSend(rows, Some(f.value), now) then (Err(IssuePrefix + RateLimited), rows)
    else if mail.MailFailed? then (Err(IssuePrefix + MailPrefix + mail.reason), rows)
    else (Ok(Unit), DeletePhone(rows, f.value) + [OtpRecord(f.value, otp, now, now + OtpExpirySeconds, false)])
  }

  /** The row matches `findByPhoneNumberAndOtpAndIsUsedFalse(phone, otp)`. */
  predicate Matches(r: OtpRecord, phone: string, otp: string)
  {
    r.phoneNumber == phone && r.otp == otp && !r.isUsed
  }

  function MatchCount(rows: seq<OtpRecord>, phone: string, otp: string): nat
    decreases |rows|
  {
    if rows == [] then 0
    else (if Matches(rows[0], phone, otp) then 1 else 0) + MatchCount(rows[1..], phone, otp)
  }

  /** The index of the first matching row, `|rows|` when there is none. */
  function FirstMatch(rows: seq<OtpRecord>, phone: string, otp: string): (i: nat)
    ensures i <= |rows|
    ensures i < |rows| ==> Matches(rows[i], phone, otp)
    ensures forall j :: 0 <= j < i ==> !Matches(rows[j], phone, otp)
    ensures i == |rows| <==> MatchCount(rows, phone, otp) == 0
    decreases |rows|
  {
    if rows == [] then 0
    else if Matches(rows[0], phone, otp) then 0
    else 1 + FirstMatch(rows[1..], phone, otp)
  }

  /** `verifyOtp`: the answer and the table afterwards. The lookup returns an optional, so two
    * matching rows make it throw, which the method turns into `false`; `isValid` stands for the
    * record's own validity test. */
  function VerifyOutcome(rows: seq<OtpRecord>, phone: Option<string>, otp: string, isValid: OtpRecord -> bool): (bool, seq<OtpRecord>)
  {
    var f := FormatPhone(phone);
    if f.Err? || MatchCount(rows, f.value, otp) != 1 then (false, rows)
    else
      var i := FirstMatch(rows, f.value, otp);
      if !isValid(rows[i]) then (false, rows)
      else (true, rows[i := rows[i].(isUsed := true)])
  }

  /** No two rows share a phone number. */
  predicate AtMostOnePerPhone(rows: seq<OtpRecord>)
  {
    forall i, j :: 0 <= i < j < |rows| ==> rows[i].phoneNumber != rows[j].phoneNumber
  }

  // ---- the service --------------------------------------------------------

  /** `generateOtp`: six draws of a digit. */
  method GenerateOtp() returns (otp: string)
    ensures |otp| == OtpLength
    ensures forall i :: 0 <= i < |otp| ==> JsNumbers.IsDigit(otp[i])
  {
    otp := "";
    var i := 0;
    while i < OtpLength
      invariant 0 <= i <= OtpLength && |otp| == i
      invariant forall j :: 0 <= j < |otp| ==> JsNumbers.IsDigit(otp[j])
    {
      var d: nat :| d < 10;
      otp := otp + [JsNumbers.DigitChar(d)];
      i := i + 1;
    }
  }

  class OtpService {
    var rows: seq<OtpRecord>

    constructor (initial: seq<OtpRecord>)
      ensures rows == initial
    {
      rows := initial;
    }

    /** `generateAndSendOtp` at time `now`; `mail` is what sending the code by mail does. */
    method GenerateAndSendOtp(phone: Option<string>, email: Option<string>, now: int, mail: MailResult)
      returns (r: Result<Unit>, otp: string)
      modifies this`rows
      ensures (r, rows) == IssueOutcome(old(rows), phone, email, now, otp, mail)
      ensures r.Ok? ==> |otp| == OtpLength && forall i :: 0 <= i < |otp| ==> JsNumbers.IsDigit(otp[i])
    {
      otp := "";
      var f := FormatPhone(phone);
      if f.Err? {
        return Err(IssuePrefix + f.msg), otp;
      }
      if !Truthy(email) {
        return Err(IssuePrefix + EmailRequired), otp;
      }
      if !CanSend(rows, Some(f.value), now) {
        return Err(IssuePrefix + RateLimited), otp;
      }
      var before := rows;
      rows := DeletePhone(rows, f.value);
      otp := GenerateOtp();
      rows := rows + [OtpRecord(f.value, otp, now, now + OtpExpirySeconds, false)];
      if mail.MailFailed? {
        // the exception rolls the transaction back
        rows := before;
        return Err(IssuePrefix + MailPrefix + mail.reason), otp;
      }
      r := Ok(Unit);
    }

    /** `verifyOtp`: on success the matching row is marked used. */
    method VerifyOtp(phone: Option<string>, otp: string, isValid: OtpRecord -> bool) returns (ok: bool)
      modifies this`rows
      ensures (ok, rows) == VerifyOutcome(old(rows), phone, otp, isValid)
    {
      var f := FormatPhone(phone);
      if f.Err? {
        return false;
      }
      if MatchCount(rows, f.value, otp) != 1 {
        return false;
      }
      var i := FirstMatch(rows, f.value, otp);
      if !isValid(rows[i]) {
        return false;
      }
      rows := rows[i := rows[i].(isUsed := true)];
      ok := true;
    }
  }

  // ---- properties: phone numbers -----------------------------------------

  lemma {:induction false} KeepDialCharsPlain(s: string)
    requires AllDialChars(s)
    ensures KeepDialChars(s) == s
    decreases |s|
  {
    if s != [] {
      KeepDialCharsPlain(s[1..]);
      assert s == [s[0]] + s[1..];
    }
  }

  lemma {:induction false} KeepDialCharsNone(s: string)
    requires forall i :: 0 <= i < |s| ==> !IsDialChar(s[i])
    ensures KeepDialChars(s) == ""
    decreases |s|
  {
    if s != [] {
      KeepDialCharsNone(s[1..]);
    }
  }

  /** A normalised number holds only digits and '+'. */
  lemma FormatCharset(phone: Option<string>)
    ensures FormatPhone(phone).Ok? ==> AllDialChars(FormatPhone(phone).value)
  {
    if FormatPhone(phone).Ok? {
      var k := KeepDialChars(phone.value);
      var r := AddCountryCode(k);
      if r == "+91" + k {
        assert forall i :: 3 <= i < |r| ==> r[i] == k[i - 3];
      } else if r == "+" + k {
        assert forall i :: 1 <= i < |r| ==> r[i] == k[i - 1];
      }
    }
  }

  /** Normalising a non-empty normalised number changes nothing. */
  lemma FormatIdempotent(phone: Option<string>)
    requires FormatPhone(phone).Ok? && FormatPhone(phone).value != ""
    ensures FormatPhone(Some(FormatPhone(phone).value)) == FormatPhone(phone)
  {
    var r := FormatPhone(phone).value;
    FormatCharset(phone);
    KeepDialCharsPlain(r);
  }

  /** A number with no digit and no '+' normalises to "", and "" itself is refused. */
  lemma JunkPhoneFormatsEmpty(s: string)
    requires s != "" && forall i :: 0 <= i < |s| ==> !IsDialChar(s[i])
    ensures FormatPhone(Some(s)) == Ok("")
    ensures FormatPhone(Some("")) == Err(EmptyPhone)
  {
    KeepDialCharsNone(s);
  }

  /** The country-code rules on a cleaned number. */
  lemma FormatPrefixes(s: string)
    requires s != "" && AllDialChars(s)
    ensures s[0] == '+' ==> FormatPhone(Some(s)) == Ok(s)
    ensures s[0] != '+' && |s| == 10 ==> FormatPhone(Some(s)) == Ok("+91" + s)
    ensures s[0] != '+' && |s| == 12 && s[..2] == "91" ==> FormatPhone(Some(s)) == Ok("+" + s)
    ensures FormatPhone(None) == Err(EmptyPhone)
  {
    KeepDialCharsPlain(s);
  }

  // ---- properties: issuing ------------------------------------------------

  /** Every failed issue is reported under "Failed to generate OTP: " and leaves the table as it was. */
  lemma IssueFailureRollsBack(rows: seq<OtpRecord>, phone: Option<string>, email: Option<string>, now: int, otp: string, mail: MailResult)
    ensures var (r, after) := IssueOutcome(rows, phone, email, now, otp, mail);
      r.Err? ==> after == rows && IssuePrefix <= r.msg
  {
  }

  /** A successful issue needs a normalising phone, an email and a passed rate check, and it
    * leaves exactly one row for the phone, the new unused code expiring five minutes later;
    * the other phones' rows are kept in order. */
  lemma IssueSuccess(rows: seq<OtpRecord>, phone: Option<string>, email: Option<string>, now: int, otp: string)
    ensures var (r, after) := IssueOutcome(rows, phone, email, now, otp, Delivered);
      r.Ok? <==> FormatPhone(phone).Ok? && Truthy(email) && CanSend(rows, Some(FormatPhone(phone).value), now)
    ensures var (r, after) := IssueOutcome(rows, phone, email, now, otp, Delivered);
      r.Ok? ==>
        var f := FormatPhone(phone).value;
        after[|after| - 1] == OtpRecord(f, otp, now, now + OtpExpirySeconds, false)
        && (forall i :: 0 <= i < |after| - 1 ==> after[i].phoneNumber != f)
        && after[..|after| - 1] == Seqs.Filter(rows, (x: OtpRecord) => x.phoneNumber != f)
    ensures forall reason :: IssueOutcome(rows, phone, email, now, otp, MailFailed(reason)).1 == rows
  {
    var (r, after) := IssueOutcome(rows, phone, email, now, otp, Delivered);
    if r.Ok? {
      var f := FormatPhone(phone).value;
      assert after[..|after| - 1] == DeletePhone(rows, f);
    }
  }

  /** An all-junk phone passes normalisation as "" and then fails the rate check, because the
    * check normalises again and "" is refused. */
  lemma JunkPhoneIsRateLimited(rows: seq<OtpRecord>, s: string, email: string, now: int, otp: string, mail: MailResult)
    requires s != "" && forall i :: 0 <= i < |s| ==> !IsDialChar(s[i])
    requires email != ""
    ensures IssueOutcome(rows, Some(s), Some(email), now, otp, mail) == (Err(IssuePrefix + RateLimited), rows)
  {
    JunkPhoneFormatsEmpty(s);
  }

  /** `deleteByPhoneNumber` removes exactly that phone's rows: every other row stays, in table order
    * and with its copies, and the one-row-per-phone invariant is kept. */
  lemma DeletePhoneOthers(rows: seq<OtpRecord>, phone: string)
    requires AtMostOnePerPhone(rows)
    ensures AtMostOnePerPhone(DeletePhone(rows, phone))
    ensures forall i :: 0 <= i < |DeletePhone(rows, phone)| ==> DeletePhone(rows, phone)[i].phoneNumber != phone
    ensures forall i :: 0 <= i < |rows| && rows[i].phoneNumber != phone ==> rows[i] in DeletePhone(rows, phone)
    ensures Seqs.Subsequence(DeletePhone(rows, phone), rows)
    ensures forall x :: multiset(DeletePhone(rows, phone))[x] == if x.phoneNumber != phone then multiset(rows)[x] else 0
  {
    DeletePhoneKeepsOnePerPhone(rows, phone);
    var p := (x: OtpRecord) => x.phoneNumber != phone;
    Seqs.FilterIsSubsequence(rows, p);
    Seqs.FilterMultiplicity(rows, p);
  }

  lemma {:induction false} DeletePhoneKeepsOnePerPhone(rows: seq<OtpRecord>, phone: string)
    requires AtMostOnePerPhone(rows)
    ensures AtMostOnePerPhone(DeletePhone(rows, phone))
    ensures forall i :: 0 <= i < |DeletePhone(rows, phone)| ==> DeletePhone(rows, phone)[i].phoneNumber != phone
    decreases |rows|
  {
    var p := (x: OtpRecord) => x.phoneNumber != phone;
    if rows != [] {
      DeletePhoneKeepsOnePerPhone(rows[1..], phone);
      var rest := DeletePhone(rows[1..], phone);
      assert Seqs.Filter(rows, p) == (if p(rows[0]) then [rows[0]] else []) + Seqs.Filter(rows[1..], p);
      if p(rows[0]) {
        forall j | 0 <= j < |rest|
          ensures rows[0].phoneNumber != rest[j].phoneNumber
        {
          assert rest[j] in rows[1..];
        }
      }
    }
  }

  /** Issuing keeps at most one row per phone. */
  lemma IssueKeepsOnePerPhone(rows: seq<OtpRecord>, phone: Option<string>, email: Option<string>, now: int, otp: string, mail: MailResult)
    requires AtMostOnePerPhone(rows)
    ensures AtMostOnePerPhone(IssueOutcome(rows, phone, email, now, otp, mail).1)
  {
    var f := FormatPhone(phone);
    if f.Ok? {
      DeletePhoneKeepsOnePerPhone(rows, f.value);
    }
  }

  lemma {:induction false} RecentCountAtMostOne(rows: seq<OtpRecord>, phone: string, since: int)
    requires AtMostOnePerPhone(rows)
    ensures RecentCount(rows, phone, since) <= 1
    decreases |rows|
  {
    if rows != [] {
      RecentCountAtMostOne(rows[1..], phone, since);
      if rows[0].phoneNumber == phone {
        RecentCountNone(rows[1..], phone, since);
      }
    }
  }

  lemma {:induction false} RecentCountNone(rows: seq<OtpRecord>, phone: string, since: int)
    requires forall i :: 0 <= i < |rows| ==> rows[i].phoneNumber != phone
    ensures RecentCount(rows, phone, since) == 0
    decreases |rows|
  {
    if rows != [] {
      RecentCountNone(rows[1..], phone, since);
    }
  }

  /** While the table keeps at most one row per phone, which issuing maintains, the hourly limit
    * never refuses a phone that normalises to a non-empty number. */
  lemma OnePerPhoneNeverRateLimited(rows: seq<OtpRecord>, phone: Option<string>, now: int)
    requires AtMostOnePerPhone(rows)
    requires FormatPhone(phone).Ok? && FormatPhone(phone).value != ""
    ensures CanSend(rows, Some(FormatPhone(phone).value), now)
  {
    FormatIdempotent(phone);
    RecentCountAtMostOne(rows, FormatPhone(phone).value, now - OneHour);
  }

  // ---- properties: verification ------------------------------------------

  lemma {:induction false} MatchCountAfterUse(rows: seq<OtpRecord>, i: nat, phone: string, otp: string)
    requires i < |rows| && Matches(rows[i], phone, otp)
    ensures MatchCount(rows[i := rows[i].(isUsed := true)], phone, otp) == MatchCount(rows, phone, otp) - 1
    decreases |rows|
  {
    var after := rows[i := rows[i].(isUsed := true)];
    if i == 0 {
      assert after[1..] == rows[1..];
    } else {
      MatchCountAfterUse(rows[1..], i - 1, phone, otp);
      assert after[1..] == rows[1..][i - 1 := rows[i].(isUsed := true)];
    }
  }

  /** Verification succeeds exactly when the phone normalises, exactly one unused row holds the
    * code, and that row is valid; success marks only that row used. */
  lemma VerifyMeaning(rows: seq<OtpRecord>, phone: Option<string>, otp: string, isValid: OtpRecord -> bool)
    ensures var (ok, after) := VerifyOutcome(rows, phone, otp, isValid);
      ok <==> FormatPhone(phone).Ok? && MatchCount(rows, FormatPhone(phone).value, otp) == 1
              && isValid(rows[FirstMatch(rows, FormatPhone(phone).value, otp)])
    ensures var (ok, after) := VerifyOutcome(rows, phone, otp, isValid);
      |after| == |rows| && (forall j :: 0 <= j < |rows| ==> after[j].(isUsed := rows[j].isUsed) == rows[j])
      && (!ok ==> after == rows)
  {
  }

  /** A code verifies at most once: after a success the same phone and code fail, whatever the
    * validity test then says. */
  lemma VerifiesAtMostOnce(rows: seq<OtpRecord>, phone: Option<string>, otp: string, isValid: OtpRecord -> bool, isValid2: OtpRecord -> bool)
    requires VerifyOutcome(rows, phone, otp, isValid).0
    ensures !VerifyOutcome(VerifyOutcome(rows, phone, otp, isValid).1, phone, otp, isValid2).0
  {
    var f := FormatPhone(phone).value;
    MatchCountAfterUse(rows, FirstMatch(rows, f, otp), f, otp);
  }

  /** Verification keeps at most one row per phone. */
  lemma VerifyKeepsOnePerPhone(rows: seq<OtpRecord>, phone: Option<string>, otp: string, isValid: OtpRecord -> bool)
    requires AtMostOnePerPhone(rows)
    ensures AtMostOnePerPhone(VerifyOutcome(rows, phone, otp, isValid).1)
  {
  }
}
