// The SendGrid mail path: the chained `replace` that turns the HTML body into JSON string
// content, the JSON-unescaping it is meant to invert (section 7 of RFC 8259), the payload's
// fields, the API-key guard and the 2xx success test on the reply status.
module SendGrid {
  import opened Wrappers
  import opened JsStrings
  import JsNumbers

  // ---- the replace chain --------------------------------------------------

  /** `s.replace(c, rep)` for a one-character target: every occurrence, left to right. */
  function ReplaceChar(s: string, c: char, rep: string): string
    decreases |s|
  {
    if s == [] then [] else (if s[0] == c then rep else [s[0]]) + ReplaceChar(s[1..], c, rep)
  }

  /** The five replacements in source order: backslash, quote, newline, CR, tab. */
  function EscapeChain(html: string): string
  {
    ReplaceChar(ReplaceChar(ReplaceChar(ReplaceChar(ReplaceChar(html, '\\', "\\\\"), '"', "\\\""), '\n', "\\n"), '\r', "\\r"), '\t', "\\t")
  }

  /** The replacement of one character. */
  function EscapeChar(c: char): string
  {
    if c == '\\' then "\\\\"
    else if c == '"' then "\\\""
    else if c == '\n' then "\\n"
    else if c == '\r' then "\\r"
    else if c == '\t' then "\\t"
    else [c]
  }

  /** The per-character mapping the chain amounts to. */
  function EscapeMap(s: string): string
    decreases |s|
  {
    if s == [] then [] else EscapeChar(s[0]) + EscapeMap(s[1..])
  }

  predicate IsSpecial(c: char)
  {
    c == '\\' || c == '"' || c == '\n' || c == '\r' || c == '\t'
  }

  function SpecialCount(s: string): nat
    decreases |s|
  {
    if s == [] then 0 else (if IsSpecial(s[0]) then 1 else 0) + SpecialCount(s[1..])
  }

  /** A control character below U+0020 that the chain leaves as it is. */
  predicate IsOtherControl(c: char)
  {
    c < ' ' && c != '\n' && c != '\r' && c != '\t'
  }

  // ---- strict JSON string content (RFC 8259 section 7) --------------------

  function ShortEscape(e: char): Option<char>
  {
    if e == '"' then Some('"')
    else if e == '\\' then Some('\\')
    else if e == '/' then Some('/')
    else if e == 'b' then Some('\U{8}')
    else if e == 'f' then Some('\U{C}')
    else if e == 'n' then Some('\n')
    else if e == 'r' then Some('\r')
    else if e == 't' then Some('\t')
    else None
  }

  function Hex4(h: string): (r: Option<nat>)
    requires |h| == 4
    ensures r.Some? ==> r.value < 0x10000
  {
    var a, b := JsNumbers.HexValue(h[0]), JsNumbers.HexValue(h[1]);
    var c, d := JsNumbers.HexValue(h[2]), JsNumbers.HexValue(h[3]);
    if a.None? || b.None? || c.None? || d.None? then None
    else Some(((a.value * 16 + b.value) * 16 + c.value) * 16 + d.value)
  }

  function Prepend(c: char, rest: Option<string>): Option<string>
  {
    if rest.None? then None else Some([c] + rest.value)
  }

  /** The characters between the quotes of a JSON string, decoded; None when they are not
    * valid content (a raw quote or control character, or an unknown escape). */
  function JsonUnescape(s: string): Option<string>
    decreases |s|
  {
    if s == [] then Some([])
    else if s[0] == '\\' then
      if |s| < 2 then None
      else if ShortEscape(s[1]).Some? then Prepend(ShortEscape(s[1]).value, JsonUnescape(s[2..]))
      else if s[1] != 'u' || |s| < 6 then None
      else
        var unit := Hex4(s[2..6]);
        if unit.Some? && !(0xD800 <= unit.value <= 0xDFFF) then Prepend(unit.value as char, JsonUnescape(s[6..]))
        else None
    else if s[0] == '"' || s[0] < ' ' then None
    else Prepend(s[0], JsonUnescape(s[1..]))
  }

  // ---- the request --------------------------------------------------------

  /** The JSON payload's fields: only `value` is escaped; the others enter the template raw. */
  datatype Payload = Payload(toEmail: string, fromEmail: string, fromName: string, subjectOtp: string, value: string)

  function PayloadOf(toEmail: string, fromEmail: string, fromName: string, otp: string, html: string): Payload
  {
    Payload(toEmail, fromEmail, fromName, otp, EscapeChain(html))
  }

  const SendUrl := "https://api.sendgrid.com/v3/mail/send"

  datatype MailRequest = MailRequest(url: string, authorization: string, contentType: string, payload: Payload)

  /** What the connection does with the request. */
  datatype Connection = Responded(status: int) | IoFailed(message: string)

  datatype SendOutcome = Skipped | Sent(request: MailRequest)

  const FailurePrefix := "Failed to send OTP email via SendGrid: "
  const StatusPrefix := "SendGrid API returned status: "

  /** The 2xx class of section 15.3 of RFC 9110. */
  predicate IsSuccessful(status: int)
  {
    200 <= status < 300
  }

  class SendGridEmailService {
    const apiKey: Option<string>
    const fromEmail: string
    const fromName: string

    /** The configured key and sender; missing properties take the defaults. */
    constructor (apiKey: Option<string>, fromEmail: Option<string>, fromName: Option<string>)
      ensures this.apiKey == apiKey
      ensures this.fromEmail == fromEmail.GetOr("noreply@smartride.com")
      ensures this.fromName == fromName.GetOr("SmartRide")
    {
      this.apiKey := apiKey;
      this.fromEmail := fromEmail.GetOr("noreply@smartride.com");
      this.fromName := fromName.GetOr("SmartRide");
    }

    /** `isSendGridConfigured` */
    predicate IsConfigured()
      reads this
    {
      apiKey.Some? && apiKey.value != ""
    }

    /** `sendOtpEmail` with the rendered HTML body `html`; `conn` is what the HTTP exchange does. */
    method SendOtpEmail(toEmail: string, otp: string, html: string, conn: Connection) returns (r: Result<SendOutcome>)
      ensures !IsConfigured() ==> r == Ok(Skipped)
      ensures IsConfigured() && conn.Responded? && IsSuccessful(conn.status) ==>
        r == Ok(Sent(MailRequest(SendUrl, "Bearer " + apiKey.value, "application/json",
                                 PayloadOf(toEmail, fromEmail, fromName, otp, html))))
      ensures IsConfigured() && conn.Responded? && !IsSuccessful(conn.status) ==>
        r == Err(FailurePrefix + StatusPrefix + JsNumbers.IntToString(conn.status))
      ensures IsConfigured() && conn.IoFailed? ==> r == Err(FailurePrefix + conn.message)
    {
      if apiKey.None? || apiKey.value == "" {
        return Ok(Skipped);
      }
      var escaped := EscapeChain(html);
      var payload := Payload(toEmail, fromEmail, fromName, otp, escaped);
      var request := MailRequest(SendUrl, "Bearer " + apiKey.value, "application/json", payload);
      match conn {
        case IoFailed(m) =>
          r := Err(FailurePrefix + m);
        case Responded(status) =>
          if 200 <= status < 300 {
            r := Ok(Sent(request));
          } else {
            r := Err(FailurePrefix + StatusPrefix + JsNumbers.IntToString(status));
          }
      }
    }
  }

  // ---- properties ---------------------------------------------------------

  lemma {:induction false} ReplaceCharConcat(a: string, b: string, c: char, rep: string)
    ensures ReplaceChar(a + b, c, rep) == ReplaceChar(a, c, rep) + ReplaceChar(b, c, rep)
    decreases |a|
  {
    if a == [] {
      assert a + b == b;
    } else {
      var head := if a[0] == c then rep else [a[0]];
      assert (a + b)[0] == a[0];
      assert (a + b)[1..] == a[1..] + b;
      ReplaceCharConcat(a[1..], b, c, rep);
      calc {
        ReplaceChar(a + b, c, rep);
        head + ReplaceChar(a[1..] + b, c, rep);
        head + (ReplaceChar(a[1..], c, rep) + ReplaceChar(b, c, rep));
        (head + ReplaceChar(a[1..], c, rep)) + ReplaceChar(b, c, rep);
      }
    }
  }

  lemma ReplaceOne(x: char, c: char, rep: string)
    ensures ReplaceChar([x], c, rep) == if x == c then rep else [x]
  {
    assert [x][1..] == [];
    assert ReplaceChar([x], c, rep) == (if x == c then rep else [x]) + ReplaceChar([], c, rep);
  }

  /** Replacing in a two-character string that holds neither character of the target. */
  lemma ReplaceTwo(x: char, y: char, c: char, rep: string)
    requires x != c && y != c
    ensures ReplaceChar([x, y], c, rep) == [x, y]
  {
    assert [x, y] == [x] + [y];
    ReplaceCharConcat([x], [y], c, rep);
    ReplaceOne(x, c, rep);
    ReplaceOne(y, c, rep);
  }

  lemma ChainOfOne(c: char)
    ensures EscapeChain([c]) == EscapeChar(c)
  {
    ReplaceOne(c, '\\', "\\\\");
    if c == '\\' {
      ReplaceTwo('\\', '\\', '"', "\\\"");
      ReplaceTwo('\\', '\\', '\n', "\\n");
      ReplaceTwo('\\', '\\', '\r', "\\r");
      ReplaceTwo('\\', '\\', '\t', "\\t");
    } else {
      ReplaceOne(c, '"', "\\\"");
      if c == '"' {
        ReplaceTwo('\\', '"', '\n', "\\n");
        ReplaceTwo('\\', '"', '\r', "\\r");
        ReplaceTwo('\\', '"', '\t', "\\t");
      } else {
        ReplaceOne(c, '\n', "\\n");
        if c == '\n' {
          ReplaceTwo('\\', 'n', '\r', "\\r");
          ReplaceTwo('\\', 'n', '\t', "\\t");
        } else {
          ReplaceOne(c, '\r', "\\r");
          if c == '\r' {
            ReplaceTwo('\\', 'r', '\t', "\\t");
          } else {
            ReplaceOne(c, '\t', "\\t");
          }
        }
      }
    }
  }

  /** Because the backslash is replaced first, the chain is the per-character mapping. */
  lemma {:induction false} ChainIsMap(s: string)
    ensures EscapeChain(s) == EscapeMap(s)
    decreases |s|
  {
    if s != [] {
      assert s == [s[0]] + s[1..];
      ReplaceCharConcat([s[0]], s[1..], '\\', "\\\\");
      var a1, b1 := ReplaceChar([s[0]], '\\', "\\\\"), ReplaceChar(s[1..], '\\', "\\\\");
      ReplaceCharConcat(a1, b1, '"', "\\\"");
      var a2, b2 := ReplaceChar(a1, '"', "\\\""), ReplaceChar(b1, '"', "\\\"");
      ReplaceCharConcat(a2, b2, '\n', "\\n");
      var a3, b3 := ReplaceChar(a2, '\n', "\\n"), ReplaceChar(b2, '\n', "\\n");
      ReplaceCharConcat(a3, b3, '\r', "\\r");
      var a4, b4 := ReplaceChar(a3, '\r', "\\r"), ReplaceChar(b3, '\r', "\\r");
      ReplaceCharConcat(a4, b4, '\t', "\\t");
      ChainOfOne(s[0]);
      ChainIsMap(s[1..]);
    }
  }

  lemma UnescapeAfterChar(c: char, t: string)
    ensures JsonUnescape(EscapeChar(c) + t) == if IsOtherControl(c) then None else Prepend(c, JsonUnescape(t))
  {
    var e := EscapeChar(c) + t;
    if IsSpecial(c) {
      assert e[0] == '\\' && e[2..] == t;
    } else {
      assert e[1..] == t;
    }
  }

  lemma {:induction false} MapRoundTrip(s: string)
    ensures JsonUnescape(EscapeMap(s)) == (if exists i :: 0 <= i < |s| && IsOtherControl(s[i]) then None else Some(s))
    decreases |s|
  {
    if s != [] {
      UnescapeAfterChar(s[0], EscapeMap(s[1..]));
      MapRoundTrip(s[1..]);
      if exists i :: 0 <= i < |s[1..]| && IsOtherControl(s[1..][i]) {
        var i :| 0 <= i < |s[1..]| && IsOtherControl(s[1..][i]);
        assert IsOtherControl(s[i + 1]);
      } else if !IsOtherControl(s[0]) {
        assert s == [s[0]] + s[1..];
        forall i | 0 <= i < |s|
          ensures !IsOtherControl(s[i])
        {
          if i > 0 {
            assert s[i] == s[1..][i - 1];
          }
        }
      }
    }
  }

  /** JSON-unescaping the chain's output gives back the HTML exactly when the HTML holds no
    * control character other than newline, CR and tab; such a character passes through raw,
    * which JSON string content does not allow. */
  lemma EscapeRoundTrip(html: string)
    ensures (forall i :: 0 <= i < |html| ==> !IsOtherControl(html[i])) ==> JsonUnescape(EscapeChain(html)) == Some(html)
    ensures (exists i :: 0 <= i < |html| && IsOtherControl(html[i])) ==> JsonUnescape(EscapeChain(html)) == None
  {
    ChainIsMap(html);
    MapRoundTrip(html);
  }

  /** U+0001 is left as it is, and the result is not valid JSON string content. */
  lemma ControlCharacterBreaksRoundTrip()
    ensures EscapeChain("\U{1}") == "\U{1}"
    ensures JsonUnescape(EscapeChain("\U{1}")) == None
  {
    ChainIsMap("\U{1}");
    assert EscapeMap("\U{1}") == EscapeChar('\U{1}') + EscapeMap([]);
  }

  lemma {:induction false} MapShape(s: string)
    ensures |EscapeMap(s)| == |s| + SpecialCount(s)
    ensures forall i :: 0 <= i < |EscapeMap(s)| ==> EscapeMap(s)[i] != '\n' && EscapeMap(s)[i] != '\r' && EscapeMap(s)[i] != '\t'
    decreases |s|
  {
    if s != [] {
      MapShape(s[1..]);
      var head := EscapeChar(s[0]);
      assert forall i :: 0 <= i < |head| ==> head[i] != '\n' && head[i] != '\r' && head[i] != '\t';
      var m := EscapeMap(s);
      assert m == head + EscapeMap(s[1..]);
      forall i | 0 <= i < |m|
        ensures m[i] != '\n' && m[i] != '\r' && m[i] != '\t'
      {
        if i >= |head| {
          assert m[i] == EscapeMap(s[1..])[i - |head|];
        }
      }
    }
  }

  /** The output has no raw newline, CR or tab, and is one character longer for each special
    * character of the input. */
  lemma EscapeShape(html: string)
    ensures |EscapeChain(html)| == |html| + SpecialCount(html)
    ensures forall i :: 0 <= i < |EscapeChain(html)| ==> EscapeChain(html)[i] != '\n' && EscapeChain(html)[i] != '\r' && EscapeChain(html)[i] != '\t'
  {
    ChainIsMap(html);
    MapShape(html);
  }

  /** The payload escapes the HTML only: a recipient address with a quote enters the JSON as it
    * is, and that content is not a valid JSON string. */
  lemma RawFieldsUnescaped(toEmail: string, fromEmail: string, fromName: string, otp: string, html: string)
    ensures PayloadOf(toEmail, fromEmail, fromName, otp, html).toEmail == toEmail
    ensures PayloadOf(toEmail, fromEmail, fromName, otp, html).subjectOtp == otp
    ensures JsonUnescape("a\"b@x") == None
  {
    assert "a\"b@x"[1..][0] == '"';
  }
}
