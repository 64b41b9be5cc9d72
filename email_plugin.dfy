/**
 * The e-mail action plugin: the message text and SMTP envelope `sendEmail`
 * builds, the libcurl read callback that streams the message out of an
 * `EmailPayload` cursor, and the parameter handling of `execute`.
 *
 * The environment variables, the curl handle and the SMTP transfer itself
 * are inputs (`Smtp`); the transfer is an oracle from the request to whether
 * curl reported success.
 */
module EmailPlugin {
  import opened Basics
  import opened Json

  /** `size_t` on a 64-bit target. */
  const SIZE_MODULUS: nat := 0x1_0000_0000_0000_0000

  type SizeT = x: nat | x < SIZE_MODULUS

  /** The message being uploaded and how much of it has been handed to curl. */
  class EmailPayload {
    var data: string
    var pos: nat

    /** The cursor never runs past the message. */
    ghost predicate Valid()
      reads this
    {
      pos <= |data|
    }

    constructor(d: string)
      ensures data == d && pos == 0
      ensures Valid()
    {
      data := d;
      pos := 0;
    }
  }

  /** `size * nitems` in `size_t` arithmetic, which wraps. */
  function Requested(size: SizeT, nitems: SizeT): (r: SizeT)
    ensures size * nitems < SIZE_MODULUS ==> r == size * nitems
  {
    (size * nitems) % SIZE_MODULUS
  }

  /**
   * The bytes one callback hands over from position `pos`: as many as were
   * requested, or all that is left when that is less.
   */
  function Chunk(data: string, pos: nat, requested: nat): (c: string)
    requires pos <= |data|
    ensures |c| <= requested && pos + |c| <= |data|
    ensures |c| == requested || pos + |c| == |data|
    ensures data[..pos] + c == data[..pos + |c|]
  {
    data[pos..pos + Min(|data| - pos, requested)]
  }

  /**
   * `email_read_callback(buffer, size, nitems, userdata)`: copies the next
   * chunk of the message into `buffer`, advances the cursor past it and
   * returns its length; a null `userdata` returns 0 and touches nothing.
   */
  method EmailReadCallback(buffer: array<char>, size: SizeT, nitems: SizeT, userdata: EmailPayload?) returns (n: SizeT)
    requires buffer.Length >= Requested(size, nitems)
    requires userdata != null ==> userdata.Valid()
    modifies buffer, userdata
    ensures userdata == null ==> n == 0 && unchanged(buffer)
    ensures userdata != null ==>
      && userdata.Valid()
      && userdata.data == old(userdata.data)
      && n <= Requested(size, nitems)
      && buffer[..n] == Chunk(userdata.data, old(userdata.pos), Requested(size, nitems))
      && userdata.pos == old(userdata.pos) + n
      && buffer[n..] == old(buffer[n..])
  {
    if userdata == null {
      return 0;
    }
    var available := |userdata.data| - userdata.pos;
    var requested := Requested(size, nitems);
    var toCopy := Min(available, requested);
    if toCopy == 0 {
      return 0;
    }
    var from := userdata.pos;
    forall k | 0 <= k < toCopy {
      buffer[k] := userdata.data[from + k];
    }
    userdata.pos := userdata.pos + toCopy;
    n := toCopy;
  }

  function Sum(requests: seq<nat>): nat
  {
    if requests == [] then 0 else Sum(requests[..|requests| - 1]) + requests[|requests| - 1]
  }

  /**
   * Everything a fresh payload has handed over after callbacks asking for
   * `requests[0]`, `requests[1]`, ... bytes, in that order.
   */
  function Uploaded(data: string, requests: seq<nat>): (r: string)
    ensures |r| <= |data| && r == data[..|r|]
  {
    if requests == [] then []
    else
      var before := Uploaded(data, requests[..|requests| - 1]);
      before + Chunk(data, |before|, requests[|requests| - 1])
  }

  /** The callbacks hand over the message from its start, as much of it as was asked for. */
  lemma {:induction false} UploadedLength(data: string, requests: seq<nat>)
    ensures |Uploaded(data, requests)| == Min(|data|, Sum(requests))
  {
    if requests != [] {
      UploadedLength(data, requests[..|requests| - 1]);
    }
  }

  /**
   * A callback that is asked for at least one byte and returns 0 marks the end
   * of the upload: by then the chunks, joined, are exactly the message.
   */
  lemma Drained(data: string, requests: seq<nat>)
    requires requests != [] && requests[|requests| - 1] > 0
    requires |Uploaded(data, requests)| == |Uploaded(data, requests[..|requests| - 1])|
    ensures Uploaded(data, requests) == data
  {
  }

  /** Enough requested bytes deliver the whole message. */
  lemma DeliversAll(data: string, requests: seq<nat>)
    requires Sum(requests) >= |data|
    ensures Uploaded(data, requests) == data
  {
    UploadedLength(data, requests);
  }

  /** Once the whole message is out, further calls return nothing. */
  lemma AtEndNothing(data: string, requested: nat)
    ensures Chunk(data, |data|, requested) == []
  {
  }

  /** The header section: `To`, `From` and `Subject`, each line ended by CRLF. */
  function HeaderBlock(to: string, user: string, subject: string): string
  {
    "To: " + to + "\r\n" + "From: " + user + "\r\n" + "Subject: " + subject + "\r\n"
  }

  /** The message `sendEmail` uploads: the header section, a blank line, the body and a final CRLF. */
  function Payload(to: string, user: string, subject: string, body: string): (r: string)
    ensures |r| == |HeaderBlock(to, user, subject)| + |body| + 4
    ensures r[..|HeaderBlock(to, user, subject)|] == HeaderBlock(to, user, subject)
    ensures r[|r| - 2..] == "\r\n"
  {
    HeaderBlock(to, user, subject) + "\r\n" + body + "\r\n"
  }

  /** A mailbox as the SMTP envelope writes it, in angle brackets. */
  function Envelope(address: string): (r: string)
    ensures |r| == |address| + 2
    ensures r[0] == '<' && r[|r| - 1] == '>' && r[1..|r| - 1] == address
  {
    "<" + address + ">"
  }

  /** Text that fits on one line: no CR and no LF. */
  predicate OneLine(s: string)
  {
    forall k :: 0 <= k < |s| ==> s[k] != '\r' && s[k] != '\n'
  }

  predicate BlankLineAt(m: string, i: nat)
  {
    i + 4 <= |m| && m[i] == '\r' && m[i + 1] == '\n' && m[i + 2] == '\r' && m[i + 3] == '\n'
  }

  /** Where the first empty line (CRLF CRLF) at or after `from` begins. */
  function FindBlankLine(m: string, from: nat): (r: Option<nat>)
    decreases |m| - from
    ensures r.Some? ==> from <= r.value && BlankLineAt(m, r.value)
                        && forall j :: from <= j < r.value ==> !BlankLineAt(m, j)
    ensures r.None? ==> forall j :: from <= j ==> !BlankLineAt(m, j)
  {
    if from + 4 > |m| then None
    else if BlankLineAt(m, from) then Some(from)
    else FindBlankLine(m, from + 1)
  }

  lemma {:induction false} FindBlankLineAt(m: string, from: nat, k: nat)
    requires from <= k && BlankLineAt(m, k)
    requires forall j :: from <= j < k ==> !BlankLineAt(m, j)
    ensures FindBlankLine(m, from) == Some(k)
    decreases k - from
  {
    if from < k {
      FindBlankLineAt(m, from + 1, k);
    }
  }

  /** `k` is where the first empty line of `m` begins. */
  predicate FirstBlankLine(m: string, k: nat)
  {
    BlankLineAt(m, k) && forall j :: 0 <= j < k ==> !BlankLineAt(m, j)
  }

  /** A header line ended by CRLF, in front of text that does not start with CR, moves the first empty line along. */
  lemma LineBefore(x: string, y: string, k: nat)
    requires OneLine(x) && y != [] && y[0] != '\r'
    requires FirstBlankLine(y, k)
    ensures FirstBlankLine(x + "\r\n" + y, |x| + 2 + k)
  {
    var m := x + "\r\n" + y;
    var d := |x| + 2;
    forall j | 0 <= j < d + k
      ensures !BlankLineAt(m, j)
    {
      if j < |x| {
        assert m[j] == x[j];
      } else if j == |x| {
        assert m[j + 2] == y[0];
      } else if j >= d {
        assert !BlankLineAt(y, j - d);
        assert m[j] == y[j - d] && m[j + 1] == y[j - d + 1] && m[j + 2] == y[j - d + 2];
      }
    }
    assert m[d + k] == y[k] && m[d + k + 1] == y[k + 1] && m[d + k + 2] == y[k + 2] && m[d + k + 3] == y[k + 3];
  }

  /** The last header line, then the empty line. */
  lemma LastLine(c: string, rest: string)
    requires OneLine(c)
    ensures FirstBlankLine(c + "\r\n\r\n" + rest, |c|)
  {
    var m := c + "\r\n\r\n" + rest;
    forall j | 0 <= j < |c|
      ensures !BlankLineAt(m, j)
    {
      assert m[j] == c[j];
    }
  }

  /** A field name followed by a single-line value is a single line. */
  lemma FieldOneLine(name: string, value: string)
    requires OneLine(name) && OneLine(value)
    ensures OneLine(name + value)
  {
    assert forall k :: 0 <= k < |name + value| ==> (name + value)[k] == if k < |name| then name[k] else value[k - |name|];
  }

  /** The message as its lines nest: each header line, then the rest. */
  lemma PayloadNesting(to: string, user: string, subject: string, body: string)
    ensures var a, b, c := "To: " + to, "From: " + user, "Subject: " + subject;
      && HeaderBlock(to, user, subject) == a + "\r\n" + b + "\r\n" + c + "\r\n"
      && Payload(to, user, subject, body) == a + "\r\n" + (b + "\r\n" + (c + "\r\n\r\n" + (body + "\r\n")))
      && Payload(to, user, subject, body) == HeaderBlock(to, user, subject) + ("\r\n" + body + "\r\n")
  {
  }

  /**
   * The message has the shape of section 2.1 of RFC 5322: when the addresses
   * and the subject are single lines, the first empty line of the message
   * ends the three header fields, and what follows it is the body.
   */
  lemma PayloadSections(to: string, user: string, subject: string, body: string)
    requires OneLine(to) && OneLine(user) && OneLine(subject)
    ensures var m, h := Payload(to, user, subject, body), HeaderBlock(to, user, subject);
      && FindBlankLine(m, 0) == Some(|h| - 2)
      && m[..|h|] == h
      && m[|h| + 2..] == body + "\r\n"
  {
    var a, b, c := "To: " + to, "From: " + user, "Subject: " + subject;
    FieldOneLine("To: ", to);
    FieldOneLine("From: ", user);
    FieldOneLine("Subject: ", subject);
    var m3 := c + "\r\n\r\n" + (body + "\r\n");
    var m2 := b + "\r\n" + m3;
    var m1 := a + "\r\n" + m2;
    LastLine(c, body + "\r\n");
    LineBefore(b, m3, |c|);
    LineBefore(a, m2, |b| + 2 + |c|);
    FindBlankLineAt(m1, 0, |a| + 2 + |b| + 2 + |c|);
    PayloadNesting(to, user, subject, body);
  }

  /** The SMTP transfer `sendEmail` configures. */
  datatype Request = Request(
    url: string,
    username: string,
    password: string,
    mailFrom: string,
    recipients: seq<string>,
    payload: string,
    timeoutSeconds: nat)

  /**
   * What `sendEmail` depends on outside the program: `SMTP_USER` and
   * `SMTP_PASS` (`None` when unset), whether `curl_easy_init` and
   * `curl_slist_append` succeed, and whether the transfer of a request
   * succeeds.
   */
  datatype Smtp = Smtp(
    user: Option<string>,
    pass: Option<string>,
    handle: bool,
    recipientList: bool,
    perform: Request -> bool)

  /** An unset variable reads as the empty string. */
  function EnvValue(v: Option<string>): string
  {
    if v.Some? then v.value else ""
  }

  /** Whether a transfer was attempted, and if so what it was and whether it succeeded. */
  datatype Delivery = NotSent | Sent(request: Request, delivered: bool)

  const SMTP_URL: string := "smtp://smtp.gmail.com:587"
  const TIMEOUT_SECONDS: nat := 30

  /**
   * `sendEmail(to, subject, body)`: nothing is sent without a curl handle,
   * without both credentials, or without a recipient list; otherwise the
   * request carries the message and the envelope for `to`, and `sendEmail`
   * returns true exactly when the transfer succeeds.
   */
  function SendEmail(to: string, subject: string, body: string, smtp: Smtp): (r: Delivery)
    ensures r.Sent? <==> smtp.handle && EnvValue(smtp.user) != "" && EnvValue(smtp.pass) != "" && smtp.recipientList
    ensures r.Sent? ==> var user := EnvValue(smtp.user);
      && r.request.username == user && r.request.password == EnvValue(smtp.pass)
      && r.request.mailFrom == Envelope(user) && r.request.recipients == [Envelope(to)]
      && r.request.payload == Payload(to, user, subject, body)
      && r.request.url == SMTP_URL && r.request.timeoutSeconds == TIMEOUT_SECONDS
      && r.delivered == smtp.perform(r.request)
  {
    if !smtp.handle then NotSent
    else
      var user, pass := EnvValue(smtp.user), EnvValue(smtp.pass);
      if user == "" || pass == "" then NotSent
      else if !smtp.recipientList then NotSent
      else
        var request := Request(SMTP_URL, user, pass, Envelope(user), [Envelope(to)], Payload(to, user, subject, body), TIMEOUT_SECONDS);
        Sent(request, smtp.perform(request))
  }

  /** `sendEmail`'s result. */
  predicate Succeeded(d: Delivery)
  {
    d.Sent? && d.delivered
  }

  /** Missing credentials fail before anything is sent. */
  lemma CredentialsRequired(to: string, subject: string, body: string, smtp: Smtp)
    requires EnvValue(smtp.user) == "" || EnvValue(smtp.pass) == ""
    ensures SendEmail(to, subject, body, smtp) == NotSent
    ensures !Succeeded(SendEmail(to, subject, body, smtp))
  {
  }

  const DEFAULT_SUBJECT: string := "Message from FlowForge"
  const DEFAULT_DELAY: int := 0

  /** `j.get<int>()`: numbers convert, and so do booleans (as 0 or 1); `None` is the `type_error`. */
  function AsInt(j: Json): (r: Option<int>)
    ensures r.Some? <==> j.Number? || j.Bool?
  {
    match j
    case Number(n) => Some(ToInt32(n))
    case Bool(b) => Some(if b then 1 else 0)
    case _ => None
  }

  /** `config[key].get<std::string>()` on a mutable value: a missing key reads as null, which is no string. */
  function Required(config: Json, key: string): (r: Option<string>)
    ensures r.Some? <==> Contains(config, key) && Get(config, key).Str?
    ensures r.Some? ==> r.value == Get(config, key).s
  {
    if Contains(config, key) then AsString(Get(config, key)) else None
  }

  /** `config.value(key, default)` for a string, on an object. */
  function StringOr(config: Json, key: string, default: string): (r: Option<string>)
    requires config.Object?
    ensures !Contains(config, key) ==> r == Some(default)
    ensures Contains(config, key) ==> r == AsString(Get(config, key))
  {
    if Contains(config, key) then AsString(Get(config, key)) else Some(default)
  }

  /** `config.value(key, default)` for an `int`, on an object. */
  function IntOr(config: Json, key: string, default: int): (r: Option<int>)
    requires config.Object?
    ensures !Contains(config, key) ==> r == Some(default)
    ensures Contains(config, key) ==> r == AsInt(Get(config, key))
  {
    if Contains(config, key) then AsInt(Get(config, key)) else Some(default)
  }

  /** What `execute` did. */
  datatype EmailReport =
    | EmailError                          // an exception: "EmailPlugin Error: ..."
    | Attempted(delayMinutes: int, waitedMinutes: nat, recipient: string, delivery: Delivery)

  /**
   * `execute(params)`: `parsed` is `json::parse(params)` (`None` for a
   * parse error). The recipient and the content are required strings; the
   * subject and the delay have defaults; the plugin waits `delay` minutes
   * when it is positive, then sends.
   */
  function Execute(parsed: Option<Json>, smtp: Smtp): (r: EmailReport)
    ensures r.Attempted? ==> parsed.Some? && parsed.value.Object?
    ensures r.Attempted? ==> r.waitedMinutes == (if r.delayMinutes > 0 then r.delayMinutes else 0)
  {
    if parsed.None? || !parsed.value.Object? then EmailError
    else
      var config := parsed.value;
      var recipient := Required(config, "recipient");
      if recipient.None? then EmailError
      else
        var subject := StringOr(config, "subject", DEFAULT_SUBJECT);
        if subject.None? then EmailError
        else
          var content := Required(config, "content");
          if content.None? then EmailError
          else
            var delay := IntOr(config, "delay", DEFAULT_DELAY);
            if delay.None? then EmailError
            else
              var waited := if delay.value > 0 then delay.value else 0;
              Attempted(delay.value, waited, recipient.value, SendEmail(recipient.value, subject.value, content.value, smtp))
  }

  /** A well-formed configuration is sent with its own subject and its own delay. */
  lemma ExecuteSends(config: Json, smtp: Smtp)
    requires Contains(config, "recipient") && Get(config, "recipient").Str?
    requires Contains(config, "content") && Get(config, "content").Str?
    requires Contains(config, "subject") ==> Get(config, "subject").Str?
    requires Contains(config, "delay") ==> Get(config, "delay").Number?
    ensures var r := Execute(Some(config), smtp);
      var subject := if Contains(config, "subject") then Get(config, "subject").s else DEFAULT_SUBJECT;
      var delay := if Contains(config, "delay") then ToInt32(Get(config, "delay").n) else DEFAULT_DELAY;
      && r.Attempted?
      && r.recipient == Get(config, "recipient").s
      && r.delayMinutes == delay
      && r.delivery == SendEmail(Get(config, "recipient").s, subject, Get(config, "content").s, smtp)
  {
  }

  /** Without `subject` and `delay` the default subject is used and there is no wait. */
  lemma ExecuteDefaults(to: string, body: string, smtp: Smtp)
    ensures var r := Execute(Some(Object([("content", Str(body)), ("recipient", Str(to))])), smtp);
      && r == Attempted(0, 0, to, SendEmail(to, DEFAULT_SUBJECT, body, smtp))
  {
    var config := Object([("content", Str(body)), ("recipient", Str(to))]);
    assert KeyIndex(config.members, "content") == 0;
    assert KeyIndex(config.members, "recipient") == 1;
    assert KeyIndex(config.members, "subject") == -1;
    assert KeyIndex(config.members, "delay") == -1;
  }

  /** A missing or non-string recipient or content, or a non-object configuration, ends in the error report. */
  lemma ExecuteRejects(parsed: Option<Json>, smtp: Smtp)
    requires parsed.None? || !parsed.value.Object?
             || Required(parsed.value, "recipient").None? || Required(parsed.value, "content").None?
    ensures Execute(parsed, smtp) == EmailError
  {
  }
}
