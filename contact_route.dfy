/** The `/api/contact` route (`src/app/api/contact/route.ts`): check the mail configuration,
    parse the body, validate the form, send the message. Each step that fails ends the request
    with its own response. */
module ContactRoute {
  import opened Common
  import opened Validation
  import opened Api

  /** The environment variables the route requires, in the order it checks them. */
  const EnvKeys: seq<string> := [
    "SMTP_HOST", "SMTP_PORT", "SMTP_SECURE", "SMTP_USER", "SMTP_PASSWORD", "SMTP_FROM", "CONTACT_EMAIL"
  ]

  /** `!!process.env[key]`: the variable is defined and not empty. */
  predicate IsSet(env: map<string, string>, key: string) {
    key in env && env[key] != ""
  }

  /** The keys of `keys` with no usable value, in order (`filter` then `map`). */
  function Missing(env: map<string, string>, keys: seq<string>): (r: seq<string>)
    ensures forall k :: k in r <==> k in keys && !IsSet(env, k)
    ensures |r| <= |keys|
  {
    if keys == [] then []
    else (if IsSet(env, keys[0]) then [] else [keys[0]]) + Missing(env, keys[1..])
  }

  /** Filtering keeps the order of the checked keys: the result for a list is the result for
      its first part followed by the result for the rest. */
  lemma {:induction false} MissingConcat(env: map<string, string>, a: seq<string>, b: seq<string>)
    ensures Missing(env, a + b) == Missing(env, a) + Missing(env, b)
  {
    if a != [] {
      var head := if IsSet(env, a[0]) then [] else [a[0]];
      assert (a + b)[0] == a[0];
      assert (a + b)[1..] == a[1..] + b;
      assert Missing(env, a + b) == head + Missing(env, a[1..] + b);
      MissingConcat(env, a[1..], b);
      assert Missing(env, a) == head + Missing(env, a[1..]);
      ConcatAssoc(head, Missing(env, a[1..]), Missing(env, b));
    } else {
      assert a + b == b;
    }
  }

  /** With nothing configured, every variable is reported, in declaration order. */
  lemma {:induction false} NothingSetReportsAll(env: map<string, string>, keys: seq<string>)
    requires forall k :: k in keys ==> !IsSet(env, k)
    ensures Missing(env, keys) == keys
  {
    if keys != [] {
      NothingSetReportsAll(env, keys[1..]);
    }
  }

  /** With everything configured, nothing is reported. */
  lemma {:induction false} AllSetReportsNone(env: map<string, string>, keys: seq<string>)
    requires forall k :: k in keys ==> IsSet(env, k)
    ensures Missing(env, keys) == []
  {
    if keys != [] {
      assert keys[0] in keys;
      AllSetReportsNone(env, keys[1..]);
    }
  }

  /** `list.join(sep)`. */
  function Join(xs: seq<string>, sep: string): (r: string)
    ensures |xs| == 1 ==> r == xs[0]
  {
    if xs == [] then "" else if |xs| == 1 then xs[0] else xs[0] + sep + Join(xs[1..], sep)
  }

  /** `contactFormSchema`. */
  const ContactFormSchema: Schema := [
    Entry("name", MinLength(2)),
    Entry("email", Email),
    Entry("phone", MinLength(7)),
    Entry("subject", MinLength(5)),
    Entry("message", MinLength(10))
  ]

  /** The schema accepts exactly these forms. */
  lemma ContactSchemaMeaning(f: Fields, isEmail: EmailCheck)
    ensures Parse(f, ContactFormSchema, isEmail).Success? <==>
      StringOfLength(f, "name", 2) && "email" in f && f["email"].Str? && isEmail(f["email"].s)
      && StringOfLength(f, "phone", 7) && StringOfLength(f, "subject", 5) && StringOfLength(f, "message", 10)
  {
    var s := ContactFormSchema;
    assert AllSatisfied(f, s, isEmail) <==>
      Satisfies(f, s[0], isEmail) && Satisfies(f, s[1], isEmail) && Satisfies(f, s[2], isEmail)
      && Satisfies(f, s[3], isEmail) && Satisfies(f, s[4], isEmail);
  }

  /** The validated form handed to `sendEmail`. */
  datatype ContactForm = ContactForm(name: string, email: string, phone: string, subject: string, message: string)

  /** `{ success, message, debug?, errors? }`. */
  datatype ContactBody = ContactBody(success: bool, message: string, debug: Option<string>, errors: Option<seq<Issue>>)

  /** The response and the message handed to the mailer, if one was. */
  datatype ContactOutcome = ContactOutcome(response: Response<ContactBody>, sent: Option<ContactForm>)

  const ConfigErrorMessage := "Server configuration error. Please try again later."
  const MissingPrefix := "Missing env vars: "
  const SentMessage := "Thank you! Your message has been sent successfully."
  const SendFailedMessage := "Failed to send message. Please try again later."

  /** Logging the body reads `body.message?.substring(0, 50)`: it throws for a `null` body,
      and for a `message` member that is neither a string nor `null`; a string, `null` or
      absent member is read without error. */
  predicate LogThrows(body: RequestBody) {
    (body.NotObject? && body.isNull)
    || (body.Parsed? && "message" in body.fields && body.fields["message"].OtherJson?)
  }

  /** `POST`, given the environment, the parsed body, the e-mail check and the mailer's
      outcome (`sendFault` is the message of the error it throws). The log statement after
      `request.json()` is inside the same `try`, so its exception is answered like a body
      that does not parse. */
  function Post(env: map<string, string>, body: RequestBody, isEmail: EmailCheck, sendFault: Option<string>): (o: ContactOutcome)
    ensures Missing(env, EnvKeys) != [] ==>
      o.response.status == 500 && o.response.body.message == ConfigErrorMessage && o.sent.None?
      && o.response.body.debug == Some(MissingPrefix + Join(Missing(env, EnvKeys), ", "))
    ensures Missing(env, EnvKeys) == [] && (body.Malformed? || LogThrows(body)) ==>
      o.response == Response(400, ContactBody(false, "Invalid request format", None, None)) && o.sent.None?
    ensures Missing(env, EnvKeys) == [] && body.NotObject? && !body.isNull ==>
      o.response == Response(400, ContactBody(false, "Invalid form data", None, Some([NotObjectIssue])))
      && o.sent.None?
    ensures Missing(env, EnvKeys) == [] && body.Parsed? && !LogThrows(body) && Parse(body.fields, ContactFormSchema, isEmail).Failure? ==>
      o.response.status == 400 && o.response.body.message == "Invalid form data" && o.sent.None?
      && o.response.body.errors == Some(Parse(body.fields, ContactFormSchema, isEmail).error)
    ensures o.sent.Some? <==>
      Missing(env, EnvKeys) == [] && body.Parsed? && Parse(body.fields, ContactFormSchema, isEmail).Success?
    ensures o.sent.Some? ==> (o.response.status == 200 <==> sendFault.None?)
    ensures o.sent.Some? && sendFault.Some? ==>
      o.response == Response(500, ContactBody(false, SendFailedMessage, sendFault, None))
    ensures o.response.body.success <==> o.response.status == 200
  {
    var missing := Missing(env, EnvKeys);
    if missing != [] then
      ContactOutcome(Response(500, ContactBody(false, ConfigErrorMessage,
                                               Some(MissingPrefix + Join(missing, ", ")), None)), None)
    else if body.Malformed? || LogThrows(body) then
      ThrowingBodyNotAccepted(body, isEmail);
      ContactOutcome(Response(400, ContactBody(false, "Invalid request format", None, None)), None)
    else if body.NotObject? then
      ContactOutcome(Response(400, ContactBody(false, "Invalid form data", None, Some([NotObjectIssue]))), None)
    else
      match Parse(body.fields, ContactFormSchema, isEmail)
      case Failure(issues) =>
        ContactOutcome(Response(400, ContactBody(false, "Invalid form data", None, Some(issues))), None)
      case Success(v) =>
        var form := ContactForm(StringAt(v, "name"), StringAt(v, "email"), StringAt(v, "phone"),
                                StringAt(v, "subject"), StringAt(v, "message"));
        if sendFault.Some? then
          ContactOutcome(Response(500, ContactBody(false, SendFailedMessage, sendFault, None)), Some(form))
        else
          ContactOutcome(Response(200, ContactBody(true, SentMessage, None, None)), Some(form))
  }

  /** A body the schema accepts has a string `message`, so the log statement never throws
      for it. */
  lemma ThrowingBodyNotAccepted(body: RequestBody, isEmail: EmailCheck)
    ensures LogThrows(body) ==> !(body.Parsed? && Parse(body.fields, ContactFormSchema, isEmail).Success?)
  {
    if body.Parsed? {
      ContactSchemaMeaning(body.fields, isEmail);
    }
  }

  /** A number, a boolean, an object or an array as `message` ends the request at the log
      statement, before validation: the answer names the request format and lists no issue.
      A `null` message passes the log statement and is refused by the schema instead. */
  lemma NonStringMessageRefusedAsFormat(env: map<string, string>, f: Fields, isEmail: EmailCheck, sendFault: Option<string>)
    requires Missing(env, EnvKeys) == []
    ensures "message" in f && f["message"].OtherJson? ==>
      Post(env, Parsed(f), isEmail, sendFault).response.body == ContactBody(false, "Invalid request format", None, None)
    ensures "message" in f && f["message"].Null? ==>
      Post(env, Parsed(f), isEmail, sendFault).response.body.message == "Invalid form data"
  {
    if "message" in f && f["message"].Null? {
      ContactSchemaMeaning(f, isEmail);
    }
  }

  /** An unset `SMTP_SECURE` alone refuses every request, whatever its body, before the body is
      read, and names only that variable. */
  lemma SecureFlagIsRequired(env: map<string, string>, body: RequestBody, isEmail: EmailCheck, sendFault: Option<string>)
    requires forall k :: k in EnvKeys && k != "SMTP_SECURE" ==> IsSet(env, k)
    requires !IsSet(env, "SMTP_SECURE")
    ensures var o := Post(env, body, isEmail, sendFault);
      o.response.status == 500 && o.sent.None?
      && o.response.body.debug == Some(MissingPrefix + "SMTP_SECURE")
  {
    OnlySecureMissing(env);
    assert Join(["SMTP_SECURE"], ", ") == "SMTP_SECURE";
  }

  lemma OnlySecureMissing(env: map<string, string>)
    requires forall k :: k in EnvKeys && k != "SMTP_SECURE" ==> IsSet(env, k)
    requires !IsSet(env, "SMTP_SECURE")
    ensures Missing(env, EnvKeys) == ["SMTP_SECURE"]
  {
    var before: seq<string> := ["SMTP_HOST", "SMTP_PORT"];
    var after: seq<string> := ["SMTP_USER", "SMTP_PASSWORD", "SMTP_FROM", "CONTACT_EMAIL"];
    assert EnvKeys == before + ["SMTP_SECURE"] + after;
    OnlyOneMissing(env, before, "SMTP_SECURE", after);
  }

  /** A list in which exactly one key lacks a value reports exactly that key. */
  lemma OnlyOneMissing(env: map<string, string>, before: seq<string>, key: string, after: seq<string>)
    requires forall k :: k in before ==> IsSet(env, k)
    requires forall k :: k in after ==> IsSet(env, k)
    requires !IsSet(env, key)
    ensures Missing(env, before + [key] + after) == [key]
  {
    AllSetReportsNone(env, before);
    AllSetReportsNone(env, after);
    assert Missing(env, [key]) == [key] by {
      assert [key][1..] == [];
    }
    MissingConcat(env, before, [key]);
    MissingConcat(env, before + [key], after);
  }

  /** The form handed to the mailer is the submitted form, field for field. */
  lemma SentFormIsSubmitted(env: map<string, string>, body: RequestBody, isEmail: EmailCheck, sendFault: Option<string>)
    requires Post(env, body, isEmail, sendFault).sent.Some?
    ensures body.Parsed?
    ensures var f := body.fields;
      Post(env, body, isEmail, sendFault).sent.value ==
        ContactForm(StringAt(f, "name"), StringAt(f, "email"), StringAt(f, "phone"),
                    StringAt(f, "subject"), StringAt(f, "message"))
  {
    var f := body.fields;
    var s := ContactFormSchema;
    ContactSchemaMeaning(f, isEmail);
    ParsedAgrees(f, s, isEmail, 0);
    ParsedAgrees(f, s, isEmail, 1);
    ParsedAgrees(f, s, isEmail, 2);
    ParsedAgrees(f, s, isEmail, 3);
    ParsedAgrees(f, s, isEmail, 4);
  }
}
