/** The `send-email` edge function: it validates the parsed request body in a
    fixed order and echoes the recipients of a valid request. Delivery itself
    is not performed by this function. */
module SendEmail {
  import opened Wrappers
  import opened Json

  datatype ResponseBody =
    | Preflight
    | ErrorBody(error: string)
    | Sent(recipients: Json)
      /** An exception the runtime raised, whose message is not modelled. */
    | RuntimeError

  datatype Response = Response(status: nat, body: ResponseBody)

  const RecipientsError := "Recipients are required and must be an array"
  const SubjectError := "Subject is required"
  const MessageError := "Message is required"

  /** `!recipients || !Array.isArray(recipients) || recipients.length === 0` fails. */
  predicate RecipientsOk(f: Field) {
    f.Some? && f.value.JArr? && |f.value.items| > 0
  }

  /** The request body a valid request has: an object whose recipients are a
      non-empty array and whose subject and message are truthy. */
  predicate WellFormed(body: Json) {
    && body.JObj?
    && "recipients" in body.fields && body.fields["recipients"].JArr? && body.fields["recipients"].items != []
    && "subject" in body.fields && Truthy(body.fields["subject"])
    && "message" in body.fields && Truthy(body.fields["message"])
  }

  /** The response to a request; `body` is the parsed JSON body, None when it is not JSON. */
  function Respond(httpMethod: string, body: Option<Json>): (r: Response)
    ensures httpMethod == "OPTIONS" ==> r == Response(200, Preflight)
    ensures httpMethod != "OPTIONS" && (body.None? || body == Some(JNull)) ==> r == Response(500, RuntimeError)
    ensures httpMethod != "OPTIONS" && body.Some? && body.value != JNull ==>
      && (!RecipientsOk(Property(body.value, "recipients")) ==> r == Response(400, ErrorBody(RecipientsError)))
      && (RecipientsOk(Property(body.value, "recipients")) && !FieldTruthy(Property(body.value, "subject")) ==>
            r == Response(400, ErrorBody(SubjectError)))
      && ((RecipientsOk(Property(body.value, "recipients")) && FieldTruthy(Property(body.value, "subject"))
           && !FieldTruthy(Property(body.value, "message"))) ==> r == Response(400, ErrorBody(MessageError)))
  {
    if httpMethod == "OPTIONS" then Response(200, Preflight)
    else if body.None? || body.value == JNull then Response(500, RuntimeError)
    else
      var recipients := Property(body.value, "recipients");
      var subject := Property(body.value, "subject");
      var message := Property(body.value, "message");
      if !RecipientsOk(recipients) then Response(400, ErrorBody(RecipientsError))
      else if !FieldTruthy(subject) then Response(400, ErrorBody(SubjectError))
      else if !FieldTruthy(message) then Response(400, ErrorBody(MessageError))
      else Response(200, Sent(recipients.value))
  }

  /** A non-preflight request succeeds exactly when its body is well formed,
      and then the recipients come back unchanged. */
  lemma SuccessIffWellFormed(httpMethod: string, body: Option<Json>)
    requires httpMethod != "OPTIONS"
    ensures Respond(httpMethod, body).status == 200 <==> body.Some? && WellFormed(body.value)
    ensures Respond(httpMethod, body).status == 200 ==>
      Respond(httpMethod, body).body == Sent(body.value.fields["recipients"])
  {
    if body.Some? && body.value != JNull {
      var recipients := Property(body.value, "recipients");
      var subject := Property(body.value, "subject");
      var message := Property(body.value, "message");
      assert WellFormed(body.value) <==> RecipientsOk(recipients) && FieldTruthy(subject) && FieldTruthy(message);
    }
  }

  /** The recipients check comes first: a body without usable recipients is
      refused for them whatever its subject and message. */
  lemma RecipientsCheckedFirst(recipients: Json, subject: Field, message: Field)
    requires !(recipients.JArr? && recipients.items != [])
    ensures var fields := map["recipients" := recipients] + (if subject.Some? then map["subject" := subject.value] else map[])
                          + (if message.Some? then map["message" := message.value] else map[]);
      Respond("POST", Some(JObj(fields))).body == ErrorBody(RecipientsError)
  {
    var fields := map["recipients" := recipients] + (if subject.Some? then map["subject" := subject.value] else map[])
                  + (if message.Some? then map["message" := message.value] else map[]);
    assert "recipients" in fields && fields["recipients"] == recipients;
  }

  /** The request the scheduled tasks post: recipients as a string array, subject and message. */
  function MailRequestJson(recipients: seq<string>, subject: string, message: string): Json {
    JObj(map["recipients" := JArr(seq(|recipients|, k requires 0 <= k < |recipients| => JStr(recipients[k]))),
             "subject" := JStr(subject), "message" := JStr(message)])
  }

  /** A request with at least one recipient, a subject and a message is accepted. */
  lemma MailRequestAccepted(recipients: seq<string>, subject: string, message: string)
    requires recipients != [] && subject != "" && message != ""
    ensures Respond("POST", Some(MailRequestJson(recipients, subject, message))).status == 200
  {
    var body := MailRequestJson(recipients, subject, message);
    assert body.fields["recipients"].items != [];
    SuccessIffWellFormed("POST", Some(body));
  }
}
