/**
 * The alarm notifier: it turns an alarm-state message delivered through a
 * notification envelope into a chat message and posts it to a webhook.
 *
 * The message builder is modelled exactly; JSON decoding and encoding, the
 * environment variable and the HTTP client are abstract steps collected in
 * an `Env`, each of which either yields a value or fails with an error.
 */
module SlackPost {
  import opened GoBytes
  import opened UrlPath

  // ---------------------------------------------------------------- data

  /** The alarm state carried, as JSON text, inside the notification. */
  datatype SnsMessage = SnsMessage(
    alarmName: Bytes,
    alarmDescription: Bytes,
    newStateValue: Bytes,
    newStateReason: Bytes,
    oldStateValue: Bytes,
    region: Bytes)

  /** One record of the event; only the embedded message text is kept. */
  datatype Record = Record(snsMessage: Bytes)

  datatype Request = Request(records: seq<Record>)

  datatype Field = Field(title: Bytes, value: Bytes, short: bool)

  datatype Attachment = Attachment(
    pretext: Bytes,
    title: Bytes,
    titleLink: Bytes,
    body: Bytes,
    color: Bytes,
    authorName: Bytes,
    fields: seq<Field>)

  datatype SlackMessage = SlackMessage(text: Bytes, attachments: seq<Attachment>)

  // ---------------------------------------------------------------- builder

  const Backtick: byte := 96   // '`'

  /** The console link prefix, written as one literal as in the source. */
  const ConsoleUrl: string := "https://console.aws.amazon.com/cloudwatch/home#s="

  lemma ConsoleUrlIsAscii()
    ensures IsAscii(ConsoleUrl)
  {
    assert ConsoleUrl == "https://console.aws.amazon.com" + "/cloudwatch/home#s=";
    AsciiConcat("https://console.aws.amazon.com", "/cloudwatch/home#s=");
  }

  /** The bytes of the console link prefix. */
  function ConsolePrefix(): Bytes {
    ConsoleUrlIsAscii();
    Ascii(ConsoleUrl)
  }

  const Danger: Bytes := Ascii("danger")

  const RegionTitle: Bytes := Ascii("Region")

  const PreviousStateTitle: Bytes := Ascii("Previous State")

  /** The deep link into the monitoring console for one alarm. */
  function ConsoleLink(alarmName: Bytes): Bytes {
    ConsolePrefix() + PathEscape(alarmName)
  }

  /** buildSlackMessage: one attachment, no top-level text. */
  function BuildSlackMessage(message: SnsMessage): (r: SlackMessage)
    ensures r.text == [] && |r.attachments| == 1
  {
    SlackMessage(
      [],
      [Attachment(
        [Backtick] + message.alarmDescription + [Backtick],
        message.alarmName,
        ConsoleLink(message.alarmName),
        message.newStateReason,
        Danger,
        [],
        [Field(RegionTitle, message.region, true),
         Field(PreviousStateTitle, message.oldStateValue, true)])])
  }

  /**
   * Reads the alarm back out of a chat message of the builder's shape; the
   * new state is not carried and comes back empty.
   */
  function AlarmOf(m: SlackMessage): (r: Option<SnsMessage>) {
    if |m.attachments| != 1 then None
    else
      var a := m.attachments[0];
      if |a.pretext| < 2 || |a.fields| != 2 then None
      else Some(SnsMessage(
        a.title,
        a.pretext[1..|a.pretext| - 1],
        [],
        a.body,
        a.fields[1].value,
        a.fields[0].value))
  }

  /** The message keeps every input field except the new state. */
  lemma AlarmOfBuild(message: SnsMessage)
    ensures AlarmOf(BuildSlackMessage(message)) == Some(message.(newStateValue := []))
  {
    var p := [Backtick] + message.alarmDescription + [Backtick];
    assert p[1..|p| - 1] == message.alarmDescription;
  }

  /** The color is always "danger" and the author is always empty. */
  lemma ColorAndAuthorFixed(message: SnsMessage)
    ensures BuildSlackMessage(message).attachments[0].color == Ascii("danger")
    ensures BuildSlackMessage(message).attachments[0].authorName == []
  {
  }

  /** The new state has no part in the message: any two states give the same one. */
  lemma NewStateIgnored(message: SnsMessage, state: Bytes)
    ensures BuildSlackMessage(message.(newStateValue := state)) == BuildSlackMessage(message)
  {
  }

  /** The title is the bare alarm name and the body is the reason, verbatim. */
  lemma TitleAndBody(message: SnsMessage)
    ensures BuildSlackMessage(message).attachments[0].title == message.alarmName
    ensures BuildSlackMessage(message).attachments[0].body == message.newStateReason
  {
  }

  /** The pretext is the description between two backticks. */
  lemma PretextQuotesDescription(message: SnsMessage)
    ensures var p := BuildSlackMessage(message).attachments[0].pretext;
      |p| == |message.alarmDescription| + 2 &&
      p[0] == Backtick && p[|p| - 1] == Backtick &&
      p[1..|p| - 1] == message.alarmDescription
  {
    var p := [Backtick] + message.alarmDescription + [Backtick];
    assert p[1..|p| - 1] == message.alarmDescription;
  }

  /** Exactly two fields, Region then Previous State, both short. */
  lemma FieldsAreRegionThenPreviousState(message: SnsMessage)
    ensures BuildSlackMessage(message).attachments[0].fields ==
      [Field(Ascii("Region"), message.region, true),
       Field(Ascii("Previous State"), message.oldStateValue, true)]
  {
  }

  /**
   * The link is the console prefix and then a segment of segment-safe bytes
   * and `%` (so, by SegmentEndersEscaped, no `/`, `?` or `#`) that decodes
   * back to exactly the alarm name.
   */
  lemma {:induction false} TitleLinkDecodesToName(message: SnsMessage)
    ensures var link := BuildSlackMessage(message).attachments[0].titleLink;
      |ConsolePrefix()| <= |link| && link[..|ConsolePrefix()|] == ConsolePrefix() &&
      PathUnescape(link[|ConsolePrefix()|..]) == Some(message.alarmName) &&
      forall i | |ConsolePrefix()| <= i < |link| :: IsSegmentSafe(link[i]) || link[i] == Percent
  {
    var e := PathEscape(message.alarmName);
    var link := ConsolePrefix() + e;
    assert link[|ConsolePrefix()|..] == e;
    assert forall i | |ConsolePrefix()| <= i < |link| :: link[i] == e[i - |ConsolePrefix()|];
    UnescapeEscape(message.alarmName);
  }

  /** An alarm name of ASCII letters and digits appears in the link unchanged. */
  lemma AlnumNameInLink(message: SnsMessage)
    requires forall i | 0 <= i < |message.alarmName| :: IsAlnum(message.alarmName[i])
    ensures BuildSlackMessage(message).attachments[0].titleLink == ConsolePrefix() + message.alarmName
  {
    AlnumUnchanged(message.alarmName);
  }

  /** Alarms with different names get different links. */
  lemma LinksTellAlarmsApart(a: SnsMessage, b: SnsMessage)
    requires a.alarmName != b.alarmName
    ensures BuildSlackMessage(a).attachments[0].titleLink != BuildSlackMessage(b).attachments[0].titleLink
  {
    if ConsoleLink(a.alarmName) == ConsoleLink(b.alarmName) {
      var n := |ConsolePrefix()|;
      assert ConsoleLink(a.alarmName)[n..] == PathEscape(a.alarmName);
      assert ConsoleLink(b.alarmName)[n..] == PathEscape(b.alarmName);
      EscapeInjective(a.alarmName, b.alarmName);
    }
  }

  /**
   * The alarm "high-cpu" going from OK to ALARM in us-east-1: the title is the
   * bare name, the link carries the name as it is, the color is "danger" and
   * the two fields are the region and the previous state.
   */
  lemma HighCpuExample()
    ensures var a := BuildSlackMessage(SnsMessage(Ascii("high-cpu"), Ascii("CPU above 90%"),
        Ascii("ALARM"), Ascii("Threshold crossed"), Ascii("OK"), Ascii("us-east-1"))).attachments[0];
      a.title == Ascii("high-cpu") &&
      a.titleLink == ConsolePrefix() + Ascii("high-cpu") &&
      a.color == Ascii("danger") &&
      a.fields == [Field(Ascii("Region"), Ascii("us-east-1"), true),
                   Field(Ascii("Previous State"), Ascii("OK"), true)]
  {
    var name := Ascii("high-cpu");
    assert SegmentMarks[0] == name[4];
    assert forall i | 0 <= i < |name| :: IsSegmentSafe(name[i]);
    EscapeIdentity(name);
  }

  /** A space and a slash in a name are escaped, so the link stays one segment. */
  lemma SpaceAndSlashExample()
    ensures ConsoleLink(Ascii("a b/c")) == ConsolePrefix() + Ascii("a%20b%2Fc")
  {
  }

  // ---------------------------------------------------------------- I/O steps

  /** An opaque Go `error` value from a library call. */
  datatype Error = Error(text: Bytes)

  /** Either the step's value or the error it returned. */
  datatype Outcome<T> = Ok(value: T) | Err(error: Error)

  datatype HttpRequest = HttpRequest(verb: Bytes, url: Bytes, body: Bytes)

  datatype Response = Response(statusCode: int)

  /**
   * What the outside world does at each step: JSON decoding of the embedded
   * message, JSON encoding of the chat message, the value of SLACK_WEBHOOK,
   * building the request and sending it.
   */
  datatype Env = Env(
    unmarshal: Bytes -> Outcome<SnsMessage>,
    marshal: SlackMessage -> Outcome<Bytes>,
    slackWebhook: Bytes,
    newRequest: (Bytes, Bytes, Bytes) -> Outcome<HttpRequest>,
    send: HttpRequest -> Outcome<Response>)

  const PostMethod: Bytes := Ascii("POST")

  /** What postToSlack returns, and the request it handed to the client, if any. */
  datatype Post = Post(err: Option<Error>, sent: Option<HttpRequest>)

  /** postToSlack: marshal, build the request, send it, look at the status. */
  function PostToSlack(message: SlackMessage, env: Env): (p: Post)
    ensures p.err.None? ==> p.sent.Some?
  {
    match env.marshal(message)
    case Err(e) => Post(Some(e), None)
    case Ok(data) =>
      match env.newRequest(PostMethod, env.slackWebhook, data)
      case Err(e) => Post(Some(e), None)
      case Ok(req) =>
        match env.send(req)
        case Err(e) => Post(Some(e), Some(req))
        case Ok(resp) =>
          // `err` was last set by client.Do and is nil here, so the
          // non-200 branch returns nil as well.
          var err: Option<Error> := None;
          if resp.statusCode != 200 then Post(err, Some(req)) else Post(None, Some(req))
  }

  /**
   * postToSlack fails exactly when marshalling, building the request or
   * sending it fails, with that step's error; the status code never matters.
   */
  lemma PostFailsOnlyOnStepError(message: SlackMessage, env: Env)
    ensures var p := PostToSlack(message, env);
      match env.marshal(message)
      case Err(e) => p == Post(Some(e), None)
      case Ok(data) =>
        match env.newRequest(PostMethod, env.slackWebhook, data)
        case Err(e) => p == Post(Some(e), None)
        case Ok(req) =>
          p.sent == Some(req) &&
          match env.send(req)
          case Err(e) => p.err == Some(e)
          case Ok(_) => p.err == None
  {
  }

  /** A response with any status, 500 included, makes postToSlack return nil. */
  lemma NonOkStatusReturnsNil(message: SlackMessage, env: Env, data: Bytes, req: HttpRequest, status: int)
    requires env.marshal(message) == Ok(data)
    requires env.newRequest(PostMethod, env.slackWebhook, data) == Ok(req)
    requires env.send(req) == Ok(Response(status))
    requires status != 200
    ensures PostToSlack(message, env).err == None
  {
  }

  /**
   * At most one request goes out, and when it does it is a POST of the
   * encoded message to the unchecked SLACK_WEBHOOK value.
   */
  lemma SentRequestIsThePost(message: SlackMessage, env: Env)
    ensures PostToSlack(message, env).sent.Some? <==>
      env.marshal(message).Ok? &&
      env.newRequest(PostMethod, env.slackWebhook, env.marshal(message).value).Ok?
    ensures PostToSlack(message, env).sent.Some? ==>
      Ok(PostToSlack(message, env).sent.value) ==
        env.newRequest(PostMethod, env.slackWebhook, env.marshal(message).value)
  {
  }

  // ---------------------------------------------------------------- handler

  /** The call handler made to postToSlack: its argument and what it returned. */
  datatype PostCall = PostCall(message: SlackMessage, returned: Post)

  /** What handler returns, and the post it made, if it got that far. */
  datatype Run = Run(result: Option<Error>, post: Option<PostCall>)

  /**
   * handler: decode the first record's message; on failure return that error
   * without posting; otherwise build the chat message, post it, drop whatever
   * the post returned and return nil. Reading record 0 of an empty request
   * panics, so the request must hold a record.
   */
  function Handler(request: Request, env: Env): (run: Run)
    requires |request.records| > 0
    ensures run.post.None? <==> env.unmarshal(request.records[0].snsMessage).Err?
    ensures run.result.Some? <==> run.post.None?
  {
    match env.unmarshal(request.records[0].snsMessage)
    case Err(e) => Run(Some(e), None)
    case Ok(m) =>
      var msg := BuildSlackMessage(m);
      Run(None, Some(PostCall(msg, PostToSlack(msg, env))))
  }

  /** A decode error is returned unchanged and nothing is posted. */
  lemma DecodeErrorAborts(request: Request, env: Env, e: Error)
    requires |request.records| > 0
    requires env.unmarshal(request.records[0].snsMessage) == Err(e)
    ensures Handler(request, env) == Run(Some(e), None)
  {
  }

  /**
   * Once decoding succeeds, the built message is posted once and handler
   * returns nil, whatever postToSlack returned.
   */
  lemma PostResultIgnored(request: Request, env: Env, m: SnsMessage)
    requires |request.records| > 0
    requires env.unmarshal(request.records[0].snsMessage) == Ok(m)
    ensures Handler(request, env).result == None
    ensures Handler(request, env).post == Some(PostCall(BuildSlackMessage(m), PostToSlack(BuildSlackMessage(m), env)))
  {
  }

  /** Only the first record is read; later records make no difference. */
  lemma OnlyFirstRecordRead(first: Record, rest1: seq<Record>, rest2: seq<Record>, env: Env)
    ensures Handler(Request([first] + rest1), env) == Handler(Request([first] + rest2), env)
  {
  }
}
