/** The webhook endpoint (`processWebhookEvent.ts`): configuration, then
    the signature, then the body, then the event itself. Nothing here
    reads or writes the store. */
module Webhook {
  import opened Wrappers
  import opened Fetch

  const AuthenticityHeader := "X-Up-Authenticity-Signature"
  const ErrorLevel := "error"
  const NoDataMessage := "No webhook data found"
  const MissingConfig := "Up API key or webhook secret not provided"
  const BadRequestBody := "{\"message\":\"Bad Request\"}"

  /** The two environment variables the handler reads. */
  datatype Config = Config(apiKey: Option<string>, webhookSecret: Option<string>)

  /** The gateway event: its headers and its raw body (`None` when absent). */
  datatype Event = Event(headers: map<string, string>, body: Option<string>)

  datatype Reply = Reply(statusCode: nat, body: Option<string>)

  datatype Alert = Alert(level: string, message: string)

  /** What one call produces: the response and the alerts raised on the way. */
  datatype Outcome = Outcome(response: Reply, alerts: seq<Alert>)

  /** The callback's `data`: only whether it is present matters here. */
  datatype WebhookData = WebhookData(eventType: string)

  /** `processWebhookEvent`: alerts when `data` is missing, does nothing
      else. */
  function ProcessWebhookEvent(data: Option<WebhookData>): (alerts: seq<Alert>)
    ensures data.None? <==> alerts == [Alert(ErrorLevel, NoDataMessage)]
    ensures data.Some? <==> alerts == []
  {
    if data.None? then [Alert(ErrorLevel, NoDataMessage)] else []
  }

  /** The `data` property the handler reaches: it passes the raw body
      string, and a string has no `data` property. */
  function DataOfBody(body: string): Option<WebhookData>
  {
    None
  }

  /** `handler`. `Err` is a thrown error: missing configuration, or an
      absent body, which the signer refuses before any comparison. */
  function Handler(hmac: (string, string) -> string, config: Config, event: Event): (r: Result<Outcome>)
    ensures r.Err? <==> !Truthy(config.apiKey) || !Truthy(config.webhookSecret) || event.body.None?
    ensures !Truthy(config.apiKey) || !Truthy(config.webhookSecret) ==> r == Err(MissingConfig)
    ensures r.Ok? ==>
      var expected := hmac(config.webhookSecret.value, JsonStringify(event.body.value));
      var signature := if AuthenticityHeader in event.headers then Some(event.headers[AuthenticityHeader]) else None;
      && (r.value.response.statusCode == 403 <==> signature != Some(expected))
      && (r.value.response.statusCode == 400 <==> signature == Some(expected) && event.body.value == "")
      && (r.value.response.statusCode == 200 <==> signature == Some(expected) && event.body.value != "")
      && (r.value.response.statusCode == 400 ==> r.value.response.body == Some(BadRequestBody))
      && (r.value.response.statusCode == 200 ==> r.value.alerts == [Alert(ErrorLevel, NoDataMessage)])
      && (r.value.response.statusCode != 200 ==> r.value.alerts == [])
  {
    if !Truthy(config.apiKey) || !Truthy(config.webhookSecret) then Err(MissingConfig)
    else
      var signature := if AuthenticityHeader in event.headers then Some(event.headers[AuthenticityHeader]) else None;
      match SignRequestBody(hmac, config.webhookSecret.value, event.body)
      case Err(e) => Err(e)
      case Ok(expected) =>
        if signature != Some(expected) then Ok(Outcome(Reply(403, None), []))
        else if event.body.value == "" then Ok(Outcome(Reply(400, Some(BadRequestBody)), []))
        else Ok(Outcome(Reply(200, None), ProcessWebhookEvent(DataOfBody(event.body.value))))
  }

  /** The signer never maps two messages under one secret to one digest. */
  ghost predicate Injective(hmac: (string, string) -> string, secret: string)
  {
    forall m1, m2 :: hmac(secret, m1) == hmac(secret, m2) ==> m1 == m2
  }

  /** A body changed after signing is refused with 403 whatever it is
      changed to (empty included), given a signer that is injective under
      the secret: `JSON.stringify` keeps distinct bodies distinct. */
  lemma TamperedBodyForbidden(hmac: (string, string) -> string, config: Config, event: Event, tampered: string)
    requires Handler(hmac, config, event).Ok?
    requires Handler(hmac, config, event).value.response.statusCode != 403
    requires Injective(hmac, config.webhookSecret.value)
    requires event.body != Some(tampered)
    ensures Handler(hmac, config, event.(body := Some(tampered))) == Ok(Outcome(Reply(403, None), []))
  {
    JsonStringifyInjective(event.body.value, tampered);
  }

  /** A request without the signature header never reaches the body check. */
  lemma UnsignedForbidden(hmac: (string, string) -> string, config: Config, event: Event)
    requires Truthy(config.apiKey) && Truthy(config.webhookSecret) && event.body.Some?
    requires AuthenticityHeader !in event.headers
    ensures Handler(hmac, config, event) == Ok(Outcome(Reply(403, None), []))
  {
  }
}
