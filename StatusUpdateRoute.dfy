/**
 * The repair-status notification endpoint: it chooses a subject and a
 * message from the new repair status, wraps the message in a fixed HTML
 * template and hands the email to the provider, whose send call is a
 * parameter. The outcome records every email handed over.
 */
module StatusUpdateRoute {
  import opened Wrappers

  /** The JSON body posted by the admin dashboard. */
  datatype StatusRequest = StatusRequest(email: string, customerName: string, device: string, status: string)

  /** The subject and message chosen for a status. */
  datatype Notice = Notice(subject: string, message: string)

  /** The arguments of the provider's send call. */
  datatype Email = Email(from: string, to: seq<string>, subject: string, html: string)

  /** The provider's reply, returned to the caller as it is: its data and its error. */
  datatype SendReply = SendReply(data: Option<string>, error: Option<string>)

  datatype Body = ReplyBody(reply: SendReply) | ErrorBody(error: Thrown)

  datatype Response = Response(status: int, body: Body)

  /** What the endpoint answered and which emails it handed to the provider. */
  datatype Outcome = Outcome(response: Response, sent: seq<Email>)

  const DefaultSubject := "Update on your CLT SYSTEMS Repair"
  const ReadySubject := "Ready for Pickup! - CLT SYSTEMS"
  const Sender := "CLT Systems <onboarding@resend.dev>"
  const PortalUrl := "https://clt-tech-portal.vercel.app/profile"

  function DefaultMessage(device: string, status: string): string
  {
    "The status of your " + device + " has been updated to: " + status + "."
  }

  function ReadyMessage(customerName: string, device: string): string
  {
    "Great news, " + customerName + "! Your " + device + " is ready for pickup. Come see us during normal business hours."
  }

  /** `needle` occurs in `hay` starting at index `k`. */
  predicate OccursAt(hay: string, needle: string, k: int)
  {
    0 <= k <= |hay| - |needle| && hay[k..k + |needle|] == needle
  }

  /** `needle` occurs somewhere in `hay`. */
  predicate Contains(hay: string, needle: string)
  {
    exists k :: 0 <= k <= |hay| && OccursAt(hay, needle, k)
  }

  lemma ContainsMiddle(a: string, needle: string, b: string)
    ensures Contains(a + needle + b, needle)
  {
    assert (a + needle + b)[|a|..|a| + |needle|] == needle;
    assert OccursAt(a + needle + b, needle, |a|);
  }

  /** A seven-part concatenation contains its second, fourth and sixth parts. */
  lemma ContainsParts(h: string, g: string, m: string, x: string, p: string, u: string, t: string)
    ensures Contains(h + g + m + x + p + u + t, g)
    ensures Contains(h + g + m + x + p + u + t, x)
    ensures Contains(h + g + m + x + p + u + t, u)
  {
    var all := h + g + m + x + p + u + t;
    assert all == h + g + (m + x + p + u + t);
    ContainsMiddle(h, g, m + x + p + u + t);
    assert all == (h + g + m) + x + (p + u + t);
    ContainsMiddle(h + g + m, x, p + u + t);
    assert all == (h + g + m + x + p) + u + t;
    ContainsMiddle(h + g + m + x + p, u, t);
  }

  /**
   * The notice for a status: the default pair, overwritten by the pickup pair
   * when the status is exactly "ready".
   */
  function ChooseNotice(status: string, device: string, customerName: string): (n: Notice)
    ensures n.subject == ReadySubject <==> status == "ready"
    ensures status == "ready" ==> n.message == ReadyMessage(customerName, device)
    ensures status != "ready" ==> n == Notice(DefaultSubject, DefaultMessage(device, status))
  {
    var notice := Notice(DefaultSubject, DefaultMessage(device, status));
    if status == "ready" then Notice(ReadySubject, ReadyMessage(customerName, device)) else notice
  }

  /** Whatever the status, the message names the device. */
  lemma {:induction false} NoticeNamesDevice(status: string, device: string, customerName: string)
    ensures Contains(ChooseNotice(status, device, customerName).message, device)
  {
    if status == "ready" {
      ContainsMiddle("Great news, " + customerName + "! Your ", device,
                     " is ready for pickup. Come see us during normal business hours.");
    } else {
      var rest := " has been updated to: " + status + ".";
      assert DefaultMessage(device, status) == "The status of your " + device + rest;
      ContainsMiddle("The status of your ", device, rest);
    }
  }

  /** The greeting line of the template. */
  function Greeting(customerName: string): string
  {
    "Hi " + customerName + ","
  }

  const HtmlHead := "\n        <div style=\"font-family: sans-serif; border: 8px solid black; padding: 20px;\">\n          <h1 style=\"text-transform: uppercase; font-style: italic;\">CLT SYSTEMS</h1>\n          <p style=\"font-size: 18px; font-weight: bold;\">"
  const HtmlMiddle := "</p>\n          <p style=\"font-size: 16px;\">"
  const HtmlPortalHead := "</p>\n          <hr style=\"border: 2px solid black;\" />\n          <p style=\"font-size: 12px; font-weight: bold;\">TRACK YOUR REPAIR AT: <a href=\""
  const HtmlTail := "\">YOUR PORTAL</a></p>\n        </div>\n      "

  /** The HTML body of the email. */
  function HtmlBody(customerName: string, message: string): string
  {
    HtmlHead + Greeting(customerName) + HtmlMiddle + message + HtmlPortalHead + PortalUrl + HtmlTail
  }

  /** The body greets the customer, carries the chosen message and links the portal. */
  lemma HtmlCarriesContent(customerName: string, message: string)
    ensures Contains(HtmlBody(customerName, message), Greeting(customerName))
    ensures Contains(HtmlBody(customerName, message), message)
    ensures Contains(HtmlBody(customerName, message), PortalUrl)
  {
    ContainsParts(HtmlHead, Greeting(customerName), HtmlMiddle, message, HtmlPortalHead, PortalUrl, HtmlTail);
  }

  /** The email sent for a request: one recipient, the fixed sender, the chosen notice. */
  function ComposeEmail(req: StatusRequest): (e: Email)
    ensures e.from == Sender && e.to == [req.email]
    ensures e.subject == ChooseNotice(req.status, req.device, req.customerName).subject
    ensures e.html == HtmlBody(req.customerName, ChooseNotice(req.status, req.device, req.customerName).message)
  {
    var notice := ChooseNotice(req.status, req.device, req.customerName);
    Email(Sender, [req.email], notice.subject, HtmlBody(req.customerName, notice.message))
  }

  /**
   * `POST /api/status-update`. `payload` is the parsed body (a failure when
   * `request.json()` throws); `send` stands for the provider's send call.
   */
  function Post(payload: Result<StatusRequest, Thrown>, send: Email -> Result<SendReply, Thrown>): (o: Outcome)
    ensures payload.Failure? ==> o == Outcome(Response(500, ErrorBody(payload.error)), [])
    ensures payload.Success? ==> o.sent == [ComposeEmail(payload.value)]
    ensures payload.Success? && send(ComposeEmail(payload.value)).Success? ==>
      o.response == Response(200, ReplyBody(send(ComposeEmail(payload.value)).value))
    ensures payload.Success? && send(ComposeEmail(payload.value)).Failure? ==>
      o.response == Response(500, ErrorBody(send(ComposeEmail(payload.value)).error))
    ensures o.response.status == 200 <==> o.response.body.ReplyBody?
    ensures o.response.status != 200 ==> o.response.status == 500
  {
    match payload
    case Failure(e) => Outcome(Response(500, ErrorBody(e)), [])
    case Success(req) =>
      var email := ComposeEmail(req);
      match send(email)
      case Success(reply) => Outcome(Response(200, ReplyBody(reply)), [email])
      case Failure(e) => Outcome(Response(500, ErrorBody(e)), [email])
  }

  /** Every email the endpoint sends greets the customer by name and carries the chosen message. */
  lemma SentEmailCarriesNotice(payload: Result<StatusRequest, Thrown>, send: Email -> Result<SendReply, Thrown>, e: Email)
    requires e in Post(payload, send).sent
    ensures payload.Success?
    ensures Contains(e.html, Greeting(payload.value.customerName))
    ensures Contains(e.html, ChooseNotice(payload.value.status, payload.value.device, payload.value.customerName).message)
    ensures e.subject == ReadySubject <==> payload.value.status == "ready"
  {
    var req := payload.value;
    HtmlCarriesContent(req.customerName, ChooseNotice(req.status, req.device, req.customerName).message);
  }
}
