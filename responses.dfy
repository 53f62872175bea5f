/**
 * SlackResponse: the reply to a request. A slash command is answered
 * privately by default, anything else in the channel. The reply is written
 * straight back, or, when it was marked delayed, posted to the request's
 * response URL.
 */
module Responses {
  import opened Wrappers
  import opened Documents
  import Attachments
  import opened Requests

  datatype ResponseType = Ephemeral | InChannel
  {
    function Wire(): string {
      match this
      case Ephemeral => "ephemeral"
      case InChannel => "in_channel"
    }
  }

  /** buildResponseArray: the text, the response type and the list of attachments, always all three. */
  function ResponseDoc(text: string, responseType: ResponseType, atts: seq<Json>): (r: Json)
    ensures r.Obj? && Keys(r.entries) == [Name("text"), Name("response_type"), Name("attachments")]
  {
    Obj([(Name("text"), Str(text)), (Name("response_type"), Str(responseType.Wire())), (Name("attachments"), Arr(atts))])
  }

  /**
   * How respond delivers the document: written back as the HTTP reply, or
   * posted to the response URL (null when the request carried none).
   */
  datatype Delivery = ReplyNow(body: Json) | PostLater(url: Option<string>, body: Json)

  /** The default response type: private for a slash command, in the channel otherwise. */
  function DefaultResponseType(req: Request): (t: ResponseType)
    ensures t == Ephemeral <==> req.IsCommand()
  {
    if req.IsCommand() then Ephemeral else InChannel
  }

  /**
   * The default delay flag: left null for a slash command, false otherwise.
   * Both mean an immediate reply.
   */
  function DefaultDelayed(req: Request): (d: Option<bool>)
    ensures d != Some(true)
    ensures d.None? <==> req.IsCommand()
  {
    if req.IsCommand() then None else Some(false)
  }

  class SlackResponse {
    const request: Request
    var text: string
    var responseType: ResponseType
    /** null until set for a slash command; respond treats null as false. */
    var delayed: Option<bool>
    var attachments: seq<Attachments.SlackAttachment>

    constructor (req: Request)
      ensures request == req && text == "" && attachments == []
      ensures responseType == DefaultResponseType(req)
      ensures delayed == DefaultDelayed(req)
    {
      request := req;
      text := "";
      attachments := [];
      if req.IsCommand() {
        responseType := Ephemeral;
        delayed := None;
      } else {
        responseType := InChannel;
        delayed := Some(false);
      }
    }

    method IsDelayed(d: bool)
      modifies this
      ensures delayed == Some(d)
      ensures text == old(text) && responseType == old(responseType) && attachments == old(attachments)
    {
      delayed := Some(d);
    }

    method SetEphemeral()
      modifies this
      ensures responseType == Ephemeral
      ensures text == old(text) && delayed == old(delayed) && attachments == old(attachments)
    {
      responseType := Ephemeral;
    }

    method SetInChannel()
      modifies this
      ensures responseType == InChannel
      ensures text == old(text) && delayed == old(delayed) && attachments == old(attachments)
    {
      responseType := InChannel;
    }

    /** Stores the text; null becomes the empty string. */
    method SetText(t: Option<string>)
      modifies this
      ensures text == t.GetOr("")
      ensures responseType == old(responseType) && delayed == old(delayed) && attachments == old(attachments)
    {
      text := if t.Some? then t.value else "";
    }

    /** Appends an attachment; the ones added before stay in place. */
    method AddAttachment(att: Attachments.SlackAttachment)
      modifies this
      ensures attachments == old(attachments) + [att]
      ensures text == old(text) && responseType == old(responseType) && delayed == old(delayed)
    {
      attachments := attachments + [att];
    }

    /** buildResponseArray: converts every attachment in turn. */
    method BuildResponseArray() returns (doc: Json)
      ensures doc == ResponseDoc(text, responseType, Attachments.AttachmentDocs(attachments))
    {
      var atts: seq<Json> := [];
      for i := 0 to |attachments|
        invariant atts == Attachments.AttachmentDocs(attachments[..i])
      {
        assert attachments[..i + 1][..i] == attachments[..i];
        atts := atts + [attachments[i].ToArray()];
      }
      assert attachments[..|attachments|] == attachments;
      doc := ResponseDoc(text, responseType, atts);
    }

    /**
     * respond: the document goes to the response URL when the response was
     * marked delayed, and back as the reply otherwise (a null flag included).
     */
    method Respond() returns (d: Delivery)
      ensures d.PostLater? <==> delayed == Some(true)
      ensures d.PostLater? ==> d.url == request.data.responseUrl
      ensures d.body == ResponseDoc(text, responseType, Attachments.AttachmentDocs(attachments))
    {
      var doc := BuildResponseArray();
      if delayed != Some(true) {
        d := ReplyNow(doc);
      } else {
        d := PostLater(request.data.responseUrl, doc);
      }
    }
  }

  /** A slash command answered with "pong": a private reply, written back at once. */
  method PongScenario(req: Request) returns (d: Delivery)
    requires req.IsCommand()
    ensures d == ReplyNow(Obj([(Name("text"), Str("pong")), (Name("response_type"), Str("ephemeral")),
      (Name("attachments"), Arr([]))]))
  {
    var resp := new SlackResponse(req);
    resp.SetText(Some("pong"));
    d := resp.Respond();
  }

  /** A webhook answered late: posted in the channel to the request's response URL. */
  method DelayedWebhookScenario(req: Request) returns (d: Delivery)
    requires req.IsWebhook()
    ensures d == PostLater(req.data.responseUrl, Obj([(Name("text"), Str("")),
      (Name("response_type"), Str("in_channel")), (Name("attachments"), Arr([]))]))
  {
    var resp := new SlackResponse(req);
    resp.IsDelayed(true);
    d := resp.Respond();
  }
}
