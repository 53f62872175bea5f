/**
 * The inbound request classifier (SlackRequest): validates a form field map
 * against an allow-list of tokens, stores every recognised field and derives
 * whether the request is a slash command or an outgoing webhook.
 */
module Requests {
  import opened Wrappers
  import opened Strings

  type FieldMap = map<string, string>

  datatype RequestType = Command | Webhook | Unknown

  datatype RequestError = InvalidArgument | InvalidRequest | InvalidToken(token: string)

  /** The allow-list argument: an array of tokens, or any value is_array rejects. */
  datatype TokenArg = TokenList(tokens: seq<string>) | NotAnArray

  /** The fields that storing the request data assigns; None is PHP's null. */
  datatype RequestData = RequestData(
    token: Option<string>,
    teamId: Option<string>,
    teamDomain: Option<string>,
    serviceId: Option<string>,
    channelId: Option<string>,
    channelName: Option<string>,
    privateChannel: Option<bool>,
    timestamp: Option<int>,
    userId: Option<string>,
    userName: Option<string>,
    text: Option<string>,
    command: Option<string>,
    args: seq<string>,
    triggerWord: Option<string>,
    responseUrl: Option<string>)

  /** A constructed request: immutable once built. */
  datatype Request = Request(validTokens: seq<string>, data: RequestData, requestType: RequestType) {

    predicate IsCommand() {
      requestType == Command
    }

    predicate IsWebhook() {
      requestType == Webhook
    }

    /** The request's text, which is only given out for a webhook. */
    function Text(): (t: Option<string>)
      ensures t.Some? ==> IsWebhook() && t == data.text
      ensures IsWebhook() ==> t == data.text
      ensures !IsWebhook() ==> t == None
    {
      if IsWebhook() then data.text else None
    }
  }

  /** PHP's `$x != null` on an optional string: set and not "". */
  predicate NotNull(x: Option<string>) {
    x.Some? && x.value != ""
  }

  /** PHP's `!$x` on an optional string: null, "" and "0" are falsy. */
  predicate Falsy(x: Option<string>) {
    x.None? || x.value == "" || x.value == "0"
  }

  /** isset on the recognised keys: the minimum a request must carry. */
  predicate IsSlackRequest(post: FieldMap) {
    && "token" in post
    && "team_id" in post
    && ("command" in post || "trigger_word" in post || "text" in post)
  }

  /** The command with one leading slash removed. */
  function StripSlash(s: string): (r: string)
    ensures |s| > 0 && s[0] == '/' ==> "/" + r == s
    ensures !(|s| > 0 && s[0] == '/') ==> r == s
  {
    if |s| > 0 && s[0] == '/' then s[1..] else s
  }

  /** The arguments: runs of spaces in the text collapsed, then split on a space. */
  function Args(text: string): (r: seq<string>)
    ensures |r| >= 1
    ensures forall p :: p in r ==> ' ' !in p
  {
    Split(Collapse(text))
  }

  /** The raw text field as the argument step reads it; a missing field reads as "". */
  function RawText(post: FieldMap): string {
    if "text" in post then post["text"] else ""
  }

  function Visited(post: FieldMap, seen: set<string>, key: string): Option<string>
    requires seen <= post.Keys
  {
    if key in seen then Some(post[key]) else None
  }

  /**
   * The stored fields once the keys in `seen` have been visited: each
   * recognised key sets its own fields only, so the order of the visits
   * does not matter.
   */
  function StoredFrom(post: FieldMap, seen: set<string>): RequestData
    requires seen <= post.Keys
  {
    RequestData(
      token := Visited(post, seen, "token"),
      teamId := Visited(post, seen, "team_id"),
      teamDomain := Visited(post, seen, "team_domain"),
      serviceId := Visited(post, seen, "service_id"),
      channelId := Visited(post, seen, "channel_id"),
      channelName := Visited(post, seen, "channel_name"),
      privateChannel :=
        if "channel_name" in seen then Some(post["channel_name"] == "privategroup") else None,
      timestamp := if "timestamp" in seen then Some(IntCast(post["timestamp"])) else None,
      userId := Visited(post, seen, "user_id"),
      userName := Visited(post, seen, "user_name"),
      text := Visited(post, seen, "text"),
      command := if "command" in seen then Some(StripSlash(post["command"])) else None,
      args := if "command" in seen then Args(RawText(post)) else [],
      triggerWord := Visited(post, seen, "trigger_word"),
      responseUrl := Visited(post, seen, "response_url"))
  }

  /** The fields stored from a whole request. */
  function Stored(post: FieldMap): RequestData {
    StoredFrom(post, post.Keys)
  }

  /** Stores the request data: one visit per key, in whatever order the keys come. */
  method StoreRequestData(post: FieldMap) returns (d: RequestData)
    ensures d == Stored(post)
  {
    d := RequestData(None, None, None, None, None, None, None, None, None, None, None, None, [], None, None);
    var pending := post.Keys;
    while pending != {}
      invariant pending <= post.Keys
      invariant d == StoredFrom(post, post.Keys - pending)
      decreases pending
    {
      var key :| key in pending;
      d := StoreField(d, post, key, post.Keys - pending);
      assert post.Keys - (pending - {key}) == (post.Keys - pending) + {key};
      pending := pending - {key};
    }
  }

  /** One step of the visit: the switch on the key, which assigns that key's fields only. */
  method StoreField(d: RequestData, post: FieldMap, key: string, ghost seen: set<string>)
    returns (d': RequestData)
    requires seen <= post.Keys && key in post && key !in seen
    requires d == StoredFrom(post, seen)
    ensures d' == StoredFrom(post, seen + {key})
  {
    var value := post[key];
    d' := d;
    if key == "token" {
      d' := d.(token := Some(value));
    } else if key == "timestamp" {
      d' := d.(timestamp := Some(IntCast(value)));
    } else if key == "team_id" {
      d' := d.(teamId := Some(value));
    } else if key == "team_domain" {
      d' := d.(teamDomain := Some(value));
    } else if key == "service_id" {
      d' := d.(serviceId := Some(value));
    } else if key == "channel_id" {
      d' := d.(channelId := Some(value));
    } else if key == "channel_name" {
      d' := d.(channelName := Some(value));
      if value == "privategroup" {
        d' := d'.(privateChannel := Some(true));
      } else {
        d' := d'.(privateChannel := Some(false));
      }
    } else if key == "user_id" {
      d' := d.(userId := Some(value));
    } else if key == "user_name" {
      d' := d.(userName := Some(value));
    } else if key == "command" {
      d' := d.(command := Some(StripSlash(value)), args := Args(RawText(post)));
    } else if key == "text" {
      d' := d.(text := Some(value));
    } else if key == "response_url" {
      d' := d.(responseUrl := Some(value));
    } else if key == "trigger_word" {
      d' := d.(triggerWord := Some(value));
    }
  }

  /**
   * The request type: a command when the command is not null, otherwise a
   * webhook when the trigger word or the text is, otherwise neither.
   */
  function DetectRequestType(d: RequestData): (t: RequestType)
    ensures t == Command <==> NotNull(d.command)
    ensures t == Webhook <==> !NotNull(d.command) && (NotNull(d.triggerWord) || NotNull(d.text))
  {
    if NotNull(d.command) then Command
    else if NotNull(d.triggerWord) then Webhook
    else if NotNull(d.text) && Falsy(d.command) then Webhook
    else Unknown
  }

  /** The token check: a non-empty allow-list that does not hold the token. */
  predicate TokenRejected(validTokens: seq<string>, token: string) {
    |validTokens| > 0 && token !in validTokens
  }

  /**
   * Constructs a request: the allow-list is checked, then the request is
   * recognised and stored, then classified, and the token is checked last.
   */
  method NewRequest(post: FieldMap, validTokens: TokenArg := TokenList([])) returns (r: Result<Request, RequestError>)
    ensures r == Failure(InvalidArgument) <==> validTokens.NotAnArray?
    ensures r == Failure(InvalidRequest) <==> validTokens.TokenList? && !IsSlackRequest(post)
    ensures r.Failure? && r.error.InvalidToken? <==>
      validTokens.TokenList? && IsSlackRequest(post) && TokenRejected(validTokens.tokens, post["token"])
    ensures r.Failure? && r.error.InvalidToken? ==> r.error.token == post["token"]
    ensures r.Success? ==>
      && r.value.validTokens == validTokens.tokens
      && r.value.data == Stored(post)
      && r.value.requestType == DetectRequestType(Stored(post))
  {
    if validTokens.NotAnArray? {
      return Failure(InvalidArgument);
    }
    var tokens := validTokens.tokens;
    if !IsSlackRequest(post) {
      return Failure(InvalidRequest);
    }
    var data := StoreRequestData(post);
    var requestType := DetectRequestType(data);
    if |tokens| > 0 {
      if data.token.value !in tokens {
        return Failure(InvalidToken(data.token.value));
      }
    }
    return Success(Request(tokens, data, requestType));
  }

  // ----- properties of the stored request -----

  /**
   * Classification in terms of the input: a command iff the command field,
   * less its slash, is not empty; a webhook iff not a command and the
   * trigger word or the text is non-empty.
   */
  lemma ClassifyStored(post: FieldMap)
    ensures DetectRequestType(Stored(post)) == Command <==>
      "command" in post && StripSlash(post["command"]) != ""
    ensures DetectRequestType(Stored(post)) == Webhook <==>
      && !("command" in post && StripSlash(post["command"]) != "")
      && (("trigger_word" in post && post["trigger_word"] != "") || ("text" in post && post["text"] != ""))
  {
  }

  /** A request whose only qualifying key is an empty text passes the presence test but gets no type. */
  lemma EmptyTextHasNoType(token: string, teamId: string)
    ensures IsSlackRequest(map["token" := token, "team_id" := teamId, "text" := ""])
    ensures DetectRequestType(Stored(map["token" := token, "team_id" := teamId, "text" := ""])) == Unknown
  {
    var post := map["token" := token, "team_id" := teamId, "text" := ""];
    ClassifyStored(post);
  }

  /** Exactly one leading slash is removed: "/" + c is stored as c, whatever c is. */
  lemma StripOneSlash(c: string)
    ensures StripSlash("/" + c) == c
  {
  }

  /** The arguments are the non-empty words of the text, keeping a leading and a trailing empty piece. */
  lemma ArgsAreWords(text: string)
    ensures Args(text) == DropInteriorEmpty(Split(text))
    ensures Join(Args(text)) == Collapse(text)
  {
    SplitCollapse(text);
    JoinSplit(Collapse(text));
  }

  /** "a   b" gives the arguments ["a", "b"]. */
  lemma ArgsExample()
    ensures Args("a   b") == ["a", "b"]
  {
    var s := "a   b";
    assert s[1..] == "   b" && "   b"[1..] == "  b" && "  b"[1..] == " b" && " b"[1..] == "b";
    assert "b"[1..] == "";
    assert Collapse("b") == "b";
    assert Collapse(" b") == " b";
    assert Collapse("  b") == " b";
    assert Collapse("   b") == " b";
    assert Collapse(s) == "a b";
    assert Split("") == [""];
    assert Split("b") == ["b"];
    assert Split(" b") == ["", "b"];
    assert "a b"[1..] == " b";
    var rest := Split(" b");
    assert Split("a b") == [['a'] + rest[0]] + rest[1..];
    assert ['a'] + rest[0] == "a";
    assert rest[1..] == ["b"];
  }

  /** With a command but no text field the arguments are one empty string. */
  lemma ArgsWithoutText(post: FieldMap)
    requires "command" in post && "text" !in post
    ensures Stored(post).args == [""]
  {
  }

  /** Without a command the arguments stay empty. */
  lemma NoCommandNoArgs(post: FieldMap)
    requires "command" !in post
    ensures Stored(post).args == []
  {
  }

  /** The channel is private iff its name is exactly "privategroup". */
  lemma PrivateChannel(post: FieldMap)
    requires "channel_name" in post
    ensures Stored(post).privateChannel == Some(post["channel_name"] == "privategroup")
  {
  }
}
