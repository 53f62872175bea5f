/**
 * SlackMessage: a message sent to an incoming webhook. The builder collects
 * the text, the bot's icon, name and channel and a list of attachments;
 * buildArray turns them into the document that send posts to the webhook.
 */
module Messages {
  import opened Wrappers
  import opened Documents
  import Attachments

  /** The message's scalar settings; null is None. */
  datatype MessageData = MessageData(
    text: Option<string>,
    iconUrl: Option<string>,
    iconEmoji: Option<string>,
    username: Option<string>,
    channel: Option<string>)

  const EmptyMessage := MessageData(None, None, None, None, None)

  /** The keys a message document can hold. */
  datatype MessageKey = TextKey | IconUrlKey | IconEmojiKey | UsernameKey | ChannelKey | AttachmentsKey
  {
    function Wire(): string {
      match this
      case TextKey => "text"
      case IconUrlKey => "icon_url"
      case IconEmojiKey => "icon_emoji"
      case UsernameKey => "username"
      case ChannelKey => "channel"
      case AttachmentsKey => "attachments"
    }
  }

  const MessageWire := (k: MessageKey) => k.Wire()

  /** Distinct keys have distinct wire names. */
  lemma WireInjective(k1: MessageKey, k2: MessageKey)
    ensures k1.Wire() == k2.Wire() ==> k1 == k2
  {
    if k1 != k2 {
      var w1, w2 := k1.Wire(), k2.Wire();
      if |w1| == |w2| {
        assert w1[0] != w2[0];
      }
    }
  }

  /** The order in which buildArray merges the keys. */
  const MessageKeyOrder: seq<MessageKey> :=
    [TextKey, IconUrlKey, IconEmojiKey, UsernameKey, ChannelKey, AttachmentsKey]

  /** The array buildArray merges for one key, given the attachments' documents. */
  function Piece(m: MessageData, atts: seq<Json>, k: MessageKey): Entries {
    match k
    case TextKey => Optional(k.Wire(), m.text)
    case IconUrlKey => Optional(k.Wire(), m.iconUrl)
    case IconEmojiKey => Optional(k.Wire(), m.iconEmoji)
    case UsernameKey => Optional(k.Wire(), m.username)
    case ChannelKey => Optional(k.Wire(), m.channel)
    case AttachmentsKey => if |atts| > 0 then [(Name(k.Wire()), Arr(atts))] else []
  }

  /** buildArray: each setting that is not null, then the attachments if there are any. */
  function MessageDoc(m: MessageData, atts: seq<Json>): Json {
    Obj(MergeAll(seq(|MessageKeyOrder|, i requires 0 <= i < |MessageKeyOrder| => Piece(m, atts, MessageKeyOrder[i]))))
  }

  /** Whether the document carries a key: a setting when it is not null, attachments when there is one. */
  predicate Emitted(m: MessageData, atts: seq<Json>, k: MessageKey) {
    match k
    case TextKey => m.text.Some?
    case IconUrlKey => m.iconUrl.Some?
    case IconEmojiKey => m.iconEmoji.Some?
    case UsernameKey => m.username.Some?
    case ChannelKey => m.channel.Some?
    case AttachmentsKey => |atts| > 0
  }

  function EmittedKeys(m: MessageData, atts: seq<Json>): set<MessageKey> {
    set k | k in MessageKeyOrder && Emitted(m, atts, k)
  }

  lemma KeyInOrder(k: MessageKey)
    ensures k in MessageKeyOrder
  {
    match k
    case TextKey => assert MessageKeyOrder[0] == k;
    case IconUrlKey => assert MessageKeyOrder[1] == k;
    case IconEmojiKey => assert MessageKeyOrder[2] == k;
    case UsernameKey => assert MessageKeyOrder[3] == k;
    case ChannelKey => assert MessageKeyOrder[4] == k;
    case AttachmentsKey => assert MessageKeyOrder[5] == k;
  }

  lemma PieceKeys(m: MessageData, atts: seq<Json>, k: MessageKey)
    ensures Keys(Piece(m, atts, k)) == if k in EmittedKeys(m, atts) then [Name(k.Wire())] else []
  {
    KeyInOrder(k);
    assert k in EmittedKeys(m, atts) <==> Emitted(m, atts, k);
  }

  /** The document's keys are the emitted keys, in the fixed order. */
  lemma MessageKeys(m: MessageData, atts: seq<Json>)
    ensures Keys(MessageDoc(m, atts).entries) == Named(Select(MessageKeyOrder, EmittedKeys(m, atts)), MessageWire)
  {
    var pieces := MessageDoc(m, atts).entries;
    var ps := seq(|MessageKeyOrder|, i requires 0 <= i < |MessageKeyOrder| => Piece(m, atts, MessageKeyOrder[i]));
    forall i | 0 <= i < |ps|
      ensures Keys(ps[i]) == if MessageKeyOrder[i] in EmittedKeys(m, atts)
        then [Name(MessageWire(MessageKeyOrder[i]))] else []
    {
      PieceKeys(m, atts, MessageKeyOrder[i]);
    }
    MergeAllKeys(ps, MessageKeyOrder, EmittedKeys(m, atts), MessageWire);
  }

  /** A key appears in the document iff it is emitted. */
  lemma KeyPresent(m: MessageData, atts: seq<Json>, k: MessageKey)
    ensures Name(k.Wire()) in Keys(MessageDoc(m, atts).entries) <==> Emitted(m, atts, k)
  {
    MessageKeys(m, atts);
    KeyInOrder(k);
    forall x, y ensures MessageWire(x) == MessageWire(y) ==> x == y {
      WireInjective(x, y);
    }
    NamedSelected(MessageKeyOrder, EmittedKeys(m, atts), MessageWire, k);
  }

  /** The setting a key is filled from; the attachments list has none. */
  function Setting(m: MessageData, k: MessageKey): Option<string> {
    match k
    case TextKey => m.text
    case IconUrlKey => m.iconUrl
    case IconEmojiKey => m.iconEmoji
    case UsernameKey => m.username
    case ChannelKey => m.channel
    case AttachmentsKey => None
  }

  /** A setting that is not null appears under its key with its own value. */
  lemma KeyValue(m: MessageData, atts: seq<Json>, k: MessageKey)
    requires k != AttachmentsKey
    ensures Setting(m, k).Some? ==> (Name(k.Wire()), Str(Setting(m, k).value)) in MessageDoc(m, atts).entries
  {
    if Setting(m, k).Some? {
      var e := (Name(k.Wire()), Str(Setting(m, k).value));
      var ps := seq(|MessageKeyOrder|, i requires 0 <= i < |MessageKeyOrder| => Piece(m, atts, MessageKeyOrder[i]));
      assert Piece(m, atts, k) == [e];
      KeyInOrder(k);
      var i :| 0 <= i < |MessageKeyOrder| && MessageKeyOrder[i] == k;
      assert e in ps[i];
      MergeAllMember(ps, i, e);
    }
  }

  /** The attachments, when there are any, are the last entry, in the order they were added. */
  lemma AttachmentsLast(m: MessageData, atts: seq<Json>)
    requires |atts| > 0
    ensures |MessageDoc(m, atts).entries| > 0
    ensures MessageDoc(m, atts).entries[|MessageDoc(m, atts).entries| - 1] == (Name("attachments"), Arr(atts))
  {
    var ps := seq(|MessageKeyOrder|, i requires 0 <= i < |MessageKeyOrder| => Piece(m, atts, MessageKeyOrder[i]));
    MergeAllLast(ps);
  }

  /** A message with nothing set and no attachments builds an empty array. */
  lemma EmptyMessageDoc()
    ensures MessageDoc(EmptyMessage, []) == Obj([])
  {
    var ps := seq(|MessageKeyOrder|, i requires 0 <= i < |MessageKeyOrder| => Piece(EmptyMessage, [], MessageKeyOrder[i]));
    forall i | 0 <= i < |ps| - 1
      ensures ps[i] == []
    {
    }
    MergeAllOnlyLast(ps);
  }

  /** What send hands to the transport: the webhook URL and the document to post. */
  datatype WebhookPost = WebhookPost(url: string, payload: Json)

  class SlackMessage {
    const webhookUrl: string
    var text: Option<string>
    var attachments: seq<Attachments.SlackAttachment>
    var iconUrl: Option<string>
    var username: Option<string>
    var iconEmoji: Option<string>
    var channel: Option<string>

    function Snapshot(): MessageData
      reads this
    {
      MessageData(text, iconUrl, iconEmoji, username, channel)
    }

    constructor (url: string)
      ensures webhookUrl == url
      ensures Snapshot() == EmptyMessage && attachments == []
    {
      webhookUrl := url;
      text, iconUrl, iconEmoji, username, channel := None, None, None, None, None;
      attachments := [];
    }

    method SetText(s: Option<string>)
      modifies this
      ensures Snapshot() == old(Snapshot()).(text := s) && attachments == old(attachments)
    {
      text := s;
    }

    /** Appends an attachment; the ones added before stay in place. */
    method AddAttachment(att: Attachments.SlackAttachment)
      modifies this
      ensures attachments == old(attachments) + [att] && Snapshot() == old(Snapshot())
    {
      attachments := attachments + [att];
    }

    method SetIconUrl(url: Option<string>)
      modifies this
      ensures Snapshot() == old(Snapshot()).(iconUrl := url) && attachments == old(attachments)
    {
      iconUrl := url;
    }

    method SetIconEmoji(emoji: Option<string>)
      modifies this
      ensures Snapshot() == old(Snapshot()).(iconEmoji := emoji) && attachments == old(attachments)
    {
      iconEmoji := emoji;
    }

    method SetUsername(name: Option<string>)
      modifies this
      ensures Snapshot() == old(Snapshot()).(username := name) && attachments == old(attachments)
    {
      username := name;
    }

    method SetChannel(chan: Option<string>)
      modifies this
      ensures Snapshot() == old(Snapshot()).(channel := chan) && attachments == old(attachments)
    {
      channel := chan;
    }

    /** buildArray: converts every attachment in turn, then merges the settings and the list. */
    method BuildArray() returns (doc: Json)
      ensures doc == MessageDoc(Snapshot(), Attachments.AttachmentDocs(attachments))
    {
      var atts: seq<Json> := [];
      for i := 0 to |attachments|
        invariant atts == Attachments.AttachmentDocs(attachments[..i])
      {
        assert attachments[..i + 1][..i] == attachments[..i];
        atts := atts + [attachments[i].ToArray()];
      }
      assert attachments[..|attachments|] == attachments;
      doc := MessageDoc(Snapshot(), atts);
    }

    /** send: posts the built document to the webhook URL. */
    method Send() returns (post: WebhookPost)
      ensures post.url == webhookUrl
      ensures post.payload == MessageDoc(Snapshot(), Attachments.AttachmentDocs(attachments))
    {
      var doc := BuildArray();
      post := WebhookPost(webhookUrl, doc);
    }
  }

  /** A message with nothing set and attachments builds just the attachments list. */
  lemma OnlyAttachmentsDoc(atts: seq<Json>)
    requires |atts| > 0
    ensures MessageDoc(EmptyMessage, atts) == Obj([(Name("attachments"), Arr(atts))])
  {
    var ps := seq(|MessageKeyOrder|, i requires 0 <= i < |MessageKeyOrder| => Piece(EmptyMessage, atts, MessageKeyOrder[i]));
    forall i | 0 <= i < |ps| - 1
      ensures ps[i] == []
    {
    }
    MergeAllOnlyLast(ps);
  }

  /**
   * A message whose one attachment has a title link but no title: the
   * attachment keeps only mrkdwn_in, and the message only its attachments.
   */
  method TitleLinkWithoutTitleScenario(url: string) returns (post: WebhookPost)
    ensures post == WebhookPost(url, Obj([(Name("attachments"),
      Arr([Obj([(Name("mrkdwn_in"), Arr([Str("text")]))])]))]))
  {
    var att := new Attachments.SlackAttachment();
    att.SetTitle(None, Some("https://example.com"));
    var doc := Obj([(Name("mrkdwn_in"), Arr([Str("text")]))]);
    assert att.ToArray() == doc by {
      Attachments.TitleLinkAloneIgnored(Attachments.FreshAttachment, Some("https://example.com"));
      Attachments.FreshAttachmentDoc();
    }
    var msg := new SlackMessage(url);
    msg.AddAttachment(att);
    assert Attachments.AttachmentDocs(msg.attachments) == [doc];
    OnlyAttachmentsDoc([doc]);
    post := msg.Send();
  }
}
