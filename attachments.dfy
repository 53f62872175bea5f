/**
 * The attachment builder (SlackAttachment): setters that update the
 * attachment's fields, a colour check, and the serialiser that turns the
 * fields into the ordered document sent to the chat platform.
 */
module Attachments {
  import opened Wrappers
  import opened Documents

  /** One table entry of an attachment. */
  datatype Field = Field(title: string, value: string, short: bool)

  /** Which parts of an attachment are parsed as markup. */
  datatype MarkdownFlags = MarkdownFlags(pretext: bool, text: bool, fields: bool)

  /** The state of an attachment; None is PHP's null. */
  datatype AttachmentData = AttachmentData(
    fallback: Option<string>,
    color: Option<string>,
    pretext: Option<string>,
    authorIcon: Option<string>,
    authorLink: Option<string>,
    authorName: Option<string>,
    title: Option<string>,
    titleLink: Option<string>,
    text: Option<string>,
    fields: seq<Field>,
    imageUrl: Option<string>,
    thumbUrl: Option<string>,
    markdown: MarkdownFlags)

  /** A new attachment: nothing set, only the text parsed as markup. */
  const FreshAttachment := AttachmentData(
    None, None, None, None, None, None, None, None, None, [], None, None,
    MarkdownFlags(pretext := false, text := true, fields := false))

  // ----- the colour check -----

  const NamedColors: seq<string> := ["good", "warning", "danger"]

  predicate IsHex(c: char) {
    ('0' <= c <= '9') || ('a' <= c <= 'f') || ('A' <= c <= 'F')
  }

  /** A regular-expression word character: [A-Za-z0-9_]. */
  predicate IsWordChar(c: char) {
    ('0' <= c <= '9') || ('a' <= c <= 'z') || ('A' <= c <= 'Z') || c == '_'
  }

  /** n hex digits start at j and end at a word boundary. */
  predicate HexRunAt(s: string, j: nat, n: nat) {
    && j + n <= |s|
    && (forall m :: j <= m < j + n ==> IsHex(s[m]))
    && (j + n == |s| || !IsWordChar(s[j + n]))
  }

  /** A match of /#([a-fA-F0-9]{3}){1,2}\b/ that starts at i. */
  predicate HexColorAt(s: string, i: nat) {
    i < |s| && s[i] == '#' && (HexRunAt(s, i + 1, 6) || HexRunAt(s, i + 1, 3))
  }

  /** The unanchored search: a match starts somewhere in s. */
  predicate HasHexColor(s: string) {
    exists i: nat :: i < |s| && HexColorAt(s, i)
  }

  /** The colours setColor stores. */
  predicate AcceptedColor(s: string) {
    s in NamedColors || HasHexColor(s)
  }

  lemma NoHashNoHexColor(s: string)
    requires '#' !in s
    ensures !HasHexColor(s)
  {
    forall i: nat | i < |s| ensures !HexColorAt(s, i) {
      assert s[i] in s;
    }
  }

  /** The named colours and the hex colours #fff, #1a2b3c and #439FE0 are accepted; a colour name outside the list is not. */
  lemma ColorExamples()
    ensures AcceptedColor("good") && AcceptedColor("warning") && AcceptedColor("danger")
    ensures AcceptedColor("#fff") && AcceptedColor("#1a2b3c") && AcceptedColor("#439FE0")
    ensures !AcceptedColor("purple")
  {
    assert HexColorAt("#fff", 0);
    assert HexColorAt("#1a2b3c", 0);
    assert HexColorAt("#439FE0", 0);
    NoHashNoHexColor("purple");
  }

  /** The search is not anchored: a hex colour anywhere in the string is accepted. */
  lemma ColorUnanchored()
    ensures AcceptedColor("x#abc")
    ensures AcceptedColor("#abc def")
  {
    assert HexColorAt("x#abc", 1);
    assert HexColorAt("#abc def", 0);
  }

  /**
   * Four or seven hex digits, or six followed by a letter, end inside a
   * word, so no word boundary follows three or six of them.
   */
  lemma ColorNeedsBoundary()
    ensures !AcceptedColor("#abcd")
    ensures !AcceptedColor("#abcdef0")
    ensures !AcceptedColor("#abcdefg")
  {
    NotAcceptedPastHash("#abcd");
    NotAcceptedPastHash("#abcdef0");
    NotAcceptedPastHash("#abcdefg");
  }

  /** A string that is no named colour, has no match at 0 and no '#' after it is rejected. */
  lemma NotAcceptedPastHash(s: string)
    requires |s| > 0 && s !in NamedColors && !HexColorAt(s, 0) && '#' !in s[1..]
    ensures !AcceptedColor(s)
  {
    NoHashNoHexColor(s[1..]);
    forall i: nat | 0 < i < |s| ensures !HexColorAt(s, i) {
      assert s[i] == s[1..][i - 1];
      assert s[1..][i - 1] in s[1..];
    }
  }

  // ----- the serialiser -----

  /** The parts of an attachment that can be parsed as markup. */
  datatype MarkdownPart = TextPart | FieldsPart | PretextPart {
    function Wire(): string {
      match this
      case TextPart => "text"
      case FieldsPart => "fields"
      case PretextPart => "pretext"
    }
  }

  const MarkdownOrder: seq<MarkdownPart> := [TextPart, FieldsPart, PretextPart]

  /** The parts flagged for markup. */
  function Flagged(m: MarkdownFlags): set<MarkdownPart> {
    (if m.pretext then {PretextPart} else {}) + (if m.text then {TextPart} else {})
      + (if m.fields then {FieldsPart} else {})
  }

  /** The mrkdwn_in list: the flagged parts, always in the order text, fields, pretext. */
  function MrkdwnIn(m: MarkdownFlags): (r: seq<MarkdownPart>)
    ensures r == Select(MarkdownOrder, Flagged(m))
  {
    MarkdownSelect(m);
    (if m.text then [TextPart] else []) + (if m.fields then [FieldsPart] else [])
      + (if m.pretext then [PretextPart] else [])
  }

  lemma MarkdownSelect(m: MarkdownFlags)
    ensures Select(MarkdownOrder, Flagged(m)) ==
      (if m.text then [TextPart] else []) + (if m.fields then [FieldsPart] else [])
        + (if m.pretext then [PretextPart] else [])
  {
    var flagged := Flagged(m);
    assert TextPart in flagged <==> m.text;
    assert FieldsPart in flagged <==> m.fields;
    assert PretextPart in flagged <==> m.pretext;
    SelectCons(PretextPart, [], flagged);
    assert Select([PretextPart], flagged) == (if m.pretext then [PretextPart] else []);
    SelectCons(FieldsPart, [PretextPart], flagged);
    assert Select([FieldsPart, PretextPart], flagged) ==
      (if m.fields then [FieldsPart] else []) + (if m.pretext then [PretextPart] else []);
    SelectCons(TextPart, [FieldsPart, PretextPart], flagged);
  }

  function MrkdwnInDoc(parts: seq<MarkdownPart>): Json {
    Arr(seq(|parts|, i requires 0 <= i < |parts| => Str(parts[i].Wire())))
  }

  function FieldDoc(f: Field): Json {
    Obj([(Name("title"), Str(f.title)), (Name("value"), Str(f.value)), (Name("short"), Bool(f.short))])
  }

  /** The field list as array_merge appends it: entries keyed 0, 1, ... */
  function FieldEntries(fields: seq<Field>): (e: Entries)
    ensures Keys(e) == IndexKeys(|fields|)
  {
    seq(|fields|, i requires 0 <= i < |fields| => (Index(i), FieldDoc(fields[i])))
  }

  /** The named keys an attachment document can hold. */
  datatype AttachmentKey =
    | TextKey | PretextKey | FallbackKey | ColorKey | TitleKey | ImageUrlKey | ThumbUrlKey
    | TitleLinkKey | AuthorNameKey | AuthorLinkKey | AuthorIconKey | MrkdwnInKey
  {
    function Wire(): string {
      match this
      case TextKey => "text"
      case PretextKey => "pretext"
      case FallbackKey => "fallback"
      case ColorKey => "color"
      case TitleKey => "title"
      case ImageUrlKey => "image_url"
      case ThumbUrlKey => "thumb_url"
      case TitleLinkKey => "title_link"
      case AuthorNameKey => "author_name"
      case AuthorLinkKey => "author_link"
      case AuthorIconKey => "author_icon"
      case MrkdwnInKey => "mrkdwn_in"
    }
  }

  /**
   * The array toArray merges for one key: the key with its value when the
   * value is set (title_link only with a title, author_link and author_icon
   * only with an author name), and mrkdwn_in always.
   */
  function Piece(a: AttachmentData, k: AttachmentKey): Entries {
    match k
    case TextKey => Optional(k.Wire(), a.text)
    case PretextKey => Optional(k.Wire(), a.pretext)
    case FallbackKey => Optional(k.Wire(), a.fallback)
    case ColorKey => Optional(k.Wire(), a.color)
    case TitleKey => Optional(k.Wire(), a.title)
    case ImageUrlKey => Optional(k.Wire(), a.imageUrl)
    case ThumbUrlKey => Optional(k.Wire(), a.thumbUrl)
    case TitleLinkKey => Optional(k.Wire(), if a.title.Some? then a.titleLink else None)
    case AuthorNameKey => Optional(k.Wire(), a.authorName)
    case AuthorLinkKey => Optional(k.Wire(), if a.authorName.Some? then a.authorLink else None)
    case AuthorIconKey => Optional(k.Wire(), if a.authorName.Some? then a.authorIcon else None)
    case MrkdwnInKey => [(Name(k.Wire()), MrkdwnInDoc(MrkdwnIn(a.markdown)))]
  }

  /** The order in which toArray merges the named keys. */
  const AttachmentKeyOrder: seq<AttachmentKey> := [
    TextKey, PretextKey, FallbackKey, ColorKey, TitleKey, ImageUrlKey, ThumbUrlKey,
    TitleLinkKey, AuthorNameKey, AuthorLinkKey, AuthorIconKey, MrkdwnInKey]

  /** The arrays toArray merges before the fields, one per key in order. */
  function NamedPieces(a: AttachmentData): seq<Entries> {
    seq(|AttachmentKeyOrder|, i requires 0 <= i < |AttachmentKeyOrder| => Piece(a, AttachmentKeyOrder[i]))
  }

  function NamedEntries(a: AttachmentData): Entries {
    MergeAll(NamedPieces(a))
  }

  /** toArray: the named entries, then the fields merged in directly. */
  function AttachmentDoc(a: AttachmentData): Json {
    Obj(NamedEntries(a) + FieldEntries(a.fields))
  }

  const AttachmentWire := (k: AttachmentKey) => k.Wire()

  /** Distinct keys have distinct wire names. */
  lemma WireInjective(k1: AttachmentKey, k2: AttachmentKey)
    ensures k1.Wire() == k2.Wire() ==> k1 == k2
  {
    if k1 != k2 {
      var w1, w2 := k1.Wire(), k2.Wire();
      if |w1| == |w2| {
        assert w1[0] != w2[0] || w1[7] != w2[7];
      }
    }
  }

  /**
   * Whether an attachment emits a key: each optional key when its field is
   * set, title_link only with a title as well, author_link and author_icon
   * only with an author name as well, and mrkdwn_in always.
   */
  predicate Emitted(a: AttachmentData, k: AttachmentKey) {
    match k
    case TextKey => a.text.Some?
    case PretextKey => a.pretext.Some?
    case FallbackKey => a.fallback.Some?
    case ColorKey => a.color.Some?
    case TitleKey => a.title.Some?
    case ImageUrlKey => a.imageUrl.Some?
    case ThumbUrlKey => a.thumbUrl.Some?
    case TitleLinkKey => a.title.Some? && a.titleLink.Some?
    case AuthorNameKey => a.authorName.Some?
    case AuthorLinkKey => a.authorName.Some? && a.authorLink.Some?
    case AuthorIconKey => a.authorName.Some? && a.authorIcon.Some?
    case MrkdwnInKey => true
  }

  function EmittedKeys(a: AttachmentData): set<AttachmentKey> {
    set k | k in AttachmentKeyOrder && Emitted(a, k)
  }

  /** Every named key has its place in the merge order. */
  lemma KeyInOrder(k: AttachmentKey)
    ensures k in AttachmentKeyOrder
  {
    match k
    case TextKey => assert AttachmentKeyOrder[0] == k;
    case PretextKey => assert AttachmentKeyOrder[1] == k;
    case FallbackKey => assert AttachmentKeyOrder[2] == k;
    case ColorKey => assert AttachmentKeyOrder[3] == k;
    case TitleKey => assert AttachmentKeyOrder[4] == k;
    case ImageUrlKey => assert AttachmentKeyOrder[5] == k;
    case ThumbUrlKey => assert AttachmentKeyOrder[6] == k;
    case TitleLinkKey => assert AttachmentKeyOrder[7] == k;
    case AuthorNameKey => assert AttachmentKeyOrder[8] == k;
    case AuthorLinkKey => assert AttachmentKeyOrder[9] == k;
    case AuthorIconKey => assert AttachmentKeyOrder[10] == k;
    case MrkdwnInKey => assert AttachmentKeyOrder[11] == k;
  }

  /** Each merged array holds its key exactly when the key is emitted. */
  lemma PieceKeys(a: AttachmentData, k: AttachmentKey)
    ensures Keys(Piece(a, k)) == if k in EmittedKeys(a) then [Name(k.Wire())] else []
  {
    KeyInOrder(k);
    assert k in EmittedKeys(a) <==> Emitted(a, k);
  }

  /** The keys of the named entries: the emitted keys in the fixed order. */
  lemma NamedEntriesKeys(a: AttachmentData)
    ensures Keys(NamedEntries(a)) == Named(Select(AttachmentKeyOrder, EmittedKeys(a)), AttachmentWire)
  {
    var pieces, order, p := NamedPieces(a), AttachmentKeyOrder, EmittedKeys(a);
    forall i | 0 <= i < |pieces|
      ensures Keys(pieces[i]) == if order[i] in p then [Name(AttachmentWire(order[i]))] else []
    {
      PieceKeys(a, order[i]);
    }
    MergeAllKeys(pieces, order, p, AttachmentWire);
  }

  /**
   * The document's keys are exactly the emitted names, in the fixed order,
   * followed by one numeric key per field.
   */
  lemma AttachmentKeys(a: AttachmentData)
    ensures Keys(AttachmentDoc(a).entries) ==
      Named(Select(AttachmentKeyOrder, EmittedKeys(a)), AttachmentWire) + IndexKeys(|a.fields|)
  {
    NamedEntriesKeys(a);
    KeysAppend(NamedEntries(a), FieldEntries(a.fields));
  }

  /** A named key appears in the document iff the attachment emits it. */
  lemma KeyEmitted(a: AttachmentData, k: AttachmentKey)
    ensures Name(k.Wire()) in Keys(AttachmentDoc(a).entries) <==> Emitted(a, k)
  {
    AttachmentKeys(a);
    KeyInOrder(k);
    forall x, y ensures AttachmentWire(x) == AttachmentWire(y) ==> x == y {
      WireInjective(x, y);
    }
    NamedSelected(AttachmentKeyOrder, EmittedKeys(a), AttachmentWire, k);
    assert Name(k.Wire()) !in IndexKeys(|a.fields|);
  }

  /** The field a named key is filled from; mrkdwn_in, built from the flags, has none. */
  function Setting(a: AttachmentData, k: AttachmentKey): Option<string> {
    match k
    case TextKey => a.text
    case PretextKey => a.pretext
    case FallbackKey => a.fallback
    case ColorKey => a.color
    case TitleKey => a.title
    case ImageUrlKey => a.imageUrl
    case ThumbUrlKey => a.thumbUrl
    case TitleLinkKey => a.titleLink
    case AuthorNameKey => a.authorName
    case AuthorLinkKey => a.authorLink
    case AuthorIconKey => a.authorIcon
    case MrkdwnInKey => None
  }

  /** An emitted key other than mrkdwn_in carries the value of its own field. */
  lemma KeyValue(a: AttachmentData, k: AttachmentKey)
    requires k != MrkdwnInKey
    ensures Emitted(a, k) ==> Setting(a, k).Some?
    ensures Emitted(a, k) ==> (Name(k.Wire()), Str(Setting(a, k).value)) in AttachmentDoc(a).entries
  {
    if Emitted(a, k) {
      var e := (Name(k.Wire()), Str(Setting(a, k).value));
      assert Piece(a, k) == [e];
      KeyInOrder(k);
      var i :| 0 <= i < |AttachmentKeyOrder| && AttachmentKeyOrder[i] == k;
      assert e in NamedPieces(a)[i];
      MergeAllMember(NamedPieces(a), i, e);
      assert e in NamedEntries(a) + FieldEntries(a.fields);
    }
  }

  /** title_link is emitted only when both the title and the link are set. */
  lemma TitleLinkNeedsTitle(a: AttachmentData)
    ensures Name("title_link") in Keys(AttachmentDoc(a).entries) <==>
      a.title.Some? && a.titleLink.Some?
  {
    KeyEmitted(a, TitleLinkKey);
  }

  /** The author link and icon are emitted only with an author name. */
  lemma AuthorPartsNeedName(a: AttachmentData)
    ensures Name("author_link") in Keys(AttachmentDoc(a).entries) <==>
      a.authorName.Some? && a.authorLink.Some?
    ensures Name("author_icon") in Keys(AttachmentDoc(a).entries) <==>
      a.authorName.Some? && a.authorIcon.Some?
  {
    KeyEmitted(a, AuthorLinkKey);
    KeyEmitted(a, AuthorIconKey);
  }

  /** mrkdwn_in is always there, with the flagged parts in the fixed order. */
  lemma MrkdwnAlwaysPresent(a: AttachmentData)
    ensures (Name("mrkdwn_in"), MrkdwnInDoc(Select(MarkdownOrder, Flagged(a.markdown))))
      in AttachmentDoc(a).entries
  {
    var entry := (Name("mrkdwn_in"), MrkdwnInDoc(MrkdwnIn(a.markdown)));
    assert NamedPieces(a)[11] == [entry];
    MergeAllMember(NamedPieces(a), 11, entry);
  }

  /** The fields come last, as entries 0, 1, ... in the order they were added. */
  lemma FieldsComeLast(a: AttachmentData)
    ensures |AttachmentDoc(a).entries| >= |a.fields|
    ensures forall i :: 0 <= i < |a.fields| ==>
      AttachmentDoc(a).entries[|AttachmentDoc(a).entries| - |a.fields| + i]
        == (Index(i), FieldDoc(a.fields[i]))
  {
  }

  /** A new attachment serialises to mrkdwn_in = ["text"] and nothing else. */
  lemma FreshAttachmentDoc()
    ensures AttachmentDoc(FreshAttachment) == Obj([(Name("mrkdwn_in"), Arr([Str("text")]))])
  {
    var a := FreshAttachment;
    var pieces := NamedPieces(a);
    assert AttachmentKeyOrder[..11] == [TextKey, PretextKey, FallbackKey, ColorKey, TitleKey,
      ImageUrlKey, ThumbUrlKey, TitleLinkKey, AuthorNameKey, AuthorLinkKey, AuthorIconKey];
    forall i | 0 <= i < |pieces| - 1
      ensures pieces[i] == []
    {
      assert AttachmentKeyOrder[i] == AttachmentKeyOrder[..11][i] != MrkdwnInKey;
    }
    MergeAllOnlyLast(pieces);
    assert MrkdwnIn(a.markdown) == [TextPart];
    assert MrkdwnInDoc([TextPart]) == Arr([Str("text")]);
  }

  /** Without a title, a title link changes nothing in the document. */
  lemma TitleLinkAloneIgnored(a: AttachmentData, link: Option<string>)
    requires a.title.None?
    ensures AttachmentDoc(a.(titleLink := link)) == AttachmentDoc(a)
  {
    var b := a.(titleLink := link);
    forall k ensures Piece(b, k) == Piece(a, k) {
    }
    assert NamedPieces(b) == NamedPieces(a);
  }

  /** Appending a field leaves the entries of the earlier fields as they were. */
  lemma AddFieldKeepsEarlier(fields: seq<Field>, f: Field)
    ensures FieldEntries(fields + [f]) == FieldEntries(fields) + [(Index(|fields|), FieldDoc(f))]
  {
  }

  // ----- the builder -----

  class SlackAttachment {
    var fallback: Option<string>
    var color: Option<string>
    var pretext: Option<string>
    var authorIcon: Option<string>
    var authorLink: Option<string>
    var authorName: Option<string>
    var title: Option<string>
    var titleLink: Option<string>
    var text: Option<string>
    var fields: seq<Field>
    var imageUrl: Option<string>
    var thumbUrl: Option<string>
    var markdown: MarkdownFlags

    /** The attachment's current state as a value. */
    function Snapshot(): AttachmentData
      reads this
    {
      AttachmentData(fallback, color, pretext, authorIcon, authorLink, authorName, title,
        titleLink, text, fields, imageUrl, thumbUrl, markdown)
    }

    /** toArray. */
    function ToArray(): Json
      reads this
    {
      AttachmentDoc(Snapshot())
    }

    constructor ()
      ensures Snapshot() == FreshAttachment
    {
      fallback, color, pretext := None, None, None;
      authorIcon, authorLink, authorName := None, None, None;
      title, titleLink, text := None, None, None;
      fields := [];
      imageUrl, thumbUrl := None, None;
      markdown := MarkdownFlags(pretext := false, text := true, fields := false);
    }

    method SetFallback(s: Option<string>)
      modifies this
      ensures Snapshot() == old(Snapshot()).(fallback := s)
    {
      fallback := s;
    }

    /**
     * Stores a named colour or a string holding a hex colour, clears the
     * colour on null, and ignores anything else.
     */
    method SetColor(c: Option<string>)
      modifies this
      ensures c.Some? && AcceptedColor(c.value) ==> color == c
      ensures c.None? ==> color == None
      ensures c.Some? && !AcceptedColor(c.value) ==> color == old(color)
      ensures Snapshot() == old(Snapshot()).(color := color)
    {
      if c.Some? && c.value in NamedColors {
        color := c;
      } else if c.Some? && HasHexColor(c.value) {
        color := c;
      } else if c.None? {
        color := None;
      }
    }

    method SetText(s: Option<string>)
      modifies this
      ensures Snapshot() == old(Snapshot()).(text := s)
    {
      text := s;
    }

    /** Chooses which parts are parsed as markup. */
    method Markdown(text: bool := true, pretext: bool := false, fields: bool := false)
      modifies this
      ensures Snapshot() == old(Snapshot()).(markdown := MarkdownFlags(pretext, text, fields))
    {
      markdown := markdown.(text := text);
      markdown := markdown.(pretext := pretext);
      markdown := markdown.(fields := fields);
    }

    method SetPretext(s: Option<string>)
      modifies this
      ensures Snapshot() == old(Snapshot()).(pretext := s)
    {
      pretext := s;
    }

    method SetAuthor(name: Option<string> := None, link: Option<string> := None, img: Option<string> := None)
      modifies this
      ensures Snapshot() == old(Snapshot()).(authorName := name, authorLink := link, authorIcon := img)
    {
      authorName := name;
      authorLink := link;
      authorIcon := img;
    }

    method SetTitle(t: Option<string>, url: Option<string> := None)
      modifies this
      ensures Snapshot() == old(Snapshot()).(title := t, titleLink := url)
    {
      title := t;
      titleLink := url;
    }

    /** Appends one field; the earlier fields stay as they were. */
    method AddField(t: string, value: string, short: bool := false)
      modifies this
      ensures Snapshot() == old(Snapshot()).(fields := old(fields) + [Field(t, value, short)])
    {
      fields := fields + [Field(t, value, short)];
    }

    method SetImage(url: Option<string>)
      modifies this
      ensures Snapshot() == old(Snapshot()).(imageUrl := url)
    {
      imageUrl := url;
    }

    method SetThumb(url: Option<string>)
      modifies this
      ensures Snapshot() == old(Snapshot()).(thumbUrl := url)
    {
      thumbUrl := url;
    }
  }

  /** The documents of a list of attachments, in the list's order. */
  function AttachmentDocs(atts: seq<SlackAttachment>): seq<Json>
    reads atts
  {
    if atts == [] then []
    else AttachmentDocs(atts[..|atts| - 1]) + [atts[|atts| - 1].ToArray()]
  }

  /** The i-th document is the i-th attachment's toArray. */
  lemma {:induction false} AttachmentDocsIndex(atts: seq<SlackAttachment>)
    ensures |AttachmentDocs(atts)| == |atts|
    ensures forall i :: 0 <= i < |atts| ==> AttachmentDocs(atts)[i] == atts[i].ToArray()
  {
    if atts != [] {
      var init := atts[..|atts| - 1];
      AttachmentDocsIndex(init);
      assert forall i :: 0 <= i < |init| ==> init[i] == atts[i];
    }
  }
}
