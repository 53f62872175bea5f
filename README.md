# Slacker in Dafny

A model of the core of Slacker, a small PHP library for chat-platform
integrations. It has four parts:

- **SlackRequest** (`Requests`): reads the form fields of an incoming slash command or outgoing webhook.
  - It checks that the request is recognisable and that its token is on an allow-list.
  - It stores every recognised field and classifies the request as a command, a webhook or neither.
- **SlackAttachment** (`Attachments`): a builder for message attachments.
  - The setters include a colour check: a fixed list of names, or an unanchored hex-colour search.
  - `toArray` turns the fields into an ordered document with conditional keys.
- **SlackMessage** (`Messages`): a builder for messages sent to an incoming webhook.
  - `buildArray` merges the settings that are set and the attachments' documents.
- **SlackResponse** (`Responses`): the reply to a request.
  - Its defaults depend on the request type.
  - `buildResponseArray` always yields `text`, `response_type` and `attachments`.
  - `respond` writes the reply back or posts it to the request's response URL.

PHP arrays handed to `json_encode` are modelled as ordered documents (`Documents.Json`).
- An object is a sequence of entries.
- Each entry's key is a name or an integer index.
- PHP's `null` is `None`.

`Strings` models the three string operations the request parser relies on:
- `explode(' ', …)` is `Split`;
- `preg_replace('/ +/', ' ', …)` is `Collapse`;
- the `(int)` cast on plain decimal numerals is `IntCast` (see "## Left out" for fractions and exponents).

Each PHP class has the form of its source:
- **Builders** (attachment, message, response) are Dafny classes whose setters change fields under `modifies`. The attachment and the message also have a `Snapshot()` function that returns their settings as a value. The response's few fields are stated one by one.
- **Serialisers** are pure functions of that value. `BuildArray` and `BuildResponseArray` keep the source's loop over the attachments, with an invariant tying it to `AttachmentDocs`.
- **The request** is immutable once built, so it is a datatype value. `NewRequest` is the constructor.
  - It checks the allow-list, then recognition, then storage, then classification, then the token.
  - Its storing loop visits the form keys in an arbitrary order. The invariant `d == StoredFrom(post, visited)` proves that the result does not depend on that order.
- **Delivery** is not performed. `SlackMessage.Send` and `SlackResponse.Respond` return what would be sent and where: a `WebhookPost`, or a `Delivery` that is either `ReplyNow` or `PostLater`.

## Behaviour the source's own comments do not show

- **Attachment fields.** `toArray` is documented as giving "perfect JSON for Slack" (`src/SlackAttachment.php:254`). Yet it merges the field list into the document directly (`src/SlackAttachment.php:277`). The fields therefore appear as entries keyed `0, 1, …` after `mrkdwn_in`, with no key of their own. `FieldsComeLast` and `AttachmentKeys` state this.
- **Requests with no type.** The type is documented as either "webhook" or "command" (`src/SlackRequest.php:26`, `:209`). A request can pass validation and still get neither.
  - A command counts only when it is not `null` and not `""` after one leading slash is removed (`src/SlackRequest.php:290`).
  - So a request whose only qualifying field is an empty `text` has no type. `EmptyTextHasNoType` states this.
- **Missing text.** With a command but no `text` field, the arguments are `[""]`, which is `explode` of the empty string (`src/SlackRequest.php:342`).

## Model

| member | source | states |
|---|---|---|
| Requests.NewRequest | src/SlackRequest.php:163-183 | `InvalidArgument` exactly when the allow-list is not an array; `InvalidRequest` exactly when recognition fails; `InvalidToken` exactly when a non-empty allow-list lacks the token, carrying that token; otherwise the stored data, its type and the allow-list |
| Requests.IsSlackRequest | src/SlackRequest.php:267-281 | the presence test: token and team_id are set, and so is one of command, trigger_word or text, an empty value included |
| Requests.StoredFrom | src/SlackRequest.php:306-354 | the fields stored once a set of form keys has been visited: each recognised key's own fields, null for the rest |
| Requests.Stored | src/SlackRequest.php:305-355 | the fields stored once every form key has been visited |
| Requests.Request.IsCommand | src/SlackRequest.php:191-193 | the stored type is command |
| Requests.Request.IsWebhook | src/SlackRequest.php:201-203 | the stored type is webhook |
| Requests.StoreRequestData | src/SlackRequest.php:305-355 | visiting the form keys in any order yields `Stored(post)`: each recognised key sets only its own fields |
| Requests.StoreField | src/SlackRequest.php:307-353 | one switch step adds exactly that key's contribution (timestamp as the `(int)` cast, privateChannel from channel_name, command stripped plus arguments from text) |
| Requests.DetectRequestType | src/SlackRequest.php:289-297 | command iff the command is non-empty; webhook iff not a command and the trigger word or the text is non-empty; so never both |
| Requests.ClassifyStored | src/SlackRequest.php:289-297 | the classification stated on the form fields themselves |
| Requests.EmptyTextHasNoType | src/SlackRequest.php:267-297 | token, team_id and `text=""` pass the presence test yet get no type |
| Requests.Request.Text | src/SlackRequest.php:251-255 | the text is given out only for a webhook, null otherwise |
| Requests.StripSlash | src/SlackRequest.php:341 | a leading slash is removed and nothing else changes; without one the command is unchanged |
| Requests.StripOneSlash | src/SlackRequest.php:341 | exactly one slash is removed: `"/" + c` is stored as `c` |
| Requests.Args | src/SlackRequest.php:342 | at least one argument, and no argument contains a space |
| Requests.ArgsAreWords | src/SlackRequest.php:342 | the arguments are the split text with interior empty pieces dropped, and joining them gives the collapsed text |
| Requests.ArgsExample | src/SlackRequest.php:342 | `"a   b"` gives `["a", "b"]` |
| Requests.ArgsWithoutText | src/SlackRequest.php:340-343 | a command without a text field has the arguments `[""]` |
| Requests.NoCommandNoArgs | src/SlackRequest.php:135 | without a command the arguments stay empty |
| Requests.PrivateChannel | src/SlackRequest.php:326-333 | privateChannel is true iff the channel name is exactly `privategroup` |
| Strings.Split | src/SlackRequest.php:342 | `explode(' ', s)`: at least one piece, none containing a space |
| Strings.JoinSplit | src/SlackRequest.php:342 | joining the pieces with spaces gives back the string |
| Strings.Join | src/SlackRequest.php:342 | implode with a space, the inverse that JoinSplit pairs with explode |
| Strings.Collapse | src/SlackRequest.php:342 | no two adjacent spaces remain, a leading space is kept, and the text does not grow |
| Strings.SplitCollapse | src/SlackRequest.php:342 | splitting the collapsed text drops exactly the interior empty pieces of the plain split |
| Strings.DigitPrefix | src/SlackRequest.php:312 | the longest run of leading digits |
| Strings.IntCast | src/SlackRequest.php:312 | the `(int)` cast: a negative result needs a minus sign after the leading white space |
| Strings.IntCastSkipsBlank | src/SlackRequest.php:312 | leading white space does not change the cast |
| Strings.DecimalString | src/SlackRequest.php:312 | a decimal numeral is a non-empty digit string |
| Strings.DecimalValue | src/SlackRequest.php:312 | a numeral's digits denote its number |
| Strings.DigitPrefixOfDigits | src/SlackRequest.php:312 | a digit string is its own digit prefix |
| Strings.IntCastDecimal | src/SlackRequest.php:312 | `(int)` of a numeral, with or without a minus sign, is that number |
| Strings.IntCastNonNumeric | src/SlackRequest.php:312 | `(int)` of a string starting with no blank, sign or digit is 0 |
| Attachments.SlackAttachment.SetColor | src/SlackAttachment.php:139-147 | an accepted colour is stored, null clears the colour, any other string leaves it unchanged; no other field changes |
| Attachments.HasHexColor | src/SlackAttachment.php:142 | the unanchored search for `#` and three or six hex digits ending at a word boundary |
| Attachments.AcceptedColor | src/SlackAttachment.php:140-143 | the colours setColor stores: good, warning, danger, or a string with a hex colour in it |
| Attachments.NoHashNoHexColor | src/SlackAttachment.php:142 | a string without `#` never matches the hex pattern |
| Attachments.ColorExamples | src/SlackAttachment.php:140-143 | `good`, `warning`, `danger`, `#fff`, `#1a2b3c` and `#439FE0` are accepted; `purple` is not |
| Attachments.ColorUnanchored | src/SlackAttachment.php:142 | a hex colour anywhere in the string is accepted |
| Attachments.ColorNeedsBoundary | src/SlackAttachment.php:142 | `#abcd` (four hex digits), `#abcdef0` (seven) and `#abcdefg` (six, then a letter) are rejected, because no word boundary follows three or six of them |
| Attachments.NotAcceptedPastHash | src/SlackAttachment.php:140-142 | a string that is not a named colour, does not match at its start and has no later `#` is rejected |
| Attachments.MrkdwnIn | src/SlackAttachment.php:272-276 | the flagged parts, in the order text, fields, pretext |
| Attachments.MarkdownSelect | src/SlackAttachment.php:272-276 | the three conditional pieces equal the ordered selection of the flagged parts |
| Attachments.FieldEntries | src/SlackAttachment.php:277 | the fields are keyed 0, 1, … in order |
| Attachments.PieceKeys | src/SlackAttachment.php:261-276 | each merged array holds its key exactly when that key is emitted |
| Attachments.NamedEntriesKeys | src/SlackAttachment.php:260-276 | the named keys are the emitted keys, in the fixed order text, pretext, fallback, color, title, image_url, thumb_url, title_link, author_name, author_link, author_icon, mrkdwn_in |
| Attachments.AttachmentKeys | src/SlackAttachment.php:259-279 | the document's keys are the emitted names in that order, then the field indices |
| Attachments.KeyEmitted | src/SlackAttachment.php:260-276 | a named key is in the document iff it is emitted |
| Attachments.KeyValue | src/SlackAttachment.php:261-271 | an emitted key other than mrkdwn_in carries the value of its own field |
| Attachments.AttachmentDoc | src/SlackAttachment.php:259-279 | toArray on the attachment's state: the named entries, then the fields |
| Attachments.SlackAttachment.ToArray | src/SlackAttachment.php:259-279 | toArray on the current state |
| Attachments.TitleLinkNeedsTitle | src/SlackAttachment.php:268 | title_link appears iff both title and link are set |
| Attachments.AuthorPartsNeedName | src/SlackAttachment.php:270-271 | author_link and author_icon appear only together with an author name |
| Attachments.TitleLinkAloneIgnored | src/SlackAttachment.php:268 | without a title, the title link does not change the document |
| Attachments.MrkdwnAlwaysPresent | src/SlackAttachment.php:272-276 | mrkdwn_in is always in the document, listing the flagged parts in order |
| Attachments.FieldsComeLast | src/SlackAttachment.php:277 | the last entries are the fields, keyed by position, in insertion order |
| Attachments.FreshAttachmentDoc | src/SlackAttachment.php:115-119 | a new attachment serialises to `mrkdwn_in: ["text"]` and nothing else |
| Attachments.AddFieldKeepsEarlier | src/SlackAttachment.php:223-229 | adding a field appends one entry and keeps the earlier ones |
| Attachments.AttachmentDocsIndex | src/SlackMessage.php:174-177 | one document per attachment, the i-th being the i-th attachment's toArray |
| Attachments.SlackAttachment.constructor | src/SlackAttachment.php:115-119 | a new attachment has nothing set and only the text flagged for markup |
| Attachments.SlackAttachment.SetFallback | src/SlackAttachment.php:128-130 | sets the fallback and nothing else |
| Attachments.SlackAttachment.SetText | src/SlackAttachment.php:156-158 | sets the text and nothing else |
| Attachments.SlackAttachment.Markdown | src/SlackAttachment.php:169-173 | replaces all three markup flags, with text defaulting to true and the others to false |
| Attachments.SlackAttachment.SetPretext | src/SlackAttachment.php:182-184 | sets the pretext and nothing else |
| Attachments.SlackAttachment.SetAuthor | src/SlackAttachment.php:195-199 | sets the author's name, link and icon, each defaulting to null |
| Attachments.SlackAttachment.SetTitle | src/SlackAttachment.php:209-212 | sets the title and its link, the link defaulting to null |
| Attachments.SlackAttachment.AddField | src/SlackAttachment.php:223-229 | appends one field after the earlier ones |
| Attachments.SlackAttachment.SetImage | src/SlackAttachment.php:238-240 | sets the image URL and nothing else |
| Attachments.SlackAttachment.SetThumb | src/SlackAttachment.php:249-251 | sets the thumbnail URL and nothing else |
| Messages.PieceKeys | src/SlackMessage.php:180-185 | each merged array holds its key exactly when that key is emitted |
| Messages.MessageKeys | src/SlackMessage.php:179-186 | the keys are the emitted ones, in the order text, icon_url, icon_emoji, username, channel, attachments |
| Messages.KeyPresent | src/SlackMessage.php:180-185 | a setting's key is present iff the setting is not null; attachments iff there is at least one |
| Messages.KeyValue | src/SlackMessage.php:180-184 | a setting that is not null appears under its key with its own value |
| Messages.MessageDoc | src/SlackMessage.php:179-186 | the merge in buildArray: the settings that are not null, then the attachments if there are any |
| Messages.AttachmentsLast | src/SlackMessage.php:185 | with attachments, the last entry is the list of their documents in order |
| Messages.EmptyMessageDoc | src/SlackMessage.php:179-186 | a message with nothing set builds an empty document |
| Messages.OnlyAttachmentsDoc | src/SlackMessage.php:179-186 | with only attachments, the document is just the attachments list |
| Messages.SlackMessage.constructor | src/SlackMessage.php:76-78 | stores the webhook URL; nothing else is set |
| Messages.SlackMessage.SetText | src/SlackMessage.php:87-89 | sets the text and nothing else |
| Messages.SlackMessage.AddAttachment | src/SlackMessage.php:98-100 | appends the attachment and keeps the earlier ones in order |
| Messages.SlackMessage.SetIconUrl | src/SlackMessage.php:109-111 | sets the icon URL and nothing else |
| Messages.SlackMessage.SetIconEmoji | src/SlackMessage.php:120-122 | sets the icon emoji and nothing else |
| Messages.SlackMessage.SetUsername | src/SlackMessage.php:131-133 | sets the username and nothing else |
| Messages.SlackMessage.SetChannel | src/SlackMessage.php:142-144 | sets the channel and nothing else |
| Messages.SlackMessage.BuildArray | src/SlackMessage.php:173-187 | the loop collects each attachment's document in order, and the result is the message document of the current settings |
| Messages.SlackMessage.Send | src/SlackMessage.php:195-198 | posts the built document to the stored webhook URL |
| Messages.TitleLinkWithoutTitleScenario | src/SlackAttachment.php:209-212 | an attachment given only a title link serialises to mrkdwn_in alone, inside a message holding only that attachment |
| Responses.ResponseDoc | src/SlackResponse.php:114-124 | always exactly the keys text, response_type and attachments, in that order |
| Responses.DefaultResponseType | src/SlackResponse.php:56-61 | ephemeral exactly for a command request |
| Responses.DefaultDelayed | src/SlackResponse.php:56-61 | null for a command request, false otherwise; never true |
| Responses.SlackResponse.constructor | src/SlackResponse.php:52-63 | empty text, no attachments, and the type and delay defaults of the request |
| Responses.SlackResponse.IsDelayed | src/SlackResponse.php:65-67 | sets the delay flag and nothing else |
| Responses.SlackResponse.SetEphemeral | src/SlackResponse.php:69-71 | the response type becomes ephemeral; nothing else changes |
| Responses.SlackResponse.SetInChannel | src/SlackResponse.php:73-75 | the response type becomes in_channel; nothing else changes |
| Responses.SlackResponse.SetText | src/SlackResponse.php:77-79 | stores the text, with null becoming `""` |
| Responses.SlackResponse.AddAttachment | src/SlackResponse.php:110-112 | appends the attachment and keeps the earlier ones in order |
| Responses.SlackResponse.BuildResponseArray | src/SlackResponse.php:114-124 | the loop collects each attachment's document in order into the three-key document |
| Responses.SlackResponse.Respond | src/SlackResponse.php:99-108 | posted to the request's response URL exactly when the delay flag is true, replied at once otherwise (a null flag included), always with the built document |
| Responses.PongScenario | src/SlackResponse.php:52-124 | a command answered with "pong" is replied at once as `{text: "pong", response_type: "ephemeral", attachments: []}` |
| Responses.DelayedWebhookScenario | src/SlackResponse.php:52-108 | a webhook response marked delayed is posted to the response URL as an in-channel reply |

## Left out

- The curl transport is not modelled. This covers `performWebhook` (`src/SlackMessage.php:153-165`) and `sendDelayedResponse` (`src/SlackResponse.php:81-97`). `Send` and `Respond` return the target and the document instead.
- The `header()` and `echo` output in `respond` is I/O. `ReplyNow` stands for it.
- `json_encode` with pretty printing is not modelled; the model stops at the document value. In particular, an empty PHP array is rendered as `[]` whether it stands for an object or a list.
- `$_POST` is not read. The request's form fields are an input `map<string, string>`. Because the model uses a map, it cannot hold the same key twice.
- The `DateTime` built from the timestamp is not modelled; the timestamp is the integer from the `(int)` cast. The time zone argument has no effect on `@` timestamps.
- Strings.IntCast: reads only the sign and the leading digits, because the timestamps the platform sends are plain decimal numbers, which cast the same either way. Since PHP 7.1, a numeral with a fraction or an exponent is read through a double, and three things follow:
  - `(int)"1e3"` is 1000;
  - a long fraction can round up, so `(int)"0.99999999999999999"` is 1 and `(int)"9007199254740993.5"` is 9007199254740994, while the model stops at the decimal point and gives 0 and 9007199254740993;
  - results saturate at the 64-bit limits.
- The PCRE engine is not used. The colour pattern and the space-run replacement are hand-written predicates and functions with the same meaning.
- PHP's loose comparisons are reduced to exact string equality. For string input this matters in two places. The token's `in_array` (`src/SlackRequest.php:178`) treats equal numeric strings as equal. On PHP 7, `switch ($key)` (`src/SlackRequest.php:307`) compares a numeric form key, which PHP turns into an integer, with the case names.
- Arguments that are not strings are not modelled, so the `(string)` and `boolval` casts in the setters have nothing to do. The setters take `Option<string>`, `string` or `bool`. This covers `addField`'s `(string)` titles and `boolval(short)`, `markdown`'s `boolval` flags, `setText`'s `(string)` and `isDelayed`'s `boolval`.
- `InvalidTokenException` is folded into the `InvalidToken(token)` error, whose token is the one the exception stores and returns.
- The request accessors are field reads of the `Request` value: `requestType`, `triggerWord`, `command`, `arguments` and `responseUrl` (`src/SlackRequest.php:211-259`). `isCommand` and `isWebhook` are predicates on the stored type. Only `text()` has logic, and it is `Request.Text`.
- The rendering notes in the doc comments describe the chat platform, not this code. Examples are image sizes and text collapsing.
- A command without a `text` field makes PHP raise a diagnostic (`src/SlackRequest.php:342`): the notice "Undefined index: text" on PHP 7, the warning `Undefined array key "text"` on PHP 8. The model keeps only the value PHP goes on with, the arguments `[""]`.
- With no attachment added, `buildResponseArray` loops over `null` (`src/SlackResponse.php:116`), so PHP raises a warning. When errors are displayed, the warning is printed before the `header()` call in `respond` (`src/SlackResponse.php:102`). The model keeps only the empty attachments list the loop yields.
