# MessageForwarder, modelled in Dafny

MessageForwarder is a chat-bot plugin. It forwards the messages the bot receives to one configured
target, which is either a user or a group wxid. Forwarding covers text, images, videos and contact
cards. An allow-list filter decides which sources are forwarded: everything, listed users, or listed
groups.

This project models the plugin object and proves properties of it:

- its configuration fields and how `config.toml` sets them;
- the filter;
- the forward gate: filter, then target, then one send whose exception is absorbed;
- the handler for each message kind, including the CDN and Base64 video paths and the `"None"`
  thumbnail fallback;
- the in-place normalisation of contact-card messages;
- the two-pass contact-card parser.

Modules:

- `Values`: the loosely typed values of a message record, and the Python operations the plugin
  applies to them. These are truthiness, `a or b`, `dict.get` and `str()`.
- `Strings`: the `str` methods used: `in`, `split(sep, 1)`, `strip()`, `startswith`, `endswith` and
  `lower()`.
- `Filter`: `_is_message_allowed`.
- `CardXml`: `_parse_card_xml`. The XML library call is a parameter that maps text to the root
  element's attributes, or to `None` on a parse error.
- `CardPreprocess`: `_preprocess_card_message` as a function of the record.
- `Plugin`: contains the pieces below.
  - The `MessageForwarder` class holds the configuration fields and the handlers as methods. Each
    method is proved against a function of its inputs.
  - The `Bot` class stands for the host API client. It keeps a log of every send operation invoked
    on it.
  - The `MessageRecord` class is the message dictionary, which preprocessing changes in place.
  - End-to-end lemmas cover the plugin as a whole.

Three things come in as parameters:

- Whether a host send raises: `hostRaises`. No handler's contract depends on it, which is what
  "the exception is absorbed" means.
- The configuration file's parsed contents.
- The outcome of the temporary-file and thumbnail steps: `saved` and `thumb`.

Two exceptions in card handling reach the host:

- `_preprocess_card_message` raises for a group card whose `Content` is a dictionary and whose
  `"string"` entry is neither a string nor a dictionary, or is a dictionary with the key `":\n"`
  (`GroupSender`, `Preprocess` and `Outcome.raised`).
- `handle_card_message` raises when its card text is truthy but not a string. It slices that text
  for a debug line outside its `try` (`CardTextRaises`).

The second prefix pass of `_parse_card_xml` has the guard `s.startswith(s.split(":", 1)[0] + ":")
  and ":" in s`. That guard is the same as "`s` contains a colon" (`SecondPassGuardIsColonTest`).
Its inner `and`/`or` is kept with Python's precedence.

## Model

| member | source | states |
|---|---|---|
| Values.OrElse | main.py:207 | `a or b` is truthy iff either operand is, and is the first operand exactly when that one is truthy |
| Values.Lookup | main.py:327 | `d.get(k, default)` on a nested dictionary: the default when `k` is absent, else the value of the first entry with key `k` |
| Values.Str | main.py:413-417 | `str(v)` is `v` for a string and `"None"` for `None`, and never empty for a non-string |
| Values.NatToDecimal | main.py:417 | `str()` of a non-negative integer is a non-empty string of decimal digits, with no leading zero, whose decimal value is that integer |
| Strings.FindFirst | main.py:444 | the index found is an occurrence of the pattern and no earlier index is; `None` only when there is no occurrence at all |
| Strings.Split1 | main.py:445 | `split(sep, 1)` with a non-empty separator gives `[s]` without a separator, else two parts that rebuild `s` around the first separator |
| Strings.SplitAtSenderSeparator | main.py:445-447 | on `"<a>:\n<b>"` where `a` holds no `":\n"`, `split(":\n", 1)` gives back exactly `a` and `b` |
| Strings.SplitAtFirstSeparator | main.py:467 | where `a` plus all but the last separator character holds no separator, `split(sep, 1)` on `a + sep + b` gives `[a, b]` |
| Strings.NoOccurrenceInsideFirstPart | main.py:467 | no separator in `a + sep + b` starts inside `a` when `a` plus all but the last separator character holds none |
| Strings.LeadingSpace | main.py:447 | counts exactly the whitespace prefix: all counted characters are spaces and the next one is not |
| Strings.TrailingSpace | main.py:447 | counts exactly the whitespace suffix |
| Strings.Strip | main.py:447 | `strip()` is the slice of `s` left after removing whitespace runs at both ends: it has no whitespace at either end, is the identity on text without any, is non-empty when `s` has a non-space character, and adds no character |
| Strings.StripWindow | main.py:447 | a slice of `s` between two whitespace runs that neither starts nor ends with whitespace has all the properties of the stripped text |
| Strings.Lower | main.py:235 | `lower()` keeps the length, leaves no ASCII capital, keeps every other character, and maps each capital to its small letter |
| Filter.RoomWxid | main.py:89 | the room wxid is `FromWxid` for a message whose `IsGroup` is truthy, and otherwise `None`, which no list of wxids contains |
| Filter.IsMessageAllowed | main.py:85-110 | only the listen types "all", "user" and "group" can allow a message |
| Filter.AllModeAllowsEverything | main.py:95-97 | listen type "all" allows every message |
| Filter.UserModeAllowsListedUsers | main.py:98-103 | listen type "user" allows a message iff its `FromWxid` or its `SenderWxid` is a listed user |
| Filter.GroupModeAllowsListedGroups | main.py:89-108 | listen type "group" allows a message iff it is marked as a group message and its `FromWxid` is a listed group |
| Filter.GroupModeRejectsNonGroup | main.py:89-108 | in "group" mode a message not marked as a group message is rejected |
| Filter.UnknownModeRejectsEverything | main.py:109-110 | any other listen type rejects every message |
| Filter.DecisionReadsOnlySourceFields | main.py:85-110 | the decision depends only on `FromWxid`, `SenderWxid` and the truthiness of `IsGroup` |
| CardXml.ParseCardXml | main.py:460-502 | a card needs non-empty `username` and `nickname` attributes and copies them, `alias` defaults to `""`, and a parse error gives no card |
| CardXml.StripSenderPrefix | main.py:466-467 | text without `":\n"` is kept; otherwise the result is the stripped text after the first `":\n"` |
| CardXml.SecondPass | main.py:470-474 | the second pass either keeps the text or, when it has a colon, replaces it by text that starts with `<?xml` or `<msg` |
| CardXml.CleanCardXml | main.py:465-474 | the parser receives text without `":\n"` or `":"` unchanged; otherwise it receives the first pass's result, or text that starts with `<?xml` or `<msg` when that result has a colon |
| CardXml.SecondPassGuardIsColonTest | main.py:471 | the guard of the second prefix pass holds iff the text contains a colon |
| CardXml.SecondPassOnlyKeepsXmlAfterColon | main.py:470-474 | the second pass changes only text with a colon, and then to the stripped text after it, which starts with `<?xml` or `<msg` |
| CardXml.AbsentCharNotContained | main.py:471 | a character that does not occur in the text is not found by `in` |
| CardXml.SenderPrefixRemoved | main.py:466-467 | the first pass turns `"<sender>:\n<body>"` into the stripped body |
| CardXml.ColonFreeCardReachesParser | main.py:464-477 | with a sender prefix and a colon-free body, the XML parser receives exactly the stripped body (a special case of `PrefixedCardReachesParser`) |
| CardXml.PrefixedCardReachesParser | main.py:464-478 | with a sender prefix and a body whose text after its first colon, stripped, starts neither with `<?xml` nor with `<msg` (colons in `http://` attribute values included), the XML parser receives exactly the stripped body |
| CardXml.ParsePrefixedCard | main.py:460-493 | `"<sender>:\n<doc>"`, where the stripped document (surrounding whitespace such as a trailing newline allowed) is left alone by the second pass and has a root with non-empty `username` and `nickname`, whatever its other attributes, parses to the card of those attributes with `alias` defaulting to `""` |
| CardXml.MissingUsernameGivesNoCard | main.py:489-491 | an empty or missing `username` gives no card |
| CardXml.MissingAliasDefaultsToEmpty | main.py:484 | a missing `alias` reads as `""` |
| CardPreprocess.ContentXml | main.py:436-441 | the card text is `""` without `Content`, is `Content` itself when that is a string, and can be a non-string only when `Content` is a dictionary |
| CardPreprocess.GroupSender | main.py:443-453 | fails (Python raises) exactly when the card text is neither a string nor a dictionary without the key `":\n"`; a string with `":\n"` gives the stripped text before the first one; any other success gives the group's wxid |
| CardPreprocess.WxidFromUserName | main.py:407-413 | a wxid made from a user-name value is a string unless it comes from a dictionary's `"string"` entry; a string is kept, and `None` or a dictionary without `"string"` gives `""` |
| CardPreprocess.NormaliseWxid | main.py:405-430 | the wxid field is added when absent and always ends up a string: an existing string is kept, another value becomes its `str()`, and an absent one comes from the user-name field; every other field is unchanged |
| CardPreprocess.ClassifySender | main.py:432-456 | marks the record as a group message exactly when `FromWxid` ends in `@chatroom`; outside a group the sender is the origin and nothing raises; in a group the sender is the one found in the card text, and it raises exactly when none can be found, keeping any `SenderWxid` the record had; it adds `IsGroup` and `SenderWxid` and changes nothing else |
| CardPreprocess.NormaliseWxids | main.py:404-430 | both wxid fields exist afterwards and are strings |
| CardPreprocess.Preprocess | main.py:402-458 | adds `FromWxid`, `ToWxid` and `IsGroup`, and adds `SenderWxid` unless it raises; both wxids are strings |
| CardPreprocess.PreprocessKeepsOtherFields | main.py:402-458 | every field other than the four it writes keeps its value |
| CardPreprocess.PreprocessClassifies | main.py:432-456 | `IsGroup` tells whether the origin ends in `@chatroom`; outside a group the sender is the origin; in a group it is the sender found in the card text; it raises only when the card text is not a string |
| CardPreprocess.PreprocessKeepsCardText | main.py:436-441 | preprocessing never changes the card text |
| CardPreprocess.FromWxidKeptWhenPresent | main.py:405-417 | a string `FromWxid` is kept as it is |
| CardPreprocess.FromWxidFromUserNameDict | main.py:407-411 | an absent `FromWxid` is taken from the `"string"` entry of `FromUserName` |
| CardPreprocess.FromWxidEmptyWithoutUserName | main.py:407-413 | with neither `FromWxid` nor `FromUserName` the origin is `""` |
| CardPreprocess.GroupCardSender | main.py:434-448 | a group card `"<sender>:\n<doc>"` is marked as a group message and its sender is the stripped sender id |
| CardPreprocess.GroupCardWithoutPrefix | main.py:444-453 | a group card without `":\n"` has the group itself as its sender |
| CardPreprocess.NormaliseKeepsStringWxid | main.py:416-417 | normalising a wxid that is already a string changes nothing |
| CardPreprocess.PreprocessNormalises | main.py:402-458 | a record that did not raise comes out with string wxids and an `IsGroup` and `SenderWxid` consistent with them |
| CardPreprocess.PreprocessKeepsNormalised | main.py:402-458 | preprocessing a record in that form returns it unchanged |
| CardPreprocess.PreprocessIdempotent | main.py:402-458 | preprocessing twice is the same as preprocessing once |
| Plugin.ApplyConfig | main.py:45-66 | with a file, `target_type` becomes the file's value or "user", and the target is the previous one or one of the file's two target keys |
| Plugin.ApplyConfigIdempotent | main.py:45-66 | loading the same configuration twice equals loading it once |
| Plugin.ApplyConfigListenSettings | main.py:47-66 | a missing file changes nothing; a present one sets the listen type (default "all") and both lists (default empty) |
| Plugin.ApplyConfigTarget | main.py:52-57 | the target follows `target_type` (default "user"), and an unknown type keeps the previous target |
| Plugin.ForwardCalls | main.py:112-129 | the gate makes at most one send, makes one iff the message is allowed and the target is non-empty, and that send goes to the target with the handler's payload |
| Plugin.CdnVideoXml | main.py:230-248 | a CDN video is found exactly when `Xml or Content` is a string containing `<msg>` and, ignoring case, `cdnvideourl`, and the XML found is that string |
| Plugin.ThumbnailArg | main.py:276-294 | the thumbnail argument is the extracted frame, or the string `"None"` without one or with an empty one; it is `"None"` exactly in those cases or when the frame text is itself `"None"` |
| Plugin.TextPayload | main.py:198-200 | a text message has a payload exactly when its `Content` is truthy, and that payload is the content |
| Plugin.ImagePayload | main.py:207-209 | an image message has a payload exactly when `Image` or `Content` is truthy, and it carries `Image` when that is truthy, else `Content` |
| Plugin.Base64VideoPayload | main.py:250-295 | a Base64 video is sent only when it was saved, and then as the non-empty string `Video or Content` with the thumbnail argument; a saved non-empty string is always sent |
| Plugin.VideoPayload | main.py:220-228 | a CDN video is forwarded as its XML; any other video takes the Base64 path, whose payload is only ever a saved video |
| Plugin.CardPayload | main.py:322-348 | a card is sent only when the card text is a non-empty string, as a ShareCard with non-empty wxid and nickname; for such text the payload is exactly the parsed card, and nothing when it does not parse |
| Plugin.CardTextRaises | main.py:325-335 | the card handler can raise only for a `Content` dictionary whose `"string"` entry is present (and truthy but not a string) |
| Plugin.HandleOther | main.py:309-355 | at most one send, none when something raised; a send is a ShareCard to the target for an allowed message; for a card message the record is the preprocessed one |
| Plugin.FilteredMessageSendsNothing | main.py:114-116 | a message the filter rejects causes no send |
| Plugin.TextForwardedOnce | main.py:196-200 | an allowed text message with non-empty content reaches the target once, unchanged |
| Plugin.ImageFallsBackToContent | main.py:207-219 | an image message forwards `Image`, else `Content`, and nothing when both are empty |
| Plugin.CdnVideoPreemptsBase64 | main.py:221-228 | a CDN video is forwarded as such and never takes the Base64 path, even when it is filtered out |
| Plugin.VideoWithoutThumbnail | main.py:286-294 | a saved Base64 video with no thumbnail is sent with the image argument `"None"` |
| Plugin.UnsavedVideoNotSent | main.py:265-268 | a video that could not be saved to a file is not sent |
| Plugin.OtherNonCardIgnored | main.py:309-320 | a message that is not a card (`MsgType` other than 42) is left unchanged and nothing is sent |
| Plugin.RaisingPreprocessSendsNothing | main.py:314-318 | when preprocessing raises, the card is not forwarded |
| Plugin.GroupCardForwarded | main.py:309-371 | a card message whose preprocessed `FromWxid` is a listened `@chatroom` wxid (given directly or built from `FromUserName`) and whose card text (plain `Content` or its `"string"` entry) is `"<sender>:\n<doc>"`, with a stripped document the second pass leaves alone and a root with non-empty `username` and `nickname` (other attributes allowed), is marked as a group message from the stripped sender and reaches the target as exactly one ShareCard call with the root's `username`, `nickname` and `alias` (default `""`) |
| Plugin.PrefixedCardPayload | main.py:322-348 | a record whose card text is `"<sender>:\n<doc>"`, with a stripped document the second pass leaves alone and a root with non-empty `username` and `nickname` (other attributes allowed), yields the ShareCard payload of the root's attributes and does not raise |
| Plugin.CardMessageForwarded | main.py:309-371 | a card message that preprocesses cleanly, parses and comes from an allowed source is sent to the target exactly once |
| Plugin.Bot.Send | main.py:123 | a send operation is recorded with the target first |
| Plugin.MessageForwarder.constructor | main.py:33-43 | the fields start at their defaults and are then loaded from the configuration |
| Plugin.MessageForwarder.LoadConfig | main.py:45-66 | the new fields are the configuration applied to the old ones |
| Plugin.MessageForwarder.OnEnable | main.py:80-83 | enabling reloads the configuration |
| Plugin.MessageForwarder.ForwardMessage | main.py:112-129 | appends exactly the gate's calls to the log, whether or not the send raises |
| Plugin.MessageForwarder.ForwardCardMessageDirect | main.py:357-371 | appends exactly the gate's calls for the ShareCard payload |
| Plugin.MessageForwarder.NormaliseWxidField | main.py:404-417 | changes one wxid field of the record in place to exactly what `NormaliseWxid` gives |
| Plugin.MessageForwarder.PreprocessCardMessage | main.py:402-458 | changes the record in place to exactly what `Preprocess` gives, and reports whether it raised |
| Plugin.MessageForwarder.HandleTextMessage | main.py:195-200 | forwards truthy content through the gate |
| Plugin.MessageForwarder.HandleImageMessage | main.py:202-219 | forwards `Image or Content` through the gate when it is truthy |
| Plugin.MessageForwarder.TryCdnVideoForward | main.py:230-248 | reports a CDN video exactly when `Xml or Content` is a string holding `<msg>` and `cdnvideourl` (`CdnVideoXml`), and then forwards that string through the gate |
| Plugin.MessageForwarder.HandleVideoWithBase64 | main.py:250-307 | forwards a saved non-empty Base64 video with its thumbnail argument through the gate |
| Plugin.MessageForwarder.HandleVideoMessage | main.py:220-228 | tries the CDN path, else the Base64 path |
| Plugin.MessageForwarder.HandleCardMessage | main.py:322-355 | forwards the parsed card through the card gate, and raises exactly when the card text is truthy but not a string |
| Plugin.MessageForwarder.HandleOtherMessage | main.py:308-320 | a card message is preprocessed in place and then handled; the record, the raise and the sends are those of `HandleOther` |

## Left out

- File and process I/O is not modelled:
  - reading `config.toml` (its parsed contents are a parameter);
  - creating the temporary directory (`_ensure_temp_dir`);
  - writing the temporary video (`_save_base64_to_file`, whose outcome is the `saved` flag);
  - running ffmpeg and reading the frame (`_extract_first_frame_from_video`, whose outcome is `thumb`);
  - deleting temporary files.
- Network and host calls are not modelled beyond the fact that they are invoked:
  - the ShareCard HTTP request of `_send_share_card_direct`, including its `bot.wxid` check;
  - the host's send operations, which are entries in the `Bot` log;
  - whether they raise, which is the `hostRaises` parameter.
- Logging, `async`/`await` and the host's event decorators and priorities are not modelled.
- The XML parser (`ET.fromstring`) is a parameter. The model covers what the plugin does with its
  result, not XML syntax.
- `CardXml.ParseCardXml`: does not model the ordering of the card's dictionary. Only its three
  entries are kept, as a record.
- `Values.Str`: `repr` of a nested string does not escape quotes, backslashes or control characters
  such as newlines. That text can become a `FromWxid` (the `str()` of a nested dictionary), but no
  configuration of real wxids, which hold no quotes, backslashes or control characters, can
  observe the difference.
- Value kinds are limited. Message values and nested dictionary values are `None`, booleans,
  integers, strings and dictionaries. Floats and lists are not modelled. Configuration values are
  strings and lists of strings, and other TOML types are not modelled.
- `Strings.Lower`: folds only ASCII letters. This is exact for the one test the plugin makes with it,
  as its doc comment explains.
- `Plugin.Base64VideoPayload`: a video value that is not a string is never sent, and the model does
  not say where it fails. In the source an integer or boolean fails at `len(...)` (main.py:262),
  which the handler catches (main.py:297). Only a dictionary reaches `_save_base64_to_file`, whose
  `b64decode` rejects it, so the file is not saved.
- A malformed `config.toml` raises from `tomli.load` in the constructor. That is not modelled.
- The Java sources under `src/` are empty scaffolding and are not part of this model.
