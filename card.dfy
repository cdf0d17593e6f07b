/**
 * The contact-card parser of the plugin (`_parse_card_xml`): two passes that
 * remove a sender prefix, then the root attributes of the XML document,
 * validated into a card record. The XML parser itself (`ET.fromstring`) is a
 * library call and is taken as a parameter: it maps the cleaned text to the
 * attributes of the root element, or to `None` when parsing fails.
 */
module CardXml {
  import opened Values
  import opened Strings

  /** The card forwarded to the target: `{wxid, nickname, alias}`. */
  datatype Card = Card(wxid: string, nickname: string, alias: string)

  /** The attributes of the XML root element. */
  type Attributes = map<string, string>

  /** `ET.fromstring(text)` followed by reading the root's attributes; `None` for any parse error. */
  type XmlRootParser = string -> Option<Attributes>

  /** `root.get(name, "")`. */
  function Attr(attrs: Attributes, name: string): string {
    if name in attrs then attrs[name] else ""
  }

  /** The first pass: keep the stripped text after the first `":\n"`, when there is one. */
  function StripSenderPrefix(s: string): (r: string)
    ensures !Contains(s, ":\n") ==> r == s
    ensures Contains(s, ":\n") ==> r == Strip(s[FindFirst(s, ":\n").value + 2..])
  {
    if Contains(s, ":\n") then Strip(Split1(s, ":\n")[1]) else s
  }

  /**
   * The guard of the second pass exactly as written: `s` starts with its own
   * text up to the first colon followed by a colon, and contains a colon.
   */
  predicate SecondPassGuard(s: string) {
    StartsWith(s, Split1(s, ":")[0] + ":") && Contains(s, ":")
  }

  /**
   * The second pass as written: when the stripped text after the first colon
   * starts like an XML document, keep that text. The `and`/`or` of its inner
   * test are kept with Python's precedence.
   */
  function SecondPass(s: string): (r: string)
    ensures r == s || (Contains(s, ":") && (StartsWith(r, "<?xml") || StartsWith(r, "<msg")))
  {
    if SecondPassGuard(s) then
      var parts := Split1(s, ":");
      if (|parts| > 1 && StartsWith(Strip(parts[1]), "<?xml")) || StartsWith(Strip(parts[1]), "<msg")
      then Strip(parts[1])
      else s
    else s
  }

  /** The text handed to the XML parser. */
  function CleanCardXml(s: string): (r: string)
    ensures !Contains(s, ":\n") && !Contains(s, ":") ==> r == s
    ensures r == StripSenderPrefix(s) ||
            (Contains(StripSenderPrefix(s), ":") && (StartsWith(r, "<?xml") || StartsWith(r, "<msg")))
  {
    SecondPass(StripSenderPrefix(s))
  }

  /** `_parse_card_xml`: the card, or `None` when parsing fails or a required attribute is empty. */
  function ParseCardXml(s: string, xmlRoot: XmlRootParser): (r: Option<Card>)
    ensures r.Some? ==> r.value.wxid != "" && r.value.nickname != ""
    ensures xmlRoot(CleanCardXml(s)).None? ==> r.None?
    ensures xmlRoot(CleanCardXml(s)).Some? ==>
              var attrs := xmlRoot(CleanCardXml(s)).value;
              && (r.Some? <==> "username" in attrs && attrs["username"] != "" &&
                               "nickname" in attrs && attrs["nickname"] != "")
              && (r.Some? ==> r.value.wxid == attrs["username"] &&
                              r.value.nickname == attrs["nickname"] &&
                              r.value.alias == (if "alias" in attrs then attrs["alias"] else ""))
  {
    match xmlRoot(CleanCardXml(s))
    case None => None
    case Some(attrs) =>
      var card := Card(Attr(attrs, "username"), Attr(attrs, "nickname"), Attr(attrs, "alias"));
      if card.wxid == "" || card.nickname == "" then None else Some(card)
  }

  /** The guard of the second pass is just "the text contains a colon". */
  lemma SecondPassGuardIsColonTest(s: string)
    ensures SecondPassGuard(s) <==> Contains(s, ":")
  {
    if Contains(s, ":") {
      var parts := Split1(s, ":");
      assert s == (parts[0] + ":") + parts[1];
      assert s[..|parts[0] + ":"|] == parts[0] + ":";
    }
  }

  /**
   * The second pass changes the text only when it has a colon, and then to the
   * stripped text after the first colon, which starts with `<?xml` or `<msg`.
   */
  lemma SecondPassOnlyKeepsXmlAfterColon(s: string)
    ensures !Contains(s, ":") ==> SecondPass(s) == s
    ensures SecondPass(s) != s ==>
              && Contains(s, ":")
              && SecondPass(s) == Strip(Split1(s, ":")[1])
              && (StartsWith(SecondPass(s), "<?xml") || StartsWith(SecondPass(s), "<msg"))
  {
    SecondPassGuardIsColonTest(s);
  }

  /** A character that does not occur in `s` is not found in it. */
  lemma AbsentCharNotContained(s: string, c: char)
    requires c !in s
    ensures !Contains(s, [c])
  {
    forall j: nat
      ensures !OccursAt(s, [c], j)
    {
      if j + 1 <= |s| {
        assert s[j..j + 1] == [s[j]];
      }
    }
  }

  /** With a sender id before the first `":\n"`, the first pass leaves exactly the stripped body. */
  lemma SenderPrefixRemoved(sender: string, body: string)
    requires !Contains(sender, ":\n")
    ensures StripSenderPrefix(sender + ":\n" + body) == Strip(body)
  {
    SplitAtSenderSeparator(sender, body);
  }

  /**
   * A sender prefix followed by a colon-free document: the parser is handed
   * the stripped document. The special case of `PrefixedCardReachesParser`
   * where the second pass has nothing to look at.
   */
  lemma {:induction false} ColonFreeCardReachesParser(sender: string, body: string)
    requires !Contains(sender, ":\n")
    requires ':' !in body
    ensures CleanCardXml(sender + ":\n" + body) == Strip(body)
  {
    AbsentCharNotContained(Strip(body), ':');
    assert [':'] == ":";
    PrefixedCardReachesParser(sender, body);
  }

  /**
   * The second pass leaves `doc` alone: after its first colon, if any, the
   * stripped rest starts neither like an XML declaration nor like `<msg`.
   * This holds of a card document whose only colons are in attribute values
   * such as `http://` URLs.
   */
  predicate SecondPassKeeps(doc: string) {
    Contains(doc, ":") ==>
      !StartsWith(Strip(Split1(doc, ":")[1]), "<?xml") && !StartsWith(Strip(Split1(doc, ":")[1]), "<msg")
  }

  /**
   * A sender prefix followed by a document the second pass leaves alone: the
   * parser is handed the stripped document.
   */
  lemma {:induction false} PrefixedCardReachesParser(sender: string, body: string)
    requires !Contains(sender, ":\n")
    requires SecondPassKeeps(Strip(body))
    ensures CleanCardXml(sender + ":\n" + body) == Strip(body)
  {
    SenderPrefixRemoved(sender, body);
    SecondPassOnlyKeepsXmlAfterColon(Strip(body));
  }

  /**
   * A card shared in a group, `"<sender>:\n<document>"` (as in
   * `"u1:\n<msg username=\"id1\" nickname=\"Alice\" bigheadimgurl=\"http://h/1\"/>\n"`),
   * whose stripped document has a root with non-empty `username` and
   * `nickname` attributes (and any others), yields the card of those
   * attributes, with `alias` defaulting to `""`.
   */
  lemma {:induction false} ParsePrefixedCard(sender: string, doc: string, xmlRoot: XmlRootParser,
                                             attrs: Attributes)
    requires !Contains(sender, ":\n")
    requires SecondPassKeeps(Strip(doc))
    requires xmlRoot(Strip(doc)) == Some(attrs)
    requires Attr(attrs, "username") != "" && Attr(attrs, "nickname") != ""
    ensures ParseCardXml(sender + ":\n" + doc, xmlRoot) ==
            Some(Card(Attr(attrs, "username"), Attr(attrs, "nickname"), Attr(attrs, "alias")))
  {
    PrefixedCardReachesParser(sender, doc);
    assert CleanCardXml(sender + ":\n" + doc) == Strip(doc);
  }

  /** A document without a `username` (or with an empty one) gives no card. */
  lemma MissingUsernameGivesNoCard(s: string, xmlRoot: XmlRootParser)
    requires xmlRoot(CleanCardXml(s)).Some?
    requires Attr(xmlRoot(CleanCardXml(s)).value, "username") == ""
    ensures ParseCardXml(s, xmlRoot) == None
  {
  }

  /** A missing `alias` attribute reads as the empty string. */
  lemma MissingAliasDefaultsToEmpty(s: string, xmlRoot: XmlRootParser)
    requires ParseCardXml(s, xmlRoot).Some?
    requires "alias" !in xmlRoot(CleanCardXml(s)).value
    ensures ParseCardXml(s, xmlRoot).value.alias == ""
  {
  }
}
