/**
 * The normalisation applied to a contact-card message before it is parsed and
 * forwarded (`_preprocess_card_message`), as a function from the record
 * before to the record after. The in-place version is
 * `Plugin.MessageForwarder.PreprocessCardMessage`, which is proved to follow it.
 */
module CardPreprocess {
  import opened Values
  import opened Strings

  /** The suffix of a group-chat wxid. */
  const ChatroomSuffix := "@chatroom"

  /** The separator between a group card's sender id and its document. */
  const SenderSeparator := ":\n"

  /**
   * The wxid made from a `FromUserName` / `ToUserName` value: the `"string"`
   * entry of a dictionary, else `str(v)` when `v` is truthy, else `""`.
   */
  function WxidFromUserName(v: Value): (r: Value)
    ensures !v.VDict? ==> r.VStr?
    ensures v.VStr? ==> r == v
    ensures v.VNone? ==> r == VStr("")
    ensures v.VDict? && !HasKey(v.entries, "string") ==> r == VStr("")
  {
    match v
    case VDict(es) => Lookup(es, "string", VStr(""))
    case _ => VStr(if Truthy(v) then Str(v) else "")
  }

  /**
   * Synthesise `wxidKey` from `nameKey` when it is absent, then make it a
   * string with `str()`; every other field is left as it was.
   */
  function NormaliseWxid(m: Dict, wxidKey: string, nameKey: string): (r: Dict)
    ensures r.Keys == m.Keys + {wxidKey}
    ensures r[wxidKey].VStr?
    ensures forall k :: k in m && k != wxidKey ==> r[k] == m[k]
    ensures wxidKey in m && m[wxidKey].VStr? ==> r[wxidKey] == m[wxidKey]
    ensures wxidKey in m ==> r[wxidKey] == VStr(Str(m[wxidKey]))
    ensures wxidKey !in m ==> r[wxidKey] == VStr(Str(WxidFromUserName(GetOr(m, nameKey, VDict([])))))
  {
    var withWxid := if wxidKey in m then m else m[wxidKey := WxidFromUserName(GetOr(m, nameKey, VDict([])))];
    if withWxid[wxidKey].VStr? then withWxid else withWxid[wxidKey := VStr(Str(withWxid[wxidKey]))]
  }

  /**
   * The card text of a message, `Content` (default `{}`): the `"string"`
   * entry of a dictionary (possibly not a string), else `str(Content)`.
   */
  function ContentXml(m: Dict): (r: Value)
    ensures "Content" !in m ==> r == VStr("")
    ensures "Content" in m && m["Content"].VStr? ==> r == m["Content"]
    ensures !r.VStr? ==> "Content" in m && m["Content"].VDict?
  {
    match GetOr(m, "Content", VDict([]))
    case VDict(es) => Lookup(es, "string", VStr(""))
    case c => VStr(Str(c))
  }

  /**
   * The sender of a group card: the stripped text before the first `":\n"`,
   * else the group's own wxid. `None` where Python raises: the `in` test on a
   * value that is not a string or dictionary, or `split` on a dictionary that
   * has the key `":\n"`.
   */
  function GroupSender(xml: Value, fromWxid: string): (r: Option<string>)
    ensures r.None? <==> !xml.VStr? && !(xml.VDict? && !HasKey(xml.entries, SenderSeparator))
    ensures xml.VStr? && Contains(xml.s, SenderSeparator) ==>
              r == Some(Strip(xml.s[..FindFirst(xml.s, SenderSeparator).value]))
    ensures r.Some? && !(xml.VStr? && Contains(xml.s, SenderSeparator)) ==> r == Some(fromWxid)
  {
    match xml
    case VStr(s) =>
      if Contains(s, SenderSeparator) then
        var lines := Split1(s, SenderSeparator);
        if |lines| > 1 then Some(Strip(lines[0])) else Some(fromWxid)
      else Some(fromWxid)
    case VDict(es) => if HasKey(es, SenderSeparator) then None else Some(fromWxid)
    case _ => None
  }

  /** The record after preprocessing, and whether preprocessing raised part-way. */
  datatype Outcome = Outcome(fields: Dict, raised: bool)

  /**
   * The last step of `_preprocess_card_message`, on a record whose `FromWxid`
   * is a string: mark it as a group message or not, and set its sender.
   */
  function ClassifySender(m: Dict): (o: Outcome)
    requires "FromWxid" in m && m["FromWxid"].VStr?
    ensures o.fields.Keys == m.Keys + {"IsGroup"} + (if o.raised then {} else {"SenderWxid"})
    ensures forall k :: k in m && k !in {"IsGroup", "SenderWxid"} ==> o.fields[k] == m[k]
    ensures o.raised && "SenderWxid" in m ==> o.fields["SenderWxid"] == m["SenderWxid"]
    ensures o.fields["IsGroup"] == VBool(EndsWith(m["FromWxid"].s, ChatroomSuffix))
    ensures !EndsWith(m["FromWxid"].s, ChatroomSuffix) ==>
              !o.raised && o.fields["SenderWxid"] == m["FromWxid"]
    ensures EndsWith(m["FromWxid"].s, ChatroomSuffix) ==>
              var sender := GroupSender(ContentXml(m), m["FromWxid"].s);
              && (o.raised <==> sender.None?)
              && (!o.raised ==> o.fields["SenderWxid"] == VStr(sender.value))
  {
    var fromWxid := m["FromWxid"].s;
    if EndsWith(fromWxid, ChatroomSuffix) then
      var m1 := m["IsGroup" := VBool(true)];
      assert ContentXml(m1) == ContentXml(m) by {
        assert GetOr(m1, "Content", VDict([])) == GetOr(m, "Content", VDict([]));
      }
      match GroupSender(ContentXml(m1), fromWxid)
      case None => Outcome(m1, true)
      case Some(sender) => Outcome(m1["SenderWxid" := VStr(sender)], false)
    else
      Outcome(m["IsGroup" := VBool(false)]["SenderWxid" := VStr(fromWxid)], false)
  }

  /** Both wxid fields normalised, `FromWxid` first. */
  function NormaliseWxids(m: Dict): (r: Dict)
    ensures r.Keys == m.Keys + {"FromWxid", "ToWxid"}
    ensures r["FromWxid"].VStr? && r["ToWxid"].VStr?
  {
    NormaliseWxid(NormaliseWxid(m, "FromWxid", "FromUserName"), "ToWxid", "ToUserName")
  }

  /** `_preprocess_card_message` as a function of the record. */
  function Preprocess(m: Dict): (o: Outcome)
    ensures o.fields.Keys == m.Keys + {"FromWxid", "ToWxid", "IsGroup"} + (if o.raised then {} else {"SenderWxid"})
    ensures o.fields["FromWxid"].VStr? && o.fields["ToWxid"].VStr?
  {
    ClassifySender(NormaliseWxids(m))
  }

  /** The fields preprocessing does not write keep their values. */
  lemma PreprocessKeepsOtherFields(m: Dict)
    ensures forall k :: k in m && k !in {"FromWxid", "ToWxid", "IsGroup", "SenderWxid"} ==>
              Preprocess(m).fields[k] == m[k]
  {
    var m1 := NormaliseWxid(m, "FromWxid", "FromUserName");
    var m2 := NormaliseWxid(m1, "ToWxid", "ToUserName");
    assert forall k :: k in m && k !in {"FromWxid", "ToWxid"} ==> m2[k] == m[k];
  }

  /**
   * `IsGroup` says whether the origin is a group chat. Outside a group the
   * sender is the origin and nothing raises; in a group the sender is the one
   * `GroupSender` finds in the card text, and preprocessing raises exactly
   * when it finds none, which needs a card text that is not a string.
   */
  lemma PreprocessClassifies(m: Dict)
    ensures var o := Preprocess(m);
            var fromWxid := o.fields["FromWxid"].s;
            && o.fields["IsGroup"] == VBool(EndsWith(fromWxid, ChatroomSuffix))
            && (!EndsWith(fromWxid, ChatroomSuffix) ==> !o.raised && o.fields["SenderWxid"] == o.fields["FromWxid"])
            && (EndsWith(fromWxid, ChatroomSuffix) ==>
                  && (o.raised <==> GroupSender(ContentXml(m), fromWxid).None?)
                  && (!o.raised ==> o.fields["SenderWxid"] == VStr(GroupSender(ContentXml(m), fromWxid).value)))
            && (o.raised ==> !ContentXml(m).VStr?)
  {
    var m2 := NormaliseWxids(m);
    assert ContentXml(m2) == ContentXml(m) by {
      assert GetOr(m2, "Content", VDict([])) == GetOr(m, "Content", VDict([]));
    }
    assert Preprocess(m).fields["FromWxid"] == m2["FromWxid"];
  }

  /** Preprocessing never changes the card text. */
  lemma PreprocessKeepsCardText(m: Dict)
    ensures ContentXml(Preprocess(m).fields) == ContentXml(m)
  {
    var r := Preprocess(m).fields;
    assert GetOr(r, "Content", VDict([])) == GetOr(m, "Content", VDict([]));
  }

  /** A `FromWxid` that is already a string is kept: it is synthesised only when absent. */
  lemma FromWxidKeptWhenPresent(m: Dict)
    requires "FromWxid" in m && m["FromWxid"].VStr?
    ensures Preprocess(m).fields["FromWxid"] == m["FromWxid"]
  {
  }

  /** An absent `FromWxid` is taken from the `"string"` entry of a `FromUserName` dictionary. */
  lemma FromWxidFromUserNameDict(m: Dict, es: seq<(string, Value)>, u: string)
    requires "FromWxid" !in m
    requires "FromUserName" in m && m["FromUserName"] == VDict(es)
    requires Lookup(es, "string", VStr("")) == VStr(u)
    ensures Preprocess(m).fields["FromWxid"] == VStr(u)
  {
  }

  /** An absent `FromWxid` with no `FromUserName` at all becomes the empty string. */
  lemma FromWxidEmptyWithoutUserName(m: Dict)
    requires "FromWxid" !in m && "FromUserName" !in m
    ensures Preprocess(m).fields["FromWxid"] == VStr("")
  {
  }

  /**
   * A group card `"<sender>:\n<document>"`: the message is marked as a group
   * message and its sender is the stripped sender id.
   */
  lemma GroupCardSender(m: Dict, sender: string, doc: string)
    requires EndsWith(Preprocess(m).fields["FromWxid"].s, ChatroomSuffix)
    requires ContentXml(m) == VStr(sender + SenderSeparator + doc)
    requires !Contains(sender, SenderSeparator)
    ensures !Preprocess(m).raised
    ensures Preprocess(m).fields["IsGroup"] == VBool(true)
    ensures Preprocess(m).fields["SenderWxid"] == VStr(Strip(sender))
  {
    PreprocessClassifies(m);
    SplitAtSenderSeparator(sender, doc);
  }

  /** A group card whose text has no `":\n"`: its sender is the group's own wxid. */
  lemma GroupCardWithoutPrefix(m: Dict, s: string)
    requires EndsWith(Preprocess(m).fields["FromWxid"].s, ChatroomSuffix)
    requires ContentXml(m) == VStr(s)
    requires !Contains(s, SenderSeparator)
    ensures !Preprocess(m).raised
    ensures Preprocess(m).fields["SenderWxid"] == Preprocess(m).fields["FromWxid"]
  {
    PreprocessClassifies(m);
  }

  /** Normalising a wxid field that is already a string changes nothing. */
  lemma NormaliseKeepsStringWxid(m: Dict, wxidKey: string, nameKey: string)
    requires wxidKey in m && m[wxidKey].VStr?
    ensures NormaliseWxid(m, wxidKey, nameKey) == m
  {
  }

  /** What preprocessing leaves behind: string wxids, and `IsGroup` and `SenderWxid` that agree with them. */
  predicate Normalised(r: Dict) {
    && "FromWxid" in r && r["FromWxid"].VStr?
    && "ToWxid" in r && r["ToWxid"].VStr?
    && "IsGroup" in r && r["IsGroup"] == VBool(EndsWith(r["FromWxid"].s, ChatroomSuffix))
    && "SenderWxid" in r
    && (if EndsWith(r["FromWxid"].s, ChatroomSuffix)
        then r["SenderWxid"].VStr? && GroupSender(ContentXml(r), r["FromWxid"].s) == Some(r["SenderWxid"].s)
        else r["SenderWxid"] == r["FromWxid"])
  }

  /** A record that did not raise comes out normalised. */
  lemma PreprocessNormalises(m: Dict)
    requires !Preprocess(m).raised
    ensures Normalised(Preprocess(m).fields)
  {
    PreprocessClassifies(m);
    PreprocessKeepsCardText(m);
  }

  /** Preprocessing a normalised record gives it back unchanged. */
  lemma PreprocessKeepsNormalised(r: Dict)
    requires Normalised(r)
    ensures Preprocess(r) == Outcome(r, false)
  {
    NormaliseKeepsStringWxid(r, "FromWxid", "FromUserName");
    NormaliseKeepsStringWxid(r, "ToWxid", "ToUserName");
    var fromWxid := r["FromWxid"].s;
    if EndsWith(fromWxid, ChatroomSuffix) {
      var r3 := r["IsGroup" := VBool(true)];
      assert r3 == r;
      assert r3["SenderWxid" := VStr(r["SenderWxid"].s)] == r;
    } else {
      assert r["IsGroup" := VBool(false)]["SenderWxid" := VStr(fromWxid)] == r;
    }
  }

  /** Preprocessing a record it has already preprocessed changes nothing. */
  lemma PreprocessIdempotent(m: Dict)
    requires !Preprocess(m).raised
    ensures Preprocess(Preprocess(m).fields) == Preprocess(m)
  {
    PreprocessNormalises(m);
    PreprocessKeepsNormalised(Preprocess(m).fields);
  }
}
