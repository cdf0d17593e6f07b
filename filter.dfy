/**
 * The allow-list filter of the plugin (`_is_message_allowed`): whether an
 * inbound message comes from a source the configuration listens to.
 */
module Filter {
  import opened Values

  /** The listen settings: `listen_type`, `listen_user_wxids`, `listen_group_wxids`. */
  datatype ListenConfig = ListenConfig(listenType: string, userWxids: seq<string>, groupWxids: seq<string>)

  /** Python's `v in xs` for a list of wxid strings: only an equal string is a member. */
  predicate InList(v: Value, xs: seq<string>) {
    v.VStr? && v.s in xs
  }

  /** `room_wxid`: the origin of a message whose `IsGroup` is truthy, `None` otherwise. */
  function RoomWxid(m: Dict): (r: Value)
    ensures Truthy(Get(m, "IsGroup")) ==> r == Get(m, "FromWxid")
    ensures !Truthy(Get(m, "IsGroup")) ==> r == VNone
    ensures forall xs :: !Truthy(Get(m, "IsGroup")) ==> !InList(r, xs)
  {
    if Truthy(Get(m, "IsGroup")) then Get(m, "FromWxid") else VNone
  }

  /** `_is_message_allowed`: a total predicate over the message and the listen settings. */
  predicate IsMessageAllowed(cfg: ListenConfig, m: Dict)
    ensures IsMessageAllowed(cfg, m) ==> cfg.listenType in {"all", "user", "group"}
  {
    if cfg.listenType == "all" then true
    else if cfg.listenType == "user" then
      InList(Get(m, "FromWxid"), cfg.userWxids) || InList(Get(m, "SenderWxid"), cfg.userWxids)
    else if cfg.listenType == "group" then
      InList(RoomWxid(m), cfg.groupWxids)
    else false
  }

  /** Listening to "all" lets every message through, whatever its origin and sender. */
  lemma AllModeAllowsEverything(cfg: ListenConfig, m: Dict)
    requires cfg.listenType == "all"
    ensures IsMessageAllowed(cfg, m)
  {
  }

  /** Listening to "user": allowed exactly when the origin or the sender is a listed user. */
  lemma UserModeAllowsListedUsers(cfg: ListenConfig, m: Dict)
    requires cfg.listenType == "user"
    ensures IsMessageAllowed(cfg, m) <==>
              exists u :: u in cfg.userWxids &&
                (("FromWxid" in m && m["FromWxid"] == VStr(u)) ||
                 ("SenderWxid" in m && m["SenderWxid"] == VStr(u)))
  {
    if IsMessageAllowed(cfg, m) {
      if InList(Get(m, "FromWxid"), cfg.userWxids) {
        assert m["FromWxid"] == VStr(m["FromWxid"].s);
      } else {
        assert m["SenderWxid"] == VStr(m["SenderWxid"].s);
      }
    }
  }

  /** Listening to "group": allowed exactly when the message is a group message from a listed group. */
  lemma GroupModeAllowsListedGroups(cfg: ListenConfig, m: Dict)
    requires cfg.listenType == "group"
    ensures IsMessageAllowed(cfg, m) <==>
              Truthy(Get(m, "IsGroup")) &&
              exists g :: g in cfg.groupWxids && "FromWxid" in m && m["FromWxid"] == VStr(g)
  {
    if IsMessageAllowed(cfg, m) {
      assert m["FromWxid"] == VStr(m["FromWxid"].s);
    }
  }

  /** Listening to "group": a message that is not marked as a group message never passes. */
  lemma GroupModeRejectsNonGroup(cfg: ListenConfig, m: Dict)
    requires cfg.listenType == "group"
    requires !Truthy(Get(m, "IsGroup"))
    ensures !IsMessageAllowed(cfg, m)
  {
  }

  /** A listen type other than "all", "user" and "group" rejects every message. */
  lemma UnknownModeRejectsEverything(cfg: ListenConfig, m: Dict)
    requires cfg.listenType !in {"all", "user", "group"}
    ensures !IsMessageAllowed(cfg, m)
  {
  }

  /** The decision reads only `FromWxid`, `SenderWxid` and `IsGroup`; every other field is irrelevant. */
  lemma DecisionReadsOnlySourceFields(cfg: ListenConfig, m: Dict, m': Dict)
    requires Get(m, "FromWxid") == Get(m', "FromWxid")
    requires Get(m, "SenderWxid") == Get(m', "SenderWxid")
    requires Truthy(Get(m, "IsGroup")) == Truthy(Get(m', "IsGroup"))
    ensures IsMessageAllowed(cfg, m) == IsMessageAllowed(cfg, m')
  {
  }
}
