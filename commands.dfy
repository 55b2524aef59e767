/**
 * The six subcommand handlers. Each checks its arguments and either fails
 * (`die`, exit status 1) or produces exactly one `ip(8)` argument vector;
 * `set_name_type` instead asks for the scheme to be stored.
 */
module Commands {
  import opened Wrappers
  import opened Decimal
  import opened VlanIds
  import opened Naming
  import opened SchemeStore

  /** What a handler, or the dispatcher, decides. */
  datatype Outcome =
    | Command(argv: seq<string>)   // run this ip(8) invocation
    | Persist(nameType: string)    // store this naming scheme, exit 0
    | Usage                        // print the usage text, exit 2
    | Failure(msg: string)         // die(msg): "vconfig: msg", exit 1

  const AddUsage := "usage: add [interface-name] [vlan_id]"
  const RemUsage := "usage: rem [vlan-name]"
  const SetNameTypeUsage := "usage: set_name_type [name-type]"
  const SetFlagUsage := "usage: set_flag [vlan-name] [flag-num] [0|1]  (or)  set_flag [vlan-name] [0|1]"
  const EgressUsage := "usage: set_egress_map [vlan-name] [skb_priority] [vlan_qos]"
  const IngressUsage := "usage: set_ingress_map [vlan-name] [skb_priority] [vlan_qos]"
  const FlagValueMessage := "flag value must be 0 or 1"
  const FlagNumMessage := "flag-num must be one of 1(reorder_hdr), 2(gvrp), 3(mvrp), 4(loose_binding)"
  const MapValueMessage := "skb_priority and vlan_qos must be integers"

  /** `cmd_add`: `ip link add link <parent> name <derived name> type vlan id <str(vid)>`. */
  function Add(args: seq<string>, nameType: string): (r: Outcome)
    ensures !r.Usage? && !r.Persist?
    ensures |args| != 2 ==> r == Failure(AddUsage)
    ensures |args| == 2 ==>
      match ParseVlanId(args[1])
      case Err(msg) => r == Failure(msg)
      case Ok(vid) => r == Command(["ip", "link", "add", "link", args[0], "name", VlanName(args[0], vid, nameType),
                                    "type", "vlan", "id", NatToDecimal(vid)])
  {
    if |args| != 2 then
      Failure(AddUsage)
    else
      var parent, vidText := args[0], args[1];
      match ParseVlanId(vidText)
      case Err(msg) => Failure(msg)
      case Ok(vid) =>
        var name := VlanName(parent, vid, nameType);
        Command(["ip", "link", "add", "link", parent, "name", name, "type", "vlan", "id", NatToDecimal(vid)])
  }

  /**
   * The vector `add` builds carries the id in canonical decimal, meaning the
   * same id as the argument, and a device name that is the scheme's prefix
   * followed by digits denoting that id.
   */
  lemma AddIdNormalised(args: seq<string>, nameType: string)
    requires Add(args, nameType).Command?
    ensures var argv := Add(args, nameType).argv;
      var p := SchemePrefix(args[0], nameType);
      && |argv| == 11 && argv[4] == args[0]
      && IsCanonical(argv[10]) && ParseVlanId(argv[10]) == ParseVlanId(args[1])
      && |p| < |argv[6]| && argv[6][..|p|] == p
      && IsDecimal(argv[6][|p|..]) && DecimalValue(argv[6][|p|..]) == ParseVlanId(args[1]).value
  {
    var vid := ParseVlanId(args[1]).value;
    var name := VlanName(args[0], vid, nameType);
    var p := SchemePrefix(args[0], nameType);
    var argv := Add(args, nameType).argv;
    assert argv[4] == args[0] && argv[6] == name && argv[10] == NatToDecimal(vid);
    assert IsCanonical(argv[10]) && ParseVlanId(argv[10]) == ParseVlanId(args[1]) by {
      NormalisedIdParsesBack(args[1]);
    }
    assert |p| < |name| && name[..|p|] == p && IsDecimal(name[|p|..]) && DecimalValue(name[|p|..]) == vid by {
      VlanNameDecodes(args[0], vid, nameType);
    }
  }

  /** `cmd_rem`: `ip link delete <dev>`. */
  function Rem(args: seq<string>): (r: Outcome)
    ensures r.Command? <==> |args| == 1
    ensures r.Command? ==> r.argv == ["ip", "link", "delete", args[0]]
    ensures !r.Command? ==> r == Failure(RemUsage)
  {
    if |args| != 1 then Failure(RemUsage) else Command(["ip", "link", "delete", args[0]])
  }

  /** `cmd_set_name_type`: the single argument must be one of the four schemes. */
  function SetNameType(args: seq<string>): (r: Outcome)
    ensures r.Persist? <==> |args| == 1 && args[0] in AllowedNameTypes
    ensures r.Persist? ==> r.nameType == args[0]
    ensures |args| != 1 ==> r == Failure(SetNameTypeUsage)
    ensures |args| == 1 && args[0] !in AllowedNameTypes ==> r == Failure(UnknownNameTypeMessage(args[0]))
  {
    if |args| != 1 then
      Failure(SetNameTypeUsage)
    else
      match CheckNameType(args[0])
      case Err(msg) => Failure(msg)
      case Ok(t) => Persist(t)
  }

  /** `_on_off`: "1" is on, "0" is off, anything else is refused. */
  function OnOff(v: string): (r: Result<string>)
    ensures r.Ok? <==> v == "0" || v == "1"
    ensures r.Ok? ==> (r.value == "on" <==> v == "1") && (r.value == "off" <==> v == "0")
    ensures r.Err? ==> r.msg == FlagValueMessage
  {
    if v != "0" && v != "1" then Err(FlagValueMessage)
    else if v == "1" then Ok("on")
    else Ok("off")
  }

  /** The flag-num table of `cmd_set_flag`. */
  function FlagName(num: string): (r: Option<string>)
    ensures r.Some? <==> num in {"1", "2", "3", "4"}
    ensures num == "1" ==> r == Some("reorder_hdr")
    ensures num == "2" ==> r == Some("gvrp")
    ensures num == "3" ==> r == Some("mvrp")
    ensures num == "4" ==> r == Some("loose_binding")
  {
    if num == "1" then Some("reorder_hdr")
    else if num == "2" then Some("gvrp")
    else if num == "3" then Some("mvrp")
    else if num == "4" then Some("loose_binding")
    else None
  }

  /** Distinct flag numbers select distinct flags. */
  lemma FlagNameInjective(a: string, b: string)
    requires FlagName(a).Some? && FlagName(a) == FlagName(b)
    ensures a == b
  {
  }

  function FlagVector(dev: string, flag: string, onOff: string): seq<string>
  {
    ["ip", "link", "set", "dev", dev, "type", "vlan", flag, onOff]
  }

  /**
   * `cmd_set_flag`: the two-argument form sets reorder_hdr; the three-argument
   * form looks up the flag number first, so an unknown number is reported
   * whatever the value; any other arity is refused.
   */
  function SetFlag(args: seq<string>): (r: Outcome)
    ensures !r.Usage? && !r.Persist?
    ensures |args| != 2 && |args| != 3 ==> r == Failure(SetFlagUsage)
    ensures |args| == 3 && FlagName(args[1]).None? ==> r == Failure(FlagNumMessage)
    ensures r.Command? <==>
      || (|args| == 2 && OnOff(args[1]).Ok?)
      || (|args| == 3 && FlagName(args[1]).Some? && OnOff(args[2]).Ok?)
    ensures r.Command? && |args| == 2 ==> r.argv == FlagVector(args[0], "reorder_hdr", OnOff(args[1]).value)
    ensures r.Command? && |args| == 3 ==> r.argv == FlagVector(args[0], FlagName(args[1]).value, OnOff(args[2]).value)
    ensures r.Failure? && (|args| == 2 || (|args| == 3 && FlagName(args[1]).Some?)) ==> r.msg == FlagValueMessage
  {
    if |args| == 2 then
      var dev, val := args[0], args[1];
      match OnOff(val)
      case Err(msg) => Failure(msg)
      case Ok(onOff) => Command(FlagVector(dev, "reorder_hdr", onOff))
    else if |args| == 3 then
      var dev, flagNum, val := args[0], args[1], args[2];
      match FlagName(flagNum)
      case None => Failure(FlagNumMessage)
      case Some(flag) =>
        match OnOff(val)
        case Err(msg) => Failure(msg)
        case Ok(onOff) => Command(FlagVector(dev, flag, onOff))
    else
      Failure(SetFlagUsage)
  }

  /** The compatibility form `set_flag <dev> <0|1>` is `set_flag <dev> 1 <0|1>`. */
  lemma SetFlagCompatibilityForm(dev: string, val: string)
    ensures SetFlag([dev, val]) == SetFlag([dev, "1", val])
  {
  }

  /** The `<a>:<b>` token of a QoS map. */
  function MapToken(a: string, b: string): string
  {
    a + ":" + b
  }

  /**
   * A map token determines its two operands, because integer literals hold
   * no colon.
   */
  lemma MapTokenInjective(a: string, b: string, c: string, d: string)
    requires IsIntLiteral(a) && IsIntLiteral(c)
    requires MapToken(a, b) == MapToken(c, d)
    ensures a == c && b == d
  {
    var t := MapToken(a, b);
    assert forall i :: 0 <= i < |a| ==> t[i] == a[i];
    assert forall i :: 0 <= i < |c| ==> t[i] == c[i];
    assert t[|a|] == ':' && t[|c|] == ':';
    assert forall i :: 0 <= i < |a| ==> a[i] != ':';
    assert forall i :: 0 <= i < |c| ==> c[i] != ':';
    assert |a| == |c|;
    assert a == t[..|a|] == c;
    assert b == t[|a| + 1..] == d;
  }

  /** The map vector shared by both QoS handlers; `key` names the map. */
  function MapVector(dev: string, key: string, token: string): seq<string>
  {
    ["ip", "link", "set", "dev", dev, "type", "vlan", key, token]
  }

  /** `cmd_set_egress_map`: `egress-qos-map <skb>:<qos>`, from the raw argument texts. */
  function SetEgressMap(args: seq<string>): (r: Outcome)
    ensures !r.Usage? && !r.Persist?
    ensures r.Command? <==> |args| == 3 && IsIntLiteral(args[1]) && IsIntLiteral(args[2])
    ensures r.Command? ==> r.argv == MapVector(args[0], "egress-qos-map", MapToken(args[1], args[2]))
    ensures |args| != 3 ==> r == Failure(EgressUsage)
    ensures |args| == 3 && !r.Command? ==> r == Failure(MapValueMessage)
  {
    if |args| != 3 then
      Failure(EgressUsage)
    else
      var dev, skb, qos := args[0], args[1], args[2];
      if !IsIntLiteral(skb) || !IsIntLiteral(qos) then
        Failure(MapValueMessage)
      else
        Command(MapVector(dev, "egress-qos-map", MapToken(skb, qos)))
  }

  /** `cmd_set_ingress_map`: `ingress-qos-map <qos>:<skb>`, the operands swapped. */
  function SetIngressMap(args: seq<string>): (r: Outcome)
    ensures !r.Usage? && !r.Persist?
    ensures r.Command? <==> |args| == 3 && IsIntLiteral(args[1]) && IsIntLiteral(args[2])
    ensures r.Command? ==> r.argv == MapVector(args[0], "ingress-qos-map", MapToken(args[2], args[1]))
    ensures |args| != 3 ==> r == Failure(IngressUsage)
    ensures |args| == 3 && !r.Command? ==> r == Failure(MapValueMessage)
  {
    if |args| != 3 then
      Failure(IngressUsage)
    else
      var dev, skb, qos := args[0], args[1], args[2];
      if !IsIntLiteral(skb) || !IsIntLiteral(qos) then
        Failure(MapValueMessage)
      else
        Command(MapVector(dev, "ingress-qos-map", MapToken(qos, skb)))
  }

  /**
   * Egress and ingress accept the same arguments, and the ingress token of
   * (skb, qos) is the egress token of (qos, skb); the two tokens for the same
   * arguments coincide only when skb and qos are the same text.
   */
  lemma IngressSwapsOperands(dev: string, skb: string, qos: string)
    ensures SetEgressMap([dev, skb, qos]).Command? <==> SetIngressMap([dev, skb, qos]).Command?
    ensures SetIngressMap([dev, skb, qos]).Command? ==>
      && SetIngressMap([dev, skb, qos]).argv[8] == SetEgressMap([dev, qos, skb]).argv[8]
      && (SetIngressMap([dev, skb, qos]).argv[8] == SetEgressMap([dev, skb, qos]).argv[8] <==> skb == qos)
  {
    if SetIngressMap([dev, skb, qos]).Command? && MapToken(qos, skb) == MapToken(skb, qos) {
      MapTokenInjective(qos, skb, skb, qos);
    }
  }

  /**
   * A QoS value longer than 4300 digits is not an integer, so no map command
   * is built, whichever of the two positions it takes.
   */
  lemma MapDigitLimit(dev: string, skb: string, qos: string)
    requires IsDecimal(skb) && |skb| > MaxStrDigits
    ensures SetEgressMap([dev, skb, qos]) == Failure(MapValueMessage)
    ensures SetIngressMap([dev, qos, skb]) == Failure(MapValueMessage)
    ensures SetEgressMap([dev, qos, skb]) == Failure(MapValueMessage)
    ensures SetIngressMap([dev, skb, qos]) == Failure(MapValueMessage)
  {
    DigitLimitRejects(skb);
  }

  lemma QosMapExample()
    ensures SetEgressMap(["eth0.5", "3", "7"]).argv[8] == "3:7"
    ensures SetIngressMap(["eth0.5", "3", "7"]).argv[8] == "7:3"
  {
    assert IsIntLiteral("3") && IsIntLiteral("7");
  }
}
