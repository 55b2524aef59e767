/** The naming schemes and `vlan_name`, which derives a VLAN device name. */
module Naming {
  import opened Decimal

  const VlanPlusVid := "VLAN_PLUS_VID"
  const VlanPlusVidNoPad := "VLAN_PLUS_VID_NO_PAD"
  const DevPlusVid := "DEV_PLUS_VID"
  const DevPlusVidNoPad := "DEV_PLUS_VID_NO_PAD"

  const AllowedNameTypes: set<string> := {VlanPlusVid, VlanPlusVidNoPad, DevPlusVid, DevPlusVidNoPad}

  const DefaultNameType := DevPlusVidNoPad

  /** The text before the id: "vlan" for the VLAN_ schemes, the parent and a dot otherwise. */
  function SchemePrefix(parent: string, nameType: string): string
  {
    if nameType == VlanPlusVid || nameType == VlanPlusVidNoPad then "vlan" else parent + "."
  }

  /** The schemes that pad the id to four digits. */
  predicate IsPadded(nameType: string)
  {
    nameType == VlanPlusVid || nameType == DevPlusVid
  }

  /**
   * `vlan_name`: the device name a scheme gives the VLAN `vid` on `parent`,
   * the scheme's prefix followed by the id, four-digit padded or not.
   */
  function VlanName(parent: string, vid: nat, nameType: string): (name: string)
    ensures name == SchemePrefix(parent, nameType) + (if IsPadded(nameType) then ZeroPadded(vid, 4) else NatToDecimal(vid))
  {
    if nameType == VlanPlusVid then
      "vlan" + ZeroPadded(vid, 4)
    else if nameType == VlanPlusVidNoPad then
      "vlan" + NatToDecimal(vid)
    else if nameType == DevPlusVid then
      parent + "." + ZeroPadded(vid, 4)
    else if nameType == DevPlusVidNoPad then
      parent + "." + NatToDecimal(vid)
    else
      parent + "." + NatToDecimal(vid)
  }

  /**
   * The name is the scheme's prefix followed by the id in decimal: exactly four
   * digits (zero-filled) for the padded schemes when the id has at most four
   * digits, and the canonical `str(vid)` for the unpadded schemes and for a
   * padded id of four or more digits. Any other scheme string is treated like
   * DEV_PLUS_VID_NO_PAD.
   */
  lemma VlanNameDecodes(parent: string, vid: nat, nameType: string)
    ensures var name := VlanName(parent, vid, nameType);
      var p := SchemePrefix(parent, nameType);
      && |p| < |name| && name[..|p|] == p
      && IsDecimal(name[|p|..]) && DecimalValue(name[|p|..]) == vid
      && (IsPadded(nameType) ==> |name| >= |p| + 4 && (vid < 10000 ==> |name| == |p| + 4))
      && (!IsPadded(nameType) ==> IsCanonical(name[|p|..]))
      && (IsPadded(nameType) && |NatToDecimal(vid)| >= 4 ==> name[|p|..] == NatToDecimal(vid))
  {
    var p := SchemePrefix(parent, nameType);
    var suffix := if IsPadded(nameType) then ZeroPadded(vid, 4) else NatToDecimal(vid);
    DecimalRoundTrip(vid);
    assert Pow10(4) == 10000;
    var name := p + suffix;
    assert name[..|p|] == p && name[|p|..] == suffix;
  }

  /** For a fixed parent and scheme, the derived name determines the id. */
  lemma VlanNameDeterminesId(parent: string, v1: nat, v2: nat, nameType: string)
    requires VlanName(parent, v1, nameType) == VlanName(parent, v2, nameType)
    ensures v1 == v2
  {
    VlanNameDecodes(parent, v1, nameType);
    VlanNameDecodes(parent, v2, nameType);
  }

  /** A scheme string outside the four known ones names devices like DEV_PLUS_VID_NO_PAD. */
  lemma UnknownSchemeFallsBack(parent: string, vid: nat, nameType: string)
    requires nameType !in AllowedNameTypes
    ensures VlanName(parent, vid, nameType) == VlanName(parent, vid, DevPlusVidNoPad)
  {
  }

  lemma VlanNameExamples()
    ensures VlanName("eth0", 5, VlanPlusVid) == "vlan0005"
    ensures VlanName("eth0", 5, VlanPlusVidNoPad) == "vlan5"
    ensures VlanName("eth0", 5, DevPlusVid) == "eth0.0005"
    ensures VlanName("eth0", 5, DevPlusVidNoPad) == "eth0.5"
    ensures VlanName("eth0", 4094, DevPlusVid) == "eth0.4094"
  {
  }
}
