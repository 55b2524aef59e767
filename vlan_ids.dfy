/** `parse_vlan_id`: the VLAN id argument of `add`, read as a decimal 802.1Q VID. */
module VlanIds {
  import opened Wrappers
  import opened Decimal

  /** 4095 is reserved by IEEE 802.1Q; the accepted range is 0..4094. */
  const MaxVlanId := 4094

  type VlanId = v: int | 0 <= v <= MaxVlanId

  function InvalidVlanIdMessage(s: string): string
  {
    "invalid vlan_id '" + s + "' (use decimal)"
  }

  const RangeMessage := "vlan_id must be in range 0..4094"

  /**
   * Accepts exactly the decimal literals whose value lies in 0..4094; a text
   * that is not a literal and a value out of range fail with different messages.
   */
  function ParseVlanId(s: string): (r: Result<VlanId>)
    ensures r.Ok? <==> IsIntLiteral(s) && 0 <= IntValue(s) <= MaxVlanId
    ensures r.Ok? ==> r.value == IntValue(s)
    ensures !IsIntLiteral(s) ==> r == Err(InvalidVlanIdMessage(s))
    ensures IsIntLiteral(s) && r.Err? ==> r == Err(RangeMessage)
  {
    if !IsIntLiteral(s) then
      Err(InvalidVlanIdMessage(s))
    else
      var vid := IntValue(s);
      if 0 <= vid <= MaxVlanId then Ok(vid) else Err(RangeMessage)
  }

  /**
   * The id is normalised: `str(vid)` of an accepted id is canonical decimal and
   * parses back to the same id.
   */
  lemma NormalisedIdParsesBack(s: string)
    requires ParseVlanId(s).Ok?
    ensures var t := NatToDecimal(ParseVlanId(s).value);
      IsCanonical(t) && ParseVlanId(t) == ParseVlanId(s)
  {
    var vid := ParseVlanId(s).value;
    DecimalLength(vid, 4);
    DecimalIsIntLiteral(vid);
  }

  /** `str(vid)` is the only canonical decimal text that parses to `vid`. */
  lemma NormalisedIdUnique(t: string, vid: VlanId)
    requires IsCanonical(t) && ParseVlanId(t) == Ok(vid)
    ensures t == NatToDecimal(vid)
  {
    CanonicalUnique(t);
  }

  /** 4094 is the largest id accepted; 4095, reserved by 802.1Q, is refused. */
  lemma ParseVlanIdBoundary()
    ensures ParseVlanId("4094") == Ok(4094)
    ensures ParseVlanId("4095") == Err(RangeMessage)
  {
    assert NatToDecimal(4094) == "4094" && NatToDecimal(4095) == "4095";
    DecimalRoundTrip(4094);
    DecimalRoundTrip(4095);
  }

  /** Leading zeros are read as decimal, not octal: "007" is id 7. */
  lemma ParseVlanIdLeadingZeros()
    ensures ParseVlanId("007") == Ok(7)
  {
    assert "007" == Zeros(2) + "7";
    LeadingZerosValue(2, "7");
  }

  /** A decimal text longer than 4300 digits is not an integer, even all zeros. */
  lemma ParseVlanIdDigitLimit(s: string)
    requires IsDecimal(s) && |s| > MaxStrDigits
    ensures ParseVlanId(s) == Err(InvalidVlanIdMessage(s))
  {
    DigitLimitRejects(s);
  }

  /** A negative id and a hexadecimal or empty text are refused. */
  lemma ParseVlanIdRejects()
    ensures ParseVlanId("-1") == Err(RangeMessage)
    ensures ParseVlanId("0x10") == Err(InvalidVlanIdMessage("0x10"))
    ensures ParseVlanId("") == Err(InvalidVlanIdMessage(""))
  {
    assert "-1"[1..] == "1";
    assert !IsIntLiteral("0x10") by { assert "0x10"[1] == 'x'; }
  }
}
