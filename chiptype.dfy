// Chip identifiers, their display names, and the slot lookup over the
// chip configuration table (v0.86/console_player/chiptype.c).

module ChipType {
  import opened Bytes

  /** `chip_type_t`; `NoChip` is `CHIP_TYPE_NONE`. */
  datatype Chip =
    | NoChip | YM2608 | YM2151 | YM2612 | YM2203 | YM2413 | YM3526 | YM3812
    | Y8950 | AY8910 | SN76489 | YMF262

  /** One entry of `g_chip_config`: a chip type and the SPFM slot it sits in (0xFF: none). */
  datatype ChipConfig = ChipConfig(chip: Chip, slot: byte)

  const NO_SLOT: byte := 0xFF

  /** `chip_type_to_string`. */
  function ChipName(c: Chip): (s: string)
    ensures c == NoChip <==> s == "NONE"
  {
    match c
    case YM2608 => "YM2608"
    case YM2151 => "YM2151"
    case YM2612 => "YM2612"
    case YM2203 => "YM2203"
    case YM2413 => "YM2413"
    case YM3526 => "YM3526"
    case YM3812 => "YM3812"
    case Y8950 => "Y8950"
    case AY8910 => "AY8910"
    case SN76489 => "SN76489"
    case YMF262 => "YMF262"
    case NoChip => "NONE"
  }

  /** `string_to_chip_type`: exact, case-sensitive comparison in a fixed order. */
  function ChipFromName(s: string): Chip
  {
    if s == "YM2608" then YM2608
    else if s == "YM2151" then YM2151
    else if s == "YM2612" then YM2612
    else if s == "YM2203" then YM2203
    else if s == "YM2413" then YM2413
    else if s == "YM3526" then YM3526
    else if s == "YM3812" then YM3812
    else if s == "Y8950" then Y8950
    else if s == "AY8910" then AY8910
    else if s == "SN76489" then SN76489
    else if s == "YMF262" then YMF262
    else NoChip
  }

  /** A named chip survives a round trip through its name. */
  lemma NameRoundTrip(c: Chip)
    ensures ChipFromName(ChipName(c)) == c
  {
  }

  /**
   * A string is recognised exactly when it is some chip's name, character
   * for character; anything else (a different case, an extra character)
   * maps to `CHIP_TYPE_NONE`.
   */
  lemma {:induction false} NameRecognisedIffExact(s: string)
    ensures ChipFromName(s) != NoChip <==> exists c: Chip :: c != NoChip && s == ChipName(c)
    ensures ChipFromName(s) != NoChip ==> ChipName(ChipFromName(s)) == s
  {
    if ChipFromName(s) != NoChip {
      var c := ChipFromName(s);
      assert s == ChipName(c);
    } else {
      forall c: Chip | c != NoChip
        ensures s != ChipName(c)
      {
        NameRoundTrip(c);
      }
    }
  }

  lemma LowerCaseNotRecognised()
    ensures ChipFromName("ym2151") == NoChip
  {
  }

  /**
   * `get_slot_for_chip`: the slot of the first configuration entry whose
   * type is `t`, or 0xFF when no entry has that type.
   */
  method SlotForChip(config: seq<ChipConfig>, t: Chip) returns (slot: byte)
    ensures (forall i :: 0 <= i < |config| ==> config[i].chip != t) ==> slot == NO_SLOT
    ensures (exists i :: 0 <= i < |config| && config[i].chip == t) ==>
      exists i :: 0 <= i < |config| && config[i].chip == t && slot == config[i].slot &&
        forall j :: 0 <= j < i ==> config[j].chip != t
  {
    var i := 0;
    while i < |config|
      invariant 0 <= i <= |config|
      invariant forall j :: 0 <= j < i ==> config[j].chip != t
    {
      if config[i].chip == t {
        return config[i].slot;
      }
      i := i + 1;
    }
    return NO_SLOT;
  }
}
