/**
 * The Logitech G815 vendor HID reports: the decoder from raw input reports to
 * key events, and the encoders of the 20-byte LED command reports.
 *
 * Every report starts with the vendor prefix 0x11 0xFF. Input reports carry a
 * family byte at index 2 (0x0A G-keys, 0x0B M-keys, 0x0C the MR key) and a
 * key bitmask at index 4.
 */
module Events {
  import opened Common

  /** A key event decoded from an input report. */
  datatype Event =
    | GKey(n: u8)        // G-key n pressed (1..5 on the G815)
    | GKeyRelease
    | MKey(n: u8)        // memory (profile) key n pressed (1..3)
    | MKeyRelease
    | MRKey              // memory-record key pressed
    | MRKeyRelease

  /** The keyboard this daemon drives. */
  const VENDOR_ID: u16 := 0x046D
  const PRODUCT_ID: u16 := 0xC33F
  const INTERFACE: u8 := 1
  const NUM_GKEYS: u8 := 5
  const NUM_MKEYS: u8 := 3

  const REPORT_LEN: nat := 20

  const FAMILY_GKEYS: u8 := 0x0A
  const FAMILY_MKEYS: u8 := 0x0B
  const FAMILY_MR: u8 := 0x0C
  const FAMILY_LEDS: u8 := 0x10

  // ---------------------------------------------------------------------------
  // Decoding
  // ---------------------------------------------------------------------------

  /** Decode an input report; None for short reports, foreign reports and unknown masks. */
  function ParseReport(data: seq<u8>): (r: Option<Event>)
    ensures |data| < 5 || data[0] != 0x11 || data[1] != 0xFF ==> r == None
    ensures r.Some? && r.value.GKey? ==> 1 <= r.value.n <= NUM_GKEYS
    ensures r.Some? && r.value.MKey? ==> 1 <= r.value.n <= NUM_MKEYS
  {
    if |data| < 5 then None
    else if data[0] != 0x11 || data[1] != 0xFF then None
    else match data[2]
      case 0x0A =>
        (match data[4]
           case 0x01 => Some(GKey(1))
           case 0x02 => Some(GKey(2))
           case 0x04 => Some(GKey(3))
           case 0x08 => Some(GKey(4))
           case 0x10 => Some(GKey(5))
           case 0x00 => Some(GKeyRelease)
           case _ => None)
      case 0x0B =>
        (match data[4]
           case 0x01 => Some(MKey(1))
           case 0x02 => Some(MKey(2))
           case 0x04 => Some(MKey(3))
           case 0x00 => Some(MKeyRelease)
           case _ => None)
      case 0x0C =>
        (match data[4]
           case 0x01 => Some(MRKey)
           case 0x00 => Some(MRKeyRelease)
           case _ => None)
      case _ => None
  }

  /**
   * The (family, mask) pair by which an event is reported, written from the
   * keyboard's point of view: key n of a family is bit n-1 of the mask, a
   * release is the empty mask. Key numbers the keyboard does not have have no
   * code.
   */
  function EventCode(e: Event): Option<(u8, u8)> {
    match e
    case GKey(n) => if 1 <= n <= NUM_GKEYS as int then Some((FAMILY_GKEYS, Bit(n - 1))) else None
    case GKeyRelease => Some((FAMILY_GKEYS, 0))
    case MKey(n) => if 1 <= n <= NUM_MKEYS as int then Some((FAMILY_MKEYS, Bit(n - 1))) else None
    case MKeyRelease => Some((FAMILY_MKEYS, 0))
    case MRKey => Some((FAMILY_MR, 1))
    case MRKeyRelease => Some((FAMILY_MR, 0))
  }

  /** The byte with only bit i set. */
  function Bit(i: nat): (r: u8)
    requires i < 8
    ensures r == Pow2(i)
  {
    match i
    case 0 => 1
    case 1 => 2
    case 2 => 4
    case 3 => 8
    case 4 => 16
    case 5 => 32
    case 6 => 64
    case 7 => 128
  }

  /**
   * The decoder is exactly the inverse of the reporting code: a report decodes
   * to e if and only if it carries the vendor prefix and e's family and mask.
   */
  lemma ParseReportIff(data: seq<u8>, e: Event)
    ensures ParseReport(data) == Some(e) <==>
      |data| >= 5 && data[0] == 0x11 && data[1] == 0xFF && EventCode(e) == Some((data[2], data[4]))
  {
    match e
    case GKey(n) =>
      if EventCode(e).Some? { GKeyCodes(n); }
    case MKey(n) =>
      if EventCode(e).Some? { MKeyCodes(n); }
    case _ =>
  }

  lemma GKeyCodes(n: u8)
    requires 1 <= n <= 5
    ensures n == 1 ==> Bit(n - 1) == 0x01
    ensures n == 2 ==> Bit(n - 1) == 0x02
    ensures n == 3 ==> Bit(n - 1) == 0x04
    ensures n == 4 ==> Bit(n - 1) == 0x08
    ensures n == 5 ==> Bit(n - 1) == 0x10
  {
  }

  lemma MKeyCodes(n: u8)
    requires 1 <= n <= 3
    ensures n == 1 ==> Bit(n - 1) == 0x01
    ensures n == 2 ==> Bit(n - 1) == 0x02
    ensures n == 3 ==> Bit(n - 1) == 0x04
  {
  }

  /** A report the decoder accepts has a family and mask that no other event shares. */
  lemma ParseReportNone(data: seq<u8>)
    requires |data| >= 5 && data[0] == 0x11 && data[1] == 0xFF
    ensures ParseReport(data) == None <==> forall e: Event :: EventCode(e) != Some((data[2], data[4]))
  {
    if ParseReport(data) == None {
      forall e: Event ensures EventCode(e) != Some((data[2], data[4])) {
        ParseReportIff(data, e);
      }
    } else {
      ParseReportIff(data, ParseReport(data).value);
    }
  }

  /** Byte 3 and the bytes from 5 on never influence the decoded event. */
  lemma ParseReportReadsOnlyHeaderAndMask(a: seq<u8>, b: seq<u8>)
    requires |a| >= 5 && |b| >= 5
    requires a[0] == b[0] && a[1] == b[1] && a[2] == b[2] && a[4] == b[4]
    ensures ParseReport(a) == ParseReport(b)
  {
  }

  // ---------------------------------------------------------------------------
  // Encoding
  // ---------------------------------------------------------------------------

  /** A 20-byte vendor report with the given family and sub-command, every other byte zero. */
  function Blank(family: u8, sub: u8): (r: seq<u8>)
    ensures |r| == REPORT_LEN
  {
    [0x11, 0xFF, family, sub] + seq(REPORT_LEN - 4, _ => 0)
  }

  /** A vendor report of the given family and sub-command whose bytes from `from` on are zero. */
  predicate IsReport(r: seq<u8>, family: u8, sub: u8, from: nat) {
    && |r| == REPORT_LEN
    && r[0] == 0x11 && r[1] == 0xFF && r[2] == family && r[3] == sub
    && forall i :: from <= i < REPORT_LEN ==> r[i] == 0
  }

  /**
   * Rust's `1u8 << profile.saturating_sub(1)`: the shift amount is taken
   * modulo 8 (the release-build behaviour for shifts of 8 or more).
   */
  function ProfileMask(profile: u8): (r: u8)
    ensures 1 <= profile <= 8 ==> r == Pow2(profile - 1)
    ensures profile == 0 ==> r == 1
  {
    Bit(SaturatingSubU8(profile, 1) % 8)
  }

  /** The M-key LED report lighting the indicator of `profile`. */
  function LedCommand(profile: u8): (r: seq<u8>)
    ensures IsReport(r, FAMILY_MKEYS, 0x1C, 5)
    ensures r[4] == ProfileMask(profile)
  {
    Blank(FAMILY_MKEYS, 0x1C)[4 := ProfileMask(profile)]
  }

  /** The MR-key LED report. */
  function MrLedCommand(on: bool): (r: seq<u8>)
    ensures IsReport(r, FAMILY_MR, 0x0C, 5)
    ensures r[4] == (if on then 1 else 0)
  {
    Blank(FAMILY_MR, 0x0C)[4 := if on then 1 else 0]
  }

  /** The colour report for one G-key; the key address is gkey + 0xB3, saturating. */
  function GkeyLedCommand(gkey: u8, red: u8, green: u8, blue: u8): (r: seq<u8>)
    ensures IsReport(r, FAMILY_LEDS, 0x6C, 9)
    ensures r[4] == red && r[5] == green && r[6] == blue
    ensures r[7] == Min(gkey + 0xB3, 0xFF) && r[8] == 0xFF
  {
    Blank(FAMILY_LEDS, 0x6C)[4 := red][5 := green][6 := blue][7 := SaturatingAddU8(gkey, 0xB3)][8 := 0xFF]
  }

  /** The colour report for all five G-keys at once. */
  function AllGkeysLedCommand(red: u8, green: u8, blue: u8): (r: seq<u8>)
    ensures IsReport(r, FAMILY_LEDS, 0x6C, 13)
    ensures r[4] == red && r[5] == green && r[6] == blue
    ensures forall i :: 7 <= i < 7 + NUM_GKEYS as int ==> r[i] == 0xB3 + (i - 6)
    ensures r[12] == 0xFF
  {
    Blank(FAMILY_LEDS, 0x6C)[4 := red][5 := green][6 := blue]
      [7 := 0xB4][8 := 0xB5][9 := 0xB6][10 := 0xB7][11 := 0xB8][12 := 0xFF]
  }

  /** The report that makes pending colour changes take effect. */
  function LedCommitCommand(): (r: seq<u8>)
    ensures IsReport(r, FAMILY_LEDS, 0x7F, 4)
  {
    Blank(FAMILY_LEDS, 0x7F)
  }

  /** A single-key colour report addresses the same key as its slot in the all-keys report. */
  lemma GkeyAddressesAgree(g: u8, red: u8, green: u8, blue: u8)
    requires 1 <= g <= NUM_GKEYS
    ensures GkeyLedCommand(g, red, green, blue)[7] == AllGkeysLedCommand(red, green, blue)[6 + g]
  {
  }

  // ---------------------------------------------------------------------------
  // The LED echo
  // ---------------------------------------------------------------------------

  /**
   * The keyboard reports the MR LED report as an MR key event: lighting the
   * LED reads as a press, turning it off as a release.
   */
  lemma MrLedEcho(on: bool)
    ensures ParseReport(MrLedCommand(on)) == Some(if on then MRKey else MRKeyRelease)
  {
  }

  /** The profile LED report for profile p reads back as a press of M-key p. */
  lemma ProfileLedEcho(p: u8)
    requires 1 <= p <= NUM_MKEYS
    ensures ParseReport(LedCommand(p)) == Some(MKey(p))
  {
    ParseReportIff(LedCommand(p), MKey(p));
  }

  /** No G-key colour report, and not the commit report, is ever read back as a key event. */
  lemma ColourReportsAreSilent(g: u8, red: u8, green: u8, blue: u8)
    ensures ParseReport(GkeyLedCommand(g, red, green, blue)) == None
    ensures ParseReport(AllGkeysLedCommand(red, green, blue)) == None
    ensures ParseReport(LedCommitCommand()) == None
  {
  }
}
