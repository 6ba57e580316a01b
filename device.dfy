/**
 * The keyboard's hidraw device: finding the node of the vendor interface,
 * switching the G-keys to software mode with HID++ 2.0 commands, and turning
 * raw reads into key events.
 *
 * The sysfs directory, the device file and `poll` are inputs: a directory
 * listing with what each entry's files contain, the fate of each write, and
 * the result of each read or poll.
 */
module Device {
  import opened Common
  import opened Strings
  import opened Sink
  import opened Events

  // ---------------------------------------------------------------------------
  // Finding the device
  // ---------------------------------------------------------------------------

  /** The product the daemon drives, as the kernel writes it: four upper-case hex digits. */
  function TargetVendor(): (r: string)
    ensures r == "046D"
  {
    Hex4(VENDOR_ID)
  }

  function TargetProduct(): (r: string)
    ensures r == "C33F"
  {
    Hex4(PRODUCT_ID)
  }

  const HID_ID_PREFIX: string := "HID_ID="

  /** The sysfs path of the vendor interface (interface 1) contains this. */
  const INTERFACE_MARKER: string := ":1.1/"

  /** The message of `NotFound`. */
  const NOT_FOUND: string := "G815 interface 1 not found. Is the keyboard connected and not claimed by another program?"

  /**
   * A `uevent` line naming the keyboard: `HID_ID=bus:vendor:product`, where
   * vendor and product lose their leading "0000" groups and must then equal
   * the targets exactly (upper case).
   */
  predicate HidIdMatches(line: string) {
    && StartsWith(line, HID_ID_PREFIX)
    && var parts := Split(line, ':');
    && |parts| >= 3
    && TrimStartMatches(parts[1], "0000") == TargetVendor()
    && TrimStartMatches(parts[2], "0000") == TargetProduct()
  }

  /**
   * A line matches exactly when it starts with `HID_ID=`, has at least three
   * ':'-separated fields, and the second and third fields are some number of
   * "0000" groups followed by exactly "046D" and "C33F".
   */
  lemma HidIdMatchesIff(line: string)
    ensures HidIdMatches(line) <==>
      && StartsWith(line, HID_ID_PREFIX)
      && |Split(line, ':')| >= 3
      && (exists n: nat :: Split(line, ':')[1] == Repeat("0000", n) + "046D")
      && (exists n: nat :: Split(line, ':')[2] == Repeat("0000", n) + "C33F")
  {
    var parts := Split(line, ':');
    assert !StartsWith("046D", "0000") by {
      assert "046D"[1] != "0000"[1];
    }
    assert !StartsWith("C33F", "0000") by {
      assert "C33F"[0] != "0000"[0];
    }
    if |parts| >= 3 {
      TrimStartMatchesIff(parts[1], "0000", "046D");
      TrimStartMatchesIff(parts[2], "0000", "C33F");
    }
  }

  /** Trimming the zero groups from a kernel id field. */
  lemma TrimZeroGroup(id: string)
    requires |id| == 4 && id != "0000"
    ensures TrimStartMatches("0000" + id, "0000") == id
  {
    assert ("0000" + id)[..4] == "0000";
    assert ("0000" + id)[4..] == id;
    assert !StartsWith(id, "0000");
  }

  /**
   * A line `HID_ID=bus:vendor:product` (fields without ':') matches exactly
   * when vendor and product, with their leading "0000" groups removed, are the
   * keyboard's ids.
   */
  lemma HidIdLine(bus: string, vendor: string, product: string)
    requires ':' !in bus && ':' !in vendor && ':' !in product
    ensures HidIdMatches(HID_ID_PREFIX + bus + ":" + vendor + ":" + product) <==>
      TrimStartMatches(vendor, "0000") == "046D" && TrimStartMatches(product, "0000") == "C33F"
  {
    var line := HID_ID_PREFIX + bus + ":" + vendor + ":" + product;
    var fields := [HID_ID_PREFIX + bus, vendor, product];
    JoinThree(HID_ID_PREFIX + bus, vendor, product);
    PrefixHasNoColon(bus);
    SplitJoin(fields, ':');
    assert StartsWith(line, HID_ID_PREFIX) by {
      assert line[..7] == HID_ID_PREFIX;
    }
  }

  lemma JoinThree(a: string, b: string, c: string)
    ensures Join([a, b, c], ":") == a + ":" + b + ":" + c
  {
    assert [a, b, c][1..][1..] == [c];
    assert Join([a, b, c][1..], ":") == b + ":" + c;
  }

  lemma PrefixHasNoColon(bus: string)
    requires ':' !in bus
    ensures ':' !in HID_ID_PREFIX + bus
  {
    assert ':' !in HID_ID_PREFIX;
  }

  /** The kernel's line for the keyboard, whatever its bus, matches. */
  lemma KeyboardLineMatches(bus: string)
    requires ':' !in bus
    ensures HidIdMatches(HID_ID_PREFIX + bus + ":" + "0000046D" + ":" + "0000C33F")
  {
    assert "0000046D" == "0000" + "046D" && "0000C33F" == "0000" + "C33F";
    TrimZeroGroup("046D");
    TrimZeroGroup("C33F");
    HidIdLine(bus, "0000046D", "0000C33F");
  }

  /** The ids are compared exactly: the same line with a lower-case vendor id does not match. */
  lemma LowerCaseIdDoesNotMatch(bus: string)
    requires ':' !in bus
    ensures !HidIdMatches(HID_ID_PREFIX + bus + ":" + "0000046d" + ":" + "0000C33F")
  {
    assert "0000046d" == "0000" + "046d";
    TrimZeroGroup("046d");
    assert "046d" != "046D" by {
      assert "046d"[3] != "046D"[3];
    }
    HidIdLine(bus, "0000046d", "0000C33F");
  }

  /**
   * One entry of the hidraw class directory: its node name, the contents of
   * its `uevent` file (None when unreadable), and the resolved path of its
   * device (or why it could not be resolved). An entry the directory listing
   * itself failed on is `Unlisted`.
   */
  datatype DirEntry =
    | Listed(name: string, uevent: Option<string>, realPath: Result<string, string>)
    | Unlisted(error: string)

  datatype FindError = NotFound | IoError(message: string)

  /** The entry has a readable `uevent` file with a line naming the keyboard. */
  predicate NamesKeyboard(e: DirEntry)
    requires e.Listed?
  {
    e.uevent.Some? && exists j :: 0 <= j < |Lines(e.uevent.value)| && HidIdMatches(Lines(e.uevent.value)[j])
  }

  /** The entry names the keyboard and its device is interface 1. */
  predicate Accepted(e: DirEntry) {
    e.Listed? && NamesKeyboard(e) && e.realPath.Ok? && Contains(e.realPath.value, INTERFACE_MARKER)
  }

  /** What one entry decides: a device node, an error, or nothing (look further). */
  function Verdict(e: DirEntry): Option<Result<string, FindError>> {
    match e
    case Unlisted(error) => Some(Err(IoError(error)))
    case Listed(name, _, realPath) =>
      if !NamesKeyboard(e) then None
      else if realPath.Err? then Some(Err(IoError(realPath.error)))
      else if Contains(realPath.value, INTERFACE_MARKER) then Some(Ok("/dev/" + name))
      else None
  }

  /** The first entry that decides, in directory order; none means not found. */
  function FindIn(entries: seq<DirEntry>): Result<string, FindError> {
    if entries == [] then Err(NotFound)
    else if Verdict(entries[0]).Some? then Verdict(entries[0]).value
    else FindIn(entries[1..])
  }

  /** The search fails with "not found" exactly when no entry decides anything. */
  lemma {:induction false} NotFoundIff(entries: seq<DirEntry>)
    ensures FindIn(entries) == Err(NotFound) <==> forall i :: 0 <= i < |entries| ==> Verdict(entries[i]).None?
  {
    if entries != [] {
      NotFoundIff(entries[1..]);
      if forall i :: 0 <= i < |entries[1..]| ==> Verdict(entries[1..][i]).None? {
        if Verdict(entries[0]).None? {
          forall i | 0 <= i < |entries| ensures Verdict(entries[i]).None? {
            if i > 0 {
              assert entries[i] == entries[1..][i - 1];
            }
          }
        }
      }
    }
  }

  /**
   * A device node found is `/dev/` followed by the name of an entry whose
   * `uevent` names the keyboard and whose device path is interface 1.
   */
  lemma {:induction false} FoundIsInterfaceOne(entries: seq<DirEntry>)
    requires FindIn(entries).Ok?
    ensures exists i :: 0 <= i < |entries| && Accepted(entries[i]) && FindIn(entries).value == "/dev/" + entries[i].name
  {
    if Verdict(entries[0]).None? {
      FoundIsInterfaceOne(entries[1..]);
      var i :| 0 <= i < |entries[1..]| && Accepted(entries[1..][i]) && FindIn(entries[1..]).value == "/dev/" + entries[1..][i].name;
      assert entries[i + 1] == entries[1..][i];
    } else {
      assert 0 < |entries| && entries[0].Listed?;
    }
  }

  /** The hidraw class directory, or why it could not be read. */
  method FindHidrawDevice(listing: Result<seq<DirEntry>, string>) returns (r: Result<string, FindError>)
    ensures listing.Err? ==> r == Err(IoError(listing.error))
    ensures listing.Ok? ==> r == FindIn(listing.value)
  {
    if listing.Err? {
      return Err(IoError(listing.error));
    }
    var entries := listing.value;
    for i := 0 to |entries|
      invariant FindIn(entries) == FindIn(entries[i..])
    {
      assert entries[i..][1..] == entries[i + 1..];
      var verdict := CheckEntry(entries[i]);
      if verdict.Some? {
        return verdict.value;
      }
    }
    assert entries[|entries|..] == [];
    r := Err(NotFound);
  }

  /**
   * Examine one directory entry: scan its `uevent` lines for the keyboard's
   * id and, at each such line, resolve the device path and check for
   * interface 1.
   */
  method CheckEntry(e: DirEntry) returns (verdict: Option<Result<string, FindError>>)
    ensures verdict == Verdict(e)
  {
    match e {
      case Unlisted(error) =>
        return Some(Err(IoError(error)));
      case Listed(name, uevent, realPath) =>
        if uevent.Some? {
          var lines := Lines(uevent.value);
          for j := 0 to |lines|
            invariant forall k :: 0 <= k < j && HidIdMatches(lines[k]) ==>
              realPath.Ok? && !Contains(realPath.value, INTERFACE_MARKER)
          {
            if HidIdMatches(lines[j]) {
              if realPath.Err? {
                return Some(Err(IoError(realPath.error)));
              }
              if Contains(realPath.value, INTERFACE_MARKER) {
                return Some(Ok("/dev/" + name));
              }
            }
          }
        }
        return None;
    }
  }

  // ---------------------------------------------------------------------------
  // The device file
  // ---------------------------------------------------------------------------

  /** The vendor interface's device file: the reports written so far and the fate of the writes to come. */
  class Hidraw {
    var written: seq<seq<u8>>
    var outcomes: seq<bool>

    constructor(outcomes: seq<bool>)
      ensures written == [] && this.outcomes == outcomes
    {
      written := [];
      this.outcomes := outcomes;
    }

    /** Write one report. */
    method Write(report: seq<u8>) returns (ok: bool)
      modifies this
      ensures Wrote([report], old(written), old(outcomes), written, outcomes, ok)
    {
      if outcomes != [] && !outcomes[0] {
        outcomes := outcomes[1..];
        ok := false;
      } else {
        written := written + [report];
        outcomes := if outcomes == [] then [] else outcomes[1..];
        ok := true;
      }
    }

    /**
     * Switch the G-keys to software mode: look up the ONBOARD_PROFILES
     * feature (0x8100) and disable onboard mode, then look up the GKEYS
     * feature (0x8010) and enable it. The responses to the two look-ups are
     * `reply1` and `reply2` (None when the read fails); one command buffer
     * and one response buffer are reused throughout. A failed write ends the
     * initialisation with an error.
     */
    method InitializeGkeys(reply1: Option<seq<u8>>, reply2: Option<seq<u8>>) returns (ok: bool)
      modifies this
      ensures Wrote(InitCommands(reply1, reply2), old(written), old(outcomes), written, outcomes, ok)
    {
      ghost var plan := InitCommands(reply1, reply2);
      InitCommandsAt(reply1, reply2);
      ghost var w0, o0 := written, outcomes;
      assert plan[..0] == [] && w0 + [] == w0;
      var cmd := new u8[REPORT_LEN](_ => 0);
      var resp := new u8[REPORT_LEN](_ => 0);
      cmd[0] := 0x11;
      cmd[1] := 0xFF;

      // ONBOARD_PROFILES: look it up, then set its mode to disabled (2)
      var onboardIdx, gkeysIdx;
      ok, onboardIdx := LookUpFeature(cmd, resp, 0x81, 0x00, reply1, plan, 0, w0, o0);
      if ok {
        var b1 := if onboardIdx != 0 then 1 else 0;
        ok := SendToFeature(cmd, resp, onboardIdx, 0x10, 0x02, plan, 1, w0, o0);
        if ok {
          // GKEYS: look it up, then send it function 0
          ok, gkeysIdx := LookUpFeature(cmd, resp, 0x80, 0x10, reply2, plan, 1 + b1, w0, o0);
          if ok {
            var b2 := if gkeysIdx != 0 then 1 else 0;
            ok := SendToFeature(cmd, resp, gkeysIdx, 0x00, 0x00, plan, 2 + b1, w0, o0);
            if ok {
              TakeAll(plan, 2 + b1 + b2);
            }
          }
        }
      }
    }

    /**
     * Ask the root feature for the index of feature `hi lo` and read the
     * answer into `resp`; the index is then byte 4 of `resp`.
     */
    method LookUpFeature(cmd: array<u8>, resp: array<u8>, hi: u8, lo: u8, reply: Option<seq<u8>>,
                         ghost plan: seq<seq<u8>>, ghost done: nat, ghost w0: seq<seq<u8>>, ghost o0: seq<bool>)
      returns (ok: bool, index: u8)
      requires CommandBuffer(cmd) && resp.Length == REPORT_LEN && cmd != resp
      requires Progress(plan, done, w0, o0) && done < |plan| && plan[done] == HidppCommand(0x00, 0x00, hi, lo)
      modifies this, cmd, resp
      ensures CommandBuffer(cmd) && resp.Length == REPORT_LEN
      ensures ok ==> Progress(plan, done + 1, w0, o0) && index == resp[4] && index == FeatureIndex(old(resp[4]), reply)
      ensures !ok ==> Wrote(plan, w0, o0, written, outcomes, false)
    {
      SetCommand(cmd, 0x00, 0x00, hi, lo);
      ok := WriteNext(cmd[..], plan, done, w0, o0);
      if !ok {
        return ok, 0;
      }
      ghost var before := resp[4];
      ReadInto(resp, reply);
      index := resp[4];
      assert index == FeatureIndex(before, reply) by {
        assert 4 < resp.Length;
      }
    }

    /** Send function `function_` with parameter `p0` to the feature at `index`, unless the feature was not found (index 0). */
    method SendToFeature(cmd: array<u8>, resp: array<u8>, index: u8, function_: u8, p0: u8,
                         ghost plan: seq<seq<u8>>, ghost done: nat, ghost w0: seq<seq<u8>>, ghost o0: seq<bool>)
      returns (ok: bool)
      requires CommandBuffer(cmd) && cmd != resp
      requires Progress(plan, done, w0, o0)
      requires index != 0 ==> done < |plan| && plan[done] == HidppCommand(index, function_, p0, 0x00)
      modifies this, cmd
      ensures CommandBuffer(cmd) && unchanged(resp)
      ensures ok ==> Progress(plan, done + (if index != 0 then 1 else 0), w0, o0)
      ensures !ok ==> Wrote(plan, w0, o0, written, outcomes, false)
    {
      if index == 0 {
        return true;
      }
      SetCommand(cmd, index, function_, p0, 0x00);
      ok := WriteNext(cmd[..], plan, done, w0, o0);
    }

    lemma TakeAll(plan: seq<seq<u8>>, n: nat)
      requires n == |plan|
      ensures plan[..n] == plan
    {
    }

    /** The first `done` reports of `plan` were written, all successfully. */
    ghost predicate Progress(plan: seq<seq<u8>>, done: nat, w0: seq<seq<u8>>, o0: seq<bool>)
      reads this
    {
      done <= |plan| && Wrote(plan[..done], w0, o0, written, outcomes, true)
    }

    /** Write the next report of `plan`; a failure ends the plan there. */
    method WriteNext(report: seq<u8>, ghost plan: seq<seq<u8>>, ghost done: nat,
                     ghost w0: seq<seq<u8>>, ghost o0: seq<bool>) returns (ok: bool)
      requires Progress(plan, done, w0, o0) && done < |plan| && plan[done] == report
      modifies this
      ensures ok ==> Progress(plan, done + 1, w0, o0)
      ensures !ok ==> Wrote(plan, w0, o0, written, outcomes, false)
    {
      ghost var w1, o1 := written, outcomes;
      ok := Write(report);
      assert plan[..done + 1] == plan[..done] + [report];
      if ok {
        WroteThen(plan[..done], [report], w0, o0, w1, o1, written, outcomes, true);
      } else {
        WroteThenStops(plan[..done], [report], plan, w0, o0, w1, o1, written, outcomes);
      }
    }
  }

  /** A command buffer: the vendor prefix, then bytes 2 to 5 free, then zeros. */
  ghost predicate CommandBuffer(cmd: array<u8>)
    reads cmd
  {
    cmd.Length == REPORT_LEN && cmd[0] == 0x11 && cmd[1] == 0xFF && forall i :: 6 <= i < REPORT_LEN ==> cmd[i] == 0
  }

  /** Fill in the feature index, function and parameters of the command buffer. */
  method SetCommand(cmd: array<u8>, index: u8, function_: u8, p0: u8, p1: u8)
    requires CommandBuffer(cmd)
    modifies cmd
    ensures CommandBuffer(cmd) && cmd[..] == HidppCommand(index, function_, p0, p1)
  {
    cmd[2], cmd[3], cmd[4], cmd[5] := index, function_, p0, p1;
  }

  /** Writing a prefix of the plan and then failing is failing on the whole plan. */
  lemma WroteThenStops(done: seq<seq<u8>>, last: seq<seq<u8>>, plan: seq<seq<u8>>,
                       w0: seq<seq<u8>>, o0: seq<bool>, w1: seq<seq<u8>>, o1: seq<bool>,
                       w2: seq<seq<u8>>, o2: seq<bool>)
    requires Wrote(done, w0, o0, w1, o1, true) && Wrote(last, w1, o1, w2, o2, false)
    requires done + last <= plan
    ensures Wrote(plan, w0, o0, w2, o2, false)
  {
    WroteThen(done, last, w0, o0, w1, o1, w2, o2, false);
    WroteStops(done + last, plan[|done + last|..], w0, o0, w2, o2);
    assert done + last + plan[|done + last|..] == plan;
  }

  /**
   * Read a response into `resp`: the bytes received overwrite its front, at
   * most its length of them; a failed read leaves it as it was.
   */
  method ReadInto(resp: array<u8>, reply: Option<seq<u8>>)
    modifies resp
    ensures reply.None? ==> resp[..] == old(resp[..])
    ensures reply.Some? ==> forall i :: 0 <= i < resp.Length ==>
      resp[i] == if i < |reply.value| then reply.value[i] else old(resp[i])
  {
    if reply.Some? {
      var data := reply.value;
      forall i | 0 <= i < resp.Length && i < |data| {
        resp[i] := data[i];
      }
    }
  }

  /** An HID++ 2.0 command: vendor prefix, feature index, function, two parameters, the rest zero. */
  function HidppCommand(index: u8, function_: u8, p0: u8, p1: u8): (r: seq<u8>)
    ensures |r| == REPORT_LEN && r[0] == 0x11 && r[1] == 0xFF
    ensures r[2] == index && r[3] == function_ && r[4] == p0 && r[5] == p1
    ensures forall i :: 6 <= i < REPORT_LEN ==> r[i] == 0
  {
    [0x11, 0xFF, index, function_, p0, p1] + seq(REPORT_LEN - 6, _ => 0)
  }

  /** Byte 4 of the response buffer after a read: the reply's byte 4 if it has one, otherwise what was there. */
  function FeatureIndex(previous: u8, reply: Option<seq<u8>>): (r: u8)
    ensures reply.Some? && |reply.value| > 4 ==> r == reply.value[4]
    ensures reply.None? || |reply.value| <= 4 ==> r == previous
  {
    if reply.Some? && |reply.value| > 4 then reply.value[4] else previous
  }

  /** The commands of the G-key initialisation, in order, when every write succeeds. */
  function InitCommands(reply1: Option<seq<u8>>, reply2: Option<seq<u8>>): seq<seq<u8>> {
    var onboardIdx := FeatureIndex(0, reply1);
    var gkeysIdx := FeatureIndex(onboardIdx, reply2);
    [HidppCommand(0x00, 0x00, 0x81, 0x00)]
      + (if onboardIdx != 0 then [HidppCommand(onboardIdx, 0x10, 0x02, 0x00)] else [])
      + [HidppCommand(0x00, 0x00, 0x80, 0x10)]
      + (if gkeysIdx != 0 then [HidppCommand(gkeysIdx, 0x00, 0x00, 0x00)] else [])
  }

  /** Where each command sits in the plan. */
  lemma InitCommandsAt(reply1: Option<seq<u8>>, reply2: Option<seq<u8>>)
    ensures var c := InitCommands(reply1, reply2);
      var onboardIdx := FeatureIndex(0, reply1);
      var gkeysIdx := FeatureIndex(onboardIdx, reply2);
      var b1 := if onboardIdx != 0 then 1 else 0;
      && |c| == 2 + b1 + (if gkeysIdx != 0 then 1 else 0)
      && c[0] == HidppCommand(0x00, 0x00, 0x81, 0x00)
      && (onboardIdx != 0 ==> c[1] == HidppCommand(onboardIdx, 0x10, 0x02, 0x00))
      && c[1 + b1] == HidppCommand(0x00, 0x00, 0x80, 0x10)
      && (gkeysIdx != 0 ==> c[2 + b1] == HidppCommand(gkeysIdx, 0x00, 0x00, 0x00))
  {
  }

  /**
   * The initialisation makes two to four writes: the two feature look-ups
   * always, the disable-onboard command when ONBOARD_PROFILES was found and
   * the GKEYS command when GKEYS was found. Every command is a 20-byte vendor
   * report whose bytes 6 to 19 are zero.
   */
  lemma InitCommandsShape(reply1: Option<seq<u8>>, reply2: Option<seq<u8>>)
    ensures var c := InitCommands(reply1, reply2);
      var onboardIdx := FeatureIndex(0, reply1);
      var gkeysIdx := FeatureIndex(onboardIdx, reply2);
      |c| == 2 + (if onboardIdx != 0 then 1 else 0) + (if gkeysIdx != 0 then 1 else 0)
    ensures var c := InitCommands(reply1, reply2);
      forall k :: 0 <= k < |c| ==> (|c[k]| == REPORT_LEN && c[k][0] == 0x11 && c[k][1] == 0xFF)
    ensures var c := InitCommands(reply1, reply2);
      forall k, i :: 0 <= k < |c| && 6 <= i < REPORT_LEN ==> c[k][i] == 0
    ensures var c := InitCommands(reply1, reply2);
      c[0][2..6] == [0x00, 0x00, 0x81, 0x00] && c[|c| - 1 - (if FeatureIndex(FeatureIndex(0, reply1), reply2) != 0 then 1 else 0)][2..6] == [0x00, 0x00, 0x80, 0x10]
  {
  }

  /**
   * When the second look-up gets no usable answer, the response buffer still
   * holds the first answer, so the GKEYS command is sent to the
   * ONBOARD_PROFILES index.
   */
  lemma StaleGkeysIndex(reply1: Option<seq<u8>>, reply2: Option<seq<u8>>)
    requires reply1.Some? && |reply1.value| > 4 && reply1.value[4] != 0
    requires reply2.None? || |reply2.value| <= 4
    ensures var c := InitCommands(reply1, reply2);
      |c| == 4 && c[3] == HidppCommand(reply1.value[4], 0x00, 0x00, 0x00)
  {
  }

  // ---------------------------------------------------------------------------
  // Reading events
  // ---------------------------------------------------------------------------

  /**
   * Turn the outcome of one read into a 20-byte buffer into an event: the
   * bytes received (at most 20) are decoded; an empty read is no event; a
   * read error is passed on.
   */
  function ReadEvent(read: Result<seq<u8>, string>): Result<Option<Event>, string> {
    match read
    case Err(e) => Err(e)
    case Ok(data) =>
      var n := Min(|data|, REPORT_LEN);
      if n > 0 then Ok(ParseReport(data[..n])) else Ok(None)
  }

  /** What `poll` reported: data ready, the timeout expired, or an error. */
  datatype Poll = Ready | PollTimeout | PollFailed(error: string)

  /** A read that first waits, bounded by a timeout, for data. */
  function ReadEventTimeout(poll: Poll, read: Result<seq<u8>, string>): (r: Result<Option<Event>, string>)
    ensures poll == PollTimeout ==> r == Ok(None)
    ensures poll.PollFailed? ==> r == Err(poll.error)
    ensures poll == Ready ==> r == ReadEvent(read)
  {
    match poll
    case PollFailed(e) => Err(e)
    case PollTimeout => Ok(None)
    case Ready => ReadEvent(read)
  }

  /**
   * A read that delivers a whole vendor report decodes to exactly what the
   * decoder makes of the report; bytes past the buffer are never seen.
   */
  lemma ReadEventDecodes(report: seq<u8>, extra: seq<u8>)
    requires |report| == REPORT_LEN
    ensures ReadEvent(Ok(report + extra)) == Ok(ParseReport(report))
    ensures ReadEvent(Ok([])) == Ok(None)
  {
    assert (report + extra)[..REPORT_LEN] == report;
  }

  /** The keyboard's echo of the MR LED report is read as an MR key event. */
  lemma EchoReadsAsMrKey(on: bool)
    ensures ReadEvent(Ok(MrLedCommand(on))) == Ok(Some(if on then MRKey else MRKeyRelease))
  {
    MrLedEcho(on);
    assert MrLedCommand(on)[..REPORT_LEN] == MrLedCommand(on);
  }
}
