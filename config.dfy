/**
 * The macro store: for each profile name ("MEMORY_1" ...) a map from macro
 * name ("MACRO_1" ...) to a macro definition, and the `notify` setting with
 * its lenient boolean rule.
 *
 * Reading and writing the JSON file is not part of this model; what is kept of
 * the JSON layer is how the `notify` value is decoded and encoded.
 */
module Config {
  import opened Common
  import opened Strings

  /** How a macro's `action` is carried out. */
  datatype HotkeyType = Run | Shortcut | Typeout | Uinput | Sequence | Nothing

  /** A macro definition: its kind and its action string (empty when absent from the file). */
  datatype Macro = Macro(hotkeyType: HotkeyType, action: string)

  // ---------------------------------------------------------------------------
  // The `notify` setting
  // ---------------------------------------------------------------------------

  /** The JSON value found for a boolean setting: a boolean, a string, or anything else. */
  datatype Json = JsonBool(b: bool) | JsonString(s: string) | JsonOther

  /** The message of a value that is neither a boolean nor a string. */
  const NOT_BOOL_OR_STRING: string := "data did not match any variant of untagged enum BoolOrString"

  /**
   * Decode a boolean that may also be written as a string, as older
   * configuration files do ("True"/"False"): a string means true exactly when
   * it is "true" in any mix of ASCII case.
   */
  function DecodeStringBool(v: Json): Result<bool, string> {
    match v
    case JsonBool(b) => Ok(b)
    case JsonString(s) => Ok(EqIgnoreAsciiCase(s, "true"))
    case JsonOther => Err(NOT_BOOL_OR_STRING)
  }

  /** The setting is always written back as a plain JSON boolean. */
  function EncodeStringBool(b: bool): Json {
    JsonBool(b)
  }

  /** Writing a setting back and reading it again gives the same value, and nothing written is a string. */
  lemma StringBoolRoundTrip(b: bool)
    ensures DecodeStringBool(EncodeStringBool(b)) == Ok(b)
    ensures !EncodeStringBool(b).JsonString?
  {
  }

  /** Re-saving a file turns a string setting into the boolean it was read as, and it reads back unchanged. */
  lemma StringBoolStable(v: Json)
    requires DecodeStringBool(v).Ok?
    ensures DecodeStringBool(EncodeStringBool(DecodeStringBool(v).value)) == DecodeStringBool(v)
  {
    StringBoolRoundTrip(DecodeStringBool(v).value);
  }

  /**
   * A string is read as true exactly when its lower-cased form is "true": the
   * rule agrees with lower-casing the string and comparing.
   */
  lemma StringTrueIffLowercase(s: string)
    ensures DecodeStringBool(JsonString(s)) == Ok(true) <==> Lowercase(s) == "true"
  {
    if Lowercase(s) == "true" {
      forall i | 0 <= i < |s| ensures AsciiLower(s[i]) == AsciiLower("true"[i]) {
        assert LowerChar(s[i]) == "true"[i];
      }
    }
    if EqIgnoreAsciiCase(s, "true") {
      assert Lowercase(s) == "true" by {
        forall i | 0 <= i < |s| ensures Lowercase(s)[i] == "true"[i] {
          assert AsciiLower(s[i]) == "true"[i];
        }
      }
    }
  }

  /** The spellings the configuration files use. */
  lemma StringBoolExamples()
    ensures DecodeStringBool(JsonString("True")) == Ok(true)
    ensures DecodeStringBool(JsonString("TRUE")) == Ok(true)
    ensures DecodeStringBool(JsonString("False")) == Ok(false)
    ensures DecodeStringBool(JsonString("yes")) == Ok(false)
    ensures DecodeStringBool(JsonString("")) == Ok(false)
    ensures DecodeStringBool(JsonOther).Err?
  {
    assert AsciiLower('T') == 't' && AsciiLower('R') == 'r' && AsciiLower('U') == 'u' && AsciiLower('E') == 'e';
    assert AsciiLower("False"[0]) != AsciiLower("true"[0]);
  }

  /** The value of a `StringBool` that is built without a file. */
  const STRING_BOOL_DEFAULT: bool := false

  /** The value of `notify` when the file does not mention it. */
  const NOTIFY_DEFAULT: bool := true

  /** Read the `notify` setting: absent means on; otherwise the lenient rule. */
  function DecodeNotify(field: Option<Json>): (r: Result<bool, string>)
    ensures field.None? ==> r == Ok(NOTIFY_DEFAULT)
    ensures field.Some? ==> r == DecodeStringBool(field.value)
  {
    match field
    case None => Ok(NOTIFY_DEFAULT)
    case Some(v) => DecodeStringBool(v)
  }

  /**
   * A file without `notify` notifies, although a `StringBool` made without a
   * file is false, so only an explicit false-like value turns notifications off.
   */
  lemma NotifyDefaultsOn(v: Json)
    ensures DecodeNotify(None) == Ok(true) && !STRING_BOOL_DEFAULT
    ensures DecodeNotify(Some(v)) == Ok(false) <==> v == JsonBool(false) || (v.JsonString? && !EqIgnoreAsciiCase(v.s, "true"))
  {
  }

  // ---------------------------------------------------------------------------
  // The macro store
  // ---------------------------------------------------------------------------

  /** The loaded configuration; saving it to disk is not part of this model. */
  class Config {
    var notify: bool
    var profiles: map<string, map<string, Macro>>

    constructor(notify: bool, profiles: map<string, map<string, Macro>>)
      ensures this.notify == notify && this.profiles == profiles
    {
      this.notify := notify;
      this.profiles := profiles;
    }

    /** The macro stored under `profile` and `name`, if both exist. */
    function GetMacro(profile: string, name: string): (r: Option<Macro>)
      reads this
      ensures r.Some? <==> profile in profiles && name in profiles[profile]
      ensures r.Some? ==> r.value == profiles[profile][name]
    {
      if profile in profiles && name in profiles[profile] then Some(profiles[profile][name]) else None
    }

    /**
     * Store `m` under `profile` and `name`, creating the profile with no macros
     * first when it does not exist. Afterwards that entry reads back as `m`
     * and every other entry, in any profile, is as it was.
     */
    method SetMacro(profile: string, name: string, m: Macro)
      modifies this
      ensures profiles == old(profiles)[profile := (if profile in old(profiles) then old(profiles)[profile] else map[])[name := m]]
      ensures notify == old(notify)
      ensures GetMacro(profile, name) == Some(m)
      ensures forall p, n :: (p != profile || n != name) ==> GetMacro(p, n) == old(GetMacro(p, n))
      ensures profiles.Keys == old(profiles.Keys) + {profile}
    {
      var macros := if profile in profiles then profiles[profile] else map[];
      profiles := profiles[profile := macros[name := m]];
    }
  }

  /** The configuration of the example file: profile MEMORY_1 with a command macro and an inert one. */
  method ParseConfigExample()
  {
    var c := new Config(true, map["MEMORY_1" := map["MACRO_1" := Macro(Run, "echo hello"), "MACRO_2" := Macro(Nothing, "")]]);
    assert DecodeNotify(Some(JsonString("True"))) == Ok(true) by {
      StringBoolExamples();
    }
    assert "MEMORY_1" in c.profiles;
    assert c.GetMacro("MEMORY_1", "MACRO_1") == Some(Macro(Run, "echo hello"));
    assert c.GetMacro("MEMORY_2", "MACRO_1") == None;
    c.SetMacro("MEMORY_2", "MACRO_3", Macro(Sequence, "ctrl+c, ctrl+v"));
    assert c.GetMacro("MEMORY_2", "MACRO_3") == Some(Macro(Sequence, "ctrl+c, ctrl+v"));
    assert c.GetMacro("MEMORY_1", "MACRO_1") == Some(Macro(Run, "echo hello"));
  }
}
