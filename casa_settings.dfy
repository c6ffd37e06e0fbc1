/**
 * The settings store (`CasaSettings`): five stored fields loaded with defaults
 * from a key-value store (`UserDefaults`), and written back, all five keys at
 * once, whenever one of them is assigned.
 */
module CasaSettings {
  import opened Wrappers
  import Decimal

  type UInt16 = x: int | 0 <= x < 0x1_0000

  const DefaultPort: UInt16 := 14663

  const PortKey := "casa.settings.port"
  const AuthTokenKey := "casa.settings.authToken"
  const AutoStartKey := "casa.settings.autoStart"
  const HomeKitEnabledKey := "casa.settings.homeKitEnabled"
  const OnboardingCompleteKey := "casa.settings.onboardingComplete"

  function Keys(): set<string> {
    {PortKey, AuthTokenKey, AutoStartKey, HomeKitEnabledKey, OnboardingCompleteKey}
  }

  /** The property-list values the store holds for these keys. */
  datatype Value = IntValue(i: int) | BoolValue(b: bool) | StringValue(s: string)

  /** The contents of a `UserDefaults` domain. */
  type Store = map<string, Value>

  // ---------------------------------------------------------------------
  // Reading a stored string as a number or a Bool

  predicate IsSpace(c: char) {
    c == ' ' || c == '\t' || c == '\n' || c == '\r'
  }

  /** s without its leading whitespace. */
  function SkipSpaces(s: string): (t: string)
    ensures t == [] || !IsSpace(t[0])
  {
    if s != [] && IsSpace(s[0]) then SkipSpaces(s[1..]) else s
  }

  /** The longest prefix of s made of decimal digits. */
  function LeadingDigits(s: string): (r: string)
    ensures Decimal.AllDigits(r)
  {
    if s != [] && Decimal.IsDigit(s[0]) then [s[0]] + LeadingDigits(s[1..]) else []
  }

  /**
   * A stored string read as an integer: leading whitespace is skipped, then an
   * optional sign and the digits up to the first other character; 0 when no digit follows.
   */
  function LeadingInteger(s: string): int {
    var t := SkipSpaces(s);
    if t != [] && (t[0] == '-' || t[0] == '+') then
      var v: int := Decimal.DigitsValue(LeadingDigits(t[1..]));
      if t[0] == '-' then -v else v
    else Decimal.DigitsValue(LeadingDigits(t))
  }

  lemma {:induction false} LeadingDigitsOfDigits(s: string)
    requires Decimal.AllDigits(s)
    ensures LeadingDigits(s) == s
  {
    if s != [] {
      LeadingDigitsOfDigits(s[1..]);
    }
  }

  /** Every string that is a decimal integer reads as that integer, in particular the text of any number. */
  lemma LeadingIntegerAgreesWithDecimal(s: string)
    requires Decimal.ParseInt(s).Some?
    ensures LeadingInteger(s) == Decimal.ParseInt(s).value
  {
    if s[0] == '-' {
      assert |s| > 1 && Decimal.AllDigits(s[1..]);
      assert SkipSpaces(s) == s;
      LeadingDigitsOfDigits(s[1..]);
    } else {
      assert Decimal.AllDigits(s) && Decimal.IsDigit(s[0]);
      assert SkipSpaces(s) == s;
      LeadingDigitsOfDigits(s);
    }
  }

  /** The digits of d followed by text that does not start with a digit: the leading digits are d. */
  lemma {:induction false} LeadingDigitsStop(d: string, rest: string)
    requires Decimal.AllDigits(d)
    requires rest == [] || !Decimal.IsDigit(rest[0])
    ensures LeadingDigits(d + rest) == d
  {
    if d != [] {
      assert (d + rest)[1..] == d[1..] + rest;
      LeadingDigitsStop(d[1..], rest);
    }
  }

  /** Trailing text after the digits is ignored: "12abc" reads as 12. */
  lemma LeadingIntegerIgnoresTrailingText(d: string, rest: string)
    requires d != [] && Decimal.AllDigits(d)
    requires rest == [] || !Decimal.IsDigit(rest[0])
    ensures LeadingInteger(d + rest) == Decimal.DigitsValue(d)
  {
    assert (d + rest)[0] == d[0];
    assert SkipSpaces(d + rest) == d + rest;
    LeadingDigitsStop(d, rest);
  }

  /** A sign before the digits is accepted: "+12" reads as 12 and "-12" as -12. */
  lemma LeadingIntegerSigned(sign: char, d: string, rest: string)
    requires sign == '+' || sign == '-'
    requires Decimal.AllDigits(d)
    requires rest == [] || !Decimal.IsDigit(rest[0])
    ensures LeadingInteger([sign] + d + rest) ==
            if sign == '-' then 0 - Decimal.DigitsValue(d) else Decimal.DigitsValue(d)
  {
    var s := [sign] + d + rest;
    assert s[0] == sign && s[1..] == d + rest;
    assert SkipSpaces(s) == s;
    LeadingDigitsStop(d, rest);
  }

  /** A string that starts with neither whitespace, a sign nor a digit reads as 0. */
  lemma LeadingIntegerWithoutDigits(s: string)
    requires s == [] || (!IsSpace(s[0]) && s[0] != '+' && s[0] != '-' && !Decimal.IsDigit(s[0]))
    ensures LeadingInteger(s) == 0
  {
    assert SkipSpaces(s) == s;
    assert LeadingDigits(s) == [];
  }

  function AsciiLower(c: char): char {
    if 'A' <= c <= 'Z' then (c as int - 'A' as int + 'a' as int) as char else c
  }

  function LowerCased(s: string): (t: string)
    ensures |t| == |s| && forall i :: 0 <= i < |s| ==> t[i] == AsciiLower(s[i])
  {
    if s == [] then [] else [AsciiLower(s[0])] + LowerCased(s[1..])
  }

  /**
   * A stored string read as a Bool: "true" and "YES" in any letter case are
   * true, "false" and "NO" false; any other string is true when it reads as a
   * non-zero integer.
   */
  function BoolFromString(s: string): bool {
    var w := LowerCased(s);
    if w == "true" || w == "yes" then true
    else if w == "false" || w == "no" then false
    else LeadingInteger(s) != 0
  }

  /** "YES" in capitals reads as true. */
  lemma BoolFromStringYes()
    ensures BoolFromString("YES")
  {
    var s := "YES";
    assert s[1..] == "ES" && s[1..][1..] == "S";
    assert LowerCased(s) == "yes";
  }

  /** "NO" in capitals reads as false. */
  lemma BoolFromStringNo()
    ensures !BoolFromString("NO")
  {
    var s := "NO";
    assert s[1..] == "O";
    assert LowerCased(s) == "no";
  }

  /** A number stored as its decimal text reads as true exactly when the number is non-zero. */
  lemma BoolFromNumberText(n: int)
    ensures BoolFromString(Decimal.IntToString(n)) <==> n != 0
  {
    var s := Decimal.IntToString(n);
    Decimal.ParseIntToString(n);
    LeadingIntegerAgreesWithDecimal(s);
    assert s[0] == '-' || Decimal.IsDigit(s[0]);
    var w := LowerCased(s);
    assert w[0] == s[0];
    assert w != "true" && w != "yes" && w != "false" && w != "no" by {
      assert "true"[0] == 't' && "yes"[0] == 'y' && "false"[0] == 'f' && "no"[0] == 'n';
    }
  }

  // ---------------------------------------------------------------------
  // The store's typed readers

  /** `integer(forKey:)`: 0 for a missing key; a Bool reads as 1 or 0, a string by `LeadingInteger`. */
  function IntegerFor(st: Store, key: string): int {
    if key !in st then 0
    else match st[key]
      case IntValue(i) => i
      case BoolValue(b) => if b then 1 else 0
      case StringValue(s) => LeadingInteger(s)
  }

  /** `bool(forKey:)`: false for a missing key; a number reads as true when non-zero, a string by `BoolFromString`. */
  function BoolFor(st: Store, key: string): bool {
    key in st &&
    match st[key]
    case IntValue(i) => i != 0
    case BoolValue(b) => b
    case StringValue(s) => BoolFromString(s)
  }

  /** `string(forKey:)`: nil for a missing key; numbers (Bools as 1 or 0) are rendered in decimal. */
  function StringFor(st: Store, key: string): Option<string> {
    if key !in st then None
    else match st[key]
      case IntValue(i) => Some(Decimal.IntToString(i))
      case BoolValue(b) => Some(if b then "1" else "0")
      case StringValue(s) => Some(s)
  }

  // ---------------------------------------------------------------------
  // Loading and persisting

  datatype SettingsValues = SettingsValues(
    port: UInt16,
    authToken: string,
    autoStart: bool,
    homeKitEnabled: bool,
    onboardingComplete: bool)

  /** `UInt16(storedPort)` traps when the stored integer does not fit in 16 bits. */
  datatype LoadError = PortOutOfRange(stored: int)

  /** A Bool field: false when the key is absent, the stored Bool otherwise. */
  function LoadFlag(st: Store, key: string): (b: bool)
    ensures key !in st ==> !b
    ensures key in st && st[key].BoolValue? ==> b == st[key].b
    ensures key in st && st[key].IntValue? ==> (b <==> st[key].i != 0)
    ensures key in st && st[key].StringValue? ==> b == BoolFromString(st[key].s)
  {
    if key !in st then false else BoolFor(st, key)
  }

  /** What both initializers read from the store. */
  function Load(st: Store): (r: Result<SettingsValues, LoadError>)
    ensures r.Ok? <==> 0 <= IntegerFor(st, PortKey) < 0x1_0000
    ensures r.Err? ==> r.error == PortOutOfRange(IntegerFor(st, PortKey))
    ensures PortKey !in st ==> r.Ok? && r.value.port == DefaultPort
    ensures r.Ok? && IntegerFor(st, PortKey) == 0 ==> r.value.port == DefaultPort
    ensures r.Ok? && IntegerFor(st, PortKey) != 0 ==> r.value.port == IntegerFor(st, PortKey)
    ensures r.Ok? && AuthTokenKey !in st ==> r.value.authToken == ""
    ensures r.Ok? && AuthTokenKey in st && st[AuthTokenKey].StringValue? ==> r.value.authToken == st[AuthTokenKey].s
    ensures r.Ok? && AuthTokenKey in st && st[AuthTokenKey].IntValue? ==> r.value.authToken == Decimal.IntToString(st[AuthTokenKey].i)
    ensures r.Ok? && AuthTokenKey in st && st[AuthTokenKey].BoolValue? ==> r.value.authToken == (if st[AuthTokenKey].b then "1" else "0")
    ensures r.Ok? ==> r.value.autoStart == LoadFlag(st, AutoStartKey)
    ensures r.Ok? ==> r.value.homeKitEnabled == LoadFlag(st, HomeKitEnabledKey)
    ensures r.Ok? ==> r.value.onboardingComplete == LoadFlag(st, OnboardingCompleteKey)
  {
    var storedPort := IntegerFor(st, PortKey);
    if !(0 <= storedPort < 0x1_0000) then Err(PortOutOfRange(storedPort))
    else
      Ok(SettingsValues(
        if storedPort == 0 then DefaultPort else storedPort,
        StringFor(st, AuthTokenKey).GetOr(""),
        LoadFlag(st, AutoStartKey),
        LoadFlag(st, HomeKitEnabledKey),
        LoadFlag(st, OnboardingCompleteKey)))
  }

  /** A port stored as its decimal text, as `defaults write` stores it, loads as that port. */
  lemma LoadReadsTextPort(st: Store, n: int)
    requires PortKey in st && st[PortKey] == StringValue(Decimal.IntToString(n))
    ensures Load(st).Ok? <==> 0 <= n < 0x1_0000
    ensures Load(st).Ok? && n != 0 ==> Load(st).value.port == n
  {
    Decimal.ParseIntToString(n);
    LeadingIntegerAgreesWithDecimal(Decimal.IntToString(n));
  }

  /** What a fresh instance reads back after v was persisted: a port of 0 is indistinguishable from "unset". */
  function Reloaded(v: SettingsValues): (w: SettingsValues)
    ensures w.port != 0
    ensures v.port != 0 ==> w == v
  {
    if v.port == 0 then v.(port := DefaultPort) else v
  }

  /**
   * `persist`: all five keys written with the current values, every other key
   * of the store left alone. Reading the store back yields the same values.
   */
  function Persisted(st: Store, v: SettingsValues): (st': Store)
    ensures st'.Keys == st.Keys + Keys()
    ensures forall k :: k in st && k !in Keys() ==> st'[k] == st[k]
    ensures st'[PortKey] == IntValue(v.port) && st'[AuthTokenKey] == StringValue(v.authToken)
    ensures st'[AutoStartKey] == BoolValue(v.autoStart) && st'[HomeKitEnabledKey] == BoolValue(v.homeKitEnabled)
    ensures st'[OnboardingCompleteKey] == BoolValue(v.onboardingComplete)
    ensures Load(st') == Ok(Reloaded(v))
  {
    st[PortKey := IntValue(v.port)]
      [AuthTokenKey := StringValue(v.authToken)]
      [AutoStartKey := BoolValue(v.autoStart)]
      [HomeKitEnabledKey := BoolValue(v.homeKitEnabled)]
      [OnboardingCompleteKey := BoolValue(v.onboardingComplete)]
  }

  /** Persisting twice is the same as persisting the later values once. */
  lemma PersistOverwrites(st: Store, v: SettingsValues, w: SettingsValues)
    ensures Persisted(Persisted(st, v), w) == Persisted(st, w)
  {
  }

  /** An empty store loads with every default off (and the default port). */
  lemma EmptyStoreDefaults()
    ensures Load(map[]) == Ok(SettingsValues(DefaultPort, "", false, false, false))
  {
  }

  // ---------------------------------------------------------------------
  // The objects

  /** A `UserDefaults` domain, shared by every settings instance built over it. */
  class UserDefaults {
    var entries: Store

    constructor (entries: Store)
      ensures this.entries == entries
    {
      this.entries := entries;
    }
  }

  class Settings {
    var port: UInt16
    var authToken: string
    var autoStart: bool
    var homeKitEnabled: bool
    var onboardingComplete: bool
    const defaults: UserDefaults
    var isLoading: bool

    function Values(): SettingsValues
      reads this
    {
      SettingsValues(port, authToken, autoStart, homeKitEnabled, onboardingComplete)
    }

    /**
     * `init(defaults:)` (and `init()`, which is the same over the standard
     * domain): load every field; nothing is written back while loading.
     */
    constructor (defaults: UserDefaults)
      requires Load(defaults.entries).Ok?
      ensures this.defaults == defaults && !isLoading
      ensures Values() == Load(defaults.entries).value
    {
      this.defaults := defaults;
      isLoading := true;
      var storedPort := IntegerFor(defaults.entries, PortKey);
      port := if storedPort == 0 then DefaultPort else storedPort;
      authToken := StringFor(defaults.entries, AuthTokenKey).GetOr("");
      if AutoStartKey !in defaults.entries {
        autoStart := false;
      } else {
        autoStart := BoolFor(defaults.entries, AutoStartKey);
      }
      if HomeKitEnabledKey !in defaults.entries {
        homeKitEnabled := false;
      } else {
        homeKitEnabled := BoolFor(defaults.entries, HomeKitEnabledKey);
      }
      if OnboardingCompleteKey !in defaults.entries {
        onboardingComplete := false;
      } else {
        onboardingComplete := BoolFor(defaults.entries, OnboardingCompleteKey);
      }
      isLoading := false;
    }

    /** `persist`: write all five keys, unless still loading. */
    method Persist()
      modifies defaults
      ensures defaults.entries == if isLoading then old(defaults.entries) else Persisted(old(defaults.entries), Values())
      ensures !isLoading ==> Load(defaults.entries) == Ok(Reloaded(Values()))
    {
      if isLoading {
        return;
      }
      defaults.entries := defaults.entries[PortKey := IntValue(port)];
      defaults.entries := defaults.entries[AuthTokenKey := StringValue(authToken)];
      defaults.entries := defaults.entries[AutoStartKey := BoolValue(autoStart)];
      defaults.entries := defaults.entries[HomeKitEnabledKey := BoolValue(homeKitEnabled)];
      defaults.entries := defaults.entries[OnboardingCompleteKey := BoolValue(onboardingComplete)];
    }

    /** Assigning `port`; its `didSet` persists. */
    method SetPort(p: UInt16)
      modifies this`port, defaults
      ensures Values() == old(Values()).(port := p)
      ensures defaults.entries == if isLoading then old(defaults.entries) else Persisted(old(defaults.entries), Values())
    {
      port := p;
      Persist();
    }

    method SetAuthToken(token: string)
      modifies this`authToken, defaults
      ensures Values() == old(Values()).(authToken := token)
      ensures defaults.entries == if isLoading then old(defaults.entries) else Persisted(old(defaults.entries), Values())
    {
      authToken := token;
      Persist();
    }

    method SetAutoStart(enabled: bool)
      modifies this`autoStart, defaults
      ensures Values() == old(Values()).(autoStart := enabled)
      ensures defaults.entries == if isLoading then old(defaults.entries) else Persisted(old(defaults.entries), Values())
    {
      autoStart := enabled;
      Persist();
    }

    method SetHomeKitEnabled(enabled: bool)
      modifies this`homeKitEnabled, defaults
      ensures Values() == old(Values()).(homeKitEnabled := enabled)
      ensures defaults.entries == if isLoading then old(defaults.entries) else Persisted(old(defaults.entries), Values())
    {
      homeKitEnabled := enabled;
      Persist();
    }

    method SetOnboardingComplete(complete: bool)
      modifies this`onboardingComplete, defaults
      ensures Values() == old(Values()).(onboardingComplete := complete)
      ensures defaults.entries == if isLoading then old(defaults.entries) else Persisted(old(defaults.entries), Values())
    {
      onboardingComplete := complete;
      Persist();
    }

    /** `diagnostics`: the fields, with the token reduced to whether one is set. */
    function Diagnostics(): (d: map<string, Value>)
      reads this
      ensures d.Keys == {"port", "authTokenSet", "autoStart", "homeKitEnabled", "onboardingComplete"}
      ensures d["authTokenSet"] == BoolValue(authToken != "")
      ensures d["port"] == IntValue(port) && d["autoStart"] == BoolValue(autoStart)
      ensures d["homeKitEnabled"] == BoolValue(homeKitEnabled) && d["onboardingComplete"] == BoolValue(onboardingComplete)
    {
      map["port" := IntValue(port), "authTokenSet" := BoolValue(authToken != ""),
          "autoStart" := BoolValue(autoStart), "homeKitEnabled" := BoolValue(homeKitEnabled),
          "onboardingComplete" := BoolValue(onboardingComplete)]
    }
  }

  /**
   * Values set on one instance are read back by a fresh instance over the same
   * store: the three flags of the persistence scenario, set after loading an empty store.
   */
  method FlagsPersistAcrossInstances(defaults: UserDefaults) returns (reloaded: Settings)
    requires defaults.entries == map[]
    modifies defaults
    ensures reloaded.defaults == defaults
    ensures reloaded.homeKitEnabled && reloaded.onboardingComplete && reloaded.autoStart
    ensures reloaded.port == DefaultPort && reloaded.authToken == ""
  {
    var settings := new Settings(defaults);
    settings.SetHomeKitEnabled(true);
    settings.SetOnboardingComplete(true);
    settings.SetAutoStart(true);
    reloaded := new Settings(defaults);
  }
}
