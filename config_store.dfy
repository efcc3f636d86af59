/**
 * load_config and save_config of Toy_Controller.py with the file and JSON
 * I/O stripped: the settings are two int-keyed maps and a position range;
 * the file holds the same maps with string keys.
 */
module ConfigStore {
  import opened Wrappers
  import opened Decimal

  /** The persisted module globals: PISTON_SPEED_MAP, VIBE_STRENGTH_MAP,
      piston_pos_min and piston_pos_max. */
  datatype Settings = Settings(
    pistonSpeed: map<int, real>,
    vibeStrength: map<int, real>,
    posMin: real,
    posMax: real)

  const DefaultPistonSpeed: map<int, real> := map[1 := 0.9, 2 := 0.5, 3 := 0.4]
  const DefaultVibeStrength: map<int, real> := map[1 := 0.5, 2 := 1.0]
  const DefaultPosMin: real := 0.0
  const DefaultPosMax: real := 0.8
  const Defaults: Settings := Settings(DefaultPistonSpeed, DefaultVibeStrength, DefaultPosMin, DefaultPosMax)

  /** Every mode the defaults know has an entry: what the sliders, whose
      handlers index the maps by mode, and the save/load round trip rely on. */
  predicate DefaultsPresent(s: Settings) {
    DefaultPistonSpeed.Keys <= s.pistonSpeed.Keys && DefaultVibeStrength.Keys <= s.vibeStrength.Keys
  }

  /** The items of a JSON object as `json.load` returns them, in file order. */
  type Entries = seq<(string, real)>

  /** The three top-level keys of the config file; None is an absent key. */
  datatype ConfigFile = ConfigFile(
    pistonSpeed: Option<Entries>,
    pistonRange: Option<map<string, real>>,
    vibeStrength: Option<Entries>)

  /** What opening and parsing the file gives: FileNotFoundError,
      json.JSONDecodeError, or the parsed object. */
  datatype FileRead = NotFound | NotJson | Parsed(file: ConfigFile)

  /** The object save_config writes. */
  datatype SavedConfig = SavedConfig(
    pistonSpeed: map<string, real>,
    pistonRange: map<string, real>,
    vibeStrength: map<string, real>)

  /** How load_config ends: the file was merged over the defaults; the file
      was unreadable, so the settings are kept and written back; or `int(k)`
      raised on a key and the ValueError escapes, after the assignments that
      came before it. */
  datatype LoadOutcome =
    | Loaded(settings: Settings)
    | Unreadable(settings: Settings, rewritten: SavedConfig)
    | BadKey(settings: Settings, key: string)

  lemma IntToStrIsInjective()
    ensures forall a, b :: IntToStr(a) == IntToStr(b) ==> a == b
  {
    forall a, b ensures IntToStr(a) == IntToStr(b) ==> a == b {
      IntToStrInjective(a, b);
    }
  }

  /** `{str(k): v for k, v in m.items()}`. */
  function StrKeyed(m: map<int, real>): (r: map<string, real>)
    ensures r.Keys == set k | k in m :: IntToStr(k)
    ensures forall k :: k in m ==> r[IntToStr(k)] == m[k]
  {
    IntToStrIsInjective();
    map k | k in m :: IntToStr(k) := m[k]
  }

  /** `int(str(k)) == k`, for every k at once. */
  lemma ParseIntOfIntToStrAll()
    ensures forall k :: ParseInt(IntToStr(k)) == Some(k)
  {
    forall k ensures ParseInt(IntToStr(k)) == Some(k) {
      ParseIntOfIntToStr(k);
    }
  }

  /** save_config's payload: every saved map key reads back with `int` as a
      key of the settings, carrying that key's value, and the range is saved
      under "min" and "max". */
  function SaveConfig(s: Settings): (r: SavedConfig)
    ensures forall key :: key in r.pistonSpeed ==>
      ParseInt(key).Some? && ParseInt(key).value in s.pistonSpeed
      && r.pistonSpeed[key] == s.pistonSpeed[ParseInt(key).value]
    ensures forall key :: key in r.vibeStrength ==>
      ParseInt(key).Some? && ParseInt(key).value in s.vibeStrength
      && r.vibeStrength[key] == s.vibeStrength[ParseInt(key).value]
    ensures "min" in r.pistonRange && r.pistonRange["min"] == s.posMin
    ensures "max" in r.pistonRange && r.pistonRange["max"] == s.posMax
  {
    ParseIntOfIntToStrAll();
    SavedConfig(
      StrKeyed(s.pistonSpeed),
      map["min" := s.posMin, "max" := s.posMax],
      StrKeyed(s.vibeStrength))
  }

  /** The keys of a list of entries. */
  function KeysOf(es: Entries): set<string> {
    set i | 0 <= i < |es| :: es[i].0
  }

  /** The ints that the parsable keys of a list of entries denote. */
  function ParsedKeys(es: Entries): set<int> {
    set i | 0 <= i < |es| && ParseInt(es[i].0).Some? :: ParseInt(es[i].0).value
  }

  /** `{int(k): v for k, v in items}`, with Err naming the key on which
      `int` raises. */
  function IntKeyed(es: Entries): (r: Result<map<int, real>, string>)
    ensures r.Err? ==> r.error in KeysOf(es) && ParseInt(r.error).None?
  {
    if es == [] then Ok(map[])
    else
      match IntKeyed(es[..|es| - 1])
      case Err(k) => Err(k)
      case Ok(m) =>
        var last := es[|es| - 1];
        match ParseInt(last.0)
        case None => Err(last.0)
        case Some(n) => Ok(m[n := last.1])
  }

  /** The conversion succeeds exactly when every key reads as an int, and then
      its keys are the ints the keys denote; otherwise it fails on the first
      key that does not read. */
  lemma {:induction false} IntKeyedKeys(es: Entries)
    ensures IntKeyed(es).Ok? <==> forall i :: 0 <= i < |es| ==> ParseInt(es[i].0).Some?
    ensures IntKeyed(es).Ok? ==> IntKeyed(es).value.Keys == ParsedKeys(es)
    ensures IntKeyed(es).Err? ==>
      exists i :: 0 <= i < |es| && es[i].0 == IntKeyed(es).error && ParseInt(es[i].0).None?
                  && forall j :: 0 <= j < i ==> ParseInt(es[j].0).Some?
  {
    if es != [] {
      var init, last := es[..|es| - 1], es[|es| - 1];
      assert forall i :: 0 <= i < |init| ==> init[i] == es[i];
      IntKeyedKeys(init);
      if IntKeyed(init).Ok? && ParseInt(last.0).Some? {
        assert ParsedKeys(es) == ParsedKeys(init) + {ParseInt(last.0).value} by {
          assert forall i :: 0 <= i < |es| ==> i < |init| || es[i] == last;
        }
      }
    }
  }

  /** load_config: starting from the current settings, merge the file's maps
      over the built-in defaults (`{**defaults, **loaded}`) and read the range
      with 0.0 and 0.8 as fallbacks. */
  function LoadConfig(current: Settings, read: FileRead): (r: LoadOutcome)
    ensures r.Loaded? ==> DefaultsPresent(r.settings)
    ensures DefaultsPresent(current) ==> DefaultsPresent(r.settings)
    ensures r.BadKey? ==> ParseInt(r.key).None?
  {
    match read
    case NotFound => Unreadable(current, SaveConfig(current))
    case NotJson => Unreadable(current, SaveConfig(current))
    case Parsed(f) =>
      match IntKeyed(f.pistonSpeed.GetOr([]))
      case Err(k) => BadKey(current, k)
      case Ok(ps) =>
        var speeds := DefaultPistonSpeed + ps;
        match IntKeyed(f.vibeStrength.GetOr([]))
        case Err(k) => BadKey(current.(pistonSpeed := speeds), k)
        case Ok(vs) =>
          var range := f.pistonRange.GetOr(map[]);
          Loaded(Settings(
            speeds,
            DefaultVibeStrength + vs,
            MapGet(range, "min", DefaultPosMin),
            MapGet(range, "max", DefaultPosMax)))
  }

  /** A missing or unparsable file keeps the current settings and writes them
      back; an aborted load never touches the vibe strengths or the range. */
  lemma LoadFallbacks(current: Settings, read: FileRead)
    ensures var r := LoadConfig(current, read);
      && (!read.Parsed? ==> r.Unreadable? && r.settings == current && r.rewritten == SaveConfig(current))
      && (r.BadKey? ==> read.Parsed? && r.settings.vibeStrength == current.vibeStrength
                        && r.settings.posMin == current.posMin && r.settings.posMax == current.posMax)
  {
  }

  /** After a successful load each map's keys are the default keys together
      with the file's keys; a file value overrides the default for its key and
      every other default survives. A missing range bound falls back to its
      default. */
  lemma LoadOverlaysDefaults(current: Settings, f: ConfigFile)
    requires LoadConfig(current, Parsed(f)).Loaded?
    ensures var s := LoadConfig(current, Parsed(f)).settings;
      var ps, vs := IntKeyed(f.pistonSpeed.GetOr([])).value, IntKeyed(f.vibeStrength.GetOr([])).value;
      && s.pistonSpeed.Keys == DefaultPistonSpeed.Keys + ParsedKeys(f.pistonSpeed.GetOr([]))
      && (forall k :: k in ps ==> s.pistonSpeed[k] == ps[k])
      && (forall k :: k in DefaultPistonSpeed && k !in ps ==> s.pistonSpeed[k] == DefaultPistonSpeed[k])
      && s.vibeStrength.Keys == DefaultVibeStrength.Keys + ParsedKeys(f.vibeStrength.GetOr([]))
      && (forall k :: k in vs ==> s.vibeStrength[k] == vs[k])
      && (forall k :: k in DefaultVibeStrength && k !in vs ==> s.vibeStrength[k] == DefaultVibeStrength[k])
      && (f.pistonRange.None? || "min" !in f.pistonRange.value ==> s.posMin == 0.0)
      && (f.pistonRange.None? || "max" !in f.pistonRange.value ==> s.posMax == 0.8)
      && (f.pistonRange.Some? && "min" in f.pistonRange.value ==> s.posMin == f.pistonRange.value["min"])
      && (f.pistonRange.Some? && "max" in f.pistonRange.value ==> s.posMax == f.pistonRange.value["max"])
  {
    IntKeyedKeys(f.pistonSpeed.GetOr([]));
    IntKeyedKeys(f.vibeStrength.GetOr([]));
  }

  /** A piston-speed key `int` cannot read aborts the load before anything
      is assigned, naming a key `int` cannot read. */
  lemma LoadRejectsBadKey(current: Settings, f: ConfigFile, i: nat)
    requires f.pistonSpeed.Some? && i < |f.pistonSpeed.value|
    requires ParseInt(f.pistonSpeed.value[i].0).None?
    ensures LoadConfig(current, Parsed(f)).BadKey?
    ensures LoadConfig(current, Parsed(f)).settings == current
    ensures ParseInt(LoadConfig(current, Parsed(f)).key).None?
  {
    IntKeyedKeys(f.pistonSpeed.value);
  }

  /** A bad vibe-strength key, with every piston-speed key readable, aborts
      the load after the piston speeds have been merged over the defaults. */
  lemma LoadRejectsBadVibeKey(current: Settings, f: ConfigFile, i: nat)
    requires forall j :: 0 <= j < |f.pistonSpeed.GetOr([])| ==> ParseInt(f.pistonSpeed.GetOr([])[j].0).Some?
    requires f.vibeStrength.Some? && i < |f.vibeStrength.value|
    requires ParseInt(f.vibeStrength.value[i].0).None?
    ensures IntKeyed(f.pistonSpeed.GetOr([])).Ok?
    ensures LoadConfig(current, Parsed(f)).BadKey?
    ensures LoadConfig(current, Parsed(f)).settings
         == current.(pistonSpeed := DefaultPistonSpeed + IntKeyed(f.pistonSpeed.GetOr([])).value)
  {
    IntKeyedKeys(f.pistonSpeed.GetOr([]));
    IntKeyedKeys(f.vibeStrength.value);
  }

  /** `es` lists exactly the items of the JSON object `obj`. */
  predicate Lists(es: Entries, obj: map<string, real>) {
    && KeysOf(es) == obj.Keys
    && forall i :: 0 <= i < |es| ==> es[i].0 in obj && obj[es[i].0] == es[i].1
  }

  /** `f` is what json.load gives back for the object save_config wrote, its
      items in any order. */
  predicate ReadsBack(f: ConfigFile, saved: SavedConfig) {
    && f.pistonSpeed.Some? && Lists(f.pistonSpeed.value, saved.pistonSpeed)
    && f.vibeStrength.Some? && Lists(f.vibeStrength.value, saved.vibeStrength)
    && f.pistonRange == Some(saved.pistonRange)
  }

  /** Entry `e` is key `k` of `m` printed with `str`, with its value. */
  predicate PrintedEntry(e: (string, real), m: map<int, real>) {
    && ParseInt(e.0).Some?
    && ParseInt(e.0).value in m
    && IntToStr(ParseInt(e.0).value) == e.0
    && m[ParseInt(e.0).value] == e.1
  }

  /** The items of the saved object are printed entries of the map saved. */
  lemma ListedEntriesArePrinted(es: Entries, m: map<int, real>)
    requires Lists(es, StrKeyed(m))
    ensures forall i :: 0 <= i < |es| ==> PrintedEntry(es[i], m)
  {
    forall i | 0 <= i < |es|
      ensures PrintedEntry(es[i], m)
    {
      assert es[i].0 in StrKeyed(m).Keys;
      assert es[i].0 in set k | k in m :: IntToStr(k);
      var k :| k in m && IntToStr(k) == es[i].0;
      ParseIntOfIntToStr(k);
    }
  }

  /** Reading back printed entries of `m` with `int(k)` recovers the part of
      `m` whose printed keys the entries list. */
  lemma {:induction false} IntKeyedOfPrinted(es: Entries, m: map<int, real>)
    requires forall i :: 0 <= i < |es| ==> PrintedEntry(es[i], m)
    ensures IntKeyed(es) == Ok(map k | k in m && IntToStr(k) in KeysOf(es) :: m[k])
  {
    if es == [] {
      assert (map k | k in m && IntToStr(k) in KeysOf(es) :: m[k]) == map[];
    } else {
      var init, last := es[..|es| - 1], es[|es| - 1];
      assert es == init + [last];
      assert PrintedEntry(last, m);
      assert forall i :: 0 <= i < |init| ==> init[i] == es[i];
      IntKeyedOfPrinted(init, m);
      var k := ParseInt(last.0).value;
      assert IntKeyed(es) == Ok((map j | j in m && IntToStr(j) in KeysOf(init) :: m[j])[k := m[k]]);
      KeysOfSnoc(init, last);
      RestrictionGrows(m, KeysOf(init), k);
    }
  }

  lemma KeysOfSnoc(es: Entries, e: (string, real))
    ensures KeysOf(es + [e]) == KeysOf(es) + {e.0}
  {
    var all := es + [e];
    forall x | x in KeysOf(all)
      ensures x in KeysOf(es) + {e.0}
    {
      var i :| 0 <= i < |all| && all[i].0 == x;
      if i < |es| {
        assert es[i].0 == x;
      }
    }
    forall x | x in KeysOf(es) + {e.0}
      ensures x in KeysOf(all)
    {
      if x == e.0 {
        assert all[|es|].0 == x;
      } else {
        var i :| 0 <= i < |es| && es[i].0 == x;
        assert all[i].0 == x;
      }
    }
  }

  /** Adding one printed key to the restriction adds exactly its int key. */
  lemma RestrictionGrows(m: map<int, real>, keys: set<string>, k: int)
    requires k in m
    ensures (map j | j in m && IntToStr(j) in keys + {IntToStr(k)} :: m[j])
         == (map j | j in m && IntToStr(j) in keys :: m[j])[k := m[k]]
  {
    forall j | j in m
      ensures IntToStr(j) in keys + {IntToStr(k)} <==> IntToStr(j) in keys || j == k
    {
      IntToStrInjective(j, k);
    }
  }

  /** Restricting a map to all of its printed keys gives the map back. */
  lemma RestrictionToAllKeys(m: map<int, real>, keys: set<string>)
    requires keys == StrKeyed(m).Keys
    ensures (map k | k in m && IntToStr(k) in keys :: m[k]) == m
  {
  }

  /** Merging over defaults whose keys are all present changes nothing. */
  lemma MergeOverCoveredDefaults(d: map<int, real>, m: map<int, real>)
    requires d.Keys <= m.Keys
    ensures d + m == m
  {
  }

  /** Save then load: the loaded settings are the saved ones with any
      default key they lack filled in. */
  lemma {:induction false} SaveLoadRoundTrip(s: Settings, current: Settings, f: ConfigFile)
    requires ReadsBack(f, SaveConfig(s))
    ensures LoadConfig(current, Parsed(f)) ==
      Loaded(s.(pistonSpeed := DefaultPistonSpeed + s.pistonSpeed,
                vibeStrength := DefaultVibeStrength + s.vibeStrength))
  {
    var ps, vs := f.pistonSpeed.value, f.vibeStrength.value;
    ListedEntriesArePrinted(ps, s.pistonSpeed);
    ListedEntriesArePrinted(vs, s.vibeStrength);
    IntKeyedOfPrinted(ps, s.pistonSpeed);
    IntKeyedOfPrinted(vs, s.vibeStrength);
    RestrictionToAllKeys(s.pistonSpeed, KeysOf(ps));
    RestrictionToAllKeys(s.vibeStrength, KeysOf(vs));
  }

  /** When the saved maps already hold every default key, save then load is
      the identity. */
  lemma SaveLoadIdentity(s: Settings, current: Settings, f: ConfigFile)
    requires ReadsBack(f, SaveConfig(s))
    requires DefaultsPresent(s)
    ensures LoadConfig(current, Parsed(f)) == Loaded(s)
  {
    SaveLoadRoundTrip(s, current, f);
    MergeOverCoveredDefaults(DefaultPistonSpeed, s.pistonSpeed);
    MergeOverCoveredDefaults(DefaultVibeStrength, s.vibeStrength);
  }
}
