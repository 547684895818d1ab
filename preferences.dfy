/**
 * The clock's preference record: how loadSettings fills it from the stored
 * object field by field, what saveSettings writes, and the two cosmetic
 * toggles (theme and accent).
 */
module Preferences {
  import opened Optional

  /** The five preferences as the clock object holds them. */
  datatype Settings = Settings(
    is24Hour: bool,
    timezone: string,
    smoothAnimation: bool,
    theme: string,
    accent: string)

  /**
   * The object stored under "digitalClock:settings". None stands for a
   * property that is missing from it; a value is of the type saveSettings
   * writes for that property.
   */
  datatype SettingsRecord = SettingsRecord(
    is24Hour: Option<bool>,
    timezone: Option<string>,
    smoothAnimation: Option<bool>,
    theme: Option<string>,
    accent: Option<string>)

  /** The preferences the constructor starts from and loadSettings falls back to. */
  const Defaults: Settings := Settings(false, "local", true, "dark", "teal")

  /** What `JSON.parse("{}")` gives when nothing is stored. */
  const EmptyRecord: SettingsRecord := SettingsRecord(None, None, None, None, None)

  /** `v || false` */
  function TruthyOrFalse(v: Option<bool>): bool
  {
    v == Some(true)
  }

  /** `v || fallback`: a missing value and the empty string are both falsy. */
  function StringOr(v: Option<string>, fallback: string): string
  {
    if v.Some? && v.value != "" then v.value else fallback
  }

  /** `v !== false` */
  function NotFalse(v: Option<bool>): bool
  {
    v != Some(false)
  }

  /** The preferences loadSettings assigns from a parsed record. */
  function FromRecord(r: SettingsRecord): (s: Settings)
    ensures s.timezone != "" && s.theme != "" && s.accent != ""
    ensures r.timezone.Some? && r.timezone.value != "" ==> s.timezone == r.timezone.value
    ensures r.timezone == Some("") ==> s.timezone == "local"
    ensures r.theme.Some? && r.theme.value != "" ==> s.theme == r.theme.value
    ensures r.theme == Some("") ==> s.theme == "dark"
    ensures r.accent.Some? && r.accent.value != "" ==> s.accent == r.accent.value
    ensures r.accent == Some("") ==> s.accent == "teal"
    ensures s.is24Hour <==> r.is24Hour == Some(true)
    ensures !s.smoothAnimation <==> r.smoothAnimation == Some(false)
  {
    Settings(
      TruthyOrFalse(r.is24Hour),
      StringOr(r.timezone, "local"),
      NotFalse(r.smoothAnimation),
      StringOr(r.theme, "dark"),
      StringOr(r.accent, "teal"))
  }

  /** The record saveSettings writes: every property present. */
  function ToRecord(s: Settings): SettingsRecord
  {
    SettingsRecord(Some(s.is24Hour), Some(s.timezone), Some(s.smoothAnimation), Some(s.theme), Some(s.accent))
  }

  /** Preferences whose strings survive the `||` fallbacks of a reload. */
  predicate Storable(s: Settings)
  {
    s.timezone != "" && s.theme != "" && s.accent != ""
  }

  /** Loading from an empty store yields the defaults. */
  lemma EmptyRecordLoadsDefaults()
    ensures FromRecord(EmptyRecord) == Defaults
  {
  }

  /** Each missing property is filled on its own with its default, whatever the others hold. */
  lemma MissingFieldsGetDefaults(r: SettingsRecord)
    ensures r.is24Hour.None? ==> !FromRecord(r).is24Hour
    ensures r.timezone.None? ==> FromRecord(r).timezone == "local"
    ensures r.smoothAnimation.None? ==> FromRecord(r).smoothAnimation
    ensures r.theme.None? ==> FromRecord(r).theme == "dark"
    ensures r.accent.None? ==> FromRecord(r).accent == "teal"
  {
  }

  /** Saving then loading restores the preferences exactly when none of their strings is empty. */
  lemma SaveLoadRoundTrip(s: Settings)
    ensures FromRecord(ToRecord(s)) == s <==> Storable(s)
  {
    if !Storable(s) {
      assert FromRecord(ToRecord(s)).timezone != s.timezone
          || FromRecord(ToRecord(s)).theme != s.theme
          || FromRecord(ToRecord(s)).accent != s.accent;
    }
  }

  // ---------------------------------------------------------------------------
  // Theme

  /** `theme === "dark" ? "light" : "dark"` */
  function NextTheme(theme: string): (r: string)
    ensures r == "dark" || r == "light"
    ensures r == "light" <==> theme == "dark"
  {
    if theme == "dark" then "light" else "dark"
  }

  /** Toggling twice returns to the start exactly for the two known themes. */
  lemma ThemeToggleTwice(theme: string)
    ensures NextTheme(NextTheme(theme)) == theme <==> theme == "dark" || theme == "light"
  {
  }

  // ---------------------------------------------------------------------------
  // Accent

  const Accents: seq<string> :=
    ["teal", "coral", "purple", "magenta", "lawngreen", "indigo", "maroon", "olive"]

  /** `xs.indexOf(x)`: the first position of x, or -1. */
  function IndexOf(xs: seq<string>, x: string): (i: int)
    ensures -1 <= i < |xs|
    ensures i == -1 <==> x !in xs
    ensures 0 <= i ==> xs[i] == x && x !in xs[..i]
  {
    if |xs| == 0 then -1
    else if xs[0] == x then 0
    else
      var j := IndexOf(xs[1..], x);
      if j == -1 then -1
      else
        assert xs[..j + 1] == [xs[0]] + xs[1..][..j];
        j + 1
  }

  /** The accents are pairwise distinct, so a listed accent has one position. */
  lemma AccentsDistinct()
    ensures forall i, j :: 0 <= i < j < |Accents| ==> Accents[i] != Accents[j]
  {
  }

  /** `accents[(accents.indexOf(accent) + 1) % accents.length]` */
  function NextAccent(accent: string): (r: string)
    ensures r in Accents
    ensures accent !in Accents ==> r == "teal"
  {
    Accents[(IndexOf(Accents, accent) + 1) % |Accents|]
  }

  /** The accent after the i-th listed one is the next in the list, the last wrapping to the first. */
  lemma NextAccentAt(i: nat)
    requires i < |Accents|
    ensures NextAccent(Accents[i]) == Accents[(i + 1) % |Accents|]
  {
    AccentsDistinct();
  }

  /** The accent after n presses of the accent toggle. */
  function ToggleAccentTimes(accent: string, n: nat): string
  {
    Iterate(NextAccent, accent, n)
  }

  /** step applied n times. */
  function Iterate(step: string -> string, s: string, n: nat): string
    decreases n
  {
    if n == 0 then s else step(Iterate(step, s, n - 1))
  }

  lemma ModSucc(k: nat)
    ensures (k % 8 + 1) % 8 == (k + 1) % 8
  {
  }

  lemma ModReturns(i: nat, n: nat)
    requires i < 8
    ensures (i + n) % 8 == i <==> n % 8 == 0
  {
  }

  /** A step that moves along an eight-entry list cyclically reaches entry (i + n) mod 8 after n steps from entry i. */
  lemma {:induction false} IterateAlongCycle(step: string -> string, xs: seq<string>, i: nat, n: nat)
    requires |xs| == 8 && i < |xs|
    requires forall j :: 0 <= j < |xs| ==> step(xs[j]) == xs[(j + 1) % 8]
    ensures Iterate(step, xs[i], n) == xs[(i + n) % 8]
    decreases n
  {
    if n > 0 {
      IterateAlongCycle(step, xs, i, n - 1);
      ModSucc(i + n - 1);
    }
  }

  /** n toggles from the i-th listed accent reach the (i + n) mod 8-th. */
  lemma ToggleAccentTimesAt(i: nat, n: nat)
    requires i < |Accents|
    ensures ToggleAccentTimes(Accents[i], n) == Accents[(i + n) % 8]
  {
    forall j | 0 <= j < |Accents|
      ensures NextAccent(Accents[j]) == Accents[(j + 1) % 8]
    {
      NextAccentAt(j);
    }
    IterateAlongCycle(NextAccent, Accents, i, n);
  }

  /** The accents form one cycle of length eight: n toggles return to a listed accent exactly when 8 divides n. */
  lemma AccentCycleHasLengthEight(accent: string, n: nat)
    requires accent in Accents
    ensures ToggleAccentTimes(accent, n) == accent <==> n % 8 == 0
  {
    var i :| 0 <= i < |Accents| && Accents[i] == accent;
    ToggleAccentTimesAt(i, n);
    var j := (i + n) % 8;
    ModReturns(i, n);
    if j != i {
      AccentsDistinct();
      assert Accents[j] != Accents[i];
    }
  }
}
