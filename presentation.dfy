/**
 * The applet's presentation mappers: the battery percentage and the screen
 * brightness are clamped into range and turned into discrete icon names.
 */
module Presentation {
  import opened Options
  import opened Decimal

  /** `f64::clamp(x, lo, hi)` for a number that is not NaN. */
  function Clamp(x: real, lo: real, hi: real): (r: real)
    requires lo <= hi
    ensures lo <= r <= hi
    ensures lo <= x <= hi ==> r == x
    ensures x < lo ==> r == lo
    ensures hi < x ==> r == hi
  {
    if x < lo then lo else if hi < x then hi else x
  }

  lemma ClampIdempotent(x: real, lo: real, hi: real)
    requires lo <= hi
    ensures Clamp(Clamp(x, lo, hi), lo, hi) == Clamp(x, lo, hi)
  {
  }

  // ---------------------------------------------------------------------------
  // Battery level icon

  const BatteryBuckets: set<nat> := {0, 5, 10, 20, 35, 50, 80, 90, 100}

  /** The level shown for a battery percentage: the first rung of the
      descending ladder whose threshold the percentage exceeds. The two top
      rungs, 100 and 90, are skipped while the charging limit is on. */
  function BatteryBucket(percent: real, chargingLimit: bool): (b: nat)
    ensures b in BatteryBuckets
    ensures chargingLimit ==> b <= 80
    ensures !chargingLimit && percent > 95.0 ==> b == 100
    ensures !chargingLimit && 80.0 < percent <= 95.0 ==> b == 90
    ensures percent <= 5.0 <==> b == 0
  {
    if percent > 95.0 && !chargingLimit then 100
    else if percent > 80.0 && !chargingLimit then 90
    else if percent > 65.0 then 80
    else if percent > 35.0 then 50
    else if percent > 20.0 then 35
    else if percent > 14.0 then 20
    else if percent > 9.0 then 10
    else if percent > 5.0 then 5
    else 0
  }

  /** The percentage a level's rung demands to be exceeded. */
  function Threshold(bucket: nat): real
    requires bucket in BatteryBuckets && bucket > 0
  {
    match bucket
    case 5 => 5.0
    case 10 => 9.0
    case 20 => 14.0
    case 35 => 20.0
    case 50 => 35.0
    case 80 => 65.0
    case 90 => 80.0
    case 100 => 95.0
  }

  /** The ladder read as thresholds: the level shown is at least `bucket`
      exactly when the percentage exceeds that level's threshold and, for
      the two top levels, the charging limit is off. */
  lemma BucketAtLeast(percent: real, chargingLimit: bool, bucket: nat)
    requires bucket in BatteryBuckets && bucket > 0
    ensures BatteryBucket(percent, chargingLimit) >= bucket
        <==> percent > Threshold(bucket) && (chargingLimit ==> bucket <= 80)
  {
  }

  /** More charge never shows a lower level. */
  lemma BucketMonotone(p: real, q: real, chargingLimit: bool)
    requires p <= q
    ensures BatteryBucket(p, chargingLimit) <= BatteryBucket(q, chargingLimit)
  {
  }

  /** Turning the charging limit on never raises the level shown. */
  lemma BucketLimitLowers(percent: real)
    ensures BatteryBucket(percent, true) <= BatteryBucket(percent, false)
    ensures BatteryBucket(percent, true) == BatteryBucket(percent, false) <==> percent <= 80.0
  {
  }

  const BatteryIconPrefix := "cosmic-applet-battery-level-"
  const LimitedInfix := "limited-"
  const ChargingInfix := "charging-"
  const SymbolicSuffix := "symbolic"

  /** The battery icon name for a level, with `limited-` when the charging
      limit is on and `charging-` when the machine is not on battery. */
  function BatteryIconName(bucket: nat, limited: bool, charging: bool): (r: string)
    ensures HasPrefix(r, BatteryIconPrefix)
  {
    var rest := Show(bucket) + "-" + BatteryIconTail(limited, charging);
    StripPrefix(BatteryIconPrefix, rest);
    assert BatteryIconPrefix + Show(bucket) + "-" + BatteryIconTail(limited, charging) == BatteryIconPrefix + rest;
    BatteryIconPrefix + Show(bucket) + "-" + BatteryIconTail(limited, charging)
  }

  /** What a battery icon name encodes. */
  datatype BatteryIcon = BatteryIcon(bucket: nat, limited: bool, charging: bool)

  predicate HasPrefix(s: string, prefix: string) {
    |prefix| <= |s| && s[..|prefix|] == prefix
  }

  predicate HasSuffix(s: string, suffix: string) {
    |suffix| <= |s| && s[|s| - |suffix|..] == suffix
  }

  /** The optional infixes and the suffix of a battery icon name. */
  function BatteryIconTail(limited: bool, charging: bool): string {
    (if limited then LimitedInfix else "") + (if charging then ChargingInfix else "") + SymbolicSuffix
  }

  /** Reads the part of a battery icon name after the level and its dash. */
  function ParseBatteryIconTail(tail: string): Option<(bool, bool)>
  {
    var limited := HasPrefix(tail, LimitedInfix);
    var t1 := if limited then tail[|LimitedInfix|..] else tail;
    var charging := HasPrefix(t1, ChargingInfix);
    var t2 := if charging then t1[|ChargingInfix|..] else t1;
    if t2 == SymbolicSuffix then Some((limited, charging)) else None
  }

  /** Reads a battery icon name back into its level, written as plain decimal
      with no leading zero, and its two flags. */
  function ParseBatteryIcon(name: string): Option<BatteryIcon>
  {
    if !HasPrefix(name, BatteryIconPrefix) then None
    else
      var rest := name[|BatteryIconPrefix|..];
      var digits := LeadingDigits(rest);
      var tail := rest[|digits|..];
      if digits == [] || (|digits| > 1 && digits[0] == '0') || tail == [] || tail[0] != '-' then None
      else
        match ParseBatteryIconTail(tail[1..])
        case Some((limited, charging)) => Some(BatteryIcon(Value(digits), limited, charging))
        case None => None
  }

  lemma ParseBatteryIconTailOf(limited: bool, charging: bool)
    ensures ParseBatteryIconTail(BatteryIconTail(limited, charging)) == Some((limited, charging))
  {
    var t1 := (if charging then ChargingInfix else "") + SymbolicSuffix;
    var tail := BatteryIconTail(limited, charging);
    if limited {
      assert tail[|LimitedInfix|..] == t1;
    } else {
      assert tail == t1 && tail[0] != LimitedInfix[0];
    }
    if charging {
      assert t1[|ChargingInfix|..] == SymbolicSuffix;
    } else {
      assert t1[0] != ChargingInfix[0];
    }
  }

  /** Text that starts with `prefix` has it as a prefix, and what follows it is the rest. */
  lemma StripPrefix(prefix: string, rest: string)
    ensures HasPrefix(prefix + rest, prefix) && (prefix + rest)[|prefix|..] == rest
  {
    assert (prefix + rest)[..|prefix|] == prefix;
  }

  /** The battery icon name loses nothing: reading it back gives the level,
      whether the limit is on and whether the machine is charging. */
  lemma ParseBatteryIconName(bucket: nat, limited: bool, charging: bool)
    ensures ParseBatteryIcon(BatteryIconName(bucket, limited, charging))
         == Some(BatteryIcon(bucket, limited, charging))
  {
    var digits := Show(bucket);
    var tail := BatteryIconTail(limited, charging);
    var rest := digits + ("-" + tail);
    assert BatteryIconName(bucket, limited, charging) == BatteryIconPrefix + rest;
    StripPrefix(BatteryIconPrefix, rest);
    LeadingDigitsOfConcat(digits, "-" + tail);
    StripPrefix(digits, "-" + tail);
    StripPrefix("-", tail);
    ValueOfShow(bucket);
    ShowLength(bucket);
    ParseBatteryIconTailOf(limited, charging);
  }

  /** Two different states never share an icon name. */
  lemma BatteryIconNameInjective(b1: nat, l1: bool, c1: bool, b2: nat, l2: bool, c2: bool)
    requires BatteryIconName(b1, l1, c1) == BatteryIconName(b2, l2, c2)
    ensures b1 == b2 && l1 == l2 && c1 == c2
  {
    ParseBatteryIconName(b1, l1, c1);
    ParseBatteryIconName(b2, l2, c2);
  }

  /** `t` occurs in `s` starting at index `i`. */
  predicate OccursAt(s: string, t: string, i: int) {
    0 <= i && i + |t| <= |s| && s[i..i + |t|] == t
  }

  /** `t` occurs somewhere in `s`. */
  predicate Contains(s: string, t: string) {
    exists i | 0 <= i <= |s| :: OccursAt(s, t, i)
  }

  /** Text that lacks a letter of `t` cannot contain `t`. */
  lemma MissingLetterExcludes(s: string, t: string, letter: char)
    requires letter in t && letter !in s
    ensures !Contains(s, t)
  {
  }

  lemma DigitsLackLetter(d: string, letter: char)
    requires AllDigits(d) && !IsDigit(letter)
    ensures letter !in d
  {
  }

  /** Text placed between two others occurs right after the first. */
  lemma OccursAfter(before: string, t: string, after: string)
    ensures OccursAt(before + t + after, t, |before|)
  {
    assert (before + t + after)[|before|..|before| + |t|] == t;
  }

  /** `limited-` has a `d`, which no other fixed part of a battery icon name has. */
  lemma IconPartsLackD()
    ensures 'd' in LimitedInfix
    ensures 'd' !in BatteryIconPrefix && 'd' !in ChargingInfix && 'd' !in SymbolicSuffix
  {
  }

  /** `charging-` has an `h`, which no other fixed part of a battery icon name has. */
  lemma IconPartsLackH()
    ensures 'h' in ChargingInfix
    ensures 'h' !in BatteryIconPrefix && 'h' !in LimitedInfix && 'h' !in SymbolicSuffix
  {
  }

  /** The icon name contains `limited-` exactly when the charging limit is on. */
  lemma BatteryIconNameLimited(bucket: nat, limited: bool, charging: bool)
    ensures Contains(BatteryIconName(bucket, limited, charging), LimitedInfix) <==> limited
  {
    var head := BatteryIconPrefix + Show(bucket) + "-";
    var chargingPart := (if charging then ChargingInfix else "") + SymbolicSuffix;
    if limited {
      assert BatteryIconName(bucket, limited, charging) == head + LimitedInfix + chargingPart;
      OccursAfter(head, LimitedInfix, chargingPart);
    } else {
      assert BatteryIconName(bucket, limited, charging) == head + chargingPart;
      IconPartsLackD();
      DigitsLackLetter(Show(bucket), 'd');
      MissingLetterExcludes(head + chargingPart, LimitedInfix, 'd');
    }
  }

  /** The icon name contains `charging-` exactly when the machine is not on battery. */
  lemma BatteryIconNameCharging(bucket: nat, limited: bool, charging: bool)
    ensures Contains(BatteryIconName(bucket, limited, charging), ChargingInfix) <==> charging
  {
    var head := BatteryIconPrefix + Show(bucket) + "-" + (if limited then LimitedInfix else "");
    if charging {
      assert BatteryIconName(bucket, limited, charging) == head + ChargingInfix + SymbolicSuffix;
      OccursAfter(head, ChargingInfix, SymbolicSuffix);
    } else {
      assert BatteryIconName(bucket, limited, charging) == head + SymbolicSuffix;
      IconPartsLackH();
      DigitsLackLetter(Show(bucket), 'h');
      MissingLetterExcludes(head + SymbolicSuffix, ChargingInfix, 'h');
    }
  }

  // ---------------------------------------------------------------------------
  // Screen brightness icon

  datatype BrightnessLevel = Off | Low | Medium | High

  function LevelRank(level: BrightnessLevel): nat {
    match level
    case Off => 0
    case Low => 1
    case Medium => 2
    case High => 3
  }

  /** The qualitative level of a screen brightness, by the strict thresholds
      0.011, 0.333 and 0.666. */
  function DisplayLevel(brightness: real): (level: BrightnessLevel)
    ensures level == Off <==> brightness < 0.011
    ensures level == Low <==> 0.011 <= brightness < 0.333
    ensures level == Medium <==> 0.333 <= brightness < 0.666
    ensures level == High <==> 0.666 <= brightness
  {
    if brightness < 0.011 then Off
    else if brightness < 0.333 then Low
    else if brightness < 0.666 then Medium
    else High
  }

  /** A brighter screen never shows a lower level. */
  lemma DisplayLevelMonotone(p: real, q: real)
    requires p <= q
    ensures LevelRank(DisplayLevel(p)) <= LevelRank(DisplayLevel(q))
  {
  }

  function LevelWord(level: BrightnessLevel): string {
    match level
    case Off => "off"
    case Low => "low"
    case Medium => "medium"
    case High => "high"
  }

  const DisplayIconPrefix := "cosmic-applet-battery-display-brightness-"
  const DisplayIconSuffix := "-symbolic"

  /** The display icon name for a level: the level's word between a fixed
      prefix and suffix. */
  function DisplayIconName(level: BrightnessLevel): (r: string)
    ensures HasPrefix(r, DisplayIconPrefix) && HasSuffix(r, DisplayIconSuffix)
    ensures |r| > |DisplayIconPrefix| + |DisplayIconSuffix|
  {
    var rest := LevelWord(level) + DisplayIconSuffix;
    StripPrefix(DisplayIconPrefix, rest);
    assert DisplayIconPrefix + LevelWord(level) + DisplayIconSuffix == DisplayIconPrefix + rest;
    DisplayIconPrefix + LevelWord(level) + DisplayIconSuffix
  }

  /** Reads a display icon name back into its level. */
  function ParseDisplayIcon(name: string): Option<BrightnessLevel>
  {
    if |name| < |DisplayIconPrefix| + |DisplayIconSuffix|
       || !HasPrefix(name, DisplayIconPrefix)
       || name[|name| - |DisplayIconSuffix|..] != DisplayIconSuffix
    then None
    else
      var word := name[|DisplayIconPrefix|..|name| - |DisplayIconSuffix|];
      if word == "off" then Some(Off)
      else if word == "low" then Some(Low)
      else if word == "medium" then Some(Medium)
      else if word == "high" then Some(High)
      else None
  }

  /** The display icon name loses nothing: reading it back gives the level. */
  lemma ParseDisplayIconName(level: BrightnessLevel)
    ensures ParseDisplayIcon(DisplayIconName(level)) == Some(level)
  {
    var name := DisplayIconName(level);
    assert name[..|DisplayIconPrefix|] == DisplayIconPrefix;
    assert name[|name| - |DisplayIconSuffix|..] == DisplayIconSuffix;
    assert name[|DisplayIconPrefix|..|name| - |DisplayIconSuffix|] == LevelWord(level);
  }

  /** The worked examples: brightness below the clamp floor shows `off`,
      0.2 `low`, 0.5 `medium`, 0.9 `high`; 150 % counts as 100 % and -10 % as 0 %. */
  lemma MapperExamples()
    ensures DisplayLevel(Clamp(0.0, 0.01, 1.0)) == Off
    ensures DisplayLevel(Clamp(0.005, 0.01, 1.0)) == Off
    ensures DisplayLevel(Clamp(0.2, 0.01, 1.0)) == Low
    ensures DisplayLevel(Clamp(0.5, 0.01, 1.0)) == Medium
    ensures DisplayLevel(Clamp(0.9, 0.01, 1.0)) == High
    ensures Clamp(150.0, 0.0, 100.0) == 100.0 && BatteryBucket(Clamp(150.0, 0.0, 100.0), false) == 100
    ensures Clamp(-10.0, 0.0, 100.0) == 0.0 && BatteryBucket(Clamp(-10.0, 0.0, 100.0), true) == 0
  {
  }
}
