/**
 * The lookup tables behind the advisory ("AI reminder") attached to each generated
 * schedule: the machine profile chosen by keyword, the usage-frequency commentary, the
 * random choice among five message templates, and the day count since the last service.
 * The message texts themselves are not reproduced; a Reminder records which template
 * was chosen and every value interpolated into it.
 */
module Advisory {
  import opened Wrappers
  import Text

  /** The machine categories of `getMachineSpecificIssues`; General is its default profile. */
  datatype Profile = Machining | Pressing | Welding | FluidPower | Conveying | General

  datatype KeywordGroup = KeywordGroup(keywords: seq<string>, profile: Profile)

  /** The keyword groups, in the order `getMachineSpecificIssues` tests them. */
  const KeywordGroups: seq<KeywordGroup> := [
    KeywordGroup(["cnc", "mill", "lathe"], Machining),
    KeywordGroup(["press", "stamp", "punch"], Pressing),
    KeywordGroup(["weld", "robot"], Welding),
    KeywordGroup(["pump", "compressor", "motor"], FluidPower),
    KeywordGroup(["conveyor", "belt"], Conveying)
  ]

  predicate GroupMatches(g: KeywordGroup, name: string) {
    exists j | 0 <= j < |g.keywords| :: Text.Contains(name, g.keywords[j])
  }

  /** Index of the first group with a keyword in `name`, if any. */
  function FirstMatchingGroup(groups: seq<KeywordGroup>, name: string): (r: Option<nat>)
    ensures r.Some? ==> r.value < |groups| && GroupMatches(groups[r.value], name)
    ensures r.Some? ==> forall k :: 0 <= k < r.value ==> !GroupMatches(groups[k], name)
    ensures r.None? <==> forall k :: 0 <= k < |groups| ==> !GroupMatches(groups[k], name)
  {
    if |groups| == 0 then None
    else if GroupMatches(groups[0], name) then Some(0)
    else
      match FirstMatchingGroup(groups[1..], name)
      case None => None
      case Some(k) => Some(k + 1)
  }

  /** `getMachineSpecificIssues(machineName)`; the caller passes the lowercased name. */
  function MachineSpecificIssues(machineName: string): Profile {
    match FirstMatchingGroup(KeywordGroups, machineName)
    case None => General
    case Some(k) => KeywordGroups[k].profile
  }

  predicate MatchesAny(name: string, keywords: seq<string>) {
    exists j | 0 <= j < |keywords| :: Text.Contains(name, keywords[j])
  }

  /** The first keyword group that matches decides the profile; none gives the default. */
  lemma ProfileByFirstMatch(name: string)
    ensures MachineSpecificIssues(name) == Machining
      <==> MatchesAny(name, ["cnc", "mill", "lathe"])
    ensures MachineSpecificIssues(name) == Pressing
      <==> (!MatchesAny(name, ["cnc", "mill", "lathe"])
            && MatchesAny(name, ["press", "stamp", "punch"]))
    ensures MachineSpecificIssues(name) == Welding
      <==> (!MatchesAny(name, ["cnc", "mill", "lathe"])
            && !MatchesAny(name, ["press", "stamp", "punch"])
            && MatchesAny(name, ["weld", "robot"]))
    ensures MachineSpecificIssues(name) == FluidPower
      <==> (!MatchesAny(name, ["cnc", "mill", "lathe"])
            && !MatchesAny(name, ["press", "stamp", "punch"])
            && !MatchesAny(name, ["weld", "robot"])
            && MatchesAny(name, ["pump", "compressor", "motor"]))
    ensures MachineSpecificIssues(name) == Conveying
      <==> (!MatchesAny(name, ["cnc", "mill", "lathe"])
            && !MatchesAny(name, ["press", "stamp", "punch"])
            && !MatchesAny(name, ["weld", "robot"])
            && !MatchesAny(name, ["pump", "compressor", "motor"])
            && MatchesAny(name, ["conveyor", "belt"]))
    ensures MachineSpecificIssues(name) == General
      <==> forall g :: g in KeywordGroups ==> !MatchesAny(name, g.keywords)
  {
    var r := FirstMatchingGroup(KeywordGroups, name);
    var m0 := GroupMatches(KeywordGroups[0], name);
    var m1 := GroupMatches(KeywordGroups[1], name);
    var m2 := GroupMatches(KeywordGroups[2], name);
    var m3 := GroupMatches(KeywordGroups[3], name);
    var m4 := GroupMatches(KeywordGroups[4], name);
    assert m0 == MatchesAny(name, ["cnc", "mill", "lathe"]);
    assert m1 == MatchesAny(name, ["press", "stamp", "punch"]);
    assert m2 == MatchesAny(name, ["weld", "robot"]);
    assert m3 == MatchesAny(name, ["pump", "compressor", "motor"]);
    assert m4 == MatchesAny(name, ["conveyor", "belt"]);
    assert (forall g :: g in KeywordGroups ==> !MatchesAny(name, g.keywords))
      <==> !m0 && !m1 && !m2 && !m3 && !m4;
    if r.Some? {
      assert r.value < 5;
      assert r.value > 0 ==> !m0;
      assert r.value > 1 ==> !m1;
      assert r.value > 2 ==> !m2;
      assert r.value > 3 ==> !m3;
    } else {
      assert !m0 && !m1 && !m2 && !m3 && !m4;
    }
  }

  /** The commentary blocks of `getFrequencySpecificWarnings`; only the weekly one quotes the day count. */
  datatype FrequencyWarnings =
    | HighDutyCycle
    | RegularOperation(daysSinceService: int)
    | IntermittentOperation
    | PatternIncomplete

  function FrequencySpecificWarnings(frequency: string, daysSinceService: int): (w: FrequencyWarnings)
    ensures w == PatternIncomplete <==> frequency !in ["daily", "weekly", "monthly"]
    ensures w.RegularOperation? ==> w.daysSinceService == daysSinceService
  {
    match frequency
    case "daily" => HighDutyCycle
    case "weekly" => RegularOperation(daysSinceService)
    case "monthly" => IntermittentOperation
    case _ => PatternIncomplete
  }

  /** Each frequency has its own block, and only the weekly block depends on the day count. */
  lemma FrequencyWarningsDistinct(f: string, g: string, d: int, e: int)
    requires f in ["daily", "weekly", "monthly"]
    ensures FrequencySpecificWarnings(f, d) == FrequencySpecificWarnings(g, e)
        <==> f == g && (f != "weekly" || d == e)
  {
  }

  const TemplateCount: nat := 5

  /** `Math.floor(Math.random() * 5)`, for a draw `random` in [0, 1). */
  function TemplateIndex(random: real): (i: nat)
    requires 0.0 <= random < 1.0
    ensures i < TemplateCount
    ensures i as real <= random * TemplateCount as real < (i + 1) as real
  {
    (random * TemplateCount as real).Floor
  }

  /** Every one of the five templates can be chosen. */
  lemma EveryTemplateReachable(i: nat)
    requires i < TemplateCount
    ensures TemplateIndex(i as real / TemplateCount as real) == i
  {
  }

  const MsPerDay: int := 1000 * 60 * 60 * 24

  /**
   * `Math.floor((new Date() - new Date(lastServicedDate)) / (1000 * 60 * 60 * 24))`:
   * whole days from the start of the service day to `nowMs`; negative when the service
   * date lies in the future.
   */
  function DaysSinceService(nowMs: int, lastServicedDay: int): (d: int)
    ensures d * MsPerDay <= nowMs - lastServicedDay * MsPerDay < (d + 1) * MsPerDay
    ensures d < 0 <==> nowMs < lastServicedDay * MsPerDay
  {
    (nowMs - lastServicedDay * MsPerDay) / MsPerDay
  }

  /**
   * The advisory of one generated schedule: which of the five templates was picked and
   * the values the templates interpolate.
   */
  datatype Reminder = Reminder(
    template: nat,
    machineName: string,
    usageFrequency: string,
    daysSinceService: int,
    nextTaskDate: int,
    issues: Profile,
    warnings: FrequencyWarnings)
}
