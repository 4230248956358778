/** The advanced-filters panel: every handler builds a new filter record from
    the snapshot it was rendered with and hands it to the parent. */
module AdvancedFilters {
  import opened Seqs
  import opened Candidates

  /** The eight keys of the filter record. */
  datatype FilterKey =
    | ExperienceLevelKey | MinScoreKey | MaxScoreKey | LocationKey
    | SkillsKey | MinExperienceKey | MaxSalaryKey | CustomFiltersKey

  /** The value held under a key. */
  datatype FilterValue = StrValue(s: string) | IntValue(n: int) | SkillsValue(skills: seq<string>) | CustomValue(custom: map<string, string>)

  /** One `updateFilter(key, value)` call, key and value together. */
  datatype FilterUpdate =
    | SetExperienceLevel(level: string)
    | SetMinScore(minScore: int)
    | SetMaxScore(maxScore: int)
    | SetLocation(location: string)
    | SetSkills(skills: seq<string>)
    | SetMinExperience(minExperience: int)
    | SetMaxSalary(maxSalary: int)
    | SetCustomFilters(custom: map<string, string>)

  function Get(f: Filters, k: FilterKey): FilterValue
  {
    match k
    case ExperienceLevelKey => StrValue(f.experienceLevel)
    case MinScoreKey => IntValue(f.minScore)
    case MaxScoreKey => IntValue(f.maxScore)
    case LocationKey => StrValue(f.location)
    case SkillsKey => SkillsValue(f.skills)
    case MinExperienceKey => IntValue(f.minExperience)
    case MaxSalaryKey => IntValue(f.maxSalary)
    case CustomFiltersKey => CustomValue(f.customFilters)
  }

  /** Two records that agree on every key are the same record. */
  lemma KeysDetermineFilters(f: Filters, g: Filters)
    requires forall k :: Get(f, k) == Get(g, k)
    ensures f == g
  {
    assert Get(f, ExperienceLevelKey) == Get(g, ExperienceLevelKey);
    assert Get(f, MinScoreKey) == Get(g, MinScoreKey);
    assert Get(f, MaxScoreKey) == Get(g, MaxScoreKey);
    assert Get(f, LocationKey) == Get(g, LocationKey);
    assert Get(f, SkillsKey) == Get(g, SkillsKey);
    assert Get(f, MinExperienceKey) == Get(g, MinExperienceKey);
    assert Get(f, MaxSalaryKey) == Get(g, MaxSalaryKey);
    assert Get(f, CustomFiltersKey) == Get(g, CustomFiltersKey);
  }

  function KeyOf(u: FilterUpdate): FilterKey
  {
    match u
    case SetExperienceLevel(_) => ExperienceLevelKey
    case SetMinScore(_) => MinScoreKey
    case SetMaxScore(_) => MaxScoreKey
    case SetLocation(_) => LocationKey
    case SetSkills(_) => SkillsKey
    case SetMinExperience(_) => MinExperienceKey
    case SetMaxSalary(_) => MaxSalaryKey
    case SetCustomFilters(_) => CustomFiltersKey
  }

  /** The value `updateFilter` stores: an experience level of `'all'` is kept as `''`. */
  function StoredValue(u: FilterUpdate): FilterValue
  {
    match u
    case SetExperienceLevel(l) => StrValue(if l == "all" then "" else l)
    case SetMinScore(n) => IntValue(n)
    case SetMaxScore(n) => IntValue(n)
    case SetLocation(s) => StrValue(s)
    case SetSkills(s) => SkillsValue(s)
    case SetMinExperience(n) => IntValue(n)
    case SetMaxSalary(n) => IntValue(n)
    case SetCustomFilters(m) => CustomValue(m)
  }

  /** `updateFilter`: `{ ...filters, [key]: value }`: the named key gets the
      stored value and every other key keeps its value. */
  function UpdateFilter(f: Filters, u: FilterUpdate): (r: Filters)
    ensures Get(r, KeyOf(u)) == StoredValue(u)
    ensures forall k :: k != KeyOf(u) ==> Get(r, k) == Get(f, k)
  {
    match u
    case SetExperienceLevel(l) => f.(experienceLevel := if l == "all" then "" else l)
    case SetMinScore(n) => f.(minScore := n)
    case SetMaxScore(n) => f.(maxScore := n)
    case SetLocation(s) => f.(location := s)
    case SetSkills(s) => f.(skills := s)
    case SetMinExperience(n) => f.(minExperience := n)
    case SetMaxSalary(n) => f.(maxSalary := n)
    case SetCustomFilters(m) => f.(customFilters := m)
  }

  /** `getCurrentExperienceLevel`: the select shows `'all'` for the stored `''`. */
  function CurrentExperienceLevel(f: Filters): (r: string)
    ensures r != ""
    ensures f.experienceLevel != "" ==> r == f.experienceLevel
  {
    if f.experienceLevel == "" then "all" else f.experienceLevel
  }

  /** Choosing a level and reading it back gives the level chosen (`''` reads as `'all'`). */
  lemma ExperienceLevelRoundTrip(f: Filters, level: string)
    ensures CurrentExperienceLevel(UpdateFilter(f, SetExperienceLevel(level))) == if level == "" then "all" else level
  {
  }

  // ---- skills ----

  /** `addSkill`: no change for an empty or already chosen skill, otherwise the
      skill is appended; nothing but the skills changes. */
  function WithSkill(f: Filters, skill: string): (r: Filters)
    ensures r == f.(skills := r.skills)
    ensures skill == "" || skill in f.skills ==> r == f
    ensures skill != "" && skill !in f.skills ==> r.skills == f.skills + [skill]
    ensures skill != "" ==> skill in r.skills
    ensures NoDuplicates(f.skills) ==> NoDuplicates(r.skills)
  {
    if skill != "" && skill !in f.skills then UpdateFilter(f, SetSkills(f.skills + [skill])) else f
  }

  /** Adding the same skill twice is adding it once. */
  lemma WithSkillIdempotent(f: Filters, skill: string)
    ensures WithSkill(WithSkill(f, skill), skill) == WithSkill(f, skill)
  {
  }

  function NotSkill(skill: string): string -> bool
  {
    (s: string) => s != skill
  }

  /** `removeSkill`: every occurrence is dropped, the other skills stay in order. */
  function WithoutSkill(f: Filters, skill: string): (r: Filters)
    ensures r == f.(skills := r.skills)
    ensures skill !in r.skills
    ensures forall s :: s in r.skills <==> s in f.skills && s != skill
    ensures IsSubsequence(r.skills, f.skills)
    ensures |r.skills| == Count(NotSkill(skill), f.skills)
  {
    FilterIsSubsequence(NotSkill(skill), f.skills);
    FilterLength(NotSkill(skill), f.skills);
    UpdateFilter(f, SetSkills(Filter(NotSkill(skill), f.skills)))
  }

  function NotIn(skills: seq<string>): string -> bool
  {
    (s: string) => s !in skills
  }

  /** `addRequiredSkills`: the job's skills not chosen yet are appended, in the
      job's order; the old list stays a prefix. */
  function WithRequiredSkills(f: Filters, required: seq<string>): (r: Filters)
    ensures r == f.(skills := r.skills)
    ensures |f.skills| <= |r.skills| && r.skills[..|f.skills|] == f.skills
    ensures forall s :: s in required ==> s in r.skills
    ensures forall i :: |f.skills| <= i < |r.skills| ==> r.skills[i] in required && r.skills[i] !in f.skills
    ensures NoDuplicates(f.skills) && NoDuplicates(required) ==> NoDuplicates(r.skills)
  {
    var added := Filter(NotIn(f.skills), required);
    assert forall i :: 0 <= i < |added| ==> added[i] in added;
    AppendFreshNoDuplicates(f.skills, required);
    var r := UpdateFilter(f, SetSkills(f.skills + added));
    assert r.skills[..|f.skills|] == f.skills;
    r
  }

  /** Appending the required skills not chosen yet keeps "no duplicates". */
  lemma AppendFreshNoDuplicates(chosen: seq<string>, required: seq<string>)
    ensures NoDuplicates(chosen) && NoDuplicates(required) ==> NoDuplicates(chosen + Filter(NotIn(chosen), required))
  {
    if NoDuplicates(chosen) && NoDuplicates(required) {
      var added := Filter(NotIn(chosen), required);
      FilterNoDuplicates(NotIn(chosen), required);
      var s := chosen + added;
      forall i, j | 0 <= i < j < |s| ensures s[i] != s[j] {
        if j >= |chosen| {
          assert s[j] == added[j - |chosen|];
          assert added[j - |chosen|] in added;
          if i < |chosen| { assert s[i] in chosen; }
        }
      }
    }
  }

  /** Running "Add Job Requirements" again adds nothing. */
  lemma WithRequiredSkillsIdempotent(f: Filters, required: seq<string>)
    ensures WithRequiredSkills(WithRequiredSkills(f, required), required) == WithRequiredSkills(f, required)
  {
    var g := WithRequiredSkills(f, required);
    var h := WithRequiredSkills(g, required);
    assert forall s :: s in required ==> !NotIn(g.skills)(s);
    FilterNone(NotIn(g.skills), required);
    RequiredSkillsAppended(g, required);
    assert h.skills == g.skills + [];
    assert h == g.(skills := h.skills);
  }

  lemma RequiredSkillsAppended(f: Filters, required: seq<string>)
    ensures WithRequiredSkills(f, required).skills == f.skills + Filter(NotIn(f.skills), required)
  {
  }


  // ---- custom filters ----

  /** `addPredefinedFilter` / `addCustomFilter`: only with a non-empty key and
      value; then the key maps to the value (overwriting) and every other
      entry is untouched. */
  function WithCustomFilter(m: map<string, string>, key: string, value: string): (r: map<string, string>)
    ensures key == "" || value == "" ==> r == m
    ensures key != "" && value != "" ==> key in r && r[key] == value
    ensures forall k :: k != key ==> (k in r <==> k in m)
    ensures forall k :: k != key && k in r ==> r[k] == m[k]
  {
    if key != "" && value != "" then m[key := value] else m
  }

  /** `removeCustomFilter`: copy the map, delete one key, keep every other entry. */
  function WithoutCustomFilter(m: map<string, string>, key: string): (r: map<string, string>)
    ensures key !in r
    ensures forall k :: k != key ==> (k in r <==> k in m)
    ensures forall k :: k in r ==> r[k] == m[k]
    ensures key !in m ==> r == m
  {
    m - {key}
  }

  /** Removing a filter just added gives back the map without that key. */
  lemma AddThenRemoveCustomFilter(m: map<string, string>, key: string, value: string)
    requires key != "" && value != ""
    ensures WithoutCustomFilter(WithCustomFilter(m, key, value), key) == WithoutCustomFilter(m, key)
  {
  }

  // ---- handlers that call `updateFilter` more than once ----

  /** What the parent ends up with when a handler calls `updateFilter` once per
      update: each call spreads the SAME snapshot, and the parent keeps the
      last record it was given. */
  function DispatchAsWritten(snapshot: Filters, updates: seq<FilterUpdate>): (r: Filters)
    requires |updates| > 0
    ensures Get(r, KeyOf(updates[|updates| - 1])) == StoredValue(updates[|updates| - 1])
    ensures forall k :: k != KeyOf(updates[|updates| - 1]) ==> Get(r, k) == Get(snapshot, k)
  {
    UpdateFilter(snapshot, updates[|updates| - 1])
  }

  /** The evidently intended effect: each update applied on top of the one before. */
  function DispatchSequential(f: Filters, updates: seq<FilterUpdate>): Filters
    decreases |updates|
  {
    if updates == [] then f
    else UpdateFilter(DispatchSequential(f, updates[..|updates| - 1]), updates[|updates| - 1])
  }

  /** Under the sequential reading a key that no update names keeps its value. */
  lemma {:induction false} DispatchSequentialUntouched(f: Filters, updates: seq<FilterUpdate>, k: FilterKey)
    requires forall i :: 0 <= i < |updates| ==> KeyOf(updates[i]) != k
    ensures Get(DispatchSequential(f, updates), k) == Get(f, k)
    decreases |updates|
  {
    if updates != [] {
      var init := updates[..|updates| - 1];
      assert forall i :: 0 <= i < |init| ==> init[i] == updates[i];
      DispatchSequentialUntouched(f, init, k);
    }
  }

  /** Under the sequential reading a key ends with the value of the LAST update that names it. */
  lemma {:induction false} DispatchSequentialLastWriter(f: Filters, updates: seq<FilterUpdate>, k: FilterKey, i: int)
    requires 0 <= i < |updates| && KeyOf(updates[i]) == k
    requires forall j :: i < j < |updates| ==> KeyOf(updates[j]) != k
    ensures Get(DispatchSequential(f, updates), k) == StoredValue(updates[i])
    decreases |updates|
  {
    var init := updates[..|updates| - 1];
    var last := updates[|updates| - 1];
    assert DispatchSequential(f, updates) == UpdateFilter(DispatchSequential(f, init), last);
    if i < |updates| - 1 {
      assert forall j :: 0 <= j < |init| ==> init[j] == updates[j];
      DispatchSequentialLastWriter(f, init, k, i);
      assert KeyOf(last) != k;
    }
  }

  /** Two updates applied one after the other. */
  lemma DispatchSequentialPair(f: Filters, a: FilterUpdate, b: FilterUpdate)
    ensures DispatchSequential(f, [a, b]) == UpdateFilter(UpdateFilter(f, a), b)
  {
    assert [a, b][..1] == [a];
    assert [a][..0] == [];
    assert DispatchSequential(f, [a]) == UpdateFilter(DispatchSequential(f, []), a);
  }

  /** "Top Performers" as written: minimum score 90 is lost, only the level survives. */
  function TopPerformersAsWritten(f: Filters): Filters
  {
    DispatchAsWritten(f, [SetMinScore(90), SetExperienceLevel("senior")])
  }

  lemma TopPerformersAsWrittenLosesMinScore(f: Filters)
    ensures TopPerformersAsWritten(f).experienceLevel == "senior"
    ensures TopPerformersAsWritten(f).minScore == f.minScore
    ensures TopPerformersAsWritten(Filters("", 0, 100, "", [], 0, 0, map[])).minScore == 0
  {
  }

  /** "Top Performers" as intended: score at least 90 and senior level. */
  function TopPerformers(f: Filters): (r: Filters)
    ensures r.minScore == 90 && r.experienceLevel == "senior"
    ensures r == f.(minScore := 90, experienceLevel := "senior")
  {
    DispatchSequentialPair(f, SetMinScore(90), SetExperienceLevel("senior"));
    DispatchSequential(f, [SetMinScore(90), SetExperienceLevel("senior")])
  }

  /** "Budget Friendly" as written: the location Jakarta is lost, only the salary cap survives. */
  function BudgetFriendlyAsWritten(f: Filters): Filters
  {
    DispatchAsWritten(f, [SetLocation("Jakarta"), SetMaxSalary(25000000)])
  }

  lemma BudgetFriendlyAsWrittenLosesLocation(f: Filters)
    ensures BudgetFriendlyAsWritten(f).maxSalary == 25000000
    ensures BudgetFriendlyAsWritten(f).location == f.location
    ensures BudgetFriendlyAsWritten(Filters("", 0, 100, "", [], 0, 0, map[])).location == ""
  {
  }

  /** "Budget Friendly" as intended: location Jakarta and salary at most 25 000 000. */
  function BudgetFriendly(f: Filters): (r: Filters)
    ensures r.location == "Jakarta" && r.maxSalary == 25000000
    ensures r == f.(location := "Jakarta", maxSalary := 25000000)
  {
    DispatchSequentialPair(f, SetLocation("Jakarta"), SetMaxSalary(25000000));
    DispatchSequential(f, [SetLocation("Jakarta"), SetMaxSalary(25000000)])
  }

  /** The score-range slider as written: the new minimum is lost, only the maximum survives. */
  function ScoreRangeAsWritten(f: Filters, min: int, max: int): Filters
  {
    DispatchAsWritten(f, [SetMinScore(min), SetMaxScore(max)])
  }

  lemma ScoreRangeAsWrittenLosesMinimum(f: Filters, min: int, max: int)
    ensures ScoreRangeAsWritten(f, min, max).maxScore == max
    ensures ScoreRangeAsWritten(f, min, max).minScore == f.minScore
    ensures ScoreRangeAsWritten(Filters("", 0, 100, "", [], 0, 0, map[]), 20, 100).minScore == 0
  {
  }

  /** The score-range slider as intended: both thumbs are stored. */
  function ScoreRange(f: Filters, min: int, max: int): (r: Filters)
    ensures r.minScore == min && r.maxScore == max
    ensures r == f.(minScore := min, maxScore := max)
  {
    DispatchSequentialPair(f, SetMinScore(min), SetMaxScore(max));
    DispatchSequential(f, [SetMinScore(min), SetMaxScore(max)])
  }

  /** "Perfect Match": the skills become exactly the job's required skills. */
  function PerfectMatch(f: Filters, required: seq<string>): (r: Filters)
    ensures r.skills == required && r == f.(skills := required)
  {
    UpdateFilter(f, SetSkills(required))
  }

  /** A preset custom-filter button ("Muslim Candidates" sets `religion:
      islam`, "Indonesian Only" sets `nationality: indonesia`): the entry is
      set over a spread of the current custom filters, the others are kept. */
  function WithPreset(f: Filters, key: string, value: string): (r: Filters)
    ensures key in r.customFilters && r.customFilters[key] == value
    ensures forall k :: k != key ==> (k in r.customFilters <==> k in f.customFilters)
    ensures forall k :: k != key && k in f.customFilters ==> r.customFilters[k] == f.customFilters[k]
    ensures r == f.(customFilters := r.customFilters)
  {
    UpdateFilter(f, SetCustomFilters(f.customFilters[key := value]))
  }

  /** `parseInt(e.target.value) || 0`: a failed parse (NaN) and 0 both give 0. */
  function SalaryInput(parsed: Option<int>): (n: int)
    ensures parsed.None? ==> n == 0
    ensures parsed.Some? ==> n == parsed.value
  {
    if parsed.Some? then parsed.value else 0
  }

  /** The panel: the parent's filter record (what `onFiltersChange` replaces)
      and the panel's own input fields. */
  class FiltersPanel {
    var filters: Filters
    var newSkill: string
    var newFilterKey: string
    var newFilterValue: string
    var customFilterKey: string
    var customFilterValue: string

    constructor (initial: Filters)
      ensures filters == initial
      ensures newSkill == "" && newFilterKey == "" && newFilterValue == ""
      ensures customFilterKey == "" && customFilterValue == ""
    {
      filters := initial;
      newSkill, newFilterKey, newFilterValue := "", "", "";
      customFilterKey, customFilterValue := "", "";
    }

    method SelectExperienceLevel(level: string)
      modifies this`filters
      ensures filters == UpdateFilter(old(filters), SetExperienceLevel(level))
      ensures CurrentExperienceLevel(filters) == if level == "" then "all" else level
    {
      filters := UpdateFilter(filters, SetExperienceLevel(level));
    }

    /** Both thumbs of the slider, each `updateFilter` spreading the same snapshot. */
    method ChangeScoreRange(min: int, max: int)
      modifies this`filters
      ensures filters == ScoreRangeAsWritten(old(filters), min, max)
      ensures filters.minScore == old(filters).minScore && filters.maxScore == max
    {
      var snapshot := filters;
      filters := UpdateFilter(snapshot, SetMinScore(min));
      filters := UpdateFilter(snapshot, SetMaxScore(max));
    }

    method ChangeLocation(location: string)
      modifies this`filters
      ensures filters == old(filters).(location := location)
    {
      filters := UpdateFilter(filters, SetLocation(location));
    }

    method ChangeMinExperience(years: int)
      modifies this`filters
      ensures filters == old(filters).(minExperience := years)
    {
      filters := UpdateFilter(filters, SetMinExperience(years));
    }

    method ChangeMaxSalary(parsed: Option<int>)
      modifies this`filters
      ensures filters == old(filters).(maxSalary := SalaryInput(parsed))
    {
      filters := UpdateFilter(filters, SetMaxSalary(SalaryInput(parsed)));
    }

    /** `addSkill(skill)`, then the skill picker is cleared. */
    method AddSkill(skill: string)
      modifies this`filters, this`newSkill
      ensures filters == WithSkill(old(filters), skill)
      ensures newSkill == ""
    {
      filters := WithSkill(filters, skill);
      newSkill := "";
    }

    method RemoveSkill(skill: string)
      modifies this`filters
      ensures filters == WithoutSkill(old(filters), skill)
    {
      filters := WithoutSkill(filters, skill);
    }

    method AddRequiredSkills(required: seq<string>)
      modifies this`filters
      ensures filters == WithRequiredSkills(old(filters), required)
    {
      filters := WithRequiredSkills(filters, required);
    }

    /** Adds `newFilterKey: newFilterValue` and clears both inputs, only when both are non-empty. */
    method AddPredefinedFilter()
      modifies this`filters, this`newFilterKey, this`newFilterValue
      ensures var added := old(newFilterKey) != "" && old(newFilterValue) != "";
        && filters == (if added then old(filters).(customFilters := WithCustomFilter(old(filters).customFilters, old(newFilterKey), old(newFilterValue))) else old(filters))
        && (newFilterKey, newFilterValue) == (if added then ("", "") else (old(newFilterKey), old(newFilterValue)))
    {
      if newFilterKey != "" && newFilterValue != "" {
        filters := UpdateFilter(filters, SetCustomFilters(WithCustomFilter(filters.customFilters, newFilterKey, newFilterValue)));
        newFilterKey := "";
        newFilterValue := "";
      }
    }

    /** Adds `customFilterKey: customFilterValue` and clears both inputs, only when both are non-empty. */
    method AddCustomFilter()
      modifies this`filters, this`customFilterKey, this`customFilterValue
      ensures var added := old(customFilterKey) != "" && old(customFilterValue) != "";
        && filters == (if added then old(filters).(customFilters := WithCustomFilter(old(filters).customFilters, old(customFilterKey), old(customFilterValue))) else old(filters))
        && (customFilterKey, customFilterValue) == (if added then ("", "") else (old(customFilterKey), old(customFilterValue)))
    {
      if customFilterKey != "" && customFilterValue != "" {
        filters := UpdateFilter(filters, SetCustomFilters(WithCustomFilter(filters.customFilters, customFilterKey, customFilterValue)));
        customFilterKey := "";
        customFilterValue := "";
      }
    }

    method RemoveCustomFilter(key: string)
      modifies this`filters
      ensures filters == old(filters).(customFilters := WithoutCustomFilter(old(filters).customFilters, key))
    {
      var copy := filters.customFilters;
      copy := copy - {key};
      filters := UpdateFilter(filters, SetCustomFilters(copy));
    }

    /** "Top Performers", two `updateFilter` calls on the same snapshot. */
    method QuickTopPerformers()
      modifies this`filters
      ensures filters == TopPerformersAsWritten(old(filters))
    {
      var snapshot := filters;
      filters := UpdateFilter(snapshot, SetMinScore(90));
      filters := UpdateFilter(snapshot, SetExperienceLevel("senior"));
    }

    method QuickPerfectMatch(required: seq<string>)
      modifies this`filters
      ensures filters == PerfectMatch(old(filters), required)
    {
      filters := UpdateFilter(filters, SetSkills(required));
    }

    /** "Budget Friendly", two `updateFilter` calls on the same snapshot. */
    method QuickBudgetFriendly()
      modifies this`filters
      ensures filters == BudgetFriendlyAsWritten(old(filters))
    {
      var snapshot := filters;
      filters := UpdateFilter(snapshot, SetLocation("Jakarta"));
      filters := UpdateFilter(snapshot, SetMaxSalary(25000000));
    }

    method QuickMuslimCandidates()
      modifies this`filters
      ensures filters == WithPreset(old(filters), "religion", "islam")
    {
      filters := WithPreset(filters, "religion", "islam");
    }

    method QuickIndonesianOnly()
      modifies this`filters
      ensures filters == WithPreset(old(filters), "nationality", "indonesia")
    {
      filters := WithPreset(filters, "nationality", "indonesia");
    }
  }
}
