/** The CV screening dashboard: the status tabs, the candidate filter and
    the "active filters" summary. */
module ScreeningDashboard {
  import opened Text
  import opened Seqs
  import opened Candidates
  import AdvancedFilters

  /** The six tabs that select one status; any other tab value shows everyone. */
  const KnownStatuses: seq<string> := ["applied", "screening", "review", "offer", "hired", "rejected"]

  function HasStatus(status: string): Candidate -> bool
  {
    (c: Candidate) => c.status == status
  }

  /** `getCandidatesByStatus`: for a known status exactly the candidates with
      that status, in their original order; otherwise the whole list. */
  function CandidatesByStatus(candidates: seq<Candidate>, status: string): (r: seq<Candidate>)
    ensures status in KnownStatuses ==>
      && IsSubsequence(r, candidates)
      && (forall c :: c in r <==> c in candidates && c.status == status)
      && |r| == Count(HasStatus(status), candidates)
    ensures status !in KnownStatuses ==> r == candidates
  {
    if status in KnownStatuses then
      FilterIsSubsequence(HasStatus(status), candidates);
      FilterLength(HasStatus(status), candidates);
      Filter(HasStatus(status), candidates)
    else candidates
  }

  /** Nothing but the filter meets the tab's description: any subsequence that
      holds only candidates of the status and has as many as there are is it. */
  lemma CandidatesByStatusIsExact(candidates: seq<Candidate>, status: string, r: seq<Candidate>)
    requires status in KnownStatuses
    requires IsSubsequence(r, candidates)
    requires forall c :: c in r ==> c.status == status
    requires |r| == Count(HasStatus(status), candidates)
    ensures r == CandidatesByStatus(candidates, status)
  {
    FilterUnique(HasStatus(status), r, candidates);
  }

  /** `getStatusCount`: the number of candidates on the tab. */
  function StatusCount(candidates: seq<Candidate>, status: string): (n: nat)
    ensures n == |CandidatesByStatus(candidates, status)|
    ensures status in KnownStatuses ==> n == Count(HasStatus(status), candidates)
    ensures status !in KnownStatuses ==> n == |candidates|
  {
    |CandidatesByStatus(candidates, status)|
  }

  /** Sum of the per-tab counts over a list of tabs. */
  function SumCounts(tabs: seq<string>, candidates: seq<Candidate>): nat
    decreases |tabs|
  {
    if tabs == [] then 0 else Count(HasStatus(tabs[0]), candidates) + SumCounts(tabs[1..], candidates)
  }

  lemma {:induction false} SumCountsCons(tabs: seq<string>, c: Candidate, rest: seq<Candidate>)
    requires NoDuplicates(tabs)
    ensures SumCounts(tabs, [c] + rest) == SumCounts(tabs, rest) + (if c.status in tabs then 1 else 0)
    decreases |tabs|
  {
    if tabs != [] {
      assert ([c] + rest)[1..] == rest;
      assert NoDuplicates(tabs[1..]) by {
        forall i, j | 0 <= i < j < |tabs[1..]| ensures tabs[1..][i] != tabs[1..][j] {
          assert tabs[1..][i] == tabs[i + 1] && tabs[1..][j] == tabs[j + 1];
        }
      }
      SumCountsCons(tabs[1..], c, rest);
      assert tabs[0] !in tabs[1..];
      assert c.status in tabs <==> c.status == tabs[0] || c.status in tabs[1..];
    }
  }

  lemma {:induction false} SumCountsNone(tabs: seq<string>)
    ensures SumCounts(tabs, []) == 0
    decreases |tabs|
  {
    if tabs != [] { SumCountsNone(tabs[1..]); }
  }

  lemma {:induction false} SumCountsCoversAll(tabs: seq<string>, candidates: seq<Candidate>)
    requires NoDuplicates(tabs)
    requires forall c :: c in candidates ==> c.status in tabs
    ensures SumCounts(tabs, candidates) == |candidates|
    decreases |candidates|
  {
    if candidates != [] {
      var c, rest := candidates[0], candidates[1..];
      assert candidates == [c] + rest;
      assert c in candidates;
      SumCountsCons(tabs, c, rest);
      SumCountsCoversAll(tabs, rest);
      assert SumCounts(tabs, candidates) == SumCounts(tabs, rest) + 1;
    } else {
      SumCountsNone(tabs);
    }
  }

  /** When every candidate has one of the six statuses, the six tab badges
      add up to the number of candidates: the tabs partition the list. */
  lemma TabsPartitionCandidates(candidates: seq<Candidate>)
    requires forall c :: c in candidates ==> c.status in KnownStatuses
    ensures StatusCount(candidates, "applied") + StatusCount(candidates, "screening")
          + StatusCount(candidates, "review") + StatusCount(candidates, "offer")
          + StatusCount(candidates, "hired") + StatusCount(candidates, "rejected") == |candidates|
  {
    SumCountsCoversAll(KnownStatuses, candidates);
    var t := KnownStatuses;
    assert t[1..][1..][1..][1..][1..][1..] == [];
  }

  // ---- the eight clauses of `applyFilters` ----

  /** Case-insensitive search over name, email, summary and every skill. */
  predicate MatchesSearch(term: string, c: Candidate)
  {
    var q := Lower(term);
    || Contains(Lower(c.fullName), q)
    || Contains(Lower(c.email), q)
    || Contains(Lower(c.summary), q)
    || exists s :: s in c.skills && Contains(Lower(s), q)
  }

  /** `''` and `'all'` admit every level; any other level must match exactly. */
  predicate MatchesExperienceLevel(level: string, c: Candidate)
  {
    level == "" || level == "all" || c.experienceLevel == level
  }

  predicate MatchesScore(f: Filters, c: Candidate)
  {
    c.score >= f.minScore && c.score <= f.maxScore
  }

  predicate MatchesLocation(location: string, c: Candidate)
  {
    location == "" || Contains(Lower(c.location), Lower(location))
  }

  predicate MatchesSkills(skills: seq<string>, c: Candidate)
  {
    |skills| == 0 || forall s :: s in skills ==> s in c.skills
  }

  predicate MatchesExperience(minExperience: int, c: Candidate)
  {
    c.yearsOfExperience >= minExperience
  }

  /** `maxSalary = 0` is falsy and switches the clause off. */
  predicate MatchesSalary(maxSalary: int, c: Candidate)
  {
    maxSalary == 0 || c.expectedSalary <= maxSalary
  }

  /** One custom `key: value` entry: an empty value is ignored; otherwise the
      value must occur, ignoring case, in the candidate's field of that name
      (in some element, for an array; in `String(...)` of anything else). */
  predicate CustomEntryHolds(c: Candidate, key: string, value: string)
  {
    var v := Lower(value);
    value == "" ||
    match FieldOf(c, key)
    case Str(s) => Contains(Lower(s), v)
    case List(items) => exists item :: item in items && Contains(Lower(item), v)
    case Number(n) => Contains(Lower(IntToString(n)), v)
    case Undefined => Contains("undefined", v)
  }

  predicate MatchesCustomFilters(custom: map<string, string>, c: Candidate)
  {
    forall key :: key in custom ==> CustomEntryHolds(c, key, custom[key])
  }

  /** The conjunction the filter callback returns. */
  predicate Matches(term: string, f: Filters, c: Candidate)
  {
    && MatchesSearch(term, c)
    && MatchesExperienceLevel(f.experienceLevel, c)
    && MatchesScore(f, c)
    && MatchesLocation(f.location, c)
    && MatchesSkills(f.skills, c)
    && MatchesExperience(f.minExperience, c)
    && MatchesSalary(f.maxSalary, c)
    && MatchesCustomFilters(f.customFilters, c)
  }

  function Admits(term: string, f: Filters): Candidate -> bool
  {
    (c: Candidate) => Matches(term, f, c)
  }

  // Single conditions, as filter callbacks.
  function SearchHits(term: string): Candidate -> bool { (c: Candidate) => MatchesSearch(term, c) }
  function HasLevel(level: string): Candidate -> bool { (c: Candidate) => c.experienceLevel == level }
  function HasSkill(skill: string): Candidate -> bool { (c: Candidate) => skill in c.skills }
  function SalaryAtMost(maxSalary: int): Candidate -> bool { (c: Candidate) => c.expectedSalary <= maxSalary }
  function EntryHolds(key: string, value: string): Candidate -> bool { (c: Candidate) => CustomEntryHolds(c, key, value) }
  predicate Everyone(c: Candidate) { true }

  /** `applyFilters`: the candidates that pass every clause, a subsequence of the input. */
  function ApplyFilters(candidates: seq<Candidate>, term: string, f: Filters): (r: seq<Candidate>)
    ensures IsSubsequence(r, candidates)
    ensures forall c :: c in r <==> c in candidates && Matches(term, f, c)
  {
    FilterIsSubsequence(Admits(term, f), candidates);
    Filter(Admits(term, f), candidates)
  }

  /** `filteredCandidates`: the filter applied to the active tab. */
  function VisibleCandidates(candidates: seq<Candidate>, tab: string, term: string, f: Filters): (r: seq<Candidate>)
    ensures IsSubsequence(r, candidates)
    ensures r == ApplyFilters(CandidatesByStatus(candidates, tab), term, f)
    ensures forall c :: c in r ==> c in candidates && Matches(term, f, c)
    ensures tab in KnownStatuses ==> forall c :: c in r <==> c in candidates && c.status == tab && Matches(term, f, c)
    ensures tab !in KnownStatuses ==> forall c :: c in r <==> c in candidates && Matches(term, f, c)
  {
    var onTab := CandidatesByStatus(candidates, tab);
    var r := ApplyFilters(onTab, term, f);
    SubsequenceRefl(candidates);
    SubsequenceTransitive(r, onTab, candidates);
    r
  }

  lemma {:induction false} SubsequenceTransitive(a: seq<Candidate>, b: seq<Candidate>, c: seq<Candidate>)
    requires IsSubsequence(a, b) && IsSubsequence(b, c)
    ensures IsSubsequence(a, c)
    decreases |c|
  {
    if a != [] && c != [] {
      if b[0] == c[0] && IsSubsequence(b[1..], c[1..]) {
        if a[0] == b[0] && IsSubsequence(a[1..], b[1..]) {
          SubsequenceTransitive(a[1..], b[1..], c[1..]);
        } else {
          SubsequenceTransitive(a, b[1..], c[1..]);
        }
      } else {
        SubsequenceTransitive(a, b, c[1..]);
      }
    }
  }

  /** If the filter `f` is the filter `g` plus one more independent condition,
      applying `f` is applying `g` and then that condition. */
  lemma ExtraClause(candidates: seq<Candidate>, term: string, f: Filters, term': string, g: Filters, extra: Candidate -> bool)
    requires forall c :: c in candidates ==> Matches(term, f, c) == (Matches(term', g, c) && extra(c))
    ensures ApplyFilters(candidates, term, f) == Filter(extra, ApplyFilters(candidates, term', g))
  {
    FilterAnd(Admits(term, f), Admits(term', g), extra, candidates);
  }

  /** The search is one more condition on top of an empty search, which admits
      everyone; the search term's case does not matter. */
  lemma SearchClause(candidates: seq<Candidate>, term: string, f: Filters)
    ensures ApplyFilters(candidates, term, f) == Filter(SearchHits(term), ApplyFilters(candidates, "", f))
    ensures ApplyFilters(candidates, term, f) == ApplyFilters(candidates, Lower(term), f)
  {
    forall c | c in candidates ensures MatchesSearch("", c) {
      assert Contains(Lower(c.fullName), "");
    }
    ExtraClause(candidates, term, f, "", f, SearchHits(term));
    LowerIdempotent(term);
    FilterExtensional(Admits(term, f), Admits(Lower(term), f), candidates);
  }

  /** `'all'` and `''` both admit every level; any other level keeps exactly the
      candidates of that level among those the other clauses admit. */
  lemma ExperienceLevelClause(candidates: seq<Candidate>, term: string, f: Filters)
    ensures ApplyFilters(candidates, term, f.(experienceLevel := "all")) == ApplyFilters(candidates, term, f.(experienceLevel := ""))
    ensures f.experienceLevel != "" && f.experienceLevel != "all" ==>
      ApplyFilters(candidates, term, f) ==
      Filter(HasLevel(f.experienceLevel), ApplyFilters(candidates, term, f.(experienceLevel := "")))
  {
    FilterExtensional(Admits(term, f.(experienceLevel := "all")), Admits(term, f.(experienceLevel := "")), candidates);
    if f.experienceLevel != "" && f.experienceLevel != "all" {
      ExtraClause(candidates, term, f, term, f.(experienceLevel := ""), HasLevel(f.experienceLevel));
    }
  }

  /** Both score bounds are inclusive: tightening either bound to exactly a
      shown candidate's score still shows that candidate. */
  lemma ScoreBoundsInclusive(candidates: seq<Candidate>, term: string, f: Filters, c: Candidate)
    requires c in ApplyFilters(candidates, term, f)
    ensures c in ApplyFilters(candidates, term, f.(minScore := c.score))
    ensures c in ApplyFilters(candidates, term, f.(maxScore := c.score))
    ensures c in ApplyFilters(candidates, term, f.(minScore := c.score, maxScore := c.score))
  {
  }

  /** Adding a skill adds the condition "has that skill", so it can only shrink the result. */
  lemma AddingSkillShrinks(candidates: seq<Candidate>, term: string, f: Filters, skill: string)
    ensures ApplyFilters(candidates, term, f.(skills := f.skills + [skill])) ==
      Filter(HasSkill(skill), ApplyFilters(candidates, term, f))
    ensures IsSubsequence(ApplyFilters(candidates, term, f.(skills := f.skills + [skill])), ApplyFilters(candidates, term, f))
  {
    var g := f.(skills := f.skills + [skill]);
    forall c | c in candidates ensures MatchesSkills(g.skills, c) == (MatchesSkills(f.skills, c) && skill in c.skills) {
      assert skill in g.skills;
      assert forall s :: s in g.skills <==> s in f.skills || s == skill;
    }
    ExtraClause(candidates, term, g, term, f, HasSkill(skill));
    FilterIsSubsequence(HasSkill(skill), ApplyFilters(candidates, term, f));
  }

  /** `maxSalary = 0` disables the salary clause; any other value adds the
      condition "expected salary at most maxSalary". */
  lemma SalaryClause(candidates: seq<Candidate>, term: string, f: Filters)
    ensures f.maxSalary != 0 ==>
      ApplyFilters(candidates, term, f) ==
      Filter(SalaryAtMost(f.maxSalary), ApplyFilters(candidates, term, f.(maxSalary := 0)))
    ensures IsSubsequence(ApplyFilters(candidates, term, f), ApplyFilters(candidates, term, f.(maxSalary := 0)))
  {
    FilterMonotone(Admits(term, f), Admits(term, f.(maxSalary := 0)), candidates);
    if f.maxSalary != 0 {
      ExtraClause(candidates, term, f, term, f.(maxSalary := 0), SalaryAtMost(f.maxSalary));
    }
  }

  /** A custom filter with an empty value is the same as no entry for that key;
      a non-empty one adds the condition that the entry holds. */
  lemma CustomFilterClause(candidates: seq<Candidate>, term: string, f: Filters, key: string, value: string)
    ensures ApplyFilters(candidates, term, f.(customFilters := f.customFilters[key := ""])) ==
            ApplyFilters(candidates, term, f.(customFilters := f.customFilters - {key}))
    ensures ApplyFilters(candidates, term, f.(customFilters := f.customFilters[key := value])) ==
      Filter(EntryHolds(key, value), ApplyFilters(candidates, term, f.(customFilters := f.customFilters - {key})))
  {
    var m := f.customFilters;
    forall c | c in candidates
      ensures MatchesCustomFilters(m[key := ""], c) == MatchesCustomFilters(m - {key}, c)
      ensures MatchesCustomFilters(m[key := value], c) == (MatchesCustomFilters(m - {key}, c) && CustomEntryHolds(c, key, value))
    {
      CustomFilterUpdate(m, key, "", c);
      CustomFilterUpdate(m, key, value, c);
    }
    ExtraClause(candidates, term, f.(customFilters := m[key := ""]), term, f.(customFilters := m - {key}), Everyone);
    FilterExtensional(Everyone, EntryHolds(key, ""), ApplyFilters(candidates, term, f.(customFilters := m - {key})));
    TrueFilterIdentity(ApplyFilters(candidates, term, f.(customFilters := m - {key})));
    ExtraClause(candidates, term, f.(customFilters := m[key := value]), term, f.(customFilters := m - {key}), EntryHolds(key, value));
  }

  /** Setting one custom entry replaces only that entry's condition. */
  lemma CustomFilterUpdate(m: map<string, string>, key: string, value: string, c: Candidate)
    ensures MatchesCustomFilters(m[key := value], c) == (MatchesCustomFilters(m - {key}, c) && CustomEntryHolds(c, key, value))
  {
    var updated, removed := m[key := value], m - {key};
    if MatchesCustomFilters(removed, c) && CustomEntryHolds(c, key, value) {
      forall k | k in updated ensures CustomEntryHolds(c, k, updated[k]) {
        if k != key { assert k in removed; }
      }
    }
    if MatchesCustomFilters(updated, c) {
      assert key in updated;
      forall k | k in removed ensures CustomEntryHolds(c, k, removed[k]) {
        assert k in updated;
      }
    }
  }

  lemma {:induction false} TrueFilterIdentity(s: seq<Candidate>)
    ensures Filter(Everyone, s) == s
    decreases |s|
  {
    if s != [] { TrueFilterIdentity(s[1..]); }
  }

  // ---- the active-filters summary and "Clear all" ----

  /** `hasActiveFilters`: a level other than `''`/`'all'`, a skill, a location,
      a positive minimum score or a non-empty custom value. */
  predicate HasActiveFilters(f: Filters)
  {
    || (f.experienceLevel != "" && f.experienceLevel != "all")
    || |f.skills| > 0
    || f.location != ""
    || f.minScore > 0
    || exists key :: key in f.customFilters && f.customFilters[key] != ""
  }

  /** The value "Clear all" stores (also the initial filter state). */
  function ClearedFilters(): (f: Filters)
    ensures !HasActiveFilters(f)
    ensures f.maxScore == 100 && f.minExperience == 0 && f.maxSalary == 0
  {
    Filters("", 0, 100, "", [], 0, 0, map[])
  }

  /** The summary never looks at `maxScore`, `minExperience` or `maxSalary`. */
  lemma HasActiveFiltersIgnores(f: Filters, maxScore: int, minExperience: int, maxSalary: int)
    ensures HasActiveFilters(f) == HasActiveFilters(f.(maxScore := maxScore, minExperience := minExperience, maxSalary := maxSalary))
  {
  }

  /** Consequently the summary can be hidden while a filter still removes
      candidates: a salary cap alone is not reported. */
  lemma InactiveFiltersCanStillFilter(c: Candidate)
    requires c.expectedSalary > 1 && 0 <= c.score <= 100 && c.yearsOfExperience >= 0
    ensures var f := ClearedFilters().(maxSalary := 1);
      !HasActiveFilters(f) && c !in ApplyFilters([c], "", f)
  {
  }

  /** After "Clear all" with an empty search, a candidate is shown exactly when
      its score is within 0..100 and its years of experience are not negative. */
  lemma ClearedFiltersAdmit(candidates: seq<Candidate>)
    ensures forall c :: c in ApplyFilters(candidates, "", ClearedFilters()) <==>
      c in candidates && 0 <= c.score <= 100 && c.yearsOfExperience >= 0
  {
    forall c | c in candidates ensures MatchesSearch("", c) {
      assert Contains(Lower(c.fullName), "");
    }
  }

  // ---- what the quick filters of the panel show ----

  /** "Top Performers" as intended shows only senior candidates scoring at least 90. */
  lemma TopPerformersShowsOnlyTop(candidates: seq<Candidate>, term: string, f: Filters)
    ensures forall c :: c in ApplyFilters(candidates, term, AdvancedFilters.TopPerformers(f)) ==>
      c.score >= 90 && c.experienceLevel == "senior"
  {
  }

  /** As written, "Top Performers" from the cleared state still shows a senior
      candidate of any score from 0 to 89. */
  lemma TopPerformersAsWrittenShowsLowScores(c: Candidate)
    requires c.experienceLevel == "senior" && 0 <= c.score < 90 && c.yearsOfExperience >= 0
    ensures c in ApplyFilters([c], "", AdvancedFilters.TopPerformersAsWritten(ClearedFilters()))
  {
    assert Contains(Lower(c.fullName), "");
  }

  /** "Budget Friendly" as intended shows only candidates in Jakarta within the salary cap. */
  lemma BudgetFriendlyShowsOnlyJakartaOnBudget(candidates: seq<Candidate>, term: string, f: Filters)
    ensures forall c :: c in ApplyFilters(candidates, term, AdvancedFilters.BudgetFriendly(f)) ==>
      Contains(Lower(c.location), Lower("Jakarta")) && c.expectedSalary <= 25000000
  {
  }

  /** As written, "Budget Friendly" from the cleared state shows a candidate
      within the cap wherever they live. */
  lemma BudgetFriendlyAsWrittenShowsAnyCity(c: Candidate)
    requires c.expectedSalary <= 25000000 && 0 <= c.score <= 100 && c.yearsOfExperience >= 0
    ensures c in ApplyFilters([c], "", AdvancedFilters.BudgetFriendlyAsWritten(ClearedFilters()))
  {
    assert Contains(Lower(c.fullName), "");
  }

  /** The score slider as intended shows only scores inside the chosen range. */
  lemma ScoreRangeShowsOnlyRange(candidates: seq<Candidate>, term: string, f: Filters, min: int, max: int)
    ensures forall c :: c in ApplyFilters(candidates, term, AdvancedFilters.ScoreRange(f, min, max)) ==>
      min <= c.score <= max
  {
  }

  /** As written, raising the slider's lower thumb from the cleared state
      still shows a candidate below the new minimum. */
  lemma ScoreRangeAsWrittenIgnoresMinimum(c: Candidate, min: int)
    requires 0 <= c.score < min && c.score <= 100 && c.yearsOfExperience >= 0
    ensures c in ApplyFilters([c], "", AdvancedFilters.ScoreRangeAsWritten(ClearedFilters(), min, 100))
  {
    assert Contains(Lower(c.fullName), "");
  }
}
