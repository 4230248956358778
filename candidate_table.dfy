/** The candidate table: row selection, pagination, and the per-row figures
    (skills match, score band, badges) plus the footer's average score. */
module CandidateTable {
  import opened Seqs
  import opened Text
  import opened Candidates

  // ---- selection ----

  /** `candidates.map((c) => c.id)`. */
  function Ids(candidates: seq<Candidate>): (r: seq<int>)
    ensures |r| == |candidates|
    ensures forall i :: 0 <= i < |r| ==> r[i] == candidates[i].id
    decreases |candidates|
  {
    if candidates == [] then [] else [candidates[0].id] + Ids(candidates[1..])
  }

  function NotId(id: int): int -> bool
  {
    (x: int) => x != id
  }

  /** `handleSelectCandidate`: checking appends the id (no duplicate check);
      unchecking drops every occurrence and keeps the rest in order. */
  function Toggled(selected: seq<int>, id: int, checked: bool): (r: seq<int>)
    ensures checked ==> |r| == |selected| + 1 && r[..|selected|] == selected && r[|selected|] == id
    ensures !checked ==> id !in r
    ensures !checked ==> forall x :: x in r <==> x in selected && x != id
    ensures !checked ==> IsSubsequence(r, selected) && |r| == Count(NotId(id), selected)
  {
    if checked then
      var r := selected + [id];
      assert r[..|selected|] == selected;
      r
    else
      FilterIsSubsequence(NotId(id), selected);
      FilterLength(NotId(id), selected);
      Filter(NotId(id), selected)
  }

  /** Unchecking right after checking removes the new entry and every older copy too. */
  lemma SelectThenDeselect(selected: seq<int>, id: int)
    ensures Toggled(Toggled(selected, id, true), id, false) == Toggled(selected, id, false)
  {
    var s := selected + [id];
    assert s[..|selected|] == selected;
    FilterAppend(NotId(id), selected, [id]);
    assert Filter(NotId(id), [id]) == [];
  }

  /** Checking a row twice lists its id twice. */
  lemma SelectTwiceDuplicates(selected: seq<int>, id: int)
    ensures var r := Toggled(Toggled(selected, id, true), id, true);
      |r| == |selected| + 2 && r[|selected|] == id && r[|selected| + 1] == id
  {
  }

  // ---- pagination ----

  /** `Math.ceil(n / rowsPerPage)`. */
  function TotalPages(n: nat, rows: int): (r: nat)
    requires rows > 0
    ensures n == 0 ==> r == 0
    ensures n > 0 ==> r >= 1 && (r - 1) * rows < n <= r * rows
  {
    var r := (n + rows - 1) / rows;
    assert r * rows <= n + rows - 1 < (r + 1) * rows;
    assert (r - 1) * rows == r * rows - rows;
    r
  }

  /** `candidates.slice(start, start + rows)`. */
  function Window(candidates: seq<Candidate>, start: nat, rows: int): (r: seq<Candidate>)
    requires rows > 0
    ensures |r| <= rows
    ensures start >= |candidates| ==> r == []
    ensures start < |candidates| ==> |r| == Min(rows, |candidates| - start)
    ensures forall i :: 0 <= i < |r| ==> start + i < |candidates| && r[i] == candidates[start + i]
  {
    if start >= |candidates| then [] else candidates[start..Min(start + rows, |candidates|)]
  }

  /** `candidates.slice((page - 1) * rows, (page - 1) * rows + rows)`. */
  function PageRows(candidates: seq<Candidate>, page: int, rows: int): (r: seq<Candidate>)
    requires page >= 1 && rows > 0
    ensures |r| <= rows
    ensures var start := (page - 1) * rows;
      && (start >= |candidates| ==> r == [])
      && (start < |candidates| ==> |r| == Min(rows, |candidates| - start))
      && forall i :: 0 <= i < |r| ==> start + i < |candidates| && r[i] == candidates[start + i]
  {
    MulNonNegative(page - 1, rows);
    Window(candidates, (page - 1) * rows, rows)
  }

  lemma MulNonNegative(a: int, b: int)
    requires a >= 0 && b >= 0
    ensures a * b >= 0
  {
  }

  /** The next page starts one page further on. */
  lemma NextPageStart(k: int, rows: int)
    requires k >= 1 && rows > 0
    ensures k * rows == (k - 1) * rows + rows && (k - 1) * rows >= 0
  {
    MulNonNegative(k - 1, rows);
  }

  function Min(a: int, b: int): int { if a <= b then a else b }
  function Max(a: int, b: int): int { if a >= b then a else b }

  /** The first `k` pages, one after the other. */
  function FirstPages(candidates: seq<Candidate>, rows: int, k: nat): seq<Candidate>
    requires rows > 0
    decreases k
  {
    if k == 0 then [] else FirstPages(candidates, rows, k - 1) + PageRows(candidates, k, rows)
  }

  /** The first `k` pages are the list's first `k * rows` rows. */
  lemma {:induction false} FirstPagesPrefix(candidates: seq<Candidate>, rows: int, k: nat)
    requires rows > 0
    ensures FirstPages(candidates, rows, k) == candidates[..Min(k * rows, |candidates|)]
    decreases k
  {
    if k > 0 {
      FirstPagesPrefix(candidates, rows, k - 1);
      var start := (k - 1) * rows;
      NextPageStart(k, rows);
      var page := PageRows(candidates, k, rows);
      if start < |candidates| {
        var end := Min(start + rows, |candidates|);
        assert page == candidates[start..end];
        assert candidates[..end] == candidates[..start] + candidates[start..end];
      }
    }
  }

  /** Pages 1 to `totalPages` show every row exactly once, in order. */
  lemma PagesCoverList(candidates: seq<Candidate>, rows: int)
    requires rows > 0
    ensures FirstPages(candidates, rows, TotalPages(|candidates|, rows)) == candidates
  {
    var t := TotalPages(|candidates|, rows);
    FirstPagesPrefix(candidates, rows, t);
    assert Min(t * rows, |candidates|) == |candidates|;
  }

  /** Every page from 1 to `totalPages` holds at least one row. */
  lemma PagesInRangeNonEmpty(candidates: seq<Candidate>, rows: int, page: int)
    requires rows > 0 && 1 <= page <= TotalPages(|candidates|, rows)
    ensures PageRows(candidates, page, rows) != []
  {
    var t := TotalPages(|candidates|, rows);
    assert (page - 1) * rows <= (t - 1) * rows;
  }

  /** The row-count choices of the footer's select. */
  predicate IsRowsOption(rows: int)
  {
    rows == 5 || rows == 10 || rows == 20 || rows == 50
  }

  /** The table's state: the selected ids, the page and the rows per page. */
  class TableState {
    var selected: seq<int>
    var currentPage: int
    var rowsPerPage: int

    predicate Valid()
      reads this
    {
      currentPage >= 1 && IsRowsOption(rowsPerPage)
    }

    constructor ()
      ensures Valid()
      ensures selected == [] && currentPage == 1 && rowsPerPage == 10
    {
      selected := [];
      currentPage := 1;
      rowsPerPage := 10;
    }

    /** `handleSelectAll`. */
    method SelectAll(candidates: seq<Candidate>, checked: bool)
      modifies this`selected
      ensures checked ==> selected == Ids(candidates)
      ensures !checked ==> selected == []
    {
      if checked {
        selected := Ids(candidates);
      } else {
        selected := [];
      }
    }

    /** `handleSelectCandidate`. */
    method SelectCandidate(id: int, checked: bool)
      modifies this`selected
      ensures selected == Toggled(old(selected), id, checked)
    {
      if checked {
        selected := selected + [id];
      } else {
        selected := Filter(NotId(id), selected);
      }
    }

    /** The "previous" button: `Math.max(1, currentPage - 1)`. */
    method PrevPage()
      requires Valid()
      modifies this`currentPage
      ensures Valid()
      ensures currentPage == Max(1, old(currentPage) - 1)
    {
      currentPage := Max(1, currentPage - 1);
    }

    /** The "next" button: `Math.min(totalPages, currentPage + 1)` (the buttons
        exist only when the list is non-empty). */
    method NextPage(n: nat)
      requires Valid() && n > 0
      modifies this`currentPage
      ensures Valid()
      ensures currentPage == Min(TotalPages(n, rowsPerPage), old(currentPage) + 1)
      ensures currentPage <= TotalPages(n, rowsPerPage)
    {
      currentPage := Min(TotalPages(n, rowsPerPage), currentPage + 1);
    }

    /** The rows select; the page is NOT reset. */
    method SetRowsPerPage(rows: int)
      requires Valid() && IsRowsOption(rows)
      modifies this`rowsPerPage
      ensures Valid() && rowsPerPage == rows
    {
      rowsPerPage := rows;
    }

    /** The rows shown for the current state. */
    function CurrentRows(candidates: seq<Candidate>): (r: seq<Candidate>)
      requires Valid()
      reads this
      ensures r == PageRows(candidates, currentPage, rowsPerPage)
      ensures |r| <= rowsPerPage
      ensures var start := (currentPage - 1) * rowsPerPage;
        && (start >= |candidates| ==> r == [])
        && (start < |candidates| ==> |r| == Min(rowsPerPage, |candidates| - start))
        && forall i :: 0 <= i < |r| ==> start + i < |candidates| && r[i] == candidates[start + i]
    {
      PageRows(candidates, currentPage, rowsPerPage)
    }
  }

  // ---- per-row figures ----

  datatype SkillsMatch = SkillsMatch(matching: nat, total: nat, percentage: Option<int>)

  function InRequired(required: seq<string>): string -> bool
  {
    (s: string) => s in required
  }

  /** `Math.round(p / q)` for `q > 0`, in exact rational arithmetic: the
      nearest integer, halves rounded up. */
  function RoundDiv(p: int, q: int): (r: int)
    requires q > 0
    ensures 2 * q * r - q <= 2 * p < 2 * q * r + q
  {
    (2 * p + q) / (2 * q)
  }

  /** `getSkillsMatchInfo`: the candidate's skills that the job requires, the
      number of required skills and the rounded percentage; with no required
      skills the division is 0/0 (NaN), here `None`. */
  function SkillsMatchInfo(c: Candidate, required: seq<string>): (r: SkillsMatch)
    ensures r.matching == Count(InRequired(required), c.skills)
    ensures r.total == |required|
    ensures r.percentage.None? <==> |required| == 0
    ensures r.percentage.Some? ==>
      2 * r.total * r.percentage.value - r.total <= 200 * r.matching < 2 * r.total * r.percentage.value + r.total
  {
    var matching := Filter(InRequired(required), c.skills);
    FilterLength(InRequired(required), c.skills);
    var m := |matching|;
    var t := |required|;
    SkillsMatch(m, t, if t == 0 then None else Some(RoundDiv(100 * m, t)))
  }

  /** With no repeated skills the percentage lies between 0 and 100. */
  lemma SkillsMatchBounded(c: Candidate, required: seq<string>)
    requires NoDuplicates(c.skills) && |required| > 0
    ensures SkillsMatchInfo(c, required).matching <= |required|
    ensures 0 <= SkillsMatchInfo(c, required).percentage.value <= 100
  {
    var matching := Filter(InRequired(required), c.skills);
    FilterNoDuplicates(InRequired(required), c.skills);
    FilterLength(InRequired(required), c.skills);
    DistinctWithin(matching, required);
    var r := SkillsMatchInfo(c, required);
    RoundBetween(100 * r.matching, |required|, r.percentage.value, 0, 100);
  }

  /** A ratio between `lo` and `hi` rounds to an integer between `lo` and `hi`. */
  lemma RoundBetween(p: int, q: int, r: int, lo: int, hi: int)
    requires q > 0 && q * lo <= p <= q * hi
    requires 2 * q * r - q <= 2 * p < 2 * q * r + q
    ensures lo <= r <= hi
  {
    var above := 2 * r - 2 * hi - 1;
    assert q * above == 2 * q * r - 2 * (q * hi) - q;
    NegativeFactor(q, above);
    var below := 2 * lo - 2 * r - 1;
    assert q * below == 2 * (q * lo) - 2 * q * r - q;
    NegativeFactor(q, below);
  }

  lemma NegativeFactor(q: int, x: int)
    requires q > 0 && q * x < 0
    ensures x < 0
  {
  }

  /** A repeated matching skill is counted twice, so `matching` can exceed `total`. */
  lemma RepeatedSkillOvercounts(c: Candidate)
    requires c.skills == ["React", "React"]
    ensures SkillsMatchInfo(c, ["React"]) == SkillsMatch(2, 1, Some(200))
  {
    assert Count(InRequired(["React"]), c.skills) == 2 by {
      assert c.skills[1..] == ["React"];
      assert c.skills[1..][1..] == [];
    }
  }

  /** Colour bands; `Rank` orders them from lowest to highest. */
  datatype Band = Red | Yellow | Blue | Green

  function Rank(b: Band): nat
  {
    match b
    case Red => 0
    case Yellow => 1
    case Blue => 2
    case Green => 3
  }

  /** `getScoreColor`: green from 90, blue from 80, yellow from 70, red below. */
  function ScoreColor(score: int): (b: Band)
    ensures b == Green <==> score >= 90
    ensures b == Blue <==> 80 <= score < 90
    ensures b == Yellow <==> 70 <= score < 80
    ensures b == Red <==> score < 70
  {
    if score >= 90 then Green
    else if score >= 80 then Blue
    else if score >= 70 then Yellow
    else Red
  }

  /** A higher score never gets a lower band. */
  lemma ScoreColorMonotone(a: int, b: int)
    requires a <= b
    ensures Rank(ScoreColor(a)) <= Rank(ScoreColor(b))
  {
  }

  /** The skills-match badge: green from 80 %, yellow from 60 %, red below
      and for the NaN of an empty required list. */
  function MatchBand(percentage: Option<int>): (b: Band)
    ensures b != Blue
    ensures b == Green <==> percentage.Some? && percentage.value >= 80
    ensures b == Yellow <==> percentage.Some? && 60 <= percentage.value < 80
  {
    if percentage.Some? && percentage.value >= 80 then Green
    else if percentage.Some? && percentage.value >= 60 then Yellow
    else Red
  }

  lemma MatchBandMonotone(a: int, b: int)
    requires a <= b
    ensures Rank(MatchBand(Some(a))) <= Rank(MatchBand(Some(b)))
  {
  }

  // ---- badges ----

  datatype Tone = ToneBlue | ToneYellow | TonePurple | ToneGreen | ToneEmerald | ToneRed | ToneGray

  /** `statusColors[status] || gray`. */
  function StatusTone(status: string): (t: Tone)
    ensures t == ToneGray <==> status !in ["applied", "screening", "review", "offer", "hired", "rejected"]
  {
    match status
    case "applied" => ToneBlue
    case "screening" => ToneYellow
    case "review" => TonePurple
    case "offer" => ToneGreen
    case "hired" => ToneEmerald
    case "rejected" => ToneRed
    case _ => ToneGray
  }

  /** The six statuses get six different tones. */
  lemma StatusTonesDistinct()
    ensures var known := ["applied", "screening", "review", "offer", "hired", "rejected"];
      forall i, j :: 0 <= i < j < |known| ==> StatusTone(known[i]) != StatusTone(known[j])
  {
  }

  /** `colors[level] || colors.mid`. */
  function ExperienceTone(level: string): (t: Tone)
    ensures level !in ["junior", "senior", "lead"] <==> t == ToneBlue
    ensures t in [ToneGray, ToneBlue, ToneGreen, TonePurple]
  {
    match level
    case "junior" => ToneGray
    case "senior" => ToneGreen
    case "lead" => TonePurple
    case _ => ToneBlue
  }

  /** An unknown level is styled like `mid`. */
  lemma UnknownLevelLooksMid(level: string)
    requires level !in ["junior", "mid", "senior", "lead"]
    ensures ExperienceTone(level) == ExperienceTone("mid")
  {
  }

  /** `s.charAt(0).toUpperCase() + s.slice(1)`. */
  function Capitalize(s: string): (r: string)
    ensures |r| == |s|
    ensures s != [] ==> r[0] == UpperChar(s[0]) && r[1..] == s[1..]
    ensures s == [] ==> r == []
  {
    if s == [] then [] else [UpperChar(s[0])] + s[1..]
  }

  /** The label differs from the value only in the case of its first letter. */
  lemma CapitalizeKeepsLetters(s: string)
    ensures Lower(Capitalize(s)) == Lower(s)
  {
    var r := Capitalize(s);
    assert forall i :: 0 <= i < |s| ==> LowerChar(r[i]) == LowerChar(s[i]);
  }

  // ---- footer ----

  function SumScores(candidates: seq<Candidate>): int
    decreases |candidates|
  {
    if candidates == [] then 0 else candidates[0].score + SumScores(candidates[1..])
  }

  /** The footer's average, `Math.round(sum / n)`, shown only for a non-empty list. */
  function AverageScore(candidates: seq<Candidate>): (r: Option<int>)
    ensures r.None? <==> |candidates| == 0
    ensures r.Some? ==> var n := |candidates|;
      2 * n * r.value - n <= 2 * SumScores(candidates) < 2 * n * r.value + n
  {
    if |candidates| == 0 then None else Some(RoundDiv(SumScores(candidates), |candidates|))
  }

  lemma {:induction false} SumScoresBounded(candidates: seq<Candidate>, lo: int, hi: int)
    requires forall i :: 0 <= i < |candidates| ==> lo <= candidates[i].score <= hi
    ensures |candidates| * lo <= SumScores(candidates) <= |candidates| * hi
    decreases |candidates|
  {
    if candidates != [] {
      SumScoresBounded(candidates[1..], lo, hi);
      assert |candidates| * lo == lo + (|candidates| - 1) * lo;
      assert |candidates| * hi == hi + (|candidates| - 1) * hi;
    }
  }

  /** The average of scores between `lo` and `hi` is between `lo` and `hi`. */
  lemma AverageScoreBounded(candidates: seq<Candidate>, lo: int, hi: int)
    requires |candidates| > 0
    requires forall i :: 0 <= i < |candidates| ==> lo <= candidates[i].score <= hi
    ensures lo <= AverageScore(candidates).value <= hi
  {
    SumScoresBounded(candidates, lo, hi);
    RoundBetween(SumScores(candidates), |candidates|, AverageScore(candidates).value, lo, hi);
  }
}
