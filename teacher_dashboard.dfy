/** The teacher dashboard's data step (`fetchData` in
    src/pages/TeacherDashboard.jsx): keep the teacher's students, look at the
    newest risk record of each, count the High ones, collect a ranking entry
    for every Medium or High student, sort the entries by score (highest
    first) and keep the first five. */
module TeacherDashboard {
  import opened Common
  import opened Roster

  const HIGH := "High"
  const MEDIUM := "Medium"
  const HIGH_COLOR := "bg-red-100 text-red-700"
  const MEDIUM_COLOR := "bg-orange-100 text-orange-700"
  const GENERAL_RISK := "General Risk"
  /** Size of the "most at risk" widget. */
  const TOP_N := 5

  /** `JSON.parse` applied to a reasons field, seen only through what the
      dashboard does with it: the decoded list of reasons, or `None` when
      parsing throws. */
  type ReasonsDecoder = string -> Option<seq<string>>

  /** One row of the "most at risk" widget; `classLabel` is the source's
      `class` field, which shows the roll number. */
  datatype RankEntry = RankEntry(
    id: int, name: string, classLabel: string, issue: string,
    risk: string, score: real, color: string)

  datatype Stats = Stats(totalStudents: nat, pendingUpdates: nat, highRiskCount: nat, updatesDone: string)

  /** What a successful `fetchData` puts into the component's state. */
  datatype Overview = Overview(stats: Stats, atRiskStudents: seq<RankEntry>)

  predicate IsAtRiskLevel(level: string) { level == HIGH || level == MEDIUM }

  /** The history is non-empty and its newest record is High. */
  predicate LatestIsHigh(h: seq<RiskRecord>) { |h| > 0 && h[0].level == HIGH }

  /** The history is non-empty and its newest record is Medium or High. */
  predicate LatestIsAtRisk(h: seq<RiskRecord>) { |h| > 0 && IsAtRiskLevel(h[0].level) }

  // ---------------------------------------------------------------------
  // One ranking entry

  /** `try { JSON.parse(raw) } catch { [raw] }` */
  function Reasons(decode: ReasonsDecoder, raw: string): seq<string> {
    match decode(raw)
    case Some(list) => list
    case None => [raw]
  }

  /** `reasons[0] || 'General Risk'`: the first decoded reason, unless there
      is none or it is the empty string. The issue shown is never blank, and
      an undecodable field is shown as it is. */
  function Issue(decode: ReasonsDecoder, raw: string): (issue: string)
    ensures issue != ""
    ensures decode(raw).None? ==> issue == (if raw == "" then GENERAL_RISK else raw)
    ensures decode(raw).Some? && |decode(raw).value| > 0 && decode(raw).value[0] != "" ==>
      issue == decode(raw).value[0]
    ensures decode(raw).Some? && (decode(raw).value == [] || decode(raw).value[0] == "") ==>
      issue == GENERAL_RISK
  {
    var reasons := Reasons(decode, raw);
    if |reasons| > 0 && reasons[0] != "" then reasons[0] else GENERAL_RISK
  }

  /** Red for High; every other level, in practice Medium, is orange. */
  function ColorFor(level: string): (color: string)
    ensures color == HIGH_COLOR <==> level == HIGH
    ensures color == MEDIUM_COLOR <==> level != HIGH
  {
    if level == HIGH then HIGH_COLOR else MEDIUM_COLOR
  }

  /** The object pushed onto `riskList` for a student whose newest record
      is `latest`. */
  function EntryFor(s: Student, latest: RiskRecord, decode: ReasonsDecoder): RankEntry {
    RankEntry(s.id, s.name, s.rollNumber, Issue(decode, latest.reasons),
              latest.level, latest.score, ColorFor(latest.level))
  }

  // ---------------------------------------------------------------------
  // The `histories.forEach` loop

  /** The final value of the `highRisk` counter, defined on prefixes so that
      it follows the loop. */
  function CountHigh(hs: seq<seq<RiskRecord>>): nat {
    if hs == [] then 0
    else CountHigh(hs[..|hs| - 1]) + (if LatestIsHigh(hs[|hs| - 1]) then 1 else 0)
  }

  /** The final value of `riskList` before sorting: one entry per at-risk
      student, in student order. */
  function Collect(ss: seq<Student>, hs: seq<seq<RiskRecord>>, decode: ReasonsDecoder): seq<RankEntry>
    requires |ss| == |hs|
  {
    if ss == [] then []
    else
      var n := |ss| - 1;
      Collect(ss[..n], hs[..n], decode)
        + (if LatestIsAtRisk(hs[n]) then [EntryFor(ss[n], hs[n][0], decode)] else [])
  }

  /** `histories.forEach((res, index) => …)`: `histories[i]` is the history
      of `students[i]` (the order `Promise.all` preserves). */
  method ScanHistories(students: seq<Student>, histories: seq<seq<RiskRecord>>, decode: ReasonsDecoder)
    returns (highRisk: nat, riskList: seq<RankEntry>)
    requires |students| == |histories|
    ensures highRisk == CountHigh(histories)
    ensures riskList == Collect(students, histories, decode)
  {
    highRisk, riskList := 0, [];
    var index := 0;
    while index < |histories|
      invariant 0 <= index <= |histories|
      invariant highRisk == CountHigh(histories[..index])
      invariant riskList == Collect(students[..index], histories[..index], decode)
    {
      var history := histories[index];
      var student := students[index];
      if |history| > 0 {
        var latest := history[0];
        if latest.level == HIGH {
          highRisk := highRisk + 1;
        }
        if latest.level == HIGH || latest.level == MEDIUM {
          riskList := riskList + [EntryFor(student, latest, decode)];
        }
      }
      assert histories[..index + 1][..index] == histories[..index];
      assert students[..index + 1][..index] == students[..index];
      index := index + 1;
    }
    assert histories[..index] == histories;
    assert students[..index] == students;
  }

  /** The indices of the students whose newest record is High. */
  function HighIndices(hs: seq<seq<RiskRecord>>): set<nat> {
    set i: nat | i < |hs| && LatestIsHigh(hs[i])
  }

  /** The indices of the students whose newest record is Medium or High. */
  function AtRiskIndices(hs: seq<seq<RiskRecord>>): set<nat> {
    set i: nat | i < |hs| && LatestIsAtRisk(hs[i])
  }

  /** `highRiskCount` is the number of students with a non-empty history
      whose newest level is High; empty histories contribute nothing. */
  lemma {:induction false} CountHighCountsHighStudents(hs: seq<seq<RiskRecord>>)
    ensures CountHigh(hs) == |HighIndices(hs)|
  {
    if hs != [] {
      var n := |hs| - 1;
      CountHighCountsHighStudents(hs[..n]);
      var before := HighIndices(hs[..n]);
      assert n !in before;
      if LatestIsHigh(hs[n]) {
        assert HighIndices(hs) == before + {n};
      } else {
        assert HighIndices(hs) == before;
      }
    }
  }

  /** Before truncation the ranking has exactly one entry per at-risk
      student. */
  lemma {:induction false} CollectCountsAtRiskStudents(ss: seq<Student>, hs: seq<seq<RiskRecord>>, decode: ReasonsDecoder)
    requires |ss| == |hs|
    ensures |Collect(ss, hs, decode)| == |AtRiskIndices(hs)|
  {
    if ss != [] {
      var n := |ss| - 1;
      CollectCountsAtRiskStudents(ss[..n], hs[..n], decode);
      var before := AtRiskIndices(hs[..n]);
      assert n !in before;
      if LatestIsAtRisk(hs[n]) {
        assert AtRiskIndices(hs) == before + {n};
      } else {
        assert AtRiskIndices(hs) == before;
      }
    }
  }

  /** `e` is the ranking entry of student `i`, whose newest record is
      Medium or High. */
  predicate RankedAt(ss: seq<Student>, hs: seq<seq<RiskRecord>>, decode: ReasonsDecoder, i: int, e: RankEntry) {
    0 <= i < |ss| == |hs| && LatestIsAtRisk(hs[i]) && e == EntryFor(ss[i], hs[i][0], decode)
  }

  /** An entry is collected exactly when it is the entry of a student whose
      newest record is Medium or High. */
  lemma {:induction false} CollectedEntries(ss: seq<Student>, hs: seq<seq<RiskRecord>>, decode: ReasonsDecoder, e: RankEntry)
    requires |ss| == |hs|
    ensures e in Collect(ss, hs, decode) <==> exists i :: RankedAt(ss, hs, decode, i, e)
  {
    if ss != [] {
      var n := |ss| - 1;
      var prev := Collect(ss[..n], hs[..n], decode);
      var last := if LatestIsAtRisk(hs[n]) then [EntryFor(ss[n], hs[n][0], decode)] else [];
      assert Collect(ss, hs, decode) == prev + last;
      CollectedEntries(ss[..n], hs[..n], decode, e);
      forall i | 0 <= i < n
        ensures RankedAt(ss[..n], hs[..n], decode, i, e) <==> RankedAt(ss, hs, decode, i, e)
      {
        assert ss[..n][i] == ss[i] && hs[..n][i] == hs[i];
      }
      if e in prev {
        var i :| RankedAt(ss[..n], hs[..n], decode, i, e);
        assert RankedAt(ss, hs, decode, i, e);
      } else if e in last {
        assert RankedAt(ss, hs, decode, n, e);
      }
      if exists i :: RankedAt(ss, hs, decode, i, e) {
        var i :| RankedAt(ss, hs, decode, i, e);
        if i < n {
          assert RankedAt(ss[..n], hs[..n], decode, i, e);
        } else {
          assert e in last;
        }
      }
    } else {
      assert forall i :: !RankedAt(ss, hs, decode, i, e);
    }
  }

  /** The ranking never holds a student whose newest level is not High or
      Medium; High rows are red, Medium rows orange, and no row has a blank
      issue. */
  lemma RankedEntriesAreAtRisk(ss: seq<Student>, hs: seq<seq<RiskRecord>>, decode: ReasonsDecoder)
    requires |ss| == |hs|
    ensures forall e :: e in Collect(ss, hs, decode) ==>
      IsAtRiskLevel(e.risk) && e.issue != ""
      && e.color == (if e.risk == HIGH then HIGH_COLOR else MEDIUM_COLOR)
  {
    forall e | e in Collect(ss, hs, decode)
      ensures IsAtRiskLevel(e.risk) && e.issue != ""
      ensures e.color == (if e.risk == HIGH then HIGH_COLOR else MEDIUM_COLOR)
    {
      CollectedEntries(ss, hs, decode, e);
      var i :| RankedAt(ss, hs, decode, i, e);
    }
  }

  /** Every High student is also ranked, so the high-risk count never
      exceeds the number of entries, which never exceeds the number of
      students. */
  lemma {:induction false} HighRiskAreRanked(ss: seq<Student>, hs: seq<seq<RiskRecord>>, decode: ReasonsDecoder)
    requires |ss| == |hs|
    ensures CountHigh(hs) <= |Collect(ss, hs, decode)| <= |ss|
  {
    if ss != [] {
      var n := |ss| - 1;
      HighRiskAreRanked(ss[..n], hs[..n], decode);
    }
  }

  // ---------------------------------------------------------------------
  // `riskList.sort((a, b) => b.score - a.score)`

  predicate SortedByScore(s: seq<RankEntry>) {
    forall i, j :: 0 <= i < j < |s| ==> s[i].score >= s[j].score
  }

  /** Inserts `x` after every entry whose score is at least its own. */
  function InsertByScore(s: seq<RankEntry>, x: RankEntry): seq<RankEntry> {
    if s == [] then [x]
    else if s[0].score >= x.score then [s[0]] + InsertByScore(s[1..], x)
    else [x] + s
  }

  /** The order a stable sort with comparator `b.score - a.score` produces:
      highest score first, entries with equal scores in collection order. */
  function SortByScore(s: seq<RankEntry>): seq<RankEntry> {
    if s == [] then [] else InsertByScore(SortByScore(s[..|s| - 1]), s[|s| - 1])
  }

  lemma {:induction false} InsertByScorePermutes(s: seq<RankEntry>, x: RankEntry)
    ensures multiset(InsertByScore(s, x)) == multiset(s) + multiset{x}
  {
    if s != [] {
      assert s == [s[0]] + s[1..];
      if s[0].score >= x.score {
        InsertByScorePermutes(s[1..], x);
      }
    }
  }

  /** Inserting keeps every score under a common bound. */
  lemma {:induction false} InsertByScoreBounded(s: seq<RankEntry>, x: RankEntry, bound: real)
    requires forall m :: 0 <= m < |s| ==> s[m].score <= bound
    requires x.score <= bound
    ensures forall k :: 0 <= k < |InsertByScore(s, x)| ==> InsertByScore(s, x)[k].score <= bound
  {
    if s != [] && s[0].score >= x.score {
      InsertByScoreBounded(s[1..], x, bound);
    }
  }

  lemma {:induction false} InsertByScoreSorted(s: seq<RankEntry>, x: RankEntry)
    requires SortedByScore(s)
    ensures SortedByScore(InsertByScore(s, x))
  {
    if s != [] && s[0].score >= x.score {
      var rest := InsertByScore(s[1..], x);
      InsertByScoreSorted(s[1..], x);
      InsertByScoreBounded(s[1..], x, s[0].score);
      var r := [s[0]] + rest;
      assert InsertByScore(s, x) == r;
      forall i, j | 0 <= i < j < |r| ensures r[i].score >= r[j].score {
        if i == 0 {
          assert r[j] == rest[j - 1];
        } else {
          assert r[i] == rest[i - 1] && r[j] == rest[j - 1];
        }
      }
    } else if s != [] {
      var r := [x] + s;
      assert InsertByScore(s, x) == r;
      forall i, j | 0 <= i < j < |r| ensures r[i].score >= r[j].score {
        if i == 0 {
          assert r[j] == s[j - 1] && s[0].score >= s[j - 1].score;
        } else {
          assert r[i] == s[i - 1] && r[j] == s[j - 1];
        }
      }
    }
  }

  /** Sorting neither adds nor drops entries, and orders them by score,
      highest first. */
  lemma {:induction false} SortByScoreSortsAndPermutes(s: seq<RankEntry>)
    ensures SortedByScore(SortByScore(s))
    ensures multiset(SortByScore(s)) == multiset(s)
  {
    if s != [] {
      var n := |s| - 1;
      SortByScoreSortsAndPermutes(s[..n]);
      InsertByScoreSorted(SortByScore(s[..n]), s[n]);
      InsertByScorePermutes(SortByScore(s[..n]), s[n]);
      assert s == s[..n] + [s[n]];
    }
  }

  lemma SortByScoreLength(s: seq<RankEntry>)
    ensures |SortByScore(s)| == |s|
  {
    SortByScoreSortsAndPermutes(s);
    assert |multiset(SortByScore(s))| == |multiset(s)|;
  }

  /** Where `InsertByScore` puts `x`: after the `k` entries scoring at least
      `x.score`, before the rest. */
  lemma {:induction false} InsertByScoreAt(s: seq<RankEntry>, x: RankEntry, k: nat)
    requires k <= |s|
    requires forall m :: 0 <= m < k ==> s[m].score >= x.score
    requires forall m :: k <= m < |s| ==> s[m].score < x.score
    ensures InsertByScore(s, x) == s[..k] + [x] + s[k..]
  {
    if s != [] && k > 0 {
      InsertByScoreAt(s[1..], x, k - 1);
      assert s[..k] == [s[0]] + s[1..][..k - 1];
      assert s[k..] == s[1..][k - 1..];
    } else if s != [] {
      assert s[..k] == [] && s[k..] == s;
    }
  }

  /** One step of insertion sort: `x`, the next input entry, goes after the
      `j` sorted entries scoring at least as much. */
  lemma InsertionStep(input: seq<RankEntry>, i: nat, j: nat)
    requires i < |input| && j <= i
    requires |SortByScore(input[..i])| == i
    requires j == 0 || SortByScore(input[..i])[j - 1].score >= input[i].score
    requires forall m :: j <= m < i ==> SortByScore(input[..i])[m].score < input[i].score
    ensures SortByScore(input[..i + 1])
      == SortByScore(input[..i])[..j] + [input[i]] + SortByScore(input[..i])[j..]
  {
    var sorted := SortByScore(input[..i]);
    assert SortedByScore(sorted) by {
      SortByScoreSortsAndPermutes(input[..i]);
    }
    forall m | 0 <= m < j ensures sorted[m].score >= input[i].score {
      assert sorted[m].score >= sorted[j - 1].score;
    }
    InsertByScoreAt(sorted, input[i], j);
    assert input[..i + 1][..i] == input[..i];
    assert SortByScore(input[..i + 1]) == InsertByScore(sorted, input[i]);
  }

  /** The array after shifting the larger-scored tail right by one and
      writing `x` into the gap. */
  lemma ShiftedIsInserted(after: seq<RankEntry>, sorted: seq<RankEntry>, x: RankEntry, j: nat)
    requires j <= |sorted| < |after|
    requires after[j] == x
    requires forall m :: 0 <= m < j ==> after[m] == sorted[m]
    requires forall m :: j < m <= |sorted| ==> after[m] == sorted[m - 1]
    ensures after[..|sorted| + 1] == sorted[..j] + [x] + sorted[j..]
  {
  }

  /** Moves `a[i]` left past the entries of `a[..i]` that score less than
      it, shifting them right by one; returns where it lands. */
  method InsertLast(a: array<RankEntry>, i: nat) returns (j: nat)
    requires i < a.Length
    modifies a
    ensures j <= i
    ensures j == 0 || old(a[j - 1]).score >= old(a[i]).score
    ensures forall m :: j <= m < i ==> old(a[m]).score < old(a[i]).score
    ensures a[..i + 1] == old(a[..i])[..j] + [old(a[i])] + old(a[..i])[j..]
    ensures a[i + 1..] == old(a[i + 1..])
  {
    ghost var sorted := a[..i];
    var x := a[i];
    j := i;
    while j > 0 && a[j - 1].score < x.score
      invariant 0 <= j <= i
      invariant forall m :: 0 <= m < j ==> a[m] == sorted[m]
      invariant forall m :: j < m <= i ==> a[m] == sorted[m - 1]
      invariant forall m :: j <= m < i ==> sorted[m].score < x.score
      invariant a[i + 1..] == old(a[i + 1..])
    {
      a[j] := a[j - 1];
      j := j - 1;
    }
    a[j] := x;
    ShiftedIsInserted(a[..], sorted, x, j);
  }

  /** Insertion sort in place, as the engine's stable sort behaves. */
  method SortRiskList(a: array<RankEntry>)
    modifies a
    ensures a[..] == SortByScore(old(a[..]))
  {
    ghost var input := a[..];
    var i := 0;
    while i < a.Length
      invariant 0 <= i <= a.Length
      invariant a[..i] == SortByScore(input[..i])
      invariant a[i..] == input[i..]
    {
      assert a[i] == input[i];
      SortByScoreLength(input[..i]);
      var j := InsertLast(a, i);
      InsertionStep(input, i, j);
      i := i + 1;
    }
    assert input[..i] == input;
  }

  // ---------------------------------------------------------------------
  // `riskList.slice(0, 5)`

  /** The first `TOP_N` entries, or all of them when there are fewer. */
  function TopRisk(sorted: seq<RankEntry>): (top: seq<RankEntry>)
    ensures |top| <= TOP_N && |top| <= |sorted|
    ensures top == sorted[..|top|]
    ensures |sorted| <= TOP_N ==> top == sorted
    ensures |sorted| >= TOP_N ==> |top| == TOP_N
  {
    if |sorted| <= TOP_N then sorted else sorted[..TOP_N]
  }

  /** On a sorted list the kept entries score at least as high as every
      entry cut off. */
  lemma TopRiskKeepsHighestScores(sorted: seq<RankEntry>)
    requires SortedByScore(sorted)
    ensures forall i, j :: 0 <= i < |TopRisk(sorted)| <= j < |sorted| ==>
      TopRisk(sorted)[i].score >= sorted[j].score
  {
  }

  // ---------------------------------------------------------------------
  // `fetchData`

  /** `Promise.all` over the history requests succeeds only when every one
      of them does. */
  predicate AllFetched(mine: seq<Student>, fetchHistory: int -> Option<seq<RiskRecord>>) {
    forall i :: 0 <= i < |mine| ==> fetchHistory(mine[i].id).Some?
  }

  /** The fetched histories, aligned with the students. */
  function Histories(mine: seq<Student>, fetchHistory: int -> Option<seq<RiskRecord>>): (hs: seq<seq<RiskRecord>>)
    ensures |hs| == |mine|
  {
    seq(|mine|, i requires 0 <= i < |mine| =>
      match fetchHistory(mine[i].id)
      case Some(h) => h
      case None => [])
  }

  /** What `fetchData` leaves in the state: `None` when a request rejects
      (the outer `catch`, which keeps the previous state). */
  function OverviewOf(stored: Option<string>, studentsResponse: Option<seq<Student>>,
                      fetchHistory: int -> Option<seq<RiskRecord>>, decode: ReasonsDecoder): Option<Overview>
  {
    match studentsResponse
    case None => None
    case Some(all) =>
      var mine := MyStudents(all, stored);
      if !AllFetched(mine, fetchHistory) then None
      else
        var hs := Histories(mine, fetchHistory);
        Some(Overview(Stats(|mine|, 0, CountHigh(hs), "100%"),
                      TopRisk(SortByScore(Collect(mine, hs, decode)))))
  }

  /** The ranking shown for one set of students and their histories: at
      most five entries, highest score first, all of them Medium or High,
      and a High count no larger than the number of students. */
  lemma RankingShape(mine: seq<Student>, hs: seq<seq<RiskRecord>>, decode: ReasonsDecoder)
    requires |mine| == |hs|
    ensures var top := TopRisk(SortByScore(Collect(mine, hs, decode)));
      && |top| <= TOP_N
      && SortedByScore(top)
      && (forall e :: e in top ==> IsAtRiskLevel(e.risk))
      && CountHigh(hs) <= |mine|
  {
    var riskList := Collect(mine, hs, decode);
    var sorted := SortByScore(riskList);
    var top := TopRisk(sorted);
    HighRiskAreRanked(mine, hs, decode);
    SortByScoreSortsAndPermutes(riskList);
    RankedEntriesAreAtRisk(mine, hs, decode);
    forall e | e in top ensures IsAtRiskLevel(e.risk) {
      assert e in multiset(sorted);
    }
  }

  /** What every successful refresh shows, as `RankingShape` states it. */
  lemma OverviewShape(stored: Option<string>, studentsResponse: Option<seq<Student>>,
                      fetchHistory: int -> Option<seq<RiskRecord>>, decode: ReasonsDecoder)
    ensures var r := OverviewOf(stored, studentsResponse, fetchHistory, decode);
      r.Some? ==>
        var top := r.value.atRiskStudents;
        && |top| <= TOP_N
        && SortedByScore(top)
        && (forall e :: e in top ==> IsAtRiskLevel(e.risk))
        && r.value.stats.highRiskCount <= r.value.stats.totalStudents
  {
    if studentsResponse.Some? {
      var mine := MyStudents(studentsResponse.value, stored);
      if AllFetched(mine, fetchHistory) {
        RankingShape(mine, Histories(mine, fetchHistory), decode);
      }
    }
  }

  /** The body of `fetchData`. `studentsResponse` is the body of
      `GET /students/` (`None` when the request fails), `fetchHistory` gives
      the body of `GET /students/{id}/history`, `stored` is the session's
      `user_id`. */
  method FetchData(stored: Option<string>, studentsResponse: Option<seq<Student>>,
                   fetchHistory: int -> Option<seq<RiskRecord>>, decode: ReasonsDecoder)
    returns (r: Option<Overview>)
    ensures r == OverviewOf(stored, studentsResponse, fetchHistory, decode)
    ensures r.Some? ==>
      var top := r.value.atRiskStudents;
      && |top| <= TOP_N
      && SortedByScore(top)
      && (forall e :: e in top ==> IsAtRiskLevel(e.risk))
      && r.value.stats.highRiskCount <= r.value.stats.totalStudents
  {
    OverviewShape(stored, studentsResponse, fetchHistory, decode);
    if studentsResponse.None? {
      return None;
    }
    var students := MyStudents(studentsResponse.value, stored);
    if !AllFetched(students, fetchHistory) {
      return None;
    }
    var histories := Histories(students, fetchHistory);
    var highRisk, riskList := ScanHistories(students, histories, decode);
    var a := new RankEntry[|riskList|](i requires 0 <= i < |riskList| => riskList[i]);
    assert a[..] == riskList;
    SortRiskList(a);
    var top := TopRisk(a[..]);
    r := Some(Overview(Stats(|students|, 0, highRisk, "100%"), top));
  }
}
