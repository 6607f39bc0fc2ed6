/**
 * The dashboard: rank badge and colour maps, the fixed rank ladder with the progress bar
 * toward the next rank, overall completion, and the "next technique" suggestion.
 */
module DashboardPage {
  import opened Common
  import opened Text
  import opened Rows

  /** `getRankBadgeClass`: the badge class of a rank label, matched ignoring case. */
  function RankBadgeClass(rank: string): (c: string)
    ensures c == "rank-badge-champion" <==> ToLower(rank) == "champion"
    ensures c == "rank-badge-elite" <==> ToLower(rank) == "elite"
    ensures c == "rank-badge-challenger" <==> ToLower(rank) == "challenger"
    ensures c == "rank-badge-contender" <==> ToLower(rank) == "contender"
    ensures c == "rank-badge-amateur" <==> ToLower(rank) !in {"champion", "elite", "challenger", "contender"}
  {
    var r := ToLower(rank);
    if r == "champion" then "rank-badge-champion"
    else if r == "elite" then "rank-badge-elite"
    else if r == "challenger" then "rank-badge-challenger"
    else if r == "contender" then "rank-badge-contender"
    else "rank-badge-amateur"
  }

  /** `getRankColor`: the colour of a rank label, matched exactly. */
  function RankColor(rank: string): (c: string)
    ensures c == "#FFD700" <==> rank == "Champion"
    ensures c == "#C0C0C0" <==> rank == "Elite"
    ensures c == "#4A90E2" <==> rank == "Challenger"
    ensures c == "#6BCF7F" <==> rank == "Contender"
    ensures c == "#A0A0A0" <==> rank !in {"Champion", "Elite", "Challenger", "Contender"}
  {
    if rank == "Champion" then "#FFD700"
    else if rank == "Elite" then "#C0C0C0"
    else if rank == "Challenger" then "#4A90E2"
    else if rank == "Contender" then "#6BCF7F"
    else "#A0A0A0"
  }

  /** A label in another case gets the matching badge but the default colour. */
  lemma BadgeIgnoresCaseColourDoesNot()
    ensures RankBadgeClass("CHAMPION") == "rank-badge-champion"
    ensures RankColor("CHAMPION") == "#A0A0A0"
  {
    assert ToLower("CHAMPION") == "champion";
  }

  /** The ladder the dashboard counts toward: each rank and the power level that reaches it. */
  const Ladder: seq<(string, int)> := [("Contender", 200), ("Challenger", 500), ("Elite", 1000), ("Champion", 2000)]

  /** The next rank and the power level it requires. */
  datatype NextRank = NextRank(next: string, required: int)

  /** `getNextRankThreshold`: the first rung of the ladder above the power level, if any. */
  function NextRankThreshold(powerLevel: int): (r: Option<NextRank>)
    ensures r.None? <==> forall j :: 0 <= j < |Ladder| ==> Ladder[j].1 <= powerLevel
    ensures r.Some? ==> (r.value.next, r.value.required) in Ladder && r.value.required > powerLevel
    ensures r.Some? ==> forall j :: 0 <= j < |Ladder| && Ladder[j].1 > powerLevel ==> r.value.required <= Ladder[j].1
  {
    assert Ladder[0].1 == 200 && Ladder[1].1 == 500 && Ladder[2].1 == 1000 && Ladder[3].1 == 2000;
    if powerLevel < 200 then Some(NextRank("Contender", 200))
    else if powerLevel < 500 then Some(NextRank("Challenger", 500))
    else if powerLevel < 1000 then Some(NextRank("Elite", 1000))
    else if powerLevel < 2000 then Some(NextRank("Champion", 2000))
    else None
  }

  /** The remaining experience shown under the bar is positive whenever a next rank exists. */
  lemma RemainingIsPositive(powerLevel: int)
    requires NextRankThreshold(powerLevel).Some?
    ensures NextRankThreshold(powerLevel).value.required - powerLevel > 0
  {
  }

  /** The power level where the band toward `required` starts. */
  function BandFloor(required: int): int {
    if required == 200 then 0
    else if required == 500 then 200
    else if required == 1000 then 500
    else 1000
  }

  /** `progressToNext`: the percentage of the current band covered, or 100 past the last rung. */
  function ProgressToNext(powerLevel: int): (p: real)
    ensures powerLevel >= 2000 ==> p == 100.0
    ensures powerLevel < 2000 ==> p < 100.0
    ensures powerLevel >= 0 ==> 0.0 <= p
  {
    match NextRankThreshold(powerLevel)
    case None => 100.0
    case Some(n) =>
      var floor := BandFloor(n.required);
      var width := n.required - floor;
      assert width > 0 && powerLevel < n.required;
      assert powerLevel >= 0 ==> powerLevel >= floor;
      BandShare(powerLevel - floor, width);
      (powerLevel - floor) as real / width as real * 100.0
  }

  /** A part of a band below its width is less than the whole band, in percent. */
  lemma BandShare(part: int, width: int)
    requires 0 < width && part < width
    ensures part as real / width as real * 100.0 < 100.0
    ensures part >= 0 ==> 0.0 <= part as real / width as real * 100.0
  {
    var x := part as real / width as real;
    assert x * width as real == part as real;
  }

  /** `Math.round(x)`: the integer nearest to `x`, halves rounded up. */
  function Round(x: real): (r: int)
    ensures r as real - 0.5 <= x < r as real + 0.5
  {
    (x + 0.5).Floor
  }

  /** `completionPercentage`: completed over total in percent, rounded, and 0 without techniques. */
  function CompletionPercentage(completed: int, total: int): (p: int)
    ensures total <= 0 ==> p == 0
    ensures total > 0 ==> p as real - 0.5 <= completed as real / total as real * 100.0 < p as real + 0.5
    ensures total > 0 && 0 <= completed <= total ==> 0 <= p <= 100
    ensures total > 0 && completed == total ==> p == 100
    ensures total > 0 && completed == 0 ==> p == 0
  {
    if total > 0 then
      PercentRounded(completed, total);
      Round(completed as real / total as real * 100.0)
    else 0
  }

  /** Bounds of the rounded share `c / t` in percent. */
  lemma PercentRounded(c: int, t: int)
    requires t > 0
    ensures 0 <= c <= t ==> 0 <= Round(c as real / t as real * 100.0) <= 100
    ensures c == t ==> Round(c as real / t as real * 100.0) == 100
    ensures c == 0 ==> Round(c as real / t as real * 100.0) == 0
  {
    var x := c as real / t as real;
    assert x * t as real == c as real;
    if 0 <= c <= t {
      assert 0.0 <= x <= 1.0;
    }
    if c == t {
      assert x == 1.0;
    }
  }

  /** The number of progress rows the recent-progress query returns: at most three, newest first. */
  const RecentLimit: nat := 3

  /**
   * `completedTechniques` as written: the length of the recent-progress query, limited to
   * three rows and counting every row of the user, completed or not.
   */
  function CompletedTechniquesAsWritten(progressNewestFirst: seq<ProgressRow>): (n: nat)
    ensures n <= RecentLimit
    ensures n == if |progressNewestFirst| < RecentLimit then |progressNewestFirst| else RecentLimit
  {
    |Recent(progressNewestFirst)|
  }

  /** The rows the limited query returns. */
  function Recent(progressNewestFirst: seq<ProgressRow>): (r: seq<ProgressRow>)
    ensures |r| <= RecentLimit && r <= progressNewestFirst
  {
    if |progressNewestFirst| <= RecentLimit then progressNewestFirst else progressNewestFirst[..RecentLimit]
  }

  /** The ids of the techniques with a completed row among the given progress rows. */
  function CompletedIds(progress: seq<ProgressRow>): (ids: set<string>)
    ensures forall id :: id in ids <==> exists p :: p in progress && p.techniqueId == id && p.completed
  {
    set p | p in progress && p.completed :: p.techniqueId
  }

  /** The intended count: the distinct techniques the user has completed. */
  function CompletedTechniques(progress: seq<ProgressRow>): (n: nat)
    ensures n == |CompletedIds(progress)|
    ensures n <= |progress|
    ensures n == 0 <==> forall p :: p in progress ==> !p.completed
    ensures forall p :: p in progress && p.completed ==> 1 <= n
  {
    CompletedIdsCard(progress);
    var ids := CompletedIds(progress);
    assert forall p :: p in progress && p.completed ==> p.techniqueId in ids;
    |ids|
  }

  /** There are no more completed ids than progress rows. */
  lemma {:induction false} CompletedIdsCard(progress: seq<ProgressRow>)
    ensures |CompletedIds(progress)| <= |progress|
  {
    if progress != [] {
      var rest := progress[1..];
      CompletedIdsCard(rest);
      assert CompletedIds(progress) <= CompletedIds(rest) + {progress[0].techniqueId};
      SubsetCard(CompletedIds(progress), CompletedIds(rest) + {progress[0].techniqueId});
    }
  }

  /** Four completed techniques: the dashboard as written shows three, the intended count four. */
  lemma CompletedTechniquesUndercounts(a: ProgressRow, b: ProgressRow, c: ProgressRow, d: ProgressRow)
    requires a.completed && b.completed && c.completed && d.completed
    requires |{a.techniqueId, b.techniqueId, c.techniqueId, d.techniqueId}| == 4
    ensures CompletedTechniquesAsWritten([a, b, c, d]) == 3
    ensures CompletedTechniques([a, b, c, d]) == 4
  {
    assert CompletedIds([a, b, c, d]) == {a.techniqueId, b.techniqueId, c.techniqueId, d.techniqueId};
  }

  /** A viewed but unfinished technique: the dashboard as written counts it, the intended count does not. */
  lemma CompletedTechniquesCountsUnfinished(a: ProgressRow)
    requires !a.completed
    ensures CompletedTechniquesAsWritten([a]) == 1
    ensures CompletedTechniques([a]) == 0
  {
    assert CompletedIds([a]) == {};
  }

  /** The intended count never exceeds the number of techniques when every completed row names one of them. */
  lemma CompletedTechniquesBounded(progress: seq<ProgressRow>, techniques: seq<TechniqueRow>)
    requires forall p :: p in progress && p.completed ==> exists t :: t in techniques && t.id == p.techniqueId
    ensures CompletedTechniques(progress) <= |techniques|
    ensures 0 <= CompletionPercentage(CompletedTechniques(progress), |techniques|) <= 100
  {
    var ids := set t | t in techniques :: t.id;
    assert CompletedIds(progress) <= ids;
    SubsetCard(CompletedIds(progress), ids);
    ImageCard(techniques);
  }

  lemma SubsetCard(a: set<string>, b: set<string>)
    requires a <= b
    ensures |a| <= |b|
  {
    assert b == a + (b - a);
  }

  /** There are no more ids than techniques. */
  lemma {:induction false} ImageCard(techniques: seq<TechniqueRow>)
    ensures |set t | t in techniques :: t.id| <= |techniques|
  {
    if techniques != [] {
      var rest := techniques[1..];
      ImageCard(rest);
      assert (set t | t in techniques :: t.id) == (set t | t in rest :: t.id) + {techniques[0].id};
    }
  }

  /** The ids named by the given progress rows, whatever their `completed` flag. */
  function RowIds(progress: seq<ProgressRow>): (ids: set<string>)
    ensures forall id :: id in ids <==> exists p :: p in progress && p.techniqueId == id
  {
    set p | p in progress :: p.techniqueId
  }

  /** `find`: the first technique in the fetched order whose id is not in `done`. */
  function NextIncomplete(techniques: seq<TechniqueRow>, done: set<string>): (r: Option<nat>)
    ensures r.Some? ==> r.value < |techniques| && techniques[r.value].id !in done
    ensures r.Some? ==> forall j :: 0 <= j < r.value ==> techniques[j].id in done
    ensures r.None? <==> forall j :: 0 <= j < |techniques| ==> techniques[j].id in done
  {
    if techniques == [] then None
    else if techniques[0].id !in done then Some(0)
    else match NextIncomplete(techniques[1..], done)
      case None => None
      case Some(k) => Some(k + 1)
  }

  /** The suggestion as written: it skips every technique named by the three most recent rows. */
  function NextIncompleteAsWritten(techniques: seq<TechniqueRow>, progressNewestFirst: seq<ProgressRow>): (r: Option<nat>)
    ensures r.Some? ==> r.value < |techniques|
    ensures r.Some? ==> forall p :: p in Recent(progressNewestFirst) ==> p.techniqueId != techniques[r.value].id
  {
    NextIncomplete(techniques, RowIds(Recent(progressNewestFirst)))
  }

  /** The intended suggestion: the first technique the user has not completed, judged on all rows. */
  function NextIncompleteIntended(techniques: seq<TechniqueRow>, progress: seq<ProgressRow>): (r: Option<nat>)
    ensures r.Some? ==> r.value < |techniques|
    ensures r.Some? ==> forall p :: p in progress && p.completed ==> p.techniqueId != techniques[r.value].id
    ensures r.None? <==> forall t :: t in techniques ==> exists p :: p in progress && p.completed && p.techniqueId == t.id
  {
    var r := NextIncomplete(techniques, CompletedIds(progress));
    assert r.Some? ==> techniques[r.value] in techniques;
    r
  }

  /** A technique completed longest ago: the suggestion as written offers it again, the intended one does not. */
  lemma NextIncompleteAsWrittenRepeats(t: TechniqueRow, a: ProgressRow, b: ProgressRow, c: ProgressRow, d: ProgressRow)
    requires a.techniqueId == t.id && a.completed
    requires t.id !in {b.techniqueId, c.techniqueId, d.techniqueId}
    ensures NextIncompleteAsWritten([t], [b, c, d, a]) == Some(0)
    ensures NextIncompleteIntended([t], [b, c, d, a]) == None
  {
    assert Recent([b, c, d, a]) == [b, c, d];
    assert a in [b, c, d, a];
  }

  /** A technique merely opened: the suggestion as written skips it, the intended one offers it. */
  lemma NextIncompleteAsWrittenSkipsUnfinished(t: TechniqueRow, a: ProgressRow)
    requires a.techniqueId == t.id && !a.completed
    ensures NextIncompleteAsWritten([t], [a]) == None
    ensures NextIncompleteIntended([t], [a]) == Some(0)
  {
    assert Recent([a]) == [a];
    assert a in [a];
  }

  /** "All techniques completed!" shows exactly when every fetched technique is named by a recent row. */
  lemma AllCompletedMessage(techniques: seq<TechniqueRow>, progressNewestFirst: seq<ProgressRow>)
    ensures NextIncompleteAsWritten(techniques, progressNewestFirst).None? <==>
      forall t :: t in techniques ==> exists p :: p in Recent(progressNewestFirst) && p.techniqueId == t.id
  {
    var r := NextIncompleteAsWritten(techniques, progressNewestFirst);
    if r.Some? {
      assert techniques[r.value] in techniques;
    }
  }
}
