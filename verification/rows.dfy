/** The shapes of the database rows the pages read, as plain values. Dates are opaque strings. */
module Rows {
  import opened Common

  /** A row of `techniques`: the optional narrative fields stay optional. */
  datatype TechniqueRow = TechniqueRow(
    id: string,
    categoryId: string,
    name: string,
    orderIndex: int,
    videoUrl: Option<string>,
    xpReward: int,
    why: Option<string>,
    how: Option<string>,
    whenToUse: Option<string>,
    commonMistakes: Option<string>,
    tacticalUses: Option<string>,
    simpleDrills: Option<string>)

  /** A row of `user_progress`; `sectionsRead` is the stored read-map, absent when the column is null. */
  datatype ProgressRow = ProgressRow(
    id: string,
    userId: string,
    techniqueId: string,
    completed: bool,
    completedAt: string,
    sectionsRead: Option<map<string, bool>>)

  /** A row of `disciplines`. */
  datatype DisciplineRow = DisciplineRow(id: string, name: string, isActive: bool, orderIndex: int)

  /** A row of `categories`. */
  datatype CategoryRow = CategoryRow(id: string, disciplineId: string, name: string, orderIndex: int, isActive: bool)

  /** The two columns of `profiles` that completion reads and the update returns. */
  datatype ProfileSnapshot = ProfileSnapshot(powerLevel: int, rank: string)

  /** A row of `user_legal_acceptance`. */
  datatype Acceptance = Acceptance(userId: string, waiverVersion: string)

  /** `.maybeSingle()`: the row when exactly one matched; no data when none or several matched. */
  function MaybeSingle<T>(matches: seq<T>): (r: Option<T>)
    ensures r.Some? <==> |matches| == 1
    ensures r.Some? ==> r.value == matches[0]
  {
    if |matches| == 1 then Some(matches[0]) else None
  }
}
