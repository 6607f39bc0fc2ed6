/**
 * The technique page: the section-read tracker, the completion step that awards the
 * technique's experience, and the choice and gating of the next technique.
 */
module TechniquePage {
  import opened Common
  import opened Rows
  import App

  /** The four collapsible content sections. */
  datatype Section = Why | How | Mistakes | Drills

  /** One boolean per section, as the `openSections` and `sectionsRead` state records. */
  datatype Flags = Flags(why: bool, how: bool, mistakes: bool, drills: bool) {

    function Get(s: Section): bool {
      match s
      case Why => why
      case How => how
      case Mistakes => mistakes
      case Drills => drills
    }

    /** `{ ...flags, [s]: b }` */
    function Set(s: Section, b: bool): (r: Flags)
      ensures r.Get(s) == b
      ensures forall t: Section :: t != s ==> r.Get(t) == Get(t)
    {
      match s
      case Why => this.(why := b)
      case How => this.(how := b)
      case Mistakes => this.(mistakes := b)
      case Drills => this.(drills := b)
    }
  }

  const AllClear: Flags := Flags(false, false, false, false)

  /** Every flag set in `a` is set in `b`. */
  predicate Covers(a: Flags, b: Flags) {
    forall s: Section :: a.Get(s) ==> b.Get(s)
  }

  /** The key a section is stored under in the progress row's read-map. */
  function Key(s: Section): string {
    match s
    case Why => "why"
    case How => "how"
    case Mistakes => "mistakes"
    case Drills => "drills"
  }

  /** The read-state loaded from a progress row: each stored key as stored, every missing key false. */
  function LoadedFlags(saved: Option<map<string, bool>>): (f: Flags)
    ensures forall s: Section :: f.Get(s) <==> (saved.Some? && Key(s) in saved.value && saved.value[Key(s)])
  {
    var m := if saved.Some? then saved.value else map[];
    Flags(
      "why" in m && m["why"],
      "how" in m && m["how"],
      "mistakes" in m && m["mistakes"],
      "drills" in m && m["drills"])
  }

  /** The section is shown: the page has a technique whose field for it is a non-empty string. */
  predicate HasContent(t: Option<TechniqueRow>, s: Section) {
    t.Some? &&
    match s
    case Why => Truthy(t.value.why)
    case How => Truthy(t.value.how)
    case Mistakes => Truthy(t.value.commonMistakes)
    case Drills => Truthy(t.value.simpleDrills)
  }

  /** The `availableSections` list, in page order. */
  function AvailableSections(t: Option<TechniqueRow>): (secs: seq<Section>)
    ensures forall s: Section :: s in secs <==> HasContent(t, s)
  {
    (if HasContent(t, Why) then [Why] else []) +
    (if HasContent(t, How) then [How] else []) +
    (if HasContent(t, Mistakes) then [Mistakes] else []) +
    (if HasContent(t, Drills) then [Drills] else [])
  }

  /** `secs.every(s => read[s])` */
  function Every(secs: seq<Section>, read: Flags): (r: bool)
    ensures r <==> forall s :: s in secs ==> read.Get(s)
  {
    if secs == [] then true
    else
      assert forall s :: s in secs <==> s == secs[0] || s in secs[1..];
      read.Get(secs[0]) && Every(secs[1..], read)
  }

  /** `allSectionsRead()`: every section that has content is read; true when none has content. */
  function AllSectionsRead(t: Option<TechniqueRow>, read: Flags): (r: bool)
    ensures r <==> forall s: Section :: HasContent(t, s) ==> read.Get(s)
  {
    Every(AvailableSections(t), read)
  }

  /** Reading more sections never un-reads the page. */
  lemma AllSectionsReadMonotone(t: Option<TechniqueRow>, read: Flags, more: Flags)
    requires Covers(read, more)
    requires AllSectionsRead(t, read)
    ensures AllSectionsRead(t, more)
  {
  }

  /** A technique with only a "how" text is fully read as soon as "how" is read, whatever the other flags. */
  lemma OnlyHowSection(t: TechniqueRow, read: Flags)
    requires Truthy(t.how)
    requires !Truthy(t.why) && !Truthy(t.commonMistakes) && !Truthy(t.simpleDrills)
    ensures AllSectionsRead(Some(t), read) <==> read.how
  {
    assert HasContent(Some(t), How);
  }

  /**
   * The next technique: among the rows of the same category with a greater order index,
   * one with the smallest order index (the first such row when several share it).
   */
  function NextInCategory(rows: seq<TechniqueRow>, current: TechniqueRow): (r: Option<TechniqueRow>)
    ensures r.Some? ==> r.value in rows && r.value.categoryId == current.categoryId
    ensures r.Some? ==> r.value.orderIndex > current.orderIndex
    ensures r.Some? ==> forall u :: u in rows && u.categoryId == current.categoryId && u.orderIndex > current.orderIndex ==>
                          r.value.orderIndex <= u.orderIndex
    ensures r.None? ==> forall u :: u in rows ==> u.categoryId != current.categoryId || u.orderIndex <= current.orderIndex
  {
    if rows == [] then None
    else
      assert forall u :: u in rows <==> u == rows[0] || u in rows[1..];
      var rest := NextInCategory(rows[1..], current);
      var h := rows[0];
      if h.categoryId == current.categoryId && h.orderIndex > current.orderIndex &&
         (rest.None? || h.orderIndex <= rest.value.orderIndex)
      then Some(h)
      else rest
  }

  /** What a completion awards: the new power level written, the experience shown, and the new rank shown, if any. */
  datatype Completion = Completion(newPowerLevel: int, xpGained: int, rankUp: Option<string>)

  /**
   * `handleComplete` on already-fetched values: `profile` is what the profile read returned
   * and `updated` what the power-level update returned, with the rank the server derived.
   */
  function CompletionOf(signedIn: bool, technique: Option<TechniqueRow>, alreadyCompleted: bool,
                        profile: Option<ProfileSnapshot>, updated: Option<ProfileSnapshot>): (c: Option<Completion>)
    ensures c.Some? <==> signedIn && technique.Some? && !alreadyCompleted && profile.Some?
    ensures c.Some? ==> c.value.newPowerLevel == profile.value.powerLevel + technique.value.xpReward
    ensures c.Some? ==> c.value.xpGained == technique.value.xpReward
    ensures c.Some? ==> (c.value.rankUp.Some? <==> updated.Some? && updated.value.rank != profile.value.rank)
    ensures c.Some? && c.value.rankUp.Some? ==> c.value.rankUp.value == updated.value.rank
    ensures c.Some? && technique.value.xpReward >= 0 ==> c.value.newPowerLevel >= profile.value.powerLevel
  {
    if !signedIn || technique.None? || alreadyCompleted then None
    else if profile.None? then None
    else
      var rankUp := if updated.Some? && updated.value.rank != profile.value.rank then Some(updated.value.rank) else None;
      Some(Completion(profile.value.powerLevel + technique.value.xpReward, technique.value.xpReward, rankUp))
  }

  /** The next-technique button: absent, shown disabled, or shown enabled. */
  datatype NextButton = NoButton | DisabledButton | EnabledButton(target: TechniqueRow)

  /** The button is there for a signed-in user when a next technique exists, and enabled once all sections are read. */
  function NextButtonOf(signedIn: bool, next: Option<TechniqueRow>, technique: Option<TechniqueRow>, read: Flags): (b: NextButton)
    ensures b == NoButton <==> !signedIn || next.None?
    ensures b.EnabledButton? <==> signedIn && next.Some? && AllSectionsRead(technique, read)
    ensures b.EnabledButton? ==> b.target == next.value
  {
    if !signedIn || next.None? then NoButton
    else if AllSectionsRead(technique, read) then EnabledButton(next.value)
    else DisabledButton
  }

  /** `handleNextTechnique` as written: it asks the shell for the page named `technique/<id>`, with no id. */
  function NextTechniqueRequestAsWritten(next: TechniqueRow): (r: (App.Page, Option<string>))
    ensures r.0.Unrouted? && r.0.name == "technique/" + next.id
    ensures r.1.None?
  {
    var name := "technique/" + next.id;
    assert name[0] == 't' && name[9] == '/';
    (App.PageNamed(name), None)
  }

  /** The request as written names no page the shell renders, so a signed-in user lands on an empty layout. */
  lemma NextTechniqueAsWrittenShowsNothing(s: App.NavState, next: TechniqueRow)
    ensures NextTechniqueRequestAsWritten(next).0.Unrouted?
    ensures App.Render(false, true, App.Navigate(s, NextTechniqueRequestAsWritten(next).0, NextTechniqueRequestAsWritten(next).1))
            == App.MainView(None)
  {
    var name := "technique/" + next.id;
    assert name[0] == 't';
  }

  /** The intended request: the technique page with the next technique's id. */
  function NextTechniqueRequest(next: TechniqueRow): (r: (App.Page, Option<string>))
    ensures r.0 == App.Technique && r.1 == Some(next.id)
  {
    (App.Technique, Some(next.id))
  }

  /** Following the intended request, a signed-in user sees the next technique's page. */
  lemma NextTechniqueRequestShowsIt(s: App.NavState, next: TechniqueRow)
    requires next.id != ""
    ensures var (p, id) := NextTechniqueRequest(next);
      App.Render(false, true, App.Navigate(s, p, id)) == App.MainView(Some(App.Technique)) &&
      App.Navigate(s, p, id).techniqueId == Some(next.id)
  {
    App.NavigateToTechniqueShowsIt(s, next.id);
  }

  /** The page's state cells. */
  class TechniqueView {
    const signedIn: bool
    var technique: Option<TechniqueRow>
    var nextTechnique: Option<TechniqueRow>
    var progressId: Option<string>
    var isCompleted: bool
    var openSections: Flags
    var sectionsRead: Flags
    var xpGained: int
    var showXPGain: bool
    var newRank: Option<string>
    var loading: bool

    constructor (signedIn: bool)
      ensures this.signedIn == signedIn
      ensures technique.None? && nextTechnique.None? && progressId.None? && newRank.None?
      ensures !isCompleted && !showXPGain && xpGained == 0 && loading
      ensures openSections == AllClear && sectionsRead == AllClear
    {
      this.signedIn := signedIn;
      technique, nextTechnique, progressId, newRank := None, None, None, None;
      isCompleted, showXPGain, xpGained, loading := false, false, 0, true;
      openSections, sectionsRead := AllClear, AllClear;
    }

    /**
     * The loader on fetched values: `found` is the technique row, `rows` the candidates for
     * the next technique, and `progress` the user's progress row (found or just inserted).
     */
    method Load(found: Option<TechniqueRow>, rows: seq<TechniqueRow>, progress: Option<ProgressRow>)
      modifies this
      ensures technique == (if found.Some? then found else old(technique))
      ensures found.Some? && NextInCategory(rows, found.value).Some? ==> nextTechnique == NextInCategory(rows, found.value)
      ensures !(found.Some? && NextInCategory(rows, found.value).Some?) ==> nextTechnique == old(nextTechnique)
      ensures signedIn && progress.Some? ==>
        progressId == Some(progress.value.id) && isCompleted == progress.value.completed &&
        sectionsRead == LoadedFlags(progress.value.sectionsRead)
      ensures !(signedIn && progress.Some?) ==>
        progressId == old(progressId) && isCompleted == old(isCompleted) && sectionsRead == old(sectionsRead)
      ensures !loading
      ensures openSections == old(openSections) && xpGained == old(xpGained)
      ensures showXPGain == old(showXPGain) && newRank == old(newRank)
    {
      if found.Some? {
        technique := found;
        var next := NextInCategory(rows, found.value);
        if next.Some? {
          nextTechnique := next;
        }
      }
      if signedIn && progress.Some? {
        progressId := Some(progress.value.id);
        isCompleted := progress.value.completed;
        sectionsRead := LoadedFlags(progress.value.sectionsRead);
      }
      loading := false;
    }

    /**
     * `toggleSection(s)`: flip the section open or closed; opening a closed, unread section
     * for a signed-in user marks it read and returns the read-map written to the progress row.
     */
    method ToggleSection(s: Section) returns (write: Option<(string, Flags)>)
      modifies this
      ensures openSections == old(openSections).Set(s, !old(openSections).Get(s))
      ensures !old(openSections).Get(s) && !old(sectionsRead).Get(s) && signedIn ==>
        sectionsRead == old(sectionsRead).Set(s, true) &&
        write == Some((if old(progressId).Some? then old(progressId).value else "", sectionsRead))
      ensures !(!old(openSections).Get(s) && !old(sectionsRead).Get(s) && signedIn) ==>
        sectionsRead == old(sectionsRead) && write.None?
      ensures Covers(old(sectionsRead), sectionsRead)
      ensures technique == old(technique) && nextTechnique == old(nextTechnique) && progressId == old(progressId)
      ensures isCompleted == old(isCompleted) && xpGained == old(xpGained)
      ensures showXPGain == old(showXPGain) && newRank == old(newRank) && loading == old(loading)
    {
      var wasOpen := openSections.Get(s);
      openSections := openSections.Set(s, !wasOpen);
      write := None;
      if !wasOpen && !sectionsRead.Get(s) && signedIn {
        sectionsRead := sectionsRead.Set(s, true);
        write := Some((if progressId.Some? then progressId.value else "", sectionsRead));
      }
    }

    /**
     * `handleComplete` on the values the two backend reads return. The results are the id of
     * the progress row marked completed (`progressId || ''`) and the power level written to the
     * profile, or nothing when a guard returned early.
     */
    method HandleComplete(profile: Option<ProfileSnapshot>, updated: Option<ProfileSnapshot>)
      returns (completedRow: Option<string>, write: Option<int>)
      modifies this
      ensures var c := CompletionOf(signedIn, old(technique), old(isCompleted), profile, updated);
        (c.None? ==> completedRow.None? && write.None? && isCompleted == old(isCompleted) &&
                     xpGained == old(xpGained) && showXPGain == old(showXPGain) && newRank == old(newRank)) &&
        (c.Some? ==> completedRow == Some(if progressId.Some? then progressId.value else "") &&
                     write == Some(c.value.newPowerLevel) && isCompleted && xpGained == c.value.xpGained &&
                     showXPGain && newRank == (if c.value.rankUp.Some? then c.value.rankUp else old(newRank)))
      ensures old(isCompleted) ==> completedRow.None? && write.None?
      ensures technique == old(technique) && nextTechnique == old(nextTechnique) && progressId == old(progressId)
      ensures openSections == old(openSections) && sectionsRead == old(sectionsRead) && loading == old(loading)
    {
      var c := CompletionOf(signedIn, technique, isCompleted, profile, updated);
      completedRow := None;
      write := None;
      if c.Some? {
        completedRow := Some(if progressId.Some? then progressId.value else "");
        write := Some(c.value.newPowerLevel);
        isCompleted := true;
        xpGained := c.value.xpGained;
        showXPGain := true;
        if c.value.rankUp.Some? {
          newRank := c.value.rankUp;
        }
      }
    }
  }

  /** After a completion that awarded experience, a repeat call awards nothing, whatever the backend returns. */
  method CompleteTwice(v: TechniqueView, p1: Option<ProfileSnapshot>, u1: Option<ProfileSnapshot>,
                       p2: Option<ProfileSnapshot>, u2: Option<ProfileSnapshot>)
    returns (first: Option<int>, second: Option<int>)
    modifies v
    ensures first.Some? ==> second.None? && v.isCompleted
  {
    var row1, row2;
    row1, first := v.HandleComplete(p1, u1);
    row2, second := v.HandleComplete(p2, u2);
  }
}
