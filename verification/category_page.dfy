/**
 * The category page: resolving the category id from its `discipline-category` slug,
 * and the unlock evaluator over the fetched techniques and the user's progress rows.
 */
module CategoryPage {
  import opened Common
  import opened Text
  import opened Rows
  import App

  /** A category id split at its last `-`: every segment but the last, and the last. */
  datatype Slug = Slug(discipline: string, category: string)

  /**
   * `categoryId.split('-')`: with two or more parts, the discipline slug is all parts
   * but the last joined with `-`, and the category slug is the last part.
   */
  function ParseSlug(categoryId: string): (r: Option<Slug>)
    ensures r.Some? <==> '-' in categoryId
    ensures r.Some? ==> r.value.discipline + "-" + r.value.category == categoryId
    ensures r.Some? ==> '-' !in r.value.category
  {
    var parts := Split(categoryId, '-');
    if |parts| >= 2 then
      JoinInitLast(parts, '-');
      JoinSplit(categoryId, '-');
      Some(Slug(Join(parts[..|parts| - 1], '-'), parts[|parts| - 1]))
    else
      None
  }

  /** A string splits at its last `-` in only one way. */
  lemma {:induction false} LastDashUnique(d1: string, c1: string, d2: string, c2: string)
    requires d1 + "-" + c1 == d2 + "-" + c2
    requires '-' !in c1 && '-' !in c2
    ensures d1 == d2 && c1 == c2
  {
    var s := d1 + "-" + c1;
    if |c1| < |c2| {
      DashInLongerTail(d1, c1, d2, c2);
      assert false;
    } else if |c2| < |c1| {
      DashInLongerTail(d2, c2, d1, c1);
      assert false;
    } else {
      assert c1 == s[|s| - |c1|..] == c2;
      assert d1 == s[..|d1|] == d2;
    }
  }

  /** Of two splits of one string at a `-`, the one with the longer tail has a `-` in its tail. */
  lemma DashInLongerTail(d1: string, c1: string, d2: string, c2: string)
    requires d1 + "-" + c1 == d2 + "-" + c2
    requires |c1| < |c2|
    ensures '-' in c2
  {
    var s := d1 + "-" + c1;
    assert s[|d1|] == '-';
    assert s[|d1|] == c2[|d1| - |d2| - 1];
  }

  /** Any split of a string at a `-` with no `-` after it is the split `ParseSlug` finds. */
  lemma SlugOfLastDash(s: string, d: string, c: string)
    requires d + "-" + c == s && '-' !in c
    ensures ParseSlug(s) == Some(Slug(d, c))
  {
    assert s[|d|] == '-';
    var r := ParseSlug(s);
    LastDashUnique(r.value.discipline, r.value.category, d, c);
  }

  /** The example from the slug map: `muay-thai-kicks` is Muay Thai's kicks. */
  lemma MuayThaiKicks()
    ensures ParseSlug("muay-thai-kicks") == Some(Slug("muay-thai", "kicks"))
  {
    SlugOfLastDash("muay-thai-kicks", "muay-thai", "kicks");
  }

  /** Slug to discipline name. */
  const DisciplineNames: map<string, string> := map[
    "boxing" := "Boxing", "muay-thai" := "Muay Thai", "bjj" := "BJJ", "kickboxing" := "Kickboxing",
    "karate" := "Karate", "taekwondo" := "Taekwondo", "judo" := "Judo"]

  /** Slug to category name. */
  const CategoryNames: map<string, string> := map[
    "attacks" := "Attacks", "defence" := "Defence", "footwork" := "Footwork", "combos" := "Combos",
    "positions" := "Positions", "submissions" := "Submissions", "escapes" := "Escapes",
    "transitions" := "Transitions", "kihon" := "Kihon", "kata" := "Kata", "kumite" := "Kumite",
    "kicks" := "Kicks", "poomsae" := "Poomsae", "sparring" := "Sparring", "throws" := "Throws",
    "groundwork" := "Groundwork", "pins" := "Pins"]

  /** The `disciplines` rows the name query returns. */
  function DisciplinesNamed(rows: seq<DisciplineRow>, name: string): (r: seq<DisciplineRow>)
    ensures forall d :: d in r ==> d in rows && d.name == name
    ensures forall d :: d in rows && d.name == name ==> d in r
  {
    if rows == [] then []
    else (if rows[0].name == name then [rows[0]] else []) + DisciplinesNamed(rows[1..], name)
  }

  /** The `categories` rows of one discipline with one name that the query returns. */
  function CategoriesNamed(rows: seq<CategoryRow>, disciplineId: string, name: string): (r: seq<CategoryRow>)
    ensures forall c :: c in r ==> c in rows && c.disciplineId == disciplineId && c.name == name
    ensures forall c :: c in rows && c.disciplineId == disciplineId && c.name == name ==> c in r
  {
    if rows == [] then []
    else
      (if rows[0].disciplineId == disciplineId && rows[0].name == name then [rows[0]] else [])
      + CategoriesNamed(rows[1..], disciplineId, name)
  }

  /**
   * Both lookups of the slug succeed: it splits, both parts are mapped, exactly one discipline
   * row has the mapped name, and exactly one category row of that discipline has the mapped name.
   */
  predicate SlugResolves(categoryId: string, disciplines: seq<DisciplineRow>, categories: seq<CategoryRow>) {
    ParseSlug(categoryId).Some? &&
    ParseSlug(categoryId).value.discipline in DisciplineNames &&
    ParseSlug(categoryId).value.category in CategoryNames &&
    MaybeSingle(DisciplinesNamed(disciplines, DisciplineNames[ParseSlug(categoryId).value.discipline])).Some? &&
    MaybeSingle(CategoriesNamed(categories,
      MaybeSingle(DisciplinesNamed(disciplines, DisciplineNames[ParseSlug(categoryId).value.discipline])).value.id,
      CategoryNames[ParseSlug(categoryId).value.category])).Some?
  }

  /**
   * The category id the techniques are queried with: the id of the category the slug
   * names when both lookups find exactly one row, and the id as given otherwise.
   */
  function ResolveCategoryId(categoryId: string, disciplines: seq<DisciplineRow>, categories: seq<CategoryRow>): (r: string)
    ensures '-' !in categoryId ==> r == categoryId
    ensures r != categoryId ==>
      exists c :: c in categories && c.id == r && ParseSlug(categoryId).Some? &&
        ParseSlug(categoryId).value.category in CategoryNames &&
        c.name == CategoryNames[ParseSlug(categoryId).value.category]
    ensures (forall c :: c in categories ==> c.id != r) ==> r == categoryId
    ensures SlugResolves(categoryId, disciplines, categories) ==>
      var s := ParseSlug(categoryId).value;
      var d := MaybeSingle(DisciplinesNamed(disciplines, DisciplineNames[s.discipline])).value;
      r == MaybeSingle(CategoriesNamed(categories, d.id, CategoryNames[s.category])).value.id
    ensures !SlugResolves(categoryId, disciplines, categories) ==> r == categoryId
  {
    match ParseSlug(categoryId)
    case None => categoryId
    case Some(slug) =>
      if slug.discipline !in DisciplineNames || slug.category !in CategoryNames then categoryId
      else
        match MaybeSingle(DisciplinesNamed(disciplines, DisciplineNames[slug.discipline]))
        case None => categoryId
        case Some(d) =>
          var found := CategoriesNamed(categories, d.id, CategoryNames[slug.category]);
          match MaybeSingle(found)
          case None => categoryId
          case Some(c) => assert c in found; c.id
  }

  /**
   * Whatever else the tables hold: when the discipline query for the slug's first part returns
   * one row and the category query of that discipline for its last part returns one row, the
   * page queries techniques with that category's id.
   */
  lemma ResolvesUniqueCategory(d: string, c: string, drow: DisciplineRow, crow: CategoryRow,
                               disciplines: seq<DisciplineRow>, categories: seq<CategoryRow>)
    requires '-' !in c && d in DisciplineNames && c in CategoryNames
    requires DisciplinesNamed(disciplines, DisciplineNames[d]) == [drow]
    requires CategoriesNamed(categories, drow.id, CategoryNames[c]) == [crow]
    ensures ResolveCategoryId(d + "-" + c, disciplines, categories) == crow.id
  {
    SlugOfLastDash(d + "-" + c, d, c);
  }

  /** `isCompleted(id)`: some progress row for the technique is marked completed. */
  function IsCompleted(progress: seq<ProgressRow>, techniqueId: string): (r: bool)
    ensures r <==> exists i :: 0 <= i < |progress| && progress[i].techniqueId == techniqueId && progress[i].completed
  {
    if progress == [] then false
    else
      (progress[0].techniqueId == techniqueId && progress[0].completed)
      || (assert forall i :: 0 < i < |progress| ==> progress[i] == progress[1..][i - 1];
          IsCompleted(progress[1..], techniqueId))
  }

  /** `techniques.find(t => t.order_index === n)`, as the index of the first match. */
  function FindAtOrder(techniques: seq<TechniqueRow>, n: int): (k: Option<nat>)
    ensures k.Some? ==> k.value < |techniques| && techniques[k.value].orderIndex == n
    ensures k.Some? ==> forall j :: 0 <= j < k.value ==> techniques[j].orderIndex != n
    ensures k.None? ==> forall j :: 0 <= j < |techniques| ==> techniques[j].orderIndex != n
  {
    if techniques == [] then None
    else if techniques[0].orderIndex == n then Some(0)
    else match FindAtOrder(techniques[1..], n)
      case None => None
      case Some(j) => Some(j + 1)
  }

  /** `isUnlocked(n)`: the first technique, or the one whose predecessor (first found at `n - 1`) is completed. */
  function IsUnlocked(techniques: seq<TechniqueRow>, progress: seq<ProgressRow>, orderIndex: int): (r: bool)
    ensures orderIndex == 1 ==> r
    ensures orderIndex != 1 ==>
      (r <==> (exists k :: 0 <= k < |techniques| && techniques[k].orderIndex == orderIndex - 1 &&
                 (forall j :: 0 <= j < k ==> techniques[j].orderIndex != orderIndex - 1) &&
                 IsCompleted(progress, techniques[k].id)))
    ensures orderIndex != 1 && (forall t :: t in techniques ==> t.orderIndex != orderIndex - 1) ==> !r
  {
    if orderIndex == 1 then true
    else match FindAtOrder(techniques, orderIndex - 1)
      case None => false
      case Some(k) => IsCompleted(progress, techniques[k].id)
  }

  /** Adding progress rows never locks a technique that was unlocked. */
  lemma UnlockMonotone(techniques: seq<TechniqueRow>, progress: seq<ProgressRow>, more: seq<ProgressRow>, orderIndex: int)
    requires forall p :: p in progress ==> p in more
    requires IsUnlocked(techniques, progress, orderIndex)
    ensures IsUnlocked(techniques, more, orderIndex)
  {
    if orderIndex != 1 {
      var k :| 0 <= k < |techniques| && techniques[k].orderIndex == orderIndex - 1 &&
        (forall j :: 0 <= j < k ==> techniques[j].orderIndex != orderIndex - 1) &&
        IsCompleted(progress, techniques[k].id);
      var i :| 0 <= i < |progress| && progress[i].techniqueId == techniques[k].id && progress[i].completed;
      assert progress[i] in more;
      var m :| 0 <= m < |more| && more[m] == progress[i];
      assert IsCompleted(more, techniques[k].id);
    }
  }

  /** The number of fetched techniques that are completed. */
  function CompletedCount(techniques: seq<TechniqueRow>, progress: seq<ProgressRow>): (n: nat)
    ensures n <= |techniques|
    ensures n == |techniques| <==> forall t :: t in techniques ==> IsCompleted(progress, t.id)
    ensures n == 0 <==> forall t :: t in techniques ==> !IsCompleted(progress, t.id)
  {
    if techniques == [] then 0
    else
      assert forall t :: t in techniques <==> t == techniques[0] || t in techniques[1..];
      (if IsCompleted(progress, techniques[0].id) then 1 else 0) + CompletedCount(techniques[1..], progress)
  }

  /** Counting one more technique adds one exactly when that technique is completed. */
  lemma {:induction false} CompletedCountAppend(techniques: seq<TechniqueRow>, t: TechniqueRow, progress: seq<ProgressRow>)
    ensures CompletedCount(techniques + [t], progress) ==
      CompletedCount(techniques, progress) + (if IsCompleted(progress, t.id) then 1 else 0)
    decreases |techniques|
  {
    if techniques == [] {
      assert techniques + [t] == [t];
      assert [t][1..] == [];
    } else {
      assert (techniques + [t])[1..] == techniques[1..] + [t];
      CompletedCountAppend(techniques[1..], t, progress);
    }
  }

  /**
   * The progress bar width: the completed share in percent. With no techniques the
   * source divides zero by zero, which yields NaN; that case has no value here.
   */
  function ProgressPercentage(techniques: seq<TechniqueRow>, progress: seq<ProgressRow>): (r: Option<real>)
    ensures r.None? <==> techniques == []
    ensures r.Some? ==> 0.0 <= r.value <= 100.0
    ensures r.Some? ==> (r.value == 100.0 <==> forall t :: t in techniques ==> IsCompleted(progress, t.id))
    ensures r.Some? ==> (r.value == 0.0 <==> forall t :: t in techniques ==> !IsCompleted(progress, t.id))
  {
    if techniques == [] then None
    else
      var c := CompletedCount(techniques, progress);
      PercentBounds(c, |techniques|);
      Some(c as real / |techniques| as real * 100.0)
  }

  /** A share `c / n` of a non-empty whole, in percent, lies in [0, 100] and is 100 exactly when `c == n`. */
  lemma PercentBounds(c: nat, n: nat)
    requires 0 < n && c <= n
    ensures 0.0 <= c as real / n as real * 100.0 <= 100.0
    ensures c as real / n as real * 100.0 == 100.0 <==> c == n
    ensures c as real / n as real * 100.0 == 0.0 <==> c == 0
  {
    var x := c as real / n as real;
    assert x * n as real == c as real;
    assert x <= 1.0;
    if x == 1.0 {
      assert c as real == n as real;
    }
  }

  /** The status icon of a technique tile. */
  datatype Icon = CheckIcon | LockIcon | EmptyCircle

  /** A technique tile: its icon and the navigation a click requests, if any. */
  datatype Tile = Tile(icon: Icon, onClick: Option<(App.Page, string)>)

  /** The tile of one technique: completed shows the check, otherwise locked shows the lock; only unlocked tiles navigate. */
  function TileOf(techniques: seq<TechniqueRow>, progress: seq<ProgressRow>, t: TechniqueRow): (tile: Tile)
    ensures tile.onClick.Some? <==> IsUnlocked(techniques, progress, t.orderIndex)
    ensures tile.onClick.Some? ==> tile.onClick.value == (App.Technique, t.id)
    ensures tile.icon == CheckIcon <==> IsCompleted(progress, t.id)
    ensures tile.icon == LockIcon <==> !IsCompleted(progress, t.id) && !IsUnlocked(techniques, progress, t.orderIndex)
  {
    var unlocked := IsUnlocked(techniques, progress, t.orderIndex);
    var completed := IsCompleted(progress, t.id);
    Tile(if completed then CheckIcon else if !unlocked then LockIcon else EmptyCircle,
         if unlocked then Some((App.Technique, t.id)) else None)
  }

  /** The scenario of a three-technique category with only the first completed: the second opens, the third stays locked. */
  lemma ThreeTechniqueScenario(t1: TechniqueRow, t2: TechniqueRow, t3: TechniqueRow, row: ProgressRow)
    requires t1.orderIndex == 1 && t2.orderIndex == 2 && t3.orderIndex == 3
    requires t1.id != t2.id
    requires row.techniqueId == t1.id && row.completed
    ensures IsUnlocked([t1, t2, t3], [row], 2)
    ensures !IsUnlocked([t1, t2, t3], [row], 3)
  {
    assert FindAtOrder([t1, t2, t3], 1) == Some(0);
    assert FindAtOrder([t1, t2, t3], 2) == Some(1);
    assert !IsCompleted([row], t2.id);
  }
}
