/**
 * A global milestone: the milestones of several projects that share a title, seen
 * as one. Its state, dates, display milestone and participants are folded from the
 * per-project milestones; `build_collection` groups milestones by title and orders
 * the groups by due date.
 */
module GlobalMilestones {
  import opened Basics

  /** A calendar date as the number of days since 1970-01-01. */
  type Date = int

  /** `EPOCH`, 1970-01-01: the due date a group without one sorts by. */
  const Epoch: Date := 0

  /** A per-project milestone; participants are user ids, possibly `nil`. */
  datatype Milestone = Milestone(
    id: int,
    title: string,
    state: string,
    description: Option<string>,
    dueDate: Option<Date>,
    startDate: Option<Date>,
    participants: seq<Option<nat>>)

  // ---------------------------------------------------------------------------
  // Folding the milestones of one global milestone

  /** `state`: `active` as soon as one milestone is not closed, otherwise `closed`. */
  function StateOf(ms: seq<Milestone>): (r: string)
    ensures r == "active" <==> exists i :: 0 <= i < |ms| && ms[i].state != "closed"
    ensures r == "closed" <==> forall i :: 0 <= i < |ms| ==> ms[i].state == "closed"
  {
    if ms == [] then "closed"
    else if ms[0].state != "closed" then "active"
    else
      assert forall i :: 1 <= i < |ms| ==> ms[i] == ms[1..][i - 1];
      StateOf(ms[1..])
  }

  /** `active?` and `closed?` are exact complements. */
  lemma ActiveIffNotClosed(ms: seq<Milestone>)
    ensures StateOf(ms) == "active" <==> StateOf(ms) != "closed"
    ensures StateOf(ms) == "active" || StateOf(ms) == "closed"
  {
    if exists i :: 0 <= i < |ms| && ms[i].state != "closed" {
      assert StateOf(ms) == "active";
    } else {
      assert StateOf(ms) == "closed";
    }
  }

  function DueDates(ms: seq<Milestone>): (r: seq<Option<Date>>)
    ensures |r| == |ms| && forall i :: 0 <= i < |ms| ==> r[i] == ms[i].dueDate
  {
    seq(|ms|, i requires 0 <= i < |ms| => ms[i].dueDate)
  }

  function StartDates(ms: seq<Milestone>): (r: seq<Option<Date>>)
    ensures |r| == |ms| && forall i :: 0 <= i < |ms| ==> r[i] == ms[i].startDate
  {
    seq(|ms|, i requires 0 <= i < |ms| => ms[i].startDate)
  }

  /** The first date when every date equals it, otherwise `nil` (`due_date`, `start_date`). */
  function CommonDate(dates: seq<Option<Date>>): Option<Date>
    requires dates != []
  {
    if forall i :: 0 <= i < |dates| ==> dates[i] == dates[0] then dates[0] else None
  }

  /** A common date is reported exactly when all milestones have that date. */
  lemma CommonDateIff(dates: seq<Option<Date>>, d: Date)
    requires dates != []
    ensures CommonDate(dates) == Some(d) <==> forall i :: 0 <= i < |dates| ==> dates[i] == Some(d)
  {
  }

  /** Two milestones with different dates (one of them possibly `nil`) give no common date. */
  lemma DifferentDatesGiveNone(dates: seq<Option<Date>>, i: nat, j: nat)
    requires i < |dates| && j < |dates| && dates[i] != dates[j]
    ensures CommonDate(dates) == None
  {
  }

  /** The common date does not depend on which milestone comes first. */
  lemma CommonDateOrderFree(a: seq<Option<Date>>, b: seq<Option<Date>>)
    requires a != [] && multiset(a) == multiset(b)
    ensures b != [] && CommonDate(a) == CommonDate(b)
  {
    assert |b| == |multiset(b)| == |multiset(a)| == |a|;
    if forall i :: 0 <= i < |a| ==> a[i] == a[0] {
      forall i | 0 <= i < |b| ensures b[i] == a[0] {
        assert b[i] in multiset(a);
      }
      assert b[0] == a[0];
    } else {
      var i :| 0 <= i < |a| && a[i] != a[0];
      assert a[i] in multiset(b) && a[0] in multiset(b);
      var x :| 0 <= x < |b| && b[x] == a[i];
      var y :| 0 <= y < |b| && b[y] == a[0];
      DifferentDatesGiveNone(b, x, y);
    }
  }

  /** The index of the first milestone from `i` on whose description is present. */
  function FirstDescribedFrom(ms: seq<Milestone>, i: nat): (r: Option<nat>)
    requires i <= |ms|
    ensures r.Some? ==> i <= r.value < |ms| && Present(ms[r.value].description)
    ensures r.Some? ==> forall j :: i <= j < r.value ==> !Present(ms[j].description)
    ensures r.None? ==> forall j :: i <= j < |ms| ==> !Present(ms[j].description)
    decreases |ms| - i
  {
    if i == |ms| then None
    else if Present(ms[i].description) then Some(i)
    else FirstDescribedFrom(ms, i + 1)
  }

  /**
   * `for_display`: the first milestone with a present description, falling back to
   * the first milestone (`nil` for none).
   */
  function DisplayMilestone(ms: seq<Milestone>): (r: Option<Milestone>)
    ensures r.Some? <==> ms != []
    ensures r.Some? ==> r.value in ms
    ensures (exists i :: 0 <= i < |ms| && Present(ms[i].description)) ==>
              r.Some? && Present(r.value.description)
              && exists k :: 0 <= k < |ms| && ms[k] == r.value
                             && forall j :: 0 <= j < k ==> !Present(ms[j].description)
    ensures (forall i :: 0 <= i < |ms| ==> !Present(ms[i].description)) && ms != [] ==> r == Some(ms[0])
  {
    match FirstDescribedFrom(ms, 0)
    case Some(k) => Some(ms[k])
    case None => if ms == [] then None else Some(ms[0])
  }

  /** All participant entries of all milestones, in order (`map(&:participants).flatten`). */
  function Flatten(ms: seq<Milestone>): (r: seq<Option<nat>>)
    ensures forall x :: x in r <==> exists i :: 0 <= i < |ms| && x in ms[i].participants
  {
    if ms == [] then []
    else
      assert forall i :: 1 <= i < |ms| ==> ms[i] == ms[1..][i - 1];
      ms[0].participants + Flatten(ms[1..])
  }

  /** `compact`: the entries that are not `nil`. */
  function Compact(s: seq<Option<nat>>): (r: seq<nat>)
    ensures forall x :: x in r <==> Some(x) in s
  {
    if s == [] then []
    else if s[0].Some? then [s[0].value] + Compact(s[1..])
    else Compact(s[1..])
  }

  /**
   * `participants`: every user taking part in one of the milestones, without `nil`
   * and without repetitions.
   */
  function Participants(ms: seq<Milestone>): (r: seq<nat>)
    ensures forall u :: u in r <==> exists i :: 0 <= i < |ms| && Some(u) in ms[i].participants
    ensures forall i, j :: 0 <= i < j < |r| ==> r[i] != r[j]
  {
    var all := Compact(Flatten(ms));
    assert forall u :: u in Uniq(all) <==> u in all;
    Uniq(all)
  }

  // ---------------------------------------------------------------------------
  // The global milestone object

  class GlobalMilestone {
    const title: string
    const milestones: seq<Milestone>
    /** `@first_milestone`, what `for_display` returns. */
    const firstMilestone: Option<Milestone>
    /** `@due_date` once defined (it may be defined as `nil`). */
    var dueDateMemo: Option<Option<Date>>
    /** `@start_date` once defined. */
    var startDateMemo: Option<Option<Date>>
    /** `@participants` once computed. */
    var participantsMemo: Option<seq<nat>>

    /** A memoised value, once there, is what computing it afresh would give. */
    ghost predicate Valid()
      reads this
    {
      && (dueDateMemo.Some? ==> milestones != [] && dueDateMemo.value == CommonDate(DueDates(milestones)))
      && (startDateMemo.Some? ==> milestones != [] && startDateMemo.value == CommonDate(StartDates(milestones)))
      && (participantsMemo.Some? ==> participantsMemo.value == Participants(milestones))
    }

    /** `@due_date` is defined, as the date all milestones share. */
    predicate DueDateKnown()
      reads this
    {
      milestones != [] && dueDateMemo == Some(CommonDate(DueDates(milestones)))
    }

    /** `initialize`: keeps title and milestones and picks the display milestone. */
    constructor (title: string, milestones: seq<Milestone>)
      ensures this.title == title && this.milestones == milestones
      ensures firstMilestone == DisplayMilestone(milestones)
      ensures dueDateMemo.None? && startDateMemo.None? && participantsMemo.None?
      ensures Valid()
    {
      this.title := title;
      this.milestones := milestones;
      firstMilestone := DisplayMilestone(milestones);
      dueDateMemo := None;
      startDateMemo := None;
      participantsMemo := None;
    }

    /** `state`: returns `active` at the first milestone that is not closed. */
    method State() returns (s: string)
      ensures s == StateOf(milestones)
      ensures s == "active" <==> exists i :: 0 <= i < |milestones| && milestones[i].state != "closed"
    {
      var i := 0;
      while i < |milestones|
        invariant 0 <= i <= |milestones|
        invariant forall j :: 0 <= j < i ==> milestones[j].state == "closed"
      {
        if milestones[i].state != "closed" {
          return "active";
        }
        i := i + 1;
      }
      return "closed";
    }

    /** `active?`. */
    method IsActive() returns (b: bool)
      ensures b <==> exists i :: 0 <= i < |milestones| && milestones[i].state != "closed"
    {
      var s := State();
      b := s == "active";
    }

    /** `closed?`. */
    method IsClosed() returns (b: bool)
      ensures b <==> forall i :: 0 <= i < |milestones| ==> milestones[i].state == "closed"
    {
      var s := State();
      b := s == "closed";
    }

    /** `due_date`: the date all milestones share, memoised (also when it is `nil`). */
    method DueDate() returns (d: Option<Date>)
      requires Valid() && milestones != []
      modifies this
      ensures Valid()
      ensures d == CommonDate(DueDates(milestones))
      ensures dueDateMemo == Some(d)
      ensures startDateMemo == old(startDateMemo) && participantsMemo == old(participantsMemo)
    {
      if dueDateMemo.Some? {
        return dueDateMemo.value;
      }
      d := CommonDate(DueDates(milestones));
      dueDateMemo := Some(d);
    }

    /** `start_date`: the start date all milestones share, memoised. */
    method StartDate() returns (d: Option<Date>)
      requires Valid() && milestones != []
      modifies this
      ensures Valid()
      ensures d == CommonDate(StartDates(milestones))
      ensures startDateMemo == Some(d)
      ensures dueDateMemo == old(dueDateMemo) && participantsMemo == old(participantsMemo)
    {
      if startDateMemo.Some? {
        return startDateMemo.value;
      }
      d := CommonDate(StartDates(milestones));
      startDateMemo := Some(d);
    }

    /** `participants`, memoised. */
    method GetParticipants() returns (users: seq<nat>)
      requires Valid()
      modifies this
      ensures Valid()
      ensures users == Participants(milestones)
      ensures participantsMemo == Some(users)
      ensures dueDateMemo == old(dueDateMemo) && startDateMemo == old(startDateMemo)
    {
      if participantsMemo.Some? {
        return participantsMemo.value;
      }
      users := Participants(milestones);
      participantsMemo := Some(users);
    }
  }

  // ---------------------------------------------------------------------------
  // build and build_collection

  /** A title with the milestones that carry it (one entry of `group_by(&:title)`). */
  datatype Group = Group(title: string, milestones: seq<Milestone>)

  function Titles(ms: seq<Milestone>): (r: seq<string>)
    ensures |r| == |ms| && forall i :: 0 <= i < |ms| ==> r[i] == ms[i].title
  {
    seq(|ms|, i requires 0 <= i < |ms| => ms[i].title)
  }

  /** The milestones with title `t`, in order (`where(title: title)`). */
  function WithTitle(ms: seq<Milestone>, t: string): (r: seq<Milestone>)
    ensures forall m :: m in r <==> m in ms && m.title == t
    ensures SubsequenceOf(r, ms)
  {
    if ms == [] then []
    else
      var rest := WithTitle(ms[1..], t);
      assert forall m :: m in ms <==> m == ms[0] || m in ms[1..];
      if ms[0].title == t then [ms[0]] + rest
      else
        SubsequenceSkip(rest, ms);
        rest
  }

  /**
   * `group_by(&:title)`: one group per distinct title, in the order the titles first
   * appear, each holding exactly the milestones with that title.
   */
  function GroupByTitle(children: seq<Milestone>): (r: seq<Group>)
    ensures DistinctTitles(r) && NonEmptyGroups(r)
    ensures forall i, m :: 0 <= i < |r| ==> (m in r[i].milestones <==> m in children && m.title == r[i].title)
    ensures forall c :: c in children ==> exists i :: 0 <= i < |r| && r[i].title == c.title
  {
    var titles := Uniq(Titles(children));
    var r := seq(|titles|, i requires 0 <= i < |titles| => Group(titles[i], WithTitle(children, titles[i])));
    forall i | 0 <= i < |r| ensures r[i].milestones != [] {
      TitleHasMilestone(children, titles[i]);
    }
    forall c | c in children ensures exists i :: 0 <= i < |r| && r[i].title == c.title {
      TitleListed(children, c, titles);
      var i :| 0 <= i < |titles| && titles[i] == c.title;
      assert r[i].title == c.title;
    }
    r
  }

  lemma TitleHasMilestone(children: seq<Milestone>, t: string)
    requires t in Titles(children)
    ensures WithTitle(children, t) != []
  {
    var k :| 0 <= k < |children| && Titles(children)[k] == t;
    assert children[k] in WithTitle(children, t);
  }

  lemma TitleListed(children: seq<Milestone>, c: Milestone, titles: seq<string>)
    requires c in children && titles == Uniq(Titles(children))
    ensures c.title in titles
  {
    var k :| 0 <= k < |children| && children[k] == c;
    assert Titles(children)[k] == c.title;
  }

  /** Every milestone lies in exactly the group of its own title. */
  lemma GroupsPartition(children: seq<Milestone>, c: Milestone)
    requires c in children
    ensures exists i :: 0 <= i < |GroupByTitle(children)| && c in GroupByTitle(children)[i].milestones
    ensures forall i, j :: (0 <= i < |GroupByTitle(children)| && 0 <= j < |GroupByTitle(children)|
              && c in GroupByTitle(children)[i].milestones && c in GroupByTitle(children)[j].milestones) ==> i == j
  {
    var r := GroupByTitle(children);
    var i :| 0 <= i < |r| && r[i].title == c.title;
    assert c in r[i].milestones;
  }

  predicate NonEmptyGroups(gs: seq<Group>) {
    forall i :: 0 <= i < |gs| ==> gs[i].milestones != []
  }

  predicate DistinctTitles(gs: seq<Group>) {
    forall i, j :: 0 <= i < j < |gs| ==> gs[i].title != gs[j].title
  }

  /** `milestone.due_date || EPOCH` (a group always holds a milestone). */
  function SortKey(g: Group): Date {
    if g.milestones == [] then Epoch else CommonDate(DueDates(g.milestones)).GetOr(Epoch)
  }

  predicate SortedByKey(gs: seq<Group>) {
    forall i, j :: 0 <= i < j < |gs| ==> SortKey(gs[i]) <= SortKey(gs[j])
  }

  function InsertByKey(g: Group, gs: seq<Group>): (r: seq<Group>)
    requires SortedByKey(gs)
    ensures |r| == |gs| + 1 && SortedByKey(r)
    ensures r[0] == g || (gs != [] && r[0] == gs[0])
  {
    if gs == [] then [g]
    else if SortKey(g) <= SortKey(gs[0]) then [g] + gs
    else
      var rest := InsertByKey(g, gs[1..]);
      assert gs == [gs[0]] + gs[1..];
      assert SortKey(gs[0]) <= SortKey(rest[0]);
      [gs[0]] + rest
  }

  /** Inserting adds exactly the one group. */
  lemma {:induction false} InsertByKeyPermutes(g: Group, gs: seq<Group>)
    requires SortedByKey(gs)
    ensures multiset(InsertByKey(g, gs)) == multiset(gs) + multiset{g}
  {
    if gs != [] && SortKey(g) > SortKey(gs[0]) {
      InsertByKeyPermutes(g, gs[1..]);
      assert gs == [gs[0]] + gs[1..];
    }
  }

  /**
   * `sort_by { due_date || EPOCH }`: the groups ordered by due date, those without a
   * common due date counted as 1970-01-01.
   */
  function SortByDueDate(gs: seq<Group>): (r: seq<Group>)
    ensures SortedByKey(r)
    ensures multiset(r) == multiset(gs)
  {
    if gs == [] then []
    else
      assert gs == [gs[0]] + gs[1..];
      InsertByKeyPermutes(gs[0], SortByDueDate(gs[1..]));
      InsertByKey(gs[0], SortByDueDate(gs[1..]))
  }

  /** The groups `build_collection` makes global milestones of, in their final order. */
  function CollectionGroups(children: seq<Milestone>): seq<Group> {
    SortByDueDate(GroupByTitle(children))
  }

  /**
   * `gs` groups `children` by title: distinct titles, no empty group, each group
   * holding exactly the milestones with its title, and every title represented.
   */
  ghost predicate GroupsOf(children: seq<Milestone>, gs: seq<Group>) {
    && DistinctTitles(gs) && NonEmptyGroups(gs)
    && (forall g, m :: g in gs ==> (m in g.milestones <==> m in children && m.title == g.title))
    && (forall c :: c in children ==> exists g :: g in gs && g.title == c.title)
  }

  /** Reordering a grouping gives a grouping. */
  lemma ReorderKeepsGroups(children: seq<Milestone>, a: seq<Group>, b: seq<Group>)
    requires multiset(a) == multiset(b) && GroupsOf(children, a)
    ensures GroupsOf(children, b)
  {
    forall x | x in b ensures x in a {
      assert x in multiset(b);
    }
    forall x | x in a ensures x in b {
      assert x in multiset(a);
    }
    forall i | 0 <= i < |b| ensures b[i].milestones != [] {
      assert b[i] in b;
    }
    PermutationKeepsDistinctTitles(a, b);
  }

  /**
   * `build_collection` groups: one entry per distinct title, each holding exactly the
   * milestones with that title, ordered by due date with `nil` as 1970-01-01.
   */
  lemma CollectionIsGroupedAndSorted(children: seq<Milestone>)
    ensures GroupsOf(children, CollectionGroups(children)) && SortedByKey(CollectionGroups(children))
  {
    var gs := GroupByTitle(children);
    forall c | c in children ensures exists g :: g in gs && g.title == c.title {
      var i :| 0 <= i < |gs| && gs[i].title == c.title;
      assert gs[i] in gs;
    }
    ReorderKeepsGroups(children, gs, SortByDueDate(gs));
  }

  /** Reordering groups with distinct titles keeps the titles distinct. */
  lemma PermutationKeepsDistinctTitles(a: seq<Group>, b: seq<Group>)
    requires multiset(a) == multiset(b) && DistinctTitles(a)
    ensures DistinctTitles(b)
  {
    forall i, j | 0 <= i < j < |b| ensures b[i].title != b[j].title {
      assert b[i] in multiset(a) && b[j] in multiset(a);
      var x :| 0 <= x < |a| && a[x] == b[i];
      var y :| 0 <= y < |a| && a[y] == b[j];
      if b[i] == b[j] {
        TwiceCounted(b, i, j);
        OnceCounted(a, x);
        assert false;
      }
    }
  }

  /** An element at two positions is counted at least twice. */
  lemma TwiceCounted(b: seq<Group>, i: nat, j: nat)
    requires i < j < |b| && b[i] == b[j]
    ensures multiset(b)[b[i]] >= 2
  {
    assert b == b[..i] + [b[i]] + b[i + 1..j] + [b[j]] + b[j + 1..];
  }

  /** In a sequence with distinct titles each element is counted once. */
  lemma OnceCounted(a: seq<Group>, x: nat)
    requires x < |a| && DistinctTitles(a)
    ensures multiset(a)[a[x]] == 1
  {
    assert a == a[..x] + [a[x]] + a[x + 1..];
    assert a[x] !in a[..x] && a[x] !in a[x + 1..];
  }

  /**
   * `build_collection`: a new global milestone for every group, in the sorted order.
   * Sorting by `due_date || EPOCH` calls the memoising `due_date` on each of them, so
   * every result has `@due_date` defined and nothing else memoised.
   */
  method BuildCollection(children: seq<Milestone>) returns (r: seq<GlobalMilestone>)
    ensures |r| == |CollectionGroups(children)|
    ensures forall i :: 0 <= i < |r| ==> fresh(r[i])
    ensures forall i :: 0 <= i < |r| ==>
              r[i].title == CollectionGroups(children)[i].title && r[i].milestones == CollectionGroups(children)[i].milestones
    ensures forall i :: 0 <= i < |r| ==> r[i].firstMilestone == DisplayMilestone(r[i].milestones)
    ensures forall i :: 0 <= i < |r| ==> r[i].Valid() && r[i].DueDateKnown()
    ensures forall i :: 0 <= i < |r| ==> r[i].startDateMemo.None? && r[i].participantsMemo.None?
  {
    CollectionNonEmpty(children);
    r := NewGlobalMilestones(CollectionGroups(children));
  }

  /** Every group `build_collection` sorts has a milestone. */
  lemma CollectionNonEmpty(children: seq<Milestone>)
    ensures NonEmptyGroups(CollectionGroups(children))
  {
    CollectionIsGroupedAndSorted(children);
  }

  /**
   * A new global milestone for each group (the `map` step of `build_collection`),
   * each asked for its `due_date` as `sort_by` does.
   */
  method NewGlobalMilestones(groups: seq<Group>) returns (r: seq<GlobalMilestone>)
    requires NonEmptyGroups(groups)
    ensures |r| == |groups|
    ensures forall i :: 0 <= i < |r| ==> fresh(r[i])
    ensures forall i :: 0 <= i < |r| ==> r[i].title == groups[i].title && r[i].milestones == groups[i].milestones
    ensures forall i :: 0 <= i < |r| ==> r[i].firstMilestone == DisplayMilestone(r[i].milestones)
    ensures forall i :: 0 <= i < |r| ==> r[i].Valid() && r[i].DueDateKnown()
    ensures forall i :: 0 <= i < |r| ==> r[i].startDateMemo.None? && r[i].participantsMemo.None?
  {
    r := [];
    var i := 0;
    while i < |groups|
      invariant 0 <= i <= |groups| && |r| == i
      invariant forall k :: 0 <= k < i ==> fresh(r[k])
      invariant forall k :: 0 <= k < i ==> r[k].title == groups[k].title && r[k].milestones == groups[k].milestones
      invariant forall k :: 0 <= k < i ==> r[k].firstMilestone == DisplayMilestone(r[k].milestones)
      invariant forall k :: 0 <= k < i ==> r[k].Valid() && r[k].DueDateKnown()
      invariant forall k :: 0 <= k < i ==> r[k].startDateMemo.None? && r[k].participantsMemo.None?
    {
      var g := new GlobalMilestone(groups[i].title, groups[i].milestones);
      var _ := g.DueDate();
      r := r + [g];
      i := i + 1;
    }
  }

  /** `build`: `nil` when no milestone has the title, otherwise the global milestone of those that do. */
  method Build(children: seq<Milestone>, title: string) returns (g: Option<GlobalMilestone>)
    ensures g.None? <==> forall m :: m in children ==> m.title != title
    ensures g.Some? ==> (&& fresh(g.value) && g.value.Valid()
                         && g.value.title == title && g.value.milestones == WithTitle(children, title)
                         && g.value.firstMilestone == DisplayMilestone(g.value.milestones))
  {
    var ms := WithTitle(children, title);
    if ms == [] {
      return None;
    }
    var gm := new GlobalMilestone(title, ms);
    g := Some(gm);
  }
}
