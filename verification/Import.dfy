/**
 Importing rules and schedules: the tables are replaced in one transaction, and
 rules are later listed by priority, then id.
 */
module Import {
  import opened Base
  import opened Sorting
  import opened Sums
  import opened Tables
  import opened Text

  // ---- Rows ----

  /** A payload row without a name, a condition or an action is skipped. */
  predicate Kept(r: Rule) {
    !Blank(r.name) && !Blank(r.conditionJS) && !Blank(r.actionJSON)
  }

  function Priority(r: Rule): int { if r.priority <= 0 then 100 else r.priority }

  function Inserted(r: Rule, id: int): Rule {
    r.(id := id, priority := Priority(r))
  }

  predicate HasName(table: seq<Rule>, name: string) {
    exists i :: 0 <= i < |table| && table[i].name == name
  }

  /** The rows after inserting a payload into an empty table; None when the unique name index refuses a row. */
  function InsertRules(payload: seq<Rule>, firstId: int): Option<seq<Rule>> {
    if payload == [] then Some([])
    else
      var r := payload[|payload| - 1];
      match InsertRules(payload[..|payload| - 1], firstId)
      case None => None
      case Some(table) =>
        if !Kept(r) then Some(table)
        else if HasName(table, r.name) then None
        else Some(table + [Inserted(r, firstId + |table|)])
  }

  function Scheduled(sc: GroupSchedule, id: int): GroupSchedule {
    sc.(id := id,
        weekdayMask := if sc.weekdayMask == "" then "1,2,3,4,5,6,7" else sc.weekdayMask,
        startHHMM := if sc.startHHMM == "" then "00:00" else sc.startHHMM,
        endHHMM := if sc.endHHMM == "" then "23:59" else sc.endHHMM,
        multiplier := if sc.multiplier <= 0.0 then 1.0 else sc.multiplier)
  }

  function InsertSchedules(payload: seq<GroupSchedule>, firstId: int): seq<GroupSchedule> {
    if payload == [] then []
    else
      var sc, table := payload[|payload| - 1], InsertSchedules(payload[..|payload| - 1], firstId);
      if sc.groupName == "" then table else table + [Scheduled(sc, firstId + |table|)]
  }

  /** The whole transaction: both tables replaced, or nothing changed. */
  function Replace(db: Database, rules: seq<Rule>, schedules: seq<GroupSchedule>): (Database, bool) {
    match InsertRules(rules, db.nextRuleId)
    case None => (db, false)
    case Some(table) =>
      var scheds := InsertSchedules(schedules, db.nextScheduleId);
      (db.(rules := table, nextRuleId := db.nextRuleId + |table|,
           schedules := scheds, nextScheduleId := db.nextScheduleId + |scheds|), true)
  }

  // ---- Listing ----

  predicate RuleBefore(a: Rule, b: Rule) {
    a.priority < b.priority || (a.priority == b.priority && a.id <= b.id)
  }

  /** ORDER BY priority, id */
  function ListRules(table: seq<Rule>): seq<Rule> {
    Sort(table, RuleBefore)
  }

  predicate Ascending(table: seq<Rule>) {
    forall i, j :: 0 <= i < j < |table| ==> table[i].id < table[j].id
  }

  /** A row without its id. */
  function Content(r: Rule): Rule { r.(id := 0) }

  function Contents(rules: seq<Rule>): seq<Rule> {
    if rules == [] then [] else [Content(rules[0])] + Contents(rules[1..])
  }

  lemma {:induction false} ContentsAppend(a: seq<Rule>, b: seq<Rule>)
    ensures Contents(a + b) == Contents(a) + Contents(b)
  {
    if a == [] {
      assert a + b == b;
    } else {
      ContentsAppend(a[1..], b);
      assert (a + b)[1..] == a[1..] + b && (a + b)[0] == a[0];
      var first := [Content(a[0])];
      assert Contents(a + b) == first + (Contents(a[1..]) + Contents(b));
      assert first + (Contents(a[1..]) + Contents(b)) == (first + Contents(a[1..])) + Contents(b);
    }
  }

  lemma {:induction false} ContentsAt(rules: seq<Rule>)
    ensures |Contents(rules)| == |rules|
    ensures forall i :: 0 <= i < |rules| ==> Contents(rules)[i] == Content(rules[i])
  {
    if rules != [] {
      ContentsAt(rules[1..]);
    }
  }

  /** The kept payload rows as they will be stored, in payload order. */
  function Normalised(payload: seq<Rule>): seq<Rule> {
    if payload == [] then []
    else
      var r := payload[|payload| - 1];
      Normalised(payload[..|payload| - 1]) + (if Kept(r) then [Inserted(r, 0)] else [])
  }

  /** The payload's rows without a blank name, condition or action. */
  function Complete(payload: seq<Rule>): seq<Rule> {
    Filter(payload, (r: Rule) => !Blank(r.name) && !Blank(r.conditionJS) && !Blank(r.actionJSON))
  }

  /** What is stored are the payload's complete rows, each with its priority, or 100 when that is not positive. */
  lemma {:induction false} NormalisedIsComplete(payload: seq<Rule>)
    ensures |Normalised(payload)| == |Complete(payload)|
    ensures forall i :: 0 <= i < |Complete(payload)| ==>
      var r := Complete(payload)[i];
      Normalised(payload)[i] == Rule(0, r.name, if r.priority > 0 then r.priority else 100, r.enabled, r.conditionJS, r.actionJSON)
  {
    if payload != [] {
      var before, last := payload[..|payload| - 1], payload[|payload| - 1];
      NormalisedIsComplete(before);
      assert payload == before + [last];
      FilterAppend(before, [last], (r: Rule) => !Blank(r.name) && !Blank(r.conditionJS) && !Blank(r.actionJSON));
      assert Complete(payload) == Complete(before) + if Kept(last) then [last] else [];
    }
  }

  /** The payload's schedules that name a group. */
  function Grouped(payload: seq<GroupSchedule>): seq<GroupSchedule> {
    Filter(payload, (sc: GroupSchedule) => sc.groupName != "")
  }

  lemma GroupedOneMore(before: seq<GroupSchedule>, last: GroupSchedule)
    ensures Grouped(before + [last]) == Grouped(before) + if last.groupName != "" then [last] else []
  {
    FilterAppend(before, [last], (sc: GroupSchedule) => sc.groupName != "");
  }

  /** A stored schedule: the id, and defaults in the columns left empty. */
  predicate Filled(row: GroupSchedule, sc: GroupSchedule, id: int) {
    && row.id == id && row.groupName == sc.groupName && row.enabled == sc.enabled
    && row.weekdayMask == (if sc.weekdayMask != "" then sc.weekdayMask else "1,2,3,4,5,6,7")
    && row.startHHMM == (if sc.startHHMM != "" then sc.startHHMM else "00:00")
    && row.endHHMM == (if sc.endHHMM != "" then sc.endHHMM else "23:59")
    && row.multiplier == if sc.multiplier > 0.0 then sc.multiplier else 1.0
  }

  /** The table holds these rows, with ids counting up. */
  predicate FilledRows(table: seq<GroupSchedule>, rows: seq<GroupSchedule>, firstId: int) {
    |table| == |rows| && forall i :: 0 <= i < |rows| ==> Filled(table[i], rows[i], firstId + i)
  }

  lemma OneMoreFilled(table: seq<GroupSchedule>, rows: seq<GroupSchedule>, last: GroupSchedule, firstId: int)
    requires FilledRows(table, rows, firstId)
    ensures FilledRows(table + [Scheduled(last, firstId + |table|)], rows + [last], firstId)
  {
  }

  /** What is stored of the schedules: those that name a group, in their order with ids counting up, their empty columns filled. */
  lemma {:induction false} InsertSchedulesContents(payload: seq<GroupSchedule>, firstId: int)
    ensures FilledRows(InsertSchedules(payload, firstId), Grouped(payload), firstId)
  {
    if payload != [] {
      var before, last := payload[..|payload| - 1], payload[|payload| - 1];
      InsertSchedulesContents(before, firstId);
      assert payload == before + [last];
      GroupedOneMore(before, last);
      if last.groupName != "" {
        OneMoreFilled(InsertSchedules(before, firstId), Grouped(before), last, firstId);
      } else {
        assert Grouped(payload) == Grouped(before) && InsertSchedules(payload, firstId) == InsertSchedules(before, firstId);
      }
    }
  }

  function WithPriority(p: int): Rule -> bool {
    (r: Rule) => r.priority == p
  }

  /** `out` is the stable sort of `rows` by priority: ordered, and each priority's rows as they stood. */
  ghost predicate StableSort(out: seq<Rule>, rows: seq<Rule>) {
    && (forall i, j :: 0 <= i < j < |out| ==> out[i].priority <= out[j].priority)
    && (forall p :: Filter(out, WithPriority(p)) == Filter(rows, WithPriority(p)))
  }

  /** There is only one stable sort. */
  lemma {:induction false} StableSortUnique(a: seq<Rule>, b: seq<Rule>, rows: seq<Rule>)
    requires StableSort(a, rows) && StableSort(b, rows)
    ensures a == b
    decreases |a|
  {
    if a == [] {
      if b != [] {
        HeadOfStable(b, a, rows);
      }
    } else {
      HeadOfStable(a, b, rows);
      HeadOfStable(b, a, rows);
      var p := a[0].priority;
      assert b[0].priority == p;
      assert a[0] == Filter(a, WithPriority(p))[0] == Filter(b, WithPriority(p))[0] == b[0];
      forall q ensures Filter(a[1..], WithPriority(q)) == Filter(b[1..], WithPriority(q)) {
        assert Filter(a, WithPriority(q)) == Filter(b, WithPriority(q));
        FilterTail(a, WithPriority(q));
        FilterTail(b, WithPriority(q));
      }
      StableSortUnique(a[1..], b[1..], b[1..]);
    }
  }

  lemma FilterTail(s: seq<Rule>, keep: Rule -> bool)
    requires s != []
    ensures Filter(s[1..], keep) == if keep(s[0]) then Filter(s, keep)[1..] else Filter(s, keep)
  {
  }

  lemma HeadOfStable(a: seq<Rule>, b: seq<Rule>, rows: seq<Rule>)
    requires StableSort(a, rows) && StableSort(b, rows) && a != []
    ensures b != [] && b[0].priority <= a[0].priority
  {
    var p := a[0].priority;
    assert Filter(a, WithPriority(p)) == Filter(b, WithPriority(p));
    FilterMembers(b, WithPriority(p));
    assert Filter(b, WithPriority(p))[0] in b;
    var i :| 0 <= i < |b| && b[i].priority == p;
  }

  lemma {:induction false} ContentsOfGroup(rules: seq<Rule>, p: int)
    ensures Contents(Filter(rules, WithPriority(p))) == Filter(Contents(rules), WithPriority(p))
  {
    if rules != [] {
      ContentsOfGroup(rules[1..], p);
      var first := if WithPriority(p)(rules[0]) then [rules[0]] else [];
      ContentsAppend(first, Filter(rules[1..], WithPriority(p)));
      assert Contents(rules)[1..] == Contents(rules[1..]);
    }
  }

  /** Listing a table whose ids ascend is the stable sort of its rows by priority. */
  lemma ListingIsStable(table: seq<Rule>)
    requires Ascending(table)
    ensures StableSort(Contents(ListRules(table)), Contents(table))
  {
    var out := ListRules(table);
    SortSorts(table, RuleBefore);
    ContentsAt(out);
    forall p ensures Filter(Contents(out), WithPriority(p)) == Filter(Contents(table), WithPriority(p)) {
      SortKeepsGroup(table, WithPriority(p), RuleBefore);
      ContentsOfGroup(out, p);
      ContentsOfGroup(table, p);
    }
  }

  // ---- What an import leaves ----

  predicate DistinctNames(rules: seq<Rule>) {
    forall i, j :: 0 <= i < j < |rules| ==> rules[i].name != rules[j].name
  }

  lemma NamesAfterOneMore(rows: seq<Rule>, r: Rule)
    ensures DistinctNames(rows + [r]) <==> DistinctNames(rows) && !HasName(rows, r.name)
  {
    var all := rows + [r];
    assert forall i :: 0 <= i < |rows| ==> all[i] == rows[i];
    assert all[|rows|] == r;
    if DistinctNames(all) {
      forall i, j | 0 <= i < j < |rows| ensures rows[i].name != rows[j].name {
        assert all[i].name != all[j].name;
      }
      forall i | 0 <= i < |rows| ensures rows[i].name != r.name {
        assert all[i].name != all[|rows|].name;
      }
    }
  }

  /** The table holds the rows with ids counting up. */
  predicate Holds(table: seq<Rule>, rows: seq<Rule>, firstId: int) {
    && Contents(table) == rows && Ascending(table)
    && forall i :: 0 <= i < |table| ==> table[i].id == firstId + i
  }

  lemma OneMoreRow(table: seq<Rule>, rows: seq<Rule>, r: Rule, firstId: int)
    requires Holds(table, rows, firstId)
    ensures Holds(table + [Inserted(r, firstId + |table|)], rows + [Inserted(r, 0)], firstId)
  {
    ContentsAppend(table, [Inserted(r, firstId + |table|)]);
  }

  /** A successful import holds the kept rows in payload order, with ascending ids. */
  lemma {:induction false} InsertRulesContents(payload: seq<Rule>, firstId: int)
    requires InsertRules(payload, firstId).Some?
    ensures Holds(InsertRules(payload, firstId).value, Normalised(payload), firstId)
  {
    if payload != [] {
      var n := |payload| - 1;
      InsertRulesContents(payload[..n], firstId);
      if Kept(payload[n]) {
        OneMoreRow(InsertRules(payload[..n], firstId).value, Normalised(payload[..n]), payload[n], firstId);
      } else {
        assert Normalised(payload) == Normalised(payload[..n]);
      }
    }
  }

  lemma SameNames(table: seq<Rule>, name: string)
    ensures HasName(Contents(table), name) <==> HasName(table, name)
  {
    ContentsAt(table);
    if HasName(table, name) {
      var i :| 0 <= i < |table| && table[i].name == name;
      assert Contents(table)[i].name == name;
    }
  }

  /** An import succeeds exactly when the kept names are distinct. */
  lemma {:induction false} InsertRulesSucceeds(payload: seq<Rule>, firstId: int)
    ensures InsertRules(payload, firstId).Some? <==> DistinctNames(Normalised(payload))
  {
    if payload != [] {
      var n := |payload| - 1;
      var r, before := payload[n], payload[..n];
      InsertRulesSucceeds(before, firstId);
      if !Kept(r) {
        assert Normalised(payload) == Normalised(before);
      } else {
        NamesAfterOneMore(Normalised(before), Inserted(r, 0));
        if InsertRules(before, firstId).Some? {
          InsertRulesContents(before, firstId);
          SameNames(InsertRules(before, firstId).value, r.name);
        }
      }
    }
  }

  /** What every write to the rules table keeps: unique names, positive priorities, ids in insertion order. */
  predicate RulesTable(table: seq<Rule>) {
    && DistinctNames(table) && Ascending(table)
    && forall i :: 0 <= i < |table| ==> table[i].priority > 0
  }

  predicate AllEnabled(rules: seq<Rule>) {
    forall i :: 0 <= i < |rules| ==> rules[i].enabled
  }

  lemma {:induction false} NormalisedPriorities(payload: seq<Rule>)
    ensures forall i :: 0 <= i < |Normalised(payload)| ==> Normalised(payload)[i].priority > 0
  {
    if payload != [] {
      NormalisedPriorities(payload[..|payload| - 1]);
    }
  }

  /**
   Import semantics: a name collision among the kept rows leaves the database
   alone; otherwise the rules are listed as the stable sort by priority of the
   kept rows, non-positive priorities set to 100, and the table keeps its shape.
   */
  lemma ImportSemantics(db: Database, rules: seq<Rule>, schedules: seq<GroupSchedule>)
    requires AllEnabled(rules)
    ensures var (after, ok) := Replace(db, rules, schedules);
      && (ok <==> DistinctNames(Normalised(rules)))
      && (!ok ==> after == db)
      && (ok ==> StableSort(Contents(ListRules(after.rules)), Normalised(rules)) && RulesTable(after.rules))
  {
    InsertRulesSucceeds(rules, db.nextRuleId);
    var (after, ok) := Replace(db, rules, schedules);
    if ok {
      InsertRulesContents(rules, db.nextRuleId);
      ListingIsStable(after.rules);
      ContentsAt(after.rules);
      NormalisedPriorities(rules);
    }
  }

  /** A successful import replaces both tables with rows of fresh ids, and touches no other table. */
  lemma ImportReplacesBoth(db: Database, rules: seq<Rule>, schedules: seq<GroupSchedule>)
    requires Replace(db, rules, schedules).1
    ensures var after := Replace(db, rules, schedules).0;
      && Holds(after.rules, Normalised(rules), db.nextRuleId) && after.nextRuleId == db.nextRuleId + |after.rules|
      && FilledRows(after.schedules, Grouped(schedules), db.nextScheduleId) && after.nextScheduleId == db.nextScheduleId + |after.schedules|
      && after.(rules := db.rules, nextRuleId := db.nextRuleId, schedules := db.schedules, nextScheduleId := db.nextScheduleId) == db
  {
    InsertRulesContents(rules, db.nextRuleId);
    InsertSchedulesContents(schedules, db.nextScheduleId);
  }

  lemma {:induction false} NormalisedLength(payload: seq<Rule>)
    ensures |Normalised(payload)| <= |payload|
    ensures |Normalised(payload)| == |payload| <==> forall i :: 0 <= i < |payload| ==> Kept(payload[i])
  {
    if payload != [] {
      NormalisedLength(payload[..|payload| - 1]);
      assert forall i :: 0 <= i < |payload| - 1 ==> payload[..|payload| - 1][i] == payload[i];
    }
  }

  lemma {:induction false} NormalisedUnchanged(payload: seq<Rule>)
    requires forall i :: 0 <= i < |payload| ==> Kept(payload[i]) && payload[i].priority > 0
    ensures Normalised(payload) == Contents(payload)
  {
    if payload != [] {
      var n := |payload| - 1;
      NormalisedUnchanged(payload[..n]);
      assert payload == payload[..n] + [payload[n]];
      ContentsAppend(payload[..n], [payload[n]]);
    }
  }

  lemma ListingKeepsRows(table: seq<Rule>)
    ensures |ListRules(table)| == |table| && forall r :: r in ListRules(table) <==> r in table
  {
    SortPermutes(table, RuleBefore);
    var out := ListRules(table);
    assert |multiset(out)| == |out| && |multiset(table)| == |table|;
    forall r ensures r in out <==> r in table {
      assert r in out <==> r in multiset(out);
      assert r in table <==> r in multiset(table);
    }
  }

  lemma {:induction false} EachRowOnce(rows: seq<Rule>, r: Rule)
    requires DistinctNames(rows)
    ensures multiset(rows)[r] <= 1
  {
    if rows != [] {
      var n := |rows| - 1;
      EachRowOnce(rows[..n], r);
      assert rows == rows[..n] + [rows[n]];
      if rows[n] == r {
        assert r !in rows[..n];
      }
    }
  }

  lemma TwiceInSequence(rows: seq<Rule>, i: nat, j: nat)
    requires i < j < |rows| && rows[i] == rows[j]
    ensures multiset(rows)[rows[i]] >= 2
  {
    assert rows == rows[..j] + [rows[j]] + rows[j + 1..];
    assert rows[i] in rows[..j];
  }

  lemma ListingKeepsNames(table: seq<Rule>)
    requires RulesTable(table)
    ensures DistinctNames(ListRules(table))
  {
    var out := ListRules(table);
    ListingKeepsRows(table);
    SortPermutes(table, RuleBefore);
    forall i, j | 0 <= i < j < |out| ensures out[i].name != out[j].name {
      assert out[i] in table && out[j] in table;
      EachRowOnce(table, out[i]);
      if out[i] == out[j] {
        TwiceInSequence(out, i, j);
      }
    }
  }

  /**
   Round trip: importing an export of the rules restores their listing, up to ids,
   exactly when no exported row has a blank part.
   */
  lemma ImportOfExport(db: Database, schedules: seq<GroupSchedule>)
    requires RulesTable(db.rules) && AllEnabled(db.rules)
    ensures var exported := ListRules(db.rules);
            var (after, ok) := Replace(db, exported, schedules);
            ok && (Contents(ListRules(after.rules)) == Contents(exported)
                   <==> forall i :: 0 <= i < |db.rules| ==> Kept(db.rules[i]))
  {
    var exported := ListRules(db.rules);
    var (after, ok) := Replace(db, exported, schedules);
    ExportIsImportable(db.rules);
    ImportSemantics(db, exported, schedules);
    AllKeptEither(db.rules);
    if forall i :: 0 <= i < |exported| ==> Kept(exported[i]) {
      NormalisedUnchanged(exported);
      ExportIsSorted(db.rules);
      StableSortUnique(Contents(ListRules(after.rules)), Contents(exported), Contents(exported));
    } else {
      NormalisedLength(exported);
      InsertRulesContents(exported, db.nextRuleId);
      ContentsAt(after.rules);
      ListingKeepsRows(after.rules);
      ContentsAt(exported);
      ContentsAt(ListRules(after.rules));
    }
  }

  /** Importing an export always succeeds, and leaves the listing without its rows that have a blank part. */
  lemma ImportOfExportListing(db: Database, schedules: seq<GroupSchedule>)
    requires RulesTable(db.rules) && AllEnabled(db.rules)
    ensures var exported := ListRules(db.rules);
            var (after, ok) := Replace(db, exported, schedules);
            ok && Contents(ListRules(after.rules)) == Normalised(exported)
  {
    var exported := ListRules(db.rules);
    var (after, _) := Replace(db, exported, schedules);
    ExportIsImportable(db.rules);
    ImportSemantics(db, exported, schedules);
    NormalisedSorted(exported);
    StableSortUnique(Contents(ListRules(after.rules)), Normalised(exported), Normalised(exported));
  }

  /** Dropping rows from an ordered listing leaves it ordered. */
  lemma {:induction false} NormalisedSorted(payload: seq<Rule>)
    requires forall i :: 0 <= i < |payload| ==> payload[i].priority > 0
    requires forall i, j :: 0 <= i < j < |payload| ==> payload[i].priority <= payload[j].priority
    ensures StableSort(Normalised(payload), Normalised(payload))
    ensures forall r :: r in Normalised(payload) ==> payload != [] && r.priority <= payload[|payload| - 1].priority
  {
    if payload != [] {
      NormalisedSorted(payload[..|payload| - 1]);
    }
  }

  lemma ExportIsImportable(table: seq<Rule>)
    requires RulesTable(table) && AllEnabled(table)
    ensures AllEnabled(ListRules(table)) && DistinctNames(Normalised(ListRules(table)))
    ensures forall i :: 0 <= i < |ListRules(table)| ==> ListRules(table)[i].priority > 0
    ensures forall i, j :: 0 <= i < j < |ListRules(table)| ==> ListRules(table)[i].priority <= ListRules(table)[j].priority
  {
    var exported := ListRules(table);
    ListingKeepsRows(table);
    ListingKeepsNames(table);
    NormalisedNamesDistinct(exported);
    SortSorts(table, RuleBefore);
    forall i | 0 <= i < |exported| ensures exported[i].enabled && exported[i].priority > 0 {
      assert exported[i] in table;
    }
  }

  lemma ExportIsSorted(table: seq<Rule>)
    ensures StableSort(Contents(ListRules(table)), Contents(ListRules(table)))
  {
    SortSorts(table, RuleBefore);
    ContentsAt(ListRules(table));
  }

  lemma AllKeptEither(table: seq<Rule>)
    ensures (forall i :: 0 <= i < |table| ==> Kept(table[i])) <==> forall i :: 0 <= i < |ListRules(table)| ==> Kept(ListRules(table)[i])
  {
    var out := ListRules(table);
    ListingKeepsRows(table);
    assert (forall i :: 0 <= i < |table| ==> Kept(table[i])) <==> forall r :: r in table ==> Kept(r);
    assert (forall i :: 0 <= i < |out| ==> Kept(out[i])) <==> forall r :: r in out ==> Kept(r);
  }

  lemma {:induction false} NormalisedNamesDistinct(payload: seq<Rule>)
    requires DistinctNames(payload)
    ensures DistinctNames(Normalised(payload))
    ensures forall name :: HasName(Normalised(payload), name) ==> HasName(payload, name)
  {
    if payload != [] {
      var n := |payload| - 1;
      NormalisedNamesDistinct(payload[..n]);
      NamesAfterOneMore(Normalised(payload[..n]), Inserted(payload[n], 0));
      forall name | HasName(Normalised(payload), name) ensures HasName(payload, name) {
        var i :| 0 <= i < |Normalised(payload)| && Normalised(payload)[i].name == name;
        if i < |Normalised(payload[..n])| {
          assert HasName(Normalised(payload[..n]), name);
          var j :| 0 <= j < n && payload[..n][j].name == name;
          assert payload[j].name == name;
        } else {
          assert payload[n].name == name;
        }
      }
    }
  }
}
