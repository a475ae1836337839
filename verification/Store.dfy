/** The store: methods that read and write the tables, each against its meaning on the whole database. */
module Store {
  import opened Base
  import opened Billing
  import opened Conditions
  import opened Health
  import opened Import
  import opened Seeding
  import opened Tables
  import opened Text

  class Store {
    var db: Database

    constructor (db: Database)
      ensures this.db == db
    {
      this.db := db;
    }

    // ---- Billing ----

    method FindAPIKeyByValue(key: string) returns (row: Option<APIKey>)
      ensures row == if key in db.apiKeys then Some(db.apiKeys[key]) else None
    {
      row := if key in db.apiKeys then Some(db.apiKeys[key]) else None;
    }

    /** One transaction: the balance update, which may match no row, then the ledger row. */
    method TopupAPIKeyBalance(key: string, deltaMicros: int, reason: string, ref: string)
      modifies this
      ensures db == Topup(old(db), key, deltaMicros, reason, ref)
      ensures deltaMicros == 0 ==> db == old(db)
      ensures deltaMicros != 0 ==> db.txns == old(db).txns + [BillingTxn(key, deltaMicros, if Blank(reason) then "topup" else reason, ref)]
      ensures deltaMicros != 0 && key in old(db).apiKeys ==>
        var row := old(db).apiKeys[key];
        db.apiKeys == old(db).apiKeys[key := row.(balanceMicros := row.balanceMicros + deltaMicros)]
      ensures key !in old(db).apiKeys ==> db.apiKeys == old(db).apiKeys
    {
      if deltaMicros == 0 {
        return;
      }
      if key in db.apiKeys {
        var row := db.apiKeys[key];
        db := db.(apiKeys := db.apiKeys[key := row.(balanceMicros := row.balanceMicros + deltaMicros)]);
      }
      db := db.(txns := db.txns + [BillingTxn(key, deltaMicros, DefaultStr(reason, "topup"), ref)]);
    }

    /** One transaction: the conditional update and its ledger row, or an error and no change. */
    method DeductAPIKeyBalance(key: string, deltaMicros: int, reason: string, ref: string) returns (ok: bool)
      modifies this
      ensures ok <==> deltaMicros <= 0 || CanDeduct(old(db), key, deltaMicros)
      ensures db == Deduct(old(db), key, deltaMicros, reason, ref)
      ensures ok <==> deltaMicros <= 0 || (key in old(db).apiKeys && old(db).apiKeys[key].balanceMicros >= deltaMicros)
      ensures !ok || deltaMicros <= 0 ==> db == old(db)
      ensures ok && deltaMicros > 0 ==>
        var row := old(db).apiKeys[key];
        && db.apiKeys == old(db).apiKeys[key := row.(balanceMicros := row.balanceMicros - deltaMicros)]
        && db.txns == old(db).txns + [BillingTxn(key, -deltaMicros, if Blank(reason) then "usage" else reason, ref)]
    {
      if deltaMicros <= 0 {
        return true;
      }
      if key !in db.apiKeys || db.apiKeys[key].balanceMicros < deltaMicros {
        return false;
      }
      var row := db.apiKeys[key];
      db := db.(apiKeys := db.apiKeys[key := row.(balanceMicros := row.balanceMicros - deltaMicros)]);
      db := db.(txns := db.txns + [BillingTxn(key, -deltaMicros, DefaultStr(reason, "usage"), ref)]);
      return true;
    }

    method AddUsage(row: UsageRecord)
      modifies this
      ensures db == old(db).(usage := old(db).usage + [row])
    {
      db := db.(usage := db.usage + [row]);
    }

    // ---- Key health ----

    method UpdateProviderKeyHealth(id: int, consecutiveErrs: int, cooldownUntil: int, lastStatus: string)
      modifies this
      ensures db == old(db).(providerKeys := UpdateHealth(old(db).providerKeys, id, Written(consecutiveErrs, cooldownUntil), lastStatus))
    {
      db := db.(providerKeys := UpdateHealth(db.providerKeys, id, Written(consecutiveErrs, cooldownUntil), lastStatus));
    }

    // ---- Import ----

    /** The insert loop over the rules, in a table just emptied; it stops at a name the unique index refuses. */
    method CreateRules(rules: seq<Rule>) returns (ok: bool)
      requires db.rules == []
      modifies this
      ensures ok <==> InsertRules(rules, old(db).nextRuleId).Some?
      ensures ok ==>
        var table := InsertRules(rules, old(db).nextRuleId).value;
        db == old(db).(rules := table, nextRuleId := old(db).nextRuleId + |table|)
    {
      ghost var first := db.nextRuleId;
      for i := 0 to |rules|
        invariant InsertRules(rules[..i], first) == Some(db.rules)
        invariant db == old(db).(rules := db.rules, nextRuleId := first + |db.rules|)
      {
        var r := rules[i];
        assert rules[..i + 1][..i] == rules[..i];
        if Blank(r.name) || Blank(r.conditionJS) || Blank(r.actionJSON) {
          continue;
        }
        if r.priority <= 0 {
          r := r.(priority := 100);
        }
        if HasName(db.rules, r.name) {
          InsertStaysRefused(rules, i + 1, first);
          return false;
        }
        db := db.(rules := db.rules + [r.(id := db.nextRuleId)], nextRuleId := db.nextRuleId + 1);
      }
      assert rules[..|rules|] == rules;
      return true;
    }

    /** The defaults of a schedule's empty columns. */
    method FillSchedule(schedule: GroupSchedule) returns (sc: GroupSchedule)
      ensures sc == Scheduled(schedule, schedule.id)
    {
      sc := schedule;
      if sc.weekdayMask == "" {
        sc := sc.(weekdayMask := "1,2,3,4,5,6,7");
      }
      if sc.startHHMM == "" {
        sc := sc.(startHHMM := "00:00");
      }
      if sc.endHHMM == "" {
        sc := sc.(endHHMM := "23:59");
      }
      if sc.multiplier <= 0.0 {
        sc := sc.(multiplier := 1.0);
      }
    }

    method CreateSchedules(schedules: seq<GroupSchedule>)
      requires db.schedules == []
      modifies this
      ensures var table := InsertSchedules(schedules, old(db).nextScheduleId);
              db == old(db).(schedules := table, nextScheduleId := old(db).nextScheduleId + |table|)
    {
      ghost var first := db.nextScheduleId;
      for i := 0 to |schedules|
        invariant InsertSchedules(schedules[..i], first) == db.schedules
        invariant db == old(db).(schedules := db.schedules, nextScheduleId := first + |db.schedules|)
      {
        var sc := schedules[i];
        assert schedules[..i + 1][..i] == schedules[..i];
        if sc.groupName == "" {
          continue;
        }
        sc := FillSchedule(sc);
        db := db.(schedules := db.schedules + [sc.(id := db.nextScheduleId)], nextScheduleId := db.nextScheduleId + 1);
      }
      assert schedules[..|schedules|] == schedules;
    }

    /** One insertion, which the unique name index may refuse. */
    method CreateRule(row: Rule) returns (ok: bool)
      modifies this
      ensures ok <==> !HasName(old(db).rules, row.name)
      ensures db == if ok then old(db).(rules := old(db).rules + [row.(id := old(db).nextRuleId)], nextRuleId := old(db).nextRuleId + 1)
                    else old(db)
    {
      ok := !HasName(db.rules, row.name);
      if ok {
        db := db.(rules := db.rules + [row.(id := db.nextRuleId)], nextRuleId := db.nextRuleId + 1);
      }
    }

    /** The rules of the configuration, inserted in its order; a name already taken rolls everything back. */
    method SeedRules(config: seq<RoutingRule>, json: Json) returns (ok: bool)
      requires SevenBitRules(config)
      modifies this
      ensures ok <==> NamesFree(old(db).rules, config)
      ensures !ok ==> db == old(db)
      ensures ok ==> db == WithSeeded(old(db), config, json, |config|)
    {
      var before := db;
      for i := 0 to |config|
        invariant NamesFree(before.rules, config[..i])
        invariant db == WithSeeded(before, config, json, i)
      {
        var r := config[i];
        var text := BuildConditionJS(r.on);
        NameTakenAt(before.rules, SeededRows(config, json, before.nextRuleId)[..i], config, i);
        SeededOneMore(before, config, json, i);
        var created := CreateRule(Rule(0, r.name, i + 1, true, text, json.write(ActionFields(r.action))));
        if !created {
          db := before;
          return false;
        }
      }
      assert config[..|config|] == config;
      return true;
    }

    /** The transaction: an error part-way rolls everything back. */
    method ReplaceRulesAndSchedules(rules: seq<Rule>, schedules: seq<GroupSchedule>) returns (ok: bool)
      modifies this
      ensures (db, ok) == Replace(old(db), rules, schedules)
    {
      var before := db;
      db := db.(rules := []);
      ok := CreateRules(rules);
      if !ok {
        db := before;
        return;
      }
      db := db.(schedules := []);
      CreateSchedules(schedules);
    }
  }

  /** The database with the first i rules of the configuration added. */
  function WithSeeded(db: Database, config: seq<RoutingRule>, json: Json, i: nat): Database
    requires SevenBitRules(config) && i <= |config|
  {
    db.(rules := db.rules + SeededRows(config, json, db.nextRuleId)[..i], nextRuleId := db.nextRuleId + i)
  }

  lemma SeededOneMore(db: Database, config: seq<RoutingRule>, json: Json, i: nat)
    requires SevenBitRules(config) && i < |config|
    ensures var now := WithSeeded(db, config, json, i);
            WithSeeded(db, config, json, i + 1)
            == now.(rules := now.rules + [SeededRow(config[i], json, now.nextRuleId, i + 1)], nextRuleId := now.nextRuleId + 1)
  {
    var rows := SeededRows(config, json, db.nextRuleId);
    TakeOneMore(db.rules, rows, i);
  }

  lemma TakeOneMore(table: seq<Rule>, rows: seq<Rule>, i: nat)
    requires i < |rows|
    ensures table + rows[..i + 1] == (table + rows[..i]) + [rows[i]]
  {
  }

  /** The i-th name is taken when the table had it, or an earlier rule of the configuration has it. */
  lemma NameTakenAt(table: seq<Rule>, added: seq<Rule>, config: seq<RoutingRule>, i: nat)
    requires i < |config| && |added| == i && forall j :: 0 <= j < i ==> added[j].name == config[j].name
    requires NamesFree(table, config[..i])
    ensures HasName(table + added, config[i].name) ==> !NamesFree(table, config)
    ensures !HasName(table + added, config[i].name) ==> NamesFree(table, config[..i + 1])
  {
    var all, name := table + added, config[i].name;
    if k :| 0 <= k < |all| && all[k].name == name {
      if k < |table| {
        assert table[k].name == name;
      } else {
        assert config[k - |table|].name == name;
      }
    } else {
      forall k | 0 <= k < |table| ensures table[k].name != name {
        assert all[k] == table[k];
      }
      forall j | 0 <= j < i ensures config[j].name != name {
        assert all[|table| + j] == added[j];
      }
    }
  }

  /** Once a row is refused, the rest of the payload cannot help. */
  lemma {:induction false} InsertStaysRefused(rules: seq<Rule>, i: nat, firstId: int)
    requires i <= |rules| && InsertRules(rules[..i], firstId).None?
    ensures InsertRules(rules, firstId).None?
  {
    if i == |rules| {
      assert rules[..i] == rules;
    } else {
      assert rules[..|rules| - 1][..i] == rules[..i];
      InsertStaysRefused(rules[..|rules| - 1], i, firstId);
    }
  }
}
