/** The published view of the tables, and the loop that builds it. */
module SnapshotView {
  import opened Base
  import opened Clock
  import opened Import
  import opened Sorting
  import opened Sums
  import opened Tables
  import opened Text

  /** json.Unmarshal of a rule's action: None when it fails. */
  type Decoder = string -> Option<RuleAction>

  // ---- Listings ----

  /** Text order, character by character. */
  predicate TextBefore(a: string, b: string) {
    a == "" || (b != "" && (a[0] < b[0] || (a[0] == b[0] && TextBefore(a[1..], b[1..]))))
  }

  predicate KeyBefore(a: ProviderKey, b: ProviderKey) {
    if a.providerName == b.providerName then a.id <= b.id else TextBefore(a.providerName, b.providerName)
  }

  /** ORDER BY provider_name, id */
  function ListProviderKeys(table: seq<ProviderKey>): seq<ProviderKey> {
    Sort(table, KeyBefore)
  }

  predicate ScheduleBefore(a: GroupSchedule, b: GroupSchedule) {
    if a.groupName == b.groupName then a.id <= b.id else TextBefore(a.groupName, b.groupName)
  }

  /** ORDER BY group_name, id */
  function ListSchedules(table: seq<GroupSchedule>): seq<GroupSchedule> {
    Sort(table, ScheduleBefore)
  }

  // ---- The view of listed tables ----

  function KeyState(pk: ProviderKey): ProviderKeyState {
    ProviderKeyState(pk.id, pk.alias, pk.enabled, pk.consecutiveErrs, UnixTime(pk.cooldownUntil), pk.lastStatus)
  }

  function KeyStates(rows: seq<ProviderKey>): seq<ProviderKeyState> {
    seq(|rows|, i requires 0 <= i < |rows| => KeyState(rows[i]))
  }

  function OfProvider(name: string): ProviderKey -> bool {
    (pk: ProviderKey) => pk.providerName == name
  }

  function ProviderView(p: Provider, listed: seq<ProviderKey>): ProviderState {
    ProviderState(p.name, p.weight, p.models, p.maxRPM, p.maxTPM, p.enabled, p.groupName,
                  (if p.recoverIntervalSec > 1 then p.recoverIntervalSec else 1) * SECOND,
                  KeyStates(Filter(listed, OfProvider(p.name))))
  }

  function GatewayKeyView(k: APIKey): GatewayKey {
    GatewayKey(k.keyValue, k.tenantName, k.balanceMicros, k.maxRPM, k.maxTPM, k.allowedModels, k.rateMultiplier, k.enabled)
  }

  predicate Runnable(r: Rule, decode: Decoder) {
    r.enabled && decode(r.actionJSON).Some?
  }

  function RuleView(r: Rule, decode: Decoder): RuleState
    requires Runnable(r, decode)
  {
    RuleState(r.id, r.name, r.priority, r.enabled, r.conditionJS, decode(r.actionJSON).value)
  }

  /** The enabled, decodable rules of a listing, in its order. */
  function RuleViews(listed: seq<Rule>, decode: Decoder): seq<RuleState> {
    if listed == [] then []
    else
      var last := listed[|listed| - 1];
      RuleViews(listed[..|listed| - 1], decode) + (if Runnable(last, decode) then [RuleView(last, decode)] else [])
  }

  /** The five listings a reload reads. */
  datatype Listings = Listings(
    providers: map<string, Provider>,
    providerKeys: seq<ProviderKey>,
    apiKeys: map<string, APIKey>,
    rules: seq<Rule>,
    schedules: seq<GroupSchedule>)

  function ListingsOf(db: Database): Listings {
    Listings(db.providers, ListProviderKeys(db.providerKeys), db.apiKeys, ListRules(db.rules), ListSchedules(db.schedules))
  }

  function View(l: Listings, decode: Decoder): Snapshot {
    Snapshot(map name | name in l.providers :: ProviderView(l.providers[name], l.providerKeys),
             map key | key in l.apiKeys :: GatewayKeyView(l.apiKeys[key]),
             RuleViews(l.rules, decode),
             l.schedules)
  }

  /** Rows stored under their own unique names. */
  predicate KeyedByName(l: Listings) {
    && (forall name :: name in l.providers ==> l.providers[name].name == name)
    && (forall key :: key in l.apiKeys ==> l.apiKeys[key].keyValue == key)
  }

  function Grouped(m: map<string, seq<ProviderKey>>, name: string): seq<ProviderKey> {
    if name in m then m[name] else []
  }

  /** The grouping loop: each provider name gets its rows, in listing order. */
  method GroupKeys(listed: seq<ProviderKey>) returns (byProvider: map<string, seq<ProviderKey>>)
    ensures forall name :: Grouped(byProvider, name) == Filter(listed, OfProvider(name))
  {
    byProvider := map[];
    for i := 0 to |listed|
      invariant forall name :: Grouped(byProvider, name) == Filter(listed[..i], OfProvider(name))
    {
      var pk := listed[i];
      assert listed[..i + 1] == listed[..i] + [pk];
      forall name ensures Filter(listed[..i + 1], OfProvider(name))
                       == Filter(listed[..i], OfProvider(name)) + (if pk.providerName == name then [pk] else []) {
        FilterAppend(listed[..i], [pk], OfProvider(name));
      }
      var group := if pk.providerName in byProvider then byProvider[pk.providerName] else [];
      assert group == Grouped(byProvider, pk.providerName);
      byProvider := byProvider[pk.providerName := group + [pk]];
    }
    assert listed[..|listed|] == listed;
  }

  method BuildKeys(rows: seq<ProviderKey>) returns (keys: seq<ProviderKeyState>)
    ensures keys == KeyStates(rows)
  {
    keys := [];
    for i := 0 to |rows|
      invariant keys == KeyStates(rows[..i])
    {
      assert rows[..i + 1][..i] == rows[..i];
      keys := keys + [KeyState(rows[i])];
    }
    assert rows[..|rows|] == rows;
  }

  method BuildProviders(l: Listings) returns (providers: map<string, ProviderState>)
    requires KeyedByName(l)
    ensures providers == map name | name in l.providers :: ProviderView(l.providers[name], l.providerKeys)
  {
    var byProvider := GroupKeys(l.providerKeys);
    providers := map[];
    var rest := l.providers.Keys;
    while rest != {}
      invariant rest <= l.providers.Keys
      invariant providers.Keys == l.providers.Keys - rest
      invariant forall name :: name in providers ==> providers[name] == ProviderView(l.providers[name], l.providerKeys)
      decreases |rest|
    {
      var name :| name in rest;
      rest := rest - {name};
      var p := l.providers[name];
      var rows := if p.name in byProvider then byProvider[p.name] else [];
      assert rows == Grouped(byProvider, p.name);
      var keys := BuildKeys(rows);
      var recover := (if p.recoverIntervalSec > 1 then p.recoverIntervalSec else 1) * SECOND;
      var state := ProviderState(p.name, p.weight, p.models, p.maxRPM, p.maxTPM, p.enabled, p.groupName, recover, keys);
      assert state == ProviderView(p, l.providerKeys);
      providers := providers[p.name := state];
    }
  }

  method BuildGatewayKeys(apiKeys: map<string, APIKey>) returns (keys: map<string, GatewayKey>)
    requires forall key :: key in apiKeys ==> apiKeys[key].keyValue == key
    ensures keys == map key | key in apiKeys :: GatewayKeyView(apiKeys[key])
  {
    keys := map[];
    var rest := apiKeys.Keys;
    while rest != {}
      invariant rest <= apiKeys.Keys
      invariant keys.Keys == apiKeys.Keys - rest
      invariant forall key :: key in keys ==> keys[key] == GatewayKeyView(apiKeys[key])
      decreases |rest|
    {
      var key :| key in rest;
      rest := rest - {key};
      keys := keys[apiKeys[key].keyValue := GatewayKeyView(apiKeys[key])];
    }
  }

  method BuildRules(listed: seq<Rule>, decode: Decoder) returns (rules: seq<RuleState>)
    ensures rules == RuleViews(listed, decode)
  {
    rules := [];
    for i := 0 to |listed|
      invariant rules == RuleViews(listed[..i], decode)
    {
      var r := listed[i];
      assert listed[..i + 1][..i] == listed[..i];
      if !r.enabled {
        continue;
      }
      var action := decode(r.actionJSON);
      if action.None? {
        continue;
      }
      rules := rules + [RuleState(r.id, r.name, r.priority, r.enabled, r.conditionJS, action.value)];
    }
    assert listed[..|listed|] == listed;
  }

  /** The second half of reloadSnapshot: from the rows read to the snapshot to publish. */
  method BuildSnapshot(l: Listings, decode: Decoder) returns (snap: Snapshot)
    requires KeyedByName(l)
    ensures snap == View(l, decode)
  {
    var providers := BuildProviders(l);
    var keys := BuildGatewayKeys(l.apiKeys);
    var rules := BuildRules(l.rules, decode);
    snap := Snapshot(providers, keys, rules, l.schedules);
  }

  // ---- What the view shows ----

  predicate AscendingKeys(table: seq<ProviderKey>) {
    forall i, j :: 0 <= i < j < |table| ==> table[i].id < table[j].id
  }

  /** A provider in the view has its own key rows, each once, in id order, whatever the listing mixes in between. */
  lemma ViewShowsOwnKeys(db: Database, name: string, decode: Decoder)
    requires AscendingKeys(db.providerKeys) && name in db.providers && db.providers[name].name == name
    ensures View(ListingsOf(db), decode).providers[name].keys == KeyStates(Filter(db.providerKeys, OfProvider(name)))
  {
    SortKeepsGroup(db.providerKeys, OfProvider(name), KeyBefore);
  }

  lemma {:induction false} RuleViewsMembers(listed: seq<Rule>, decode: Decoder)
    ensures |RuleViews(listed, decode)| <= |listed|
    ensures forall v :: v in RuleViews(listed, decode) <==>
              exists i :: 0 <= i < |listed| && Runnable(listed[i], decode) && v == RuleView(listed[i], decode)
  {
    if listed != [] {
      var n := |listed| - 1;
      RuleViewsMembers(listed[..n], decode);
      forall v ensures v in RuleViews(listed, decode) <==>
                 exists i :: 0 <= i < |listed| && Runnable(listed[i], decode) && v == RuleView(listed[i], decode) {
        if i :| 0 <= i < |listed| && Runnable(listed[i], decode) && v == RuleView(listed[i], decode) {
          if i < n {
            assert listed[..n][i] == listed[i];
          }
        } else {
          assert forall i :: 0 <= i < n ==> listed[..n][i] == listed[i];
        }
      }
    }
  }

  predicate InRuleOrder(a: RuleState, b: RuleState) {
    a.priority < b.priority || (a.priority == b.priority && a.id < b.id)
  }

  lemma {:induction false} RuleViewsSorted(listed: seq<Rule>, decode: Decoder)
    requires forall i, j :: 0 <= i < j < |listed| ==> RuleBefore(listed[i], listed[j]) && listed[i].id != listed[j].id
    ensures forall i, j :: 0 <= i < j < |RuleViews(listed, decode)| ==> InRuleOrder(RuleViews(listed, decode)[i], RuleViews(listed, decode)[j])
  {
    if listed != [] {
      var n := |listed| - 1;
      var before := RuleViews(listed[..n], decode);
      RuleViewsSorted(listed[..n], decode);
      RuleViewsMembers(listed[..n], decode);
      forall i | 0 <= i < |before| ensures Runnable(listed[n], decode) ==> InRuleOrder(before[i], RuleView(listed[n], decode)) {
        assert before[i] in before;
      }
    }
  }

  /** The row is enabled, its action can be decoded, and these are its columns. */
  predicate Shown(r: Rule, v: RuleState, decode: Decoder) {
    r.enabled && decode(r.actionJSON).Some? && v == RuleState(r.id, r.name, r.priority, true, r.conditionJS, decode(r.actionJSON).value)
  }

  /** The view's rules are the enabled, decodable rows, and only those, strictly in order of priority, then id. */
  lemma ViewShowsRulesInOrder(db: Database, decode: Decoder)
    requires RulesTable(db.rules)
    ensures var rules := View(ListingsOf(db), decode).rules;
      && (forall i, j :: 0 <= i < j < |rules| ==> InRuleOrder(rules[i], rules[j]))
      && (forall v :: v in rules <==> exists r :: r in db.rules && Shown(r, v, decode))
  {
    var listed := ListRules(db.rules);
    SortSorts(db.rules, RuleBefore);
    ListingKeepsRows(db.rules);
    ListingKeepsNames(db.rules);
    forall i, j | 0 <= i < j < |listed| ensures listed[i].id != listed[j].id {
      assert listed[i] in db.rules && listed[j] in db.rules && listed[i].name != listed[j].name;
    }
    RuleViewsSorted(listed, decode);
    RuleViewsMembers(listed, decode);
    var rules := RuleViews(listed, decode);
    forall v ensures v in rules <==> exists r :: r in db.rules && Shown(r, v, decode) {
      if v in rules {
        var i :| 0 <= i < |listed| && Runnable(listed[i], decode) && v == RuleView(listed[i], decode);
        assert listed[i] in db.rules && Shown(listed[i], v, decode);
      }
      if r :| r in db.rules && Shown(r, v, decode) {
        assert r in listed && v == RuleView(r, decode);
      }
    }
  }

  function OfGroup(group: string): GroupSchedule -> bool {
    (sc: GroupSchedule) => sc.groupName == group
  }

  /** The view's schedules are the rows, each group's in the order of their ids. */
  lemma ViewShowsSchedules(db: Database, group: string, decode: Decoder)
    requires forall i, j :: 0 <= i < j < |db.schedules| ==> db.schedules[i].id < db.schedules[j].id
    ensures var shown := View(ListingsOf(db), decode).schedules;
            multiset(shown) == multiset(db.schedules) && Filter(shown, OfGroup(group)) == Filter(db.schedules, OfGroup(group))
  {
    SortPermutes(db.schedules, ScheduleBefore);
    SortKeepsGroup(db.schedules, OfGroup(group), ScheduleBefore);
  }

  /** Snapshot providers are stored under their own names, which stickiness relies on. */
  lemma ViewNamesAgree(l: Listings, decode: Decoder)
    requires KeyedByName(l)
    ensures forall name :: name in View(l, decode).providers ==> View(l, decode).providers[name].name == name
  {
  }

  // ---- What an import leaves to the rule engine ----

  /** Text without anything in it is no JSON value. */
  ghost predicate RefusesBlank(decode: Decoder) {
    forall text :: Blank(text) ==> decode(text).None?
  }

  /** The rule engine runs the row, and an import would drop it. */
  predicate RunsButBlank(r: Rule, decode: Decoder) {
    Runnable(r, decode) && (Blank(r.name) || Blank(r.conditionJS))
  }

  /** What the engine runs of the rows an import keeps, against what it runs of all of them. */
  lemma {:induction false} ViewsOfKept(rows: seq<Rule>, decode: Decoder)
    requires RefusesBlank(decode) && forall i :: 0 <= i < |rows| ==> rows[i].priority > 0
    ensures |RuleViews(Normalised(rows), decode)| <= |RuleViews(Contents(rows), decode)|
    ensures RuleViews(Normalised(rows), decode) == RuleViews(Contents(rows), decode)
       <==> forall i :: 0 <= i < |rows| ==> !RunsButBlank(rows[i], decode)
    ensures |RuleViews(Normalised(rows), decode)| == |RuleViews(Contents(rows), decode)|
        ==> RuleViews(Normalised(rows), decode) == RuleViews(Contents(rows), decode)
  {
    if rows != [] {
      var n := |rows| - 1;
      var before, last := rows[..n], rows[n];
      ViewsOfKept(before, decode);
      assert rows == before + [last];
      ContentsAppend(before, [last]);
      assert Contents(rows) == Contents(before) + [Content(last)];
      ViewsOneMore(Contents(before), Content(last), decode);
      assert Inserted(last, 0) == Content(last);
      assert Runnable(last, decode) && !Kept(last) <==> RunsButBlank(last, decode);
      if Kept(last) {
        assert Normalised(rows) == Normalised(before) + [Content(last)];
        ViewsOneMore(Normalised(before), Content(last), decode);
      } else {
        assert Normalised(rows) == Normalised(before);
      }
      assert (forall i :: 0 <= i < |rows| ==> !RunsButBlank(rows[i], decode))
        <==> (forall i :: 0 <= i < n ==> !RunsButBlank(before[i], decode)) && !RunsButBlank(last, decode);
    }
  }

  lemma ViewsOneMore(listed: seq<Rule>, r: Rule, decode: Decoder)
    ensures RuleViews(listed + [r], decode) == RuleViews(listed, decode) + if Runnable(r, decode) then [RuleView(r, decode)] else []
  {
    assert (listed + [r])[..|listed|] == listed;
  }

  /**
   Importing an export leaves the rule engine the sequence it ran, up to ids,
   exactly when it ran no rule with a blank name or condition.
   */
  lemma ImportKeepsEvaluation(db: Database, schedules: seq<GroupSchedule>, decode: Decoder)
    requires RulesTable(db.rules) && AllEnabled(db.rules) && RefusesBlank(decode)
    ensures var exported := ListRules(db.rules);
            var (after, ok) := Replace(db, exported, schedules);
            ok && (RuleViews(Contents(ListRules(after.rules)), decode) == RuleViews(Contents(exported), decode)
                   <==> forall r :: r in db.rules ==> !RunsButBlank(r, decode))
  {
    var exported := ListRules(db.rules);
    ImportOfExportListing(db, schedules);
    ExportIsImportable(db.rules);
    ListingKeepsRows(db.rules);
    ViewsOfKept(exported, decode);
    if forall i :: 0 <= i < |exported| ==> !RunsButBlank(exported[i], decode) {
      forall r | r in db.rules ensures !RunsButBlank(r, decode) {
        assert r in exported;
      }
    } else {
      var i :| 0 <= i < |exported| && RunsButBlank(exported[i], decode);
      assert exported[i] in db.rules;
    }
  }
}
