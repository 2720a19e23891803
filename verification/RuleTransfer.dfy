/** Importing rules (internal/storage/rules_transfer.go, ImportRules), the preview of
    an import (internal/webui/rules_transfer.go, handleRulesImport), and the check
    that comes before both (internal/rules/transfer.go, ValidateImport). */
module RuleTransfer {
  import opened Models
  import opened Backoff
  import opened Text

  datatype TransferRule = TransferRule(
    name: string,
    enabled: bool,
    position: int,
    matcher: MatcherConfig,
    webhook: WebhookConfig)

  /** A row of the rules table without its name, which is unique. The two text columns
      are represented by what they decode to. */
  datatype Row = Row(
    id: string,
    enabled: bool,
    matcher: MatcherConfig,
    webhook: WebhookConfig,
    position: int,
    createdAt: Time,
    updatedAt: Time)

  type Rows = map<string, Row>

  /** The id and the time drawn for one item. */
  datatype Stamp = Stamp(id: string, now: Time)

  // ---------- Encoding ----------

  /** What the JSON text of a value decodes to: an empty list or map is left out and
      comes back as nil. */
  function MatchText(m: MatcherConfig): MatcherConfig {
    if m.conditions == ConditionList([]) then m.(conditions := NilConditions) else m
  }

  function WebhookText(w: WebhookConfig): WebhookConfig {
    if w.headers == HeaderMap(map[]) then w.(headers := NilHeaders) else w
  }

  /** Equal but for one list or map being nil where the other is empty. */
  predicate SameWebhook(v: WebhookConfig, w: WebhookConfig) {
    v == w || ((v.headers.NilHeaders? || v.headers.entries == map[]) && (w.headers.NilHeaders? || w.headers.entries == map[])
               && v == w.(headers := v.headers))
  }

  predicate SameMatcher(m: MatcherConfig, n: MatcherConfig) {
    || m == n
    || ((m.conditions.NilConditions? || m.conditions.items == []) && (n.conditions.NilConditions? || n.conditions.items == [])
        && m.mode == n.mode)
  }

  /** Two values share their text exactly if they are equal, or equal but for one
      being nil where the other is empty; and decoded text encodes to itself. */
  lemma TextIdentifies(v: WebhookConfig, w: WebhookConfig, m: MatcherConfig, n: MatcherConfig)
    ensures WebhookText(v) == WebhookText(w) <==> SameWebhook(v, w)
    ensures MatchText(m) == MatchText(n) <==> SameMatcher(m, n)
    ensures SameWebhook(WebhookText(w), w) && SameMatcher(MatchText(m), m)
    ensures WebhookText(WebhookText(w)) == WebhookText(w) && MatchText(MatchText(m)) == MatchText(m)
  {
  }

  /** All stored text was written by the same encoder. */
  ghost predicate Canonical(rows: Rows) {
    forall name :: name in rows ==>
      rows[name].matcher == MatchText(rows[name].matcher) && rows[name].webhook == WebhookText(rows[name].webhook)
  }

  ghost predicate UniqueIds(rows: Rows) {
    forall m, n :: m in rows && n in rows && rows[m].id == rows[n].id ==> m == n
  }

  // ---------- Import ----------

  predicate SameSettings(row: Row, item: TransferRule) {
    && row.enabled == item.enabled
    && row.matcher == MatchText(item.matcher)
    && row.webhook == WebhookText(item.webhook)
    && row.position == item.position
  }

  /** The row that an item ends up as: a new row, the old one untouched, or the old
      one's identity with new settings. */
  function StoredAs(rows: Rows, item: TransferRule, stamp: Stamp): (row: Row)
    ensures SameSettings(row, item)
    ensures item.name in rows ==> row.id == rows[item.name].id && row.createdAt == rows[item.name].createdAt
    ensures item.name in rows ==> (row == rows[item.name] || row.updatedAt == stamp.now)
    ensures item.name in rows ==> (row == rows[item.name] <==> SameSettings(rows[item.name], item))
    ensures item.name !in rows ==> row.id == stamp.id && row.createdAt == stamp.now && row.updatedAt == stamp.now
  {
    var added := Row(stamp.id, item.enabled, MatchText(item.matcher), WebhookText(item.webhook), item.position, stamp.now, stamp.now);
    if item.name !in rows then added
    else if SameSettings(rows[item.name], item) then rows[item.name]
    else added.(id := rows[item.name].id, createdAt := rows[item.name].createdAt)
  }

  ghost function Imported(rows: Rows, items: seq<TransferRule>, stamps: seq<Stamp>): Rows
    requires |stamps| >= |items|
  {
    if items == [] then rows
    else
      var n := |items| - 1;
      var before := Imported(rows, items[..n], stamps);
      before[items[n].name := StoredAs(before, items[n], stamps[n])]
  }

  predicate DistinctNames(items: seq<TransferRule>) {
    forall i, j :: 0 <= i < j < |items| ==> items[i].name != items[j].name
  }

  function NameSet(items: seq<TransferRule>): set<string> {
    set i | 0 <= i < |items| :: items[i].name
  }

  ghost predicate FreshIds(rows: Rows, stamps: seq<Stamp>) {
    && (forall i, j :: 0 <= i < j < |stamps| ==> stamps[i].id != stamps[j].id)
    && (forall i, name :: 0 <= i < |stamps| && name in rows ==> stamps[i].id != rows[name].id)
  }

  class RuleTable {
    var rows: Rows

    constructor ()
      ensures rows == map[]
    {
      rows := map[];
    }

    /** ImportRules: one transaction; `fuse` says how many statements it accepts before
        one fails. */
    method ImportRules(items: seq<TransferRule>, replace: bool, stamps: seq<Stamp>, fuse: nat) returns (ok: bool)
      requires |stamps| >= |items|
      modifies this
      ensures ok <==> fuse >= |items| + (if replace then 2 else 1)
      ensures rows == if ok then Imported(if replace then map[] else old(rows), items, stamps) else old(rows)
    {
      var left := fuse;
      var tx := rows;
      if replace {
        if left == 0 {
          return false;
        }
        left := left - 1;
        tx := map[];
      }
      for i := 0 to |items|
        invariant left == fuse - i - (if replace then 1 else 0)
        invariant rows == old(rows)
        invariant tx == Imported(if replace then map[] else rows, items[..i], stamps)
      {
        if left == 0 {
          return false;
        }
        left := left - 1;
        var item := items[i];
        var matcher, webhook := MatchText(item.matcher), WebhookText(item.webhook);
        ghost var before := tx;
        if item.name !in tx {
          tx := tx[item.name := Row(stamps[i].id, item.enabled, matcher, webhook, item.position, stamps[i].now, stamps[i].now)];
        } else {
          var row := tx[item.name];
          if row.enabled != item.enabled || row.matcher != matcher || row.webhook != webhook || row.position != item.position {
            row := row.(enabled := item.enabled, matcher := matcher, webhook := webhook, position := item.position, updatedAt := stamps[i].now);
            tx := tx[item.name := row];
          }
        }
        assert items[..i + 1][..i] == items[..i];
        assert tx == before[item.name := StoredAs(before, item, stamps[i])];
      }
      assert items[..|items|] == items;
      if left == 0 {
        return false;
      }
      rows := tx;
      ok := true;
    }
  }

  /** Every name after an import: an item's name holds its row, any other is as before. */
  lemma {:induction false} ImportedAt(rows: Rows, items: seq<TransferRule>, stamps: seq<Stamp>, name: string)
    requires |stamps| >= |items| && DistinctNames(items)
    ensures var after := Imported(rows, items, stamps);
      && (forall i :: 0 <= i < |items| && items[i].name == name ==>
            name in after && after[name] == StoredAs(rows, items[i], stamps[i]))
      && (name !in NameSet(items) ==> (name in after <==> name in rows) && (name in rows ==> after[name] == rows[name]))
  {
    if items != [] {
      var n := |items| - 1;
      ImportedAt(rows, items[..n], stamps, name);
      ImportedAt(rows, items[..n], stamps, items[n].name);
      NamesGrow(items, n);
    }
  }

  lemma NamesGrow(items: seq<TransferRule>, n: nat)
    requires n < |items|
    ensures NameSet(items[..n + 1]) == NameSet(items[..n]) + {items[n].name}
    ensures n + 1 == |items| ==> items[..n + 1] == items
    ensures DistinctNames(items) ==> items[n].name !in NameSet(items[..n])
  {
  }

  /** The names after an import. */
  lemma ImportedNames(rows: Rows, items: seq<TransferRule>, stamps: seq<Stamp>)
    requires |stamps| >= |items| && DistinctNames(items)
    ensures Imported(rows, items, stamps).Keys == rows.Keys + NameSet(items)
  {
    forall name ensures name in Imported(rows, items, stamps) <==> name in rows.Keys + NameSet(items) {
      ImportedAt(rows, items, stamps, name);
      if name in NameSet(items) {
        var i :| 0 <= i < |items| && items[i].name == name;
      }
    }
  }

  /** The row has the item's settings. */
  predicate Takes(row: Row, item: TransferRule) {
    && row.enabled == item.enabled && row.position == item.position
    && SameMatcher(row.matcher, item.matcher) && SameWebhook(row.webhook, item.webhook)
  }

  /** The row has been read from its text. */
  predicate IsText(row: Row) {
    row.webhook.headers != HeaderMap(map[]) && row.matcher.conditions != ConditionList([])
  }

  lemma TakesSettings(row: Row, item: TransferRule)
    ensures SameSettings(row, item) <==> Takes(row, item) && IsText(row)
  {
  }

  /** Merging stores each item, setting by setting, keeps every other row, and keeps the
      identity and the creation time of a row that an item names; its time of update moves
      exactly if a setting did. A new row has the id and the time drawn for it. */
  lemma MergeStores(rows: Rows, items: seq<TransferRule>, stamps: seq<Stamp>)
    requires |stamps| >= |items| && DistinctNames(items)
    ensures var after := Imported(rows, items, stamps);
      && (forall i :: 0 <= i < |items| ==> items[i].name in after && SameSettings(after[items[i].name], items[i]))
      && (forall i :: 0 <= i < |items| ==> Takes(after[items[i].name], items[i]))
      && (forall i :: 0 <= i < |items| && items[i].name in rows ==>
            if Takes(rows[items[i].name], items[i]) && IsText(rows[items[i].name])
            then after[items[i].name] == rows[items[i].name] else after[items[i].name].updatedAt == stamps[i].now)
      && (forall i :: 0 <= i < |items| && items[i].name !in rows ==>
            var row := after[items[i].name];
            row.id == stamps[i].id && row.createdAt == stamps[i].now && row.updatedAt == stamps[i].now)
      && (forall name :: name in rows && name !in NameSet(items) ==> name in after && after[name] == rows[name])
      && (forall name :: name in rows ==> name in after && after[name].id == rows[name].id && after[name].createdAt == rows[name].createdAt)
  {
    var after := Imported(rows, items, stamps);
    forall i | 0 <= i < |items|
      ensures items[i].name in after && after[items[i].name] == StoredAs(rows, items[i], stamps[i])
      ensures Takes(after[items[i].name], items[i])
      ensures items[i].name in rows ==>
        (SameSettings(rows[items[i].name], items[i]) <==> Takes(rows[items[i].name], items[i]) && IsText(rows[items[i].name]))
    {
      ImportedAt(rows, items, stamps, items[i].name);
      TakesSettings(after[items[i].name], items[i]);
      if items[i].name in rows {
        TakesSettings(rows[items[i].name], items[i]);
      }
    }
    forall name | name in rows
      ensures name in after && after[name].id == rows[name].id && after[name].createdAt == rows[name].createdAt
      ensures name !in NameSet(items) ==> after[name] == rows[name]
    {
      ImportedAt(rows, items, stamps, name);
      if name in NameSet(items) {
        var i :| 0 <= i < |items| && items[i].name == name;
      }
    }
  }

  /** Replacing leaves exactly the items, each under a new identity. */
  lemma ReplaceLeavesItems(items: seq<TransferRule>, stamps: seq<Stamp>)
    requires |stamps| >= |items| && DistinctNames(items)
    ensures Imported(map[], items, stamps).Keys == NameSet(items)
    ensures forall i :: 0 <= i < |items| ==>
              && items[i].name in Imported(map[], items, stamps)
              && SameSettings(Imported(map[], items, stamps)[items[i].name], items[i])
              && Takes(Imported(map[], items, stamps)[items[i].name], items[i])
              && Imported(map[], items, stamps)[items[i].name].id == stamps[i].id
  {
    ImportedNames(map[], items, stamps);
    forall i | 0 <= i < |items|
      ensures items[i].name in Imported(map[], items, stamps)
      ensures Imported(map[], items, stamps)[items[i].name] == StoredAs(map[], items[i], stamps[i])
      ensures Takes(Imported(map[], items, stamps)[items[i].name], items[i])
    {
      TakesSettings(StoredAs(map[], items[i], stamps[i]), items[i]);
      ImportedAt(map[], items, stamps, items[i].name);
    }
  }

  /** Merging the same file again changes nothing, not even a time. */
  lemma SecondMergeIsIdle(rows: Rows, items: seq<TransferRule>, stamps: seq<Stamp>, later: seq<Stamp>)
    requires |stamps| >= |items| && |later| >= |items| && DistinctNames(items)
    ensures Imported(Imported(rows, items, stamps), items, later) == Imported(rows, items, stamps)
  {
    var once := Imported(rows, items, stamps);
    var twice := Imported(once, items, later);
    ImportedNames(once, items, later);
    ImportedNames(rows, items, stamps);
    forall name | name in once
      ensures twice[name] == once[name]
    {
      ImportedAt(rows, items, stamps, name);
      ImportedAt(once, items, later, name);
      if name in NameSet(items) {
        var i :| 0 <= i < |items| && items[i].name == name;
        assert SameSettings(once[name], items[i]);
      }
    }
  }

  lemma NamesWithin(items: seq<TransferRule>, others: seq<TransferRule>)
    requires forall item :: item in items ==> item in others
    ensures NameSet(items) <= NameSet(others)
  {
    forall i | 0 <= i < |items| ensures items[i].name in NameSet(others) {
      assert items[i] in others;
    }
  }

  /** The settings that a merge leaves do not depend on the order of the file. */
  lemma FileOrder(rows: Rows, items: seq<TransferRule>, others: seq<TransferRule>, stamps: seq<Stamp>, name: string)
    requires |stamps| >= |items| && |stamps| >= |others| && DistinctNames(items) && DistinctNames(others)
    requires forall item :: item in items <==> item in others
    ensures name in Imported(rows, items, stamps) <==> name in Imported(rows, others, stamps)
    ensures forall item :: name in Imported(rows, items, stamps) ==>
              (SameSettings(Imported(rows, items, stamps)[name], item) <==> SameSettings(Imported(rows, others, stamps)[name], item))
  {
    ImportedAt(rows, items, stamps, name);
    ImportedAt(rows, others, stamps, name);
    NamesWithin(items, others);
    NamesWithin(others, items);
    if name in NameSet(items) {
      var i :| 0 <= i < |items| && items[i].name == name;
      assert items[i] in others;
      var j :| 0 <= j < |others| && others[j] == items[i];
    }
  }

  /** An import keeps ids unique and text canonical. */
  lemma {:induction false} ImportKeeps(rows: Rows, items: seq<TransferRule>, stamps: seq<Stamp>)
    requires |stamps| >= |items| && DistinctNames(items)
    requires UniqueIds(rows) && Canonical(rows) && FreshIds(rows, stamps)
    ensures UniqueIds(Imported(rows, items, stamps)) && Canonical(Imported(rows, items, stamps))
  {
    var after := Imported(rows, items, stamps);
    ImportedNames(rows, items, stamps);
    forall m | m in after
      ensures after[m].matcher == MatchText(after[m].matcher) && after[m].webhook == WebhookText(after[m].webhook)
      ensures IdFrom(rows, items, stamps, m, after[m].id)
    {
      ImportedAt(rows, items, stamps, m);
      if m in NameSet(items) {
        var i :| 0 <= i < |items| && items[i].name == m;
        assert m !in rows ==> stamps[i].id == after[m].id;
      }
    }
    forall m, n | m in after && n in after && after[m].id == after[n].id
      ensures m == n
    {
      SameIdSameName(rows, items, stamps, m, n, after[m].id);
    }
  }

  /** Where the id of a name comes from. */
  ghost predicate IdFrom(rows: Rows, items: seq<TransferRule>, stamps: seq<Stamp>, name: string, id: string)
    requires |stamps| >= |items|
  {
    if name in rows then id == rows[name].id
    else exists i :: 0 <= i < |items| && items[i].name == name && stamps[i].id == id
  }

  lemma SameIdSameName(rows: Rows, items: seq<TransferRule>, stamps: seq<Stamp>, m: string, n: string, id: string)
    requires |stamps| >= |items| && UniqueIds(rows) && FreshIds(rows, stamps)
    requires IdFrom(rows, items, stamps, m, id) && IdFrom(rows, items, stamps, n, id)
    ensures m == n
  {
  }

  // ---------- Preview ----------

  datatype Action = Created | Updated | Unchanged | Deleted

  datatype Change = Change(name: string, action: Action, fields: seq<string>)

  datatype Record = Record(name: string, row: Row)

  /** rules.Portable. */
  function Portable(record: Record): TransferRule {
    TransferRule(record.name, record.row.enabled, record.row.position, record.row.matcher, record.row.webhook)
  }

  /** The records are a listing of the table, each row once, in some order. */
  ghost predicate Lists(records: seq<Record>, rows: Rows) {
    && (forall i, j :: 0 <= i < j < |records| ==> records[i].name != records[j].name)
    && (forall i :: 0 <= i < |records| ==> records[i].name in rows && records[i].row == rows[records[i].name])
    && (forall name :: name in rows ==> exists i :: 0 <= i < |records| && records[i].name == name)
  }

  predicate Differs(was: TransferRule, item: TransferRule, field: string) {
    || (field == "enabled" && was.enabled != item.enabled)
    || (field == "position" && was.position != item.position)
    || (field == "match" && MatchText(was.matcher) != MatchText(item.matcher))
    || (field == "webhook" && was.webhook != item.webhook)
  }

  /** The line of the preview for one item, given the rows not named so far. */
  ghost predicate IsChange(existing: map<string, TransferRule>, item: TransferRule, change: Change) {
    && change.name == item.name
    && (item.name !in existing ==> change.action == Created && change.fields == [])
    && (item.name in existing ==>
          && (forall field :: field in change.fields <==> Differs(existing[item.name], item, field))
          && change.action == if change.fields == [] then Unchanged else Updated)
  }

  ghost function Existing(rows: Rows): map<string, TransferRule> {
    map name | name in rows :: Portable(Record(name, rows[name]))
  }

  /** One line for each item, in order. */
  ghost predicate ItemLines(rows: Rows, items: seq<TransferRule>, lines: seq<Change>) {
    && |lines| == |items|
    && forall i :: 0 <= i < |items| ==> IsChange(Existing(rows) - NameSet(items[..i]), items[i], lines[i])
  }

  /** One line for each name in `gone`. */
  ghost predicate DeletedLines(gone: set<string>, lines: seq<Change>) {
    && (forall k :: 0 <= k < |lines| ==> lines[k].action == Deleted && lines[k].name in gone)
    && (forall name :: name in gone ==> exists k :: 0 <= k < |lines| && lines[k].name == name)
    && (forall j, k :: 0 <= j < k < |lines| ==> lines[j].name != lines[k].name)
  }

  ghost predicate IsPreview(rows: Rows, items: seq<TransferRule>, replace: bool, changes: seq<Change>) {
    && |changes| >= |items|
    && ItemLines(rows, items, changes[..|items|])
    && DeletedLines(if replace then rows.Keys - NameSet(items) else {}, changes[|items|..])
  }

  method Compare(existing: map<string, TransferRule>, item: TransferRule) returns (change: Change)
    ensures IsChange(existing, item, change)
    ensures item.name !in existing ==> change == Change(item.name, Created, [])
    ensures item.name in existing ==>
      var was := existing[item.name];
      && change.name == item.name
      && ("enabled" in change.fields <==> was.enabled != item.enabled)
      && ("position" in change.fields <==> was.position != item.position)
      && ("match" in change.fields <==> !SameMatcher(was.matcher, item.matcher))
      && ("webhook" in change.fields <==> was.webhook != item.webhook)
      && (forall field :: field in change.fields ==> field in {"enabled", "position", "match", "webhook"})
      && (change.action == Unchanged <==> change.fields == []) && (change.action == Updated <==> change.fields != [])
  {
    change := Change(item.name, Created, []);
    if item.name in existing {
      var was := existing[item.name];
      var fields: seq<string> := [];
      if was.enabled != item.enabled {
        fields := fields + ["enabled"];
      }
      if was.position != item.position {
        fields := fields + ["position"];
      }
      if MatchText(was.matcher) != MatchText(item.matcher) {
        fields := fields + ["match"];
      }
      if was.webhook != item.webhook {
        fields := fields + ["webhook"];
      }
      change := Change(item.name, if |fields| > 0 then Updated else Unchanged, fields);
    }
  }

  /** The three loops of handleRulesImport: the stored rules by name, ... */
  method Load(ghost rows: Rows, records: seq<Record>) returns (existing: map<string, TransferRule>)
    requires Lists(records, rows)
    ensures existing == Existing(rows)
  {
    existing := map[];
    for i := 0 to |records|
      invariant forall name :: name in existing <==> exists j :: 0 <= j < i && records[j].name == name
      invariant forall name :: name in existing ==> name in rows && existing[name] == Portable(Record(name, rows[name]))
    {
      existing := existing[records[i].name := Portable(records[i])];
    }
    assert existing.Keys == rows.Keys;
  }

  /** ... a line for each item, which takes its name out of the map, ... */
  method CompareAll(ghost rows: Rows, stored: map<string, TransferRule>, items: seq<TransferRule>)
    returns (lines: seq<Change>, existing: map<string, TransferRule>)
    requires stored == Existing(rows)
    ensures ItemLines(rows, items, lines) && existing == stored - NameSet(items)
  {
    lines, existing := [], stored;
    for i := 0 to |items|
      invariant existing == stored - NameSet(items[..i])
      invariant |lines| == i
      invariant forall j :: 0 <= j < i ==> IsChange(stored - NameSet(items[..j]), items[j], lines[j])
    {
      var change := Compare(existing, items[i]);
      existing := existing - {items[i].name};
      lines := lines + [change];
      NamesGrow(items, i);
    }
    assert items[..|items|] == items;
  }

  /** ... and a line for each record whose name is still there. */
  method ListDeleted(ghost rows: Rows, records: seq<Record>, existing: map<string, TransferRule>) returns (lines: seq<Change>)
    requires Lists(records, rows) && existing.Keys <= rows.Keys
    ensures DeletedLines(existing.Keys, lines)
  {
    lines := [];
    for i := 0 to |records|
      invariant DeletedLines(existing.Keys * NamesUpTo(records, i), lines)
    {
      ghost var gone := existing.Keys * NamesUpTo(records, i);
      OneMoreName(records, existing.Keys, i);
      if records[i].name in existing {
        OneMoreDeleted(gone, lines, records[i].name);
        lines := lines + [Change(records[i].name, Deleted, [])];
      }
    }
    assert existing.Keys * NamesUpTo(records, |records|) == existing.Keys;
  }

  function NamesUpTo(records: seq<Record>, n: nat): set<string>
    requires n <= |records|
  {
    set j | 0 <= j < n :: records[j].name
  }

  lemma OneMoreName(records: seq<Record>, names: set<string>, i: nat)
    requires i < |records| && forall j, k :: 0 <= j < k < |records| ==> records[j].name != records[k].name
    ensures NamesUpTo(records, i + 1) == NamesUpTo(records, i) + {records[i].name}
    ensures records[i].name !in NamesUpTo(records, i)
    ensures names * NamesUpTo(records, i + 1)
         == if records[i].name in names then names * NamesUpTo(records, i) + {records[i].name} else names * NamesUpTo(records, i)
  {
  }

  lemma OneMoreDeleted(gone: set<string>, lines: seq<Change>, name: string)
    requires DeletedLines(gone, lines) && name !in gone
    ensures DeletedLines(gone + {name}, lines + [Change(name, Deleted, [])])
  {
    var more := lines + [Change(name, Deleted, [])];
    assert more[|lines|].name == name;
    forall other | other in gone ensures exists k :: 0 <= k < |more| && more[k].name == other {
      var k :| 0 <= k < |lines| && lines[k].name == other;
      assert more[k] == lines[k];
    }
  }

  /** The preview part of handleRulesImport. */
  method Preview(ghost rows: Rows, records: seq<Record>, items: seq<TransferRule>, replace: bool) returns (changes: seq<Change>)
    requires Lists(records, rows)
    ensures IsPreview(rows, items, replace, changes)
  {
    var existing := Load(rows, records);
    var lines, rest := CompareAll(rows, existing, items);
    changes := lines;
    if replace {
      var deleted := ListDeleted(rows, records, rest);
      changes := changes + deleted;
      assert rest.Keys == rows.Keys - NameSet(items);
      assert changes[|items|..] == deleted;
    }
    assert changes[..|items|] == lines;
  }

  // ---------- Agreement ----------

  lemma LineOf(rows: Rows, items: seq<TransferRule>, replace: bool, changes: seq<Change>, i: nat)
    requires DistinctNames(items) && IsPreview(rows, items, replace, changes) && i < |items|
    ensures changes[i].name == items[i].name
    ensures items[i].name !in rows ==> changes[i].action == Created
    ensures items[i].name in rows ==>
              && (forall field :: field in changes[i].fields <==> Differs(Portable(Record(items[i].name, rows[items[i].name])), items[i], field))
              && changes[i].action == if changes[i].fields == [] then Unchanged else Updated
  {
    assert changes[..|items|][i] == changes[i];
    NotYetNamed(rows, items, i);
  }

  lemma {:induction false} NotYetNamed(rows: Rows, items: seq<TransferRule>, i: nat)
    requires i < |items| && DistinctNames(items)
    ensures items[i].name in Existing(rows) - NameSet(items[..i]) <==> items[i].name in rows
    ensures items[i].name in rows ==>
              (Existing(rows) - NameSet(items[..i]))[items[i].name] == Portable(Record(items[i].name, rows[items[i].name]))
  {
    NamesGrow(items, i);
  }

  /** `name` has a line of this kind. */
  ghost predicate Shown(lines: seq<Change>, name: string, action: Action) {
    exists k :: 0 <= k < |lines| && lines[k].name == name && lines[k].action == action
  }

  lemma ItemLinesExact(rows: Rows, items: seq<TransferRule>, lines: seq<Change>, name: string)
    requires DistinctNames(items) && ItemLines(rows, items, lines)
    ensures Shown(lines, name, Created) <==> name in NameSet(items) && name !in rows
    ensures !Shown(lines, name, Deleted)
  {
    forall k | 0 <= k < |items|
      ensures lines[k].name == items[k].name
      ensures lines[k].action == Created <==> items[k].name !in rows
      ensures lines[k].action != Deleted
    {
      NotYetNamed(rows, items, k);
    }
    if name in NameSet(items) && name !in rows {
      var k :| 0 <= k < |items| && items[k].name == name;
      assert lines[k].name == name;
    }
  }

  lemma ShownInEither(a: seq<Change>, b: seq<Change>, name: string, action: Action)
    ensures Shown(a + b, name, action) <==> Shown(a, name, action) || Shown(b, name, action)
  {
    if Shown(a, name, action) {
      var k :| 0 <= k < |a| && a[k].name == name && a[k].action == action;
      assert (a + b)[k] == a[k];
    }
    if Shown(b, name, action) {
      var k :| 0 <= k < |b| && b[k].name == name && b[k].action == action;
      assert (a + b)[|a| + k] == b[k];
    }
  }

  lemma DeletedLinesExact(gone: set<string>, lines: seq<Change>, name: string)
    requires DeletedLines(gone, lines)
    ensures Shown(lines, name, Deleted) <==> name in gone
    ensures !Shown(lines, name, Created)
  {
    if name in gone {
      var k :| 0 <= k < |lines| && lines[k].name == name;
      assert lines[k].action == Deleted;
    }
  }

  /** The names that the preview calls created are those the import adds, and the names
      it calls deleted are those the import removes. */
  lemma PreviewNamesExact(rows: Rows, items: seq<TransferRule>, replace: bool, changes: seq<Change>, stamps: seq<Stamp>, name: string)
    requires |stamps| >= |items| && DistinctNames(items) && IsPreview(rows, items, replace, changes)
    ensures var after := Imported(if replace then map[] else rows, items, stamps);
      && (Shown(changes, name, Created) <==> name in after.Keys - rows.Keys)
      && (Shown(changes, name, Deleted) <==> name in rows.Keys - after.Keys)
  {
    var lines, deleted := changes[..|items|], changes[|items|..];
    assert changes == lines + deleted;
    ItemLinesExact(rows, items, lines, name);
    DeletedLinesExact(if replace then rows.Keys - NameSet(items) else {}, deleted, name);
    ShownInEither(lines, deleted, name, Created);
    ShownInEither(lines, deleted, name, Deleted);
    ImportedNames(if replace then map[] else rows, items, stamps);
  }

  /** No name has two lines. */
  lemma OneLineEach(rows: Rows, items: seq<TransferRule>, replace: bool, changes: seq<Change>, j: nat, k: nat)
    requires DistinctNames(items) && IsPreview(rows, items, replace, changes) && j < k < |changes|
    ensures changes[j].name != changes[k].name
  {
    var lines, deleted := changes[..|items|], changes[|items|..];
    if j < |items| {
      assert lines[j].name == items[j].name;
      assert items[j].name in NameSet(items);
    }
    if k < |items| {
      assert lines[k].name == items[k].name;
    } else {
      assert deleted[k - |items|].name == changes[k].name;
      assert j >= |items| ==> deleted[j - |items|].name == changes[j].name;
    }
  }

  /** A header map that is present but empty. */
  predicate EmptyHeaders(item: TransferRule) {
    item.webhook.headers == HeaderMap(map[])
  }

  /** The preview calls an item unchanged exactly when the merge leaves its row
      untouched and the item has no empty header map. */
  lemma UnchangedExactly(rows: Rows, items: seq<TransferRule>, changes: seq<Change>, stamps: seq<Stamp>, i: nat)
    requires |stamps| >= |items| && DistinctNames(items) && Canonical(rows)
    requires IsPreview(rows, items, false, changes) && i < |items|
    ensures var name := items[i].name; var after := Imported(rows, items, stamps);
      name in after
      && (changes[i].action == Unchanged <==> name in rows && after[name] == rows[name] && !EmptyHeaders(items[i]))
  {
    var item := items[i];
    LineOf(rows, items, false, changes, i);
    ImportedAt(rows, items, stamps, item.name);
    if item.name in rows {
      SettingsAgree(rows[item.name], item);
      NoFields(changes[i], Portable(Record(item.name, rows[item.name])), item);
    }
  }

  lemma SettingsAgree(row: Row, item: TransferRule)
    requires row.matcher == MatchText(row.matcher) && row.webhook == WebhookText(row.webhook)
    ensures SameSettings(row, item) && !EmptyHeaders(item) <==>
              forall field :: !Differs(Portable(Record(item.name, row)), item, field)
  {
    var was := Portable(Record(item.name, row));
    assert Differs(was, item, "enabled") <==> row.enabled != item.enabled;
    assert Differs(was, item, "position") <==> row.position != item.position;
    assert Differs(was, item, "match") <==> row.matcher != MatchText(item.matcher);
    assert Differs(was, item, "webhook") <==> row.webhook != item.webhook;
  }

  lemma NoFields(change: Change, was: TransferRule, item: TransferRule)
    requires forall field :: field in change.fields <==> Differs(was, item, field)
    ensures change.fields == [] <==> forall field :: !Differs(was, item, field)
  {
    if change.fields != [] {
      assert change.fields[0] in change.fields;
    }
  }

  /** In replace mode a line speaks of the settings only: it says unchanged exactly when
      the stored row has the item's settings and the item has no empty header map. The
      row's identity is the newly drawn one in any case. */
  lemma UnchangedUnderReplace(rows: Rows, items: seq<TransferRule>, changes: seq<Change>, stamps: seq<Stamp>, i: nat)
    requires |stamps| >= |items| && DistinctNames(items) && Canonical(rows) && FreshIds(rows, stamps)
    requires IsPreview(rows, items, true, changes) && i < |items|
    ensures var name := items[i].name; var after := Imported(map[], items, stamps);
      && (changes[i].action == Unchanged <==> name in rows && SameSettings(rows[name], items[i]) && !EmptyHeaders(items[i]))
      && name in after && SameSettings(after[name], items[i])
      && (name in rows ==> after[name].id != rows[name].id)
  {
    var item := items[i];
    LineOf(rows, items, true, changes, i);
    ImportedAt(map[], items, stamps, item.name);
    if item.name in rows {
      SettingsAgree(rows[item.name], item);
      NoFields(changes[i], Portable(Record(item.name, rows[item.name])), item);
    }
  }

  /** The failing family has members: any stored rule without headers, imported with an
      empty header map, is shown as updated although the merge touches nothing. */
  lemma EmptyHeadersShowAsUpdated(name: string, row: Row, changes: seq<Change>, stamp: Stamp)
    requires row.matcher == MatchText(row.matcher) && row.webhook.headers == NilHeaders
    requires IsPreview(map[name := row],
                       [TransferRule(name, row.enabled, row.position, row.matcher, row.webhook.(headers := HeaderMap(map[])))],
                       false, changes)
    ensures changes[0].action == Updated
    ensures Imported(map[name := row],
                     [TransferRule(name, row.enabled, row.position, row.matcher, row.webhook.(headers := HeaderMap(map[])))],
                     [stamp]) == map[name := row]
  {
    var item := TransferRule(name, row.enabled, row.position, row.matcher, row.webhook.(headers := HeaderMap(map[])));
    var rows := map[name := row];
    UnchangedExactly(rows, [item], changes, [stamp], 0);
    LineOf(rows, [item], false, changes, 0);
    assert SameSettings(row, item);
  }

  // ---------- Validation ----------

  predicate AtLeast(own: Option<int>, least: int) {
    own.Some? ==> own.value >= least
  }

  /** The bounds on the numbers of a rule. */
  predicate NumbersOk(item: TransferRule) {
    var w := item.webhook;
    && item.position >= 0
    && AtLeast(w.timeout, 0) && AtLeast(w.maxRetries, 0)
    && AtLeast(w.initialWait, 1) && AtLeast(w.maxWait, 1)
    && (w.initialWait.Some? && w.maxWait.Some? ==> w.initialWait.value <= w.maxWait.value)
  }

  datatype Verdict = Fine | Invalid(name: string) | Duplicate(name: string)

  ghost predicate GoodItem(item: TransferRule, wellFormed: TransferRule -> bool) {
    Trim(item.name) != "" && NumbersOk(item) && wellFormed(item)
  }

  /** What validation lets pass: a name that is more than blanks; no negative position,
      timeout or retry limit; waits of at least a second, and a first wait above the
      largest only when one of them is the global one; and a well-formed rest. */
  lemma GoodMeans(item: TransferRule, wellFormed: TransferRule -> bool)
    ensures GoodItem(item, wellFormed) <==>
      && (exists k :: 0 <= k < |item.name| && !(9 <= item.name[k] as int <= 13) && item.name[k] as int != 32)
      && wellFormed(item) && item.position >= 0
      && (match item.webhook.timeout case Some(n) => n >= 0 case None => true)
      && (match item.webhook.maxRetries case Some(n) => n >= 0 case None => true)
      && (match (item.webhook.initialWait, item.webhook.maxWait)
          case (Some(first), Some(last)) => 1 <= first <= last
          case (Some(first), None) => first >= 1
          case (None, Some(last)) => last >= 1
          case (None, None) => true)
  {
    TrimEmpty(item.name);
  }

  ghost predicate GoodUpTo(items: seq<TransferRule>, wellFormed: TransferRule -> bool, n: nat)
    requires n <= |items|
  {
    DistinctNames(items[..n]) && forall i :: 0 <= i < n ==> GoodItem(items[i], wellFormed)
  }

  ghost predicate FirstInvalid(items: seq<TransferRule>, wellFormed: TransferRule -> bool, i: nat, name: string) {
    i < |items| && items[i].name == name && !GoodItem(items[i], wellFormed) && GoodUpTo(items, wellFormed, i)
  }

  ghost predicate FirstRepeated(items: seq<TransferRule>, wellFormed: TransferRule -> bool, j: nat, name: string) {
    && j < |items| && items[j].name == name && GoodItem(items[j], wellFormed) && GoodUpTo(items, wellFormed, j)
    && name in NameSet(items[..j])
  }

  /** ValidateImport. What Validate asks of the URL, the template and the patterns is
      `wellFormed`. The verdict names the first item that is bad or repeats a name. */
  method ValidateImport(items: seq<TransferRule>, wellFormed: TransferRule -> bool) returns (verdict: Verdict)
    ensures verdict.Fine? <==> DistinctNames(items) && forall i :: 0 <= i < |items| ==> GoodItem(items[i], wellFormed)
    ensures verdict.Invalid? ==> (exists i :: FirstInvalid(items, wellFormed, i, verdict.name))
    ensures verdict.Duplicate? ==> (exists j :: FirstRepeated(items, wellFormed, j, verdict.name))
  {
    var seen: set<string> := {};
    for i := 0 to |items|
      invariant DistinctNames(items[..i])
      invariant forall j :: 0 <= j < i ==> GoodItem(items[j], wellFormed)
      invariant forall name :: name in seen <==> name in NameSet(items[..i])
    {
      NamesGrow(items, i);
      var item := items[i];
      if Trim(item.name) == "" || !NumbersOk(item) || !wellFormed(item) {
        assert FirstInvalid(items, wellFormed, i, item.name);
        return Invalid(item.name);
      }
      if item.name in seen {
        assert FirstRepeated(items, wellFormed, i, item.name);
        return Duplicate(item.name);
      }
      seen := seen + {item.name};
    }
    assert items[..|items|] == items;
    verdict := Fine;
  }

  /** The waits in force are in order. */
  predicate WaitsInOrder(retry: RetryConfig) {
    retry.initialWait <= retry.maxWait
  }

  /** Validation compares the two waits only when a rule has both. So the waits in force
      are in order under all global settings whose own waits are, exactly if the rule
      overrides both waits or neither. */
  lemma WaitsInOrderExactly(item: TransferRule)
    requires NumbersOk(item)
    ensures (forall global: RetryConfig :: WaitsInOrder(global) ==> WaitsInOrder(Effective(item.webhook, global)))
            <==> (item.webhook.initialWait.Some? <==> item.webhook.maxWait.Some?)
  {
    var w := item.webhook;
    if w.initialWait.Some? && w.maxWait.None? {
      var short := RetryConfig(0, 0, w.initialWait.value * SECOND - 1, 0, false);
      assert WaitsInOrder(short) && !WaitsInOrder(Effective(w, short));
    }
    if w.initialWait.None? && w.maxWait.Some? {
      var long := RetryConfig(0, w.maxWait.value * SECOND + 1, w.maxWait.value * SECOND + 1, 0, false);
      assert WaitsInOrder(long) && !WaitsInOrder(Effective(w, long));
    }
  }

  /** For one: a valid rule that waits a minute, under a global maximum of 30 seconds. */
  lemma WaitsOutOfOrder(item: TransferRule, global: RetryConfig)
    requires NumbersOk(item) && item.webhook.initialWait == Some(60) && item.webhook.maxWait == None
    requires WaitsInOrder(global) && global.maxWait == 30 * SECOND
    ensures !WaitsInOrder(Effective(item.webhook, global))
  {
  }

  /** The retry limit in force is never negative, whatever the global one, exactly if the
      rule has its own. */
  lemma OwnLimitExactly(item: TransferRule)
    requires NumbersOk(item)
    ensures (forall global: RetryConfig :: Effective(item.webhook, global).maxRetries >= 0) <==> item.webhook.maxRetries.Some?
  {
    assert Effective(item.webhook, RetryConfig(-1, 0, 0, 0, false)).maxRetries == OrElse(item.webhook.maxRetries, -1);
  }

  /** Whatever the order of the waits, the first wait of a rule is the smaller of the two
      while the arithmetic is exact. */
  lemma FirstWait(item: TransferRule, global: RetryConfig, wait: Duration)
    requires InRange(Effective(item.webhook, global), 1) && IsBackoff(Effective(item.webhook, global), 1, wait)
    ensures wait == Min(Effective(item.webhook, global).initialWait, Effective(item.webhook, global).maxWait)
  {
    assert Pow2(0) == 1;
  }
}
