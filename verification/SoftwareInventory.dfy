/**
 The software inventory: an agent keeps its last snapshot as a map, the server folds every snapshot into one
 table for all agents, and an uninstall is planned on the server from the table and checked on the agent
 against the map.
 */
module SoftwareInventory {
  import opened Basics
  import opened SoftwareIdentity

  datatype Item = Item(
    identity: Identity, displayVersion: string, installDate: string, uninstallString: string,
    quietUninstallString: string, hive: string, arch: string, scope: string,
    wingetId: string, wingetAvailableVersion: string)

  datatype RowId = RowId(agent: string, key: string)

  datatype Row = Row(item: Item, firstSeen: int, lastSeen: int)

  type Table = map<RowId, Row>

  function KeyOf(item: Item): string { Key(item.identity) }

  /** The last item of a snapshot under a key. */
  function LastOf(items: seq<Item>, key: string): Option<Item> {
    if items == [] then None
    else if KeyOf(items[|items| - 1]) == key then Some(items[|items| - 1])
    else LastOf(items[..|items| - 1], key)
  }

  lemma {:induction false} LastOfMeans(items: seq<Item>, key: string)
    ensures LastOf(items, key).None? <==> forall i :: 0 <= i < |items| ==> KeyOf(items[i]) != key
    ensures LastOf(items, key).Some? ==>
              exists i :: 0 <= i < |items| && items[i] == LastOf(items, key).value && KeyOf(items[i]) == key
                          && forall j :: i < j < |items| ==> KeyOf(items[j]) != key
  {
    hide KeyOf;
    if items != [] && KeyOf(items[|items| - 1]) != key {
      var rest := items[..|items| - 1];
      LastOfMeans(rest, key);
      if LastOf(rest, key).Some? {
        var i :| 0 <= i < |rest| && rest[i] == LastOf(rest, key).value && KeyOf(rest[i]) == key
                 && forall j :: i < j < |rest| ==> KeyOf(rest[j]) != key;
        assert items[i] == rest[i];
        assert forall j :: i < j < |items| ==> KeyOf(items[j]) != key;
      } else {
        assert forall i :: 0 <= i < |rest| ==> items[i] == rest[i];
      }
    }
  }

  // ---------------------------------------------------------------- reconciliation

  function SeenSince(table: Table, id: RowId, now: int): int {
    if id in table then table[id].firstSeen else now
  }

  /** One agent's rows replaced by a snapshot: last item per key, first-seen kept for keys that survive. */
  ghost predicate Replaced(before: Table, agent: string, items: seq<Item>, now: int, after: Table) {
    && (forall id: RowId :: id.agent != agent ==> (id in after <==> id in before))
    && (forall id: RowId :: id.agent != agent && id in before ==> after[id] == before[id])
    && (forall id: RowId :: id.agent == agent ==> (id in after <==> LastOf(items, id.key).Some?))
    && (forall id: RowId :: id.agent == agent && id in after ==>
          after[id] == Row(LastOf(items, id.key).value, SeenSince(before, id, now), now))
  }

  /** The table part way through the upserts. */
  ghost predicate Upserted(before: Table, agent: string, items: seq<Item>, now: int, after: Table) {
    && (forall id :: id in after <==> id in before || (id.agent == agent && LastOf(items, id.key).Some?))
    && (forall id :: id in after && !(id.agent == agent && LastOf(items, id.key).Some?) ==> after[id] == before[id])
    && (forall id :: id in after && id.agent == agent && LastOf(items, id.key).Some? ==>
          after[id] == Row(LastOf(items, id.key).value, SeenSince(before, id, now), now))
  }

  function Upsert(table: Table, id: RowId, item: Item, now: int): Table {
    table[id := Row(item, SeenSince(table, id, now), now)]
  }

  lemma LastOfSnoc(items: seq<Item>, item: Item, key: string)
    ensures LastOf(items + [item], key) == if KeyOf(item) == key then Some(item) else LastOf(items, key)
  {
    assert (items + [item])[..|items|] == items;
  }

  lemma UpsertStep(before: Table, agent: string, items: seq<Item>, item: Item, now: int, after: Table)
    requires Upserted(before, agent, items, now, after)
    ensures Upserted(before, agent, items + [item], now, Upsert(after, RowId(agent, KeyOf(item)), item, now))
  {
    hide KeyOf, LastOf;
    forall key: string
      ensures LastOf(items + [item], key) == if KeyOf(item) == key then Some(item) else LastOf(items, key)
    {
      LastOfSnoc(items, item, key);
    }
  }

  class InventoryTable {
    var rows: Table

    constructor ()
      ensures rows == map[]
    {
      rows := map[];
    }

    /** ReconcileSoftwareInventory. */
    method Reconcile(agent: string, items: seq<Item>, now: int)
      modifies this
      ensures Replaced(old(rows), agent, items, now, rows)
    {
      hide KeyOf, LastOf, Upsert, Upserted;
      ghost var before := rows;
      var keys: seq<string> := [];
      NothingUpserted(before, agent, now);
      for i := 0 to |items|
        invariant Upserted(before, agent, items[..i], now, rows)
        invariant forall k :: k in keys <==> LastOf(items[..i], k).Some?
      {
        var key := KeyOf(items[i]);
        keys := keys + [key];
        UpsertStep(before, agent, items[..i], items[i], now, rows);
        forall k: string
          ensures LastOf(items[..i] + [items[i]], k)
               == if KeyOf(items[i]) == k then Some(items[i]) else LastOf(items[..i], k)
        {
          LastOfSnoc(items[..i], items[i], k);
        }
        rows := Upsert(rows, RowId(agent, key), items[i], now);
        assert items[..i + 1] == items[..i] + [items[i]];
      }
      assert items[..|items|] == items;
      ghost var upserted := rows;
      rows := map id | id in rows && !(id.agent == agent && id.key !in keys) :: rows[id];
      DeleteAbsent(before, agent, items, now, upserted, keys, rows);
    }
  }

  lemma NothingUpserted(before: Table, agent: string, now: int)
    ensures Upserted(before, agent, [], now, before)
    ensures forall k :: LastOf([], k).None?
  {
  }

  lemma DeleteAbsent(before: Table, agent: string, items: seq<Item>, now: int, upserted: Table, keys: seq<string>,
                     after: Table)
    requires Upserted(before, agent, items, now, upserted)
    requires forall k :: k in keys <==> LastOf(items, k).Some?
    requires after == map id | id in upserted && !(id.agent == agent && id.key !in keys) :: upserted[id]
    ensures Replaced(before, agent, items, now, after)
  {
    hide LastOf;
  }

  // ---------------------------------------------------------------- the agent's own map

  ghost predicate Mirrors(inventory: map<string, Item>, items: seq<Item>) {
    && (forall k :: k in inventory <==> LastOf(items, k).Some?)
    && (forall k :: k in inventory ==> inventory[k] == LastOf(items, k).value)
  }

  lemma MirrorsSnoc(inventory: map<string, Item>, items: seq<Item>, item: Item)
    requires Mirrors(inventory, items)
    ensures Mirrors(inventory[KeyOf(item) := item], items + [item])
  {
    hide KeyOf, LastOf;
    forall k: string
      ensures LastOf(items + [item], k) == if KeyOf(item) == k then Some(item) else LastOf(items, k)
    {
      LastOfSnoc(items, item, k);
    }
  }

  class AgentInventory {
    var byKey: map<string, Item>

    constructor ()
      ensures byKey == map[]
    {
      byKey := map[];
    }

    /** replaceInventorySnapshot. */
    method ReplaceSnapshot(entries: seq<Item>)
      modifies this
      ensures Mirrors(byKey, entries)
    {
      hide KeyOf, LastOf;
      var m: map<string, Item> := map[];
      NothingMirrored();
      for i := 0 to |entries|
        invariant Mirrors(m, entries[..i])
      {
        MirrorsSnoc(m, entries[..i], entries[i]);
        m := m[KeyOf(entries[i]) := entries[i]];
        assert entries[..i + 1] == entries[..i] + [entries[i]];
      }
      assert entries[..|entries|] == entries;
      byKey := m;
    }
  }

  lemma NothingMirrored()
    ensures Mirrors(map[], [])
  {
  }

  /** After a snapshot both sides hold the same items under the same keys. */
  lemma SidesAgree(before: Table, agent: string, items: seq<Item>, now: int, after: Table,
                   inventory: map<string, Item>, key: string)
    requires Replaced(before, agent, items, now, after) && Mirrors(inventory, items)
    ensures key in inventory <==> RowId(agent, key) in after
    ensures key in inventory ==> after[RowId(agent, key)].item == inventory[key] && KeyOf(inventory[key]) == key
  {
    var id := RowId(agent, key);
    assert id in after <==> LastOf(items, key).Some?;
    LastOfMeans(items, key);
  }

  // ---------------------------------------------------------------- histories

  datatype Snapshot = Snapshot(agent: string, items: seq<Item>, now: int)

  /** The tables after 0, 1, ... reports of any agents. */
  ghost predicate History(tables: seq<Table>, reports: seq<Snapshot>) {
    && |tables| == |reports| + 1 && tables[0] == map[]
    && forall i :: 0 <= i < |reports| ==>
         Replaced(tables[i], reports[i].agent, reports[i].items, reports[i].now, tables[i + 1])
  }

  predicate Lists(report: Snapshot, key: string) { LastOf(report.items, key).Some? }

  /** The latest report of an agent among the first n. */
  function Latest(reports: seq<Snapshot>, n: nat, agent: string): (l: Option<nat>)
    requires n <= |reports|
    ensures l.None? ==> forall j :: 0 <= j < n ==> reports[j].agent != agent
    ensures l.Some? ==> l.value < n && reports[l.value].agent == agent
    ensures l.Some? ==> forall j :: l.value < j < n ==> reports[j].agent != agent
  {
    if n == 0 then None
    else if reports[n - 1].agent == agent then Some(n - 1)
    else Latest(reports, n - 1, agent)
  }

  /** i starts the unbroken stretch of an agent's reports that list a key and reach up to n. */
  ghost predicate Stretch(reports: seq<Snapshot>, n: nat, agent: string, key: string, i: nat)
    requires n <= |reports|
  {
    && i < n && reports[i].agent == agent
    && (forall j :: i <= j < n && reports[j].agent == agent ==> Lists(reports[j], key))
    && (Latest(reports, i, agent).Some? ==> !Lists(reports[Latest(reports, i, agent).value], key))
  }

  ghost predicate RowMeans(reports: seq<Snapshot>, n: nat, id: RowId, row: Row)
    requires n <= |reports|
  {
    && Latest(reports, n, id.agent).Some?
    && LastOf(reports[Latest(reports, n, id.agent).value].items, id.key) == Some(row.item)
    && row.lastSeen == reports[Latest(reports, n, id.agent).value].now
    && exists i: nat :: Stretch(reports, n, id.agent, id.key, i) && reports[i].now == row.firstSeen
  }

  /**
   What a row says, whatever the agents reported and in whatever order: it is present exactly when the
   agent's latest report lists its key, it holds that report's item, and its first-seen time is that of the
   report which began the unbroken stretch of reports listing it.
   */
  lemma {:induction false} HistoryMeans(tables: seq<Table>, reports: seq<Snapshot>, n: nat, id: RowId)
    requires History(tables, reports) && n <= |reports|
    ensures id in tables[n] <==>
            Latest(reports, n, id.agent).Some? && Lists(reports[Latest(reports, n, id.agent).value], id.key)
    ensures id in tables[n] ==> RowMeans(reports, n, id, tables[n][id])
  {
    hide LastOf;
    if n > 0 {
      HistoryMeans(tables, reports, n - 1, id);
      var r := reports[n - 1];
      assert Replaced(tables[n - 1], r.agent, r.items, r.now, tables[n]);
      if r.agent != id.agent {
        if id in tables[n] {
          SkipOther(reports, n, id, tables[n][id]);
        }
      } else if id in tables[n] {
        Extend(reports, n, id, tables[n - 1], tables[n][id]);
      }
    }
  }

  lemma SkipOther(reports: seq<Snapshot>, n: nat, id: RowId, row: Row)
    requires 0 < n <= |reports| && reports[n - 1].agent != id.agent && RowMeans(reports, n - 1, id, row)
    ensures RowMeans(reports, n, id, row)
  {
    hide LastOf, Lists;
    var i: nat :| Stretch(reports, n - 1, id.agent, id.key, i) && reports[i].now == row.firstSeen;
    assert Stretch(reports, n, id.agent, id.key, i);
  }

  lemma Extend(reports: seq<Snapshot>, n: nat, id: RowId, before: Table, row: Row)
    requires 0 < n <= |reports| && reports[n - 1].agent == id.agent
    requires id in before <==>
             Latest(reports, n - 1, id.agent).Some? && Lists(reports[Latest(reports, n - 1, id.agent).value], id.key)
    requires id in before ==> RowMeans(reports, n - 1, id, before[id])
    requires Lists(reports[n - 1], id.key)
    requires var r := reports[n - 1]; row == Row(LastOf(r.items, id.key).value, SeenSince(before, id, r.now), r.now)
    ensures RowMeans(reports, n, id, row)
  {
    hide LastOf;
    if id in before {
      var i: nat :| Stretch(reports, n - 1, id.agent, id.key, i) && reports[i].now == before[id].firstSeen;
      assert Stretch(reports, n, id.agent, id.key, i);
    } else {
      assert Stretch(reports, n, id.agent, id.key, n - 1);
    }
  }
}
