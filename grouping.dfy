/**
 * What the batched operations do with the rows the cursor yields: group
 * them by their `Id` column into lists (`get_tags_readings`,
 * `get_tags_readings_interpolated`), or keep one reading per id, the last
 * one seen (`get_current_tags_readings`).
 */
module Grouping {
  import opened Records

  /** The ids that occur in `rows`. */
  function IdSet(rows: seq<ReadingRow>): set<string>
  {
    set r | r in rows :: r.id
  }

  /** The subsequence of `rows` whose id is `id`, in arrival order. */
  function Matching(rows: seq<ReadingRow>, id: string): seq<ReadingRow>
  {
    if rows == [] then []
    else Matching(rows[..|rows| - 1], id) + (if rows[|rows| - 1].id == id then [rows[|rows| - 1]] else [])
  }

  /**
   * The dict of lists the grouping loop builds: one entry per id that occurs,
   * holding the readings of that id's rows in arrival order.
   */
  function Grouped(rows: seq<ReadingRow>, tz: TimeZone, dropMicroseconds: bool): map<string, seq<TagReading>>
  {
    map id | id in IdSet(rows) :: ReadingsOf(Matching(rows, id), tz, dropMicroseconds)
  }

  /** Sum of the lengths of the lists stored under `keys`. */
  ghost function SumLengths<K, V>(m: map<K, seq<V>>, keys: set<K>): nat
    requires keys <= m.Keys
    decreases keys
  {
    if keys == {} then 0 else var k :| k in keys; |m[k]| + SumLengths(m, keys - {k})
  }

  /** Sum of the lengths of all the lists in `m`. */
  ghost function TotalLength<K, V>(m: map<K, seq<V>>): nat
  {
    SumLengths(m, m.Keys)
  }

  /**
   * `get_current_tags_readings`'s dict comprehension
   * `{r['Id']: TagReading(...) for r in cursor}`: each row overwrites the
   * entry of an earlier row with the same id, so every id present maps to the
   * reading of the LAST row carrying it.
   */
  function LatestById(rows: seq<ReadingRow>, tz: TimeZone): (m: map<string, TagReading>)
    ensures m.Keys == IdSet(rows)
    ensures forall i :: IsLastOfId(rows, i) ==> m[rows[i].id] == ReadingOf(rows[i], tz, false)
  {
    if rows == [] then map[]
    else
      var init := rows[..|rows| - 1];
      var last := rows[|rows| - 1];
      IdSetAppend(init, last);
      assert rows == init + [last];
      var m := LatestById(init, tz)[last.id := ReadingOf(last, tz, false)];
      assert forall i :: IsLastOfId(rows, i) && i < |rows| - 1 ==> IsLastOfId(init, i) by {
        forall i | IsLastOfId(rows, i) && i < |rows| - 1 ensures IsLastOfId(init, i) {
          forall j | i < j < |init| ensures init[j].id != init[i].id {
            assert init[j] == rows[j];
          }
        }
      }
      m
  }

  /** Row `i` is the last row with its id. */
  predicate IsLastOfId(rows: seq<ReadingRow>, i: int)
  {
    0 <= i < |rows| && forall j :: i < j < |rows| ==> rows[j].id != rows[i].id
  }

  /**
   * The grouping loop: for each row in turn, a new id gets a one-element list
   * holding the row's reading, and a known id gets the reading appended to
   * its list.
   */
  method GroupByTag(rows: seq<ReadingRow>, tz: TimeZone, dropMicroseconds: bool) returns (result: map<string, seq<TagReading>>)
    ensures result == Grouped(rows, tz, dropMicroseconds)
  {
    result := map[];
    assert rows[..0] == [];
    for i := 0 to |rows|
      invariant result == Grouped(rows[..i], tz, dropMicroseconds)
    {
      var row := rows[i];
      assert rows[..i + 1] == rows[..i] + [row];
      GroupedAppend(rows[..i], row, tz, dropMicroseconds);
      var reading := ReadingOf(row, tz, dropMicroseconds);
      if row.id !in result {
        result := result[row.id := [reading]];
      } else {
        result := result[row.id := result[row.id] + [reading]];
      }
    }
    assert rows[..|rows|] == rows;
  }

  // ----- Properties of the grouping -----

  lemma IdSetAppend(rows: seq<ReadingRow>, r: ReadingRow)
    ensures IdSet(rows + [r]) == IdSet(rows) + {r.id}
  {
    var a := rows + [r];
    forall id | id in IdSet(rows) ensures id in IdSet(a) {
      var x :| x in rows && x.id == id;
      assert x in a;
    }
    assert r in a;
  }

  lemma MatchingAppend(rows: seq<ReadingRow>, r: ReadingRow, id: string)
    ensures Matching(rows + [r], id) == Matching(rows, id) + (if r.id == id then [r] else [])
  {
    assert (rows + [r])[..|rows|] == rows;
  }

  /** One more row adds its reading at the end of its id's list, or starts that list. */
  lemma GroupedAppend(rows: seq<ReadingRow>, r: ReadingRow, tz: TimeZone, dropMicroseconds: bool)
    ensures Grouped(rows + [r], tz, dropMicroseconds) ==
      var g := Grouped(rows, tz, dropMicroseconds);
      var reading := ReadingOf(r, tz, dropMicroseconds);
      if r.id in g then g[r.id := g[r.id] + [reading]] else g[r.id := [reading]]
  {
    var g := Grouped(rows, tz, dropMicroseconds);
    var reading := ReadingOf(r, tz, dropMicroseconds);
    var expected := if r.id in g then g[r.id := g[r.id] + [reading]] else g[r.id := [reading]];
    var actual := Grouped(rows + [r], tz, dropMicroseconds);
    IdSetAppend(rows, r);
    assert actual.Keys == expected.Keys;
    forall id | id in actual ensures actual[id] == expected[id] {
      MatchingAppend(rows, r, id);
      if id == r.id {
        ReadingsOfAppend(Matching(rows, id), r, tz, dropMicroseconds);
        if r.id !in g {
          assert Matching(rows, id) == [] by { MatchingEmpty(rows, id); }
        }
      }
    }
  }

  /** A row is in the list for `id` exactly when it is one of the rows and carries `id`. */
  lemma {:induction false} MatchingMembers(rows: seq<ReadingRow>, id: string)
    ensures forall r :: r in Matching(rows, id) <==> r in rows && r.id == id
  {
    if rows != [] {
      var init := rows[..|rows| - 1];
      MatchingMembers(init, id);
      assert rows == init + [rows[|rows| - 1]];
    }
  }

  /** An id has an empty list exactly when no row carries it. */
  lemma MatchingEmpty(rows: seq<ReadingRow>, id: string)
    ensures Matching(rows, id) == [] <==> id !in IdSet(rows)
  {
    MatchingMembers(rows, id);
    if id in IdSet(rows) {
      var x :| x in rows && x.id == id;
      assert x in Matching(rows, id);
    }
  }

  /** The grouping has one key per id in the rows, and no key maps to an empty list. */
  lemma GroupedKeysAndNonEmpty(rows: seq<ReadingRow>, tz: TimeZone, dropMicroseconds: bool)
    ensures Grouped(rows, tz, dropMicroseconds).Keys == IdSet(rows)
    ensures forall id :: id in Grouped(rows, tz, dropMicroseconds) ==> Grouped(rows, tz, dropMicroseconds)[id] != []
  {
    forall id | id in IdSet(rows) ensures Grouped(rows, tz, dropMicroseconds)[id] != [] {
      MatchingEmpty(rows, id);
    }
  }

  lemma {:induction false} SumLengthsRemove<K, V>(m: map<K, seq<V>>, keys: set<K>, k: K)
    requires keys <= m.Keys && k in keys
    ensures SumLengths(m, keys) == |m[k]| + SumLengths(m, keys - {k})
    decreases keys
  {
    var j :| j in keys && SumLengths(m, keys) == |m[j]| + SumLengths(m, keys - {j});
    if j != k {
      SumLengthsRemove(m, keys - {j}, k);
      SumLengthsRemove(m, keys - {k}, j);
      assert keys - {j} - {k} == keys - {k} - {j};
    }
  }

  lemma {:induction false} SumLengthsFrame<K, V>(m: map<K, seq<V>>, n: map<K, seq<V>>, keys: set<K>)
    requires keys <= m.Keys && keys <= n.Keys
    requires forall k :: k in keys ==> |m[k]| == |n[k]|
    ensures SumLengths(m, keys) == SumLengths(n, keys)
    decreases keys
  {
    if keys != {} {
      var k :| k in keys && SumLengths(m, keys) == |m[k]| + SumLengths(m, keys - {k});
      SumLengthsRemove(n, keys, k);
      SumLengthsFrame(m, n, keys - {k});
    }
  }

  /** Adding one element to one list, or a new singleton list, adds one to the total. */
  lemma TotalLengthAppend<K, V>(m: map<K, seq<V>>, k: K, v: V)
    ensures TotalLength(if k in m then m[k := m[k] + [v]] else m[k := [v]]) == TotalLength(m) + 1
  {
    var n := if k in m then m[k := m[k] + [v]] else m[k := [v]];
    SumLengthsRemove(n, n.Keys, k);
    SumLengthsFrame(m, n, m.Keys - {k});
    assert n.Keys - {k} == m.Keys - {k};
    if k in m {
      SumLengthsRemove(m, m.Keys, k);
    } else {
      assert m.Keys - {k} == m.Keys;
    }
  }

  /** The list lengths of the grouping sum to the number of rows: no row is lost or duplicated. */
  lemma {:induction false} GroupedTotal(rows: seq<ReadingRow>, tz: TimeZone, dropMicroseconds: bool)
    ensures TotalLength(Grouped(rows, tz, dropMicroseconds)) == |rows|
  {
    if rows == [] {
      assert Grouped(rows, tz, dropMicroseconds) == map[];
    } else {
      var init := rows[..|rows| - 1];
      var last := rows[|rows| - 1];
      assert rows == init + [last];
      GroupedTotal(init, tz, dropMicroseconds);
      GroupedAppend(init, last, tz, dropMicroseconds);
      TotalLengthAppend(Grouped(init, tz, dropMicroseconds), last.id, ReadingOf(last, tz, dropMicroseconds));
    }
  }

  /** One more row overwrites the entry of its id. */
  lemma LatestByIdAppend(rows: seq<ReadingRow>, r: ReadingRow, tz: TimeZone)
    ensures LatestById(rows + [r], tz) == LatestById(rows, tz)[r.id := ReadingOf(r, tz, false)]
  {
    var a := rows + [r];
    assert a[..|a| - 1] == rows;
  }

  /**
   * The batched current-reading dict and the raw grouping agree: the entry for
   * an id is the last reading of that id's group.
   */
  lemma {:induction false} LatestIsLastOfGroup(rows: seq<ReadingRow>, tz: TimeZone, id: string)
    requires id in IdSet(rows)
    ensures id in LatestById(rows, tz)
    ensures id in Grouped(rows, tz, false) && Grouped(rows, tz, false)[id] != []
    ensures LatestById(rows, tz)[id] == Grouped(rows, tz, false)[id][|Grouped(rows, tz, false)[id]| - 1]
  {
    assert rows != [];
    var init := rows[..|rows| - 1];
    var last := rows[|rows| - 1];
    var reading := ReadingOf(last, tz, false);
    assert rows == init + [last];
    var latest, groups := LatestById(init, tz), Grouped(init, tz, false);
    var latest' := latest[last.id := reading];
    var groups' := if last.id in groups then groups[last.id := groups[last.id] + [reading]] else groups[last.id := [reading]];
    LatestByIdAppend(init, last, tz);
    GroupedAppend(init, last, tz, false);
    assert LatestById(rows, tz) == latest';
    assert Grouped(rows, tz, false) == groups';
    if id != last.id {
      IdSetAppend(init, last);
      LatestIsLastOfGroup(init, tz, id);
    }
    LastOfUpdatedGroup(latest, groups, last.id, reading, id);
  }

  /** The map step behind LatestIsLastOfGroup, stated on plain maps. */
  lemma LastOfUpdatedGroup<V>(latest: map<string, V>, groups: map<string, seq<V>>, k: string, v: V, id: string)
    requires id != k ==> id in latest && id in groups && groups[id] != [] && latest[id] == groups[id][|groups[id]| - 1]
    ensures var latest' := latest[k := v];
      var groups' := if k in groups then groups[k := groups[k] + [v]] else groups[k := [v]];
      id in latest' && id in groups' && groups'[id] != [] && latest'[id] == groups'[id][|groups'[id]| - 1]
  {
  }
}
