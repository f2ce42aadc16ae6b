/** The statements the service and product routes run against a join table,
    and what they do to the ids linked to each client. A table is the
    sequence of its rows; a row may occur more than once unless the table
    has a unique constraint. */
module JoinTables {
  import opened Schema

  /** The item ids `t` links to client `c`, in row order. */
  function ItemsOf(t: seq<JoinRow>, c: ClientId): seq<int>
  {
    if t == [] then []
    else (if t[0].clientId == c then [t[0].itemId] else []) + ItemsOf(t[1..], c)
  }

  function Elems(ids: seq<int>): set<int>
  {
    set x | x in ids
  }

  /** No row occurs twice: the unique constraint on (client_id, item_id). */
  predicate NoDuplicates(t: seq<JoinRow>)
  {
    forall i, j | 0 <= i < j < |t| :: t[i] != t[j]
  }

  /** `DELETE ... WHERE client_id = c AND item_id NOT IN (spared)`; with
      `spared` empty it is `DELETE ... WHERE client_id = c`. */
  function DeleteRows(t: seq<JoinRow>, c: ClientId, spared: set<int>): (r: seq<JoinRow>)
    ensures |r| <= |t|
    ensures forall i | 0 <= i < |r| :: r[i].clientId == c ==> r[i].itemId in spared
  {
    if t == [] then []
    else (if t[0].clientId == c && t[0].itemId !in spared then [] else [t[0]])
         + DeleteRows(t[1..], c, spared)
  }

  /** The rows `INSERT ... SELECT c, unnest(ids)` adds: one per submitted id,
      in order, duplicates included. */
  function InsertRows(c: ClientId, ids: seq<int>): (r: seq<JoinRow>)
    ensures |r| == |ids|
    ensures forall i | 0 <= i < |ids| :: r[i] == JoinRow(c, ids[i])
  {
    if ids == [] then [] else [JoinRow(c, ids[0])] + InsertRows(c, ids[1..])
  }

  /** `INSERT ... SELECT c, unnest(ids) ON CONFLICT DO NOTHING`: an id whose
      row is already present, in the table or earlier in the same batch, is
      skipped. */
  function InsertIgnoring(t: seq<JoinRow>, c: ClientId, ids: seq<int>): (r: seq<JoinRow>)
    ensures t <= r
    ensures forall i | |t| <= i < |r| :: r[i].clientId == c && r[i].itemId in ids
    ensures forall i | 0 <= i < |ids| :: JoinRow(c, ids[i]) in r
    decreases |ids|
  {
    if ids == [] then t
    else
      var t' := if JoinRow(c, ids[0]) in t then t else t + [JoinRow(c, ids[0])];
      var r := InsertIgnoring(t', c, ids[1..]);
      assert JoinRow(c, ids[0]) in r by {
        assert JoinRow(c, ids[0]) in t' && t' == r[..|t'|];
      }
      assert forall i | 1 <= i < |ids| :: ids[i] == ids[1..][i - 1];
      r
  }

  /** The service route: delete every row of `c`, then insert the submitted ids. */
  function ReplaceRows(t: seq<JoinRow>, c: ClientId, ids: seq<int>): (r: seq<JoinRow>)
    ensures forall i | 0 <= i < |r| :: r[i].clientId == c ==> r[i].itemId in ids
    ensures forall i | 0 <= i < |ids| :: JoinRow(c, ids[i]) in r
  {
    DeleteRows(t, c, {}) + InsertRows(c, ids)
  }

  /** The product route: delete the rows of `c` whose id is not submitted,
      then insert the submitted ids, skipping those present. */
  function Reconcile(t: seq<JoinRow>, c: ClientId, ids: seq<int>): (r: seq<JoinRow>)
    ensures forall i | 0 <= i < |r| :: r[i].clientId == c ==> r[i].itemId in ids
    ensures forall i | 0 <= i < |ids| :: JoinRow(c, ids[i]) in r
  {
    InsertIgnoring(DeleteRows(t, c, Elems(ids)), c, ids)
  }

  // ---------------------------------------------------------------------
  // Projection onto one client

  lemma {:induction false} ItemsOfConcat(a: seq<JoinRow>, b: seq<JoinRow>, c: ClientId)
    ensures ItemsOf(a + b, c) == ItemsOf(a, c) + ItemsOf(b, c)
  {
    if a == [] {
      assert a + b == b;
    } else {
      var head := if a[0].clientId == c then [a[0].itemId] else [];
      assert (a + b)[0] == a[0] && (a + b)[1..] == a[1..] + b;
      assert ItemsOf(a + b, c) == head + ItemsOf(a[1..] + b, c);
      ItemsOfConcat(a[1..], b, c);
      assert ItemsOf(a, c) == head + ItemsOf(a[1..], c);
    }
  }

  /** An id is linked to `c` exactly when a row (c, id) is in the table. */
  lemma {:induction false} ItemsOfMembership(t: seq<JoinRow>, c: ClientId, x: int)
    ensures x in ItemsOf(t, c) <==> JoinRow(c, x) in t
  {
    if t != [] {
      ItemsOfMembership(t[1..], c, x);
      assert t == [t[0]] + t[1..];
    }
  }

  // ---------------------------------------------------------------------
  // DELETE

  /** A row survives the delete exactly when it is in the table and is not a
      row of `c` with an unspared id. */
  lemma {:induction false} DeleteRowsContents(t: seq<JoinRow>, c: ClientId, spared: set<int>, r: JoinRow)
    ensures r in DeleteRows(t, c, spared) <==> r in t && !(r.clientId == c && r.itemId !in spared)
  {
    if t != [] {
      DeleteRowsContents(t[1..], c, spared, r);
      assert t == [t[0]] + t[1..];
    }
  }

  /** The delete never touches the rows of another client. */
  lemma {:induction false} DeleteRowsOthers(t: seq<JoinRow>, c: ClientId, spared: set<int>, d: ClientId)
    requires d != c
    ensures ItemsOf(DeleteRows(t, c, spared), d) == ItemsOf(t, d)
  {
    if t != [] {
      var head := if t[0].clientId == c && t[0].itemId !in spared then [] else [t[0]];
      ItemsOfConcat(head, DeleteRows(t[1..], c, spared), d);
      DeleteRowsOthers(t[1..], c, spared, d);
    }
  }

  /** The ids of `c` left by the delete are its old ids that are spared. */
  lemma DeleteRowsOwn(t: seq<JoinRow>, c: ClientId, spared: set<int>, x: int)
    ensures x in ItemsOf(DeleteRows(t, c, spared), c) <==> x in ItemsOf(t, c) && x in spared
  {
    ItemsOfMembership(DeleteRows(t, c, spared), c, x);
    ItemsOfMembership(t, c, x);
    DeleteRowsContents(t, c, spared, JoinRow(c, x));
  }

  /** Deleting the unspared rows of `c` is a no-op when there are none. */
  lemma {:induction false} DeleteRowsNoop(t: seq<JoinRow>, c: ClientId, spared: set<int>)
    requires forall r | r in t :: r.clientId == c ==> r.itemId in spared
    ensures DeleteRows(t, c, spared) == t
  {
    if t != [] {
      assert t[0] in t;
      forall r | r in t[1..] ensures r.clientId == c ==> r.itemId in spared {
        assert r in t;
      }
      DeleteRowsNoop(t[1..], c, spared);
      assert t == [t[0]] + t[1..];
    }
  }

  lemma NoDuplicatesCons(x: JoinRow, t: seq<JoinRow>)
    requires x !in t && NoDuplicates(t)
    ensures NoDuplicates([x] + t)
  {
    var s := [x] + t;
    forall i, j | 0 <= i < j < |s| ensures s[i] != s[j] {
      if i == 0 {
        assert s[j] == t[j - 1];
      } else {
        assert s[i] == t[i - 1] && s[j] == t[j - 1];
      }
    }
  }

  /** The delete keeps the table free of duplicates. */
  lemma {:induction false} DeleteRowsNoDuplicates(t: seq<JoinRow>, c: ClientId, spared: set<int>)
    requires NoDuplicates(t)
    ensures NoDuplicates(DeleteRows(t, c, spared))
  {
    if t != [] {
      var rest := DeleteRows(t[1..], c, spared);
      assert NoDuplicates(t[1..]) by {
        forall i, j | 0 <= i < j < |t[1..]| ensures t[1..][i] != t[1..][j] {
          assert t[1..][i] == t[i + 1] && t[1..][j] == t[j + 1];
        }
      }
      DeleteRowsNoDuplicates(t[1..], c, spared);
      if !(t[0].clientId == c && t[0].itemId !in spared) {
        DeleteRowsContents(t[1..], c, spared, t[0]);
        NoDuplicatesCons(t[0], rest);
      }
    }
  }

  // ---------------------------------------------------------------------
  // INSERT

  /** The plain insert links exactly the submitted ids, in order, to `c`
      and nothing to any other client. */
  lemma {:induction false} InsertRowsItems(c: ClientId, ids: seq<int>, d: ClientId)
    ensures ItemsOf(InsertRows(c, ids), d) == if d == c then ids else []
  {
    if ids != [] {
      ItemsOfConcat([JoinRow(c, ids[0])], InsertRows(c, ids[1..]), d);
      InsertRowsItems(c, ids[1..], d);
      assert [JoinRow(c, ids[0])][1..] == [];
      if d == c {
        assert ids == [ids[0]] + ids[1..];
      }
    }
  }

  /** After the conflict-ignoring insert a row is present exactly when it was
      before or it links `c` to a submitted id. */
  lemma {:induction false} InsertIgnoringContents(t: seq<JoinRow>, c: ClientId, ids: seq<int>, r: JoinRow)
    ensures r in InsertIgnoring(t, c, ids) <==> r in t || (r.clientId == c && r.itemId in ids)
    decreases |ids|
  {
    if ids != [] {
      var t' := if JoinRow(c, ids[0]) in t then t else t + [JoinRow(c, ids[0])];
      InsertIgnoringContents(t', c, ids[1..], r);
      assert r in t' <==> r in t || r == JoinRow(c, ids[0]);
      assert r.itemId in ids <==> r.itemId == ids[0] || r.itemId in ids[1..] by {
        assert ids == [ids[0]] + ids[1..];
      }
    }
  }

  /** The conflict-ignoring insert never creates a duplicate row. */
  lemma {:induction false} InsertIgnoringNoDuplicates(t: seq<JoinRow>, c: ClientId, ids: seq<int>)
    requires NoDuplicates(t)
    ensures NoDuplicates(InsertIgnoring(t, c, ids))
    decreases |ids|
  {
    if ids != [] {
      var x := JoinRow(c, ids[0]);
      var t' := if x in t then t else t + [x];
      if x !in t {
        forall i, j | 0 <= i < j < |t'| ensures t'[i] != t'[j] {
          if j == |t| {
            assert t'[i] == t[i];
          } else {
            assert t'[i] == t[i] && t'[j] == t[j];
          }
        }
      }
      InsertIgnoringNoDuplicates(t', c, ids[1..]);
    }
  }

  /** The conflict-ignoring insert leaves the ids of other clients alone. */
  lemma {:induction false} InsertIgnoringOthers(t: seq<JoinRow>, c: ClientId, ids: seq<int>, d: ClientId)
    requires d != c
    ensures ItemsOf(InsertIgnoring(t, c, ids), d) == ItemsOf(t, d)
    decreases |ids|
  {
    if ids != [] {
      var x := JoinRow(c, ids[0]);
      var t' := if x in t then t else t + [x];
      if x !in t {
        ItemsOfConcat(t, [x], d);
        assert ItemsOf([x], d) == [] by {
          assert [x][1..] == [];
        }
      }
      InsertIgnoringOthers(t', c, ids[1..], d);
    }
  }

  /** When every submitted row is already present the insert changes nothing. */
  lemma {:induction false} InsertIgnoringNoop(t: seq<JoinRow>, c: ClientId, ids: seq<int>)
    requires forall x | x in ids :: JoinRow(c, x) in t
    ensures InsertIgnoring(t, c, ids) == t
    decreases |ids|
  {
    if ids != [] {
      assert ids[0] in ids;
      forall x | x in ids[1..] ensures JoinRow(c, x) in t {
        assert x in ids;
      }
      InsertIgnoringNoop(t, c, ids[1..]);
    }
  }

  // ---------------------------------------------------------------------
  // The two reconciliations

  /** Service reconciliation: afterwards `c` is linked to exactly the
      submitted ids, in order and with their multiplicity, whatever it was
      linked to before; every other client keeps its ids. */
  lemma ReplaceRowsExact(t: seq<JoinRow>, c: ClientId, ids: seq<int>, d: ClientId)
    ensures ItemsOf(ReplaceRows(t, c, ids), d) == if d == c then ids else ItemsOf(t, d)
  {
    ItemsOfConcat(DeleteRows(t, c, {}), InsertRows(c, ids), d);
    InsertRowsItems(c, ids, d);
    if d == c {
      DeleteRowsCleared(t, c);
    } else {
      DeleteRowsOthers(t, c, {}, d);
    }
  }

  /** The unconditional per-client delete unlinks every id of `c`. */
  lemma DeleteRowsCleared(t: seq<JoinRow>, c: ClientId)
    ensures ItemsOf(DeleteRows(t, c, {}), c) == []
  {
    var s := ItemsOf(DeleteRows(t, c, {}), c);
    if s != [] {
      DeleteRowsOwn(t, c, {}, s[0]);
      assert false;
    }
  }

  /** Product reconciliation: afterwards the ids linked to `c` are exactly the
      submitted ones, as a set. */
  lemma ReconcileExact(t: seq<JoinRow>, c: ClientId, ids: seq<int>, x: int)
    ensures x in ItemsOf(Reconcile(t, c, ids), c) <==> x in ids
  {
    var kept := DeleteRows(t, c, Elems(ids));
    ItemsOfMembership(Reconcile(t, c, ids), c, x);
    InsertIgnoringContents(kept, c, ids, JoinRow(c, x));
    DeleteRowsContents(t, c, Elems(ids), JoinRow(c, x));
  }

  /** Product reconciliation leaves every other client's ids alone. */
  lemma ReconcileOthers(t: seq<JoinRow>, c: ClientId, ids: seq<int>, d: ClientId)
    requires d != c
    ensures ItemsOf(Reconcile(t, c, ids), d) == ItemsOf(t, d)
  {
    InsertIgnoringOthers(DeleteRows(t, c, Elems(ids)), c, ids, d);
    DeleteRowsOthers(t, c, Elems(ids), d);
  }

  /** Rows still submitted are kept, not re-created: every such old row
      survives the delete, and the survivors stay, in their order, as a
      prefix of the result. */
  lemma ReconcileKeeps(t: seq<JoinRow>, c: ClientId, ids: seq<int>, r: JoinRow)
    requires r in t && (r.clientId == c ==> r.itemId in ids)
    ensures r in DeleteRows(t, c, Elems(ids))
    ensures DeleteRows(t, c, Elems(ids)) <= Reconcile(t, c, ids)
  {
    DeleteRowsContents(t, c, Elems(ids), r);
  }

  /** Product reconciliation keeps the table free of duplicate pairs. */
  lemma ReconcileNoDuplicates(t: seq<JoinRow>, c: ClientId, ids: seq<int>)
    requires NoDuplicates(t)
    ensures NoDuplicates(Reconcile(t, c, ids))
  {
    DeleteRowsNoDuplicates(t, c, Elems(ids));
    InsertIgnoringNoDuplicates(DeleteRows(t, c, Elems(ids)), c, ids);
  }

  /** Submitting the same product list twice leaves the table as submitting
      it once does. */
  lemma ReconcileIdempotent(t: seq<JoinRow>, c: ClientId, ids: seq<int>)
    ensures Reconcile(Reconcile(t, c, ids), c, ids) == Reconcile(t, c, ids)
  {
    var u := Reconcile(t, c, ids);
    var kept := DeleteRows(t, c, Elems(ids));
    forall r | r in u ensures r.clientId == c ==> r.itemId in Elems(ids) {
      InsertIgnoringContents(kept, c, ids, r);
      DeleteRowsContents(t, c, Elems(ids), r);
    }
    DeleteRowsNoop(u, c, Elems(ids));
    forall x | x in ids ensures JoinRow(c, x) in u {
      InsertIgnoringContents(kept, c, ids, JoinRow(c, x));
    }
    InsertIgnoringNoop(u, c, ids);
  }

  /** Client 42 submits services [3, 7] and later [7, 9]: its rows are then
      exactly (42, 7) and (42, 9). */
  lemma ServiceScenario(t: seq<JoinRow>)
    ensures ItemsOf(ReplaceRows(ReplaceRows(t, 42, [3, 7]), 42, [7, 9]), 42) == [7, 9]
  {
    ReplaceRowsExact(ReplaceRows(t, 42, [3, 7]), 42, [7, 9], 42);
  }
}
