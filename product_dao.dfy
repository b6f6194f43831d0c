/**
 * The Room DAO over the local `products` table, as a table object holding a
 * map from primary key to row. Each query is a snapshot of the table at the
 * time of the call; Room's re-emission of `getAllProducts` on every write is
 * not modelled.
 */
module ProductDao {
  import opened Util
  import opened LocalEntity

  /** Every row is stored under its own primary key: at most one row per id. */
  ghost predicate KeyedById(m: map<string, ProductEntity>) {
    forall id :: id in m ==> m[id].id == id
  }

  /**
   * `@Insert(onConflict = REPLACE)` of a list: upsert each element in order,
   * so the last element with a given id is the one stored.
   */
  function UpsertAll(m: map<string, ProductEntity>, ps: seq<ProductEntity>): (r: map<string, ProductEntity>)
    ensures KeyedById(m) ==> KeyedById(r)
    ensures r.Keys == m.Keys + IdsOf(ps)
  {
    if ps == [] then m
    else
      var last := ps[|ps| - 1];
      assert IdsOf(ps) == IdsOf(ps[..|ps| - 1]) + {last.id} by {
        forall x | x in IdsOf(ps) ensures x in IdsOf(ps[..|ps| - 1]) + {last.id} {
          var i :| 0 <= i < |ps| && ps[i].id == x;
          if i < |ps| - 1 { assert ps[..|ps| - 1][i] == ps[i]; }
        }
      }
      UpsertAll(m, ps[..|ps| - 1])[last.id := last]
  }

  /** The ids of the rows in a list. */
  function IdsOf(r: seq<ProductEntity>): (ids: set<string>) {
    set i | 0 <= i < |r| :: r[i].id
  }

  /** No id occurs twice in a list. */
  predicate DistinctIds(r: seq<ProductEntity>) {
    forall i, j :: 0 <= i < j < |r| ==> r[i].id != r[j].id
  }

  /** Ordered by `lastModified` descending (ties in any order). */
  predicate NewestFirst(r: seq<ProductEntity>) {
    forall i, j :: 0 <= i < j < |r| ==> r[i].lastModified >= r[j].lastModified
  }

  /** `r` lists the rows of `m` whose ids are `ids`, each exactly once. */
  ghost predicate ListsRows(r: seq<ProductEntity>, m: map<string, ProductEntity>, ids: set<string>) {
    && DistinctIds(r)
    && IdsOf(r) == ids
    && forall x :: x in r ==> x.id in m && m[x.id] == x
  }

  /** Rows matching `WHERE deletedLocally = 0`. */
  function VisibleIds(m: map<string, ProductEntity>): (ids: set<string>) {
    set id | id in m && !m[id].deletedLocally
  }

  /** Rows matching `WHERE isSynced = 0`. */
  function UnsyncedIds(m: map<string, ProductEntity>): (ids: set<string>) {
    set id | id in m && !m[id].isSynced
  }

  /** The ids of a concatenation are the ids of its two parts. */
  lemma IdsOfAppend(a: seq<ProductEntity>, b: seq<ProductEntity>)
    ensures IdsOf(a + b) == IdsOf(a) + IdsOf(b)
  {
    forall x | x in IdsOf(a + b) ensures x in IdsOf(a) + IdsOf(b) {
      var i :| 0 <= i < |a + b| && (a + b)[i].id == x;
      if i < |a| { assert a[i].id == x; } else { assert b[i - |a|].id == x; }
    }
    forall x | x in IdsOf(a) ensures x in IdsOf(a + b) {
      var i :| 0 <= i < |a| && a[i].id == x;
      assert (a + b)[i].id == x;
    }
    forall x | x in IdsOf(b) ensures x in IdsOf(a + b) {
      var i :| 0 <= i < |b| && b[i].id == x;
      assert (a + b)[|a| + i].id == x;
    }
  }

  lemma IdsOfSingleton(e: ProductEntity)
    ensures IdsOf([e]) == {e.id}
  {
    assert [e][0].id == e.id;
  }

  /** The position before the first row strictly older than `e`. */
  function InsertionPoint(s: seq<ProductEntity>, e: ProductEntity): (k: nat)
    ensures k <= |s|
    ensures forall i :: 0 <= i < k ==> s[i].lastModified > e.lastModified
    ensures k < |s| ==> s[k].lastModified <= e.lastModified
  {
    if s == [] || e.lastModified >= s[0].lastModified then 0 else 1 + InsertionPoint(s[1..], e)
  }

  /** Inserts `e` into a list ordered newest first, before the first strictly older row. */
  function InsertNewestFirst(s: seq<ProductEntity>, e: ProductEntity): (r: seq<ProductEntity>)
    ensures |r| == |s| + 1
    ensures forall x :: x in r <==> x in s || x == e
    ensures NewestFirst(s) ==> NewestFirst(r)
  {
    var k := InsertionPoint(s, e);
    assert s == s[..k] + s[k..];
    s[..k] + [e] + s[k..]
  }

  /** Insertion adds the id of `e`, and keeps ids distinct when `e`'s id is new. */
  lemma InsertNewestFirstIds(s: seq<ProductEntity>, e: ProductEntity)
    ensures IdsOf(InsertNewestFirst(s, e)) == IdsOf(s) + {e.id}
    ensures DistinctIds(s) && e.id !in IdsOf(s) ==> DistinctIds(InsertNewestFirst(s, e))
  {
    var k := InsertionPoint(s, e);
    var r := InsertNewestFirst(s, e);
    assert s == s[..k] + s[k..];
    IdsOfAppend(s[..k], s[k..]);
    IdsOfAppend(s[..k] + [e], s[k..]);
    IdsOfAppend(s[..k], [e]);
    IdsOfSingleton(e);
    if DistinctIds(s) && e.id !in IdsOf(s) {
      forall i, j | 0 <= i < j < |r| ensures r[i].id != r[j].id {
        if i == k {
          assert r[j] == s[j - 1] && s[j - 1].id in IdsOf(s);
        } else if j == k {
          assert r[i] == s[i] && s[i].id in IdsOf(s);
        } else {
          var i', j' := if i < k then i else i - 1, if j < k then j else j - 1;
          assert r[i] == s[i'] && r[j] == s[j'];
        }
      }
    }
  }

  /** Rows that are not in the upserted list keep their old value (or stay absent). */
  lemma {:induction false} UpsertAllUntouched(m: map<string, ProductEntity>, ps: seq<ProductEntity>, id: string)
    requires forall i :: 0 <= i < |ps| ==> ps[i].id != id
    ensures (id in UpsertAll(m, ps)) == (id in m)
    ensures id in m ==> UpsertAll(m, ps)[id] == m[id]
  {
    if ps != [] {
      UpsertAllUntouched(m, ps[..|ps| - 1], id);
    }
  }

  /** In a batch, the last element carrying an id is the row stored under that id. */
  lemma {:induction false} UpsertAllLastWins(m: map<string, ProductEntity>, ps: seq<ProductEntity>, k: nat)
    requires k < |ps|
    requires forall j :: k < j < |ps| ==> ps[j].id != ps[k].id
    ensures ps[k].id in UpsertAll(m, ps) && UpsertAll(m, ps)[ps[k].id] == ps[k]
  {
    if k < |ps| - 1 {
      assert ps[..|ps| - 1][k] == ps[k];
      UpsertAllLastWins(m, ps[..|ps| - 1], k);
    }
  }

  /** A list without repeated ids has as many ids as rows. */
  lemma {:induction false} DistinctIdsCount(r: seq<ProductEntity>)
    requires DistinctIds(r)
    ensures |IdsOf(r)| == |r|
  {
    if r != [] {
      var front := r[..|r| - 1];
      assert IdsOf(r) == IdsOf(front) + {r[|r| - 1].id} by {
        forall x | x in IdsOf(r) ensures x in IdsOf(front) + {r[|r| - 1].id} {
          var i :| 0 <= i < |r| && r[i].id == x;
          if i < |r| - 1 { assert front[i].id == x; }
        }
      }
      assert r[|r| - 1].id !in IdsOf(front);
      DistinctIdsCount(front);
    }
  }

  /** A query result lists exactly as many rows as the rows it selects. */
  lemma ListedRowsCount(r: seq<ProductEntity>, m: map<string, ProductEntity>, ids: set<string>)
    requires ListsRows(r, m, ids)
    ensures |r| == |ids|
  {
    DistinctIdsCount(r);
  }

  class ProductTable {
    var rows: map<string, ProductEntity>

    ghost predicate Valid()
      reads this
    {
      KeyedById(rows)
    }

    /** A fresh, empty table. */
    constructor ()
      ensures Valid() && rows == map[]
    {
      rows := map[];
    }

    /** `SELECT * FROM products WHERE deletedLocally = 0 ORDER BY lastModified DESC` */
    method GetAllProducts() returns (r: seq<ProductEntity>)
      requires Valid()
      ensures NewestFirst(r)
      ensures ListsRows(r, rows, VisibleIds(rows))
    {
      r := [];
      var pending := rows.Keys;
      while pending != {}
        invariant pending <= rows.Keys
        invariant NewestFirst(r) && DistinctIds(r)
        invariant forall x :: x in r ==> x.id in rows && rows[x.id] == x
        invariant IdsOf(r) == VisibleIds(rows) - pending
        decreases pending
      {
        var id :| id in pending;
        pending := pending - {id};
        var e := rows[id];
        if !e.deletedLocally {
          InsertNewestFirstIds(r, e);
          r := InsertNewestFirst(r, e);
        }
      }
    }

    /** `@Insert(onConflict = REPLACE) insertAll(products)`: one upsert per element, in order. */
    method InsertAll(products: seq<ProductEntity>)
      requires Valid()
      modifies this
      ensures Valid()
      ensures rows == UpsertAll(old(rows), products)
    {
      for i := 0 to |products|
        invariant Valid()
        invariant rows == UpsertAll(old(rows), products[..i])
      {
        assert products[..i + 1][..i] == products[..i];
        InsertOrUpdateProduct(products[i]);
      }
      assert products[..|products|] == products;
    }

    /** `DELETE FROM products` */
    method DeleteAll()
      modifies this
      ensures Valid()
      ensures rows == map[]
    {
      rows := map[];
    }

    /** `SELECT * FROM products WHERE id = :productId`, tombstoned rows included. */
    method GetProductById(productId: string) returns (r: Option<ProductEntity>)
      requires Valid()
      ensures r.None? <==> productId !in rows
      ensures r.Some? ==> r.value == rows[productId] && r.value.id == productId
    {
      if productId in rows {
        r := Some(rows[productId]);
      } else {
        r := None;
      }
    }

    /** `@Insert(onConflict = REPLACE) insertOrUpdateProduct(product)`. */
    method InsertOrUpdateProduct(product: ProductEntity)
      requires Valid()
      modifies this
      ensures Valid()
      ensures rows == old(rows)[product.id := product]
    {
      rows := rows[product.id := product];
    }

    /** `SELECT * FROM products WHERE isSynced = 0`, tombstoned rows included, in no particular order. */
    method GetUnsyncedProducts() returns (r: seq<ProductEntity>)
      requires Valid()
      ensures ListsRows(r, rows, UnsyncedIds(rows))
    {
      r := [];
      var pending := rows.Keys;
      while pending != {}
        invariant pending <= rows.Keys
        invariant DistinctIds(r)
        invariant forall x :: x in r ==> x.id in rows && rows[x.id] == x
        invariant IdsOf(r) == UnsyncedIds(rows) - pending
        decreases pending
      {
        var id :| id in pending;
        pending := pending - {id};
        var e := rows[id];
        if !e.isSynced {
          IdsOfAppend(r, [e]);
          IdsOfSingleton(e);
          assert DistinctIds(r + [e]) by {
            forall j | 0 <= j < |r| ensures r[j].id != id {
              assert r[j].id in IdsOf(r);
            }
          }
          r := r + [e];
        }
      }
    }

    /** `DELETE FROM products WHERE id IN (:ids)`: ids without a row are ignored. */
    method DeleteProductsByIds(ids: seq<string>)
      requires Valid()
      modifies this
      ensures Valid()
      ensures rows == old(rows) - (set i | 0 <= i < |ids| :: ids[i])
    {
      for i := 0 to |ids|
        invariant Valid()
        invariant rows == old(rows) - (set k | 0 <= k < i :: ids[k])
      {
        assert (set k | 0 <= k < i + 1 :: ids[k]) == (set k | 0 <= k < i :: ids[k]) + {ids[i]};
        rows := rows - {ids[i]};
      }
    }
  }

  /** After `deleteAll`, every query comes back empty. */
  method DeleteAllEmptiesQueries(table: ProductTable, productId: string)
    returns (all: seq<ProductEntity>, unsynced: seq<ProductEntity>, one: Option<ProductEntity>)
    modifies table
    ensures all == [] && unsynced == [] && one == None
  {
    table.DeleteAll();
    all := table.GetAllProducts();
    ListedRowsCount(all, table.rows, VisibleIds(table.rows));
    unsynced := table.GetUnsyncedProducts();
    ListedRowsCount(unsynced, table.rows, UnsyncedIds(table.rows));
    one := table.GetProductById(productId);
  }
}
