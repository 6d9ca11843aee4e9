/** A table under row locks: a statement writes its row in place and keeps the row it replaced with the
    lock; a reader outside the transaction sees the kept row until the lock goes. */
module LockedTables {
  import opened Json

  datatype Lock<+V> = Lock(owner: nat, before: Option<V>)

  datatype Table<K, +V> = Table(rows: map<K, V>, locks: map<K, Lock<V>>)

  function See<K, V>(t: Table<K, V>, k: K): Option<V> {
    if k in t.locks then t.locks[k].before else if k in t.rows then Some(t.rows[k]) else None
  }

  /** The committed rows. */
  function Visible<K, V>(t: Table<K, V>): map<K, V> {
    map k | k in t.rows.Keys + t.locks.Keys && See(t, k).Some? :: See(t, k).value
  }

  function Insert<K, V>(t: Table<K, V>, k: K, v: V): Table<K, V> {
    t.(rows := t.rows[k := v])
  }

  function Write<K, V>(t: Table<K, V>, k: K, v: V, owner: nat): Table<K, V>
    requires k !in t.locks
  {
    Table(t.rows[k := v], t.locks[k := Lock(owner, See(t, k))])
  }

  /** Commit and rollback of one row. */
  function Keep<K, V>(t: Table<K, V>, k: K): Table<K, V> {
    t.(locks := t.locks - {k})
  }

  function Restore<K, V>(t: Table<K, V>, k: K): Table<K, V>
    requires k in t.locks
  {
    Table(match t.locks[k].before case None => t.rows - {k} case Some(v) => t.rows[k := v], t.locks - {k})
  }

  predicate Holds<K, V>(t: Table<K, V>, k: K, owner: nat) {
    k in t.locks && t.locks[k].owner == owner && k in t.rows
  }

  lemma InsertShows<K, V>(t: Table<K, V>, k: K, v: V)
    requires k !in t.locks && k !in t.rows
    ensures k !in Visible(t) && Visible(Insert(t, k, v)) == Visible(t)[k := v]
  {
  }

  lemma WriteIsHidden<K, V>(t: Table<K, V>, k: K, v: V, owner: nat)
    requires k !in t.locks
    ensures Visible(Write(t, k, v, owner)) == Visible(t)
  {
  }

  lemma RestoreIsHidden<K, V>(t: Table<K, V>, k: K)
    requires k in t.locks
    ensures Visible(Restore(t, k)) == Visible(t)
  {
  }

  lemma KeepShows<K, V>(t: Table<K, V>, k: K)
    requires k in t.locks && k in t.rows
    ensures Visible(Keep(t, k)) == Visible(t)[k := t.rows[k]]
  {
  }

  lemma UnlockedIsVisible<K, V>(t: Table<K, V>)
    requires t.locks.Keys == {}
    ensures Visible(t) == t.rows
  {
  }
}
