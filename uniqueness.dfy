/**
 * The uniqueness guard and the children listing, over any table given as a
 * map from id to row together with the row's parent (`scope`) and natural key.
 */
module Uniqueness {
  import opened Records

  /**
   * Some row other than `except` lies in scope `s` and carries key `k`: the
   * duplicate lookup a controller runs before it writes.
   */
  predicate Taken<R>(m: map<Id, R>, scope: R -> Id, key: R -> string, s: Id, k: string, except: Option<Id>) {
    exists id | id in m :: scope(m[id]) == s && key(m[id]) == k && except != Some(id)
  }

  /** No two rows of the same scope share a natural key. */
  ghost predicate ScopeUnique<R>(m: map<Id, R>, scope: R -> Id, key: R -> string) {
    forall a, b | a in m && b in m && a != b && scope(m[a]) == scope(m[b]) :: key(m[a]) != key(m[b])
  }

  /** The rows whose parent is `s`, with their ids. */
  function Children<R>(m: map<Id, R>, scope: R -> Id, s: Id): map<Id, R> {
    map id | id in m && scope(m[id]) == s :: m[id]
  }

  /**
   * Writing row `r` under id `n` (an insert when `n` is new, a rewrite when
   * it is not) keeps the scope unique when the guard, excluding `n` itself,
   * found no holder of `r`'s key in `r`'s scope.
   */
  lemma StoreKeepsUnique<R>(m: map<Id, R>, scope: R -> Id, key: R -> string, n: Id, r: R)
    requires ScopeUnique(m, scope, key)
    requires !Taken(m, scope, key, scope(r), key(r), Some(n))
    ensures ScopeUnique(m[n := r], scope, key)
  {
  }

  /** Removing a row keeps the scope unique. */
  lemma RemoveKeepsUnique<R>(m: map<Id, R>, scope: R -> Id, key: R -> string, n: Id)
    requires ScopeUnique(m, scope, key)
    ensures ScopeUnique(m - {n}, scope, key)
  {
  }

  /**
   * Self-exclusion: in a unique table, the guard that excludes a row never
   * reports that row's own current key as taken.
   */
  lemma OwnKeyNotTaken<R>(m: map<Id, R>, scope: R -> Id, key: R -> string, id: Id)
    requires ScopeUnique(m, scope, key)
    requires id in m
    ensures !Taken(m, scope, key, scope(m[id]), key(m[id]), Some(id))
  {
  }

  /** In a unique table a key identifies at most one row of its scope. */
  lemma AtMostOneHolder<R>(m: map<Id, R>, scope: R -> Id, key: R -> string, s: Id, k: string)
    requires ScopeUnique(m, scope, key)
    ensures |set id | id in m && scope(m[id]) == s && key(m[id]) == k| <= 1
  {
    var holders := set id | id in m && scope(m[id]) == s && key(m[id]) == k;
    if holders != {} {
      var h :| h in holders;
      assert holders == {h};
    }
  }

  /**
   * After a row is stored, its key is taken in its scope (a second create
   * with the same key there is refused), while every other scope sees
   * exactly what it saw before (the same key elsewhere is still free).
   */
  lemma TakenAfterInsert<R>(m: map<Id, R>, scope: R -> Id, key: R -> string, n: Id, r: R, s: Id, k: string)
    requires n !in m
    ensures Taken(m[n := r], scope, key, scope(r), key(r), None)
    ensures s != scope(r) ==> (Taken(m[n := r], scope, key, s, k, None) <==> Taken(m, scope, key, s, k, None))
  {
    var m' := m[n := r];
    assert n in m' && m'[n] == r;
    if s != scope(r) && Taken(m', scope, key, s, k, None) {
      var id :| id in m' && scope(m'[id]) == s && key(m'[id]) == k;
      assert id != n && id in m && m[id] == m'[id];
    }
    if Taken(m, scope, key, s, k, None) {
      var id :| id in m && scope(m[id]) == s && key(m[id]) == k;
      assert id in m' && m'[id] == m[id];
    }
  }

  /**
   * Rewriting a row without the guard can break uniqueness: giving row `b`
   * the scope and key of another row `a` leaves two holders of that key.
   */
  lemma RewriteMayBreakUnique<R>(m: map<Id, R>, scope: R -> Id, key: R -> string, a: Id, b: Id, r: R)
    requires a in m && b in m && a != b
    requires scope(r) == scope(m[a]) && key(r) == key(m[a])
    ensures !ScopeUnique(m[b := r], scope, key)
  {
    var m' := m[b := r];
    assert a in m' && b in m' && m'[a] == m[a] && m'[b] == r;
  }

  /** Listing a scope after an insert into it shows the old children plus the new row; other scopes are unaffected. */
  lemma ChildrenAfterInsert<R>(m: map<Id, R>, scope: R -> Id, n: Id, r: R, s: Id)
    requires n !in m
    ensures Children(m[n := r], scope, s) == if s == scope(r) then Children(m, scope, s)[n := r] else Children(m, scope, s)
  {
  }

  /** Listing a scope after a removal shows the old children less the removed row. */
  lemma ChildrenAfterRemove<R>(m: map<Id, R>, scope: R -> Id, n: Id, s: Id)
    ensures Children(m - {n}, scope, s) == Children(m, scope, s) - {n}
  {
  }
}
