/** The account bookkeeping of AuthManager: which accounts exist and in which order they were added,
    which one is active, and the two single-flight tables. Every method is one uninterrupted
    stretch of an asynchronous operation. */
module Accounts {
  import opened Wrappers
  import opened Scopes
  import AuthState

  /** The tables as a value. `O`, `L` and `F` are the account-state objects, locks and futures they
      refer to; `order` is the insertion order of the accounts dictionary. */
  datatype Book<O, L, F> = Book(order: seq<string>, objects: map<string, O>, active: Option<string>,
                                locks: map<Key, L>, inflight: map<Key, F>, groups: set<string>)

  const EMPTY_ORDER: seq<string> := []

  function Without(s: seq<string>, a: string): seq<string> {
    if s == [] then [] else (if s[0] == a then [] else [s[0]]) + Without(s[1..], a)
  }

  /** add_account's bookkeeping: an account already present keeps its place in the order. */
  function Adopt<O, L, F>(b: Book<O, L, F>, a: string, o: O): Book<O, L, F> {
    var objects := b.objects[a := o];
    b.(order := if a in b.objects then b.order else b.order + [a],
       objects := objects,
       active := if |objects| == 1 then Some(a) else b.active)
  }

  function Switch<O, L, F>(b: Book<O, L, F>, a: string): Book<O, L, F> {
    b.(active := Some(a))
  }

  /** sign_out's bookkeeping, after its awaits. */
  function Drop<O, L, F>(b: Book<O, L, F>, a: string): Book<O, L, F> {
    var order := Without(b.order, a);
    Book(order,
         b.objects - {a},
         if b.active != Some(a) then b.active else if order == [] then None else Some(order[0]),
         map k | k in b.locks && k.account != a :: b.locks[k],
         map k | k in b.inflight && k.account != a :: b.inflight[k],
         b.groups - {a})
  }

  ghost predicate Distinct(s: seq<string>) {
    forall i, j :: 0 <= i < j < |s| ==> s[i] != s[j]
  }

  /** There is an active account exactly when there are accounts, and it is one of them. */
  ghost predicate Consistent<O, L, F>(b: Book<O, L, F>) {
    && Distinct(b.order)
    && (forall a :: a in b.order <==> a in b.objects)
    && (b.active == None <==> b.order == [])
    && (b.active.Some? ==> b.active.value in b.objects)
  }

  lemma {:induction false} WithoutProperties(s: seq<string>, a: string)
    ensures forall x :: x in Without(s, a) <==> x in s && x != a
    ensures Distinct(s) ==> Distinct(Without(s, a))
    decreases |s|
  {
    if s != [] {
      WithoutProperties(s[1..], a);
      assert s == [s[0]] + s[1..];
      var rest := Without(s[1..], a);
      if Distinct(s) {
        forall i, j | 0 <= i < j < |Without(s, a)| ensures Without(s, a)[i] != Without(s, a)[j] {
          if s[0] != a {
            assert rest[j - 1] in rest;
            if i > 0 { assert rest[i - 1] != rest[j - 1]; }
          }
        }
      }
    }
  }

  lemma AdoptConsistent<O, L, F>(b: Book<O, L, F>, a: string, o: O)
    requires Consistent(b)
    ensures Consistent(Adopt(b, a, o))
  {
    var c := Adopt(b, a, o);
    if b.order == [] {
      assert c.objects.Keys == {a};
    } else if |c.objects| == 1 {
      assert b.order[0] in c.objects && a in c.objects;
    }
  }

  lemma DropConsistent<O, L, F>(b: Book<O, L, F>, a: string)
    requires Consistent(b)
    ensures Consistent(Drop(b, a))
  {
    WithoutProperties(b.order, a);
    var c := Drop(b, a);
    if c.order != [] { assert c.order[0] in c.order; }
  }

  /** Who is active when an account is gone. */
  lemma DroppedActive<O, L, F>(b: Book<O, L, F>, a: string)
    requires Consistent(b)
    ensures var c := Drop(b, a);
            && (c.objects == map[] <==> c.order == [])
            && c.active == if b.active != Some(a) then b.active else if c.objects == map[] then None else Some(c.order[0])
  {
    DropConsistent(b, a);
    var c := Drop(b, a);
    if c.order != [] {
      assert c.order[0] in c.order && c.order[0] in c.objects;
    } else {
      assert forall x :: x !in c.objects;
    }
  }

  /** switch_active_account does not check its argument: the books stay consistent exactly when it
      is called with a known account. */
  lemma SwitchConsistentIff<O, L, F>(b: Book<O, L, F>, a: string)
    requires Consistent(b)
    ensures Consistent(Switch(b, a)) <==> a in b.objects
  {
    if a in b.objects { assert a in b.order; }
  }

  /** What sign-out leaves: nothing of the account in any table, everything of the others. */
  lemma DropEffects<O, L, F>(b: Book<O, L, F>, a: string)
    ensures var c := Drop(b, a);
            && a !in c.objects && a !in c.groups && a !in c.order && c.active != Some(a)
            && (forall k :: k in c.locks || k in c.inflight ==> k.account != a)
            && (forall x :: x != a ==> (x in c.objects <==> x in b.objects) && (x in b.objects ==> c.objects[x] == b.objects[x]))
            && (forall k: Key :: k.account != a ==>
                  (k in c.locks <==> k in b.locks) && (k in b.locks ==> c.locks[k] == b.locks[k]))
            && (forall k: Key :: k.account != a ==>
                  (k in c.inflight <==> k in b.inflight) && (k in b.inflight ==> c.inflight[k] == b.inflight[k]))
  {
    WithoutProperties(b.order, a);
    var c := Drop(b, a);
    if c.order != [] { assert c.order[0] in c.order; }
  }

  function Restored<O, L, F>(b: Book<O, L, F>, a: string, o: O): Book<O, L, F> {
    b.(order := if a in b.objects then b.order else b.order + [a],
       objects := b.objects[a := o],
       active := if b.active == None then Some(a) else b.active)
  }

  lemma RestoredConsistent<O, L, F>(b: Book<O, L, F>, a: string, o: O)
    requires Consistent(b)
    ensures Consistent(Restored(b, a, o))
  {
  }

  /** Listed with that hint, and taken to be active. */
  predicate FromCache(cached: seq<(string, Option<string>)>, a: string, view: AuthState.Account) {
    (a, view.loginHint) in cached && view == AuthState.Account(AuthState.Active, None, None, 0, view.loginHint)
  }

  function Ids(cached: seq<(string, Option<string>)>): set<string> {
    set c | c in cached :: c.0
  }

  lemma IdsAppend(cached: seq<(string, Option<string>)>, c: (string, Option<string>))
    ensures Ids(cached + [c]) == Ids(cached) + {c.0}
  {
    assert forall x :: x in cached ==> x in cached + [c];
    assert c in cached + [c];
  }

  lemma IdsOfNext(cached: seq<(string, Option<string>)>, i: nat)
    requires i < |cached|
    ensures Ids(cached[..i + 1]) == Ids(cached[..i]) + {cached[i].0}
  {
    assert cached[..i + 1] == cached[..i] + [cached[i]];
    IdsAppend(cached[..i], cached[i]);
  }

  lemma IdsOfAll(cached: seq<(string, Option<string>)>)
    ensures Ids(cached[..|cached|]) == Ids(cached)
  {
    assert cached[..|cached|] == cached;
  }

  lemma AloneIff<O>(m: map<string, O>, a: string, o: O)
    ensures |m[a := o]| == 1 <==> forall x :: x in m ==> x == a
  {
    var n := m[a := o];
    assert n.Keys == m.Keys + {a} && |n| == |n.Keys|;
    if forall x :: x in m ==> x == a { assert n.Keys == {a}; }
    if |n| == 1 {
      assert |n.Keys - {a}| == 0;
      assert forall x :: x in m ==> x in n.Keys;
    }
  }

  /** The keys of a table that belong to one account, in some order. */
  method KeysOf<V>(table: map<Key, V>, id: string) returns (keys: seq<Key>)
    ensures forall k :: k in keys <==> k in table && k.account == id
  {
    keys := [];
    var rest := table.Keys;
    while rest != {}
      invariant rest <= table.Keys
      invariant forall k :: k in keys <==> k in table && k !in rest && k.account == id
      decreases rest
    {
      var k :| k in rest;
      rest := rest - {k};
      if k.account == id {
        keys := keys + [k];
      }
    }
  }

  /** Dropping one account's keys from a table, key by key. */
  method Purge<V>(table: map<Key, V>, id: string) returns (kept: map<Key, V>)
    ensures kept == map k | k in table && k.account != id :: table[k]
  {
    var keys := KeysOf(table, id);
    kept := table;
    for i := 0 to |keys|
      invariant forall k :: k in kept <==> k in table && k !in keys[..i]
      invariant forall k :: k in kept ==> kept[k] == table[k]
    {
      kept := kept - {keys[i]};
      assert keys[..i + 1] == keys[..i] + [keys[i]];
    }
    assert keys[..|keys|] == keys;
  }

  class Lock {
    constructor () {}
  }

  class Future {
    constructor () {}
  }

  class AuthManager {
    var order: seq<string>
    var accounts: map<string, AuthState.AccountAuthState>
    var activeAccountId: Option<string>
    var silentLocks: map<Key, Lock>
    var silentInflight: map<Key, Future>
    var groups: set<string>
    var notified: seq<string>

    ghost function View(): Book<AuthState.AccountAuthState, Lock, Future>
      reads this
    {
      Book(order, accounts, activeAccountId, silentLocks, silentInflight, groups)
    }

    constructor ()
      ensures View() == Book(EMPTY_ORDER, map[], None, map[], map[], {}) && notified == []
      ensures Consistent(View())
    {
      order, accounts, activeAccountId := [], map[], None;
      silentLocks, silentInflight, groups, notified := map[], map[], {}, [];
    }

    method Store(id: string, state: AuthState.AccountAuthState)
      modifies this`order, this`accounts
      ensures order == if id in old(accounts) then old(order) else old(order) + [id]
      ensures accounts == old(accounts)[id := state]
    {
      if id !in accounts {
        order := order + [id];
      }
      accounts := accounts[id := state];
    }

    /** One account of start's rebuild: it is marked active, and it becomes the active account if
        there is none yet. */
    method RestoreAccount(id: string, hint: Option<string>) returns (state: AuthState.AccountAuthState)
      requires Consistent(View())
      modifies this`order, this`accounts, this`activeAccountId
      ensures fresh(state) && state.View() == AuthState.Account(AuthState.Active, None, None, 0, hint)
      ensures order == if id in old(accounts) then old(order) else old(order) + [id]
      ensures accounts == old(accounts)[id := state] && accounts.Keys == old(accounts.Keys) + {id} && Consistent(View())
      ensures activeAccountId == if old(activeAccountId) == None then Some(id) else old(activeAccountId)
    {
      ghost var was := View();
      state := new AuthState.AccountAuthState(hint);
      state.MarkActive(None);
      Store(id, state);
      if activeAccountId == None {
        activeAccountId := Some(id);
      }
      RestoredConsistent(was, id, state);
      assert View() == Restored(was, id, state);
    }

    /** The first `i` accounts listed are there, each with a hint it was listed with. */
    ghost predicate Rebuilt(cached: seq<(string, Option<string>)>, i: nat)
      requires i <= |cached|
      reads this, accounts.Values
    {
      && Consistent(View()) && accounts.Keys == Ids(cached[..i])
      && (forall a :: a in accounts ==> FromCache(cached, a, accounts[a].View()))
      && activeAccountId == if i == 0 then None else Some(cached[0].0)
    }

    method RestoreNext(cached: seq<(string, Option<string>)>, i: nat)
      requires i < |cached| && Rebuilt(cached, i)
      modifies this`order, this`accounts, this`activeAccountId
      ensures Rebuilt(cached, i + 1)
      ensures forall a :: a in accounts ==> fresh(accounts[a]) || (a in old(accounts) && accounts[a] == old(accounts)[a])
    {
      var state := RestoreAccount(cached[i].0, cached[i].1);
      assert cached[i] == (cached[i].0, cached[i].1) && FromCache(cached, cached[i].0, state.View());
      IdsOfNext(cached, i);
    }

    /** start's rebuild from the token cache: the accounts are those cached, all active, and the
        first one listed is the active account. */
    method Rebuild(cached: seq<(string, Option<string>)>)
      modifies this`order, this`accounts, this`activeAccountId, this`notified
      ensures Consistent(View())
      ensures accounts.Keys == Ids(cached)
      ensures activeAccountId == if cached == [] then None else Some(cached[0].0)
      ensures forall a :: a in accounts ==> FromCache(cached, a, accounts[a].View())
      ensures notified == old(notified) + if cached == [] then [] else [cached[0].0]
    {
      order, accounts, activeAccountId := [], map[], None;
      for i := 0 to |cached|
        modifies this`order, this`accounts, this`activeAccountId
        invariant Rebuilt(cached, i) && forall a :: a in accounts ==> fresh(accounts[a])
      {
        RestoreNext(cached, i);
      }
      IdsOfAll(cached);
      if activeAccountId.Some? {
        notified := notified + [activeAccountId.value];
      }
    }

    /** add_account once the code exchange has succeeded. */
    method AddAccount(id: string, hint: Option<string>) returns (state: AuthState.AccountAuthState)
      modifies this`order, this`accounts, this`activeAccountId, this`notified
      ensures fresh(state) && state.View() == AuthState.Account(AuthState.Active, None, None, 0, hint)
      ensures accounts == old(accounts)[id := state] && order == if id in old(accounts) then old(order) else old(order) + [id]
      ensures activeAccountId == if forall a :: a in old(accounts) ==> a == id then Some(id) else old(activeAccountId)
      ensures notified == old(notified) + if forall a :: a in old(accounts) ==> a == id then [id] else []
      ensures View() == Adopt(old(View()), id, state)
      ensures old(Consistent(View())) ==> Consistent(View())
    {
      ghost var was := View();
      state := new AuthState.AccountAuthState(hint);
      state.MarkActive(hint);
      Store(id, state);
      AloneIff(was.objects, id, state);
      if |accounts| == 1 {
        activeAccountId := Some(id);
        notified := notified + [id];
      }
      assert View() == Adopt(was, id, state);
      if Consistent(was) { AdoptConsistent(was, id, state); }
    }

    /** `cancelled` is the account whose task group is cancelled, before listeners are told. */
    method SwitchActiveAccount(id: string) returns (cancelled: Option<string>)
      modifies this`activeAccountId, this`notified
      ensures View() == Switch(old(View()), id) && activeAccountId == Some(id)
      ensures cancelled == if old(activeAccountId) == Some(id) then None else old(activeAccountId)
      ensures notified == old(notified) + if old(activeAccountId) == Some(id) then [] else [id]
    {
      if Some(id) == activeAccountId {
        return None;
      }
      cancelled := activeAccountId;
      activeAccountId := Some(id);
      notified := notified + [id];
    }

    method RemoveEntry(id: string)
      requires Consistent(View())
      modifies this`order, this`accounts
      modifies if id in accounts then {accounts[id]} else {}
      ensures accounts == old(accounts) - {id} && order == Without(old(order), id)
      ensures id in old(accounts) ==> old(accounts)[id].View() == AuthState.Fresh(None)
    {
      if id in accounts {
        var removed := accounts[id];
        accounts := accounts - {id};
        order := Without(order, id);
        removed.SignOut();
        assert removed == old(accounts)[id];
      } else {
        WithoutAbsent(order, id);
        assert accounts - {id} == accounts;
      }
    }

    /** sign_out after its awaits: the account and everything kept under its id go, and the removed
        state object is told it is signed out. */
    method DropAccount(id: string)
      requires Consistent(View())
      modifies this`order, this`accounts, this`activeAccountId, this`silentLocks, this`silentInflight, this`groups
      modifies if id in accounts then {accounts[id]} else {}
      ensures View() == Drop(old(View()), id) && Consistent(View())
      ensures accounts == old(accounts) - {id} && groups == old(groups) - {id}
      ensures activeAccountId == if old(activeAccountId) != Some(id) then old(activeAccountId)
                                 else if accounts == map[] then None else Some(order[0])
      ensures id in old(accounts) ==> old(accounts)[id].View() == AuthState.Fresh(None)
    {
      ghost var was := View();
      RemoveEntry(id);
      silentLocks := Purge(silentLocks, id);
      silentInflight := Purge(silentInflight, id);
      if activeAccountId == Some(id) {
        activeAccountId := if order == [] then None else Some(order[0]);
      }
      groups := groups - {id};
      DropConsistent(was, id);
      DroppedActive(was, id);
    }

    /** The synchronous opening of acquire_token_silently: the shared future to follow, or else the
        key's one lock, created on first use. */
    method JoinOrLock(key: Key) returns (shared: Future?, lock: Lock?)
      modifies this`silentLocks
      ensures shared != null <==> key in silentInflight
      ensures shared != null ==> shared == silentInflight[key] && View() == old(View())
      ensures shared == null ==> lock != null && silentLocks == old(silentLocks)[key := lock]
      ensures shared == null && key in old(silentLocks) ==> lock == old(silentLocks)[key]
      ensures shared == null && key !in old(silentLocks) ==> fresh(lock)
    {
      shared, lock := null, null;
      if key in silentInflight {
        shared := silentInflight[key];
        return;
      }
      if key !in silentLocks {
        var created := new Lock();
        silentLocks := silentLocks[key := created];
      }
      lock := silentLocks[key];
    }

    /** The re-check under the lock: follow what is there, or register a new future and lead. */
    method FollowOrLead(key: Key) returns (future: Future, leads: bool)
      modifies this`silentInflight
      ensures leads <==> key !in old(silentInflight)
      ensures leads ==> fresh(future)
      ensures silentInflight == old(silentInflight)[key := future]
    {
      if key in silentInflight {
        return silentInflight[key], false;
      }
      future := new Future();
      silentInflight := silentInflight[key := future];
      leads := true;
    }

    /** The leader's last act removes the key, whichever future is under it by then. */
    method Retire(key: Key)
      modifies this`silentInflight
      ensures silentInflight == old(silentInflight) - {key}
    {
      silentInflight := silentInflight - {key};
    }
  }

  lemma {:induction false} WithoutAbsent(s: seq<string>, a: string)
    requires a !in s
    ensures Without(s, a) == s
    decreases |s|
  {
    if s != [] {
      WithoutAbsent(s[1..], a);
      assert s == [s[0]] + s[1..];
    }
  }
}
