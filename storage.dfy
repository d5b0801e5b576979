/** AsyncStorage, `window.localStorage` and the Expo document directory,
    collapsed into one string-keyed store. A file is stored under its file
    name. Whether a storage operation throws is decided by the caller: each
    screen operation receives `failAt`, the position (counting from 0) of
    the first storage operation of that call that throws, if any. */
module Storage {
  import opened Wrappers

  class KeyValueStore {
    var items: map<string, string>

    constructor (initial: map<string, string>)
      ensures items == initial
    {
      items := initial;
    }

    /** `setItem(key, value)` / `writeAsStringAsync`: a write that does not
        throw stores the value; one that throws changes nothing. */
    method SetItem(key: string, value: string, fails: bool) returns (ok: bool)
      modifies this
      ensures ok == !fails
      ensures items == if ok then old(items)[key := value] else old(items)
    {
      ok := !fails;
      if ok {
        items := items[key := value];
      }
    }

    /** `getItem(key)`: the stored string or `null`, unless the read throws. */
    method GetItem(key: string, fails: bool) returns (r: Result<Option<string>>)
      ensures r.Failed? <==> fails
      ensures r.Ok? ==> r.value == Lookup(items, key)
    {
      if fails {
        r := Failed;
      } else {
        r := Ok(Lookup(items, key));
      }
    }

    /** Three writes awaited one after the other: the first one that
        throws ends the sequence, and the writes before it stay done. */
    method SetItemsInTurn(w0: (string, string), w1: (string, string), w2: (string, string),
                          failAt: Option<nat>) returns (ok: bool)
      modifies this
      ensures items == Applied(old(items), [w0, w1, w2][..Completed(failAt, 3)])
      ensures ok <==> Completed(failAt, 3) == 3
    {
      ghost var writes := [w0, w1, w2];
      assert writes[..0] == [];
      ok := SetItem(w0.0, w0.1, FailsAt(failAt, 0));
      if !ok {
        return;
      }
      AppliedNext(old(items), writes, 0);
      ok := SetItem(w1.0, w1.1, FailsAt(failAt, 1));
      if !ok {
        return;
      }
      AppliedNext(old(items), writes, 1);
      ok := SetItem(w2.0, w2.1, FailsAt(failAt, 2));
      if !ok {
        return;
      }
      AppliedNext(old(items), writes, 2);
      assert writes[..3] == writes;
    }

    /** `AsyncStorage.clear()`. */
    method Clear(fails: bool) returns (ok: bool)
      modifies this
      ensures ok == !fails
      ensures items == if ok then map[] else old(items)
    {
      ok := !fails;
      if ok {
        items := map[];
      }
    }
  }

  /** The stored string under `key`, or `None` (`null`). */
  function Lookup(items: map<string, string>, key: string): (r: Option<string>)
    ensures r.Some? <==> key in items
    ensures r.Some? ==> r.value == items[key]
  {
    if key in items then Some(items[key]) else None
  }

  /** A stored string that JavaScript treats as true: present and not empty. */
  predicate IsTruthy(v: Option<string>) {
    v.Some? && v.value != ""
  }

  /** `@user_name`: the name given on the welcome screen. */
  const USER_NAME := "@user_name"

  /** The `op`-th storage operation of a call throws. */
  predicate FailsAt(failAt: Option<nat>, op: nat) {
    failAt == Some(op)
  }

  /** `order` lists every stored key exactly once: what `Object.keys` and
      `readDirectoryAsync` give, in an order the platform chooses. */
  predicate IsEnumeration(order: seq<string>, items: map<string, string>) {
    && (forall i, j :: 0 <= i < j < |order| ==> order[i] != order[j])
    && (forall k :: k in order ==> k in items)
    && (forall k :: k in items ==> k in order)
  }

  /** How many of `n` sequential storage operations complete: all of them,
      or those before the first one that throws. */
  function Completed(failAt: Option<nat>, n: nat): (done: nat)
    ensures done <= n
    ensures done < n <==> failAt.Some? && failAt.value < n
    ensures done < n ==> FailsAt(failAt, done)
  {
    if failAt.Some? && failAt.value < n then failAt.value else n
  }

  /** The store after the `(key, value)` writes, made one after the other. */
  function Applied(items: map<string, string>, writes: seq<(string, string)>): (r: map<string, string>)
    decreases |writes|
  {
    if writes == [] then items
    else
      var last := writes[|writes| - 1];
      Applied(items, writes[..|writes| - 1])[last.0 := last.1]
  }

  /** A key that none of the writes names keeps its old value. */
  lemma {:induction false} AppliedUntouched(items: map<string, string>, writes: seq<(string, string)>, key: string)
    requires forall i :: 0 <= i < |writes| ==> writes[i].0 != key
    ensures Lookup(Applied(items, writes), key) == Lookup(items, key)
    decreases |writes|
  {
    if writes != [] {
      AppliedUntouched(items, writes[..|writes| - 1], key);
    }
  }

  /** A key holds the value of the last write that names it. */
  lemma {:induction false} AppliedWritten(items: map<string, string>, writes: seq<(string, string)>, i: nat)
    requires i < |writes|
    requires forall j :: i < j < |writes| ==> writes[j].0 != writes[i].0
    ensures Lookup(Applied(items, writes), writes[i].0) == Some(writes[i].1)
    decreases |writes|
  {
    if i < |writes| - 1 {
      AppliedWritten(items, writes[..|writes| - 1], i);
    }
  }

  /** Performing one more write of the list. */
  lemma AppliedNext(items: map<string, string>, writes: seq<(string, string)>, k: nat)
    requires k < |writes|
    ensures Applied(items, writes[..k + 1]) == Applied(items, writes[..k])[writes[k].0 := writes[k].1]
  {
    assert writes[..k + 1][..k] == writes[..k];
  }
}
