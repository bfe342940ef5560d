/** The page layout's clean-up of the sign-in handshake: after the identity
    provider redirects back, its handshake parameters are removed from the
    address by navigating to the bare path. */
module LayoutPage {
  import opened Wrappers

  /** A query string as `URLSearchParams` holds it: ordered name/value
      entries, a name possibly repeated. */
  type Params = seq<(string, string)>

  const HandshakeKeys := ["__clerk_handshake", "__clerk_redirect_url", "__clerk_session_id"]

  datatype Location = Location(pathname: string, search: Params)

  /** `navigate(to, { replace })` */
  datatype Navigation = Navigation(to: string, replace: bool)

  /** `params.has(key)` */
  predicate Has(ps: Params, key: string)
  {
    exists k :: 0 <= k < |ps| && ps[k].0 == key
  }

  /** `has` holds exactly when some entry carries the name. */
  lemma HasMember(ps: Params, key: string)
    ensures Has(ps, key) <==> exists e :: e in ps && e.0 == key
  {
    if Has(ps, key) {
      var k :| 0 <= k < |ps| && ps[k].0 == key;
      assert ps[k] in ps;
    }
  }

  /** `params.delete(key)`: every entry with that name goes, every other
      entry stays, as often as it occurred (`DeleteCounts`) and in its
      order (`DeleteConcat`). */
  function Delete(ps: Params, key: string): (r: Params)
    ensures !Has(r, key)
    ensures forall e :: e in r <==> e in ps && e.0 != key
    ensures |r| <= |ps|
    ensures !Has(ps, key) ==> r == ps
  {
    if ps == [] then []
    else
      var rest := Delete(ps[1..], key);
      assert ps == [ps[0]] + ps[1..];
      if ps[0].0 == key then rest else [ps[0]] + rest
  }

  /** Each entry with another name is kept as many times as it occurred. */
  lemma {:induction false} DeleteCounts(ps: Params, key: string)
    ensures forall e :: multiset(Delete(ps, key))[e] == if e.0 == key then 0 else multiset(ps)[e]
    decreases |ps|
  {
    if ps != [] {
      DeleteCounts(ps[1..], key);
      assert ps == [ps[0]] + ps[1..];
      assert multiset(ps) == multiset([ps[0]]) + multiset(ps[1..]);
      if ps[0].0 != key {
        var rest := Delete(ps[1..], key);
        assert multiset([ps[0]] + rest) == multiset([ps[0]]) + multiset(rest);
      }
    }
  }

  /** Deleting from a concatenation deletes from each part and keeps the
      parts in order; with `Delete` on one entry, this fixes the result
      entry by entry: the kept entries stay in their original order. */
  lemma {:induction false} DeleteConcat(a: Params, b: Params, key: string)
    ensures Delete(a + b, key) == Delete(a, key) + Delete(b, key)
    decreases |a|
  {
    if a != [] {
      assert (a + b)[1..] == a[1..] + b;
      DeleteConcat(a[1..], b, key);
    } else {
      assert a + b == b;
    }
  }

  /** Deleting the names of `keys` one after another. */
  function DeleteAll(ps: Params, keys: seq<string>): (r: Params)
    ensures |r| <= |ps|
    ensures keys != [] ==> !Has(r, keys[|keys| - 1])
  {
    if keys == [] then ps
    else Delete(DeleteAll(ps, keys[..|keys| - 1]), keys[|keys| - 1])
  }

  /** After deleting `keys`, exactly the entries with other names remain,
      and a name outside `keys` is present iff it was before. */
  lemma {:induction false} DeleteAllKeeps(ps: Params, keys: seq<string>)
    ensures forall e :: e in DeleteAll(ps, keys) <==> e in ps && e.0 !in keys
    ensures forall key :: Has(DeleteAll(ps, keys), key) <==> Has(ps, key) && key !in keys
  {
    if keys != [] {
      var init := keys[..|keys| - 1];
      DeleteAllKeeps(ps, init);
      assert keys == init + [keys[|keys| - 1]];
      var r := DeleteAll(ps, keys);
      forall key
        ensures Has(r, key) <==> Has(ps, key) && key !in keys
      {
        if Has(r, key) {
          var k :| 0 <= k < |r| && r[k].0 == key;
          assert r[k] in r;
        }
        if Has(ps, key) && key !in keys {
          var k :| 0 <= k < |ps| && ps[k].0 == key;
          assert ps[k] in ps;
          assert ps[k] in r;
        }
      }
    }
  }

  /** A name outside `keys` survives deleting them exactly when it was there. */
  lemma HasAfterDeleteAll(ps: Params, keys: seq<string>, key: string)
    requires key !in keys
    ensures Has(DeleteAll(ps, keys), key) == Has(ps, key)
  {
    DeleteAllKeeps(ps, keys);
  }

  /** The effect that runs on every change of location: each handshake
      parameter present is deleted and noted; if any was, the page replaces
      the current history entry with the bare path, dropping the whole query
      string, and otherwise it does not navigate. */
  method StripHandshake(location: Location) returns (params: Params, changed: bool, nav: Option<Navigation>)
    ensures params == DeleteAll(location.search, HandshakeKeys)
    ensures forall key :: key in HandshakeKeys ==> !Has(params, key)
    ensures forall e :: e in params <==> e in location.search && e.0 !in HandshakeKeys
    ensures changed <==> exists key :: key in HandshakeKeys && Has(location.search, key)
    ensures changed ==> nav == Some(Navigation(location.pathname, true))
    ensures !changed ==> nav == None
  {
    params := location.search;
    changed := false;
    for i := 0 to |HandshakeKeys|
      invariant params == DeleteAll(location.search, HandshakeKeys[..i])
      invariant changed <==> exists j :: 0 <= j < i && Has(location.search, HandshakeKeys[j])
    {
      var p := HandshakeKeys[i];
      assert p !in HandshakeKeys[..i];
      HasAfterDeleteAll(location.search, HandshakeKeys[..i], p);
      assert HandshakeKeys[..i + 1][..i] == HandshakeKeys[..i];
      if Has(params, p) {
        params := Delete(params, p);
        changed := true;
      }
    }
    assert HandshakeKeys[..|HandshakeKeys|] == HandshakeKeys;
    DeleteAllKeeps(location.search, HandshakeKeys);
    if changed {
      nav := Some(Navigation(location.pathname, true));
    } else {
      nav := None;
    }
  }
}
