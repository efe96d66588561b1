/**
 One callback under its resource locks: names are de-duplicated and taken in
 sorted order, released in reverse, and the connection is destroyed when a
 release fails.
 */
module Locks {
  import opened Repositories
  import opened Work

  /** How a GET_LOCK looked to the client; `granted` is what the server did when the client saw an error. */
  datatype Answer = Granted | Refused | Broke(granted: bool)

  function Names(keys: seq<Resource>, name: Resource -> Name): set<Name> {
    set k | k in keys :: name(k)
  }

  /** The locks the client knows it has: everything up to the first one it did not get. */
  ghost function Acquired(names: set<Name>, get: Name -> Answer): set<Name> {
    set n | n in names && forall m :: m in names && m <= n ==> get(m) == Granted
  }

  /** The lock, if any, that was granted while the client saw an error. */
  ghost function Unnoticed(names: set<Name>, get: Name -> Answer): set<Name> {
    set n | n in names && get(n) == Broke(true) && forall m :: m in names && m < n ==> get(m) == Granted
  }

  /** The lock granted at position `i` although the client saw an error. */
  function Extra(names: seq<Name>, i: nat, get: Name -> Answer): set<Name> {
    if i < |names| && get(names[i]) == Broke(true) then {names[i]} else {}
  }

  method AcquireAll(names: seq<Name>, get: Name -> Answer) returns (acquired: seq<Name>, held: set<Name>)
    ensures |acquired| <= |names| && acquired == names[..|acquired|]
    ensures forall k :: 0 <= k < |acquired| ==> get(names[k]) == Granted
    ensures |acquired| < |names| ==> get(names[|acquired|]) != Granted
    ensures held == SetOf(acquired) + Extra(names, |acquired|, get)
  {
    acquired, held := [], {};
    for i := 0 to |names|
      invariant acquired == names[..i] && held == SetOf(acquired)
      invariant forall k :: 0 <= k < i ==> get(names[k]) == Granted
    {
      match get(names[i])
      case Granted =>
        SetOfSnoc(acquired, names[i]);
        held := held + {names[i]};
        acquired := acquired + [names[i]];
      case Refused =>
        return;
      case Broke(granted) =>
        if granted {
          held := held + {names[i]};
        }
        return;
    }
  }

  /** Reverse release; the first failure destroys the connection, and the server drops what it held. */
  method ReleaseAll(acquired: seq<Name>, before: set<Name>, release: Name -> bool)
    returns (held: set<Name>, destroyed: bool)
    requires StrictlyIncreasing(acquired) && SetOf(acquired) <= before
    ensures destroyed <==> exists n :: n in SetOf(acquired) && !release(n)
    ensures held == if destroyed then {} else before - SetOf(acquired)
  {
    held, destroyed := before, false;
    for left := |acquired| downto 0
      invariant held == before - (SetOf(acquired) - SetOf(acquired[..left]))
      invariant forall k :: left <= k < |acquired| ==> release(acquired[k])
    {
      if !release(acquired[left]) {
        assert acquired[left] in SetOf(acquired);
        return {}, true;
      }
      assert acquired[..left + 1] == acquired[..left] + [acquired[left]];
      SetOfSnoc(acquired[..left], acquired[left]);
      assert acquired[left] !in SetOf(acquired[..left]);
      held := held - {acquired[left]};
    }
    forall n | n in SetOf(acquired) ensures release(n) {
      var k :| 0 <= k < |acquired| && acquired[k] == n;
    }
  }

  /**
   `during` are the locks held while the callback ran, `held` the ones the session still holds
   when the connection is handed back: none, unless one was granted although the client saw an
   error and every release of the others succeeded.
   */
  method WithResourceLocks(keys: seq<Resource>, name: Resource -> Name, get: Name -> Answer, release: Name -> bool)
    returns (ran: bool, during: set<Name>, held: set<Name>, destroyed: bool)
    ensures ran <==> forall n :: n in Names(keys, name) ==> get(n) == Granted
    ensures ran ==> during == Names(keys, name)
    ensures destroyed <==> exists n :: n in Acquired(Names(keys, name), get) && !release(n)
    ensures held == if destroyed then {} else Unnoticed(Names(keys, name), get)
    ensures held != {} <==>
              && Unnoticed(Names(keys, name), get) != {}
              && forall n :: n in Acquired(Names(keys, name), get) ==> release(n)
  {
    var names := SortedIds(Names(keys, name));
    var acquired;
    acquired, during := AcquireAll(names, get);
    AcquiredIsPrefix(Names(keys, name), names, |acquired|, get);
    UnnoticedIsNext(Names(keys, name), names, |acquired|, get);
    AllGranted(Names(keys, name), names, |acquired|, get);
    ran := |acquired| == |names|;
    assert ran ==> acquired == names;
    assert |acquired| < |names| ==> names[|acquired|] !in SetOf(acquired);
    held, destroyed := ReleaseAll(acquired, during, release);
  }

  /** The acquisition loop stopped at position `i`: everything before it was granted, and it was not. */
  ghost predicate StoppedAt(all: set<Name>, names: seq<Name>, i: nat, get: Name -> Answer) {
    && SetOf(names) == all && StrictlyIncreasing(names) && i <= |names|
    && (forall k :: 0 <= k < i ==> get(names[k]) == Granted)
    && (i < |names| ==> get(names[i]) != Granted)
  }

  /** The name at position `k`, and the smaller ones. */
  lemma SmallerNames(all: set<Name>, names: seq<Name>, i: nat, get: Name -> Answer, k: nat)
    requires StoppedAt(all, names, i, get) && k < |names|
    ensures names[k] in all
    ensures (forall m :: m in all && m < names[k] ==> get(m) == Granted) <==> k <= i
  {
    assert names[k] in SetOf(names);
    if k <= i {
      forall m | m in all && m < names[k] ensures get(m) == Granted {
        var j :| 0 <= j < |names| && names[j] == m;
      }
    } else {
      assert names[i] in SetOf(names) && names[i] < names[k];
    }
  }

  lemma AcquiredIsPrefix(all: set<Name>, names: seq<Name>, i: nat, get: Name -> Answer)
    requires StoppedAt(all, names, i, get)
    ensures SetOf(names[..i]) == Acquired(all, get)
  {
    forall n ensures n in SetOf(names[..i]) <==> n in Acquired(all, get) {
      if n in SetOf(names[..i]) {
        var k :| 0 <= k < i && names[..i][k] == n;
        SmallerNames(all, names, i, get, k);
      }
      if n in Acquired(all, get) {
        var k :| 0 <= k < |names| && names[k] == n;
        SmallerNames(all, names, i, get, k);
        assert names[..i][k] == n;
      }
    }
  }

  lemma UnnoticedIsNext(all: set<Name>, names: seq<Name>, i: nat, get: Name -> Answer)
    requires StoppedAt(all, names, i, get)
    ensures Unnoticed(all, get) == Extra(names, i, get)
  {
    if i < |names| {
      SmallerNames(all, names, i, get, i);
    }
    forall n | n in Unnoticed(all, get) ensures n in Extra(names, i, get) {
      var k :| 0 <= k < |names| && names[k] == n;
      SmallerNames(all, names, i, get, k);
    }
  }

  lemma AllGranted(all: set<Name>, names: seq<Name>, i: nat, get: Name -> Answer)
    requires StoppedAt(all, names, i, get)
    ensures i == |names| <==> forall n :: n in all ==> get(n) == Granted
  {
    if i < |names| {
      assert names[i] in SetOf(names);
    } else {
      forall n | n in all ensures get(n) == Granted {
        var k :| 0 <= k < |names| && names[k] == n;
      }
    }
  }

  /** One lock, granted although the client saw an error: the connection goes back to the pool holding it. */
  method LeakExample() returns (held: set<Name>, destroyed: bool)
    ensures held == {7} && !destroyed
  {
    var keys := [ServiceLock(0)];
    var name: Resource -> Name, get: Name -> Answer := _ => 7, _ => Broke(true);
    assert keys[0] in keys && Names(keys, name) == {7};
    assert Acquired({7}, get) == {} && Unnoticed({7}, get) == {7};
    var ran, during;
    ran, during, held, destroyed := WithResourceLocks(keys, name, get, _ => true);
  }
}
