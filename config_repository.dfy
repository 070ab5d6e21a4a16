/** The configuration repository (pkg/core/config_repository.go): a key/value
    store namespaced under `config:` in a shared backing store, with a registry
    of prefix watches that every successful `Set` is fanned out to. */
module ConfigRepository {
  import opened Base

  const ConfigBucket: string := "config"

  /** The backing-store key of configuration key `key`: `config:<key>`. */
  function BackingKey(key: string): (r: string)
    ensures HasPrefix(r, ConfigBucket + ":")
    ensures r[|ConfigBucket| + 1..] == key
  {
    ConfigBucket + ":" + key
  }

  lemma BackingKeyInjective(a: string, b: string)
    requires BackingKey(a) == BackingKey(b)
    ensures a == b
  {
    assert a == BackingKey(a)[|ConfigBucket| + 1..];
  }

  /** The store the repository is wired to: none yet (a nil `Storage`), or a key/value
      map. A store whose `failure` is set answers every operation with that error. */
  datatype Backend = NoBackend | Store(data: map<string, string>, failure: Option<string>)

  /** A change fanned out to watchers; an empty value means the key was deleted. */
  datatype Change = Change(key: string, value: string)

  /** What a watch's receive loop takes from its channel or its context. */
  datatype WatchEvent = Received(change: Change, keepWatching: bool) | Cancelled

  /** The value stored under configuration key `key`; a missing key reads as "". */
  function Lookup(data: map<string, string>, key: string): string {
    if BackingKey(key) in data then data[BackingKey(key)] else ""
  }

  /** The store after `doSet(key, value)`: the empty value removes the key. */
  function Write(data: map<string, string>, key: string, value: string): (r: map<string, string>)
    ensures Lookup(r, key) == value
    ensures forall k :: k != key ==> Lookup(r, k) == Lookup(data, k)
    ensures value == "" ==> BackingKey(key) !in r
  {
    if value == "" then data - {BackingKey(key)} else data[BackingKey(key) := value]
  }

  /** The watches a change to `key` is delivered to: those whose prefix starts `key`. */
  function Subscribers(watches: map<int, string>, key: string): set<int> {
    set h | h in watches && HasPrefix(key, watches[h])
  }

  /** `GetProperty` as a function of the repository's state. */
  function Property(backend: Backend, shuttingDown: bool, key: string): (r: (string, bool))
    ensures r.1 <==> backend.Store? && !shuttingDown && backend.failure.None?
                     && Lookup(backend.data, key) != ""
    ensures r.0 == (if r.1 then Lookup(backend.data, key) else "")
  {
    if backend.NoBackend? || shuttingDown then ("", false)
    else if backend.failure.Some? then ("", false)
    else
      var value := Lookup(backend.data, key);
      if value == "" then ("", false) else (value, true)
  }

  /** The entries `EnumerateAll(prefix, ...)` offers its callback, in the store's key
      order: those under `config:<prefix>`, with `config:` stripped from the key. */
  function Listing(order: seq<string>, data: map<string, string>, prefix: string): seq<Change>
    requires forall k :: k in order ==> k in data
  {
    if order == [] then []
    else
      var head := if HasPrefix(order[0], BackingKey(prefix))
                  then [Change(order[0][|ConfigBucket| + 1..], data[order[0]])] else [];
      head + Listing(order[1..], data, prefix)
  }

  /** The entries a callback sees: everything up to and including the first it refuses. */
  function UntilRefused(entries: seq<Change>, cb: (string, string) -> bool): (r: seq<Change>)
    ensures |r| <= |entries| && r == entries[..|r|]
    ensures forall k :: 0 <= k < |r| - 1 ==> cb(r[k].key, r[k].value)
  {
    if entries == [] then []
    else if !cb(entries[0].key, entries[0].value) then [entries[0]]
    else [entries[0]] + UntilRefused(entries[1..], cb)
  }

  /** Every listed entry lies under the prefix and carries the stored value. */
  lemma {:induction false} ListingSound(order: seq<string>, data: map<string, string>, prefix: string)
    requires forall k :: k in order ==> k in data
    ensures forall c :: c in Listing(order, data, prefix) ==>
              HasPrefix(c.key, prefix) && BackingKey(c.key) in data && data[BackingKey(c.key)] == c.value
  {
    if order != [] {
      ListingSound(order[1..], data, prefix);
      var k := order[0];
      if HasPrefix(k, BackingKey(prefix)) {
        var stripped := k[|ConfigBucket| + 1..];
        assert BackingKey(stripped) == k;
        assert stripped[..|prefix|] == k[|ConfigBucket| + 1..|BackingKey(prefix)|];
      }
    }
  }

  /** Every stored key under the prefix is listed, with its value. */
  lemma {:induction false} ListingComplete(order: seq<string>, data: map<string, string>, prefix: string, key: string)
    requires forall k :: k in order ==> k in data
    requires BackingKey(key) in order && HasPrefix(key, prefix)
    ensures Change(key, data[BackingKey(key)]) in Listing(order, data, prefix)
  {
    if order[0] == BackingKey(key) {
      assert BackingKey(key)[..|BackingKey(prefix)|] == BackingKey(prefix);
    } else {
      ListingComplete(order[1..], data, prefix, key);
    }
  }

  /** The callback's view of a one-entry head followed by the rest of the listing. */
  lemma UntilRefusedCons(head: seq<Change>, rest: seq<Change>, cb: (string, string) -> bool)
    requires |head| <= 1
    ensures UntilRefused(head + rest, cb) ==
              if head == [] then UntilRefused(rest, cb)
              else if !cb(head[0].key, head[0].value) then head
              else head + UntilRefused(rest, cb)
  {
    if head != [] {
      assert (head + rest)[1..] == rest;
    } else {
      assert head + rest == rest;
    }
  }

  /** No watch can be registered before the counter first moves. */
  lemma NoWatchesBeforeFirst(watches: map<int, string>, watchNum: int)
    requires forall h :: h in watches ==> 1 <= h <= watchNum
    requires watchNum <= 0
    ensures watches == map[]
  {
    if watches != map[] {
      assert watches.Keys != {};
      var h := Pick(watches.Keys);
      assert false;
    }
  }

  lemma ListingStep(order: seq<string>, data: map<string, string>, prefix: string, i: nat)
    requires forall k :: k in order ==> k in data
    requires i < |order|
    ensures Listing(order[i..], data, prefix) ==
              (if HasPrefix(order[i], BackingKey(prefix))
               then [Change(order[i][|ConfigBucket| + 1..], data[order[i]])] else [])
              + Listing(order[i + 1..], data, prefix)
  {
    assert order[i..][1..] == order[i + 1..];
  }

  class Repository {
    var backend: Backend
    var watchNum: int
    var watches: map<int, string>
    var shuttingDown: bool

    /** Every registered handle was issued by the counter. */
    ghost predicate Valid()
      reads this
    {
      watchNum >= 0 && forall h :: h in watches ==> 1 <= h <= watchNum
    }

    constructor ()
      ensures Valid()
      ensures backend == NoBackend && watchNum == 0 && watches == map[] && !shuttingDown
    {
      backend := NoBackend;
      watchNum := 0;
      watches := map[];
      shuttingDown := false;
    }

    function Backend(): Backend
      reads this
    {
      backend
    }

    method SetBackend(storage: Backend)
      modifies this`backend
      ensures backend == storage
    {
      backend := storage;
    }

    /** `("", false)` without a store, after `Destroy`, on a store error or for an
        empty value; the stored value and true otherwise. */
    function GetProperty(key: string): (r: (string, bool))
      reads this
      ensures r == Property(backend, shuttingDown, key)
    {
      if backend.NoBackend? || shuttingDown then ("", false)
      else
        var value := Get(key);
        if value.Err? || value.value == "" then ("", false) else (value.value, true)
    }

    /** Reads backing key `config:<key>`. */
    function Get(key: string): (r: Result<string>)
      reads this
      requires backend.Store?
      ensures backend.failure.Some? ==> r == Err(backend.failure.value)
      ensures backend.failure.None? ==> r == Ok(Lookup(backend.data, key))
    {
      match backend.failure
      case Some(e) => Err(e)
      case None => Ok(if BackingKey(key) in backend.data then backend.data[BackingKey(key)] else "")
    }

    /** Writes `config:<key>` (removes it for the empty value) and, only when the write
        succeeded, delivers the change to every watch whose prefix starts the key. */
    method Set(key: string, value: string) returns (err: Option<string>, notified: set<int>)
      requires Valid() && backend.Store?
      modifies this`backend
      ensures Valid() && backend.Store?
      ensures old(backend.failure).Some? ==>
                err == old(backend.failure) && backend == old(backend) && notified == {}
      ensures old(backend.failure).None? ==>
                err == None && backend == Store(Write(old(backend.data), key, value), None)
                && notified == Subscribers(watches, key)
    {
      err := DoSet(key, value);
      notified := {};
      if err.Some? {
        return;
      }
      if watchNum != 0 {
        notified := NotifyAll(Change(key, value));
      } else {
        NoWatchesBeforeFirst(watches, watchNum);
      }
    }

    method DoSet(key: string, value: string) returns (err: Option<string>)
      requires backend.Store?
      modifies this`backend
      ensures backend.Store?
      ensures old(backend.failure).Some? ==> err == old(backend.failure) && backend == old(backend)
      ensures old(backend.failure).None? ==>
                err == None && backend == Store(Write(old(backend.data), key, value), None)
    {
      if backend.failure.Some? {
        err := backend.failure;
        return;
      }
      err := None;
      if value == "" {
        backend := backend.(data := backend.data - {BackingKey(key)});
      } else {
        backend := backend.(data := backend.data[BackingKey(key) := value]);
      }
    }

    /** Visits every registered watch and hands the change to those whose prefix matches. */
    method NotifyAll(e: Change) returns (notified: set<int>)
      ensures notified == Subscribers(watches, e.key)
    {
      notified := {};
      var rest := watches.Keys;
      while rest != {}
        invariant rest <= watches.Keys
        invariant notified == Subscribers(watches, e.key) - rest
        decreases rest
      {
        ghost var member := Pick(rest);  // `rest` is not empty, so a choice exists
        var h :| h in rest;
        if HasPrefix(e.key, watches[h]) {
          notified := notified + {h};
        }
        rest := rest - {h};
      }
    }

    /** Registers a watch under the next handle of the counter. */
    method RegisterWatch(prefix: string) returns (handle: int)
      requires Valid()
      modifies this`watchNum, this`watches
      ensures Valid()
      ensures handle == old(watchNum) + 1 && watchNum == handle
      ensures handle !in old(watches)
      ensures watches == old(watches)[handle := prefix]
    {
      watchNum := watchNum + 1;
      handle := watchNum;
      watches := watches[handle := prefix];
    }

    method UnregisterWatch(handle: int)
      requires Valid()
      modifies this`watches
      ensures Valid()
      ensures watches == old(watches) - {handle}
    {
      watches := watches - {handle};
    }

    /** `Watch` followed by its receive loop, run over the events that reach it: the
        loop hands each change to the callback and ends, unregistering the watch, at
        the first change the callback refuses or at the cancellation of its context.
        If the events run out first, the watch stays registered. */
    method Watch(prefix: string, events: seq<WatchEvent>) returns (handle: int, received: seq<Change>)
      requires Valid()
      modifies this`watchNum, this`watches
      ensures Valid()
      ensures handle == old(watchNum) + 1 && watchNum == handle && handle !in old(watches)
      ensures received == WatchLoop(events).0
      ensures watches == if WatchLoop(events).1 then old(watches)
                         else old(watches)[handle := prefix]
    {
      handle := RegisterWatch(prefix);
      received := [];
      var i := 0;
      var exited := false;
      assert events[0..] == events;
      while i < |events| && !exited
        invariant 0 <= i <= |events|
        invariant watches == old(watches)[handle := prefix]
        invariant !exited ==> WatchLoop(events).0 == received + WatchLoop(events[i..]).0
        invariant !exited ==> WatchLoop(events).1 == WatchLoop(events[i..]).1
        invariant exited ==> WatchLoop(events).0 == received && WatchLoop(events).1
        decreases |events| - i, !exited
      {
        assert events[i..][1..] == events[i + 1..];
        assert events[i..][0] == events[i];
        match events[i]
        case Cancelled =>
          exited := true;
        case Received(c, keep) =>
          received := received + [c];
          if !keep {
            exited := true;
          }
        i := i + 1;
      }
      assert !exited ==> events[i..] == [];
      if exited {
        UnregisterWatch(handle);
        assert watches == old(watches) by {
          assert handle !in old(watches);
        }
      }
    }

    /** Marks the repository as shutting down and cancels every registered watch;
        each cancelled watch's loop then unregisters it. */
    method Destroy() returns (cancelled: set<int>)
      requires Valid()
      modifies this`shuttingDown, this`watches
      ensures Valid() && shuttingDown
      ensures cancelled == old(watches).Keys && watches == map[]
    {
      shuttingDown := true;
      cancelled := {};
      if watchNum > 0 {
        cancelled := watches.Keys;
      } else {
        NoWatchesBeforeFirst(watches, watchNum);
      }
      watches := map[];
    }

    /** Runs the callback over the entries under `config:<prefix>` in the store's key
        order, with the namespace stripped from each key, until it returns false. */
    method EnumerateAll(prefix: string, cb: (string, string) -> bool, order: seq<string>)
      returns (err: Option<string>, visited: seq<Change>)
      requires backend.Store?
      requires forall k :: k in order <==> k in backend.data
      requires NoRepeats(order)
      ensures backend.failure.Some? ==> err == backend.failure && visited == []
      ensures backend.failure.None? ==>
                err == None && visited == UntilRefused(Listing(order, backend.data, prefix), cb)
    {
      visited := [];
      err := backend.failure;
      if err.Some? {
        return;
      }
      var data := backend.data;
      ghost var all := Listing(order, data, prefix);
      var i := 0;
      var stopped := false;
      assert order[0..] == order;
      while i < |order| && !stopped
        invariant 0 <= i <= |order|
        invariant !stopped ==> UntilRefused(all, cb) == visited + UntilRefused(Listing(order[i..], data, prefix), cb)
        invariant stopped ==> UntilRefused(all, cb) == visited
        decreases |order| - i, !stopped
      {
        var key := order[i];
        ListingStep(order, data, prefix, i);
        var head := if HasPrefix(key, BackingKey(prefix))
                    then [Change(key[|ConfigBucket| + 1..], data[key])] else [];
        UntilRefusedCons(head, Listing(order[i + 1..], data, prefix), cb);
        if HasPrefix(key, BackingKey(prefix)) {
          var e := Change(key[|ConfigBucket| + 1..], data[key]);
          visited := visited + [e];
          if !cb(e.key, e.value) {
            stopped := true;
          }
        }
        i := i + 1;
      }
      assert order[|order|..] == [];
    }
  }

  /** The receive loop's effect: the changes handed to the callback, and whether the
      loop ended (a refused change or a cancellation). */
  function WatchLoop(events: seq<WatchEvent>): (r: (seq<Change>, bool))
    ensures |r.0| <= |events|
  {
    if events == [] then ([], false)
    else match events[0]
      case Cancelled => ([], true)
      case Received(c, keep) =>
        if !keep then ([c], true)
        else var rest := WatchLoop(events[1..]); ([c] + rest.0, rest.1)
  }

  /** The loop ends exactly when some event is a cancellation or a refused change,
      and the callback sees every change before the first such event. */
  lemma {:induction false} WatchLoopEnds(events: seq<WatchEvent>)
    ensures WatchLoop(events).1 <==>
              exists k :: 0 <= k < |events| && (events[k].Cancelled? || !events[k].keepWatching)
  {
    if events != [] {
      WatchLoopEnds(events[1..]);
      if WatchLoop(events[1..]).1 {
        var k :| 0 <= k < |events[1..]| && (events[1..][k].Cancelled? || !events[1..][k].keepWatching);
        assert events[k + 1] == events[1..][k];
      }
      if exists k :: 0 <= k < |events| && (events[k].Cancelled? || !events[k].keepWatching) {
        var k :| 0 <= k < |events| && (events[k].Cancelled? || !events[k].keepWatching);
        if k > 0 {
          assert events[1..][k - 1] == events[k];
        }
      }
    }
  }

  /** Handles are distinct: a newly registered handle exceeds every handle in the registry. */
  lemma FreshHandleAboveAll(watches: map<int, string>, watchNum: int)
    requires forall h :: h in watches ==> 1 <= h <= watchNum
    ensures forall h :: h in watches ==> h < watchNum + 1
  {
  }

  /** A change is delivered exactly to the watches whose prefix starts its key. */
  lemma {:induction false} SubscribersExact(watches: map<int, string>, key: string, h: int)
    ensures h in Subscribers(watches, key) <==> h in watches && HasPrefix(key, watches[h])
  {
  }
}
