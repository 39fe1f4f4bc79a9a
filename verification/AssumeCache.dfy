/**
 The cache of objects that can be assumed ahead of the API server
 (pkg/scheduler/capabilities/volumebinding/assume_cache.go).
 */
module AssumeCaches {
  import opened Options

  /** A volume or claim; `version` is its resource version if that parses, `content` all the rest. */
  datatype Object = Object(name: string, version: Option<int>, content: string)

  datatype Entry = Entry(latest: Object, api: Object)

  type Store = map<string, Entry>

  /** The latest version is the API's own, or one that is not older. */
  ghost predicate EntryOk(name: string, e: Entry) {
    e.latest.name == name && e.api.name == name &&
    (e.latest == e.api || (e.latest.version.Some? && e.api.version.Some? && e.api.version.value <= e.latest.version.value))
  }

  ghost predicate StoreOk(s: Store) {
    forall n | n in s :: EntryOk(n, s[n])
  }

  /** Both versions are known and the first is newer (or as new). */
  predicate Newer(o: Object, than: Object, orEqual: bool) {
    o.version.Some? && than.version.Some? && (o.version.value > than.version.value || (orEqual && o.version == than.version))
  }

  datatype Event = Added(object: Object) | Deleted(name: string) | Assumed(object: Object) | Restored(name: string)

  /** Assume is refused for unknown objects and older versions. */
  predicate CanAssume(s: Store, o: Object) {
    o.name in s && Newer(o, s[o.name].latest, true)
  }

  function After(s: Store, e: Event): Store {
    match e
    case Added(o) => if o.name in s && !Newer(o, s[o.name].latest, false) then s else s[o.name := Entry(o, o)]
    case Deleted(n) => s - {n}
    case Assumed(o) => if CanAssume(s, o) then s[o.name := Entry(o, s[o.name].api)] else s
    case Restored(n) => RestoredIn(s, {n})
  }

  /** The entries of `names` are back at the API's version. */
  function RestoredIn(s: Store, names: set<string>): Store {
    map n | n in s :: if n in names then Entry(s[n].api, s[n].api) else s[n]
  }

  class AssumeCache {
    var store: Store

    ghost predicate Valid()
      reads this
    {
      StoreOk(store)
    }

    constructor ()
      ensures Valid() && store == map[]
    {
      store := map[];
    }

    /** An informer's object replaces both versions, but only if it is newer than the latest. */
    method Add(o: Object)
      requires Valid()
      modifies this
      ensures Valid() && store == After(old(store), Added(o))
    {
      if o.name in store {
        var stored := store[o.name].latest;
        if o.version.None? || stored.version.None? {
          return;
        }
        if o.version.value <= stored.version.value {
          return;
        }
      }
      store := store[o.name := Entry(o, o)];
    }

    method Delete(name: string)
      requires Valid()
      modifies this
      ensures Valid() && store == After(old(store), Deleted(name))
    {
      store := store - {name};
    }

    method Get(name: string) returns (o: Option<Object>)
      requires Valid()
      ensures o == if name in store then Some(store[name].latest) else None
    {
      return if name in store then Some(store[name].latest) else None;
    }

    method GetAPIObj(name: string) returns (o: Option<Object>)
      requires Valid()
      ensures o == if name in store then Some(store[name].api) else None
    {
      return if name in store then Some(store[name].api) else None;
    }

    method Assume(o: Object) returns (ok: bool)
      requires Valid()
      modifies this
      ensures Valid() && store == After(old(store), Assumed(o)) && ok == CanAssume(old(store), o)
    {
      if o.name !in store {
        return false;
      }
      var info := store[o.name];
      if o.version.None? || info.latest.version.None? {
        return false;
      }
      if o.version.value < info.latest.version.value {
        return false;
      }
      store := store[o.name := info.(latest := o)];
      AssumedOk(old(store), o);
      return true;
    }

    method Restore(name: string)
      requires Valid()
      modifies this
      ensures Valid() && store == After(old(store), Restored(name))
    {
      if name in store {
        store := store[name := store[name].(latest := store[name].api)];
      }
      assert store == RestoredIn(old(store), {name});
    }
  }

  lemma AssumedOk(s: Store, o: Object)
    requires StoreOk(s) && CanAssume(s, o)
    ensures StoreOk(After(s, Assumed(o)))
  {
  }

  /** Assuming and restoring never touch what the API server delivered. */
  lemma AssumptionsAreLocal(s: Store, e: Event, n: string)
    requires e.Assumed? || e.Restored?
    ensures (n in After(s, e) <==> n in s) && (n in s ==> After(s, e)[n].api == s[n].api)
    ensures e.Restored? && n in s && n == e.name ==> After(s, e)[n].latest == s[n].api
  {
  }

  // ----- runs

  lemma StepKeepsOk(s: Store, e: Event)
    requires StoreOk(s)
    ensures StoreOk(After(s, e))
  {
  }

  function AfterAll(s: Store, es: seq<Event>): Store
    decreases |es|
  {
    if es == [] then s else AfterAll(After(s, es[0]), es[1..])
  }

  /**
   Over any run the latest version is never older than the API's; and as long as an entry is not deleted its
   API object stays or is replaced by newer ones only.
   */
  lemma {:induction false} VersionsOverRuns(s: Store, es: seq<Event>, n: string)
    requires StoreOk(s) && n in s && forall i | 0 <= i < |es| :: es[i] != Deleted(n)
    ensures StoreOk(AfterAll(s, es)) && n in AfterAll(s, es)
    ensures var api, api' := s[n].api, AfterAll(s, es)[n].api; api' == api || Newer(api', api, false)
    decreases |es|
  {
    if es != [] {
      StepKeepsOk(s, es[0]);
      assert EntryOk(n, s[n]);
      var s' := After(s, es[0]);
      assert es[0] != Deleted(n);
      assert s'[n].api == s[n].api || Newer(s'[n].api, s[n].api, false);
      VersionsOverRuns(s', es[1..], n);
    }
  }

  // ----- restoring what was assumed

  /** The objects were assumed one after the other. */
  function AssumedAll(s: Store, os: seq<Object>): Store {
    if os == [] then s else After(AssumedAll(s, os[..|os| - 1]), Assumed(os[|os| - 1]))
  }

  /** Restoring at least the assumed entries forgets every assumption on them. */
  lemma {:induction false} RestoringUndoesAssuming(s: Store, os: seq<Object>, names: set<string>)
    requires forall i | 0 <= i < |os| :: os[i].name in names
    ensures RestoredIn(AssumedAll(s, os), names) == RestoredIn(s, names)
    decreases |os|
  {
    if os != [] {
      RestoringUndoesAssuming(s, os[..|os| - 1], names);
      var before := AssumedAll(s, os[..|os| - 1]);
      assert RestoredIn(After(before, Assumed(os[|os| - 1])), names) == RestoredIn(before, names);
    }
  }
}
