/** The object store behind the API client: current reads, a fresh version for every write, and calls that
    may fail at any time. A call that fails changes nothing. */
module ObjectStore {
  import opened Model

  datatype Object = Object(labels: map<string, string>, version: string, spec: Spec)

  datatype Store = Store(objects: map<Key, Object>, revision: nat)

  /** The version text of the n-th write. Clients only ever compare versions, so any injective text will do. */
  function Stamp(n: nat): (s: string)
    ensures |s| == n
  {
    seq(n, _ => '1')
  }

  function Put(st: Store, key: Key, labels: map<string, string>, spec: Spec): Store {
    Store(st.objects[key := Object(labels, Stamp(st.revision + 1), spec)], st.revision + 1)
  }

  function Remove(st: Store, key: Key): Store {
    st.(objects := st.objects - {key})
  }

  /** A write changes its own object only, and gives it a version that no object had before. */
  lemma PutMeaning(st: Store, key: Key, labels: map<string, string>, spec: Spec, k: Key)
    requires forall o | o in st.objects :: |st.objects[o].version| <= st.revision
    ensures var after := Put(st, key, labels, spec);
            && (k in after.objects <==> k == key || k in st.objects)
            && (k in st.objects && k != key ==> after.objects[k] == st.objects[k])
            && after.objects[key].labels == labels && after.objects[key].spec == spec
            && (k in st.objects ==> after.objects[key].version != st.objects[k].version)
            && forall o | o in after.objects :: |after.objects[o].version| <= after.revision
  {
    assert |Stamp(st.revision + 1)| == st.revision + 1;
  }

  function Specs(st: Store): map<Key, Spec> {
    map k | k in st.objects :: st.objects[k].spec
  }

  datatype Fetch = Found(content: Object) | NotFound | Unreadable

  /** What a read of `key` may answer: the current object, its absence, or a failed call. */
  ghost predicate Reads(st: Store, key: Key, r: Fetch) {
    match r
    case Found(o) => key in st.objects && o == st.objects[key]
    case NotFound => key !in st.objects
    case Unreadable => true
  }

  datatype Item = Item(key: Key, content: Object)

  /** `items` lists the store: every object once, in any order. */
  ghost predicate Lists(st: Store, items: seq<Item>) {
    && (forall i, j | 0 <= i < j < |items| :: items[i].key != items[j].key)
    && (forall i | 0 <= i < |items| :: items[i].key in st.objects && items[i].content == st.objects[items[i].key])
    && (forall k | k in st.objects :: exists i :: 0 <= i < |items| && items[i].key == k)
  }

  class Client {
    var store: Store
    var namespaces: set<string>
    var healthy: bool      // while set, no call fails without a reason in the store,
    var failing: set<Key>  // except calls for these keys

    constructor (healthy: bool, failing: set<Key>)
      ensures store == Store(map[], 0) && namespaces == {} && this.healthy == healthy && this.failing == failing
    {
      store, namespaces, this.healthy, this.failing := Store(map[], 0), {}, healthy, failing;
    }

    predicate Works(key: Key)
      reads this
    {
      healthy && key !in failing
    }

    method Reachable(works: bool) returns (ok: bool)
      ensures works ==> ok
    {
      ok := *;
      ok := ok || works;
    }

    method EnsureNamespace(namespace: string) returns (ok: bool)
      modifies `namespaces
      ensures healthy ==> ok
      ensures namespaces == if ok then old(namespaces) + {namespace} else old(namespaces)
    {
      ok := Reachable(healthy);
      if ok {
        namespaces := namespaces + {namespace};
      }
    }

    method Get(key: Key) returns (r: Fetch)
      ensures Reads(store, key, r)
      ensures Works(key) ==> !r.Unreadable?
    {
      var ok := Reachable(Works(key));
      if !ok {
        r := Unreadable;
      } else if key in store.objects {
        r := Found(store.objects[key]);
      } else {
        r := NotFound;
      }
    }

    method Create(key: Key, labels: map<string, string>, spec: Spec) returns (ok: bool)
      modifies `store
      ensures Works(key) && key !in old(store).objects ==> ok
      ensures ok ==> key !in old(store).objects && store == Put(old(store), key, labels, spec)
      ensures !ok ==> store == old(store)
    {
      ok := Reachable(Works(key));
      ok := ok && key !in store.objects;
      if ok {
        store := Put(store, key, labels, spec);
      }
    }

    /** Refused when the object has been changed since it was read. */
    method Update(key: Key, read: Object, labels: map<string, string>, spec: Spec) returns (ok: bool)
      modifies `store
      ensures Works(key) && key in old(store).objects && old(store).objects[key].version == read.version ==> ok
      ensures ok ==> key in old(store).objects && old(store).objects[key].version == read.version
      ensures ok ==> store == Put(old(store), key, labels, spec)
      ensures !ok ==> store == old(store)
    {
      ok := Reachable(Works(key));
      ok := ok && key in store.objects && store.objects[key].version == read.version;
      if ok {
        store := Put(store, key, labels, spec);
      }
    }

    /** An object without a name is refused, whatever the store holds. */
    method Delete(key: Key) returns (ok: bool)
      modifies `store
      ensures Works(key) && key.name != "" && key in old(store).objects ==> ok
      ensures ok ==> key.name != "" && key in old(store).objects && store == Remove(old(store), key)
      ensures !ok ==> store == old(store)
    {
      ok := Reachable(Works(key));
      ok := ok && key.name != "" && key in store.objects;
      if ok {
        store := Remove(store, key);
      }
    }

    method List() returns (ok: bool, items: seq<Item>)
      ensures healthy ==> ok
      ensures ok ==> Lists(store, items)
    {
      ok := Reachable(healthy);
      items := [];
      var rest := store.objects.Keys;
      while rest != {}
        invariant rest <= store.objects.Keys
        invariant forall i, j | 0 <= i < j < |items| :: items[i].key != items[j].key
        invariant forall i | 0 <= i < |items| ::
          items[i].key in store.objects && items[i].key !in rest && items[i].content == store.objects[items[i].key]
        invariant forall k | k in store.objects && k !in rest :: exists i :: 0 <= i < |items| && items[i].key == k
        decreases rest
      {
        var k :| k in rest;
        ghost var before := items;
        items := items + [Item(k, store.objects[k])];
        rest := rest - {k};
        assert items[|before|].key == k;
        forall q | q in store.objects && q !in rest
          ensures exists i :: 0 <= i < |items| && items[i].key == q
        {
          if q != k {
            var i :| 0 <= i < |before| && before[i].key == q;
            assert items[i].key == q;
          }
        }
      }
    }
  }
}
