/** The shared, mutable set of object keys. */
module KeySets {
  import opened Model

  class ObjectKeySet {
    var keys: set<Key>

    constructor ()
      ensures keys == {}
    {
      keys := {};
    }

    method Add(key: Key)
      modifies this
      ensures keys == old(keys) + {key}
    {
      keys := keys + {key};
    }

    method Delete(key: Key)
      modifies this
      ensures keys == old(keys) - {key}
    {
      keys := keys - {key};
    }

    predicate Has(key: Key)
      reads this
    {
      key in keys
    }
  }
}
