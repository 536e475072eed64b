/** The installer's shared-settings store (cnchi/_settings.py): a singleton
    metaclass, a plain attribute bag, a descriptor holding one bag shared by
    everyone, and a descriptor holding one entry per owner name.

    Python objects are references and their attributes live in a per-object
    dictionary, so a `DataObject` is a class whose attribute dictionary is a
    map field, and each singleton class object is a class whose one field is
    the cached instance. */
module Settings {
  import opened Wrappers

  /** The Python values the store handles: None, booleans (the
      `_initialized` flag), dictionaries (the `from_dict` argument),
      `DataObject` instances, and any other value, known only by identity. */
  datatype Value =
    | PyNone
    | PyBool(b: bool)
    | PyDict(items: map<string, Value>)
    | PyData(obj: DataObject)
    | PyOther(id: nat)

  /** How a Python call ends: with a value, or by raising AttributeError. */
  datatype Outcome<T> = Returned(value: T) | RaisedAttributeError

  const InitializedFlag: string := "_initialized"

  /** The attributes a fresh `DataObject(from_dict)` ends up with. */
  function InitialAttributes(fromDict: Value): (attrs: map<string, Value>)
    ensures InitializedFlag in attrs && attrs[InitializedFlag] == PyBool(fromDict.PyDict?)
    ensures fromDict.PyDict? ==> attrs.Keys == fromDict.items.Keys + {InitializedFlag}
    ensures fromDict.PyDict? ==>
      forall key :: key in fromDict.items && key != InitializedFlag ==> attrs[key] == fromDict.items[key]
    ensures !fromDict.PyDict? ==> attrs.Keys == {InitializedFlag}
  {
    if fromDict.PyDict? then fromDict.items[InitializedFlag := PyBool(true)]
    else map[InitializedFlag := PyBool(false)]
  }

  /** The attributes after `setattr` has run for the keys in `done`, over an
      object whose only attribute was `_initialized = False`. */
  function Loaded(items: map<string, Value>, done: set<string>): map<string, Value>
    requires done <= items.Keys
  {
    map key | key in done + {InitializedFlag} ::
      if key in done then items[key] else PyBool(false)
  }

  /** A Python object with no behaviour of its own: all it has is its
      attribute dictionary, held here in `attrs`. */
  class DataObject {
    var attrs: map<string, Value>

    /** `DataObject.__init__`: `_initialized` starts false; when `from_dict`
        is a dictionary every key becomes an attribute holding its value
        and `_initialized` becomes true (overriding a `_initialized` key of
        the dictionary); otherwise nothing else is set. */
    constructor (fromDict: Value)
      ensures attrs == InitialAttributes(fromDict)
    {
      var isDict := fromDict.PyDict?;
      attrs := map[InitializedFlag := PyBool(false)];
      new;
      if isDict && attrs[InitializedFlag] == PyBool(false) {
        var items := fromDict.items;
        var pending := items.Keys;
        while pending != {}
          invariant pending <= items.Keys
          invariant attrs == Loaded(items, items.Keys - pending)
          decreases pending
        {
          var key :| key in pending;
          attrs := attrs[key := items[key]];
          pending := pending - {key};
        }
        attrs := attrs[InitializedFlag := PyBool(true)];
      }
    }
  }

  /** Descriptor whose one stored object is shared by every owner. */
  class SharedData {
    var name: string
    // `_data`: None (the class attribute) until `__init__` stores an object.
    var data: DataObject?

    /** `SharedData(name, from_dict)` once the metaclass lets it through:
        allocation, then `__init__`. */
    constructor (name: string, fromDict: Value)
      ensures this.name == name
      ensures data != null && fresh(data) && data.attrs == InitialAttributes(fromDict)
    {
      this.name := name;
      data := null;
      new;
      Init(name, fromDict);
    }

    /** `SharedData.__init__`: `_data` is assigned only while it is still
        None, so the first `from_dict` wins. */
    method Init(name: string, fromDict: Value)
      modifies this
      ensures this.name == name
      ensures old(data) != null ==> data == old(data)
      ensures old(data) == null ==>
        data != null && fresh(data) && data.attrs == InitialAttributes(fromDict)
    {
      this.name := name;
      if data == null {
        data := new DataObject(fromDict);
      }
    }

    /** `SharedData.__get__`: the stored object, whichever owner (or None,
        for access through the class) asks. */
    function Get(owner: object?): (r: DataObject?)
      reads this
      ensures r == data
    {
      data
    }
  }

  /** The class object `SharedData` under the `Singleton` metaclass: its
      `_instance` caches the first instance. Until then `cls._instance`
      finds the metaclass's None. Afterwards it finds the cached instance in
      the class's own dictionary, and since that instance is a descriptor,
      Python hands back `__get__(None, SharedData)` instead. */
  class SharedDataClass {
    var instance: SharedData?

    /** A cached instance has run its `__init__`, so it holds an object. */
    ghost predicate Valid()
      reads this, instance
    {
      instance != null ==> instance.data != null
    }

    constructor ()
      ensures Valid() && instance == null
    {
      instance := null;
    }

    /** `Singleton.__call__` for `SharedData(name, from_dict)`, as written.
        The first call constructs and caches an instance. Every read of
        `cls._instance` after that goes through the instance's `__get__`,
        so each call returns the shared `DataObject`, never the descriptor.
        A later call finds that object truthy, constructs nothing, and
        ignores its arguments. */
    method Call(name: string, fromDict: Value) returns (r: DataObject)
      requires Valid()
      modifies this
      ensures Valid() && instance != null && r == instance.data
      ensures old(instance) != null ==> instance == old(instance)
      ensures old(instance) == null ==>
        fresh(instance) && instance.name == name && fresh(r) &&
        r.attrs == InitialAttributes(fromDict)
    {
      if instance == null {
        instance := new SharedData(name, fromDict);
      }
      r := instance.Get(null);
    }

    /** The evident intent of `Singleton.__call__`: the first call constructs
        and caches an instance; every later call returns that instance,
        untouched, whatever its arguments. */
    method IntendedCall(name: string, fromDict: Value) returns (r: SharedData)
      requires Valid()
      modifies this
      ensures Valid() && instance == r
      ensures old(instance) != null ==> r == old(instance)
      ensures old(instance) == null ==>
        fresh(r) && r.name == name && r.data != null && fresh(r.data) &&
        r.data.attrs == InitialAttributes(fromDict)
    {
      if instance == null {
        instance := new SharedData(name, fromDict);
      }
      r := instance;
    }
  }

  /** `_instance_data_check` on the dictionary: an entry for `owner`,
      holding `default`, is added only when there is none; no existing
      entry is overwritten. */
  function Checked(store: map<string, Value>, owner: string, default: Value): (r: map<string, Value>)
    ensures r.Keys == store.Keys + {owner}
    ensures forall key :: key in store ==> r[key] == store[key]
    ensures owner !in store ==> r[owner] == default
  {
    if owner in store then store else store[owner := default]
  }

  /** `__set__` on the dictionary: the owner's entry holds `value`, every
      other entry is as it was. */
  function Assigned(store: map<string, Value>, owner: string, value: Value): (r: map<string, Value>)
    ensures r.Keys == store.Keys + {owner}
    ensures r[owner] == value
    ensures forall key :: key in store && key != owner ==> r[key] == store[key]
  {
    store[owner := value]
  }

  /** Data descriptor keeping one entry per owner, keyed by the owner's
      `name` attribute (so two owners with the same name share an entry). */
  class NonSharedData {
    var name: string
    // `_data`: None (the class attribute) until `__init__` stores a dictionary.
    var data: Option<map<string, Value>>

    ghost predicate Valid()
      reads this
    {
      data.Some?
    }

    /** `NonSharedData(name)` once the metaclass lets it through: allocation,
        then `__init__`. */
    constructor (name: string)
      ensures Valid() && this.name == name && data.value == map[]
    {
      this.name := name;
      data := None;
      new;
      Init(name);
    }

    /** `NonSharedData.__init__`: the dictionary is created only while
        `_data` is still None. */
    method Init(name: string)
      modifies this
      ensures Valid() && this.name == name
      ensures old(data).Some? ==> data == old(data)
      ensures old(data).None? ==> data.value == map[]
    {
      this.name := name;
      if data.None? {
        data := Some(map[]);
      }
    }

    /** `_instance_data_check`: when the owner has no entry yet, a fresh
        empty `DataObject` becomes its entry; an existing entry is kept. */
    method InstanceDataCheck(owner: string)
      requires Valid()
      modifies this
      ensures Valid() && name == old(name)
      ensures owner in data.value
      ensures data.value == Checked(old(data.value), owner, data.value[owner])
      ensures owner !in old(data.value) ==>
        data.value[owner].PyData? && fresh(data.value[owner].obj) &&
        data.value[owner].obj.attrs == InitialAttributes(PyNone)
    {
      if owner !in data.value {
        var empty := new DataObject(PyNone);
        data := Some(data.value[owner := PyData(empty)]);
      }
    }

    /** `NonSharedData.__get__`: the owner's entry, created empty on first
        access. */
    method Get(owner: string) returns (v: Value)
      requires Valid()
      modifies this
      ensures Valid() && name == old(name)
      ensures data.value == Checked(old(data.value), owner, v)
      ensures owner in old(data.value) ==> v == old(data.value)[owner]
      ensures owner !in old(data.value) ==>
        v.PyData? && fresh(v.obj) && v.obj.attrs == InitialAttributes(PyNone)
    {
      InstanceDataCheck(owner);
      v := data.value[owner];
    }

    /** `NonSharedData.__set__`: the owner's entry becomes `value`; the other
        entries are untouched. */
    method Set(owner: string, value: Value)
      requires Valid()
      modifies this
      ensures Valid() && name == old(name)
      ensures data.value == Assigned(old(data.value), owner, value)
    {
      InstanceDataCheck(owner);
      data := Some(data.value[owner := value]);
    }

    /** `NonSharedData.__get__(None, cls)`, the read through the class
        itself: `_instance_data_check(None)` reads `None.name`, which raises
        AttributeError before anything is stored. */
    method GetFromClass() returns (r: Outcome<Value>)
      ensures r == RaisedAttributeError
    {
      r := RaisedAttributeError;
    }
  }

  /** The class object `NonSharedData` under the `Singleton` metaclass. */
  class NonSharedDataClass {
    var instance: NonSharedData?

    /** A cached instance has run its `__init__`. */
    ghost predicate Valid()
      reads this, instance
    {
      instance != null ==> instance.Valid()
    }

    constructor ()
      ensures Valid() && instance == null
    {
      instance := null;
    }

    /** `Singleton.__call__` for `NonSharedData(name)`, as written. Reading
        `cls._instance` once an instance is cached goes through that
        instance's `__get__(None, NonSharedData)`, which raises. The first
        call constructs and caches an instance and then raises on the read
        at its end; every later call raises on the read in its test. */
    method Call(name: string) returns (r: Outcome<Value>)
      requires Valid()
      modifies this
      ensures Valid() && r == RaisedAttributeError
      ensures old(instance) != null ==> instance == old(instance)
      ensures old(instance) == null ==>
        instance != null && fresh(instance) && instance.name == name && instance.data.value == map[]
    {
      if instance != null {
        r := instance.GetFromClass();
        return;
      }
      instance := new NonSharedData(name);
      r := instance.GetFromClass();
    }

    /** The evident intent of `Singleton.__call__` for `NonSharedData(name)`:
        one instance, and so one dictionary, for every descriptor declared
        with this class. */
    method IntendedCall(name: string) returns (r: NonSharedData)
      requires Valid()
      modifies this
      ensures Valid() && instance == r && r.Valid()
      ensures old(instance) != null ==> r == old(instance)
      ensures old(instance) == null ==> fresh(r) && r.name == name && r.data.value == map[]
    {
      if instance == null {
        instance := new NonSharedData(name);
      }
      r := instance;
    }
  }

  /** A `__get__` right after a `__set__` for the same owner finds the value
      set, and adds nothing. */
  lemma GetAfterSet(store: map<string, Value>, owner: string, value: Value, default: Value)
    ensures Checked(Assigned(store, owner, value), owner, default) == Assigned(store, owner, value)
    ensures Checked(Assigned(store, owner, value), owner, default)[owner] == value
  {
  }

  /** A second `__get__` for an owner finds what the first one left, whatever
      default the first access would have created. */
  lemma CheckIsIdempotent(store: map<string, Value>, owner: string, first: Value, second: Value)
    ensures Checked(Checked(store, owner, first), owner, second) == Checked(store, owner, first)
  {
  }

  /** Of two `__set__` calls for one owner the last one wins. */
  lemma LastSetWins(store: map<string, Value>, owner: string, v: Value, w: Value)
    ensures Assigned(Assigned(store, owner, v), owner, w) == Assigned(store, owner, w)
  {
  }

  /** `__set__` calls for different owners do not interfere: their order does
      not matter, and neither changes what the other owner reads. */
  lemma SetsForOthersCommute(store: map<string, Value>, a: string, b: string, v: Value, w: Value)
    requires a != b
    ensures Assigned(Assigned(store, a, v), b, w) == Assigned(Assigned(store, b, w), a, v)
    ensures Assigned(Assigned(store, a, v), b, w)[a] == v
  {
  }

  /** `SharedData.__get__` hands every owner the same object. */
  lemma SharedGetIgnoresOwner(shared: SharedData, a: object?, b: object?)
    ensures shared.Get(a) == shared.Get(b)
  {
  }

  /** Through the descriptor itself: `__set__` and then `__get__` for one
      owner yields the value set. */
  method SetThenGet(store: NonSharedData, owner: string, value: Value) returns (v: Value)
    requires store.Valid()
    modifies store
    ensures v == value
  {
    store.Set(owner, value);
    v := store.Get(owner);
  }

  /** Two `__get__` calls for one owner return the same object, the one the
      first call created when the owner had no entry. */
  method GetTwice(store: NonSharedData, owner: string) returns (first: Value, second: Value)
    requires store.Valid()
    modifies store
    ensures first == second
  {
    first := store.Get(owner);
    second := store.Get(owner);
  }

  /** As written, two constructions of `SharedData` return one
      `DataObject`, which holds the data of the first construction. */
  method ConstructTwice(cls: SharedDataClass, n1: string, d1: Value, n2: string, d2: Value)
    returns (r1: DataObject, r2: DataObject)
    requires cls.instance == null
    modifies cls
    ensures r1 == r2 && r2.attrs == InitialAttributes(d1)
  {
    r1 := cls.Call(n1, d1);
    r2 := cls.Call(n2, d2);
  }

  /** As intended, two constructions of `SharedData` give one instance: the
      name and the data of the first construction are kept. */
  method IntendedConstructTwice(cls: SharedDataClass, n1: string, d1: Value, n2: string, d2: Value)
    returns (r1: SharedData, r2: SharedData)
    requires cls.instance == null
    modifies cls
    ensures r1 == r2 && r2.name == n1
    ensures r2.data != null && r2.data.attrs == InitialAttributes(d1)
  {
    r1 := cls.IntendedCall(n1, d1);
    r2 := cls.IntendedCall(n2, d2);
  }

  /** As written, `NonSharedData(name)` raises AttributeError even on a class
      with no cached instance, after caching the instance it built. */
  method NonSharedConstructionRaises(cls: NonSharedDataClass, name: string) returns (r: Outcome<Value>)
    requires cls.instance == null
    modifies cls
    ensures r == RaisedAttributeError
    ensures cls.instance != null && cls.instance.name == name
  {
    r := cls.Call(name);
  }
}
