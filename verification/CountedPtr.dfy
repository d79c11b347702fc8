/** The class CountedPtr on the heap, proved to do what the operations on the state of all
    handles and counters do. */
module CountedPtr {
  import opened SharedOwnership

  class Counter {
    var ptr: nat
    var ref: nat

    constructor (ptr: nat)
      ensures this.ptr == ptr && ref == 1
    {
      this.ptr, ref := ptr, 1;
    }
  }

  ghost function LinkOf(c: Counter?): Link<Counter> {
    if c == null then Nowhere else var d: Counter := c; To(d)
  }

  // A counter that may be null, in a frame.
  ghost function Only(c: Counter?): set<Counter> {
    if c == null then {} else {c}
  }

  // The state of the program's handles and counters, beside the heap.
  class Store {
    ghost var state: State<CountedPtr, Counter>

    constructor ()
      ensures state == Start() && Valid()
    {
      state := Start();
    }

    // The heap is as the state says.
    ghost predicate Valid()
      reads this, state.target.Keys, state.refs.Keys
    {
      && state.refs.Keys == state.objects.Keys
      && (forall p :: p in state.target ==> LinkOf(p.counter) == state.target[p])
      && (forall c :: c in state.refs ==> c.ref == state.refs[c] && c.ptr == state.objects[c])
    }

    // ++ and -- of m_ref.
    ghost method Noted(c: Counter)
      modifies this
      ensures state == old(state).(refs := old(state).refs[c := c.ref])
    {
      state := state.(refs := state.refs[c := c.ref]);
    }

    // delete m_ptr and delete m_counter
    ghost method Delete(c: Counter)
      modifies this
      ensures state == old(state).(refs := old(state).refs - {c}, objects := old(state).objects - {c},
                                   deleted := old(state).deleted + if c.ptr == 0 then [] else [c.ptr])
    {
      state := state.(refs := state.refs - {c}, objects := state.objects - {c},
                      deleted := state.deleted + if c.ptr == 0 then [] else [c.ptr]);
    }

    // Counter c gets an object.
    ghost method Adopt(c: Counter, ptr: nat)
      modifies this
      ensures state == old(state).(objects := old(state).objects[c := ptr], given := old(state).given + Listed(ptr))
    {
      state := state.(objects := state.objects[c := ptr], given := state.given + Listed(ptr));
    }

    // Handle p is gone.
    ghost method Forget(p: CountedPtr)
      modifies this
      ensures state == old(state).(target := old(state).target - {p})
    {
      state := state.(target := state.target - {p});
    }

    // Handle p points where its counter says.
    ghost method Pointed(p: CountedPtr)
      modifies this
      ensures state == old(state).(target := old(state).target[p := LinkOf(p.counter)])
    {
      state := state.(target := state.target[p := LinkOf(p.counter)]);
    }
  }

  class CountedPtr {
    var counter: Counter?

    // CountedPtr(T* ptr)
    constructor (ghost store: Store, ptr: nat)
      requires store.Valid()
      modifies store
      ensures counter != null && fresh(counter) && store.Valid()
      ensures counter.ptr == ptr == Object(store.state, this)
      ensures store.state == Create(old(store.state), this, counter, ptr)
    {
      var c := new Counter(ptr);
      counter := c;
      new;
      store.Noted(c);
      store.Pointed(this);
      store.Adopt(c, ptr);
    }

    // CountedPtr(const CountedPtr& rhs)
    constructor Copy(ghost store: Store, rhs: CountedPtr)
      requires store.Valid() && rhs in store.state.target && Live(store.state, store.state.target[rhs])
      modifies store, Only(rhs.counter)
      ensures store.Valid() && counter == rhs.counter && Object(store.state, this) == Object(old(store.state), rhs)
      ensures store.state == SharedOwnership.Acquire(old(store.state), this, old(store.state).target[rhs])
    {
      counter := null;
      new;
      Acquire(store, rhs.counter);
    }

    // ~CountedPtr()
    method Destroy(ghost store: Store)
      requires store.Valid() && this in store.state.target && Live(store.state, store.state.target[this])
      modifies this, store, Only(counter)
      ensures store.Valid() && store.state == SharedOwnership.Destroy(old(store.state), this)
    {
      hide SharedOwnership.Release;
      Release(store);
      store.Forget(this);
    }

    // initialize
    method Initialize(ghost store: Store, ptr: nat)
      requires store.Valid() && this in store.state.target && Live(store.state, store.state.target[this])
      modifies store, Only(counter)
      ensures store.Valid() && store.state == SharedOwnership.Initialize(old(store.state), this, ptr)
      ensures counter != null ==> counter.ptr == if old(Object(store.state, this)) == 0 then ptr else old(Object(store.state, this))
      ensures counter != null ==> Object(store.state, this) == counter.ptr
    {
      if counter != null && counter.ptr == 0 {
        counter.ptr := ptr;
        store.Adopt(counter, ptr);
      }
    }

    // operator=
    method Assign(ghost store: Store, rhs: CountedPtr)
      requires store.Valid() && Sound(store.state) && Fits(store.state)
      requires this in store.state.target && rhs in store.state.target
      modifies this, store, Only(counter), Only(rhs.counter)
      ensures store.Valid() && store.state == Step(old(store.state), Assigning(this, rhs))
      ensures counter == old(rhs.counter) && Object(store.state, this) == Object(old(store.state), rhs)
    {
      TargetIsLive(store.state, rhs);
      Released(store.state, this);
      StepGives(store.state, Assigning(this, rhs));
      hide Sound, Fits, SharedOwnership.Release, SharedOwnership.Acquire;
      if this != rhs {
        Release(store);
        Acquire(store, rhs.counter);
      }
    }

    // get: the object that was handed over, as long as a handle holds it.
    method Get(ghost store: Store) returns (ptr: nat)
      requires store.Valid() && Sound(store.state) && this in store.state.target
      ensures ptr == Object(store.state, this) && (counter != null ==> ptr == counter.ptr)
      ensures ptr != 0 ==> ptr in store.state.given && ptr !in store.state.deleted
    {
      TargetIsLive(store.state, this);
      hide Sound;
      ptr := if counter != null then counter.ptr else 0;
    }

    // acquire
    method Acquire(ghost store: Store, c: Counter?)
      requires store.Valid() && counter == null && Live(store.state, LinkOf(c))
      requires this in store.state.target ==> store.state.target[this] == Nowhere
      modifies this, store, Only(c)
      ensures counter == c && store.Valid()
      ensures store.state == SharedOwnership.Acquire(old(store.state), this, LinkOf(c))
    {
      counter := c;
      if counter != null {
        counter.ref := (counter.ref + 1) % MODULUS;
        store.Noted(counter);
      }
      store.Pointed(this);
    }

    // release: the counter and its object are deleted when the count becomes 0.
    method Release(ghost store: Store)
      requires store.Valid() && this in store.state.target && Live(store.state, LinkOf(counter))
      modifies this, store, Only(counter)
      ensures counter == null && store.Valid()
      ensures store.state == SharedOwnership.Release(old(store.state), this)
    {
      if counter == null {
        return;
      }
      ghost var c, s := counter, store.state;
      counter.ref := (counter.ref + MODULUS - 1) % MODULUS;
      store.Noted(counter);
      if counter.ref == 0 {
        assert s.refs[c := 0] - {c} == s.refs - {c};
        store.Delete(counter);
      }
      counter := null;
      store.Pointed(this);
    }
  }
}
