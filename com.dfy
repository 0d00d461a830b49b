/**
  The reference-counted handle `ComPtr<T>` of src/com.rs.

  A native object is known by an id; its reference count lives on the
  native side (`Runtime.counts`).  `ComPtr` itself is a value holding a
  non-null pointer, exactly like the `NonNull<T>` it wraps.  To state the
  ownership discipline the runtime also keeps a ghost ledger of who holds
  each reference: a live `ComPtr` (`owned`) or a raw pointer outside any
  wrapper (`raw`), such as the out-parameter of a creation call or the
  result of converting a handle into `*mut T`.  The ledger is balanced
  when every object's count is exactly the number of references held.
 */
module Com {
  import opened Hr

  /** A raw interface pointer: null, the non-null placeholder address that
      `NonNull::dangling()` produces, or the address of native object `id`. */
  datatype RawPtr = Null | Placeholder | At(id: nat)

  type NonNull = p: RawPtr | !p.Null? witness Placeholder

  /** `ComPtr<T>`: a non-null pointer to a reference-counted object.  The
      interface type `T` plays no part in the reference counting and is not
      modelled. */
  datatype ComPtr = ComPtr(ptr: NonNull)

  /** `ComPtr::new`, which `From<*mut T> for ComPtr<T>` calls: a null pointer
      is refused (the source panics), any other pointer is wrapped as is. */
  function New(raw: RawPtr): (r: Result<ComPtr>)
    ensures r.Ok? <==> raw != Null
    ensures r.Ok? ==> r.value.ptr == raw
    ensures r.Err? ==> r.error == NullPointer
  {
    if raw == Null then Err(NullPointer) else Ok(ComPtr(raw))
  }

  /** `ComPtr::dangling`: a placeholder that designates no object, so no
      runtime can ever count it as owned (see `Runtime.Owns`). */
  function Dangling(): (p: ComPtr)
    ensures !p.ptr.At?
  {
    ComPtr(Placeholder)
  }

  /** Native reference counts together with who holds each reference. */
  datatype Ledger = Ledger(counts: map<nat, nat>, owned: multiset<nat>, raw: multiset<nat>)

  /** Every reference object `id` counts is held by exactly one live handle
      or raw pointer, and nothing holds a reference to it unless it exists. */
  ghost predicate BalancedAt(l: Ledger, id: nat) {
    && (id in l.owned ==> id in l.counts)
    && (id in l.raw ==> id in l.counts)
    && (id in l.counts ==> l.counts[id] == l.owned[id] + l.raw[id])
  }

  /** The ledger is balanced at every object. */
  ghost predicate Balanced(l: Ledger) {
    forall id :: BalancedAt(l, id)
  }

  /** A successful creation call: a new object with count 1, whose reference
      sits in the caller's out-pointer. */
  function Created(l: Ledger, id: nat): (r: Ledger)
    requires id !in l.counts
    ensures id in r.counts && r.counts[id] == 1 && r.raw[id] == 1 + l.raw[id]
  {
    Ledger(l.counts[id := 1], l.owned, l.raw + multiset{id})
  }

  /** Wrapping a pointer that carries a reference: the new handle takes that
      reference over, without an `AddRef`. */
  function Adopted(l: Ledger, id: nat): (r: Ledger)
    requires l.raw[id] > 0
    ensures r.counts == l.counts
    ensures r.owned[id] == l.owned[id] + 1 && r.raw[id] == l.raw[id] - 1
  {
    Ledger(l.counts, l.owned + multiset{id}, l.raw - multiset{id})
  }

  /** `clone`: `AddRef`, and the copy is one more owner. */
  function AddedRef(l: Ledger, id: nat): (r: Ledger)
    requires l.owned[id] > 0 && id in l.counts
    ensures r.raw == l.raw && id in r.counts
    ensures r.counts[id] == l.counts[id] + 1 && r.owned[id] == l.owned[id] + 1
  {
    Ledger(l.counts[id := l.counts[id] + 1], l.owned + multiset{id}, l.raw)
  }

  /** `drop`: `Release`, and one owner fewer. */
  function Released(l: Ledger, id: nat): (r: Ledger)
    requires l.owned[id] > 0 && id in l.counts && l.counts[id] > 0
    ensures r.raw == l.raw && id in r.counts
    ensures r.counts[id] == l.counts[id] - 1 && r.owned[id] == l.owned[id] - 1
  {
    Ledger(l.counts[id := l.counts[id] - 1], l.owned - multiset{id}, l.raw)
  }

  /** `From<ComPtr<T>> for *mut T`: the handle is consumed by `mem::forget`,
      so its reference passes to the raw pointer and the count stays. */
  function Forgotten(l: Ledger, id: nat): (r: Ledger)
    requires l.owned[id] > 0
    ensures r.counts == l.counts
    ensures r.owned[id] == l.owned[id] - 1 && r.raw[id] == l.raw[id] + 1
  {
    Ledger(l.counts, l.owned - multiset{id}, l.raw + multiset{id})
  }

  /** Each of the steps above keeps the ledger balanced.  In particular an
      owner's `Release` never finds a count of zero: only an owner can
      release, and an owned object counts at least that owner. */
  lemma CreatedBalanced(l: Ledger, id: nat)
    requires Balanced(l) && id !in l.counts
    ensures Balanced(Created(l, id))
  {
    forall i ensures BalancedAt(Created(l, id), i) {
      assert BalancedAt(l, i);
    }
  }

  lemma AdoptedBalanced(l: Ledger, id: nat)
    requires Balanced(l) && l.raw[id] > 0
    ensures Balanced(Adopted(l, id))
  {
    forall i ensures BalancedAt(Adopted(l, id), i) {
      assert BalancedAt(l, i);
    }
  }

  lemma AddedRefBalanced(l: Ledger, id: nat)
    requires Balanced(l) && l.owned[id] > 0
    ensures id in l.counts && Balanced(AddedRef(l, id))
  {
    assert BalancedAt(l, id);
    forall i ensures BalancedAt(AddedRef(l, id), i) {
      assert BalancedAt(l, i);
    }
  }

  lemma ReleasedBalanced(l: Ledger, id: nat)
    requires Balanced(l) && l.owned[id] > 0
    ensures id in l.counts && l.counts[id] > 0 && Balanced(Released(l, id))
  {
    assert BalancedAt(l, id);
    forall i ensures BalancedAt(Released(l, id), i) {
      assert BalancedAt(l, i);
    }
  }

  lemma ForgottenBalanced(l: Ledger, id: nat)
    requires Balanced(l) && l.owned[id] > 0
    ensures Balanced(Forgotten(l, id))
  {
    assert BalancedAt(l, id);
    forall i ensures BalancedAt(Forgotten(l, id), i) {
      assert BalancedAt(l, i);
    }
  }

  /** Cloning a handle and then dropping either copy leaves the object's
      count, and everything else, as it was. */
  lemma CloneThenDropIsNoOp(l: Ledger, id: nat)
    requires Balanced(l) && l.owned[id] > 0
    ensures id in l.counts && AddedRef(l, id).owned[id] > 0
    ensures Released(AddedRef(l, id), id) == l
  {
    assert BalancedAt(l, id);
    var c := AddedRef(l, id);
    assert c.owned - multiset{id} == l.owned;
    assert c.counts[id := c.counts[id] - 1] == l.counts;
  }

  /** An object created, taken over by a handle and released by it is
      destroyed (count 0), and every other reference is as it was. */
  lemma CreatedThenReleasedIsDestroyed(l: Ledger, id: nat)
    requires id !in l.counts
    ensures Adopted(Created(l, id), id).owned[id] > 0
    ensures var r := Released(Adopted(Created(l, id), id), id);
      r.counts == l.counts[id := 0] && r.owned == l.owned && r.raw == l.raw
  {
    var c := Adopted(Created(l, id), id);
    assert c.owned - multiset{id} == l.owned;
    assert c.raw == l.raw + multiset{id} - multiset{id} == l.raw;
  }

  /** What a creation followed by adoption, and a release, do to the
      holders: one handle more, or one fewer, and no raw pointer changes. */
  lemma AdoptedCreatedHolders(l: Ledger, id: nat)
    requires id !in l.counts
    ensures Adopted(Created(l, id), id).counts == l.counts[id := 1]
    ensures Adopted(Created(l, id), id).owned == l.owned + multiset{id}
    ensures Adopted(Created(l, id), id).raw == l.raw
  {
    assert l.raw + multiset{id} - multiset{id} == l.raw;
  }

  lemma ReleasedHolders(l: Ledger, id: nat)
    requires l.owned[id] > 0 && id in l.counts && l.counts[id] > 0
    ensures Released(l, id).counts == l.counts[id := l.counts[id] - 1]
    ensures Released(l, id).owned == l.owned - multiset{id}
    ensures Released(l, id).raw == l.raw
  {
  }

  /** No double release: when the last owner drops a handle that nothing
      else refers to, the object is destroyed (count 0) and no owner is left
      who could release it again. */
  lemma LastReleaseDestroys(l: Ledger, id: nat)
    requires Balanced(l) && l.owned[id] == 1 && l.raw[id] == 0
    ensures id in l.counts && l.counts[id] == 1
    ensures Released(l, id).counts[id] == 0
    ensures Released(l, id).owned[id] == 0 && Released(l, id).raw[id] == 0
  {
    assert BalancedAt(l, id);
  }

  /** An owned handle always designates a live object: use after release is
      impossible for whoever still holds a handle. */
  lemma OwnedIsAlive(l: Ledger, id: nat)
    requires Balanced(l) && l.owned[id] > 0
    ensures id in l.counts && l.counts[id] > 0
  {
    assert BalancedAt(l, id);
  }

  /** `k` references leaked by the clone-then-convert pattern: a handle is
      cloned and the clone turned into a raw pointer that is never
      released.  The count and the raw holders grow by `k`, the owners
      stay. */
  ghost function Leaked(l: Ledger, id: nat, k: nat): (r: Ledger)
    requires l.owned[id] > 0 && id in l.counts
    ensures r == Ledger(l.counts[id := l.counts[id] + k], l.owned, l.raw[id := l.raw[id] + k])
    decreases k
  {
    if k == 0 then l
    else
      var before := Leaked(l, id, k - 1);
      Forgotten(AddedRef(before, id), id)
  }

  /** Leaking keeps the ledger balanced: every leaked reference is held by
      its raw pointer. */
  lemma LeakedBalanced(l: Ledger, id: nat, k: nat)
    requires Balanced(l) && l.owned[id] > 0 && id in l.counts
    ensures Balanced(Leaked(l, id, k))
  {
    forall i ensures BalancedAt(Leaked(l, id, k), i) {
      assert BalancedAt(l, i);
    }
  }

  /** Leaks add up: `j` leaks and then `k` more are `j + k` leaks. */
  lemma LeakedAgain(l: Ledger, id: nat, j: nat, k: nat)
    requires l.owned[id] > 0 && id in l.counts
    ensures Leaked(l, id, j).owned[id] > 0 && id in Leaked(l, id, j).counts
    ensures Leaked(Leaked(l, id, j), id, k) == Leaked(l, id, j + k)
  {
    var m := Leaked(l, id, j);
    assert m.counts[id := m.counts[id] + k] == l.counts[id := l.counts[id] + (j + k)];
    assert m.raw[id := m.raw[id] + k] == l.raw[id := l.raw[id] + (j + k)];
  }

  /** Ids are handed out in increasing order: `id` was handed out before
      `next`, the id the next creation receives. */
  ghost predicate IssuedBefore(id: nat, next: nat) {
    id < next
  }

  /** The native reference counts, with the ghost ledger of their holders. */
  class Runtime {
    var counts: map<nat, nat>   // reference count of every object ever created (0: destroyed)
    var next: nat               // the id the next created object receives
    ghost var owned: multiset<nat>
    ghost var raw: multiset<nat>

    ghost function State(): Ledger
      reads this
    {
      Ledger(counts, owned, raw)
    }

    ghost predicate Valid()
      reads this
    {
      Balanced(State()) && forall id {:trigger IssuedBefore(id, next)} :: id in counts ==> IssuedBefore(id, next)
    }

    /** Whoever holds `p` holds one of the references of a real object. */
    ghost predicate Owns(p: ComPtr)
      reads this
    {
      p.ptr.At? && owned[p.ptr.id] > 0
    }

    predicate Alive(id: nat)
      reads this
    {
      id in counts && counts[id] > 0
    }

    constructor ()
      ensures Valid()
      ensures counts == map[] && owned == multiset{} && raw == multiset{}
    {
      counts, next := map[], 0;
      owned, raw := multiset{}, multiset{};
    }

    /** The native half of a successful creation call: a fresh object whose
        single reference is handed to the caller's out-pointer. */
    method Allocate() returns (id: nat)
      requires Valid()
      modifies this
      ensures Valid() && id !in old(counts) && id == old(next) && next == old(next) + 1
      ensures State() == Created(old(State()), id)
    {
      assert !IssuedBefore(next, next);
      CreatedBalanced(State(), next);
      ghost var after := Created(State(), next);
      id := next;
      counts := counts[id := 1];
      raw := raw + multiset{id};
      next := next + 1;
      forall i | i in counts
        ensures IssuedBefore(i, next)
      {
        if i != id {
          assert IssuedBefore(i, id);
        }
      }
      assert State() == after;
    }

    /** A creation call whose out-parameter is itself an owning handle, as
        the windows crate's `Option<ID3D11Device>` is: a fresh object whose
        single reference belongs to the returned handle. */
    method AllocateOwned() returns (p: ComPtr)
      requires Valid()
      modifies this
      ensures Valid() && next == old(next) + 1
      ensures p.ptr.At? && p.ptr.id !in old(counts) && Owns(p)
      ensures State() == Adopted(Created(old(State()), p.ptr.id), p.ptr.id)
    {
      var id := Allocate();
      var r := Adopt(At(id));
      p := r.value;
    }

    /** `ComPtr::new` applied to the pointer a creation call returned: a null
        pointer is refused and nothing changes; otherwise the handle takes
        over the pointer's reference. */
    method Adopt(p: RawPtr) returns (r: Result<ComPtr>)
      requires Valid() && (p.At? ==> raw[p.id] > 0)
      modifies this
      ensures Valid() && counts == old(counts) && next == old(next)
      ensures r == New(p)
      ensures State() == if p.At? then Adopted(old(State()), p.id) else old(State())
    {
      r := New(p);
      if p.At? {
        AdoptedBalanced(State(), p.id);
        ghost var after := Adopted(State(), p.id);
        owned := owned + multiset{p.id};
        raw := raw - multiset{p.id};
        assert State() == after;
      }
    }

    /** `Clone for ComPtr<T>`: `AddRef`, and the copy refers to the same
        object. */
    method Clone(p: ComPtr) returns (q: ComPtr)
      requires Valid() && Owns(p)
      modifies this
      ensures Valid() && next == old(next)
      ensures q == p && Owns(q) && p.ptr.id in old(counts)
      ensures State() == AddedRef(old(State()), p.ptr.id)
    {
      var id := p.ptr.id;
      AddedRefBalanced(State(), id);
      ghost var after := AddedRef(State(), id);
      counts := counts[id := counts[id] + 1];
      owned := owned + multiset{id};
      q := p;
      assert State() == after;
    }

    /** `Drop for ComPtr<T>`: `Release`.  Only an owner may drop, so neither a
        dangling handle nor a handle already dropped can reach `Release`. */
    method Drop(p: ComPtr)
      requires Valid() && Owns(p)
      modifies this
      ensures Valid() && next == old(next)
      ensures p.ptr.id in old(counts) && old(counts)[p.ptr.id] > 0
      ensures State() == Released(old(State()), p.ptr.id)
    {
      var id := p.ptr.id;
      ReleasedBalanced(State(), id);
      ghost var after := Released(State(), id);
      counts := counts[id := counts[id] - 1];
      owned := owned - multiset{id};
      assert State() == after;
    }

    /** `From<ComPtr<T>> for *mut T`: returns the same address and forgets
        the handle, so the count is unchanged and the caller now holds the
        reference through a raw pointer. */
    method IntoRaw(p: ComPtr) returns (r: RawPtr)
      requires Valid() && Owns(p)
      modifies this
      ensures Valid() && counts == old(counts) && next == old(next)
      ensures r == p.ptr
      ensures State() == Forgotten(old(State()), p.ptr.id)
    {
      ForgottenBalanced(State(), p.ptr.id);
      ghost var after := Forgotten(State(), p.ptr.id);
      r := p.ptr;
      owned := owned - multiset{p.ptr.id};
      raw := raw + multiset{p.ptr.id};
      assert State() == after;
    }

    /** `query_interface`: the native `QueryInterface` either finds no such
        interface and leaves the out-pointer null, or `AddRef`s the object and
        returns it; the result is wrapped without a further `AddRef`. */
    method QueryInterface(p: ComPtr) returns (r: Option<ComPtr>, out: RawPtr)
      requires Valid() && Owns(p)
      modifies this
      ensures Valid() && next == old(next)
      ensures out == Null || out == p.ptr
      ensures r.Some? <==> out != Null
      ensures r.Some? ==> r.value == p && p.ptr.id in old(counts) && State() == AddedRef(old(State()), p.ptr.id)
      ensures r.None? ==> State() == old(State())
    {
      var supported: bool := *;
      if !supported {
        // no such interface: the out-pointer stays null
        out := Null;
        r := None;
      } else {
        // the native call AddRefs the object and hands that reference out
        // through the out-pointer, which `NonNull::new(ptr).map(ComPtr)`
        // then wraps without a further AddRef: on the ledger, a clone
        var q := Clone(p);
        out := q.ptr;
        r := Some(q);
      }
    }

    /** `as_ref`, `as_mut`, `as_ptr`, `cast_as_mut`, `deref`, `deref_mut` and
        `upcast`: access through an owned handle reaches the live object it
        designates and changes no count. */
    method Borrow(p: ComPtr) returns (id: nat)
      requires Valid() && Owns(p)
      ensures p.ptr == At(id) && Alive(id)
    {
      id := p.ptr.id;
      assert BalancedAt(State(), id);
    }
  }
}
