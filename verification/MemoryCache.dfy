/**
 The memory accountant with one caller at a time: each call is the sequence of its steps.
 */
module MemoryCache {
  import opened Common
  import opened MemoryAccounting

  datatype Allocation =
    | Allocated(handle: Handle)
    | Full(needed: nat, available: int)
    | NotCreated

  /** A saturating subtraction. */
  function Available(max: nat, counter: int): int {
    if counter >= max then 0 else max - counter
  }

  function AllocateSteps(tensor: Tensor, last: Step): seq<Step> {
    [Load(0, tensor), Add(0), TakeHandle(0), last]
  }

  /** The steps of an allocation that passes the compare, taken without interruption. */
  lemma AllocateAlone(m: Memory, max: nat, tensor: Tensor)
    requires m.phases == [Idle] && m.lock.None? && m.counter + tensor.Bytes() <= max
    ensures var m1 := m.(counter := m.counter + tensor.Bytes(), nextHandle := m.nextHandle + 1);
            && Leads(m, max, AllocateSteps(tensor, Insert(0)),
                     m1.(tensors := m.tensors[m.nextHandle := tensor], returned := m.returned + [m.nextHandle]))
            && Leads(m, max, AllocateSteps(tensor, CreateFails(0)), m1.(leaked := m.leaked + tensor.Bytes()))
  {
    var m1 := Apply(m, max, Load(0, tensor));
    var m2 := Apply(m1, max, Add(0));
    var m3 := Apply(m2, max, TakeHandle(0));
    forall last: Step | last == Insert(0) || last == CreateFails(0)
      ensures Leads(m, max, AllocateSteps(tensor, last), Apply(m3, max, last))
    {
      var steps := AllocateSteps(tensor, last);
      assert steps[1..] == [Add(0), TakeHandle(0), last] && steps[1..][1..] == [TakeHandle(0), last];
      assert steps[1..][1..][1..] == [last] && [last][1..] == [];
      assert Leads(m3, max, [last], Apply(m3, max, last));
      assert Leads(m2, max, [TakeHandle(0), last], Apply(m3, max, last));
      assert Leads(m1, max, [Add(0), TakeHandle(0), last], Apply(m3, max, last));
    }
    assert Apply(m3, max, Insert(0)).phases == [Idle];
    assert Apply(m3, max, CreateFails(0)).phases == [Idle];
  }

  lemma StartAlone()
    ensures Memory(0, 1, map[], [Idle], None, 0, []) == Start(1) && Inv(Start(1))
  {
    hide Inv;
    StartFits(1);
    assert Start(1).phases == [Idle];
  }

  function FreeSteps(m: Memory, handle: Handle): seq<Step> {
    if handle in m.tensors then [Remove(0, handle), Subtract(0)] else [Remove(0, handle)]
  }

  lemma FreeAlone(m: Memory, max: nat, handle: Handle)
    requires m.phases == [Idle] && m.lock.None?
    ensures Leads(m, max, FreeSteps(m, handle),
                  if handle in m.tensors
                  then m.(counter := m.counter - m.tensors[handle].Bytes(), tensors := m.tensors - {handle})
                  else m)
  {
    var m1 := Apply(m, max, Remove(0, handle));
    if handle in m.tensors {
      var m2 := Apply(m1, max, Subtract(0));
      assert m2.phases == [Idle];
      assert FreeSteps(m, handle)[1..] == [Subtract(0)] && [Subtract(0)][1..] == [];
      assert Leads(m1, max, [Subtract(0)], m2);
    } else {
      assert FreeSteps(m, handle)[1..] == [];
    }
  }

  /** What is live is what was made and not freed. */
  ghost predicate Remembers(m: Memory, made: map<Handle, Tensor>, freed: set<Handle>) {
    && (forall h :: h in made <==> h in m.returned)
    && freed <= made.Keys
    && (forall h :: h in m.tensors <==> h in made && h !in freed)
    && (forall h :: h in m.tensors ==> m.tensors[h] == made[h])
  }

  /** A tensor under a new handle, and a failed creation, are remembered. */
  lemma RemembersNew(m: Memory, made: map<Handle, Tensor>, freed: set<Handle>, m': Memory, tensor: Tensor)
    requires Inv(m) && Remembers(m, made, freed)
    ensures m.nextHandle !in made
    ensures m'.tensors == m.tensors[m.nextHandle := tensor] && m'.returned == m.returned + [m.nextHandle] ==>
              Remembers(m', made[m.nextHandle := tensor], freed)
    ensures m'.tensors == m.tensors && m'.returned == m.returned ==> Remembers(m', made, freed)
  {
    hide Accounts, Locked;
  }

  lemma RemembersFreed(m: Memory, made: map<Handle, Tensor>, freed: set<Handle>, m': Memory, handle: Handle)
    requires Remembers(m, made, freed) && m'.tensors == m.tensors - {handle} && m'.returned == m.returned
    ensures handle in m.tensors ==> handle in made
    ensures Remembers(m', made, freed + if handle in made then {handle} else {})
  {
  }

  class MemoryCache {
    const maxSizeBytes: nat
    var currentSizeBytes: int
    var tensors: map<Handle, Tensor>
    var handleCounter: Handle
    ghost var leaked: nat
    ghost var returned: seq<Handle>
    ghost var made: map<Handle, Tensor>   // the tensor that each handle was returned for
    ghost var freed: set<Handle>          // the handles of these that were freed

    /** The state of the accountant, with its only caller between calls. */
    ghost function State(): Memory
      reads this
    {
      Memory(currentSizeBytes, handleCounter, tensors, [Idle], None, leaked, returned)
    }

    ghost predicate Valid()
      reads this
    {
      Inv(State()) && Remembers(State(), made, freed)
    }

    constructor (maxSizeBytes: nat)
      ensures Valid() && this.maxSizeBytes == maxSizeBytes && State() == Start(1)
      ensures made == map[] && freed == {}
    {
      hide Inv, Start, Remembers;
      this.maxSizeBytes := maxSizeBytes;
      currentSizeBytes := 0;
      tensors := map[];
      handleCounter := 1;
      leaked := 0;
      returned := [];
      made := map[];
      freed := {};
      new;
      StartAlone();
      StartRemembers();
    }

    /** `created` says whether the tensor library can create the tensor. */
    method Allocate(tensor: Tensor, created: bool) returns (r: Allocation)
      requires Valid()
      modifies this
      ensures Valid()
      ensures r.Full? <==> old(currentSizeBytes) + tensor.Bytes() > maxSizeBytes
      ensures r.Full? ==> r == Full(tensor.Bytes(), if currentSizeBytes < maxSizeBytes then maxSizeBytes - currentSizeBytes else 0) && State() == old(State())
      ensures !r.Full? ==> r == if created then Allocated(old(handleCounter)) else NotCreated
      ensures r.Allocated? ==> r.handle !in old(made) && made == old(made)[r.handle := tensor]
      ensures !r.Allocated? ==> made == old(made)
      ensures freed == old(freed)
      ensures r.Allocated? ==> tensors == old(tensors)[r.handle := tensor] && currentSizeBytes == old(currentSizeBytes) + tensor.Bytes()
      ensures r.Allocated? ==> Leads(old(State()), maxSizeBytes, AllocateSteps(tensor, Insert(0)), State())
      ensures r.NotCreated? ==> Leads(old(State()), maxSizeBytes, AllocateSteps(tensor, CreateFails(0)), State())
    {
      hide Leads, AllocateSteps, Inv, Remembers;
      ghost var m := State();
      var current := currentSizeBytes;
      if current + tensor.Bytes() > maxSizeBytes {
        return Full(tensor.Bytes(), Available(maxSizeBytes, current));
      }
      currentSizeBytes := currentSizeBytes + tensor.Bytes();
      var handle := handleCounter;
      handleCounter := handleCounter + 1;
      AllocateAlone(m, maxSizeBytes, tensor);
      if !created {
        leaked := leaked + tensor.Bytes();
        RunLeads(m, maxSizeBytes, AllocateSteps(tensor, CreateFails(0)), State());
        RemembersNew(m, made, freed, State(), tensor);
        return NotCreated;
      }
      tensors := tensors[handle := tensor];
      returned := returned + [handle];
      ghost var before := made;
      made := made[handle := tensor];
      RemembersNew(m, before, freed, State(), tensor);
      RunLeads(m, maxSizeBytes, AllocateSteps(tensor, Insert(0)), State());
      r := Allocated(handle);
    }

    /** Freeing a handle that is not live does nothing. */
    method Free(handle: Handle)
      requires Valid()
      modifies this
      ensures Valid()
      ensures tensors == old(tensors) - {handle} && handleCounter == old(handleCounter) && returned == old(returned)
      ensures made == old(made) && freed == old(freed) + (if handle in made then {handle} else {})
      ensures currentSizeBytes == old(currentSizeBytes) - if handle in old(tensors) then old(tensors)[handle].Bytes() else 0
      ensures currentSizeBytes >= 0
      ensures Leads(old(State()), maxSizeBytes, old(FreeSteps(State(), handle)), State())
    {
      hide Leads, FreeSteps, Inv, Remembers;
      ghost var m := State();
      FreeAlone(m, maxSizeBytes, handle);
      if handle in tensors {
        var tensor := tensors[handle];
        tensors := tensors - {handle};
        currentSizeBytes := currentSizeBytes - tensor.Bytes();
      }
      RemembersFreed(m, made, freed, State(), handle);
      freed := freed + (if handle in made then {handle} else {});
      RunLeads(m, maxSizeBytes, FreeSteps(m, handle), State());
    }

    /** The tensor that the handle was returned for, until it is freed, and nothing from then on. */
    method Get(handle: Handle) returns (tensor: Option<Tensor>)
      requires Valid()
      ensures tensor.Some? <==> handle in made && handle !in freed
      ensures tensor.Some? ==> tensor.value == made[handle]
    {
      tensor := if handle in tensors then Some(tensors[handle]) else None;
    }

    method BytesLeft() returns (bytes: int)
      requires Valid()
      ensures 0 <= bytes <= maxSizeBytes
      ensures currentSizeBytes <= maxSizeBytes ==> bytes + currentSizeBytes == maxSizeBytes
      ensures currentSizeBytes > maxSizeBytes ==> bytes == 0
    {
      AccountedFor(State());
      bytes := Available(maxSizeBytes, currentSizeBytes);
    }
  }

  lemma StartRemembers()
    ensures Remembers(Memory(0, 1, map[], [Idle], None, 0, []), map[], {})
  {
  }

  lemma AccountedFor(m: Memory)
    requires Inv(m)
    ensures m.counter >= 0
  {
  }

  lemma {:induction false} RunLeads(m: Memory, max: nat, steps: seq<Step>, m': Memory)
    requires Inv(m) && Leads(m, max, steps, m')
    ensures Inv(m') && m'.counter >= 0
    decreases steps
  {
    if steps != [] {
      StepKeepsInv(m, max, steps[0]);
      RunLeads(Apply(m, max, steps[0]), max, steps[1..], m');
    }
  }

  /** Freeing what was just allocated takes the accountant back, except for the handle, which
      is spent. */
  lemma FreeUndoesAllocate(m: Memory, max: nat, tensor: Tensor, taken: Memory, freed: Memory)
    requires Inv(m) && m.phases == [Idle] && m.lock.None? && m.counter + tensor.Bytes() <= max
    requires Leads(m, max, AllocateSteps(tensor, Insert(0)), taken)
    requires Leads(taken, max, FreeSteps(taken, m.nextHandle), freed)
    ensures freed == m.(nextHandle := m.nextHandle + 1, returned := m.returned + [m.nextHandle])
  {
    hide Leads, AllocateSteps, Accounts, Locked;
    AllocateAlone(m, max, tensor);
    var m1 := m.(counter := m.counter + tensor.Bytes(), nextHandle := m.nextHandle + 1,
                 tensors := m.tensors[m.nextHandle := tensor], returned := m.returned + [m.nextHandle]);
    LeadsToOne(m, max, AllocateSteps(tensor, Insert(0)), taken, m1);
    FreeAlone(m1, max, m.nextHandle);
    LeadsToOne(m1, max, FreeSteps(m1, m.nextHandle), freed,
               m1.(counter := m.counter, tensors := m1.tensors - {m.nextHandle}));
    assert m.nextHandle !in m.tensors;
    assert m1.tensors - {m.nextHandle} == m.tensors;
  }

  /** The same steps always lead to the same state. */
  lemma {:induction false} LeadsToOne(m: Memory, max: nat, steps: seq<Step>, m1: Memory, m2: Memory)
    requires Leads(m, max, steps, m1) && Leads(m, max, steps, m2)
    ensures m1 == m2
    decreases steps
  {
    if steps != [] {
      LeadsToOne(Apply(m, max, steps[0]), max, steps[1..], m1, m2);
    }
  }
}
