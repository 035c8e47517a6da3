/** The ink! `AgentRegistry` contract: a storage struct holding the owner
    (the account that instantiated the contract) and a `u32` counter that
    `register_agent` hands out as the next agent id, bumping it with
    saturating addition. Each registration emits an `AgentRegistered` event;
    the emitted events are kept as a ghost log. */
module AgentRegistryContract {

  const U32_MAX: nat := 0xFFFF_FFFF

  /** Rust's `u32`. */
  type U32 = x: nat | x <= U32_MAX

  /** ink!'s `Balance`, a `u128`. */
  type Balance = x: nat | x < 0x1_0000_0000_0000_0000_0000_0000_0000_0000

  /** ink!'s `AccountId`: 32 bytes. */
  type AccountId = s: seq<bv8> | |s| == 32 witness seq(32, _ => 0)

  /** The `AgentRegistered` event, whose single topic is the id handed out. */
  datatype AgentRegistered = AgentRegistered(agentId: U32)

  /** `u32::saturating_add`: the exact sum when it fits, `u32::MAX` otherwise;
      it never wraps around to a value below either operand. */
  function SaturatingAdd(a: U32, b: U32): (r: U32)
    ensures r == a + b || (a + b > U32_MAX && r == U32_MAX)
    ensures a <= r && b <= r
  {
    if a + b <= U32_MAX then a + b else U32_MAX
  }

  /** The value of `total_agents` after `n` calls of `register_agent` on a
      freshly constructed contract. */
  function CountAfter(n: nat): (c: U32)
    ensures c <= n
    ensures n > 0 ==> c > 0
  {
    if n == 0 then 0 else SaturatingAdd(CountAfter(n - 1), 1)
  }

  /** The events emitted by `n` calls of `register_agent` on a freshly
      constructed contract, in order. */
  function Emitted(n: nat): (log: seq<AgentRegistered>)
    ensures |log| == n
  {
    if n == 0 then [] else Emitted(n - 1) + [AgentRegistered(CountAfter(n - 1))]
  }

  /** The counter equals the number of registrations until it reaches
      `u32::MAX`, and stays there: it never wraps to 0. */
  lemma {:induction false} CountAfterClosedForm(n: nat)
    ensures CountAfter(n) == if n <= U32_MAX then n else U32_MAX
  {
    if n > 0 {
      CountAfterClosedForm(n - 1);
    }
  }

  /** The i-th registration (counting from 0) is given id i, or `u32::MAX`
      once the counter has saturated. */
  lemma {:induction false} EmittedIds(n: nat, i: nat)
    requires i < n
    ensures Emitted(n)[i].agentId == if i <= U32_MAX then i else U32_MAX
  {
    if i == n - 1 {
      CountAfterClosedForm(n - 1);
    } else {
      EmittedIds(n - 1, i);
    }
  }

  /** Below the cap every registration gets a different id. */
  lemma IdsDistinctBelowCap(n: nat, i: nat, j: nat)
    requires i < j < n && j <= U32_MAX
    ensures Emitted(n)[i].agentId != Emitted(n)[j].agentId
  {
    EmittedIds(n, i);
    EmittedIds(n, j);
  }

  /** From the (u32::MAX + 1)-th registration on, every call reports
      `u32::MAX` again. */
  lemma SaturatedIdsRepeat(n: nat, i: nat)
    requires U32_MAX <= i < n
    ensures Emitted(n)[i].agentId == U32_MAX
  {
    EmittedIds(n, i);
  }

  class AgentRegistry {
    var totalAgents: U32
    var owner: AccountId

    /** Number of `register_agent` calls so far, and the events they emitted. */
    ghost var registrations: nat
    ghost var events: seq<AgentRegistered>

    ghost predicate Valid()
      reads this
    {
      totalAgents == CountAfter(registrations) && events == Emitted(registrations)
    }

    /** `new`: the owner is the caller of the constructor, the count starts at 0. */
    constructor (caller: AccountId)
      ensures Valid()
      ensures totalAgents == 0 && owner == caller
      ensures registrations == 0 && events == []
    {
      totalAgents := 0;
      owner := caller;
      registrations := 0;
      events := [];
    }

    /** `register_agent`: returns the count as it was, bumps it with saturating
        addition and emits the returned id. `name` and `price` are ignored. */
    method RegisterAgent(name: string, price: Balance) returns (agentId: U32)
      requires Valid()
      modifies this
      ensures Valid()
      ensures agentId == old(totalAgents)
      ensures totalAgents == SaturatingAdd(old(totalAgents), 1)
      ensures old(totalAgents) < U32_MAX ==> totalAgents == old(totalAgents) + 1
      ensures old(totalAgents) == U32_MAX ==> totalAgents == U32_MAX
      ensures owner == old(owner)
      ensures registrations == old(registrations) + 1
      ensures events == old(events) + [AgentRegistered(agentId)]
    {
      agentId := totalAgents;
      totalAgents := SaturatingAdd(totalAgents, 1);
      events := events + [AgentRegistered(agentId)];
      registrations := registrations + 1;
    }

    /** `get_total_agents`: reads the counter, changes nothing. */
    method GetTotalAgents() returns (total: U32)
      requires Valid()
      ensures total == totalAgents
      ensures total == if registrations <= U32_MAX then registrations else U32_MAX
    {
      CountAfterClosedForm(registrations);
      total := totalAgents;
    }

    /** `get_owner`: reads the owner, changes nothing. */
    method GetOwner() returns (who: AccountId)
      ensures who == owner
    {
      who := owner;
    }
  }

  /** The contract's unit test `it_works`: a fresh contract reports 0 agents,
      the first registration returns id 0 and the count becomes 1. */
  method ItWorks(caller: AccountId) returns (before: U32, id: U32, after: U32)
    ensures before == 0 && id == 0 && after == 1
  {
    var contract := new AgentRegistry(caller);
    before := contract.GetTotalAgents();
    id := contract.RegisterAgent("Test", 1000);
    after := contract.GetTotalAgents();
  }
}
