/**
  Kernel packet-filter tables and the operations the daemon performs on them.

  The table managers of the daemon are straight sequences of operations that stop at the first
  failure. A `Plan` says which chains a manager owns, what they contain and from where they are
  jumped to; `SetupOps` and `CleanupOps` are the sequences the managers perform for it.
 */
module Netfilter {
  import opened Outcomes
  import opened Addresses

  datatype Proto = Tcp | Udp | OtherProto

  datatype Target = Accept | Reject | Return | Masquerade(ports: bool) | ChecksumFill | Jump(chain: string)

  datatype Destination = Anywhere | Within(net: Net) | Outside(net: Net)

  /** A rule; a field that is absent matches every packet. */
  datatype Rule = Rule(
    inIf: Option<string>, outIf: Option<string>, src: Option<Net>, dst: Destination, proto: Option<Proto>,
    dport: Option<nat>, tracked: bool, target: Target)

  type Table = map<string, seq<Rule>>

  function JumpTo(chain: string): Rule {
    Rule(None, None, None, Anywhere, None, None, false, Jump(chain))
  }

  // ----- operations -----

  datatype Op =
    | NewChain(chain: string)
    | EnsureChain(chain: string)                  // new_chain unless chain_exists
    | AppendReplace(chain: string, rule: Rule)
    | Flush(chain: string)
    | Delete(chain: string, rule: Rule)
    | DeleteChain(chain: string)

  function RemoveFirst(rules: seq<Rule>, r: Rule): seq<Rule> {
    if rules == [] then [] else if rules[0] == r then rules[1..] else [rules[0]] + RemoveFirst(rules[1..], r)
  }

  predicate Referenced(t: Table, chain: string) {
    exists c :: c in t && exists i :: 0 <= i < |t[c]| && t[c][i].target == Jump(chain)
  }

  /** The table after an operation, or `None` if the kernel refuses it. */
  function Do(t: Table, op: Op): Option<Table> {
    match op
    case NewChain(c) => if c in t then None else Some(t[c := []])
    case EnsureChain(c) => if c in t then Some(t) else Some(t[c := []])
    case AppendReplace(c, r) =>
      if c !in t || (r.target.Jump? && r.target.chain !in t) then None
      else Some(t[c := RemoveFirst(t[c], r) + [r]])
    case Flush(c) => if c in t then Some(t[c := []]) else None
    case Delete(c, r) => if c in t && r in t[c] then Some(t[c := RemoveFirst(t[c], r)]) else None
    case DeleteChain(c) => if c in t && t[c] == [] && !Referenced(t, c) then Some(t - {c}) else None
  }

  function Exec(t: Table, ops: seq<Op>): Option<Table>
    decreases |ops|
  {
    if ops == [] then Some(t)
    else
      var next := Do(t, ops[0]);
      if next.None? then None else Exec(next.value, ops[1..])
  }

  /** A handle on one kernel table. */
  class IpTables {
    var table: Table

    method Execute(op: Op) returns (ok: bool)
      modifies this
      ensures ok <==> Do(old(table), op).Some?
      ensures table == if ok then Do(old(table), op).value else old(table)
    {
      var after := Do(table, op);
      ok := after.Some?;
      if ok { table := after.value; }
    }

    /** Performs the operations in order and stops at the first that fails, leaving what was done. */
    method Perform(ops: seq<Op>) returns (ok: bool)
      modifies this
      ensures ok <==> Exec(old(table), ops).Some?
      ensures ok ==> table == Exec(old(table), ops).value
      ensures !ok ==> exists n :: 0 <= n < |ops| && Exec(old(table), ops[..n]) == Some(table) && Do(table, ops[n]).None?
    {
      var i := 0;
      while i < |ops|
        invariant 0 <= i <= |ops|
        invariant Exec(old(table), ops[..i]) == Some(table)
      {
        ExecConcat(old(table), ops[..i], ops[i..]);
        assert ops[..i] + ops[i..] == ops;
        ok := Execute(ops[i]);
        if !ok { return; }
        ExecConcat(old(table), ops[..i], [ops[i]]);
        assert Exec(table, []) == Some(table);
        assert ops[..i] + [ops[i]] == ops[..i + 1];
        i := i + 1;
      }
      assert ops[..|ops|] == ops;
      ok := true;
    }
  }

  lemma {:induction false} ExecConcat(t: Table, first: seq<Op>, second: seq<Op>)
    requires Exec(t, first).Some?
    ensures Exec(t, first + second) == Exec(Exec(t, first).value, second)
    decreases |first|
  {
    if first == [] {
      assert first + second == second;
    } else {
      assert (first + second)[0] == first[0] && (first + second)[1..] == first[1..] + second;
      ExecConcat(Do(t, first[0]).value, first[1..], second);
    }
  }

  // ----- plans -----

  datatype ChainPlan = ChainPlan(name: string, rules: seq<Rule>)

  datatype Hook = Hook(from: string, chain: string)

  datatype Plan = Plan(chains: seq<ChainPlan>, hooks: seq<Hook>)

  function CreateOps(chains: seq<ChainPlan>, ensure: bool): seq<Op> {
    seq(|chains|, i requires 0 <= i < |chains| =>
      if ensure then EnsureChain(chains[i].name) else NewChain(chains[i].name))
  }

  function HookOps(hooks: seq<Hook>): seq<Op> {
    seq(|hooks|, i requires 0 <= i < |hooks| => AppendReplace(hooks[i].from, JumpTo(hooks[i].chain)))
  }

  function RuleOps(c: ChainPlan): seq<Op> {
    seq(|c.rules|, i requires 0 <= i < |c.rules| => AppendReplace(c.name, c.rules[i]))
  }

  function AllRuleOps(chains: seq<ChainPlan>): seq<Op> {
    if chains == [] then [] else RuleOps(chains[0]) + AllRuleOps(chains[1..])
  }

  /** create_chain(s) followed by insert_ip_table_rules. */
  function SetupOps(p: Plan, ensure: bool): seq<Op> {
    CreateOps(p.chains, ensure) + HookOps(p.hooks) + AllRuleOps(p.chains)
  }

  function FlushOps(chains: seq<ChainPlan>): seq<Op> {
    seq(|chains|, i requires 0 <= i < |chains| => Flush(chains[i].name))
  }

  function UnhookOps(hooks: seq<Hook>): seq<Op> {
    seq(|hooks|, i requires 0 <= i < |hooks| => Delete(hooks[i].from, JumpTo(hooks[i].chain)))
  }

  function DropOps(chains: seq<ChainPlan>): seq<Op> {
    seq(|chains|, i requires 0 <= i < |chains| => DeleteChain(chains[i].name))
  }

  /** delete_chain(s): flush the chains, delete the jumps, delete the chains. */
  function CleanupOps(p: Plan): seq<Op> {
    FlushOps(p.chains) + UnhookOps(p.hooks) + DropOps(p.chains)
  }

  function Names(chains: seq<ChainPlan>): set<string> {
    set i | 0 <= i < |chains| :: chains[i].name
  }

  predicate Distinct<T(==)>(s: seq<T>) {
    forall i, j :: 0 <= i < j < |s| ==> s[i] != s[j]
  }

  predicate ChainsOk(chains: seq<ChainPlan>) {
    && (forall i, j :: 0 <= i < j < |chains| ==> chains[i].name != chains[j].name)
    && (forall i :: 0 <= i < |chains| ==> Distinct(chains[i].rules))
    && (forall i, k :: 0 <= i < |chains| && 0 <= k < |chains[i].rules| ==> !chains[i].rules[k].target.Jump?)
  }

  predicate PlanOk(p: Plan) {
    && ChainsOk(p.chains) && Distinct(p.hooks)
    && (forall i :: 0 <= i < |p.hooks| ==> p.hooks[i].chain in Names(p.chains) && p.hooks[i].from !in Names(p.chains))
  }

  // ----- what a set-up table is, and what cleaning means -----

  /** The jumps the plan puts at the end of a chain, in order. */
  function HooksOf(hooks: seq<Hook>, chain: string): seq<Rule> {
    if hooks == [] then []
    else if hooks[0].from == chain then [JumpTo(hooks[0].chain)] + HooksOf(hooks[1..], chain)
    else HooksOf(hooks[1..], chain)
  }

  function RulesOf(chains: seq<ChainPlan>, name: string): seq<Rule> {
    if chains == [] then [] else if chains[0].name == name then chains[0].rules else RulesOf(chains[1..], name)
  }

  /** The table with the plan's chains, and its jumps behind the rules that were there. */
  function Installed(t: Table, p: Plan): Table {
    map c | c in t.Keys + Names(p.chains) ::
      if c in Names(p.chains) then RulesOf(p.chains, c) else t[c] + HooksOf(p.hooks, c)
  }

  /** A jump that one of the hooks puts into the chain. */
  predicate Own(hooks: seq<Hook>, chain: string, r: Rule) {
    exists i :: 0 <= i < |hooks| && hooks[i].from == chain && r == JumpTo(hooks[i].chain)
  }

  /** The rules of a chain that are not jumps of the hooks. */
  function Foreign(hooks: seq<Hook>, chain: string, rules: seq<Rule>): seq<Rule> {
    if rules == [] then []
    else if Own(hooks, chain, rules[0]) then Foreign(hooks, chain, rules[1..])
    else [rules[0]] + Foreign(hooks, chain, rules[1..])
  }

  /** The table without the plan's chains and jumps. */
  function Strip(t: Table, p: Plan): Table {
    map c | c in t && c !in Names(p.chains) :: Foreign(p.hooks, c, t[c])
  }

  predicate NoJumpInto(rules: seq<Rule>, chains: set<string>) {
    forall r :: r in rules && r.target.Jump? ==> r.target.chain !in chains
  }

  /** The plan has left no trace in the table, and the chains it hooks into exist. */
  predicate Fresh(t: Table, p: Plan) {
    && (forall i :: 0 <= i < |p.hooks| ==> p.hooks[i].from in t)
    && (forall c :: c in t ==> c !in Names(p.chains) && NoJumpInto(t[c], Names(p.chains)))
  }

  predicate HooksPresentOnce(t: Table, hooks: seq<Hook>) {
    forall i :: 0 <= i < |hooks| ==> hooks[i].from in t && multiset(t[hooks[i].from])[JumpTo(hooks[i].chain)] == 1
  }

  /** The plan's chains are there, each of its jumps exactly once, and nobody else refers to its chains. */
  predicate Removable(t: Table, p: Plan) {
    && (forall c :: c in Names(p.chains) ==> c in t)
    && HooksPresentOnce(t, p.hooks)
    && (forall c :: c in t && c !in Names(p.chains) ==> NoJumpInto(Foreign(p.hooks, c, t[c]), Names(p.chains)))
  }

  // ----- set-up -----

  lemma {:induction false} RemoveFirstAbsent(rules: seq<Rule>, r: Rule)
    requires r !in rules
    ensures RemoveFirst(rules, r) == rules
  {
    if rules != [] { RemoveFirstAbsent(rules[1..], r); }
  }

  function Empties(names: set<string>): Table {
    map c | c in names :: []
  }

  lemma {:induction false} CreateExec(t: Table, chains: seq<ChainPlan>, ensure: bool)
    requires forall i, j :: 0 <= i < j < |chains| ==> chains[i].name != chains[j].name
    requires forall i :: 0 <= i < |chains| ==> chains[i].name !in t
    ensures Exec(t, CreateOps(chains, ensure)) == Some(t + Empties(Names(chains)))
    decreases |chains|
  {
    var ops := CreateOps(chains, ensure);
    if chains == [] {
      assert t + Empties(Names(chains)) == t;
    } else {
      var t1 := t[chains[0].name := []];
      CreateExec(t1, chains[1..], ensure);
      assert ops[1..] == CreateOps(chains[1..], ensure);
      assert Do(t, ops[0]) == Some(t1);
      EmptiesCons(t, chains);
    }
  }

  lemma EmptiesCons(t: Table, chains: seq<ChainPlan>)
    requires chains != []
    ensures t[chains[0].name := []] + Empties(Names(chains[1..])) == t + Empties(Names(chains))
  {
    NamesCons(chains);
  }

  lemma NamesCons(chains: seq<ChainPlan>)
    requires chains != []
    ensures Names(chains) == {chains[0].name} + Names(chains[1..])
  {
    forall n | n in Names(chains) ensures n in {chains[0].name} + Names(chains[1..]) {
      var i :| 0 <= i < |chains| && chains[i].name == n;
      if i > 0 { assert chains[1..][i - 1].name == n; }
    }
    forall n | n in Names(chains[1..]) ensures n in Names(chains) {
      var i :| 0 <= i < |chains[1..]| && chains[1..][i].name == n;
      assert chains[i + 1].name == n;
    }
  }

  function Hooked(t: Table, hooks: seq<Hook>): Table {
    map c | c in t :: t[c] + HooksOf(hooks, c)
  }

  lemma {:induction false} HookExec(t: Table, hooks: seq<Hook>)
    requires Distinct(hooks)
    requires forall i :: 0 <= i < |hooks| ==>
      hooks[i].from in t && hooks[i].chain in t && JumpTo(hooks[i].chain) !in t[hooks[i].from]
    ensures Exec(t, HookOps(hooks)) == Some(Hooked(t, hooks))
    decreases |hooks|
  {
    var ops := HookOps(hooks);
    if hooks == [] {
      HookedNone(t);
    } else {
      var h := hooks[0];
      var t1 := t[h.from := t[h.from] + [JumpTo(h.chain)]];
      RemoveFirstAbsent(t[h.from], JumpTo(h.chain));
      HookExec(t1, hooks[1..]);
      assert ops[1..] == HookOps(hooks[1..]);
      assert Do(t, ops[0]) == Some(t1);
      HookedCons(t, hooks);
    }
  }

  lemma HookedNone(t: Table)
    ensures Hooked(t, []) == t
  {
    forall c | c in t ensures Hooked(t, [])[c] == t[c] { assert t[c] + [] == t[c]; }
  }

  lemma HookedCons(t: Table, hooks: seq<Hook>)
    requires hooks != [] && hooks[0].from in t
    ensures Hooked(t[hooks[0].from := t[hooks[0].from] + [JumpTo(hooks[0].chain)]], hooks[1..]) == Hooked(t, hooks)
  {
    var jump := JumpTo(hooks[0].chain);
    forall c | c in t ensures Hooked(t[hooks[0].from := t[hooks[0].from] + [jump]], hooks[1..])[c] == Hooked(t, hooks)[c] {
      var rest := HooksOf(hooks[1..], c);
      assert t[c] + [jump] + rest == t[c] + ([jump] + rest);
    }
  }

  lemma {:induction false} RulesExec(t: Table, c: ChainPlan)
    requires c.name in t && Distinct(c.rules)
    requires forall k :: 0 <= k < |c.rules| ==> !c.rules[k].target.Jump? && c.rules[k] !in t[c.name]
    ensures Exec(t, RuleOps(c)) == Some(t[c.name := t[c.name] + c.rules])
    decreases |c.rules|
  {
    var ops := RuleOps(c);
    if c.rules == [] {
      assert t[c.name] + [] == t[c.name];
      assert t[c.name := t[c.name]] == t;
    } else {
      var grown := t[c.name] + [c.rules[0]];
      var t1 := t[c.name := grown];
      RemoveFirstAbsent(t[c.name], c.rules[0]);
      var rest := ChainPlan(c.name, c.rules[1..]);
      RulesExec(t1, rest);
      assert ops[1..] == RuleOps(rest);
      assert Do(t, ops[0]) == Some(t1);
      assert grown + rest.rules == t[c.name] + c.rules;
      assert t1[c.name := grown + rest.rules] == t[c.name := t[c.name] + c.rules];
    }
  }

  function Filled(t: Table, chains: seq<ChainPlan>): Table {
    map c | c in t :: if c in Names(chains) then RulesOf(chains, c) else t[c]
  }

  lemma {:induction false} AllRulesExec(t: Table, chains: seq<ChainPlan>)
    requires ChainsOk(chains)
    requires forall i :: 0 <= i < |chains| ==> chains[i].name in t && t[chains[i].name] == []
    ensures Exec(t, AllRuleOps(chains)) == Some(Filled(t, chains))
    decreases |chains|
  {
    if chains == [] {
      assert Filled(t, chains) == t;
    } else {
      var c := chains[0];
      RulesExec(t, c);
      var t1 := t[c.name := c.rules];
      assert [] + c.rules == c.rules;
      ExecConcat(t, RuleOps(c), AllRuleOps(chains[1..]));
      AllRulesExec(t1, chains[1..]);
      FilledCons(t, chains);
    }
  }

  lemma FilledCons(t: Table, chains: seq<ChainPlan>)
    requires chains != [] && chains[0].name in t && ChainsOk(chains)
    ensures Filled(t[chains[0].name := chains[0].rules], chains[1..]) == Filled(t, chains)
  {
    NamesCons(chains);
    assert chains[0].name !in Names(chains[1..]);
  }

  /** From a table without traces of the plan, set-up succeeds and yields the installed table. */
  lemma SetupInstalls(t: Table, p: Plan, ensure: bool)
    requires PlanOk(p) && Fresh(t, p)
    ensures Exec(t, SetupOps(p, ensure)) == Some(Installed(t, p))
  {
    var create, hook, fill := CreateOps(p.chains, ensure), HookOps(p.hooks), AllRuleOps(p.chains);
    assert forall i :: 0 <= i < |p.chains| ==> p.chains[i].name in Names(p.chains);
    CreateExec(t, p.chains, ensure);
    var t1 := t + Empties(Names(p.chains));
    HooksAreNew(t, t1, p);
    HookExec(t1, p.hooks);
    OwnChainsEmpty(t1, p);
    AllRulesExec(Hooked(t1, p.hooks), p.chains);
    ExecConcat(t, create, hook);
    ExecConcat(t, create + hook, fill);
    StagesInstall(t, p);
  }

  lemma StagesInstall(t: Table, p: Plan)
    requires PlanOk(p) && Fresh(t, p)
    ensures Filled(Hooked(t + Empties(Names(p.chains)), p.hooks), p.chains) == Installed(t, p)
  {}

  lemma HooksAreNew(t: Table, t1: Table, p: Plan)
    requires PlanOk(p) && Fresh(t, p) && t1 == t + Empties(Names(p.chains))
    ensures forall i :: 0 <= i < |p.hooks| ==>
      p.hooks[i].from in t1 && p.hooks[i].chain in t1 && JumpTo(p.hooks[i].chain) !in t1[p.hooks[i].from]
  {
    forall i | 0 <= i < |p.hooks| ensures
      p.hooks[i].from in t1 && p.hooks[i].chain in t1 && JumpTo(p.hooks[i].chain) !in t1[p.hooks[i].from]
    {
      assert p.hooks[i].from in t && t1[p.hooks[i].from] == t[p.hooks[i].from];
      assert NoJumpInto(t[p.hooks[i].from], Names(p.chains));
    }
  }

  lemma OwnChainsEmpty(t1: Table, p: Plan)
    requires PlanOk(p) && forall c :: c in Names(p.chains) ==> c in t1 && t1[c] == []
    ensures forall i :: 0 <= i < |p.chains| ==>
      p.chains[i].name in Hooked(t1, p.hooks) && Hooked(t1, p.hooks)[p.chains[i].name] == []
  {
    forall i | 0 <= i < |p.chains| ensures
      p.chains[i].name in Hooked(t1, p.hooks) && Hooked(t1, p.hooks)[p.chains[i].name] == []
    {
      assert p.chains[i].name in Names(p.chains);
      NoHooksFrom(p.hooks, p.chains[i].name);
    }
  }

  lemma {:induction false} NoHooksFrom(hooks: seq<Hook>, chain: string)
    requires forall i :: 0 <= i < |hooks| ==> hooks[i].from != chain
    ensures HooksOf(hooks, chain) == []
  {
    if hooks != [] { NoHooksFrom(hooks[1..], chain); }
  }

  /** A set-up that insists on new chains is refused at its first operation if its first chain exists, so nothing is changed. */
  lemma SetupRefused(t: Table, p: Plan)
    requires p.chains != [] && p.chains[0].name in t
    ensures Exec(t, SetupOps(p, false)).None?
    ensures SetupOps(p, false) != [] && Do(t, SetupOps(p, false)[0]).None?
  {
    assert SetupOps(p, false)[0] == NewChain(p.chains[0].name);
  }

  // ----- set-up once more -----

  lemma {:induction false} RulesOfAt(cs: seq<ChainPlan>, i: nat)
    requires i < |cs| && forall i, j :: 0 <= i < j < |cs| ==> cs[i].name != cs[j].name
    ensures RulesOf(cs, cs[i].name) == cs[i].rules
  {
    if i > 0 {
      assert cs[0].name != cs[i].name && cs[1..][i - 1] == cs[i];
      RulesOfAt(cs[1..], i - 1);
    }
  }

  lemma {:induction false} RemoveFirstAfter(before: seq<Rule>, r: Rule, after: seq<Rule>)
    requires r !in before
    ensures RemoveFirst(before + [r] + after, r) == before + after
  {
    var rules := before + [r] + after;
    if before == [] {
      assert rules[0] == r && rules[1..] == after && [] + after == after;
    } else {
      RemoveFirstAfter(before[1..], r, after);
      assert rules[0] == before[0] && rules[1..] == before[1..] + [r] + after;
      assert [before[0]] + (before[1..] + after) == before + after;
    }
  }

  lemma {:induction false} CreateAgain(t: Table, chains: seq<ChainPlan>)
    requires forall i :: 0 <= i < |chains| ==> chains[i].name in t
    ensures Exec(t, CreateOps(chains, true)) == Some(t)
    decreases |chains|
  {
    if chains != [] {
      CreateAgain(t, chains[1..]);
      assert CreateOps(chains, true)[1..] == CreateOps(chains[1..], true);
      assert Do(t, CreateOps(chains, true)[0]) == Some(t);
    }
  }

  /** The first `i` jumps have been moved behind the others. */
  function Rotated(t: Table, hooks: seq<Hook>, i: nat): Table
    requires i <= |hooks|
  {
    map c | c in t :: t[c] + (HooksOf(hooks[i..], c) + HooksOf(hooks[..i], c))
  }

  lemma {:induction false} HooksOfConcat(a: seq<Hook>, b: seq<Hook>, chain: string)
    ensures HooksOf(a + b, chain) == HooksOf(a, chain) + HooksOf(b, chain)
    decreases |a|
  {
    if a == [] {
      assert a + b == b;
    } else {
      assert (a + b)[0] == a[0] && (a + b)[1..] == a[1..] + b;
      HooksOfConcat(a[1..], b, chain);
    }
  }

  lemma RotatedChain(t: Table, hooks: seq<Hook>, i: nat, c: string)
    requires i < |hooks| && c in t && (hooks[i].from == c ==> JumpTo(hooks[i].chain) !in t[c])
    ensures var before, after := Rotated(t, hooks, i)[c], Rotated(t, hooks, i + 1)[c];
      if hooks[i].from == c then RemoveFirst(before, JumpTo(hooks[i].chain)) + [JumpTo(hooks[i].chain)] == after else before == after
  {
    var h := hooks[i];
    var jump := JumpTo(h.chain);
    var rest, moved := HooksOf(hooks[i + 1..], c), HooksOf(hooks[..i], c);
    assert hooks[i..][0] == h && hooks[i..][1..] == hooks[i + 1..];
    assert hooks[..i + 1] == hooks[..i] + [h];
    HooksOfConcat(hooks[..i], [h], c);
    assert [h][1..] == [] && HooksOf([], c) == [];
    if h.from == c {
      assert t[c] + (([jump] + rest) + moved) == t[c] + [jump] + (rest + moved);
      RemoveFirstAfter(t[c], jump, rest + moved);
      assert t[c] + (rest + moved) + [jump] == t[c] + (rest + (moved + [jump]));
    } else {
      assert moved + [] == moved;
    }
  }

  lemma RotatedStep(t: Table, hooks: seq<Hook>, i: nat)
    requires i < |hooks| && hooks[i].from in t && hooks[i].chain in t && JumpTo(hooks[i].chain) !in t[hooks[i].from]
    ensures Do(Rotated(t, hooks, i), HookOps(hooks)[i]) == Some(Rotated(t, hooks, i + 1))
  {
    var from, jump := hooks[i].from, JumpTo(hooks[i].chain);
    var before, after := Rotated(t, hooks, i), Rotated(t, hooks, i + 1);
    forall c | c in t ensures if from == c then RemoveFirst(before[c], jump) + [jump] == after[c] else before[c] == after[c] {
      RotatedChain(t, hooks, i, c);
    }
    assert before[from := RemoveFirst(before[from], jump) + [jump]] == after;
  }

  lemma {:induction false} HooksAgain(t: Table, hooks: seq<Hook>, i: nat)
    requires i <= |hooks|
    requires forall k :: 0 <= k < |hooks| ==> hooks[k].from in t && hooks[k].chain in t && JumpTo(hooks[k].chain) !in t[hooks[k].from]
    ensures Exec(Rotated(t, hooks, i), HookOps(hooks)[i..]) == Some(Hooked(t, hooks))
    decreases |hooks| - i
  {
    var ops := HookOps(hooks);
    if i == |hooks| {
      assert hooks[..i] == hooks && hooks[i..] == [];
      forall c | c in t ensures Rotated(t, hooks, i)[c] == Hooked(t, hooks)[c] {
        assert HooksOf([], c) + HooksOf(hooks, c) == HooksOf(hooks, c);
      }
      assert Rotated(t, hooks, i) == Hooked(t, hooks);
    } else {
      RotatedStep(t, hooks, i);
      HooksAgain(t, hooks, i + 1);
      assert ops[i..][0] == ops[i] && ops[i..][1..] == ops[i + 1..];
    }
  }

  lemma {:induction false} RulesAgain(t: Table, c: ChainPlan, i: nat)
    requires i <= |c.rules| && c.name in t && t[c.name] == c.rules[i..] + c.rules[..i]
    requires forall k :: 0 <= k < |c.rules| ==> !c.rules[k].target.Jump?
    ensures Exec(t, RuleOps(c)[i..]) == Some(t[c.name := c.rules])
    decreases |c.rules| - i
  {
    var ops := RuleOps(c);
    if i == |c.rules| {
      assert t[c.name] == c.rules && t[c.name := c.rules] == t;
    } else {
      var r, rest := c.rules[i], c.rules[i + 1..] + c.rules[..i];
      assert t[c.name] == [] + [r] + rest;
      RemoveFirstAfter([], r, rest);
      var t1 := t[c.name := rest + [r]];
      assert rest + [r] == c.rules[i + 1..] + c.rules[..i + 1];
      assert Do(t, ops[i]) == Some(t1);
      RulesAgain(t1, c, i + 1);
      assert ops[i..][0] == ops[i] && ops[i..][1..] == ops[i + 1..];
      assert t1[c.name := c.rules] == t[c.name := c.rules];
    }
  }

  lemma {:induction false} AllRulesAgain(t: Table, chains: seq<ChainPlan>)
    requires ChainsOk(chains)
    requires forall i :: 0 <= i < |chains| ==> chains[i].name in t && t[chains[i].name] == chains[i].rules
    ensures Exec(t, AllRuleOps(chains)) == Some(t)
    decreases |chains|
  {
    if chains != [] {
      var c := chains[0];
      assert c.rules[0..] + c.rules[..0] == c.rules;
      RulesAgain(t, c, 0);
      assert RuleOps(c)[0..] == RuleOps(c) && t[c.name := c.rules] == t;
      ExecConcat(t, RuleOps(c), AllRuleOps(chains[1..]));
      AllRulesAgain(t, chains[1..]);
    }
  }

  /** A set-up that takes existing chains as they are can be repeated: every rule is moved once around and nothing changes. */
  lemma SetupAgain(t: Table, p: Plan)
    requires PlanOk(p) && Fresh(t, p)
    ensures Exec(Installed(t, p), SetupOps(p, true)) == Some(Installed(t, p))
  {
    var t1 := Installed(t, p);
    var create, hook, fill := CreateOps(p.chains, true), HookOps(p.hooks), AllRuleOps(p.chains);
    OwnChainsFilled(t, p);
    CreateAgain(t1, p.chains);
    InstalledHooksAgain(t, p);
    AllRulesAgain(t1, p.chains);
    ExecConcat(t1, create, hook);
    ExecConcat(t1, create + hook, fill);
  }

  lemma OwnChainsFilled(t: Table, p: Plan)
    requires PlanOk(p)
    ensures forall i :: 0 <= i < |p.chains| ==>
      p.chains[i].name in Installed(t, p) && Installed(t, p)[p.chains[i].name] == p.chains[i].rules
  {
    forall i | 0 <= i < |p.chains|
      ensures p.chains[i].name in Installed(t, p) && Installed(t, p)[p.chains[i].name] == p.chains[i].rules
    {
      assert p.chains[i].name in Names(p.chains);
      RulesOfAt(p.chains, i);
    }
  }

  lemma InstalledHooksAgain(t: Table, p: Plan)
    requires PlanOk(p) && Fresh(t, p)
    ensures Exec(Installed(t, p), HookOps(p.hooks)) == Some(Installed(t, p))
  {
    var empty := t + Empties(Names(p.chains));
    var bare := Filled(empty, p.chains);
    HooksAreNew(t, empty, p);
    assert forall i :: 0 <= i < |p.hooks| ==> bare[p.hooks[i].from] == empty[p.hooks[i].from];
    HooksAgain(bare, p.hooks, 0);
    RotatedNone(bare, p.hooks);
    BareHooked(t, p);
    assert HookOps(p.hooks)[0..] == HookOps(p.hooks);
  }

  lemma RotatedNone(t: Table, hooks: seq<Hook>)
    ensures Rotated(t, hooks, 0) == Hooked(t, hooks)
  {
    assert hooks[0..] == hooks && hooks[..0] == [];
    forall c | c in t ensures Rotated(t, hooks, 0)[c] == Hooked(t, hooks)[c] {
      assert HooksOf(hooks, c) + HooksOf([], c) == HooksOf(hooks, c);
    }
  }

  lemma BareHooked(t: Table, p: Plan)
    requires forall i :: 0 <= i < |p.hooks| ==> p.hooks[i].from !in Names(p.chains)
    ensures Hooked(Filled(t + Empties(Names(p.chains)), p.chains), p.hooks) == Installed(t, p)
  {
    forall c | c in Names(p.chains) ensures RulesOf(p.chains, c) + HooksOf(p.hooks, c) == RulesOf(p.chains, c) {
      NoHooksFrom(p.hooks, c);
    }
  }

  // ----- cleanup -----

  function Flushed(t: Table, chains: seq<ChainPlan>): Table {
    map c | c in t :: if c in Names(chains) then [] else t[c]
  }

  lemma {:induction false} FlushExec(t: Table, chains: seq<ChainPlan>)
    requires forall i :: 0 <= i < |chains| ==> chains[i].name in t
    ensures Exec(t, FlushOps(chains)) == Some(Flushed(t, chains))
    decreases |chains|
  {
    var ops := FlushOps(chains);
    if chains == [] {
      assert Flushed(t, chains) == t;
    } else {
      var t1 := t[chains[0].name := []];
      FlushExec(t1, chains[1..]);
      assert ops[1..] == FlushOps(chains[1..]);
      assert Do(t, ops[0]) == Some(t1);
      FlushedCons(t, chains);
    }
  }

  lemma FlushedCons(t: Table, chains: seq<ChainPlan>)
    requires chains != [] && chains[0].name in t
    ensures Flushed(t[chains[0].name := []], chains[1..]) == Flushed(t, chains)
  {
    NamesCons(chains);
  }

  lemma {:induction false} RemoveFirstCount(rules: seq<Rule>, r: Rule)
    requires r in rules
    ensures multiset(RemoveFirst(rules, r)) == multiset(rules) - multiset{r}
  {
    assert rules == [rules[0]] + rules[1..];
    if rules[0] != r {
      assert multiset(rules) == multiset{rules[0]} + multiset(rules[1..]);
      RemoveFirstCount(rules[1..], r);
    }
  }

  /** append_replace: the rule is last, and there are as many copies as before, or one if there was none. */
  lemma ReplaceMovesToTheEnd(t: Table, c: string, r: Rule)
    requires Do(t, AppendReplace(c, r)).Some?
    ensures c in t && c in Do(t, AppendReplace(c, r)).value
    ensures var rules := Do(t, AppendReplace(c, r)).value[c];
      && |rules| > 0 && rules[|rules| - 1] == r
      && multiset(rules) == multiset(t[c]) + (if r in t[c] then multiset{} else multiset{r})
  {
    var rest := RemoveFirst(t[c], r);
    assert multiset(rest + [r]) == multiset(rest) + multiset{r};
    if r in t[c] {
      RemoveFirstCount(t[c], r);
      assert r in multiset(t[c]);
    } else {
      RemoveFirstAbsent(t[c], r);
    }
  }

  lemma {:induction false} ForeignAgree(hooks: seq<Hook>, others: seq<Hook>, chain: string, rules: seq<Rule>)
    requires forall r :: r in rules ==> (Own(hooks, chain, r) <==> Own(others, chain, r))
    ensures Foreign(hooks, chain, rules) == Foreign(others, chain, rules)
  {
    if rules != [] {
      assert rules[0] in rules;
      ForeignAgree(hooks, others, chain, rules[1..]);
    }
  }

  lemma OwnCons(hooks: seq<Hook>, chain: string, r: Rule)
    requires hooks != []
    ensures Own(hooks, chain, r) <==> (hooks[0].from == chain && r == JumpTo(hooks[0].chain)) || Own(hooks[1..], chain, r)
  {
    if Own(hooks, chain, r) {
      var i :| 0 <= i < |hooks| && hooks[i].from == chain && r == JumpTo(hooks[i].chain);
      if i > 0 { assert hooks[1..][i - 1] == hooks[i]; }
    }
    if Own(hooks[1..], chain, r) {
      var i :| 0 <= i < |hooks[1..]| && hooks[1..][i].from == chain && r == JumpTo(hooks[1..][i].chain);
      assert hooks[i + 1] == hooks[1..][i];
    }
  }

  /** Deleting the only copy of the first hook's jump leaves what the other hooks see. */
  lemma {:induction false} ForeignWithoutFirst(hooks: seq<Hook>, rules: seq<Rule>)
    requires hooks != [] && multiset(rules)[JumpTo(hooks[0].chain)] == 1
    ensures Foreign(hooks[1..], hooks[0].from, RemoveFirst(rules, JumpTo(hooks[0].chain))) == Foreign(hooks, hooks[0].from, rules)
    decreases |rules|
  {
    var jump, chain := JumpTo(hooks[0].chain), hooks[0].from;
    assert jump in multiset(rules);
    assert rules == [rules[0]] + rules[1..];
    assert multiset(rules) == multiset{rules[0]} + multiset(rules[1..]);
    OwnCons(hooks, chain, rules[0]);
    if rules[0] == jump {
      assert jump !in multiset(rules[1..]);
      forall r | r in rules[1..] ensures Own(hooks[1..], chain, r) <==> Own(hooks, chain, r) {
        assert r in multiset(rules[1..]);
        OwnCons(hooks, chain, r);
      }
      ForeignAgree(hooks[1..], hooks, chain, rules[1..]);
    } else {
      ForeignWithoutFirst(hooks, rules[1..]);
      var rest := RemoveFirst(rules[1..], jump);
      assert RemoveFirst(rules, jump) == [rules[0]] + rest;
      assert ([rules[0]] + rest)[1..] == rest;
    }
  }

  function Unhooked(t: Table, hooks: seq<Hook>): Table {
    map c | c in t :: Foreign(hooks, c, t[c])
  }

  lemma {:induction false} UnhookExec(t: Table, hooks: seq<Hook>)
    requires Distinct(hooks) && HooksPresentOnce(t, hooks)
    ensures Exec(t, UnhookOps(hooks)) == Some(Unhooked(t, hooks))
    decreases |hooks|
  {
    var ops := UnhookOps(hooks);
    if hooks == [] {
      UnhookedNone(t);
    } else {
      var h := hooks[0];
      var t1 := t[h.from := RemoveFirst(t[h.from], JumpTo(h.chain))];
      assert JumpTo(h.chain) in multiset(t[h.from]);
      OtherHooksStay(t, hooks);
      UnhookExec(t1, hooks[1..]);
      assert ops[1..] == UnhookOps(hooks[1..]);
      assert Do(t, ops[0]) == Some(t1);
      UnhookedCons(t, hooks);
    }
  }

  lemma {:induction false} NothingOwn(chain: string, rules: seq<Rule>)
    ensures Foreign([], chain, rules) == rules
  {
    if rules != [] { NothingOwn(chain, rules[1..]); }
  }

  lemma UnhookedNone(t: Table)
    ensures Unhooked(t, []) == t
  {
    forall c | c in t ensures Unhooked(t, [])[c] == t[c] { NothingOwn(c, t[c]); }
  }

  lemma OtherHooksStay(t: Table, hooks: seq<Hook>)
    requires hooks != [] && Distinct(hooks) && HooksPresentOnce(t, hooks)
    ensures HooksPresentOnce(t[hooks[0].from := RemoveFirst(t[hooks[0].from], JumpTo(hooks[0].chain))], hooks[1..])
  {
    var h := hooks[0];
    assert JumpTo(h.chain) in multiset(t[h.from]);
    RemoveFirstCount(t[h.from], JumpTo(h.chain));
    forall i | 0 <= i < |hooks[1..]| ensures hooks[1..][i] == hooks[i + 1] && hooks[i + 1] != h {}
  }

  lemma UnhookedCons(t: Table, hooks: seq<Hook>)
    requires hooks != [] && HooksPresentOnce(t, hooks)
    ensures Unhooked(t[hooks[0].from := RemoveFirst(t[hooks[0].from], JumpTo(hooks[0].chain))], hooks[1..]) == Unhooked(t, hooks)
  {
    forall c | c in t && c != hooks[0].from ensures Foreign(hooks[1..], c, t[c]) == Foreign(hooks, c, t[c]) {
      forall r | r in t[c] ensures Own(hooks[1..], c, r) <==> Own(hooks, c, r) { OwnCons(hooks, c, r); }
      ForeignAgree(hooks[1..], hooks, c, t[c]);
    }
    ForeignWithoutFirst(hooks, t[hooks[0].from]);
  }

  lemma {:induction false} DropExec(t: Table, chains: seq<ChainPlan>)
    requires forall i, j :: 0 <= i < j < |chains| ==> chains[i].name != chains[j].name
    requires forall c :: c in Names(chains) ==> c in t && t[c] == []
    requires forall c :: c in t ==> NoJumpInto(t[c], Names(chains))
    ensures Exec(t, DropOps(chains)) == Some(t - Names(chains))
    decreases |chains|
  {
    var ops := DropOps(chains);
    if chains == [] {
      assert t - Names(chains) == t;
    } else {
      NamesCons(chains);
      var t1 := t - {chains[0].name};
      assert chains[0].name in Names(chains);
      assert !Referenced(t, chains[0].name);
      DropExec(t1, chains[1..]);
      assert ops[1..] == DropOps(chains[1..]);
      assert Do(t, ops[0]) == Some(t1);
      assert t1 - Names(chains[1..]) == t - Names(chains);
    }
  }

  /**
    Cleanup succeeds on every table that holds the plan's chains and jumps, whatever else it
    holds, and leaves exactly everything else, in the same order.
   */
  lemma CleanupStrips(t: Table, p: Plan)
    requires PlanOk(p) && Removable(t, p)
    ensures Exec(t, CleanupOps(p)) == Some(Strip(t, p))
  {
    var names := Names(p.chains);
    var flush, unhook, drop := FlushOps(p.chains), UnhookOps(p.hooks), DropOps(p.chains);
    assert forall i :: 0 <= i < |p.chains| ==> p.chains[i].name in names;
    FlushExec(t, p.chains);
    var t1 := Flushed(t, p.chains);
    assert forall i :: 0 <= i < |p.hooks| ==> t1[p.hooks[i].from] == t[p.hooks[i].from];
    UnhookExec(t1, p.hooks);
    var t2 := Unhooked(t1, p.hooks);
    forall c | c in t2 ensures NoJumpInto(t2[c], names) && (c in names ==> t2[c] == []) {
      if c !in names { assert t2[c] == Foreign(p.hooks, c, t[c]); }
    }
    DropExec(t2, p.chains);
    ExecConcat(t, flush, unhook);
    ExecConcat(t, flush + unhook, drop);
    assert t2 - names == Strip(t, p);
  }

  // ----- when cleanup succeeds -----

  lemma {:induction false} ExecPrefix(t: Table, first: seq<Op>, second: seq<Op>)
    requires Exec(t, first + second).Some?
    ensures Exec(t, first).Some?
    decreases |first|
  {
    if first != [] {
      assert (first + second)[0] == first[0] && (first + second)[1..] == first[1..] + second;
      ExecPrefix(Do(t, first[0]).value, first[1..], second);
    }
  }

  lemma {:induction false} FlushNeeds(t: Table, chains: seq<ChainPlan>)
    requires Exec(t, FlushOps(chains)).Some?
    ensures forall i :: 0 <= i < |chains| ==> chains[i].name in t
    decreases |chains|
  {
    if chains != [] {
      var ops := FlushOps(chains);
      assert ops[1..] == FlushOps(chains[1..]);
      assert Do(t, ops[0]) == Some(t[chains[0].name := []]);
      FlushNeeds(t[chains[0].name := []], chains[1..]);
      forall i | 0 <= i < |chains| ensures chains[i].name in t {
        if i > 0 { assert chains[i] == chains[1..][i - 1]; }
      }
    }
  }

  /** How often a chain holds a rule. */
  function Copies(t: Table, c: string, r: Rule): nat {
    if c in t then multiset(t[c])[r] else 0
  }

  /** Deleting the jumps takes one copy of each, and one has to be there. */
  lemma {:induction false} UnhookNeeds(t: Table, hooks: seq<Hook>, c: string, r: Rule)
    requires Distinct(hooks) && Exec(t, UnhookOps(hooks)).Some?
    ensures Copies(t, c, r) == Copies(Exec(t, UnhookOps(hooks)).value, c, r) + (if Own(hooks, c, r) then 1 else 0)
    ensures Exec(t, UnhookOps(hooks)).value.Keys == t.Keys
    decreases |hooks|
  {
    if hooks != [] {
      var h, ops := hooks[0], UnhookOps(hooks);
      var jump := JumpTo(h.chain);
      var t1 := t[h.from := RemoveFirst(t[h.from], jump)];
      assert ops[1..] == UnhookOps(hooks[1..]);
      assert Do(t, ops[0]) == Some(t1);
      UnhookNeeds(t1, hooks[1..], c, r);
      RemoveFirstCount(t[h.from], jump);
      assert jump in multiset(t[h.from]);
      OwnCons(hooks, c, r);
      assert forall i :: 0 <= i < |hooks[1..]| ==> hooks[1..][i] == hooks[i + 1] && hooks[i + 1] != h;
    }
  }

  lemma {:induction false} DropNeeds(t: Table, chains: seq<ChainPlan>)
    requires Exec(t, DropOps(chains)).Some?
    ensures forall c :: c in t && c !in Names(chains) ==> NoJumpInto(t[c], Names(chains))
    decreases |chains|
  {
    if chains != [] {
      var ops, t1 := DropOps(chains), t - {chains[0].name};
      assert ops[1..] == DropOps(chains[1..]);
      assert Do(t, ops[0]) == Some(t1) && !Referenced(t, chains[0].name);
      DropNeeds(t1, chains[1..]);
      NamesCons(chains);
      forall c | c in t && c !in Names(chains) ensures NoJumpInto(t[c], Names(chains)) {
        assert c in t1 && t1[c] == t[c];
      }
    }
  }

  lemma {:induction false} ForeignMember(hooks: seq<Hook>, chain: string, rules: seq<Rule>, r: Rule)
    requires r in Foreign(hooks, chain, rules)
    ensures r in rules && !Own(hooks, chain, r)
  {
    if !(rules[0] == r && !Own(hooks, chain, r)) { ForeignMember(hooks, chain, rules[1..], r); }
  }

  /** The kernel takes the whole cleanup exactly if the table is removable; otherwise some step is refused. */
  lemma CleanupOkIff(t: Table, p: Plan)
    requires PlanOk(p)
    ensures Exec(t, CleanupOps(p)).Some? <==> Removable(t, p)
  {
    if Removable(t, p) {
      CleanupStrips(t, p);
    } else if Exec(t, CleanupOps(p)).Some? {
      CleanupNeeds(t, p);
    }
  }

  lemma CleanupNeeds(t: Table, p: Plan)
    requires PlanOk(p) && Exec(t, CleanupOps(p)).Some?
    ensures Removable(t, p)
  {
    var names := Names(p.chains);
    var flush, unhook, drop := FlushOps(p.chains), UnhookOps(p.hooks), DropOps(p.chains);
    ExecPrefix(t, flush + unhook, drop);
    ExecPrefix(t, flush, unhook);
    ExecConcat(t, flush, unhook);
    ExecConcat(t, flush + unhook, drop);
    FlushNeeds(t, p.chains);
    FlushExec(t, p.chains);
    var t1 := Flushed(t, p.chains);
    var t2 := Exec(t1, unhook).value;
    DropNeeds(t2, p.chains);
    forall c, r | c in t && c !in names
      ensures c in t2 && NoJumpInto(t2[c], names)
      ensures multiset(t[c])[r] == multiset(t2[c])[r] + (if Own(p.hooks, c, r) then 1 else 0)
    {
      UnhookNeeds(t1, p.hooks, c, r);
    }
    forall i | 0 <= i < |p.hooks|
      ensures p.hooks[i].from in t && multiset(t[p.hooks[i].from])[JumpTo(p.hooks[i].chain)] == 1
    {
      var c, jump := p.hooks[i].from, JumpTo(p.hooks[i].chain);
      UnhookNeeds(t1, p.hooks, c, jump);
      assert Own(p.hooks, c, jump);
      assert jump !in multiset(t2[c]);
    }
    forall c | c in t && c !in names ensures NoJumpInto(Foreign(p.hooks, c, t[c]), names) {
      forall r | r in Foreign(p.hooks, c, t[c]) && r.target.Jump? ensures r.target.chain !in names {
        ForeignMember(p.hooks, c, t[c], r);
        assert r in multiset(t[c]);
        assert r in multiset(t2[c]);
      }
    }
  }

  // ----- the round trip -----

  lemma {:induction false} ForeignConcat(hooks: seq<Hook>, chain: string, a: seq<Rule>, b: seq<Rule>)
    ensures Foreign(hooks, chain, a + b) == Foreign(hooks, chain, a) + Foreign(hooks, chain, b)
  {
    if a == [] {
      assert a + b == b;
    } else {
      assert (a + b)[0] == a[0] && (a + b)[1..] == a[1..] + b;
      ForeignConcat(hooks, chain, a[1..], b);
    }
  }

  lemma {:induction false} ForeignAll(hooks: seq<Hook>, chain: string, rules: seq<Rule>)
    requires forall r :: r in rules ==> !Own(hooks, chain, r)
    ensures Foreign(hooks, chain, rules) == rules
  {
    if rules != [] {
      assert rules[0] in rules;
      ForeignAll(hooks, chain, rules[1..]);
    }
  }

  lemma {:induction false} ForeignNone(hooks: seq<Hook>, chain: string, rules: seq<Rule>)
    requires forall r :: r in rules ==> Own(hooks, chain, r)
    ensures Foreign(hooks, chain, rules) == []
  {
    if rules != [] {
      assert rules[0] in rules;
      ForeignNone(hooks, chain, rules[1..]);
    }
  }

  lemma {:induction false} HooksOfMember(hooks: seq<Hook>, chain: string, r: Rule)
    ensures r in HooksOf(hooks, chain) <==> Own(hooks, chain, r)
  {
    if hooks != [] {
      OwnCons(hooks, chain, r);
      HooksOfMember(hooks[1..], chain, r);
    }
  }

  lemma {:induction false} HooksOfCount(hooks: seq<Hook>, i: nat)
    requires Distinct(hooks) && i < |hooks|
    ensures multiset(HooksOf(hooks, hooks[i].from))[JumpTo(hooks[i].chain)] == 1
  {
    var chain, jump := hooks[i].from, JumpTo(hooks[i].chain);
    var rest := HooksOf(hooks[1..], chain);
    assert hooks[0].from == chain ==>
      multiset(HooksOf(hooks, chain)) == multiset{JumpTo(hooks[0].chain)} + multiset(rest);
    if i > 0 {
      assert hooks[1..][i - 1] == hooks[i] && hooks[0] != hooks[i];
      HooksOfCount(hooks[1..], i - 1);
    } else {
      HooksOfMember(hooks[1..], chain, jump);
      assert !Own(hooks[1..], chain, jump);
      assert jump !in multiset(rest);
    }
  }

  lemma StrippedChain(p: Plan, chain: string, rules: seq<Rule>)
    requires PlanOk(p) && NoJumpInto(rules, Names(p.chains))
    ensures Foreign(p.hooks, chain, rules + HooksOf(p.hooks, chain)) == rules
  {
    var own := HooksOf(p.hooks, chain);
    ForeignConcat(p.hooks, chain, rules, own);
    ForeignAll(p.hooks, chain, rules);
    forall r | r in own ensures Own(p.hooks, chain, r) { HooksOfMember(p.hooks, chain, r); }
    ForeignNone(p.hooks, chain, own);
  }

  lemma InstalledOnce(t: Table, p: Plan, i: nat)
    requires PlanOk(p) && Fresh(t, p) && i < |p.hooks|
    ensures multiset(Installed(t, p)[p.hooks[i].from])[JumpTo(p.hooks[i].chain)] == 1
  {
    var from, jump := p.hooks[i].from, JumpTo(p.hooks[i].chain);
    assert NoJumpInto(t[from], Names(p.chains));
    HooksOfCount(p.hooks, i);
    assert jump !in multiset(t[from]);
    assert multiset(t[from] + HooksOf(p.hooks, from)) == multiset(t[from]) + multiset(HooksOf(p.hooks, from));
  }

  lemma InstalledKeepsForeign(t: Table, p: Plan)
    requires PlanOk(p) && Fresh(t, p)
    ensures forall c :: c in t ==> Foreign(p.hooks, c, Installed(t, p)[c]) == t[c]
  {
    forall c | c in t ensures Foreign(p.hooks, c, Installed(t, p)[c]) == t[c] {
      StrippedChain(p, c, t[c]);
      assert Installed(t, p)[c] == t[c] + HooksOf(p.hooks, c);
    }
  }

  lemma InstalledHooks(t: Table, p: Plan)
    requires PlanOk(p) && Fresh(t, p)
    ensures HooksPresentOnce(Installed(t, p), p.hooks)
  {
    forall i | 0 <= i < |p.hooks| ensures
      p.hooks[i].from in Installed(t, p) && multiset(Installed(t, p)[p.hooks[i].from])[JumpTo(p.hooks[i].chain)] == 1
    {
      InstalledOnce(t, p, i);
    }
  }

  lemma ForeignPartStrips(t: Table, t1: Table, p: Plan)
    requires HooksPresentOnce(t1, p.hooks)
    requires t1.Keys == t.Keys + Names(p.chains)
    requires forall c :: c in t ==> c !in Names(p.chains) && NoJumpInto(t[c], Names(p.chains))
    requires forall c :: c in t ==> Foreign(p.hooks, c, t1[c]) == t[c]
    ensures Removable(t1, p) && Strip(t1, p) == t
  {
    assert Strip(t1, p).Keys == t.Keys;
  }

  /** What set-up installs can be removed, and removing it gives back the table of before. */
  lemma InstalledStrips(t: Table, p: Plan)
    requires PlanOk(p) && Fresh(t, p)
    ensures Removable(Installed(t, p), p) && Strip(Installed(t, p), p) == t
  {
    InstalledKeepsForeign(t, p);
    InstalledHooks(t, p);
    ForeignPartStrips(t, Installed(t, p), p);
  }

  // ----- changes made by others in between -----

  datatype Edit =
    | AddChain(chain: string)
    | InsertRule(chain: string, at: nat, rule: Rule)
    | RemoveRule(chain: string, at: nat)
    | RemoveChain(chain: string)

  /** A change of a table that leaves the plan's chains and jumps alone. */
  predicate EditOk(t: Table, p: Plan, e: Edit) {
    match e
    case AddChain(c) => c !in t && c !in Names(p.chains)
    case InsertRule(c, at, r) =>
      c in t && c !in Names(p.chains) && at <= |t[c]| && (r.target.Jump? ==> r.target.chain !in Names(p.chains))
    case RemoveRule(c, at) => c in t && c !in Names(p.chains) && at < |t[c]| && !Own(p.hooks, c, t[c][at])
    case RemoveChain(c) => c in t && c !in Names(p.chains) && t[c] == [] && !Referenced(t, c)
  }

  function Edited(t: Table, e: Edit): Table {
    match e
    case AddChain(c) => t[c := []]
    case InsertRule(c, at, r) => if c in t && at <= |t[c]| then t[c := t[c][..at] + [r] + t[c][at..]] else t
    case RemoveRule(c, at) => if c in t && at < |t[c]| then t[c := t[c][..at] + t[c][at + 1..]] else t
    case RemoveChain(c) => t - {c}
  }

  /** The same change, as it reads in the table without the plan's jumps. */
  function Translated(t: Table, p: Plan, e: Edit): Edit
    requires EditOk(t, p, e)
  {
    match e
    case AddChain(c) => e
    case RemoveChain(c) => e
    case InsertRule(c, at, r) => InsertRule(c, |Foreign(p.hooks, c, t[c][..at])|, r)
    case RemoveRule(c, at) => RemoveRule(c, |Foreign(p.hooks, c, t[c][..at])|)
  }

  predicate EditsOk(t: Table, p: Plan, edits: seq<Edit>)
    decreases |edits|
  {
    edits == [] || (EditOk(t, p, edits[0]) && EditsOk(Edited(t, edits[0]), p, edits[1..]))
  }

  function EditedBy(t: Table, edits: seq<Edit>): Table
    decreases |edits|
  {
    if edits == [] then t else EditedBy(Edited(t, edits[0]), edits[1..])
  }

  function TranslatedBy(t: Table, p: Plan, edits: seq<Edit>): seq<Edit>
    requires EditsOk(t, p, edits)
    decreases |edits|
  {
    if edits == [] then []
    else [Translated(t, p, edits[0])] + TranslatedBy(Edited(t, edits[0]), p, edits[1..])
  }

  lemma InsertForeign(p: Plan, c: string, rules: seq<Rule>, at: nat, r: Rule)
    requires at <= |rules| && !Own(p.hooks, c, r)
    ensures var k := |Foreign(p.hooks, c, rules[..at])|; var f := Foreign(p.hooks, c, rules);
      k <= |f| && Foreign(p.hooks, c, rules[..at] + [r] + rules[at..]) == f[..k] + [r] + f[k..]
  {
    ForeignConcat(p.hooks, c, rules[..at], rules[at..]);
    assert rules[..at] + rules[at..] == rules;
    ForeignConcat(p.hooks, c, rules[..at] + [r], rules[at..]);
    ForeignConcat(p.hooks, c, rules[..at], [r]);
  }

  lemma RemoveForeign(p: Plan, c: string, rules: seq<Rule>, at: nat)
    requires at < |rules| && !Own(p.hooks, c, rules[at])
    ensures var k := |Foreign(p.hooks, c, rules[..at])|; var f := Foreign(p.hooks, c, rules);
      k < |f| && f[k] == rules[at] && Foreign(p.hooks, c, rules[..at] + rules[at + 1..]) == f[..k] + f[k + 1..]
  {
    InsertForeign(p, c, rules[..at] + rules[at + 1..], at, rules[at]);
    var less := rules[..at] + rules[at + 1..];
    assert less[..at] == rules[..at] && less[at..] == rules[at + 1..];
    assert less[..at] + [rules[at]] + less[at..] == rules;
  }

  lemma StripChanged(t: Table, p: Plan, c: string, rules: seq<Rule>)
    requires c in t && c !in Names(p.chains)
    ensures Strip(t[c := rules], p) == Strip(t, p)[c := Foreign(p.hooks, c, rules)]
  {
  }

  lemma EditMakes(t: Table, p: Plan, e: Edit)
    requires PlanOk(p) && Removable(t, p) && EditOk(t, p, e)
    ensures Strip(Edited(t, e), p) == Edited(Strip(t, p), Translated(t, p, e))
  {
    match e
    case AddChain(c) =>
    case RemoveChain(c) =>
    case InsertRule(c, at, r) =>
      InsertForeign(p, c, t[c], at, r);
      StripChanged(t, p, c, t[c][..at] + [r] + t[c][at..]);
    case RemoveRule(c, at) =>
      RemoveForeign(p, c, t[c], at);
      StripChanged(t, p, c, t[c][..at] + t[c][at + 1..]);
  }

  lemma ChangedChainRemovable(t: Table, p: Plan, c: string, rules: seq<Rule>)
    requires Removable(t, p) && c in t && c !in Names(p.chains)
    requires forall i :: 0 <= i < |p.hooks| && p.hooks[i].from == c ==>
      multiset(rules)[JumpTo(p.hooks[i].chain)] == multiset(t[c])[JumpTo(p.hooks[i].chain)]
    requires NoJumpInto(Foreign(p.hooks, c, rules), Names(p.chains))
    ensures Removable(t[c := rules], p)
  {}

  lemma InsertCounts(rules: seq<Rule>, at: nat, r: Rule)
    requires at <= |rules|
    ensures multiset(rules[..at] + [r] + rules[at..]) == multiset(rules) + multiset{r}
  {
    assert rules == rules[..at] + rules[at..];
  }

  lemma InsertJumpsNowhere(p: Plan, c: string, rules: seq<Rule>, at: nat, r: Rule)
    requires at <= |rules| && !Own(p.hooks, c, r) && (r.target.Jump? ==> r.target.chain !in Names(p.chains))
    requires NoJumpInto(Foreign(p.hooks, c, rules), Names(p.chains))
    ensures NoJumpInto(Foreign(p.hooks, c, rules[..at] + [r] + rules[at..]), Names(p.chains))
  {
    InsertForeign(p, c, rules, at, r);
    assert forall x :: x in Foreign(p.hooks, c, rules[..at] + [r] + rules[at..]) ==> x in Foreign(p.hooks, c, rules) || x == r;
  }

  lemma InsertKeepsRemovable(t: Table, p: Plan, c: string, at: nat, r: Rule)
    requires PlanOk(p) && Removable(t, p) && EditOk(t, p, InsertRule(c, at, r))
    ensures Removable(Edited(t, InsertRule(c, at, r)), p)
  {
    InsertCounts(t[c], at, r);
    InsertJumpsNowhere(p, c, t[c], at, r);
    ChangedChainRemovable(t, p, c, t[c][..at] + [r] + t[c][at..]);
  }

  lemma RemoveKeepsRemovable(t: Table, p: Plan, c: string, at: nat)
    requires PlanOk(p) && Removable(t, p) && EditOk(t, p, RemoveRule(c, at))
    ensures Removable(Edited(t, RemoveRule(c, at)), p)
  {
    var rules, f := t[c], Foreign(p.hooks, c, t[c]);
    var less := rules[..at] + rules[at + 1..];
    RemoveForeign(p, c, rules, at);
    assert rules == rules[..at] + [rules[at]] + rules[at + 1..];
    assert multiset(rules) == multiset(less) + multiset{rules[at]};
    assert forall x :: x in Foreign(p.hooks, c, less) ==> x in f;
    ChangedChainRemovable(t, p, c, less);
  }

  lemma EditKeepsRemovable(t: Table, p: Plan, e: Edit)
    requires PlanOk(p) && Removable(t, p) && EditOk(t, p, e)
    ensures Removable(Edited(t, e), p)
  {
    match e
    case AddChain(c) =>
    case InsertRule(c, at, r) => InsertKeepsRemovable(t, p, c, at, r);
    case RemoveRule(c, at) => RemoveKeepsRemovable(t, p, c, at);
    case RemoveChain(c) => RemoveChainKeepsRemovable(t, p, c);
  }

  lemma RemoveChainKeepsRemovable(t: Table, p: Plan, c: string)
    requires Removable(t, p) && c in t && c !in Names(p.chains) && t[c] == []
    ensures Removable(t - {c}, p)
  {
    forall i | 0 <= i < |p.hooks| ensures p.hooks[i].from != c {
      assert multiset(t[p.hooks[i].from])[JumpTo(p.hooks[i].chain)] == 1;
    }
  }

  lemma {:induction false} EditsMake(t: Table, p: Plan, edits: seq<Edit>)
    requires PlanOk(p) && Removable(t, p) && EditsOk(t, p, edits)
    ensures Removable(EditedBy(t, edits), p)
    ensures Strip(EditedBy(t, edits), p) == EditedBy(Strip(t, p), TranslatedBy(t, p, edits))
    decreases |edits|
  {
    if edits != [] {
      EditMakes(t, p, edits[0]);
      EditKeepsRemovable(t, p, edits[0]);
      EditsMake(Edited(t, edits[0]), p, edits[1..]);
    }
  }

  /**
    Set-up, any changes by others, cleanup: the result is the table those changes alone would
    have made.
   */
  lemma RoundTrip(t: Table, p: Plan, ensure: bool, edits: seq<Edit>)
    requires PlanOk(p) && Fresh(t, p) && EditsOk(Installed(t, p), p, edits)
    ensures Exec(t, SetupOps(p, ensure)) == Some(Installed(t, p))
    ensures Exec(EditedBy(Installed(t, p), edits), CleanupOps(p))
         == Some(EditedBy(t, TranslatedBy(Installed(t, p), p, edits)))
  {
    SetupInstalls(t, p, ensure);
    InstalledStrips(t, p);
    EditsMake(Installed(t, p), p, edits);
    CleanupStrips(EditedBy(Installed(t, p), edits), p);
  }
}
