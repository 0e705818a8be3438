/**
  The routing rules of the realm network: what the daemon puts into the nat, filter and mangle
  tables, and how it takes them out again. IPv4.
 */
module NatRouting {
  import opened Outcomes
  import opened Addresses
  import opened Netfilter

  // ----- the plans of the three table managers -----

  function ChainName(ifName: string, postfix: string): string {
    ifName + "_" + postfix
  }

  function MatchAll(target: Target): Rule {
    Rule(None, None, None, Anywhere, None, None, false, target)
  }

  function NatRules(net: Net): seq<Rule> {
    var all := MatchAll(Return).(src := Some(net));
    var away := MatchAll(Masquerade(true)).(src := Some(net), dst := Outside(net));
    [all.(dst := Within(Net(IPv4(224, 0, 0, 0), 24, 32))),
     all.(dst := Within(Net(IPv4(225, 255, 255, 255), 32, 32))),
     away.(proto := Some(Tcp)),
     away.(proto := Some(Udp)),
     away.(target := Masquerade(false))]
  }

  function FwiRules(ifName: string, net: Net): seq<Rule> {
    [MatchAll(Accept).(dst := Within(net), outIf := Some(ifName), tracked := true),
     MatchAll(Reject).(outIf := Some(ifName))]
  }

  function FwoRules(ifName: string, net: Net): seq<Rule> {
    [MatchAll(Accept).(src := Some(net), inIf := Some(ifName)),
     MatchAll(Reject).(inIf := Some(ifName))]
  }

  function FwxRules(ifName: string): seq<Rule> {
    [MatchAll(Accept).(inIf := Some(ifName), outIf := Some(ifName))]
  }

  function InpRules(ifName: string): seq<Rule> {
    var r := MatchAll(Accept).(inIf := Some(ifName));
    [r.(proto := Some(Udp), dport := Some(53)), r.(proto := Some(Tcp), dport := Some(53)),
     r.(proto := Some(Udp), dport := Some(67)), r.(proto := Some(Tcp), dport := Some(67))]
  }

  function OutRules(ifName: string): seq<Rule> {
    var r := MatchAll(Accept).(outIf := Some(ifName));
    [r.(proto := Some(Udp), dport := Some(53)), r.(proto := Some(Tcp), dport := Some(53)),
     r.(proto := Some(Udp), dport := Some(68)), r.(proto := Some(Tcp), dport := Some(68))]
  }

  function MangleRules(ifName: string): seq<Rule> {
    [MatchAll(ChecksumFill).(outIf := Some(ifName), proto := Some(Udp), dport := Some(68))]
  }

  /** One chain behind one jump: the shape of the nat and mangle managers. */
  function SingleChain(name: string, from: string, rules: seq<Rule>): Plan {
    Plan([ChainPlan(name, rules)], [Hook(from, name)])
  }

  function NatPlan(ifName: string, net: Net): Plan {
    SingleChain(ChainName(ifName, "PRT"), "POSTROUTING", NatRules(net))
  }

  function ManglePlan(ifName: string): Plan {
    SingleChain(ChainName(ifName, "PRT"), "POSTROUTING", MangleRules(ifName))
  }

  function FilterPlan(ifName: string, net: Net): Plan {
    var fwi, fwo, fwx := ChainName(ifName, "FWI"), ChainName(ifName, "FWO"), ChainName(ifName, "FWX");
    var inp, out := ChainName(ifName, "INP"), ChainName(ifName, "OUT");
    Plan([ChainPlan(fwi, FwiRules(ifName, net)), ChainPlan(fwo, FwoRules(ifName, net)), ChainPlan(fwx, FwxRules(ifName)),
          ChainPlan(inp, InpRules(ifName)), ChainPlan(out, OutRules(ifName))],
         [Hook("INPUT", inp), Hook("OUTPUT", out), Hook("FORWARD", fwi), Hook("FORWARD", fwo), Hook("FORWARD", fwx)])
  }

  /** No interface name makes a chain name collide with a built-in chain or with another postfix. */
  lemma ChainNames(ifName: string, postfix: string, other: string)
    requires |postfix| == 3 && |other| == 3
    ensures ChainName(ifName, postfix) == ChainName(ifName, other) <==> postfix == other
    ensures ChainName(ifName, postfix) !in {"INPUT", "OUTPUT", "FORWARD", "POSTROUTING"}
  {
    var n, m := ChainName(ifName, postfix), ChainName(ifName, other);
    assert n[|ifName| + 1..] == postfix && m[|ifName| + 1..] == other;
    assert n[|n| - 4] == '_';
    assert "INPUT"[1] != '_' && "OUTPUT"[2] != '_' && "FORWARD"[3] != '_' && "POSTROUTING"[7] != '_';
  }

  lemma SingleChainOk(name: string, from: string, rules: seq<Rule>)
    requires name != from && Distinct(rules) && forall k :: 0 <= k < |rules| ==> !rules[k].target.Jump?
    ensures PlanOk(SingleChain(name, from, rules))
  {
    var p := SingleChain(name, from, rules);
    assert p.chains[0].name in Names(p.chains);
  }

  lemma NatPlanOk(ifName: string, net: Net)
    ensures PlanOk(NatPlan(ifName, net))
  {
    ChainNames(ifName, "PRT", "PRT");
    SingleChainOk(ChainName(ifName, "PRT"), "POSTROUTING", NatRules(net));
  }

  lemma ManglePlanOk(ifName: string)
    ensures PlanOk(ManglePlan(ifName))
  {
    ChainNames(ifName, "PRT", "PRT");
    SingleChainOk(ChainName(ifName, "PRT"), "POSTROUTING", MangleRules(ifName));
  }

  lemma FilterNames(ifName: string, net: Net)
    ensures var cs := FilterPlan(ifName, net).chains;
      && (forall i, j :: 0 <= i < j < |cs| ==> cs[i].name != cs[j].name)
      && (forall i :: 0 <= i < |cs| ==> cs[i].name !in {"INPUT", "OUTPUT", "FORWARD", "POSTROUTING"})
  {
    var postfixes := ["FWI", "FWO", "FWX", "INP", "OUT"];
    var cs := FilterPlan(ifName, net).chains;
    assert forall i :: 0 <= i < 5 ==> cs[i].name == ChainName(ifName, postfixes[i]);
    forall i, j | 0 <= i < j < 5 ensures cs[i].name != cs[j].name {
      assert postfixes[i] != postfixes[j];
      ChainNames(ifName, postfixes[i], postfixes[j]);
    }
    forall i | 0 <= i < 5 ensures cs[i].name !in {"INPUT", "OUTPUT", "FORWARD", "POSTROUTING"} {
      ChainNames(ifName, postfixes[i], postfixes[i]);
    }
  }

  lemma FilterRulesOk(ifName: string, net: Net, i: nat)
    requires i < 5
    ensures var rules := FilterPlan(ifName, net).chains[i].rules;
      Distinct(rules) && forall k :: 0 <= k < |rules| ==> !rules[k].target.Jump?
  {
    var rules := FilterPlan(ifName, net).chains[i].rules;
    assert rules in {FwiRules(ifName, net), FwoRules(ifName, net), FwxRules(ifName), InpRules(ifName), OutRules(ifName)};
  }

  lemma FilterHooksOk(ifName: string, net: Net, i: nat)
    requires i < 5
    ensures var p := FilterPlan(ifName, net);
      p.hooks[i].chain in Names(p.chains) && p.hooks[i].from !in Names(p.chains)
  {
    FilterNames(ifName, net);
    var cs := FilterPlan(ifName, net).chains;
    var k := if i < 2 then i + 3 else i - 2;
    assert cs[k].name == FilterPlan(ifName, net).hooks[i].chain && cs[k].name in Names(cs);
  }

  lemma FilterHooksDistinct(ifName: string, net: Net)
    ensures Distinct(FilterPlan(ifName, net).hooks)
  {
    FilterNames(ifName, net);
    var p := FilterPlan(ifName, net);
    assert p.hooks[2].chain == p.chains[0].name && p.hooks[3].chain == p.chains[1].name && p.hooks[4].chain == p.chains[2].name;
  }

  lemma FilterPlanOk(ifName: string, net: Net)
    ensures PlanOk(FilterPlan(ifName, net))
  {
    var p := FilterPlan(ifName, net);
    FilterNames(ifName, net);
    FilterHooksDistinct(ifName, net);
    forall i | 0 <= i < |p.chains| ensures
      Distinct(p.chains[i].rules) && forall k :: 0 <= k < |p.chains[i].rules| ==> !p.chains[i].rules[k].target.Jump?
    {
      FilterRulesOk(ifName, net, i);
    }
    assert ChainsOk(p.chains);
    forall i | 0 <= i < |p.hooks| ensures p.hooks[i].chain in Names(p.chains) && p.hooks[i].from !in Names(p.chains) {
      FilterHooksOk(ifName, net, i);
    }
  }

  // ----- the three tables together -----

  datatype Tables = Tables(natTable: Table, filter: Table, mangle: Table)

  /** prepare_routing_sync: all three tables, or `None` if an operation is refused. */
  function Prepared(ts: Tables, ifName: string, net: Net): Option<Tables> {
    var n := Exec(ts.natTable, SetupOps(NatPlan(ifName, net), true));
    var f := Exec(ts.filter, SetupOps(FilterPlan(ifName, net), false));
    var m := Exec(ts.mangle, SetupOps(ManglePlan(ifName), true));
    if n.Some? && f.Some? && m.Some? then Some(Tables(n.value, f.value, m.value)) else None
  }

  function Cleaned(ts: Tables, ifName: string, net: Net): Option<Tables> {
    var n := Exec(ts.natTable, CleanupOps(NatPlan(ifName, net)));
    var f := Exec(ts.filter, CleanupOps(FilterPlan(ifName, net)));
    var m := Exec(ts.mangle, CleanupOps(ManglePlan(ifName)));
    if n.Some? && f.Some? && m.Some? then Some(Tables(n.value, f.value, m.value)) else None
  }

  /** The kernel's tables as the daemon's network manager drives them. */
  class Routing {
    const natTable: IpTables
    const filterTable: IpTables
    const mangleTable: IpTables

    ghost predicate Valid() {
      natTable != filterTable && natTable != mangleTable && filterTable != mangleTable
    }

    ghost function View(): Tables
      reads natTable, filterTable, mangleTable
    {
      Tables(natTable.table, filterTable.table, mangleTable.table)
    }

    constructor (n: IpTables, f: IpTables, m: IpTables)
      requires n != f && n != m && f != m
      ensures Valid() && natTable == n && filterTable == f && mangleTable == m
    {
      natTable, filterTable, mangleTable := n, f, m;
    }

    /** Stops at the first table that fails; the tables behind it stay as they were. */
    method PrepareRouting(ifName: string, net: Net) returns (ok: bool)
      requires Valid()
      modifies natTable, filterTable, mangleTable
      ensures ok <==> Prepared(old(View()), ifName, net).Some?
      ensures ok ==> View() == Prepared(old(View()), ifName, net).value
      ensures Exec(old(natTable.table), SetupOps(NatPlan(ifName, net), true)).None? ==>
        filterTable.table == old(filterTable.table) && mangleTable.table == old(mangleTable.table)
      ensures Exec(old(filterTable.table), SetupOps(FilterPlan(ifName, net), false)).None? ==>
        mangleTable.table == old(mangleTable.table)
      ensures !ok && Exec(old(natTable.table), SetupOps(NatPlan(ifName, net), true)).Some? ==>
        natTable.table == Exec(old(natTable.table), SetupOps(NatPlan(ifName, net), true)).value
    {
      ok := natTable.Perform(SetupOps(NatPlan(ifName, net), true));
      if !ok { return; }
      ok := filterTable.Perform(SetupOps(FilterPlan(ifName, net), false));
      if !ok { return; }
      ok := mangleTable.Perform(SetupOps(ManglePlan(ifName), true));
    }

    method CleanupRouting(ifName: string, net: Net) returns (ok: bool)
      requires Valid()
      modifies natTable, filterTable, mangleTable
      ensures ok <==> Cleaned(old(View()), ifName, net).Some?
      ensures ok ==> View() == Cleaned(old(View()), ifName, net).value
      ensures Exec(old(natTable.table), CleanupOps(NatPlan(ifName, net))).None? ==>
        filterTable.table == old(filterTable.table) && mangleTable.table == old(mangleTable.table)
      ensures Exec(old(filterTable.table), CleanupOps(FilterPlan(ifName, net))).None? ==>
        mangleTable.table == old(mangleTable.table)
    {
      ok := natTable.Perform(CleanupOps(NatPlan(ifName, net)));
      if !ok { return; }
      ok := filterTable.Perform(CleanupOps(FilterPlan(ifName, net)));
      if !ok { return; }
      ok := mangleTable.Perform(CleanupOps(ManglePlan(ifName)));
    }
  }

  /** The daemon has left no trace in any table, and the built-in chains exist. */
  predicate Untouched(ts: Tables, ifName: string, net: Net) {
    Fresh(ts.natTable, NatPlan(ifName, net)) && Fresh(ts.filter, FilterPlan(ifName, net)) && Fresh(ts.mangle, ManglePlan(ifName))
  }

  function Routed(ts: Tables, ifName: string, net: Net): Tables {
    Tables(Installed(ts.natTable, NatPlan(ifName, net)), Installed(ts.filter, FilterPlan(ifName, net)),
           Installed(ts.mangle, ManglePlan(ifName)))
  }

  datatype Edits = Edits(natTable: seq<Edit>, filter: seq<Edit>, mangle: seq<Edit>)

  function Changed(ts: Tables, es: Edits): Tables {
    Tables(EditedBy(ts.natTable, es.natTable), EditedBy(ts.filter, es.filter), EditedBy(ts.mangle, es.mangle))
  }

  predicate ChangesOk(ts: Tables, ifName: string, net: Net, es: Edits) {
    && EditsOk(ts.natTable, NatPlan(ifName, net), es.natTable)
    && EditsOk(ts.filter, FilterPlan(ifName, net), es.filter)
    && EditsOk(ts.mangle, ManglePlan(ifName), es.mangle)
  }

  /** The changes as they read in the tables without the daemon's jumps. */
  function Without(ts: Tables, ifName: string, net: Net, es: Edits): Edits
    requires ChangesOk(ts, ifName, net, es)
  {
    Edits(TranslatedBy(ts.natTable, NatPlan(ifName, net), es.natTable),
          TranslatedBy(ts.filter, FilterPlan(ifName, net), es.filter),
          TranslatedBy(ts.mangle, ManglePlan(ifName), es.mangle))
  }

  lemma PlansOk(ifName: string, net: Net)
    ensures PlanOk(NatPlan(ifName, net)) && PlanOk(FilterPlan(ifName, net)) && PlanOk(ManglePlan(ifName))
  {
    NatPlanOk(ifName, net);
    FilterPlanOk(ifName, net);
    ManglePlanOk(ifName);
  }

  /**
    Prepare, any changes by others, clean up: the tables end as those changes alone would have
    left them. With no changes they are restored exactly.
   */
  lemma RoutingRoundTrip(ts: Tables, ifName: string, net: Net, es: Edits)
    requires Untouched(ts, ifName, net) && ChangesOk(Routed(ts, ifName, net), ifName, net, es)
    ensures Prepared(ts, ifName, net) == Some(Routed(ts, ifName, net))
    ensures Cleaned(Changed(Routed(ts, ifName, net), es), ifName, net)
         == Some(Changed(ts, Without(Routed(ts, ifName, net), ifName, net, es)))
  {
    PlansOk(ifName, net);
    RoundTrip(ts.natTable, NatPlan(ifName, net), true, es.natTable);
    RoundTrip(ts.filter, FilterPlan(ifName, net), false, es.filter);
    RoundTrip(ts.mangle, ManglePlan(ifName), true, es.mangle);
  }

  lemma RoutingRestored(ts: Tables, ifName: string, net: Net)
    requires Untouched(ts, ifName, net)
    ensures Prepared(ts, ifName, net) == Some(Routed(ts, ifName, net))
    ensures Cleaned(Routed(ts, ifName, net), ifName, net) == Some(ts)
  {
    RoutingRoundTrip(ts, ifName, net, Edits([], [], []));
  }

  /** The filter manager insists on new chains: where its first chain exists, preparing fails. */
  lemma ExistingChainRefuses(ts: Tables, ifName: string, net: Net)
    requires ChainName(ifName, "FWI") in ts.filter
    ensures Prepared(ts, ifName, net).None?
  {
    SetupRefused(ts.filter, FilterPlan(ifName, net));
  }

  /** So preparing again without cleaning up fails, whatever others have changed in between. */
  lemma PreparedOnlyOnce(ts: Tables, ifName: string, net: Net, es: Edits)
    requires Untouched(ts, ifName, net) && ChangesOk(Routed(ts, ifName, net), ifName, net, es)
    ensures Prepared(Changed(Routed(ts, ifName, net), es), ifName, net).None?
  {
    var plan := FilterPlan(ifName, net);
    PlansOk(ifName, net);
    InstalledStrips(ts.filter, plan);
    EditsMake(Installed(ts.filter, plan), plan, es.filter);
    assert plan.chains[0].name == ChainName(ifName, "FWI") && plan.chains[0].name in Names(plan.chains);
    ExistingChainRefuses(Changed(Routed(ts, ifName, net), es), ifName, net);
  }

  /** Preparing again directly afterwards is refused at the filter table's first operation, and no table is changed. */
  lemma RepeatedPreparation(ts: Tables, ifName: string, net: Net)
    requires Untouched(ts, ifName, net)
    ensures var routed := Routed(ts, ifName, net);
      && Exec(routed.natTable, SetupOps(NatPlan(ifName, net), true)) == Some(routed.natTable)
      && SetupOps(FilterPlan(ifName, net), false) != [] && Do(routed.filter, SetupOps(FilterPlan(ifName, net), false)[0]).None?
      && Exec(routed.mangle, SetupOps(ManglePlan(ifName), true)) == Some(routed.mangle)
  {
    PlansOk(ifName, net);
    SetupAgain(ts.natTable, NatPlan(ifName, net));
    SetupAgain(ts.mangle, ManglePlan(ifName));
    var plan := FilterPlan(ifName, net);
    assert plan.chains[0].name in Names(plan.chains);
    SetupRefused(Installed(ts.filter, plan), plan);
  }

  /** Cleaning up succeeds exactly if each table still has the daemon's chains, each jump once, and no other jump to them. */
  lemma CleanedIff(ts: Tables, ifName: string, net: Net)
    ensures Cleaned(ts, ifName, net).Some? <==>
      && Removable(ts.natTable, NatPlan(ifName, net)) && Removable(ts.filter, FilterPlan(ifName, net))
      && Removable(ts.mangle, ManglePlan(ifName))
  {
    PlansOk(ifName, net);
    CleanupOkIff(ts.natTable, NatPlan(ifName, net));
    CleanupOkIff(ts.filter, FilterPlan(ifName, net));
    CleanupOkIff(ts.mangle, ManglePlan(ifName));
  }
}
