/**
  What the installed rules do to a packet: first-match evaluation of the chains, compared with a
  decision that speaks about the bridge and the realm network only.
 */
module PacketFlow {
  import opened Outcomes
  import opened Addresses
  import opened Netfilter
  import opened NatRouting

  datatype Packet = Packet(
    inIf: Option<string>, outIf: Option<string>, src: Address, dst: Address, proto: Proto, dport: nat, tracked: bool)

  /** `End`: no rule decided and the next rule is tried; `Left`: a RETURN rule matched. */
  datatype Verdict = Accepted | Rejected | Masqueraded(ports: bool) | Left | End | TooDeep

  predicate Matches(r: Rule, p: Packet) {
    && (r.inIf.Some? ==> r.inIf == p.inIf)
    && (r.outIf.Some? ==> r.outIf == p.outIf)
    && (r.src.Some? ==> Inside(r.src.value, p.src))
    && (match r.dst case Anywhere => true case Within(n) => Inside(n, p.dst) case Outside(n) => !Inside(n, p.dst))
    && (r.proto.Some? ==> r.proto.value == p.proto)
    && (r.dport.Some? ==> r.dport.value == p.dport)
    && (r.tracked ==> p.tracked)
  }

  /** First-match evaluation; `depth` bounds nested jumps, as the kernel's jump stack does. */
  function Eval(t: Table, rules: seq<Rule>, p: Packet, depth: nat): Verdict
    decreases depth, |rules|
  {
    if rules == [] then End
    else if !Matches(rules[0], p) then Eval(t, rules[1..], p, depth)
    else match rules[0].target
      case Accept => Accepted
      case Reject => Rejected
      case Return => Left
      case Masquerade(ports) => Masqueraded(ports)
      case ChecksumFill => Eval(t, rules[1..], p, depth)
      case Jump(c) =>
        if c !in t then Eval(t, rules[1..], p, depth)
        else if depth == 0 then TooDeep
        else
          var v := Eval(t, t[c], p, depth - 1);
          if v == End || v == Left then Eval(t, rules[1..], p, depth) else v
  }

  /** The fate of a packet that enters a chain. */
  function Fate(t: Table, chain: string, p: Packet, depth: nat): Verdict {
    if chain in t then Eval(t, t[chain], p, depth) else End
  }

  function Then(first: Verdict, second: Verdict): Verdict {
    if first == End then second else first
  }

  lemma {:induction false} EvalConcat(t: Table, a: seq<Rule>, b: seq<Rule>, p: Packet, depth: nat)
    ensures Eval(t, a + b, p, depth) == Then(Eval(t, a, p, depth), Eval(t, b, p, depth))
    decreases |a|
  {
    if a == [] {
      assert a + b == b;
    } else {
      assert (a + b)[0] == a[0] && (a + b)[1..] == a[1..] + b;
      EvalConcat(t, a[1..], b, p, depth);
    }
  }

  /** The chains the plan owns or hooks into: nobody else jumps there. */
  function Touched(plan: Plan): set<string> {
    Names(plan.chains) + (set i | 0 <= i < |plan.hooks| :: plan.hooks[i].from)
  }

  /** No rule jumps to a built-in chain (the kernel refuses such a jump) or to a chain of the plan. */
  predicate Apart(t: Table, plan: Plan) {
    forall c :: c in t ==> NoJumpInto(t[c], Touched(plan))
  }

  /** The table has all chains the plan does not touch as they were, and no others but the plan's. */
  predicate Beside(t: Table, u: Table, plan: Plan) {
    && (forall c :: c in t && c !in Touched(plan) ==> c in u && u[c] == t[c])
    && (forall c :: c in u && c !in t ==> c in Touched(plan))
  }

  lemma InstalledBeside(t: Table, plan: Plan)
    requires Fresh(t, plan)
    ensures Beside(t, Installed(t, plan), plan)
  {
    forall c | c in t && c !in Touched(plan) ensures Installed(t, plan)[c] == t[c] {
      NoHooksFrom(plan.hooks, c);
      assert t[c] + [] == t[c];
    }
  }

  /** Rules that were there before decide as before. */
  lemma {:induction false} OldRulesDecideAlike(t: Table, u: Table, plan: Plan, rules: seq<Rule>, p: Packet, depth: nat)
    requires Apart(t, plan) && Beside(t, u, plan) && NoJumpInto(rules, Touched(plan))
    ensures Eval(u, rules, p, depth) == Eval(t, rules, p, depth)
    decreases depth, |rules|
  {
    if rules != [] {
      assert rules[0] in rules;
      OldRulesDecideAlike(t, u, plan, rules[1..], p, depth);
      if rules[0].target.Jump? && rules[0].target.chain in t && depth > 0 {
        OldRulesDecideAlike(t, u, plan, t[rules[0].target.chain], p, depth - 1);
      }
    }
  }

  /** A hooked chain decides as its old rules did, and where they did not decide, as the plan's jumps do. */
  lemma HookedChain(t: Table, plan: Plan, c: string, p: Packet, depth: nat)
    requires Fresh(t, plan) && Apart(t, plan) && c in t
    ensures Fate(Installed(t, plan), c, p, depth)
         == Then(Fate(t, c, p, depth), Eval(Installed(t, plan), HooksOf(plan.hooks, c), p, depth))
  {
    assert Installed(t, plan)[c] == t[c] + HooksOf(plan.hooks, c);
    InstalledBeside(t, plan);
    OldRulesDecideAlike(t, Installed(t, plan), plan, t[c], p, depth);
    EvalConcat(Installed(t, plan), t[c], HooksOf(plan.hooks, c), p, depth);
  }

  /** A jump that always matches: what the chain decides, or on to the next rule. */
  function Called(v: Verdict): Verdict {
    if v == Left then End else v
  }

  lemma EvalJump(t: Table, c: string, p: Packet, depth: nat)
    requires c in t && depth > 0
    ensures Eval(t, [JumpTo(c)], p, depth) == Called(Eval(t, t[c], p, depth - 1))
  {
    var rules := [JumpTo(c)];
    assert rules[1..] == [];
  }

  // ----- checksums -----

  /** Evaluating the rules, the packet's checksum is filled on the way. */
  predicate Fills(t: Table, rules: seq<Rule>, p: Packet, depth: nat)
    decreases depth, |rules|
  {
    rules != []
    && (if !Matches(rules[0], p) then Fills(t, rules[1..], p, depth)
        else match rules[0].target
          case ChecksumFill => true
          case Jump(c) =>
            if c !in t then Fills(t, rules[1..], p, depth)
            else
              && depth > 0
              && (|| Fills(t, t[c], p, depth - 1)
                  || ((Eval(t, t[c], p, depth - 1) == End || Eval(t, t[c], p, depth - 1) == Left) && Fills(t, rules[1..], p, depth)))
          case _ => false)
  }

  lemma {:induction false} FillsConcat(t: Table, a: seq<Rule>, b: seq<Rule>, p: Packet, depth: nat)
    ensures Fills(t, a + b, p, depth) <==> Fills(t, a, p, depth) || (Eval(t, a, p, depth) == End && Fills(t, b, p, depth))
    decreases |a|
  {
    if a == [] {
      assert a + b == b;
    } else {
      assert (a + b)[0] == a[0] && (a + b)[1..] == a[1..] + b;
      FillsConcat(t, a[1..], b, p, depth);
    }
  }

  lemma {:induction false} OldRulesFillAlike(t: Table, u: Table, plan: Plan, rules: seq<Rule>, p: Packet, depth: nat)
    requires Apart(t, plan) && Beside(t, u, plan) && NoJumpInto(rules, Touched(plan))
    ensures Fills(u, rules, p, depth) <==> Fills(t, rules, p, depth)
    decreases depth, |rules|
  {
    if rules != [] {
      assert rules[0] in rules;
      OldRulesFillAlike(t, u, plan, rules[1..], p, depth);
      if rules[0].target.Jump? && rules[0].target.chain in t && depth > 0 {
        var c := rules[0].target.chain;
        OldRulesFillAlike(t, u, plan, t[c], p, depth - 1);
        OldRulesDecideAlike(t, u, plan, t[c], p, depth - 1);
      }
    }
  }

  // ----- the decisions -----

  function ForwardDecision(ifName: string, net: Net, p: Packet): Verdict {
    if p.outIf == Some(ifName) then if Inside(net, p.dst) && p.tracked then Accepted else Rejected
    else if p.inIf == Some(ifName) then if Inside(net, p.src) then Accepted else Rejected
    else End
  }

  function LocalDecision(atBridge: bool, ports: set<nat>, p: Packet): Verdict {
    if atBridge && p.proto != OtherProto && p.dport in ports then Accepted else End
  }

  function MasqueradeDecision(net: Net, p: Packet): Verdict {
    if Inside(net, p.src) && !Inside(net, p.dst)
       && !(IPv4(224, 0, 0, 0) <= p.dst <= IPv4(224, 0, 0, 255)) && p.dst != IPv4(225, 255, 255, 255)
    then Masqueraded(p.proto != OtherProto)
    else End
  }

  /** A rule of a chain without jumps decides, or hands on to the rule behind it. */
  lemma EvalAt(t: Table, rules: seq<Rule>, k: nat, p: Packet, depth: nat)
    requires k < |rules| && !rules[k].target.Jump?
    ensures Eval(t, rules[k..], p, depth) ==
      if !Matches(rules[k], p) || rules[k].target == ChecksumFill then Eval(t, rules[k + 1..], p, depth)
      else if rules[k].target == Accept then Accepted
      else if rules[k].target == Reject then Rejected
      else if rules[k].target.Masquerade? then Masqueraded(rules[k].target.ports)
      else Left
  {
    assert rules[k..][1..] == rules[k + 1..];
  }

  lemma FwiEval(t: Table, ifName: string, net: Net, p: Packet, depth: nat)
    ensures Eval(t, FwiRules(ifName, net), p, depth) ==
      if p.outIf == Some(ifName) then if Inside(net, p.dst) && p.tracked then Accepted else Rejected else End
  {
    var rules := FwiRules(ifName, net);
    EvalAt(t, rules, 0, p, depth);
    EvalAt(t, rules, 1, p, depth);
    assert rules[0..] == rules;
  }

  lemma FwoEval(t: Table, ifName: string, net: Net, p: Packet, depth: nat)
    ensures Eval(t, FwoRules(ifName, net), p, depth) ==
      if p.inIf == Some(ifName) then if Inside(net, p.src) then Accepted else Rejected else End
  {
    var rules := FwoRules(ifName, net);
    EvalAt(t, rules, 0, p, depth);
    EvalAt(t, rules, 1, p, depth);
    assert rules[0..] == rules;
  }

  lemma FwxEval(t: Table, ifName: string, p: Packet, depth: nat)
    ensures Eval(t, FwxRules(ifName), p, depth) == if p.inIf == Some(ifName) == p.outIf then Accepted else End
  {
    assert FwxRules(ifName)[1..] == [];
  }

  lemma FourEval(t: Table, rules: seq<Rule>, p: Packet, depth: nat)
    requires |rules| == 4 && forall i :: 0 <= i < 4 ==> rules[i].target == Accept
    ensures Eval(t, rules, p, depth) ==
      if Matches(rules[0], p) || Matches(rules[1], p) || Matches(rules[2], p) || Matches(rules[3], p) then Accepted else End
  {
    EvalAt(t, rules, 0, p, depth);
    EvalAt(t, rules, 1, p, depth);
    EvalAt(t, rules, 2, p, depth);
    EvalAt(t, rules, 3, p, depth);
    assert rules[0..] == rules;
  }

  lemma InpEval(t: Table, ifName: string, p: Packet, depth: nat)
    ensures Eval(t, InpRules(ifName), p, depth) == LocalDecision(p.inIf == Some(ifName), {53, 67}, p)
  {
    FourEval(t, InpRules(ifName), p, depth);
  }

  lemma OutEval(t: Table, ifName: string, p: Packet, depth: nat)
    ensures Eval(t, OutRules(ifName), p, depth) == LocalDecision(p.outIf == Some(ifName), {53, 68}, p)
  {
    FourEval(t, OutRules(ifName), p, depth);
  }

  lemma ReturnNets(a: Address)
    ensures Inside(Net(IPv4(224, 0, 0, 0), 24, 32), a) <==> IPv4(224, 0, 0, 0) <= a <= IPv4(224, 0, 0, 255)
    ensures Inside(Net(IPv4(225, 255, 255, 255), 32, 32), a) <==> a == IPv4(225, 255, 255, 255)
  {
    assert Pow2(8) == 256;
    assert Pow2(0) == 1;
  }

  lemma NatMatches(net: Net, p: Packet)
    ensures var rules := NatRules(net); var away := Inside(net, p.src) && !Inside(net, p.dst);
      && (Matches(rules[0], p) <==> Inside(net, p.src) && IPv4(224, 0, 0, 0) <= p.dst <= IPv4(224, 0, 0, 255))
      && (Matches(rules[1], p) <==> Inside(net, p.src) && p.dst == IPv4(225, 255, 255, 255))
      && (Matches(rules[2], p) <==> away && p.proto == Tcp)
      && (Matches(rules[3], p) <==> away && p.proto == Udp)
      && (Matches(rules[4], p) <==> away)
  {
    ReturnNets(p.dst);
  }

  lemma NatEval(t: Table, net: Net, p: Packet, depth: nat)
    ensures Called(Eval(t, NatRules(net), p, depth)) == MasqueradeDecision(net, p)
  {
    NatMatches(net, p);
    var rules := NatRules(net);
    EvalAt(t, rules, 0, p, depth);
    EvalAt(t, rules, 1, p, depth);
    EvalAt(t, rules, 2, p, depth);
    EvalAt(t, rules, 3, p, depth);
    EvalAt(t, rules, 4, p, depth);
    assert rules[0..] == rules;
  }

  // ----- the installed tables -----

  lemma FilterChains(t: Table, ifName: string, net: Net)
    ensures var t1 := Installed(t, FilterPlan(ifName, net));
      && ChainName(ifName, "FWI") in t1 && t1[ChainName(ifName, "FWI")] == FwiRules(ifName, net)
      && ChainName(ifName, "FWO") in t1 && t1[ChainName(ifName, "FWO")] == FwoRules(ifName, net)
      && ChainName(ifName, "FWX") in t1 && t1[ChainName(ifName, "FWX")] == FwxRules(ifName)
      && ChainName(ifName, "INP") in t1 && t1[ChainName(ifName, "INP")] == InpRules(ifName)
      && ChainName(ifName, "OUT") in t1 && t1[ChainName(ifName, "OUT")] == OutRules(ifName)
  {
    FilterNames(ifName, net);
    var cs := FilterPlan(ifName, net).chains;
    forall i | 0 <= i < 5 ensures cs[i].name in Names(cs) && RulesOf(cs, cs[i].name) == cs[i].rules { RulesOfAt(cs, i); }
    assert cs[0].name == ChainName(ifName, "FWI") && cs[1].name == ChainName(ifName, "FWO")
      && cs[2].name == ChainName(ifName, "FWX") && cs[3].name == ChainName(ifName, "INP") && cs[4].name == ChainName(ifName, "OUT");
  }

  lemma HooksOfAt(hooks: seq<Hook>, chain: string, k: nat)
    requires k < |hooks|
    ensures HooksOf(hooks[k..], chain)
         == (if hooks[k].from == chain then [JumpTo(hooks[k].chain)] else []) + HooksOf(hooks[k + 1..], chain)
  {
    assert hooks[k..][1..] == hooks[k + 1..];
  }

  lemma FilterJumps(ifName: string, net: Net, chain: string)
    ensures HooksOf(FilterPlan(ifName, net).hooks, chain) ==
      if chain == "INPUT" then [JumpTo(ChainName(ifName, "INP"))]
      else if chain == "OUTPUT" then [JumpTo(ChainName(ifName, "OUT"))]
      else if chain == "FORWARD" then
        [JumpTo(ChainName(ifName, "FWI"))] + [JumpTo(ChainName(ifName, "FWO"))] + [JumpTo(ChainName(ifName, "FWX"))]
      else []
  {
    var hooks := FilterPlan(ifName, net).hooks;
    assert "INPUT"[0] != "OUTPUT"[0] && "INPUT"[0] != "FORWARD"[0] && "OUTPUT"[0] != "FORWARD"[0];
    HooksOfAt(hooks, chain, 0);
    HooksOfAt(hooks, chain, 1);
    HooksOfAt(hooks, chain, 2);
    HooksOfAt(hooks, chain, 3);
    HooksOfAt(hooks, chain, 4);
    assert hooks[0..] == hooks && hooks[5..] == [];
  }

  /**
    Forwarded packets. Where the rules of before leave the packet undecided, the installed table
    decides by bridge and network alone; where they decide, nothing changes.
   */
  lemma ForwardMeans(t: Table, ifName: string, net: Net, p: Packet, depth: nat)
    requires Fresh(t, FilterPlan(ifName, net)) && Apart(t, FilterPlan(ifName, net)) && depth > 0
    ensures var t1 := Installed(t, FilterPlan(ifName, net));
      Fate(t1, "FORWARD", p, depth) == Then(Fate(t, "FORWARD", p, depth), ForwardDecision(ifName, net, p))
  {
    var plan := FilterPlan(ifName, net);
    var t1 := Installed(t, plan);
    assert plan.hooks[2].from == "FORWARD";
    HookedChain(t, plan, "FORWARD", p, depth);
    FilterJumps(ifName, net, "FORWARD");
    ForwardJumps(t1, ifName, net, p, depth, FwxRules(ifName)) by { FilterChains(t, ifName, net); }
    FwxEval(t1, ifName, p, depth - 1);
  }

  /** Whatever the third forward chain holds is tried only for packets that have nothing to do with the bridge. */
  lemma ForwardJumps(t: Table, ifName: string, net: Net, p: Packet, depth: nat, fwx: seq<Rule>)
    requires depth > 0
    requires ChainName(ifName, "FWI") in t && t[ChainName(ifName, "FWI")] == FwiRules(ifName, net)
    requires ChainName(ifName, "FWO") in t && t[ChainName(ifName, "FWO")] == FwoRules(ifName, net)
    requires ChainName(ifName, "FWX") in t && t[ChainName(ifName, "FWX")] == fwx
    ensures
      Eval(t, [JumpTo(ChainName(ifName, "FWI"))] + [JumpTo(ChainName(ifName, "FWO"))] + [JumpTo(ChainName(ifName, "FWX"))], p, depth)
      == Then(ForwardDecision(ifName, net, p), Called(Eval(t, fwx, p, depth - 1)))
  {
    var fwi, fwo, fwxJump := [JumpTo(ChainName(ifName, "FWI"))], [JumpTo(ChainName(ifName, "FWO"))], [JumpTo(ChainName(ifName, "FWX"))];
    EvalConcat(t, fwi + fwo, fwxJump, p, depth);
    EvalConcat(t, fwi, fwo, p, depth);
    EvalJump(t, ChainName(ifName, "FWI"), p, depth);
    EvalJump(t, ChainName(ifName, "FWO"), p, depth);
    EvalJump(t, ChainName(ifName, "FWX"), p, depth);
    FwiEval(t, ifName, net, p, depth - 1);
    FwoEval(t, ifName, net, p, depth - 1);
  }

  /** The bridge-to-bridge accept is dead: without it every forwarded packet meets the same fate. */
  lemma BridgeAcceptNeverReached(t: Table, ifName: string, net: Net, p: Packet, depth: nat)
    requires Fresh(t, FilterPlan(ifName, net)) && Apart(t, FilterPlan(ifName, net)) && depth > 0
    ensures var t1 := Installed(t, FilterPlan(ifName, net));
      Fate(t1[ChainName(ifName, "FWX") := []], "FORWARD", p, depth) == Fate(t1, "FORWARD", p, depth)
  {
    var plan := FilterPlan(ifName, net);
    var t1, jumps := Installed(t, plan), HooksOf(plan.hooks, "FORWARD");
    var t2 := t1[ChainName(ifName, "FWX") := []];
    assert plan.hooks[2].from == "FORWARD" && plan.chains[2].name == ChainName(ifName, "FWX");
    ChainNames(ifName, "FWX", "FWX");
    assert t2["FORWARD"] == t["FORWARD"] + jumps;
    InstalledBeside(t, plan);
    assert ChainName(ifName, "FWX") in Names(plan.chains);
    OldRulesDecideAlike(t, t2, plan, t["FORWARD"], p, depth);
    EvalConcat(t2, t["FORWARD"], jumps, p, depth);
    HookedChain(t, plan, "FORWARD", p, depth);
    JumpsWithoutBridgeAccept(t, ifName, net, p, depth);
  }

  lemma JumpsWithoutBridgeAccept(t: Table, ifName: string, net: Net, p: Packet, depth: nat)
    requires depth > 0
    ensures var t1 := Installed(t, FilterPlan(ifName, net));
      var jumps := HooksOf(FilterPlan(ifName, net).hooks, "FORWARD");
      Eval(t1, jumps, p, depth) == Eval(t1[ChainName(ifName, "FWX") := []], jumps, p, depth)
  {
    var t1 := Installed(t, FilterPlan(ifName, net));
    FilterChains(t, ifName, net);
    FilterJumps(ifName, net, "FORWARD");
    ChainNames(ifName, "FWX", "FWI");
    ChainNames(ifName, "FWX", "FWO");
    ForwardJumps(t1, ifName, net, p, depth, FwxRules(ifName));
    FwxEval(t1, ifName, p, depth - 1);
    ForwardJumps(t1[ChainName(ifName, "FWX") := []], ifName, net, p, depth, []);
  }

  /** Packets for the host itself: only DNS and DHCP from the bridge are decided. */
  lemma InputMeans(t: Table, ifName: string, net: Net, p: Packet, depth: nat)
    requires Fresh(t, FilterPlan(ifName, net)) && Apart(t, FilterPlan(ifName, net)) && depth > 0
    ensures Fate(Installed(t, FilterPlan(ifName, net)), "INPUT", p, depth)
         == Then(Fate(t, "INPUT", p, depth), LocalDecision(p.inIf == Some(ifName), {53, 67}, p))
  {
    var plan := FilterPlan(ifName, net);
    var t1 := Installed(t, plan);
    assert plan.hooks[0].from == "INPUT";
    HookedChain(t, plan, "INPUT", p, depth);
    FilterJumps(ifName, net, "INPUT");
    EvalJump(t1, ChainName(ifName, "INP"), p, depth) by { FilterChains(t, ifName, net); }
    assert t1[ChainName(ifName, "INP")] == InpRules(ifName) by { FilterChains(t, ifName, net); }
    InpEval(t1, ifName, p, depth - 1);
  }

  /** Packets of the host itself: only DNS and DHCP towards the bridge are decided. */
  lemma OutputMeans(t: Table, ifName: string, net: Net, p: Packet, depth: nat)
    requires Fresh(t, FilterPlan(ifName, net)) && Apart(t, FilterPlan(ifName, net)) && depth > 0
    ensures Fate(Installed(t, FilterPlan(ifName, net)), "OUTPUT", p, depth)
         == Then(Fate(t, "OUTPUT", p, depth), LocalDecision(p.outIf == Some(ifName), {53, 68}, p))
  {
    var plan := FilterPlan(ifName, net);
    var t1 := Installed(t, plan);
    assert plan.hooks[1].from == "OUTPUT";
    HookedChain(t, plan, "OUTPUT", p, depth);
    FilterJumps(ifName, net, "OUTPUT");
    EvalJump(t1, ChainName(ifName, "OUT"), p, depth) by { FilterChains(t, ifName, net); }
    assert t1[ChainName(ifName, "OUT")] == OutRules(ifName) by { FilterChains(t, ifName, net); }
    OutEval(t1, ifName, p, depth - 1);
  }

  lemma SingleChainMeans(t: Table, name: string, from: string, rules: seq<Rule>, p: Packet, depth: nat)
    requires var plan := SingleChain(name, from, rules); PlanOk(plan) && Fresh(t, plan) && Apart(t, plan)
    requires depth > 0
    ensures var t1 := Installed(t, SingleChain(name, from, rules));
      Fate(t1, from, p, depth) == Then(Fate(t, from, p, depth), Called(Eval(t1, rules, p, depth - 1)))
  {
    var plan := SingleChain(name, from, rules);
    var t1 := Installed(t, plan);
    assert plan.hooks[0].from == from && plan.chains[0].name in Names(plan.chains);
    HookedChain(t, plan, from, p, depth);
    assert plan.hooks[1..] == [];
    assert HooksOf(plan.hooks, from) == [JumpTo(name)] + [];
    assert t1[name] == rules;
    EvalJump(t1, name, p, depth);
  }

  /** Outgoing packets: masqueraded exactly when they leave the realm network for anywhere but the two exempt targets. */
  lemma MasqueradeMeans(t: Table, ifName: string, net: Net, p: Packet, depth: nat)
    requires Fresh(t, NatPlan(ifName, net)) && Apart(t, NatPlan(ifName, net)) && depth > 0
    ensures var t1 := Installed(t, NatPlan(ifName, net));
      Fate(t1, "POSTROUTING", p, depth) == Then(Fate(t, "POSTROUTING", p, depth), MasqueradeDecision(net, p))
  {
    NatPlanOk(ifName, net);
    SingleChainMeans(t, ChainName(ifName, "PRT"), "POSTROUTING", NatRules(net), p, depth);
    NatEval(Installed(t, NatPlan(ifName, net)), net, p, depth - 1);
  }

  lemma SingleChainInstalled(t: Table, name: string, from: string, rules: seq<Rule>)
    requires var plan := SingleChain(name, from, rules); PlanOk(plan) && Fresh(t, plan)
    ensures var t1 := Installed(t, SingleChain(name, from, rules));
      from in t && from in t1 && t1[from] == t[from] + [JumpTo(name)] && name in t1 && t1[name] == rules
  {
    var plan := SingleChain(name, from, rules);
    assert plan.hooks[0].from == from && plan.chains[0].name in Names(plan.chains);
    assert plan.hooks[1..] == [] && HooksOf(plan.hooks, from) == [JumpTo(name)] + [];
  }

  lemma MangleChainFills(t: Table, ifName: string, p: Packet, depth: nat)
    ensures Fills(t, MangleRules(ifName), p, depth) <==> p.outIf == Some(ifName) && p.proto == Udp && p.dport == 68
  {
    assert MangleRules(ifName)[1..] == [];
  }

  lemma JumpFills(t: Table, c: string, p: Packet, depth: nat)
    requires c in t && depth > 0
    ensures Fills(t, [JumpTo(c)], p, depth) <==> Fills(t, t[c], p, depth - 1)
  {
    var rules := [JumpTo(c)];
    assert rules[1..] == [];
  }

  /**
    Which checksums are filled: those that were before, and, of the packets the earlier rules leave
    undecided, exactly the DHCP replies towards the bridge.
   */
  lemma MangleFills(t: Table, ifName: string, p: Packet, depth: nat)
    requires Fresh(t, ManglePlan(ifName)) && Apart(t, ManglePlan(ifName)) && depth > 0
    ensures "POSTROUTING" in t && "POSTROUTING" in Installed(t, ManglePlan(ifName))
    ensures var t1 := Installed(t, ManglePlan(ifName));
      Fills(t1, t1["POSTROUTING"], p, depth) <==>
        || Fills(t, t["POSTROUTING"], p, depth)
        || (Fate(t, "POSTROUTING", p, depth) == End && p.outIf == Some(ifName) && p.proto == Udp && p.dport == 68)
  {
    var plan := ManglePlan(ifName);
    var t1, name := Installed(t, plan), ChainName(ifName, "PRT");
    ManglePlanOk(ifName);
    SingleChainInstalled(t, name, "POSTROUTING", MangleRules(ifName));
    InstalledBeside(t, plan);
    OldRulesFillAlike(t, t1, plan, t["POSTROUTING"], p, depth);
    OldRulesDecideAlike(t, t1, plan, t["POSTROUTING"], p, depth);
    FillsConcat(t1, t["POSTROUTING"], [JumpTo(name)], p, depth);
    JumpFills(t1, name, p, depth);
    MangleChainFills(t1, ifName, p, depth - 1);
  }

  /** The mangle rules decide no packet's fate. */
  lemma MangleDecidesNothing(t: Table, ifName: string, p: Packet, depth: nat)
    requires Fresh(t, ManglePlan(ifName)) && Apart(t, ManglePlan(ifName)) && depth > 0
    ensures var t1 := Installed(t, ManglePlan(ifName));
      Fate(t1, "POSTROUTING", p, depth) == Fate(t, "POSTROUTING", p, depth)
  {
    ManglePlanOk(ifName);
    SingleChainMeans(t, ChainName(ifName, "PRT"), "POSTROUTING", MangleRules(ifName), p, depth);
    assert MangleRules(ifName)[1..] == [];
  }
}
