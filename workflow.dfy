/** The wiring the pipelines hand to langgraph's `StateGraph` (`add_node`,
    `set_entry_point`, `add_edge`, `add_conditional_edges`), kept as data, and
    a walk over it that takes one node per unit of fuel. The walk stands for
    nothing more than "run the node, then follow its single edge or look the
    router's answer up in its outcome map"; the library's own executor is not
    part of this model. */
module Workflow {

  /** Where an edge leads: a registered node or the END marker. */
  datatype Target = Node(name: string) | End

  /** What a router hands back, seen as a key of its outcome map: a string
      label, langgraph's END sentinel (which is not the string "END"), a value
      that is not a string, or the exception the router raised. */
  datatype Outcome = Label(s: string) | EndSentinel | NonString | Raised(error: string)

  datatype Rule =
    | Edge(from: string, to: Target)
    | Branch(from: string, router: string, outcomes: map<Outcome, Target>)

  datatype Wiring = Wiring(nodes: seq<string>, entry: string, rules: seq<Rule>)

  /** The rules that leave node `n`, in registration order. */
  function RulesFrom(rules: seq<Rule>, n: string): seq<Rule> {
    if rules == [] then []
    else if rules[0].from == n then [rules[0]] + RulesFrom(rules[1..], n)
    else RulesFrom(rules[1..], n)
  }

  /** They are exactly the registered rules that leave `n`. */
  lemma {:induction false} RulesFromExactly(rules: seq<Rule>, n: string)
    ensures forall rule :: rule in RulesFrom(rules, n) <==> rule in rules && rule.from == n
  {
    if rules != [] {
      RulesFromExactly(rules[1..], n);
      assert rules == [rules[0]] + rules[1..];
    }
  }

  /** A node that exactly one rule leaves has that rule alone. */
  lemma {:induction false} RulesFromOne(rules: seq<Rule>, n: string, k: nat)
    requires k < |rules| && rules[k].from == n
    requires forall j :: 0 <= j < |rules| && j != k ==> rules[j].from != n
    ensures RulesFrom(rules, n) == [rules[k]]
  {
    if k == 0 {
      RulesFromNone(rules[1..], n);
    } else {
      RulesFromOne(rules[1..], n, k - 1);
    }
  }

  /** A node no rule leaves has none. */
  lemma {:induction false} RulesFromNone(rules: seq<Rule>, n: string)
    requires forall j :: 0 <= j < |rules| ==> rules[j].from != n
    ensures RulesFrom(rules, n) == []
  {
    if rules != [] {
      RulesFromNone(rules[1..], n);
    }
  }

  predicate TargetRegistered(w: Wiring, t: Target) {
    t.End? || t.name in w.nodes
  }

  /** Every rule leaves a registered node and leads to a registered node or END. */
  predicate Registered(w: Wiring) {
    && w.entry in w.nodes
    && forall rule :: rule in w.rules ==>
         && rule.from in w.nodes
         && (rule.Edge? ==> TargetRegistered(w, rule.to))
         && (rule.Branch? ==> forall o :: o in rule.outcomes ==> TargetRegistered(w, rule.outcomes[o]))
  }

  /** Every label a router can return (as `labels` says) is a key of the
      outcome map it was registered with. */
  predicate Covers(w: Wiring, labels: map<string, set<Outcome>>) {
    forall rule :: rule in w.rules && rule.Branch? ==>
      rule.router in labels && labels[rule.router] <= rule.outcomes.Keys
  }

  /** Every answer in `answers` is a key of each outcome map registered for `router`. */
  predicate RouterCovered(w: Wiring, router: string, answers: set<Outcome>) {
    forall rule :: rule in w.rules && rule.Branch? && rule.router == router ==> answers <= rule.outcomes.Keys
  }

  /** On states satisfying `inv`, `route` returns, for each router named in
      `labels`, only labels listed there. */
  ghost predicate RoutesWithin<S(!new)>(route: (string, S) -> Outcome, labels: map<string, set<Outcome>>,
                                        inv: S -> bool) {
    forall r, x :: inv(x) && r in labels ==> route(r, x) in labels[r]
  }

  /** Every node keeps `inv`. */
  ghost predicate Preserves<S(!new)>(effect: (string, S) -> S, inv: S -> bool) {
    forall n, x :: inv(x) ==> inv(effect(n, x))
  }

  /** Node `b` can follow node `a`: an edge, or some outcome of a router, leads there. */
  predicate Leads(w: Wiring, a: string, b: string) {
    exists rule :: rule in RulesFrom(w.rules, a) &&
      (match rule
       case Edge(_, to) => to == Node(b)
       case Branch(_, _, outcomes) => Node(b) in outcomes.Values)
  }

  datatype Stop =
    | Finished                               // END, or a node with no outgoing rule
    | Unroutable(at: string, outcome: Outcome)  // the router's answer is not a key of its map
    | Ambiguous(at: string)                  // more than one rule leaves the node
    | OutOfFuel                              // the step bound was used up

  datatype Run<S> = Run(stop: Stop, trace: seq<string>, state: S)

  /** What happens after one node has run: the walk halts, or goes on at `next`. */
  datatype Step<S> = Halt(stop: Stop, state: S) | Goto(next: string, state: S)

  /** `rule` sends a walk in state `s` on to node `next`. */
  predicate Via<S>(route: (string, S) -> Outcome, rule: Rule, s: S, next: string) {
    || (rule.Edge? && rule.to == Node(next))
    || (rule.Branch? && route(rule.router, s) in rule.outcomes
        && rule.outcomes[route(rule.router, s)] == Node(next))
  }

  /** Run node `at` on `s`, then consult its one outgoing rule.
      `effect` is what a node does to the state, `route` what a router answers. */
  function StepFrom<S>(w: Wiring, route: (string, S) -> Outcome, effect: (string, S) -> S,
                       at: string, s: S): (r: Step<S>)
    ensures r.state == effect(at, s)
    ensures r.Halt? ==> !r.stop.OutOfFuel?
  {
    var s' := effect(at, s);
    var rules := RulesFrom(w.rules, at);
    if |rules| == 0 then Halt(Finished, s')
    else if |rules| > 1 then Halt(Ambiguous(at), s')
    else
      match rules[0]
      case Edge(_, to) =>
        if to.End? then Halt(Finished, s') else Goto(to.name, s')
      case Branch(_, router, outcomes) =>
        var o := route(router, s');
        if o !in outcomes then Halt(Unroutable(at, o), s')
        else if outcomes[o].End? then Halt(Finished, s')
        else Goto(outcomes[o].name, s')
  }

  /** A step that goes on does so along a rule that leaves the node. */
  lemma StepVia<S>(w: Wiring, route: (string, S) -> Outcome, effect: (string, S) -> S, at: string, s: S)
    returns (rule: Rule)
    requires StepFrom(w, route, effect, at, s).Goto?
    ensures rule in w.rules && rule.from == at
    ensures Via(route, rule, effect(at, s), StepFrom(w, route, effect, at, s).next)
  {
    rule := RulesFrom(w.rules, at)[0];
    RulesFromExactly(w.rules, at);
  }

  /** Run node `at` and what follows it for at most `fuel` node executions. */
  function Walk<S>(w: Wiring, route: (string, S) -> Outcome, effect: (string, S) -> S,
                   at: string, s: S, fuel: nat): (r: Run<S>)
    ensures |r.trace| <= fuel
    ensures r.stop.OutOfFuel? ==> |r.trace| == fuel
    ensures fuel > 0 ==> r.trace != [] && r.trace[0] == at
    decreases fuel
  {
    if fuel == 0 then Run(OutOfFuel, [], s)
    else
      match StepFrom(w, route, effect, at, s)
      case Halt(stop, s') => Run(stop, [at], s')
      case Goto(next, s') =>
        var rest := Walk(w, route, effect, next, s', fuel - 1);
        Run(rest.stop, [at] + rest.trace, rest.state)
  }

  /** A node left by one edge alone goes on along it. */
  lemma StepByEdge<S>(w: Wiring, route: (string, S) -> Outcome, effect: (string, S) -> S,
                      at: string, s: S, next: string)
    requires RulesFrom(w.rules, at) == [Edge(at, Node(next))]
    ensures StepFrom(w, route, effect, at, s) == Goto(next, effect(at, s))
  {
  }

  /** A node left by one branch alone goes where its router's answer maps to. */
  lemma StepByBranch<S>(w: Wiring, route: (string, S) -> Outcome, effect: (string, S) -> S,
                        at: string, s: S, router: string, outcomes: map<Outcome, Target>)
    requires RulesFrom(w.rules, at) == [Branch(at, router, outcomes)]
    requires route(router, effect(at, s)) in outcomes
    ensures outcomes[route(router, effect(at, s))].Node? ==>
      StepFrom(w, route, effect, at, s) == Goto(outcomes[route(router, effect(at, s))].name, effect(at, s))
    ensures outcomes[route(router, effect(at, s))].End? ==>
      StepFrom(w, route, effect, at, s) == Halt(Finished, effect(at, s))
  {
  }

  /** A node left by one branch alone, whose router answers what its map
      lacks: the walk stops there. */
  lemma WalkUnroutable<S>(w: Wiring, route: (string, S) -> Outcome, effect: (string, S) -> S,
                          at: string, s: S, fuel: nat, router: string, outcomes: map<Outcome, Target>)
    requires fuel > 0 && RulesFrom(w.rules, at) == [Branch(at, router, outcomes)]
    requires route(router, effect(at, s)) !in outcomes
    ensures Walk(w, route, effect, at, s, fuel)
      == Run(Unroutable(at, route(router, effect(at, s))), [at], effect(at, s))
  {
    assert StepFrom(w, route, effect, at, s) == Halt(Unroutable(at, route(router, effect(at, s))), effect(at, s));
  }

  /** A walk whose first step goes on at `next` is that step followed by the
      walk from `next`. */
  lemma WalkThrough<S>(w: Wiring, route: (string, S) -> Outcome, effect: (string, S) -> S,
                       at: string, s: S, fuel: nat, next: string, s': S)
    requires fuel > 0 && StepFrom(w, route, effect, at, s) == Goto(next, s')
    ensures Walk(w, route, effect, at, s, fuel)
      == Run(Walk(w, route, effect, next, s', fuel - 1).stop, [at] + Walk(w, route, effect, next, s', fuel - 1).trace,
             Walk(w, route, effect, next, s', fuel - 1).state)
  {
  }

  /** A walk whose first step halts stops there, after that one node. */
  lemma WalkHalts<S>(w: Wiring, route: (string, S) -> Outcome, effect: (string, S) -> S,
                     at: string, s: S, fuel: nat, stop: Stop, s': S)
    requires fuel > 0 && StepFrom(w, route, effect, at, s) == Halt(stop, s')
    ensures Walk(w, route, effect, at, s, fuel) == Run(stop, [at], s')
  {
  }

  /** Two steps on and a halt: the walk runs exactly three nodes. */
  lemma WalkThree<S>(w: Wiring, route: (string, S) -> Outcome, effect: (string, S) -> S,
                     a: string, b: string, c: string, s: S, s1: S, s2: S, stop: Stop, s3: S, fuel: nat)
    requires fuel >= 3
    requires StepFrom(w, route, effect, a, s) == Goto(b, s1)
    requires StepFrom(w, route, effect, b, s1) == Goto(c, s2)
    requires StepFrom(w, route, effect, c, s2) == Halt(stop, s3)
    ensures Walk(w, route, effect, a, s, fuel) == Run(stop, [a, b, c], s3)
  {
    WalkHalts(w, route, effect, c, s2, fuel - 2, stop, s3);
    WalkThrough(w, route, effect, b, s1, fuel - 1, c, s2);
    WalkThrough(w, route, effect, a, s, fuel, b, s1);
    assert [a] + ([b] + [c]) == [a, b, c];
  }

  /** When every router's answers are covered by its outcome map, no walk
      from a state in which the routers answer stops on an unroutable answer. */
  lemma {:induction false} CoveredNeverUnroutable<S(!new)>(
    w: Wiring, route: (string, S) -> Outcome, effect: (string, S) -> S,
    labels: map<string, set<Outcome>>, inv: S -> bool, at: string, s: S, fuel: nat)
    requires Covers(w, labels)
    requires RoutesWithin(route, labels, inv) && Preserves(effect, inv) && inv(s)
    ensures !Walk(w, route, effect, at, s, fuel).stop.Unroutable?
    decreases fuel
  {
    if fuel > 0 {
      var s' := effect(at, s);
      var rules := RulesFrom(w.rules, at);
      if |rules| == 1 && rules[0].Branch? {
        RulesFromExactly(w.rules, at);
        assert rules[0] in w.rules;
        assert route(rules[0].router, s') in rules[0].outcomes;
      }
      match StepFrom(w, route, effect, at, s)
      case Halt(_, _) =>
      case Goto(next, _) =>
        CoveredNeverUnroutable(w, route, effect, labels, inv, next, s', fuel - 1);
    }
  }

  /** From any node outside `bad`, a step never goes to a node in `bad`. */
  ghost predicate StepsAvoid<S(!new)>(w: Wiring, route: (string, S) -> Outcome, effect: (string, S) -> S,
                                      bad: set<string>) {
    forall a, x :: a !in bad && StepFrom(w, route, effect, a, x).Goto? ==>
      StepFrom(w, route, effect, a, x).next !in bad
  }

  /** Read off the wiring: no edge from outside `bad` leads into `bad`, and no
      router outside `bad` ever answers an outcome that leads into `bad`. */
  ghost predicate GuardedBy<S(!new)>(w: Wiring, route: (string, S) -> Outcome, bad: set<string>) {
    forall rule :: rule in w.rules && rule.from !in bad ==>
      && (rule.Edge? && rule.to.Node? ==> rule.to.name !in bad)
      && (rule.Branch? ==> forall o, x ::
            (o in rule.outcomes && rule.outcomes[o].Node? && rule.outcomes[o].name in bad)
            ==> route(rule.router, x) != o)
  }

  lemma GuardedSteps<S(!new)>(w: Wiring, route: (string, S) -> Outcome, effect: (string, S) -> S, bad: set<string>)
    requires GuardedBy(w, route, bad)
    ensures StepsAvoid(w, route, effect, bad)
  {
    forall a, x | a !in bad && StepFrom(w, route, effect, a, x).Goto?
      ensures StepFrom(w, route, effect, a, x).next !in bad
    {
      var rule := StepVia(w, route, effect, a, x);
    }
  }

  /** Then a walk that starts outside `bad` never visits `bad`. */
  lemma {:induction false} WalkAvoids<S(!new)>(
    w: Wiring, route: (string, S) -> Outcome, effect: (string, S) -> S,
    bad: set<string>, at: string, s: S, fuel: nat)
    requires StepsAvoid(w, route, effect, bad) && at !in bad
    ensures forall n :: n in bad ==> n !in Walk(w, route, effect, at, s, fuel).trace
    decreases fuel
  {
    if fuel > 0 {
      match StepFrom(w, route, effect, at, s)
      case Halt(_, _) =>
      case Goto(next, s') =>
        WalkAvoids(w, route, effect, bad, next, s', fuel - 1);
    }
  }

  /** `t` visits only registered nodes, each following the one before it. */
  predicate FollowsWiring(w: Wiring, t: seq<string>) {
    && (forall k :: 0 <= k < |t| ==> t[k] in w.nodes)
    && (forall k :: 0 <= k < |t| - 1 ==> Leads(w, t[k], t[k + 1]))
  }

  /** A walk from a registered node follows the wiring. */
  lemma {:induction false} WalkFollowsWiring<S>(
    w: Wiring, route: (string, S) -> Outcome, effect: (string, S) -> S,
    at: string, s: S, fuel: nat)
    requires Registered(w) && at in w.nodes
    ensures FollowsWiring(w, Walk(w, route, effect, at, s, fuel).trace)
    decreases fuel
  {
    if fuel > 0 {
      match StepFrom(w, route, effect, at, s)
      case Halt(_, _) =>
      case Goto(next, s') =>
        var rule := StepVia(w, route, effect, at, s);
        RulesFromExactly(w.rules, at);
        if rule.Branch? {
          assert Node(next) in rule.outcomes.Values;
        }
        assert Leads(w, at, next);
        WalkFollowsWiring(w, route, effect, next, s', fuel - 1);
        ConsFollows(w, at, Walk(w, route, effect, next, s', fuel - 1).trace);
    }
  }

  /** A registered node that leads to the head of a wiring-following trace
      can be put in front of it. */
  lemma ConsFollows(w: Wiring, at: string, t: seq<string>)
    requires at in w.nodes && (t != [] ==> Leads(w, at, t[0]))
    requires FollowsWiring(w, t)
    ensures FollowsWiring(w, [at] + t)
  {
    var u := [at] + t;
    forall k | 1 <= k < |u| - 1 ensures Leads(w, u[k], u[k + 1]) {
      assert u[k] == t[k - 1] && u[k + 1] == t[k];
    }
  }
}
