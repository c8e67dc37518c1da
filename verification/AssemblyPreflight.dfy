/** The binding part of entrypoint inspection: when it reports no gap, the run is ready. */
module AssemblyPreflight {
  import opened Basics
  import opened Sorting
  import opened Component
  import opened AssemblyModel
  import opened AssemblyCollect
  import opened AssemblyLaws
  import opened AssemblyImports

  // ---------------------------------------------------------------------------
  // assembly_port_resolves
  // ---------------------------------------------------------------------------

  /** Nested assemblies rank below the assemblies that name them. */
  ghost predicate RankedAssemblies(env: Env, rank: Ranking) {
    forall d, n :: d in env.assemblies && n in env.assemblies[d].nodes ==>
      n.source.AssemblySource? && n.source.assembly.digest in env.assemblies ==> rank(n.source.assembly.digest) < rank(d)
  }

  function FindPortExposure(xs: seq<Exposure>, port: string): (r: Option<Exposure>)
    ensures r.Some? ==> r.value in xs && r.value.portId == port
    ensures r.None? ==> forall x :: x in xs ==> x.portId != port
  {
    Find(xs, (x: Exposure) => x.portId == port)
  }

  lemma PortExposureIsFound(xs: seq<Exposure>, x: Exposure)
    requires UniqueExposures(xs) && x in xs
    ensures FindPortExposure(xs, x.portId) == Some(x)
  {
    var r := FindPortExposure(xs, x.portId);
    var i :| 0 <= i < |xs| && xs[i] == x;
    var j :| 0 <= j < |xs| && xs[j] == r.value;
  }

  /** Does the port lead to a leaf port, looking at assemblies alone? */
  predicate PortResolves(env: Env, ghost rank: Ranking, digest: string, port: string)
    requires digest in env.assemblies && RankedAssemblies(env, rank)
    decreases rank(digest)
  {
    match FindPortExposure(env.assemblies[digest].exposedPorts, port)
    case None => false
    case Some(x) =>
      match FindNode(env.assemblies[digest].nodes, x.target.nodeId)
      case None => false
      case Some(node) =>
        match node.source
        case ComponentSource(_) => FindPort(node.ports, x.target.portId).Some?
        case AssemblySource(nested) => nested.digest in env.assemblies && PortResolves(env, rank, nested.digest, x.target.portId)
  }

  lemma ResolvesThrough(env: Env, rank: Ranking, digest: string, x: Exposure, node: Node)
    requires digest in env.assemblies && RankedAssemblies(env, rank) && UniqueExposures(env.assemblies[digest].exposedPorts)
    requires x in env.assemblies[digest].exposedPorts && FindNode(env.assemblies[digest].nodes, x.target.nodeId) == Some(node)
    requires match node.source
             case ComponentSource(_) => FindPort(node.ports, x.target.portId).Some?
             case AssemblySource(nested) =>
               nested.digest in env.assemblies && PortResolves(env, rank, nested.digest, x.target.portId)
    ensures PortResolves(env, rank, digest, x.portId)
  {
    PortExposureIsFound(env.assemblies[digest].exposedPorts, x);
  }

  /** A port that traces to a leaf through the locks also resolves through the assemblies. */
  lemma {:induction false} TracedPortResolves(env: Env, rank: Ranking, ranks: Ranking, ld: string, prefix: Path, port: string,
                                              direction: Direction)
    requires Known(env, ld) && ValidEnv(env) && Ranked(env, rank) && RankedAssemblies(env, ranks)
    requires Trace(env, rank, ld, prefix, port, direction).Ok?
    ensures PortResolves(env, ranks, env.locks[ld].assembly.digest, port)
    decreases rank(ld)
  {
    var x, node := TracedThrough(env, rank, ld, prefix, port, direction);
    if Open(env, ld, node).Nested? {
      TracedPortResolves(env, rank, ranks, Open(env, ld, node).inner, prefix + [node.nodeId], x.target.portId, direction);
    }
    ResolvesThrough(env, ranks, env.locks[ld].assembly.digest, x, node);
  }

  /** The first step of a trace that succeeds. */
  lemma TracedThrough(env: Env, rank: Ranking, ld: string, prefix: Path, port: string, direction: Direction)
    returns (x: Exposure, node: Node)
    requires Known(env, ld) && Ranked(env, rank) && Trace(env, rank, ld, prefix, port, direction).Ok?
    ensures x in AssemblyOf(env, ld).exposedPorts && x.portId == port
    ensures FindNode(AssemblyOf(env, ld).nodes, x.target.nodeId) == Some(node)
    ensures match Open(env, ld, node)
            case Broken(_) => false
            case Leaf(_) => node.source.ComponentSource? && FindPort(node.ports, x.target.portId).Some?
            case Nested(inner) =>
              && node.source.AssemblySource? && env.locks[inner].assembly == node.source.assembly
              && Trace(env, rank, inner, prefix + [node.nodeId], x.target.portId, direction).Ok?
  {
    x := FindExposure(AssemblyOf(env, ld).exposedPorts, port, direction).value;
    assert TraceTarget(env, rank, ld, prefix, x.target, direction).Ok?;
    node := FindNode(AssemblyOf(env, ld).nodes, x.target.nodeId).value;
  }

  // ---------------------------------------------------------------------------
  // Matching prepared bindings to required imports
  // ---------------------------------------------------------------------------

  /** A binding decision as far as the inspection looks at it; `decision` is the rest of the record. */
  datatype BoundImport = BoundImport(installationId: string, revision: nat, port: Pin, decision: string)

  datatype Prepared = Prepared(selected: seq<BoundImport>, gaps: seq<Gap>)

  /** The consumer installation, what Powerbox control answers, and `validate_selected`. */
  datatype Control = Control(
    installationId: string,
    revision: nat,
    prepare: seq<Pin> -> Outcome<Prepared>,
    validSelected: BoundImport -> bool)

  predicate Serves(control: Control, b: BoundImport, pin: Pin) {
    b.installationId == control.installationId && b.revision == control.revision && b.port == pin
  }

  function Serving(control: Control, bs: seq<BoundImport>, pin: Pin): (r: seq<BoundImport>)
    ensures forall b :: b in r <==> b in bs && Serves(control, b, pin)
  {
    if bs == [] then []
    else
      var last := bs[|bs| - 1];
      Serving(control, bs[..|bs| - 1], pin) + (if Serves(control, last, pin) then [last] else [])
  }

  datatype Choices = Choices(bindings: seq<BoundImport>, gaps: seq<Gap>)

  function ImportGap(reason: Reason, pin: Pin): Gap {
    Gap(reason, Some(pin.leaf.nodeId), Some(pin.rootPort))
  }

  function Choose(control: Control, bs: seq<BoundImport>, pin: Pin): Choices {
    var serving := Serving(control, bs, pin);
    if |serving| == 1 && (control.validSelected)(serving[0]) then Choices([serving[0]], [])
    else if serving == [] then Choices([], [ImportGap(BindingMissing, pin)])
    else Choices([], [ImportGap(BindingAmbiguous, pin)])
  }

  function ChooseAll(control: Control, bs: seq<BoundImport>, pins: seq<Pin>): Choices {
    if pins == [] then Choices([], [])
    else
      var before, here := ChooseAll(control, bs, pins[..|pins| - 1]), Choose(control, bs, pins[|pins| - 1]);
      Choices(before.bindings + here.bindings, before.gaps + here.gaps)
  }

  function Unanswered(pins: seq<Pin>): seq<Gap> {
    Map(pins, (pin: Pin) => ImportGap(ControlUnavailable, pin))
  }

  /** The bindings for the required imports, and the gaps where there is none to use. */
  function Bind(control: Control, pins: seq<Pin>): Choices {
    if pins == [] then Choices([], [])
    else match (control.prepare)(pins)
      case Err(_) => Choices([], Unanswered(pins))
      case Ok(prepared) =>
        var chosen := ChooseAll(control, prepared.selected, pins);
        Choices(chosen.bindings, prepared.gaps + chosen.gaps)
  }

  method FindServing(control: Control, bs: seq<BoundImport>, pin: Pin) returns (r: seq<BoundImport>)
    ensures r == Serving(control, bs, pin)
  {
    r := [];
    for i := 0 to |bs|
      invariant r == Serving(control, bs[..i], pin)
    {
      assert bs[..i + 1][..i] == bs[..i];
      if Serves(control, bs[i], pin) {
        r := r + [bs[i]];
      }
    }
    assert bs[..|bs|] == bs;
  }

  method ChooseBindings(control: Control, bs: seq<BoundImport>, pins: seq<Pin>) returns (r: Choices)
    ensures r == ChooseAll(control, bs, pins)
  {
    var bindings: seq<BoundImport>, gaps: seq<Gap> := [], [];
    for i := 0 to |pins|
      invariant Choices(bindings, gaps) == ChooseAll(control, bs, pins[..i])
    {
      assert pins[..i + 1][..i] == pins[..i];
      var serving := FindServing(control, bs, pins[i]);
      if |serving| == 1 && (control.validSelected)(serving[0]) {
        bindings := bindings + [serving[0]];
      } else if serving == [] {
        gaps := gaps + [ImportGap(BindingMissing, pins[i])];
      } else {
        gaps := gaps + [ImportGap(BindingAmbiguous, pins[i])];
      }
    }
    assert pins[..|pins|] == pins;
    r := Choices(bindings, gaps);
  }

  method BindImports(control: Control, pins: seq<Pin>) returns (r: Choices)
    ensures r == Bind(control, pins)
  {
    if pins == [] {
      return Choices([], []);
    }
    var answer := (control.prepare)(pins);
    match answer {
      case Ok(prepared) =>
        var chosen := ChooseBindings(control, prepared.selected, pins);
        r := Choices(chosen.bindings, prepared.gaps + chosen.gaps);
      case Err(_) =>
        var gaps: seq<Gap> := [];
        for i := 0 to |pins|
          invariant |gaps| == i && forall k :: 0 <= k < i ==> gaps[k] == ImportGap(ControlUnavailable, pins[k])
        {
          gaps := gaps + [ImportGap(ControlUnavailable, pins[i])];
        }
        r := Choices([], gaps);
    }
  }

  // ---------------------------------------------------------------------------
  // inspect_entrypoint, from the locked nodes on
  // ---------------------------------------------------------------------------

  function OptionKey(s: Option<string>): seq<string> {
    if s.Some? then [s.value] else []
  }

  function GapKey(g: Gap): seq<seq<string>> {
    [[Code(g.reason)], OptionKey(g.nodeId), OptionKey(g.portId)]
  }

  function GapOrder(): Order<Gap> {
    (a: Gap, b: Gap) => LexLess(GapKey(a), GapKey(b), Lex(StringOrder()))
  }

  datatype Activation = Activation(packageId: string, componentId: string, path: Path)

  datatype Preflight = Preflight(
    claims: seq<Candidate>,
    packageIds: seq<string>,
    nodes: seq<Path>,
    activations: seq<Activation>,
    gaps: seq<Gap>,
    selectedBindings: seq<BoundImport>)

  function Active(selected: seq<Placed>): seq<Placed> {
    if selected == [] then []
    else
      var last := selected[|selected| - 1];
      Active(selected[..|selected| - 1]) + (if last.component.activates then [last] else [])
  }

  function Claims(selected: seq<Placed>): seq<Candidate> {
    Map(selected, (p: Placed) => p.component.claim)
  }

  function PackageIds(selected: seq<Placed>): seq<string> {
    NormalStrings(Map(selected, (p: Placed) => p.component.claim.package.id))
  }

  function ActivationOf(p: Placed): Activation {
    Activation(p.component.claim.package.id, p.component.claim.component.componentId, p.path)
  }

  function Report(control: Control, before: seq<Gap>, found: Found): Preflight {
    var bound := Bind(control, found.pins);
    Preflight(Claims(found.selected), PackageIds(found.selected),
              Map(Active(found.selected), (p: Placed) => p.path),
              Map(Active(found.selected), ActivationOf),
              SortDedup(before + found.gaps + bound.gaps, GapOrder()),
              bound.bindings)
  }

  /** `before` are the gaps found ahead of the walk: rights, realization and entrypoint checks. */
  function Inspected(env: Env, ghost rank: Ranking, root: string, control: Control, before: seq<Gap>): Outcome<Preflight>
    requires Ranked(env, rank)
  {
    if root !in env.locks then Err("root lock is unavailable")
    else if !Known(env, root) then Err("root assembly is unavailable")
    else match CollectRoot(env, rank, root)
      case Err(why) => Err(why)
      case Ok(found) => Ok(Report(control, before, found))
  }

  method InspectBindings(env: Env, ghost rank: Ranking, root: string, control: Control, before: seq<Gap>)
    returns (r: Outcome<Preflight>)
    requires Ranked(env, rank)
    ensures r == Inspected(env, rank, root, control, before)
  {
    if root !in env.locks {
      return Err("root lock is unavailable");
    }
    if !Known(env, root) {
      return Err("root assembly is unavailable");
    }
    var collector := new Collector(before);
    var done := collector.CollectLockedNodes(env, rank, root, [], RootImports(AssemblyOf(env, root).exposedPorts));
    if done.Err? {
      return Err(done.reason);
    }
    var bound := BindImports(control, collector.requiredImports);
    var active := Active(collector.selected);
    r := Ok(Preflight(Claims(collector.selected), PackageIds(collector.selected),
                      Map(active, (p: Placed) => p.path), Map(active, ActivationOf),
                      SortDedup(collector.gaps + bound.gaps, GapOrder()), bound.bindings));
    ghost var found := CollectRoot(env, rank, root).value;
    assert collector.Contents() == Join(Found([], [], before), found);
    assert collector.selected == found.selected && collector.requiredImports == found.pins;
  }

  // ---------------------------------------------------------------------------
  // Readiness
  // ---------------------------------------------------------------------------

  lemma SortedGapless(gaps: seq<Gap>)
    requires SortDedup(gaps, GapOrder()) == []
    ensures gaps == []
  {
    SortContents(gaps, GapOrder());
    assert |multiset(gaps)| == |gaps| && |multiset(Sort(gaps, GapOrder()))| == |Sort(gaps, GapOrder())|;
  }

  /** The binding serves this import, is valid, and nothing else prepared serves it. */
  ghost predicate Settles(control: Control, bs: seq<BoundImport>, pin: Pin, b: BoundImport) {
    && b in bs && Serves(control, b, pin) && (control.validSelected)(b)
    && forall i, j :: 0 <= i < |bs| && 0 <= j < |bs| && Serves(control, bs[i], pin) && Serves(control, bs[j], pin) ==> i == j
  }

  lemma {:induction false} OneServes(control: Control, bs: seq<BoundImport>, pin: Pin)
    requires |Serving(control, bs, pin)| <= 1
    ensures forall i, j :: 0 <= i < |bs| && 0 <= j < |bs| && Serves(control, bs[i], pin) && Serves(control, bs[j], pin) ==> i == j
  {
    if bs != [] {
      var init := bs[..|bs| - 1];
      OneServes(control, init, pin);
      assert forall i :: 0 <= i < |init| ==> init[i] == bs[i];
      if Serves(control, bs[|bs| - 1], pin) {
        assert Serving(control, init, pin) == [];
        forall i | 0 <= i < |init| ensures !Serves(control, bs[i], pin) {
          assert init[i] in init;
        }
      }
    }
  }

  lemma ChosenSettles(control: Control, bs: seq<BoundImport>, pin: Pin)
    ensures var chosen := Choose(control, bs, pin);
            chosen.gaps == [] <==> |chosen.bindings| == 1 && Settles(control, bs, pin, chosen.bindings[0])
  {
    var serving := Serving(control, bs, pin);
    if |serving| == 1 {
      assert serving[0] in serving;
      OneServes(control, bs, pin);
    }
  }

  /** One binding for each import, in order, that settles it. */
  ghost predicate SettlesAll(control: Control, bs: seq<BoundImport>, pins: seq<Pin>, bindings: seq<BoundImport>) {
    |bindings| == |pins| && forall i :: 0 <= i < |pins| ==> Settles(control, bs, pins[i], bindings[i])
  }

  lemma SettlesNext(control: Control, bs: seq<BoundImport>, pins: seq<Pin>, bindings: seq<BoundImport>, pin: Pin, b: BoundImport)
    requires SettlesAll(control, bs, pins, bindings) && Settles(control, bs, pin, b)
    ensures SettlesAll(control, bs, pins + [pin], bindings + [b])
  {
  }

  lemma {:induction false} AllSettled(control: Control, bs: seq<BoundImport>, pins: seq<Pin>)
    requires ChooseAll(control, bs, pins).gaps == []
    ensures SettlesAll(control, bs, pins, ChooseAll(control, bs, pins).bindings)
  {
    if pins != [] {
      var init, pin := pins[..|pins| - 1], pins[|pins| - 1];
      var before, here := ChooseAll(control, bs, init), Choose(control, bs, pin);
      AllSettled(control, bs, init);
      ChosenSettles(control, bs, pin);
      SettlesNext(control, bs, init, before.bindings, pin, here.bindings[0]);
      assert init + [pin] == pins && before.bindings + [here.bindings[0]] == before.bindings + here.bindings;
    }
  }

  /** Every required import is settled by what Powerbox control prepared. */
  ghost predicate BoundBy(control: Control, pins: seq<Pin>, bindings: seq<BoundImport>) {
    if pins == [] then bindings == []
    else
      var answer := (control.prepare)(pins);
      answer.Ok? && answer.value.gaps == [] && SettlesAll(control, answer.value.selected, pins, bindings)
  }

  /** What a run that starts on this preflight can rely on. */
  ghost predicate Ready(env: Env, rank: Ranking, root: string, control: Control, pre: Preflight)
    requires Known(env, root) && Ranked(env, rank)
  {
    var found, sites := CollectRoot(env, rank, root), Sites(env, rank, root, []);
    && found.Ok? && sites.Ok?
    && BoundBy(control, found.value.pins, pre.selectedBindings)
    && |pre.claims| == |sites.value|
    && (forall i :: 0 <= i < |sites.value| ==> ClaimFor(env, sites.value[i], pre.claims[i]))
  }

  /** The claim is on the one loaded component the site's lock entry pins. */
  ghost predicate ClaimFor(env: Env, site: Site, claim: Candidate) {
    var loading := ExactLoaded(site.nodeLock, env.packages);
    loading.Loaded? && loading.component.claim == claim
  }

  /** Each import yields a binding or a gap, never both. */
  lemma {:induction false} EachChosenOrLacking(control: Control, bs: seq<BoundImport>, pins: seq<Pin>)
    ensures var chosen := ChooseAll(control, bs, pins); |chosen.bindings| + |chosen.gaps| == |pins|
  {
    if pins != [] { EachChosenOrLacking(control, bs, pins[..|pins| - 1]); }
  }

  lemma BoundMeans(control: Control, pins: seq<Pin>)
    ensures Bind(control, pins).gaps == [] <==> BoundBy(control, pins, Bind(control, pins).bindings)
  {
    if pins != [] && (control.prepare)(pins).Ok? {
      var bs := (control.prepare)(pins).value.selected;
      EachChosenOrLacking(control, bs, pins);
      if ChooseAll(control, bs, pins).gaps == [] { AllSettled(control, bs, pins); }
    } else {
      assert |Unanswered(pins)| == |pins|;
    }
  }

  /** Exactly when inspection reports no gap. */
  lemma GaplessMeans(env: Env, rank: Ranking, root: string, control: Control, before: seq<Gap>)
    requires ValidEnv(env) && Ranked(env, rank) && Inspected(env, rank, root, control, before).Ok?
    ensures Known(env, root) && Sites(env, rank, root, []).Ok? && Placeable(Sites(env, rank, root, []).value)
    ensures var pre := Inspected(env, rank, root, control, before).value;
            pre.gaps == [] <==>
              && before == []
              && NothingExplained(env, root, Sites(env, rank, root, []).value)
              && BoundBy(control, CollectRoot(env, rank, root).value.pins, pre.selectedBindings)
  {
    RootWalkIsSum(env, rank, root);
    var found, sites := CollectRoot(env, rank, root).value, Sites(env, rank, root, []).value;
    var all := before + found.gaps + Bind(control, found.pins).gaps;
    if SortDedup(all, GapOrder()) == [] { SortedGapless(all); }
    BoundMeans(control, found.pins);
    GaplessWalk(env, rank, root);
  }

  /** No gaps: each required import has its one valid binding, in order, and each leaf its claim. */
  lemma GaplessIsReady(env: Env, rank: Ranking, root: string, control: Control, before: seq<Gap>)
    requires ValidEnv(env) && Ranked(env, rank) && Inspected(env, rank, root, control, before).Ok?
    requires Inspected(env, rank, root, control, before).value.gaps == []
    ensures before == [] && Known(env, root)
    ensures Ready(env, rank, root, control, Inspected(env, rank, root, control, before).value)
  {
    var found := CollectRoot(env, rank, root).value;
    SortedGapless(before + found.gaps + Bind(control, found.pins).gaps);
    BoundMeans(control, found.pins);
    NoGapsSelectsAll(env, rank, root);
  }
}
