/** The agent workflow: the ten-node linear chain `build_workflow` wires,
    the script `run_simulation_ui` builds for a patient, the per-agent step
    `agent_node(...).run` and running the chain over one shared case state. */
module Workflow {
  import opened Text
  import opened Patients
  import opened Storage
  import opened Speech

  // ---------------------------------------------------------------------
  // The chain
  // ---------------------------------------------------------------------

  const Nodes: seq<string> := [
    "ClientAgent", "ClientInteractionAgent", "TriageMedicalAssessmentAgent",
    "ProviderNetworkAgent", "PolicyValidationAgent", "MedicalDocumentationAgent",
    "RepatriationPlannerAgent", "MedicalDecisionAgent", "ComplianceConsentAgent", "OrchestratorAgent"
  ]

  predicate Distinct<T(==)>(s: seq<T>)
  {
    forall i, j :: 0 <= i < j < |s| ==> s[i] != s[j]
  }

  /** The ten agent names are pairwise different (they differ in length or
      in their first letter). */
  lemma NodesDistinct()
    ensures Distinct(Nodes)
  {
    var lengths := [11, 22, 28, 20, 21, 25, 24, 20, 22, 17];
    var initials := ['C', 'C', 'T', 'P', 'P', 'M', 'R', 'M', 'C', 'O'];
    forall i | 0 <= i < 10
      ensures |Nodes[i]| == lengths[i] && Nodes[i][0] == initials[i]
    {
    }
  }

  /** The compiled graph: its nodes in insertion order, its edges in
      insertion order, the entry point and the finish point. */
  datatype Graph = Graph(nodes: seq<string>, edges: seq<(string, string)>, entry: string, finish: string)

  /** A strictly linear chain: distinct nodes, an edge from each node to the
      next and no other edge, entry at the first node, finish at the last. */
  predicate IsLinearChain(g: Graph)
  {
    |g.nodes| > 0 && Distinct(g.nodes) &&
    |g.edges| == |g.nodes| - 1 &&
    (forall i :: 0 <= i < |g.edges| ==> g.edges[i] == (g.nodes[i], g.nodes[i + 1])) &&
    g.entry == g.nodes[0] && g.finish == g.nodes[|g.nodes| - 1]
  }

  /** `build_workflow`: adds the ten nodes, an edge between each node and
      the next, and sets the entry and finish points. */
  method BuildWorkflow() returns (g: Graph)
    ensures g.nodes == Nodes && IsLinearChain(g)
    ensures |g.edges| == 9 && g.entry == "ClientAgent" && g.finish == "OrchestratorAgent"
  {
    var nodes: seq<string> := [];
    var edges: seq<(string, string)> := [];
    for k := 0 to |Nodes|
      invariant nodes == Nodes[..k]
    {
      nodes := nodes + [Nodes[k]];
    }
    for i := 0 to |nodes| - 1
      invariant |edges| == i
      invariant forall j :: 0 <= j < i ==> edges[j] == (nodes[j], nodes[j + 1])
    {
      edges := edges + [(nodes[i], nodes[i + 1])];
    }
    NodesDistinct();
    g := Graph(nodes, edges, "ClientAgent", "OrchestratorAgent");
  }

  /** The targets of the edges that leave `n`, in edge order. */
  function Successors(edges: seq<(string, string)>, n: string): seq<string>
  {
    if edges == [] then []
    else (if edges[0].0 == n then [edges[0].1] else []) + Successors(edges[1..], n)
  }

  /** The edges turned around, so that successors become predecessors. */
  function Flip(edges: seq<(string, string)>): (r: seq<(string, string)>)
    ensures |r| == |edges| && forall i :: 0 <= i < |edges| ==> r[i] == (edges[i].1, edges[i].0)
  {
    seq(|edges|, i requires 0 <= i < |edges| => (edges[i].1, edges[i].0))
  }

  function Predecessors(edges: seq<(string, string)>, n: string): seq<string>
  {
    Successors(Flip(edges), n)
  }

  lemma {:induction false} SuccessorsNone(edges: seq<(string, string)>, n: string)
    requires forall j :: 0 <= j < |edges| ==> edges[j].0 != n
    ensures Successors(edges, n) == []
  {
    if edges != [] {
      SuccessorsNone(edges[1..], n);
    }
  }

  lemma {:induction false} SuccessorsOne(edges: seq<(string, string)>, n: string, k: nat)
    requires k < |edges| && edges[k].0 == n
    requires forall j :: 0 <= j < |edges| && j != k ==> edges[j].0 != n
    ensures Successors(edges, n) == [edges[k].1]
  {
    if k == 0 {
      SuccessorsNone(edges[1..], n);
    } else {
      SuccessorsOne(edges[1..], n, k - 1);
    }
  }

  /** In a linear chain every node but the finish has exactly one
      successor, the next node, and the finish has none. */
  lemma ChainSuccessors(g: Graph, i: nat)
    requires IsLinearChain(g) && i < |g.nodes|
    ensures Successors(g.edges, g.nodes[i]) == if i + 1 < |g.nodes| then [g.nodes[i + 1]] else []
  {
    forall j | 0 <= j < |g.edges| && j != i
      ensures g.edges[j].0 != g.nodes[i]
    {
      assert g.edges[j] == (g.nodes[j], g.nodes[j + 1]);
    }
    if i + 1 < |g.nodes| {
      assert g.edges[i] == (g.nodes[i], g.nodes[i + 1]);
      SuccessorsOne(g.edges, g.nodes[i], i);
    } else {
      SuccessorsNone(g.edges, g.nodes[i]);
    }
  }

  /** In a linear chain every node but the entry has exactly one
      predecessor, the previous node, and the entry has none. */
  lemma ChainPredecessors(g: Graph, i: nat)
    requires IsLinearChain(g) && i < |g.nodes|
    ensures Predecessors(g.edges, g.nodes[i]) == if i > 0 then [g.nodes[i - 1]] else []
  {
    var f := Flip(g.edges);
    forall j | 0 <= j < |f| && j != i - 1
      ensures f[j].0 != g.nodes[i]
    {
      assert g.edges[j] == (g.nodes[j], g.nodes[j + 1]);
    }
    if i > 0 {
      assert g.edges[i - 1] == (g.nodes[i - 1], g.nodes[i]);
      SuccessorsOne(f, g.nodes[i], i - 1);
    } else {
      SuccessorsNone(f, g.nodes[i]);
    }
  }

  /** Execution of the compiled graph: run `n`, then follow its single
      outgoing edge, for at most `fuel` nodes. */
  function Walk(g: Graph, n: string, fuel: nat): seq<string>
    decreases fuel
  {
    if fuel == 0 then []
    else
      var next := Successors(g.edges, n);
      [n] + (if |next| == 1 then Walk(g, next[0], fuel - 1) else [])
  }

  /** The order in which the compiled graph runs its nodes. */
  function Schedule(g: Graph): seq<string>
  {
    Walk(g, g.entry, |g.nodes|)
  }

  lemma {:induction false} WalkFrom(g: Graph, i: nat)
    requires IsLinearChain(g) && i < |g.nodes|
    ensures Walk(g, g.nodes[i], |g.nodes| - i) == g.nodes[i..]
    decreases |g.nodes| - i
  {
    ChainSuccessors(g, i);
    if i + 1 < |g.nodes| {
      WalkFrom(g, i + 1);
      assert g.nodes[i..] == [g.nodes[i]] + g.nodes[i + 1..];
    } else {
      assert Walk(g, g.nodes[i], 0) == [];
    }
  }

  /** Running a linear chain from its entry visits every node once, in list
      order, and ends at the finish point. */
  lemma ScheduleIsNodeOrder(g: Graph)
    requires IsLinearChain(g)
    ensures Schedule(g) == g.nodes
    ensures Schedule(g)[0] == g.entry && Schedule(g)[|Schedule(g)| - 1] == g.finish
  {
    WalkFrom(g, 0);
  }

  // ---------------------------------------------------------------------
  // Utterances
  // ---------------------------------------------------------------------

  /** The two retrieval chains, each a black box from question to answer. */
  datatype Retrieval = Retrieval(hospital: string -> string, policy: string -> string)

  const HospitalQuestion := "What care level does Hospital Pasteur provide?"
  const PolicyQuestion := "Is repatriation with escort covered?"

  /** The script `run_simulation_ui` builds for a patient. */
  function Script(p: Patient): map<string, string>
  {
    map[
      "ClientAgent" := "\U{1F4DE} Hello? I had a fall in " + p.location + ". It hurts badly!",
      "ClientInteractionAgent" := "Hello " + p.name + ", you're in " + p.location + " with '" + p.symptoms + "'. This is " + p.urgency + ".",
      "TriageMedicalAssessmentAgent" := "Ambulance arranged. Requesting medical report.",
      "MedicalDocumentationAgent" := "Requesting Fit-to-Fly certificate for " + p.name + ".",
      "RepatriationPlannerAgent" := "Planning business class flight with nurse escort.",
      "MedicalDecisionAgent" := "\U{2705} Case cleared.",
      "ComplianceConsentAgent" := "\U{1F510} " + p.name + " consented to share medical data.",
      "OrchestratorAgent" := "Case complete. Logs saved and KPIs triggered."
    ]
  }

  /** The script covers every node except the two retrieval agents. */
  lemma ScriptCoverage(p: Patient, i: nat)
    requires i < |Nodes|
    ensures Nodes[i] in Script(p) <==> Nodes[i] != "ProviderNetworkAgent" && Nodes[i] != "PolicyValidationAgent"
  {
  }

  function Placeholder(agent: string): string
  {
    agent + " is processing..."
  }

  /** What an agent says: the retrieval answer for the two retrieval agents,
      otherwise its script entry, otherwise the placeholder. */
  function Utterance(agent: string, script: map<string, string>, qa: Retrieval): string
  {
    var msg := Get(script, agent, Placeholder(agent));
    if agent == "ProviderNetworkAgent" then qa.hospital(HospitalQuestion)
    else if agent == "PolicyValidationAgent" then qa.policy(PolicyQuestion)
    else msg
  }

  /** The retrieval answer overrides any script entry, and every other agent
      falls back from its script entry to the placeholder. */
  lemma UtteranceResolution(agent: string, script: map<string, string>, qa: Retrieval)
    ensures agent == "ProviderNetworkAgent" ==> Utterance(agent, script, qa) == qa.hospital(HospitalQuestion)
    ensures agent == "PolicyValidationAgent" ==> Utterance(agent, script, qa) == qa.policy(PolicyQuestion)
    ensures agent != "ProviderNetworkAgent" && agent != "PolicyValidationAgent" ==>
              Utterance(agent, script, qa) == if agent in script then script[agent] else Placeholder(agent)
  {
  }

  /** With the patient's script, no node of the chain speaks the
      placeholder. */
  lemma ChainNeverPlaceholder(p: Patient, qa: Retrieval, i: nat)
    requires i < |Nodes|
    ensures Nodes[i] != "ProviderNetworkAgent" && Nodes[i] != "PolicyValidationAgent" ==>
              Utterance(Nodes[i], Script(p), qa) == Script(p)[Nodes[i]]
  {
    ScriptCoverage(p, i);
  }

  /** An agent name with neither a capital H nor a capital R has context
      "none". */
  lemma ContextNoneWithoutCapitals(a: string)
    requires 'H' !in a && 'R' !in a
    ensures ContextOf(a) == "none"
  {
    NotContainsWithoutFirstChar(a, "Hospital");
    NotContainsWithoutFirstChar(a, "Repatriation");
  }

  lemma ContextOfPlanner()
    ensures ContextOf("RepatriationPlannerAgent") == "airport"
  {
    var a := "RepatriationPlannerAgent";
    NotContainsWithoutFirstChar(a, "Hospital");
    assert OccursAt(a, "Repatriation", 0);
  }

  // The letter facts behind the context heuristic and the archive names, one agent name at a
  // time (each search through a literal string is a proof of its own).
  lemma LettersClientAgent() ensures 'H' !in "ClientAgent" && 'R' !in "ClientAgent" && '/' !in "ClientAgent" { }
  lemma LettersClientInteractionAgent() ensures 'H' !in "ClientInteractionAgent" && 'R' !in "ClientInteractionAgent" && '/' !in "ClientInteractionAgent" { }
  lemma LettersTriageMedicalAssessmentAgent() ensures 'H' !in "TriageMedicalAssessmentAgent" && 'R' !in "TriageMedicalAssessmentAgent" && '/' !in "TriageMedicalAssessmentAgent" { }
  lemma LettersProviderNetworkAgent() ensures 'H' !in "ProviderNetworkAgent" && 'R' !in "ProviderNetworkAgent" && '/' !in "ProviderNetworkAgent" { }
  lemma LettersPolicyValidationAgent() ensures 'H' !in "PolicyValidationAgent" && 'R' !in "PolicyValidationAgent" && '/' !in "PolicyValidationAgent" { }
  lemma LettersMedicalDocumentationAgent() ensures 'H' !in "MedicalDocumentationAgent" && 'R' !in "MedicalDocumentationAgent" && '/' !in "MedicalDocumentationAgent" { }
  lemma LettersRepatriationPlannerAgent() ensures 'H' !in "RepatriationPlannerAgent" && '/' !in "RepatriationPlannerAgent" { }
  lemma LettersMedicalDecisionAgent() ensures 'H' !in "MedicalDecisionAgent" && 'R' !in "MedicalDecisionAgent" && '/' !in "MedicalDecisionAgent" { }
  lemma LettersComplianceConsentAgent() ensures 'H' !in "ComplianceConsentAgent" && 'R' !in "ComplianceConsentAgent" && '/' !in "ComplianceConsentAgent" { }
  lemma LettersOrchestratorAgent() ensures 'H' !in "OrchestratorAgent" && 'R' !in "OrchestratorAgent" && '/' !in "OrchestratorAgent" { }

  /** No agent name has a capital H, and only the repatriation planner has
      a capital R. */
  lemma NodeCapitals(i: nat)
    requires i < |Nodes|
    ensures 'H' !in Nodes[i] && '/' !in Nodes[i]
    ensures Nodes[i] != "RepatriationPlannerAgent" ==> 'R' !in Nodes[i]
  {
    if i == 0 { LettersClientAgent(); }
    else if i == 1 { LettersClientInteractionAgent(); }
    else if i == 2 { LettersTriageMedicalAssessmentAgent(); }
    else if i == 3 { LettersProviderNetworkAgent(); }
    else if i == 4 { LettersPolicyValidationAgent(); }
    else if i == 5 { LettersMedicalDocumentationAgent(); }
    else if i == 6 { LettersRepatriationPlannerAgent(); }
    else if i == 7 { LettersMedicalDecisionAgent(); }
    else if i == 8 { LettersComplianceConsentAgent(); }
    else { LettersOrchestratorAgent(); }
  }

  /** Along the fixed chain only the repatriation planner gets an ambient
      context ("airport"); every other node gets "none". */
  lemma ChainContexts(i: nat)
    requires i < |Nodes|
    ensures ContextOf(Nodes[i]) == if Nodes[i] == "RepatriationPlannerAgent" then "airport" else "none"
  {
    NodeCapitals(i);
    if Nodes[i] == "RepatriationPlannerAgent" {
      ContextOfPlanner();
    } else {
      ContextNoneWithoutCapitals(Nodes[i]);
    }
  }

  /** `f"{agent_name}: {msg}"`. */
  function Line(agent: string, msg: string): string
  {
    agent + ": " + msg
  }

  // ---------------------------------------------------------------------
  // Shared state
  // ---------------------------------------------------------------------

  /** The two lists the steps append to. */
  datatype Trail = Trail(log: seq<string>, audio: seq<string>)

  function StepTrail(t: Trail, agent: string, suffix: nat, script: map<string, string>, qa: Retrieval): Trail
  {
    Trail(t.log + [Line(agent, Utterance(agent, script, qa))], t.audio + [AudioPath(agent, suffix)])
  }

  /** Running the chain: a left fold of the step over the node list, the
      i-th node drawing the i-th random suffix. */
  function RunTrail(t: Trail, nodes: seq<string>, suffixes: seq<nat>, script: map<string, string>, qa: Retrieval): Trail
    requires |suffixes| == |nodes|
    decreases nodes
  {
    if nodes == [] then t
    else RunTrail(StepTrail(t, nodes[0], suffixes[0], script, qa), nodes[1..], suffixes[1..], script, qa)
  }

  /** The transcript lines of the given nodes, in node order. */
  function Lines(nodes: seq<string>, script: map<string, string>, qa: Retrieval): (r: seq<string>)
    ensures |r| == |nodes|
  {
    seq(|nodes|, i requires 0 <= i < |nodes| => Line(nodes[i], Utterance(nodes[i], script, qa)))
  }

  /** The audio paths of the given nodes, the i-th node drawing the i-th suffix. */
  function Paths(nodes: seq<string>, suffixes: seq<nat>): (r: seq<string>)
    requires |suffixes| == |nodes|
    ensures |r| == |nodes|
  {
    seq(|nodes|, i requires 0 <= i < |nodes| => AudioPath(nodes[i], suffixes[i]))
  }

  lemma LinesCons(nodes: seq<string>, script: map<string, string>, qa: Retrieval)
    requires |nodes| > 0
    ensures Lines(nodes, script, qa) == [Line(nodes[0], Utterance(nodes[0], script, qa))] + Lines(nodes[1..], script, qa)
  {
  }

  lemma PathsCons(nodes: seq<string>, suffixes: seq<nat>)
    requires |suffixes| == |nodes| > 0
    ensures Paths(nodes, suffixes) == [AudioPath(nodes[0], suffixes[0])] + Paths(nodes[1..], suffixes[1..])
  {
  }

  /** A run appends, in node order, each node's transcript line and each
      node's audio path, and leaves what was there before untouched. */
  lemma {:induction false} RunTrailShape(t: Trail, nodes: seq<string>, suffixes: seq<nat>, script: map<string, string>, qa: Retrieval)
    requires |suffixes| == |nodes|
    decreases nodes
    ensures RunTrail(t, nodes, suffixes, script, qa) == Trail(t.log + Lines(nodes, script, qa), t.audio + Paths(nodes, suffixes))
  {
    if nodes != [] {
      var t' := StepTrail(t, nodes[0], suffixes[0], script, qa);
      RunTrailShape(t', nodes[1..], suffixes[1..], script, qa);
      LinesCons(nodes, script, qa);
      PathsCons(nodes, suffixes);
      assert t.log + Lines(nodes, script, qa) == t'.log + Lines(nodes[1..], script, qa);
      assert t.audio + Paths(nodes, suffixes) == t'.audio + Paths(nodes[1..], suffixes[1..]);
    } else {
      assert Lines(nodes, script, qa) == [] && Paths(nodes, suffixes) == [];
    }
  }

  /** The paths a run writes. */
  function AudioPaths(nodes: seq<string>, suffixes: seq<nat>): (ps: set<string>)
    requires |suffixes| == |nodes|
  {
    if nodes == [] then {} else {AudioPath(nodes[0], suffixes[0])} + AudioPaths(nodes[1..], suffixes[1..])
  }

  /** What the step for `agent` hands to the speech service and gets back,
      given the files that exist when it starts. */
  function RenderOf(agent: string, suffix: nat, script: map<string, string>, lang: string, qa: Retrieval,
                    files: set<string>): Rendering
  {
    Rendering(Ssml(Utterance(agent, script, qa), AgentProsody(agent)), VoiceCode(lang),
              AudioPath(agent, suffix), ShouldMix(ContextOf(agent), files))
  }

  /** What the given nodes hand to the speech service, node by node, when
      the files present decide the mixing. */
  function Renders(nodes: seq<string>, suffixes: seq<nat>, script: map<string, string>, lang: string, qa: Retrieval,
                   files: set<string>): (r: seq<Rendering>)
    requires |suffixes| == |nodes|
    ensures |r| == |nodes|
  {
    seq(|nodes|, i requires 0 <= i < |nodes| => RenderOf(nodes[i], suffixes[i], script, lang, qa, files))
  }

  lemma RendersSnoc(nodes: seq<string>, suffixes: seq<nat>, script: map<string, string>, lang: string, qa: Retrieval,
                    files: set<string>, i: nat)
    requires |suffixes| == |nodes| && i < |nodes|
    ensures Renders(nodes[..i + 1], suffixes[..i + 1], script, lang, qa, files) ==
            Renders(nodes[..i], suffixes[..i], script, lang, qa, files) + [RenderOf(nodes[i], suffixes[i], script, lang, qa, files)]
  {
    var a := Renders(nodes[..i + 1], suffixes[..i + 1], script, lang, qa, files);
    var b := Renders(nodes[..i], suffixes[..i], script, lang, qa, files) + [RenderOf(nodes[i], suffixes[i], script, lang, qa, files)];
    forall j | 0 <= j < i + 1
      ensures a[j] == b[j]
    {
      assert nodes[..i + 1][j] == nodes[j] && suffixes[..i + 1][j] == suffixes[j];
      if j < i {
        assert nodes[..i][j] == nodes[j] && suffixes[..i][j] == suffixes[j];
      }
    }
  }

  /** A step's rendering depends on the files only through the ambient beds. */
  lemma RenderOfAmbient(agent: string, suffix: nat, script: map<string, string>, lang: string, qa: Retrieval,
                        files: set<string>, files': set<string>)
    requires SameAmbient(files, files')
    ensures RenderOf(agent, suffix, script, lang, qa, files) == RenderOf(agent, suffix, script, lang, qa, files')
  {
    MixDependsOnAmbientOnly(ContextOf(agent), files, files');
  }

  /** The shared `state` dict of one run: the patient and script it was
      invoked with, and the transcript and audio lists the steps grow. */
  class CaseState {
    const patient: Patient
    const script: map<string, string>
    var log: seq<string>
    var audio: seq<string>

    constructor (patient: Patient, script: map<string, string>)
      ensures this.patient == patient && this.script == script
      ensures log == [] && audio == []
    {
      this.patient := patient;
      this.script := script;
      log := [];
      audio := [];
    }

    function Snapshot(): Trail
      reads this
    {
      Trail(log, audio)
    }

    /** `agent_node(agent).run(state)`: resolves emotion, context and
        utterance, synthesizes the utterance, then appends one transcript line
        and one audio path. */
    method Step(agent: string, suffix: nat, qa: Retrieval, disk: Disk) returns (r: Rendering)
      modifies this, disk
      ensures Snapshot() == StepTrail(old(Snapshot()), agent, suffix, script, qa)
      ensures disk.files == old(disk.files) + {AudioPath(agent, suffix)}
      ensures r == RenderOf(agent, suffix, script, patient.lang, qa, old(disk.files))
    {
      var emotion := EmotionOf(agent);
      var context := ContextOf(agent);
      var msg := Utterance(agent, script, qa);
      r := SynthesizeSpeech(msg, agent, emotion, context, patient.lang, suffix, disk);
      log := log + [Line(agent, msg)];
      audio := audio + [r.path];
    }

    /** Runs the nodes one after the other over this state. */
    method Run(nodes: seq<string>, suffixes: seq<nat>, qa: Retrieval, disk: Disk) returns (renders: seq<Rendering>)
      requires |suffixes| == |nodes|
      modifies this, disk
      ensures Snapshot() == RunTrail(old(Snapshot()), nodes, suffixes, script, qa)
      ensures disk.files == old(disk.files) + AudioPaths(nodes, suffixes)
      ensures renders == Renders(nodes, suffixes, script, patient.lang, qa, old(disk.files))
    {
      renders := [];
      ghost var start := Snapshot();
      ghost var files0 := disk.files;
      for i := 0 to |nodes|
        invariant RunTrail(Snapshot(), nodes[i..], suffixes[i..], script, qa) == RunTrail(start, nodes, suffixes, script, qa)
        invariant disk.files + AudioPaths(nodes[i..], suffixes[i..]) == files0 + AudioPaths(nodes, suffixes)
        invariant SameAmbient(disk.files, files0)
        invariant renders == Renders(nodes[..i], suffixes[..i], script, patient.lang, qa, files0)
      {
        RunStepKeeps(start, Snapshot(), nodes, suffixes, script, patient.lang, qa, i, disk.files, files0);
        RendersSnoc(nodes, suffixes, script, patient.lang, qa, files0, i);
        var r := Step(nodes[i], suffixes[i], qa, disk);
        renders := renders + [r];
      }
      assert nodes[|nodes|..] == [];
      assert suffixes[|nodes|..] == [];
      assert nodes[..|nodes|] == nodes;
      assert suffixes[..|nodes|] == suffixes;
    }
  }

  /** One pass of the loop in `Run` keeps its invariants. */
  lemma RunStepKeeps(start: Trail, t: Trail, nodes: seq<string>, suffixes: seq<nat>, script: map<string, string>,
                     lang: string, qa: Retrieval, i: nat, files: set<string>, files0: set<string>)
    requires |suffixes| == |nodes| && i < |nodes|
    requires RunTrail(t, nodes[i..], suffixes[i..], script, qa) == RunTrail(start, nodes, suffixes, script, qa)
    requires files + AudioPaths(nodes[i..], suffixes[i..]) == files0 + AudioPaths(nodes, suffixes)
    requires SameAmbient(files, files0)
    ensures RunTrail(StepTrail(t, nodes[i], suffixes[i], script, qa), nodes[i + 1..], suffixes[i + 1..], script, qa) ==
            RunTrail(start, nodes, suffixes, script, qa)
    ensures files + {AudioPath(nodes[i], suffixes[i])} + AudioPaths(nodes[i + 1..], suffixes[i + 1..]) ==
            files0 + AudioPaths(nodes, suffixes)
    ensures SameAmbient(files + {AudioPath(nodes[i], suffixes[i])}, files0)
    ensures RenderOf(nodes[i], suffixes[i], script, lang, qa, files) == RenderOf(nodes[i], suffixes[i], script, lang, qa, files0)
  {
    RunTrailUnfold(t, nodes, suffixes, script, qa, i);
    AudioPathsUnfold(nodes, suffixes, i);
    RenderOfAmbient(nodes[i], suffixes[i], script, lang, qa, files, files0);
    AudioWriteKeepsAmbient(files, AudioPath(nodes[i], suffixes[i]));
  }

  lemma RunTrailUnfold(t: Trail, nodes: seq<string>, suffixes: seq<nat>, script: map<string, string>, qa: Retrieval, i: nat)
    requires |suffixes| == |nodes| && i < |nodes|
    ensures RunTrail(t, nodes[i..], suffixes[i..], script, qa) ==
            RunTrail(StepTrail(t, nodes[i], suffixes[i], script, qa), nodes[i + 1..], suffixes[i + 1..], script, qa)
  {
    assert nodes[i..][1..] == nodes[i + 1..];
    assert suffixes[i..][1..] == suffixes[i + 1..];
  }

  lemma AudioPathsUnfold(nodes: seq<string>, suffixes: seq<nat>, i: nat)
    requires |suffixes| == |nodes| && i < |nodes|
    ensures AudioPaths(nodes[i..], suffixes[i..]) == {AudioPath(nodes[i], suffixes[i])} + AudioPaths(nodes[i + 1..], suffixes[i + 1..])
  {
    assert nodes[i..][1..] == nodes[i + 1..];
    assert suffixes[i..][1..] == suffixes[i + 1..];
  }

  /** Every path a run appends is among the paths it writes. */
  lemma {:induction false} AudioPathsHas(nodes: seq<string>, suffixes: seq<nat>, i: nat)
    requires |suffixes| == |nodes| && i < |nodes|
    decreases nodes
    ensures AudioPath(nodes[i], suffixes[i]) in AudioPaths(nodes, suffixes)
  {
    if i > 0 {
      AudioPathsHas(nodes[1..], suffixes[1..], i - 1);
      assert nodes[1..][i - 1] == nodes[i];
      assert suffixes[1..][i - 1] == suffixes[i];
    }
  }

  /** Every path a run writes lies under `tts_audio/`. */
  lemma {:induction false} AudioPathsInAudioDir(nodes: seq<string>, suffixes: seq<nat>)
    requires |suffixes| == |nodes|
    decreases nodes
    ensures forall p :: p in AudioPaths(nodes, suffixes) ==> InAudioDir(p)
  {
    if nodes != [] {
      AudioPathsInAudioDir(nodes[1..], suffixes[1..]);
    }
  }

  /** A run from an empty state: one transcript line and one audio path per
      node, the i-th of each belonging to the i-th node. */
  lemma RunFromEmpty(nodes: seq<string>, suffixes: seq<nat>, script: map<string, string>, qa: Retrieval)
    requires |suffixes| == |nodes|
    ensures var r := RunTrail(Trail([], []), nodes, suffixes, script, qa);
            |r.log| == |nodes| && |r.audio| == |nodes| &&
            (forall i :: 0 <= i < |nodes| ==> r.log[i] == Line(nodes[i], Utterance(nodes[i], script, qa))) &&
            (forall i :: 0 <= i < |nodes| ==> r.audio[i] == AudioPath(nodes[i], suffixes[i]))
  {
    RunTrailShape(Trail([], []), nodes, suffixes, script, qa);
    assert [] + Lines(nodes, script, qa) == Lines(nodes, script, qa);
    assert [] + Paths(nodes, suffixes) == Paths(nodes, suffixes);
  }

  /** The run of the fixed chain from an empty state: ten transcript lines
      and ten audio paths, the i-th of each belonging to the i-th node. */
  lemma ChainRun(script: map<string, string>, suffixes: seq<nat>, qa: Retrieval)
    requires |suffixes| == |Nodes|
    ensures var r := RunTrail(Trail([], []), Nodes, suffixes, script, qa);
            |r.log| == 10 && |r.audio| == 10 &&
            (forall i :: 0 <= i < 10 ==> r.log[i] == Line(Nodes[i], Utterance(Nodes[i], script, qa))) &&
            (forall i :: 0 <= i < 10 ==> r.audio[i] == AudioPath(Nodes[i], suffixes[i]))
  {
    RunFromEmpty(Nodes, suffixes, script, qa);
  }
}
