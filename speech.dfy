/** The decisions `synthesize_speech` and `agent_node` make before and
    after calling the speech service: emotion, prosody, SSML, voice, output
    path and whether the ambient bed is mixed in. The synthesized bytes are
    opaque; only the file they are written to is modelled. */
module Speech {
  import opened Text
  import opened Storage

  /** `d.get(k, default)` for a string-to-string dictionary. */
  function Get(d: map<string, string>, k: string, default: string): (r: string)
    ensures k in d ==> r == d[k]
    ensures k !in d ==> r == default
  {
    if k in d then d[k] else default
  }

  /** `agent_emotions`. */
  const AgentEmotions: map<string, string> := map[
    "ClientAgent" := "stress",
    "ClientInteractionAgent" := "calm",
    "TriageMedicalAssessmentAgent" := "urgent",
    "ProviderNetworkAgent" := "neutral",
    "PolicyValidationAgent" := "neutral",
    "MedicalDocumentationAgent" := "calm",
    "RepatriationPlannerAgent" := "calm",
    "MedicalDecisionAgent" := "calm",
    "ComplianceConsentAgent" := "neutral",
    "OrchestratorAgent" := "calm"
  ]

  /** `agent_emotions.get(agent_name, "neutral")`: always one of the four
      emotion tags, and "neutral" for an agent the table does not know. */
  function EmotionOf(agent: string): (e: string)
    ensures e in {"calm", "stress", "urgent", "neutral"}
    ensures agent !in AgentEmotions ==> e == "neutral"
  {
    Get(AgentEmotions, agent, "neutral")
  }

  const PitchTable: map<string, string> := map["calm" := "+2st", "stress" := "-2st", "urgent" := "+0st"]
  const RateTable: map<string, string> := map["calm" := "medium", "stress" := "slow", "urgent" := "fast"]

  datatype Prosody = Prosody(rate: string, pitch: string)

  /** The rate and pitch `synthesize_speech` derives from an emotion. */
  function ProsodyFor(emotion: string): Prosody
  {
    Prosody(Get(RateTable, emotion, "medium"), Get(PitchTable, emotion, "+0st"))
  }

  /** The prosody table row by row; every other emotion, "neutral" among
      them, gets the default (medium, +0st). */
  lemma ProsodyTableRows(emotion: string)
    ensures emotion == "calm" ==> ProsodyFor(emotion) == Prosody("medium", "+2st")
    ensures emotion == "stress" ==> ProsodyFor(emotion) == Prosody("slow", "-2st")
    ensures emotion == "urgent" ==> ProsodyFor(emotion) == Prosody("fast", "+0st")
    ensures emotion !in {"calm", "stress", "urgent"} ==> ProsodyFor(emotion) == Prosody("medium", "+0st")
  {
  }

  /** The prosody an agent speaks with. */
  function AgentProsody(agent: string): Prosody
  {
    ProsodyFor(EmotionOf(agent))
  }

  /** Every agent gets one of the four profiles, and an agent missing from
      `agent_emotions` gets the neutral one. */
  lemma AgentProsodyTotal(agent: string)
    ensures AgentProsody(agent) in {Prosody("medium", "+2st"), Prosody("slow", "-2st"),
                                    Prosody("fast", "+0st"), Prosody("medium", "+0st")}
    ensures agent !in AgentEmotions ==> AgentProsody(agent) == Prosody("medium", "+0st")
  {
    ProsodyTableRows(EmotionOf(agent));
  }

  function SsmlOpen(p: Prosody): string
  {
    "<speak><prosody rate='" + p.rate + "' pitch='" + p.pitch + "'>"
  }

  const SsmlClose := "</prosody></speak>"

  /** The SSML payload: the text wrapped in one prosody element. */
  function Ssml(text: string, p: Prosody): string
  {
    SsmlOpen(p) + text + SsmlClose
  }

  /** The SSML wrapper keeps the text intact between the opening and the
      closing tags, so the text can be read back out of the payload. */
  lemma SsmlCarriesText(text: string, p: Prosody)
    ensures var r := Ssml(text, p);
            |r| == |SsmlOpen(p)| + |text| + |SsmlClose| &&
            r[..|SsmlOpen(p)|] == SsmlOpen(p) &&
            r[|SsmlOpen(p)|..|r| - |SsmlClose|] == text &&
            r[|r| - |SsmlClose|..] == SsmlClose
  {
    var r := Ssml(text, p);
    assert r == SsmlOpen(p) + (text + SsmlClose);
  }

  const FrenchVoice := "fr-FR-Wavenet-A"
  const EnglishVoice := "en-GB-Wavenet-A"

  /** The voice: French for "fr", the English one for every other code. */
  function VoiceCode(lang: string): (v: string)
    ensures v == FrenchVoice <==> lang == "fr"
    ensures v == FrenchVoice || v == EnglishVoice
  {
    if lang == "fr" then FrenchVoice else EnglishVoice
  }

  /** `ambient_map`: the context tags that have an ambient bed, and its file. */
  const AmbientMap: map<string, string> := map["hospital" := "ambient_hospital.mp3", "airport" := "ambient_airport.mp3"]

  /** The ambient context of an agent, derived from its name: "Hospital"
      is tested first, then "Repatriation". */
  function ContextOf(agent: string): string
  {
    if Contains(agent, "Hospital") then "hospital"
    else if Contains(agent, "Repatriation") then "airport"
    else "none"
  }

  /** The three possible contexts, and the order of the two tests. */
  lemma ContextCases(agent: string)
    ensures ContextOf(agent) in {"hospital", "airport", "none"}
    ensures ContextOf(agent) == "hospital" <==> Contains(agent, "Hospital")
    ensures ContextOf(agent) == "airport" <==> !Contains(agent, "Hospital") && Contains(agent, "Repatriation")
    ensures ContextOf(agent) == "none" <==> !Contains(agent, "Hospital") && !Contains(agent, "Repatriation")
  {
  }

  /** The mixing test `ambient_file and Path(ambient_file).exists()`, with
      the filesystem given as the set of existing paths. */
  function ShouldMix(context: string, files: set<string>): bool
  {
    context in AmbientMap && AmbientMap[context] in files
  }

  /** Mixing happens only for the two contexts with an ambient bed, and then
      exactly when that bed's file exists; "none" never mixes. */
  lemma MixingRule(context: string, files: set<string>)
    ensures ShouldMix(context, files) ==> context == "hospital" || context == "airport"
    ensures context == "hospital" ==> (ShouldMix(context, files) <==> "ambient_hospital.mp3" in files)
    ensures context == "airport" ==> (ShouldMix(context, files) <==> "ambient_airport.mp3" in files)
    ensures !ShouldMix("none", files)
  {
  }

  /** Two filesystem states agree on which ambient beds exist. */
  predicate SameAmbient(files: set<string>, files': set<string>)
  {
    ("ambient_hospital.mp3" in files <==> "ambient_hospital.mp3" in files') &&
    ("ambient_airport.mp3" in files <==> "ambient_airport.mp3" in files')
  }

  /** The mixing decision depends on nothing but which ambient beds exist. */
  lemma MixDependsOnAmbientOnly(context: string, files: set<string>, files': set<string>)
    requires SameAmbient(files, files')
    ensures ShouldMix(context, files) == ShouldMix(context, files')
  {
  }

  /** The ambient beds live outside `tts_audio/`, so writing a file there
      never changes which beds exist. */
  lemma AudioWriteKeepsAmbient(files: set<string>, p: string)
    requires InAudioDir(p)
    ensures SameAmbient(files + {p}, files)
  {
    assert p[0] == 't' by {
      assert p[..|AudioDir| + 1] == AudioDir + "/";
    }
    assert "ambient_hospital.mp3"[0] == 'a';
    assert "ambient_airport.mp3"[0] == 'a';
  }

  /** The base name of a step's audio file, `<agent>_<suffix>.mp3`. */
  function AudioName(agent: string, suffix: nat): string
  {
    agent + "_" + DecimalString(suffix) + ".mp3"
  }

  /** `audio_dir / f"{agent}_{random.randint(1000, 9999)}.mp3"`. */
  function AudioPath(agent: string, suffix: nat): (p: string)
    ensures InAudioDir(p) && IsSuffix(".mp3", p)
  {
    var p := AudioDir + "/" + AudioName(agent, suffix);
    assert p[..|AudioDir| + 1] == AudioDir + "/";
    assert p[|p| - 4..] == ".mp3";
    p
  }

  /** With a four-digit suffix the base name determines both the agent and
      the suffix: two steps write the same file only when they are the same
      agent and drew the same number. */
  lemma {:induction false} AudioNameInjective(a1: string, s1: nat, a2: string, s2: nat)
    requires 1000 <= s1 <= 9999 && 1000 <= s2 <= 9999
    requires AudioName(a1, s1) == AudioName(a2, s2)
    ensures a1 == a2 && s1 == s2
  {
    FourDigits(s1);
    FourDigits(s2);
    var n := AudioName(a1, s1);
    assert |a1| == |a2|;
    assert n[..|a1|] == a1;
    assert n[..|a2|] == a2;
    assert n[|a1| + 1..|a1| + 5] == DecimalString(s1);
    assert AudioName(a2, s2)[|a2| + 1..|a2| + 5] == DecimalString(s2);
    DecimalRoundTrip(s1);
    DecimalRoundTrip(s2);
  }

  lemma AudioPathInjective(a1: string, s1: nat, a2: string, s2: nat)
    requires 1000 <= s1 <= 9999 && 1000 <= s2 <= 9999
    requires AudioPath(a1, s1) == AudioPath(a2, s2)
    ensures a1 == a2 && s1 == s2
  {
    var k := |AudioDir| + 1;
    assert AudioPath(a1, s1)[k..] == AudioName(a1, s1);
    assert AudioPath(a2, s2)[k..] == AudioName(a2, s2);
    AudioNameInjective(a1, s1, a2, s2);
  }

  /** For an agent name without '/', the zip member name of a step's audio
      is its `<agent>_<suffix>.mp3` base name. */
  lemma AudioPathBasename(agent: string, suffix: nat)
    requires '/' !in agent
    ensures Basename(AudioPath(agent, suffix)) == AudioName(agent, suffix)
  {
    var d := DecimalString(suffix);
    var n := AudioName(agent, suffix);
    forall i | 0 <= i < |n|
      ensures n[i] != '/'
    {
      if i < |agent| {
        assert n[i] == agent[i];
      } else if i > |agent| && i < |agent| + 1 + |d| {
        assert n[i] == d[i - |agent| - 1];
      }
    }
    BasenameOfJoin(AudioDir, n);
  }

  /** What one call of `synthesize_speech` decides and produces. */
  datatype Rendering = Rendering(ssml: string, voice: string, path: string, mixed: bool)

  /** `synthesize_speech(text, agent, emotion, context, lang)`: writes the
      synthesized audio to a fresh path built from the agent and the random
      suffix, then mixes in the ambient bed when the context has one and its
      file exists (the mix overwrites the same path). Returns the path. */
  method SynthesizeSpeech(text: string, agent: string, emotion: string, context: string, lang: string,
                          suffix: nat, disk: Disk) returns (r: Rendering)
    modifies disk
    ensures disk.files == old(disk.files) + {AudioPath(agent, suffix)}
    ensures r.ssml == Ssml(text, ProsodyFor(emotion))
    ensures r.voice == VoiceCode(lang)
    ensures r.path == AudioPath(agent, suffix)
    ensures r.mixed == ShouldMix(context, old(disk.files))
  {
    var prosody := ProsodyFor(emotion);
    var ssml := Ssml(text, prosody);
    var voice := VoiceCode(lang);
    var path := AudioPath(agent, suffix);
    disk.Write(path);
    AudioWriteKeepsAmbient(old(disk.files), path);
    var mixed := ShouldMix(context, disk.files);
    r := Rendering(ssml, voice, path, mixed);
  }
}
