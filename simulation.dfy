/** `run_simulation_ui`: the patient guard, the clean-up, one run of the
    chain, the PDF and combined-audio outputs, and the zip bundle. */
module Simulation {
  import opened Options
  import opened Text
  import opened Patients
  import opened Storage
  import opened Speech
  import opened Workflow
  import opened Pdf

  const LogFile := "case_log.txt"
  const ZipOutput := "case_export.zip"
  const NotFoundMessage := "\U{274C} Patient not found."

  /** `audio_dir / f"{patient_name}_conversation.pdf"`, built from the name as typed. */
  function PdfPath(name: string): string
  {
    AudioDir + "/" + name + "_conversation.pdf"
  }

  /** `audio_dir / f"{patient_name}_full_convo.mp3"`. */
  function FullAudioPath(name: string): string
  {
    AudioDir + "/" + name + "_full_convo.mp3"
  }

  /** What `run_simulation_ui` hands back to the UI, or the exception that
      escapes it when `zipf.write` is given a path that does not exist. */
  datatype Outcome =
    | Returned(text: string, zipFile: Option<string>, fullAudio: Option<string>)
    | FileNotFound(path: string)

  // ---------------------------------------------------------------------
  // The zip bundle
  // ---------------------------------------------------------------------

  /** One `zipf.write(path, arcname=...)`. */
  datatype Member = Member(path: string, arcname: string)

  /** A file stored under its base name, which is what every `zipf.write`
      call of the bundle does. */
  function MemberOf(path: string): Member
  {
    Member(path, Basename(path))
  }

  /** The bundle in writing order: every step's audio, then the log file,
      the PDF and the combined track. */
  function BundleMembers(audio: seq<string>, name: string): (ms: seq<Member>)
    ensures |ms| == |audio| + 3
    ensures forall i :: 0 <= i < |audio| ==> ms[i].path == audio[i]
    ensures ms[|audio|].path == LogFile && ms[|audio| + 1].path == PdfPath(name) && ms[|audio| + 2].path == FullAudioPath(name)
  {
    seq(|audio|, i requires 0 <= i < |audio| => MemberOf(audio[i])) +
    [MemberOf(LogFile), MemberOf(PdfPath(name)), MemberOf(FullAudioPath(name))]
  }

  function Arcnames(ms: seq<Member>): (r: seq<string>)
    ensures |r| == |ms| && forall i :: 0 <= i < |ms| ==> r[i] == ms[i].arcname
  {
    seq(|ms|, i requires 0 <= i < |ms| => ms[i].arcname)
  }

  /** The first member, in writing order, whose file does not exist: the
      path `zipf.write` raises on. */
  function FirstMissing(ms: seq<Member>, files: set<string>): (r: Option<string>)
    ensures r.None? <==> forall k :: 0 <= k < |ms| ==> ms[k].path in files
    ensures r.Some? ==>
              r.value !in files &&
              exists k :: 0 <= k < |ms| && ms[k].path == r.value && forall j :: 0 <= j < k ==> ms[j].path in files
  {
    if ms == [] then None
    else if ms[0].path !in files then Some(ms[0].path)
    else
      var r := FirstMissing(ms[1..], files);
      if r.Some? then
        var k :| 0 <= k < |ms| - 1 && ms[1..][k].path == r.value && forall j :: 0 <= j < k ==> ms[1..][j].path in files;
        assert ms[k + 1].path == r.value;
        assert forall j :: 0 <= j < k + 1 ==> ms[j].path in files by {
          forall j | 0 < j < k + 1 ensures ms[j].path in files {
            assert ms[1..][j - 1] == ms[j];
          }
        }
        r
      else
        assert forall k :: 0 <= k < |ms| ==> ms[k].path in files by {
          forall k | 0 < k < |ms| ensures ms[k].path in files {
            assert ms[1..][k - 1] == ms[k];
          }
        }
        r
  }

  /** Members before the first missing one are found regardless of what follows. */
  lemma {:induction false} FirstMissingAppend(a: seq<Member>, b: seq<Member>, files: set<string>)
    ensures FirstMissing(a + b, files) == if FirstMissing(a, files).Some? then FirstMissing(a, files) else FirstMissing(b, files)
  {
    if a != [] {
      assert (a + b)[0] == a[0];
      assert (a + b)[1..] == a[1..] + b;
      FirstMissingAppend(a[1..], b, files);
    } else {
      assert a + b == b;
    }
  }

  /** When every step's audio exists, the bundle fails exactly on the first
      of the log, the PDF and the combined track that is missing. */
  lemma BundleFailure(audio: seq<string>, name: string, files: set<string>)
    requires forall k :: 0 <= k < |audio| ==> audio[k] in files
    ensures FirstMissing(BundleMembers(audio, name), files) ==
            if LogFile !in files then Some(LogFile)
            else if PdfPath(name) !in files then Some(PdfPath(name))
            else if FullAudioPath(name) !in files then Some(FullAudioPath(name))
            else None
  {
    var ms := BundleMembers(audio, name);
    var front := seq(|audio|, i requires 0 <= i < |audio| => MemberOf(audio[i]));
    var back := [MemberOf(LogFile), MemberOf(PdfPath(name)), MemberOf(FullAudioPath(name))];
    assert ms == front + back;
    FirstMissingAppend(front, back, files);
    assert FirstMissing(front, files) == None;
    assert back[1..][1..] == [MemberOf(FullAudioPath(name))];
  }

  /** `with zip_output.open("wb") ... zipf.write(...)`: the archive is created
      first, then the members are stored one by one until one is missing. */
  method WriteBundle(ms: seq<Member>, disk: Disk) returns (entries: seq<string>, missing: Option<string>)
    modifies disk
    ensures disk.files == old(disk.files) + {ZipOutput}
    ensures missing == FirstMissing(ms, disk.files)
    ensures |entries| <= |ms| && entries == Arcnames(ms[..|entries|])
    ensures forall j :: 0 <= j < |entries| ==> ms[j].path in disk.files
    ensures missing.Some? ==> |entries| < |ms| && ms[|entries|].path == missing.value
    ensures missing.None? ==> entries == Arcnames(ms)
  {
    disk.Write(ZipOutput);
    entries := [];
    var i := 0;
    while i < |ms| && ms[i].path in disk.files
      invariant 0 <= i <= |ms|
      invariant FirstMissing(ms[i..], disk.files) == FirstMissing(ms, disk.files)
      invariant entries == Arcnames(ms[..i])
      invariant forall j :: 0 <= j < i ==> ms[j].path in disk.files
    {
      assert ms[i..][1..] == ms[i + 1..];
      entries := entries + [ms[i].arcname];
      i := i + 1;
    }
    if i < |ms| {
      missing := Some(ms[i].path);
    } else {
      assert ms[..i] == ms;
      missing := None;
    }
  }

  lemma BundleLiterals()
    ensures '/' !in LogFile && '/' !in "_conversation.pdf" && '/' !in "_full_convo.mp3"
  {
  }

  /** The archive name of each step's audio is its `<agent>_<suffix>.mp3` name. */
  lemma AudioArcnames(name: string, agents: seq<string>, suffixes: seq<nat>, audio: seq<string>)
    requires |agents| == |suffixes| == |audio|
    requires forall i :: 0 <= i < |agents| ==> '/' !in agents[i] && audio[i] == AudioPath(agents[i], suffixes[i])
    ensures forall i :: 0 <= i < |audio| ==> Arcnames(BundleMembers(audio, name))[i] == AudioName(agents[i], suffixes[i])
  {
    var ms := BundleMembers(audio, name);
    forall i | 0 <= i < |audio|
      ensures ms[i].arcname == AudioName(agents[i], suffixes[i])
    {
      AudioPathBasename(agents[i], suffixes[i]);
    }
  }

  lemma PdfArcname(name: string)
    requires '/' !in name
    ensures Basename(PdfPath(name)) == name + "_conversation.pdf"
  {
    BundleLiterals();
    NoSlashJoin(name, "_conversation.pdf");
    BasenameOfJoin(AudioDir, name + "_conversation.pdf");
    assert PdfPath(name) == AudioDir + "/" + (name + "_conversation.pdf");
  }

  lemma FullAudioArcname(name: string)
    requires '/' !in name
    ensures Basename(FullAudioPath(name)) == name + "_full_convo.mp3"
  {
    BundleLiterals();
    NoSlashJoin(name, "_full_convo.mp3");
    BasenameOfJoin(AudioDir, name + "_full_convo.mp3");
    assert FullAudioPath(name) == AudioDir + "/" + (name + "_full_convo.mp3");
  }

  /** The names in the archive, for a name and agents without '/': each
      step's `<agent>_<suffix>.mp3` name in step order, then `case_log.txt`,
      the PDF's and the combined track's base names. */
  lemma BundleArcnames(name: string, agents: seq<string>, suffixes: seq<nat>, audio: seq<string>)
    requires '/' !in name
    requires |agents| == |suffixes| == |audio|
    requires forall i :: 0 <= i < |agents| ==> '/' !in agents[i] && audio[i] == AudioPath(agents[i], suffixes[i])
    ensures var names := Arcnames(BundleMembers(audio, name));
            (forall i :: 0 <= i < |audio| ==> names[i] == AudioName(agents[i], suffixes[i])) &&
            names[|audio|] == LogFile && names[|audio| + 1] == name + "_conversation.pdf" &&
            names[|audio| + 2] == name + "_full_convo.mp3"
  {
    AudioArcnames(name, agents, suffixes, audio);
    BundleLiterals();
    BasenameOfPlain(LogFile);
    PdfArcname(name);
    FullAudioArcname(name);
  }

  /** For different agents and four-digit suffixes the archive names are
      pairwise different: different agents give different audio names, and
      those end in a digit and ".mp3", unlike the other three. */
  lemma BundleArcnamesDistinct(name: string, agents: seq<string>, suffixes: seq<nat>, audio: seq<string>)
    requires '/' !in name
    requires |agents| == |suffixes| == |audio| && Distinct(agents)
    requires forall i :: 0 <= i < |agents| ==>
               '/' !in agents[i] && 1000 <= suffixes[i] <= 9999 && audio[i] == AudioPath(agents[i], suffixes[i])
    ensures Distinct(Arcnames(BundleMembers(audio, name)))
  {
    BundleArcnames(name, agents, suffixes, audio);
    NamesDistinct(Arcnames(BundleMembers(audio, name)), name, agents, suffixes);
  }

  lemma NamesDistinct(names: seq<string>, name: string, agents: seq<string>, suffixes: seq<nat>)
    requires |agents| == |suffixes| && Distinct(agents) && |names| == |agents| + 3
    requires forall i :: 0 <= i < |agents| ==> 1000 <= suffixes[i] <= 9999 && names[i] == AudioName(agents[i], suffixes[i])
    requires names[|agents|] == LogFile && names[|agents| + 1] == name + "_conversation.pdf" &&
             names[|agents| + 2] == name + "_full_convo.mp3"
    ensures Distinct(names)
  {
    var n := |agents|;
    OtherNamesEnd(name);
    forall i, j | 0 <= i < j < n + 3
      ensures names[i] != names[j]
    {
      if j < n {
        if names[i] == names[j] {
          AudioNameInjective(agents[i], suffixes[i], agents[j], suffixes[j]);
        }
      } else if i < n {
        AudioNameEnds(agents[i], suffixes[i]);
      }
    }
  }

  /** The chain's archive: thirteen pairwise different names. */
  lemma ChainBundleDistinct(name: string, suffixes: seq<nat>, audio: seq<string>)
    requires '/' !in name
    requires |suffixes| == |Nodes| && forall i :: 0 <= i < |suffixes| ==> 1000 <= suffixes[i] <= 9999
    requires |audio| == |Nodes| && forall i :: 0 <= i < |audio| ==> audio[i] == AudioPath(Nodes[i], suffixes[i])
    ensures |Arcnames(BundleMembers(audio, name))| == 13 && Distinct(Arcnames(BundleMembers(audio, name)))
  {
    NodesDistinct();
    forall i | 0 <= i < |Nodes|
      ensures '/' !in Nodes[i]
    {
      NodeCapitals(i);
    }
    BundleArcnamesDistinct(name, Nodes, suffixes, audio);
  }

  /** How the three non-audio names end. */
  lemma OtherNamesEnd(name: string)
    ensures var l := LogFile; var p := name + "_conversation.pdf"; var f := name + "_full_convo.mp3";
            l[|l| - 1] == 't' && p[|p| - 1] == 'f' && f[|f| - 1] == '3' && f[|f| - 5] == 'o'
  {
  }

  lemma NoSlashJoin(a: string, b: string)
    requires '/' !in a && '/' !in b
    ensures '/' !in a + b
  {
    forall k | 0 <= k < |a + b| ensures (a + b)[k] != '/' {
      if k >= |a| {
        assert (a + b)[k] == b[k - |a|];
      }
    }
  }

  /** A step's audio name ends in a digit followed by ".mp3", which tells it
      apart from the log, the PDF and the combined track. */
  lemma AudioNameEnds(agent: string, suffix: nat)
    ensures var n := AudioName(agent, suffix);
            |n| >= 5 && IsDigit(n[|n| - 5]) && n[|n| - 1] == '3'
  {
    var d := DecimalString(suffix);
    var n := AudioName(agent, suffix);
    assert n == (agent + "_" + d) + ".mp3";
    assert n[|n| - 5] == d[|d| - 1];
  }

  // ---------------------------------------------------------------------
  // The run
  // ---------------------------------------------------------------------

  /** What survives the clean-up: `case_log.txt` and the top-level mp3 files
      of `tts_audio` are gone. */
  function Cleared(init: set<string>): set<string>
  {
    set f | f in init && f != LogFile && !IsAudioMp3(f)
  }

  /** The files that exist when the bundle is written: what survived the
      clean-up, the step audio, the PDF and the combined track. */
  function FilesBeforeBundle(init: set<string>, name: string, written: set<string>): set<string>
  {
    Cleared(init) + written + {PdfPath(name)} + {FullAudioPath(name)}
  }

  /** The clean-up leaves the ambient beds alone, so the mixing decisions of
      a run are those the files present before it dictate. */
  lemma ClearedKeepsAmbient(init: set<string>, context: string)
    ensures SameAmbient(Cleared(init), init)
    ensures ShouldMix(context, Cleared(init)) == ShouldMix(context, init)
  {
    assert !IsAudioMp3("ambient_hospital.mp3") by {
      assert "ambient_hospital.mp3"[0] != (AudioDir + "/")[0];
    }
    assert !IsAudioMp3("ambient_airport.mp3") by {
      assert "ambient_airport.mp3"[0] != (AudioDir + "/")[0];
    }
    MixDependsOnAmbientOnly(context, Cleared(init), init);
  }

  /** What one invocation of the chain over `script` leaves in the state:
      the fixed node order from an empty transcript and audio list, one
      random suffix per node. */
  function CaseTrail(script: map<string, string>, suffixes: seq<nat>, qa: Retrieval): Trail
    requires |suffixes| == 10
  {
    RunTrail(Trail([], []), Nodes, suffixes, script, qa)
  }

  /** The audio files that invocation writes. */
  function CasePaths(suffixes: seq<nat>): (r: set<string>)
    requires |suffixes| == 10
    ensures forall f :: f in r ==> InAudioDir(f)
  {
    AudioPathsInAudioDir(Nodes, suffixes);
    AudioPaths(Nodes, suffixes)
  }

  /** What the invocation's ten steps hand to the speech service, node by
      node, given the files present when the invocation starts. */
  function CaseRenders(script: map<string, string>, suffixes: seq<nat>, lang: string, qa: Retrieval,
                       files: set<string>): (r: seq<Rendering>)
    requires |suffixes| == 10
    ensures |r| == 10
  {
    Renders(Nodes, suffixes, script, lang, qa, files)
  }

  /** The invocation's transcript has a line per node and its audio list a
      path per node, each among the files the invocation writes. */
  lemma CaseTrailShape(script: map<string, string>, suffixes: seq<nat>, qa: Retrieval)
    requires |suffixes| == 10
    ensures var t := CaseTrail(script, suffixes, qa);
            |t.log| == 10 && |t.audio| == 10 &&
            (forall k :: 0 <= k < 10 ==> t.log[k] == Line(Nodes[k], Utterance(Nodes[k], script, qa))) &&
            (forall k :: 0 <= k < 10 ==> t.audio[k] == AudioPath(Nodes[k], suffixes[k]) && t.audio[k] in CasePaths(suffixes))
  {
    ChainRun(script, suffixes, qa);
    forall k | 0 <= k < 10
      ensures AudioPath(Nodes[k], suffixes[k]) in CasePaths(suffixes)
    {
      AudioPathsHas(Nodes, suffixes, k);
    }
  }

  /** Every path in the invocation's audio list is among the files it writes. */
  lemma CaseAudioWritten(script: map<string, string>, suffixes: seq<nat>, qa: Retrieval)
    requires |suffixes| == 10
    ensures forall k :: 0 <= k < |CaseTrail(script, suffixes, qa).audio| ==> CaseTrail(script, suffixes, qa).audio[k] in CasePaths(suffixes)
  {
    CaseTrailShape(script, suffixes, qa);
  }

  /** `log_file.unlink()` when it exists, then every top-level mp3 of
      `tts_audio` is unlinked. */
  method CleanUp(disk: Disk)
    modifies disk
    ensures disk.files == Cleared(old(disk.files))
  {
    disk.UnlinkIfExists(LogFile);
    disk.UnlinkAudio();
  }

  /** `build_workflow().invoke(...)` on the patient and a script, from an
      empty transcript and audio list. */
  method InvokeChain(p: Patient, script: map<string, string>, suffixes: seq<nat>, qa: Retrieval, disk: Disk)
    returns (log: seq<string>, audio: seq<string>, renders: seq<Rendering>)
    requires |suffixes| == 10
    modifies disk
    ensures Trail(log, audio) == CaseTrail(script, suffixes, qa)
    ensures renders == CaseRenders(script, suffixes, p.lang, qa, old(disk.files))
    ensures disk.files == old(disk.files) + CasePaths(suffixes)
  {
    var g := BuildWorkflow();
    ScheduleIsNodeOrder(g);
    var state := new CaseState(p, script);
    renders := state.Run(Schedule(g), suffixes, qa, disk);
    log := state.log;
    audio := state.audio;
  }

  /** Lines 155-176 on the patient and the script built from it: clean up,
      run the chain, lay out and write the PDF, then write the combined
      track. The steps decide on mixing from the files left by the clean-up
      (which `ClearedKeepsAmbient` shows are those present before it, as far
      as the ambient beds go). */
  method RunCase(p: Patient, script: map<string, string>, name: string, suffixes: seq<nat>, qa: Retrieval, disk: Disk)
    returns (log: seq<string>, audio: seq<string>, renders: seq<Rendering>, pages: seq<Page>)
    requires |suffixes| == 10
    modifies disk
    ensures Trail(log, audio) == CaseTrail(script, suffixes, qa)
    ensures renders == CaseRenders(script, suffixes, p.lang, qa, Cleared(old(disk.files)))
    ensures pages == Layout(log)
    ensures disk.files == FilesBeforeBundle(old(disk.files), name, CasePaths(suffixes))
  {
    CleanUp(disk);
    log, audio, renders := InvokeChain(p, script, suffixes, qa, disk);
    pages := GeneratePdf(log);
    disk.Write(PdfPath(name));
    disk.Write(FullAudioPath(name));
  }

  /** Lines 155-186 as written, for a patient the directory knows: the zip
      step raises on `case_log.txt`, deleted at the start and never written
      again. */
  method ExportAsWritten(p: Patient, script: map<string, string>, name: string, suffixes: seq<nat>, qa: Retrieval, disk: Disk)
    returns (out: Outcome, stored: seq<string>)
    requires |suffixes| == 10
    modifies disk
    ensures out == FileNotFound(LogFile)
    ensures stored == Arcnames(BundleMembers(CaseTrail(script, suffixes, qa).audio, name)[..|CaseTrail(script, suffixes, qa).audio|])
    ensures disk.files == FilesBeforeBundle(old(disk.files), name, CasePaths(suffixes)) + {ZipOutput}
  {
    ghost var init := disk.files;
    var log, audio, renders, pages := RunCase(p, script, name, suffixes, qa, disk);
    CaseAudioWritten(script, suffixes, qa);
    var ms := BundleMembers(audio, name);
    var entries, missing := WriteBundle(ms, disk);
    ExportAsWrittenFails(init, name, suffixes, audio);
    ExportAsWrittenStoresAudio(init, name, suffixes, audio, entries);
    stored := entries;
    out := FileNotFound(missing.value);
  }

  /** Lines 155-186 with the transcript saved to `case_log.txt` before the
      bundle is written: every member then exists, all thirteen are stored,
      and the UI gets the joined transcript, the archive and the combined
      track. */
  method Export(p: Patient, script: map<string, string>, name: string, suffixes: seq<nat>, qa: Retrieval, disk: Disk)
    returns (out: Outcome, stored: seq<string>)
    requires |suffixes| == 10
    modifies disk
    ensures stored == Arcnames(BundleMembers(CaseTrail(script, suffixes, qa).audio, name))
    ensures out == Returned(JoinLines(CaseTrail(script, suffixes, qa).log), Some(ZipOutput), Some(FullAudioPath(name)))
    ensures disk.files == FilesBeforeBundle(old(disk.files), name, CasePaths(suffixes)) + {LogFile} + {ZipOutput}
  {
    ghost var init := disk.files;
    var log, audio, renders, pages := RunCase(p, script, name, suffixes, qa, disk);
    disk.Write(LogFile);
    CaseAudioWritten(script, suffixes, qa);
    var entries, missing := WriteBundle(BundleMembers(audio, name), disk);
    ExportCorrectedSucceeds(init, name, suffixes, audio);
    stored := entries;
    out := Returned(JoinLines(log), Some(ZipOutput), Some(FullAudioPath(name)));
  }

  /** `run_simulation_ui` as written: a name the directory does not know is
      refused before anything is touched; for every other name the zip step
      raises. */
  method RunSimulationUiAsWritten(name: string, suffixes: seq<nat>, qa: Retrieval, disk: Disk)
    returns (out: Outcome, stored: seq<string>)
    requires |suffixes| == 10
    modifies disk
    ensures GetPatientByName(name).None? ==>
              out == Returned(NotFoundMessage, None, None) && stored == [] && disk.files == old(disk.files)
    ensures GetPatientByName(name).Some? ==>
              out == FileNotFound(LogFile) &&
              stored == Arcnames(BundleMembers(CaseTrail(Script(GetPatientByName(name).value), suffixes, qa).audio, name)
                                   [..|CaseTrail(Script(GetPatientByName(name).value), suffixes, qa).audio|]) &&
              disk.files == FilesBeforeBundle(old(disk.files), name, CasePaths(suffixes)) + {ZipOutput}
  {
    var patient := GetPatientByName(name);
    if patient.None? {
      return Returned(NotFoundMessage, None, None), [];
    }
    out, stored := ExportAsWritten(patient.value, Script(patient.value), name, suffixes, qa, disk);
  }

  /** `run_simulation_ui` with the log written before the bundle. */
  method RunSimulationUi(name: string, suffixes: seq<nat>, qa: Retrieval, disk: Disk)
    returns (out: Outcome, stored: seq<string>)
    requires |suffixes| == 10
    modifies disk
    ensures GetPatientByName(name).None? ==>
              out == Returned(NotFoundMessage, None, None) && stored == [] && disk.files == old(disk.files)
    ensures GetPatientByName(name).Some? ==>
              out == Returned(JoinLines(CaseTrail(Script(GetPatientByName(name).value), suffixes, qa).log),
                              Some(ZipOutput), Some(FullAudioPath(name))) &&
              stored == Arcnames(BundleMembers(CaseTrail(Script(GetPatientByName(name).value), suffixes, qa).audio, name)) &&
              disk.files == FilesBeforeBundle(old(disk.files), name, CasePaths(suffixes)) + {LogFile} + {ZipOutput}
  {
    var patient := GetPatientByName(name);
    if patient.None? {
      return Returned(NotFoundMessage, None, None), [];
    }
    out, stored := Export(patient.value, Script(patient.value), name, suffixes, qa, disk);
  }

  /** No run output coincides with `case_log.txt`: everything the run writes
      lives under `tts_audio/`, and the archive has another name. */
  lemma LogFileNotWritten(init: set<string>, name: string, written: set<string>)
    requires forall f :: f in written ==> InAudioDir(f)
    ensures LogFile !in FilesBeforeBundle(init, name, written) + {ZipOutput}
  {
    assert LogFile[0] != (AudioDir + "/")[0];
    assert PdfPath(name)[0] == 't' && FullAudioPath(name)[0] == 't';
    assert LogFile[5] != ZipOutput[5];
  }

  /** The defect: once the chain has run, the bundle's first missing member
      is `case_log.txt`, whatever files existed before the run. */
  lemma ExportAsWrittenFails(init: set<string>, name: string, suffixes: seq<nat>, audio: seq<string>)
    requires |suffixes| == 10
    requires forall k :: 0 <= k < |audio| ==> audio[k] in CasePaths(suffixes)
    ensures FirstMissing(BundleMembers(audio, name), FilesBeforeBundle(init, name, CasePaths(suffixes)) + {ZipOutput}) == Some(LogFile)
  {
    var files := FilesBeforeBundle(init, name, CasePaths(suffixes)) + {ZipOutput};
    LogFileNotWritten(init, name, CasePaths(suffixes));
    BundleFailure(audio, name, files);
  }

  /** As written, the zip stores exactly the step audio before it raises:
      the member it stops at is `case_log.txt`, and every earlier member
      (each step's audio) and every later one exists. */
  lemma ExportAsWrittenStoresAudio(init: set<string>, name: string, suffixes: seq<nat>, audio: seq<string>,
                                   entries: seq<string>)
    requires |suffixes| == 10
    requires forall k :: 0 <= k < |audio| ==> audio[k] in CasePaths(suffixes)
    requires |entries| < |BundleMembers(audio, name)| && BundleMembers(audio, name)[|entries|].path == LogFile
    ensures |entries| == |audio|
  {
    var ms := BundleMembers(audio, name);
    var files := FilesBeforeBundle(init, name, CasePaths(suffixes)) + {ZipOutput};
    LogFileNotWritten(init, name, CasePaths(suffixes));
    assert ms[|audio| + 1].path == PdfPath(name) && ms[|audio| + 2].path == FullAudioPath(name);
  }

  /** With the log written before the bundle, no member is missing. */
  lemma ExportCorrectedSucceeds(init: set<string>, name: string, suffixes: seq<nat>, audio: seq<string>)
    requires |suffixes| == 10
    requires forall k :: 0 <= k < |audio| ==> audio[k] in CasePaths(suffixes)
    ensures FirstMissing(BundleMembers(audio, name), FilesBeforeBundle(init, name, CasePaths(suffixes)) + {LogFile} + {ZipOutput}) == None
  {
    var files := FilesBeforeBundle(init, name, CasePaths(suffixes)) + {LogFile} + {ZipOutput};
    BundleFailure(audio, name, files);
  }

  /** The voice of every step follows the patient's language: French
      exactly for Anne, whatever case the name was typed in. */
  lemma VoiceFollowsPatient(name: string, script: map<string, string>, suffixes: seq<nat>, qa: Retrieval,
                            files: set<string>)
    requires GetPatientByName(name).Some? && |suffixes| == 10
    ensures VoiceCode(GetPatientByName(name).value.lang) == FrenchVoice <==> Lower(name) == "anne"
    ensures forall i :: 0 <= i < 10 ==>
              (CaseRenders(script, suffixes, GetPatientByName(name).value.lang, qa, files)[i].voice == FrenchVoice
               <==> Lower(name) == "anne")
  {
    DirectoryLanguages(name);
    var lang := GetPatientByName(name).value.lang;
    forall i | 0 <= i < 10
      ensures CaseRenders(script, suffixes, lang, qa, files)[i].voice == VoiceCode(lang)
    {
      assert CaseRenders(script, suffixes, lang, qa, files)[i] == RenderOf(Nodes[i], suffixes[i], script, lang, qa, files);
    }
  }
}
