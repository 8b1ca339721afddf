/** The part of the filesystem the run touches, reduced to which paths exist. */
module Storage {
  import opened Text

  /** The directory per-step audio, the PDF and the combined track go to. */
  const AudioDir := "tts_audio"

  /** Paths `audio_dir.glob("*.mp3")` yields: directly inside `tts_audio`,
      ending in `.mp3`. */
  predicate IsAudioMp3(p: string)
  {
    IsPrefix(AudioDir + "/", p) && '/' !in p[|AudioDir| + 1..] && IsSuffix(".mp3", p)
  }

  /** Paths that live under `tts_audio/`. */
  predicate InAudioDir(p: string)
  {
    IsPrefix(AudioDir + "/", p)
  }

  class Disk {
    var files: set<string>

    constructor (initial: set<string>)
      ensures files == initial
    {
      files := initial;
    }

    /** Creates or overwrites `path`. */
    method Write(path: string)
      modifies this
      ensures files == old(files) + {path}
    {
      files := files + {path};
    }

    /** `if path.exists(): path.unlink()`. */
    method UnlinkIfExists(path: string)
      modifies this
      ensures files == old(files) - {path}
    {
      if path in files {
        files := files - {path};
      }
    }

    /** `for f in audio_dir.glob("*.mp3"): f.unlink()`. */
    method UnlinkAudio()
      modifies this
      ensures files == set f | f in old(files) && !IsAudioMp3(f)
    {
      files := set f | f in files && !IsAudioMp3(f);
    }
  }
}
