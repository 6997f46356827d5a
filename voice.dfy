/**
 * `export_voice_bundle`: write every sample of every audio clip of a voice
 * bundle into the voices directory, never over an existing file, and map each
 * clip name to the file name of its first sample, the first clip of a name
 * winning. The directory is a map from file name to contents.
 */
module Voice {
  import opened Wrappers
  import opened Assets

  /** The voices output directory: the files it holds, by name. */
  class VoiceDirectory {
    var files: map<string, Bytes>

    constructor (files: map<string, Bytes>)
      ensures this.files == files
    {
      this.files := files;
    }

    /** `if not out_path.exists(): out_path.write_bytes(audio)`; reports whether it wrote. */
    method WriteIfAbsent(fileName: string, audio: Bytes) returns (written: bool)
      modifies this
      ensures written <==> fileName !in old(files)
      ensures files == if written then old(files)[fileName := audio] else old(files)
    {
      written := fileName !in files;
      if written {
        files := files[fileName := audio];
      }
    }
  }

  /** The voices directory and the loop variables of `export_voice_bundle`. */
  datatype VoiceExport = VoiceExport(files: map<string, Bytes>, lineToVoice: map<string, string>, clipCount: nat, writtenCount: nat)

  /** Where an export over some objects ends, and whether it got through them all without raising. */
  datatype VoiceRun = VoiceRun(state: VoiceExport, completed: bool)

  /** A clip whose `samples` is a non-empty dictionary: the only clips the loop does not skip. */
  predicate KeptClip(obj: AssetObject) {
    obj.AudioClip? && obj.samples.Some? && |obj.samples.value| > 0
  }

  /** One sample of a clip named `clipName`: written when absent, and the name mapped when new and non-empty. */
  function SampleStep(e: VoiceExport, clipName: string, s: Sample): VoiceExport {
    var written := s.fileName !in e.files;
    VoiceExport(
      if written then e.files[s.fileName := s.audio] else e.files,
      if clipName != "" && clipName !in e.lineToVoice then e.lineToVoice[clipName := s.fileName] else e.lineToVoice,
      e.clipCount,
      if written then e.writtenCount + 1 else e.writtenCount)
  }

  /** The samples of one clip, in dictionary order. */
  function SamplesStep(e: VoiceExport, clipName: string, samples: seq<Sample>): VoiceExport
    decreases |samples|
  {
    if |samples| == 0 then e else SamplesStep(SampleStep(e, clipName, samples[0]), clipName, samples[1..])
  }

  /** An object read without raising: a kept clip is counted and its samples exported; anything else changes nothing. */
  function ObjectStep(e: VoiceExport, obj: AssetObject): VoiceExport {
    if KeptClip(obj) then SamplesStep(e.(clipCount := e.clipCount + 1), obj.name, obj.samples.value) else e
  }

  /** The objects from `e` on; a clip whose `read()` raises ends the run. */
  function ObjectsStep(e: VoiceExport, objects: seq<AssetObject>): VoiceRun
    decreases |objects|
  {
    if |objects| == 0 then VoiceRun(e, true)
    else if objects[0] == Unreadable(AudioClipKind) then VoiceRun(e, false)
    else ObjectsStep(ObjectStep(e, objects[0]), objects[1..])
  }

  /** `export_voice_bundle` on a voices directory holding `files`; a bundle that cannot be loaded raises before anything is written. */
  function VoiceBundleRun(files: map<string, Bytes>, bundle: Bundle): VoiceRun {
    var start := VoiceExport(files, map[], 0, 0);
    match bundle.contents
    case None => VoiceRun(start, false)
    case Some(objects) => ObjectsStep(start, objects)
  }

  /** The value `m` holds for `k`, as `dict.get` without a default. */
  function Lookup<K, V>(m: map<K, V>, k: K): Option<V> {
    if k in m then Some(m[k]) else None
  }

  /** The first sample of `samples` named `fileName`. */
  function FirstSampleNamed(samples: seq<Sample>, fileName: string): Option<Bytes> {
    if |samples| == 0 then None
    else if samples[0].fileName == fileName then Some(samples[0].audio)
    else FirstSampleNamed(samples[1..], fileName)
  }

  /**
   * Reference definition of the file a run leaves under `fileName` when none
   * was there before: the first sample of that name among the clips read before
   * the run ends.
   */
  function FirstFile(objects: seq<AssetObject>, fileName: string): Option<Bytes> {
    if |objects| == 0 then None
    else match objects[0]
      case Unreadable(AudioClipKind) => None
      case AudioClip(_, Some(samples)) =>
        if FirstSampleNamed(samples, fileName).Some? then FirstSampleNamed(samples, fileName)
        else FirstFile(objects[1..], fileName)
      case _ => FirstFile(objects[1..], fileName)
  }

  /**
   * Reference definition of what a run maps a clip name to when it was not
   * mapped before: the first sample's file name of the first kept clip of that
   * name read before the run ends.
   */
  function FirstVoice(objects: seq<AssetObject>, clipName: string): Option<string> {
    if |objects| == 0 then None
    else match objects[0]
      case Unreadable(AudioClipKind) => None
      case AudioClip(name, Some(samples)) =>
        if name == clipName && |samples| > 0 then Some(samples[0].fileName)
        else FirstVoice(objects[1..], clipName)
      case _ => FirstVoice(objects[1..], clipName)
  }

  /** The number of kept clips read before the run ends. */
  function KeptClips(objects: seq<AssetObject>): nat {
    if |objects| == 0 then 0
    else if objects[0] == Unreadable(AudioClipKind) then 0
    else (if KeptClip(objects[0]) then 1 else 0) + KeptClips(objects[1..])
  }

  /** Within one clip: a file keeps its old contents, or takes the first sample of its name. */
  lemma {:induction false} SamplesFiles(e: VoiceExport, clipName: string, samples: seq<Sample>, fileName: string)
    ensures var r := SamplesStep(e, clipName, samples);
      Lookup(r.files, fileName) ==
        if fileName in e.files then Some(e.files[fileName]) else FirstSampleNamed(samples, fileName)
    decreases |samples|
  {
    if |samples| > 0 {
      SamplesFiles(SampleStep(e, clipName, samples[0]), clipName, samples[1..], fileName);
    }
  }

  /**
   * Existing files are never overwritten; a file the run creates holds the
   * first sample of its name among the clips read before the run ends.
   */
  lemma {:induction false} FilesWritten(e: VoiceExport, objects: seq<AssetObject>, fileName: string)
    ensures var r := ObjectsStep(e, objects).state;
      Lookup(r.files, fileName) ==
        if fileName in e.files then Some(e.files[fileName]) else FirstFile(objects, fileName)
    decreases |objects|
  {
    if |objects| > 0 && objects[0] != Unreadable(AudioClipKind) {
      var obj := objects[0];
      if KeptClip(obj) {
        SamplesFiles(e.(clipCount := e.clipCount + 1), obj.name, obj.samples.value, fileName);
      } else if obj.AudioClip? && obj.samples.Some? {
        assert FirstSampleNamed(obj.samples.value, fileName) == None;
      }
      FilesWritten(ObjectStep(e, obj), objects[1..], fileName);
    }
  }

  /** Within one clip: a mapped name keeps its value; a new non-empty name takes the first sample's file name. */
  lemma {:induction false} SamplesVoice(e: VoiceExport, clipName: string, samples: seq<Sample>, name: string)
    requires |samples| > 0
    ensures var r := SamplesStep(e, clipName, samples);
      Lookup(r.lineToVoice, name) ==
        if name in e.lineToVoice then Some(e.lineToVoice[name])
        else if name == clipName && name != "" then Some(samples[0].fileName)
        else None
    decreases |samples|
  {
    if |samples| > 1 {
      SamplesVoice(SampleStep(e, clipName, samples[0]), clipName, samples[1..], name);
    }
  }

  /**
   * First clip wins: a name already mapped keeps its file; an empty name is
   * never mapped; any other name maps to the first sample of the first kept
   * clip of that name read before the run ends.
   */
  lemma {:induction false} FirstClipWins(e: VoiceExport, objects: seq<AssetObject>, name: string)
    ensures var r := ObjectsStep(e, objects).state;
      Lookup(r.lineToVoice, name) ==
        if name in e.lineToVoice then Some(e.lineToVoice[name])
        else if name == "" then None
        else FirstVoice(objects, name)
    decreases |objects|
  {
    if |objects| > 0 && objects[0] != Unreadable(AudioClipKind) {
      var obj := objects[0];
      if KeptClip(obj) {
        SamplesVoice(e.(clipCount := e.clipCount + 1), obj.name, obj.samples.value, name);
      }
      FirstClipWins(ObjectStep(e, obj), objects[1..], name);
    }
  }

  /** Within one clip: the write counter grows by exactly the number of files created, and no file disappears. */
  lemma {:induction false} SamplesCount(e: VoiceExport, clipName: string, samples: seq<Sample>)
    ensures var r := SamplesStep(e, clipName, samples);
      && e.files.Keys <= r.files.Keys
      && r.writtenCount == e.writtenCount + |r.files| - |e.files|
      && r.clipCount == e.clipCount
    decreases |samples|
  {
    if |samples| > 0 {
      SamplesCount(SampleStep(e, clipName, samples[0]), clipName, samples[1..]);
    }
  }

  /**
   * The counters: `clip_count` counts the kept clips read before the run ends,
   * and `written_count` the files the run created.
   */
  lemma {:induction false} CountersCount(e: VoiceExport, objects: seq<AssetObject>)
    ensures var r := ObjectsStep(e, objects).state;
      && e.files.Keys <= r.files.Keys
      && r.writtenCount == e.writtenCount + |r.files| - |e.files|
      && r.clipCount == e.clipCount + KeptClips(objects)
    decreases |objects|
  {
    if |objects| > 0 && objects[0] != Unreadable(AudioClipKind) {
      ObjectCount(e, objects[0]);
      CountersCount(ObjectStep(e, objects[0]), objects[1..]);
    }
  }

  /** One object read: a kept clip adds one to `clip_count` and its created files to `written_count`. */
  lemma ObjectCount(e: VoiceExport, obj: AssetObject)
    ensures var r := ObjectStep(e, obj);
      && e.files.Keys <= r.files.Keys
      && r.writtenCount == e.writtenCount + |r.files| - |e.files|
      && r.clipCount == e.clipCount + (if KeptClip(obj) then 1 else 0)
  {
    if KeptClip(obj) {
      SamplesCount(e.(clipCount := e.clipCount + 1), obj.name, obj.samples.value);
    }
  }

  /** The run completes exactly when no audio clip of the bundle fails to read. */
  lemma {:induction false} CompletesUnlessUnreadable(e: VoiceExport, objects: seq<AssetObject>)
    ensures ObjectsStep(e, objects).completed <==> Unreadable(AudioClipKind) !in objects
    decreases |objects|
  {
    if |objects| > 0 {
      assert objects == [objects[0]] + objects[1..];
      if objects[0] != Unreadable(AudioClipKind) {
        CompletesUnlessUnreadable(ObjectStep(e, objects[0]), objects[1..]);
      }
    }
  }

  /** The inner loop over one clip's samples, writing into `dir`. */
  method ExportSamples(dir: VoiceDirectory, clipName: string, samples: seq<Sample>,
                       lineToVoice: map<string, string>, clipCount: nat, writtenCount: nat)
    returns (lineToVoice': map<string, string>, writtenCount': nat)
    modifies dir
    ensures SamplesStep(VoiceExport(old(dir.files), lineToVoice, clipCount, writtenCount), clipName, samples)
         == VoiceExport(dir.files, lineToVoice', clipCount, writtenCount')
  {
    lineToVoice', writtenCount' := lineToVoice, writtenCount;
    ghost var goal := SamplesStep(VoiceExport(dir.files, lineToVoice, clipCount, writtenCount), clipName, samples);
    for j := 0 to |samples|
      invariant SamplesStep(VoiceExport(dir.files, lineToVoice', clipCount, writtenCount'), clipName, samples[j..]) == goal
    {
      assert samples[j..][1..] == samples[j + 1..];
      var s := samples[j];
      var written := dir.WriteIfAbsent(s.fileName, s.audio);
      if written {
        writtenCount' := writtenCount' + 1;
      }
      if clipName != "" && clipName !in lineToVoice' {
        lineToVoice' := lineToVoice'[clipName := s.fileName];
      }
    }
  }

  /**
   * `export_voice_bundle`: the new directory, the counters and, when the run
   * completes, the returned map are those of `VoiceBundleRun`; a run that
   * raises returns a `Failure` but keeps the files it wrote.
   */
  method ExportVoiceBundle(dir: VoiceDirectory, bundle: Bundle)
    returns (r: Result<map<string, string>, string>, clipCount: nat, writtenCount: nat)
    modifies dir
    ensures var run := VoiceBundleRun(old(dir.files), bundle);
      && dir.files == run.state.files
      && clipCount == run.state.clipCount && writtenCount == run.state.writtenCount
      && (r.Success? <==> run.completed)
      && (r.Success? ==> r.value == run.state.lineToVoice)
  {
    clipCount, writtenCount := 0, 0;
    if bundle.contents.None? {
      return Failure("bundle could not be loaded"), clipCount, writtenCount;
    }
    var objects := bundle.contents.value;
    var lineToVoice: map<string, string> := map[];
    ghost var goal := ObjectsStep(VoiceExport(dir.files, lineToVoice, 0, 0), objects);
    for i := 0 to |objects|
      invariant ObjectsStep(VoiceExport(dir.files, lineToVoice, clipCount, writtenCount), objects[i..]) == goal
    {
      assert objects[i..][1..] == objects[i + 1..];
      match objects[i] {
        case Unreadable(kind) =>
          if kind == AudioClipKind {
            return Failure("AudioClip could not be read"), clipCount, writtenCount;
          }
        case AudioClip(name, samples) =>
          if samples.Some? && |samples.value| > 0 {
            clipCount := clipCount + 1;
            lineToVoice, writtenCount := ExportSamples(dir, name, samples.value, lineToVoice, clipCount, writtenCount);
          }
        case _ =>
      }
    }
    return Success(lineToVoice), clipCount, writtenCount;
  }
}
