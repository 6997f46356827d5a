# manosaba-script-export: a Dafny model of the exporter's core

The exporter reads a game's asset bundles and writes a CSV with one row per line of
dialogue: its id, the Japanese and Chinese speaker, the Japanese and Chinese text,
and the voice file recorded for it. This project models the text and map logic
that produces those rows, and proves what that logic guarantees:

- `Text`: the Python string operations the exporter uses (`strip`, `lstrip`,
  `rstrip`, `startswith`, `split(":", 1)`, `in`, and the `"\n".join` of non-empty parts).
  Whitespace is Python's `str.isspace` set.
- `Assets`: what the asset library gives the exporter. A text asset is its
  already-split lines. An audio clip is its name and its samples. `Unreadable`
  is an object whose read raises. A bundle that cannot be loaded has no contents.
- `Speaker`: the speaker name derived from a dialogue id (`_speaker_from_line_id`),
  the candidate keys for the name table (`_normalize_speaker_key`), and the
  Chinese name lookup inside `flush_current`.
- `SpeakerMapping`: `build_speaker_mapping`, the `KEY:VALUE` table read from the
  first `CharacterNames` asset.
- `Script`: the script parser of `parse_localized_script_bundle`.
  - The class `ScriptParser` holds the closure's variables as fields. Its
    methods `Consume`, `Flush` and `ParseAsset` are proved against a functional
    state machine.
  - In that machine, `Classify` routes each line, `Step` and `Emitted` run the
    loop, and `Assemble` builds the records.
  - Lemmas state what a block `# ID` followed by its lines yields.
- `Voice`: `export_voice_bundle`. The voices directory is a class holding a map
  from file name to bytes, and a sample is written only when no file of that
  name exists.
- `Bundles`: `_collect_bundles`, meaning sorting the `*.bundle` files by name and
  filtering them by name.
- `Export`: `run_export`. It builds the name table, accumulates records per
  script bundle, merges the voice maps so the first bundle wins, then joins the
  voice files and computes the three counters.

Two behaviours of the code that are easy to miss, both modelled as written:

- The name table keeps the LAST entry for a repeated key (`mapping[k] = v`).
- A `# ` marker whose id strips to nothing opens no record. Its flush returns
  before resetting, so the speaker and lines under it are carried into the next
  record. `Script.BlankMarkerCarriesOver` states the exact outcome.

## Model

| member | source | states |
|---|---|---|
| Speaker.SpeakerFromLineId | parsers.py:30-36 | the speaker derived from a dialogue id; what it computes is stated by `SpeakerWithoutUnderscore`, `SpeakerFromLineIdIsRegexGroup` and `SpeakerOfNumberedName` |
| Speaker.SpeakerWithoutUnderscore | parsers.py:31-32 | an id without `_` names no speaker |
| Speaker.SpeakerFromLineIdIsRegexGroup | parsers.py:30-36 | the derived speaker is the shortest group-1 capture of `^([A-Za-z][A-Za-z0-9_]*?)(\d+)?$` on the text after the first `_`, or that whole text when the expression does not match |
| Speaker.SpeakerOfNumberedName | parsers.py:33-36 | `SCENE_NameDigits` gives `Name` when Name is a word not ending in a digit |
| Speaker.LeiaFromLineId | parsers.py:34 | `0101Trial00_Leia001` gives `Leia` |
| Speaker.DedupNonEmptyShape | parsers.py:45-50 | the de-duplication loop keeps exactly the non-empty, not-yet-seen entries, each once |
| Speaker.NormalizedKeysShape | parsers.py:39-51 | the keys are exactly the non-empty candidates (name, name without `Creature` when longer than it, stripped name), without duplicates |
| Speaker.NormalizeSpeakerKey | parsers.py:39-51 | the loop with the `seen` set returns the non-empty candidates once each, in order |
| Speaker.LookupThroughDedup | parsers.py:111-114 | dropping repeated and empty keys does not change which mapped key is found first |
| Speaker.SpeakerZhByCandidates | parsers.py:109-116 | `speaker_zh` is the mapped value of the first non-empty candidate in the table, else `speaker_ja` |
| Speaker.ResolveSpeakerZh | parsers.py:110-116 | the lookup loop that breaks on the first hit computes that `speaker_zh` |
| Speaker.CreaturePrefixFallsBackToName | parsers.py:41-42 | `CreatureLeia` is shown through the table entry for `Leia` |
| SpeakerMapping.ParseMappingLine | parsers.py:69-74 | one line of the name table: the stripped key and value around the first colon, or nothing; stated by `MappingLineShape` and `MappingLineRoundTrip` |
| SpeakerMapping.MappingLineShape | parsers.py:69-74 | a kept entry has a non-empty colon-free key and a non-empty value, both stripped |
| SpeakerMapping.MappingLineRoundTrip | parsers.py:69-75 | writing an entry as `KEY:VALUE` and parsing it gives the entry back |
| SpeakerMapping.MappingLastWins | parsers.py:68-75 | a key is in the table iff some line defines it, and its value comes from the last such line |
| SpeakerMapping.FirstCharacterNamesOnly | parsers.py:59-76 | only the first `CharacterNames` asset is read; without one the table is empty |
| SpeakerMapping.ParseCharacterNames | parsers.py:68-75 | the line loop builds the table of the kept entries, in order |
| SpeakerMapping.BuildSpeakerMapping | parsers.py:54-79 | the object scan returns that table, or fails when a text asset before it cannot be read |
| Script.DirectiveSpeaker | parsers.py:142-149 | a speaker taken from a directive is non-empty and does not start with `@` |
| Script.Classify | parsers.py:133-160 | the routing rule, tested in the loop's order (marker, directive, `;` comment, other text); what each route does to the state is stated by `MarkerLine`, `DirectiveNeverBuffered`, `JapaneseRoute` and `ChineseRoute` |
| Script.MarkerLine | parsers.py:134-137 | a `# REST` line classifies as a marker for the stripped REST; from an idle or open state it flushes exactly the open record and opens a fresh one for that id, with no speaker and empty buffers |
| Script.DirectiveNamesSpeaker | parsers.py:142-149 | `; > NAME: REST` names NAME as the speaker whatever REST holds |
| Script.DirectiveNeverBuffered | parsers.py:142-149 | a `; > ` line never enters either text buffer and flushes nothing |
| Script.JapaneseRoute | parsers.py:151-156 | in an open record, a `;` line that is not a directive appends its left-stripped text after `;` to the Japanese buffer exactly when that text is non-empty and does not start with `日本語 <ja>`; speaker, Chinese buffer and id stay, nothing is flushed |
| Script.ChineseRoute | parsers.py:158-160 | in an open record, a line that is neither a marker nor a `;` line appends its right-stripped self to the Chinese buffer exactly when it is not blank; speaker, Japanese buffer and id stay, nothing is flushed |
| Script.LeiaDirective | parsers.py:143 | the directive line the scripts write for Leia's line `0101Trial00_Leia001` names `Leia` |
| Script.Step | parsers.py:133-160 | one loop iteration on a classified line: a marker flushes and opens the stripped id, lines before any marker are skipped, otherwise the speaker or one buffer is updated; its behaviour per route is stated by `StepInBody`, `PreambleIgnored` and the route lemmas |
| Script.RecordOf | parsers.py:109-126 | the record `flush_current` builds from an open state: the inline speaker or the one derived from the id, its Chinese name, the non-empty buffered lines joined and stripped, no voice file; stated by `AssembledWellFormed` and `BlockYieldsRecord` |
| Script.SecondFlushEmitsNothing | parsers.py:104-131 | after a flush, another flush emits nothing and changes nothing |
| Script.Emitted | parsers.py:104-126 | only states with a non-empty open id are ever flushed into a record |
| Script.AssembledWellFormed | parsers.py:104-126 | every record has a non-empty id, an empty voice file, and the Chinese speaker the table lookup gives |
| Script.PreambleIgnored | parsers.py:139-140 | lines before the first marker of an asset change nothing |
| Script.StepInBody | parsers.py:142-160 | inside an open record, a non-marker line emits nothing and only sets the speaker or appends to one buffer |
| Script.BodyAccumulates | parsers.py:139-160 | marker-free lines of an open record emit nothing and fill speaker and buffers in order |
| Script.FlushAtBoundary | parsers.py:128-162 | at a marker or at the end of the asset, an open record is emitted and the state resets |
| Script.BlockYieldsRecord | parsers.py:104-162 | `# ID` and its lines, up to the next marker or the end, emit exactly one record from that id, the last accepted directive, and the accepted Japanese and Chinese lines in order |
| Script.BlankMarkerCarriesOver | parsers.py:104-136 | a blank `# ` emits nothing, and its speaker and lines are carried into the next record |
| Script.ScriptParser.constructor | parsers.py:99-102 | the parser starts with no open id, no speaker and empty buffers |
| Script.ScriptParser.Flush | parsers.py:104-131 | `flush_current` appends the record of an open state and resets, or returns early and changes nothing |
| Script.ScriptParser.Consume | parsers.py:133-160 | one loop iteration is one machine step on the line's classification |
| Script.ScriptParser.ParseAsset | parsers.py:97-162 | one text asset appends exactly the records the machine emits for its lines |
| Script.ParseScriptBundle | parsers.py:82-165 | the records of all text assets in order, or a failure when one cannot be read |
| Voice.VoiceDirectory.WriteIfAbsent | parsers.py:193-196 | a file is written only when none of that name exists |
| Voice.SampleStep | parsers.py:192-199 | one sample: write it when no file of its name exists and count the write, and map a new non-empty clip name to its file; stated by `SamplesFiles`, `SamplesVoice` and `SamplesCount` |
| Voice.SamplesFiles | parsers.py:192-196 | within one clip, an existing file keeps its contents and a new one holds the first sample of its name |
| Voice.FilesWritten | parsers.py:174-196 | existing files are never overwritten; a created file holds the first sample of its name among the clips read |
| Voice.SamplesVoice | parsers.py:192-199 | within one clip, a mapped name keeps its file and a new non-empty clip name maps to the first sample |
| Voice.FirstClipWins | parsers.py:179-199 | a name maps to the first sample of the first kept clip of that name; empty names are never mapped; skipped clips add nothing |
| Voice.SamplesCount | parsers.py:192-196 | within one clip, the write counter grows by the number of files created |
| Voice.CountersCount | parsers.py:176-196 | `clip_count` counts the kept clips, and `written_count` counts the files created |
| Voice.CompletesUnlessUnreadable | parsers.py:179-183 | the export returns iff no audio clip fails to read |
| Voice.ExportSamples | parsers.py:192-199 | the per-sample loop computes the sample step over all samples |
| Voice.ExportVoiceBundle | parsers.py:168-210 | the directory, counters and returned map are those of the function `VoiceBundleRun`; a failing run keeps the files it wrote |
| Bundles.LexLeTotal | export_core.py:17 | any two names are ordered one way or the other |
| Bundles.LexLeTrans | export_core.py:17 | the name order is transitive |
| Bundles.InsertByName | export_core.py:17 | insertion adds exactly one bundle |
| Bundles.SortByName | export_core.py:17 | sorting is a permutation |
| Bundles.SortByNameSorted | export_core.py:17 | the sorted list is ordered by name and is a permutation of the input |
| Bundles.NamedWith | export_core.py:20-21 | the filter keeps exactly the bundles whose name contains the marker |
| Bundles.NamedWithSorted | export_core.py:20-21 | filtering keeps the sorted order |
| Bundles.Globbed | export_core.py:17 | the glob keeps exactly the files whose name ends in `.bundle` |
| Bundles.CollectedBundles | export_core.py:16-21 | both lists are sorted and hold exactly the `*.bundle` files whose names contain their marker |
| Bundles.CharNamesBundle | export_core.py:22-66 | the name-table bundle is found iff a file of that exact name exists |
| Export.AllRecordsAppend | export_core.py:70-78 | `all_records` is the in-order concatenation of each bundle's records |
| Export.FailingBundleSkipped | export_core.py:73-78 | a script bundle that raises contributes nothing, and the others are unaffected |
| Export.BundleRecordsWellFormed | parsers.py:87-165 | a bundle's records have ids, no voice file, and the looked-up Chinese speaker |
| Export.AllRecordsWellFormed | export_core.py:70-78 | the accumulated records all have ids, no voice file, and the looked-up Chinese speaker |
| Export.CollectRecords | export_core.py:70-78 | the script-bundle loop computes `all_records` |
| Export.MergeFirstWins | export_core.py:85-87 | one bundle's map merged into the voice map, keeping every existing value; stated by `MergeSubMap` and `EarliestBundleWins` |
| Export.MergeSubMap | export_core.py:85-87 | one merge keeps every existing value and adds only the new keys |
| Export.EarliestBundleWins | export_core.py:80-89 | each merged key holds the value of the earliest bundle map with the key; failed bundles add nothing |
| Export.ExportVoices | export_core.py:80-89 | the voice loop leaves the directory and merged map that the functions `VoicePass` and `MergeAll` give |
| Export.JoinRecord | export_core.py:95 | one record with its voice file looked up by id (`""` when absent); stated by `JoinedRecords` |
| Export.JoinedRecords | export_core.py:94-95 | each record's voice file is its id's voice-map entry or `""`, and no other field changes |
| Export.MatchedPlusMissing | export_core.py:91-99 | `matched + missing_voice` is the number of records |
| Export.MissingSpeakerMapCounts | export_core.py:100-101 | `missing_speaker_map` counts exactly the records with a non-empty `speaker_ja` equal to `speaker_zh` |
| Export.JoinVoices | export_core.py:91-101 | the join loop yields the joined records and the three counters, and matched + missing equals the record count |
| Export.ExportOutcome | export_core.py:62-101 | in a successful run, every record has an id and its voice-map file, and the counters partition the records |
| Export.RunExport | export_core.py:62-101 | the run's outcome is the function `ExportOf`'s; a failing name table fails the run before any voice file is written |

## Left out

- The asset library (`UnityPy.load`, `obj.read`, `m_Script` decoding with replacement characters) is not modelled. Its results are inputs, and its failures are the `Unreadable` object or a bundle without contents.
- Python's `splitlines` is not modelled: a text asset arrives as its lines.
- `Speaker.SpeakerFromLineIdIsRegexGroup`: `\d` is taken as the ASCII digits only, so Unicode decimal digits in an id tail are not modelled. Nor is Python's `$` matching before a final newline: for a tail ending in `\n` the lemma's whole-tail fallback differs from `re.match`. Ids are stripped before they reach this function (parsers.py:136), so no such tail occurs.
- The file system is reduced to two things. The asset directory is a listing of `Bundle` values, and the voices directory is a map from file name to bytes. Path joining, `mkdir`, and the missing-asset-root error (export_core.py:54-60) are left out. So is a file name containing a path separator.
- `Bundles.SortByName`: names are ordered by code point, as on POSIX paths. The case-insensitive ordering of Windows paths is not modelled, and neither is the case-insensitive match of `glob("*.bundle")` on Windows (`X.BUNDLE`): `Bundles.Globbed` tests the suffix case-sensitively.
- The CSV writer (`_write_csv`), wall-clock timing, every log and progress line, and `run_export.py`'s prompts and error report are I/O and are left out.
- `Export.JoinVoices`: `run_export` assigns `rec.voice_file` on shared record objects. The model builds a new sequence of record values, so aliasing between records is not captured.
- An audio clip's `samples` dictionary is a sequence of samples in iteration order. Keys are not required to be distinct; a repeated name is simply not written twice.
