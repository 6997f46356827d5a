/**
 * `run_export`: read the speaker-name table, parse every script bundle,
 * export every voice bundle and merge their clip maps, then join each record
 * with its voice file and count the outcome.
 */
module Export {
  import opened Wrappers
  import opened Assets
  import opened SpeakerMapping
  import opened Script
  import opened Voice
  import opened Bundles

  /** The records the loop over one script bundle adds: nothing when the bundle fails to load or a text asset fails to read. */
  function TextContribution(b: Bundle, speakerMap: map<string, string>): seq<DialogueRecord> {
    match b.contents
    case None => []
    case Some(objects) =>
      match BundleRecords(objects, speakerMap)
      case Success(records) => records
      case Failure(_) => []
  }

  /** What each script bundle contributes, in order. */
  function Contributions(textBundles: seq<Bundle>, speakerMap: map<string, string>): seq<seq<DialogueRecord>> {
    seq(|textBundles|, i requires 0 <= i < |textBundles| => TextContribution(textBundles[i], speakerMap))
  }

  /** The parts one after the other (`list.extend` in a loop). */
  function Flatten(parts: seq<seq<DialogueRecord>>): seq<DialogueRecord> {
    if |parts| == 0 then [] else Flatten(parts[..|parts| - 1]) + parts[|parts| - 1]
  }

  /** Flattening distributes over concatenation. */
  lemma {:induction false} FlattenAppend(p: seq<seq<DialogueRecord>>, q: seq<seq<DialogueRecord>>)
    ensures Flatten(p + q) == Flatten(p) + Flatten(q)
    decreases |q|
  {
    if |q| == 0 {
      assert p + q == p;
    } else {
      var init, last := q[..|q| - 1], q[|q| - 1];
      assert (p + q)[..|p + q| - 1] == p + init;
      FlattenAppend(p, init);
      assert Flatten(p) + Flatten(init) + last == Flatten(p) + (Flatten(init) + last);
    }
  }

  /** `all_records` after the loop over the script bundles. */
  function AllRecords(textBundles: seq<Bundle>, speakerMap: map<string, string>): seq<DialogueRecord> {
    Flatten(Contributions(textBundles, speakerMap))
  }

  /** The records are the in-order concatenation of what each bundle contributes. */
  lemma AllRecordsAppend(a: seq<Bundle>, b: seq<Bundle>, speakerMap: map<string, string>)
    ensures AllRecords(a + b, speakerMap) == AllRecords(a, speakerMap) + AllRecords(b, speakerMap)
  {
    assert Contributions(a + b, speakerMap) == Contributions(a, speakerMap) + Contributions(b, speakerMap);
    FlattenAppend(Contributions(a, speakerMap), Contributions(b, speakerMap));
  }

  /** One more bundle at the end adds its contribution at the end. */
  lemma AllRecordsSnoc(bs: seq<Bundle>, b: Bundle, speakerMap: map<string, string>)
    ensures AllRecords(bs + [b], speakerMap) == AllRecords(bs, speakerMap) + TextContribution(b, speakerMap)
  {
    var parts := Contributions(bs + [b], speakerMap);
    assert parts[..|bs|] == Contributions(bs, speakerMap);
  }

  /** A script bundle that raises leaves the records of the others as they would be without it. */
  lemma FailingBundleSkipped(before: seq<Bundle>, b: Bundle, after: seq<Bundle>, speakerMap: map<string, string>)
    requires b.contents.None? || BundleRecords(b.contents.value, speakerMap).Failure?
    ensures AllRecords(before + [b] + after, speakerMap) == AllRecords(before + after, speakerMap)
  {
    AllRecordsAppend(before + [b], after, speakerMap);
    AllRecordsAppend(before, after, speakerMap);
    AllRecordsSnoc(before, b, speakerMap);
    assert AllRecords(before, speakerMap) + [] == AllRecords(before, speakerMap);
  }

  /** The accumulation loop: every record has an id and the Chinese speaker the table gives. */
  lemma {:induction false} AllRecordsWellFormed(textBundles: seq<Bundle>, speakerMap: map<string, string>)
    ensures forall r :: r in AllRecords(textBundles, speakerMap) ==>
      r.lineId != "" && r.voiceFile == "" && r.speakerZh == Speaker.SpeakerZh(r.speakerJa, speakerMap)
    decreases |textBundles|
  {
    if |textBundles| > 0 {
      var init, b := textBundles[..|textBundles| - 1], textBundles[|textBundles| - 1];
      AllRecordsWellFormed(init, speakerMap);
      assert init + [b] == textBundles;
      AllRecordsSnoc(init, b, speakerMap);
      if b.contents.Some? {
        BundleRecordsWellFormed(b.contents.value, speakerMap);
      }
    }
  }

  /** The records a bundle yields when it yields any have an id, no voice file and the looked-up Chinese speaker. */
  lemma {:induction false} BundleRecordsWellFormed(objects: seq<AssetObject>, speakerMap: map<string, string>)
    ensures var r := BundleRecords(objects, speakerMap);
      r.Success? ==> forall rec :: rec in r.value ==>
        rec.lineId != "" && rec.voiceFile == "" && rec.speakerZh == Speaker.SpeakerZh(rec.speakerJa, speakerMap)
    decreases |objects|
  {
    if |objects| > 0 {
      BundleRecordsWellFormed(objects[1..], speakerMap);
      match objects[0]
      case TextAsset(_, lines) =>
        AssembledWellFormed(Emitted(Idle, Kinds(lines)), speakerMap);
      case _ =>
    }
  }

  /** `for k, v in sub_map.items(): if k not in voice_map: voice_map[k] = v`. */
  function MergeFirstWins(voiceMap: map<string, string>, subMap: map<string, string>): map<string, string> {
    map k | k in voiceMap.Keys + subMap.Keys :: if k in voiceMap then voiceMap[k] else subMap[k]
  }

  /** The merged map after the loop over the voice bundles' maps, a failed bundle (`None`) adding nothing. */
  function MergeAll(subMaps: seq<Option<map<string, string>>>): map<string, string> {
    if |subMaps| == 0 then map[]
    else
      var acc := MergeAll(subMaps[..|subMaps| - 1]);
      match subMaps[|subMaps| - 1]
      case Some(m) => MergeFirstWins(acc, m)
      case None => acc
  }

  /** Reference definition: the value of `k` in the earliest map that has it. */
  function Earliest(subMaps: seq<Option<map<string, string>>>, k: string): Option<string> {
    if |subMaps| == 0 then None
    else match subMaps[0]
      case Some(m) => if k in m then Some(m[k]) else Earliest(subMaps[1..], k)
      case None => Earliest(subMaps[1..], k)
  }

  /** `Earliest` over a list extended at the end. */
  lemma {:induction false} EarliestSnoc(subMaps: seq<Option<map<string, string>>>, last: Option<map<string, string>>, k: string)
    ensures Earliest(subMaps + [last], k) ==
      if Earliest(subMaps, k).Some? then Earliest(subMaps, k)
      else if last.Some? && k in last.value then Some(last.value[k])
      else None
    decreases |subMaps|
  {
    if |subMaps| == 0 {
      assert (subMaps + [last])[1..] == [];
    } else {
      assert (subMaps + [last])[1..] == subMaps[1..] + [last];
      EarliestSnoc(subMaps[1..], last, k);
    }
  }

  /**
   * Earliest bundle wins: each key of the merged voice map holds the value of
   * the first bundle map that has the key; later bundles never overwrite it,
   * and a failed bundle adds nothing.
   */
  lemma {:induction false} EarliestBundleWins(subMaps: seq<Option<map<string, string>>>, k: string)
    ensures Lookup(MergeAll(subMaps), k) == Earliest(subMaps, k)
    decreases |subMaps|
  {
    if |subMaps| > 0 {
      var init := subMaps[..|subMaps| - 1];
      EarliestBundleWins(init, k);
      EarliestSnoc(init, subMaps[|subMaps| - 1], k);
      assert init + [subMaps[|subMaps| - 1]] == subMaps;
    }
  }

  /** The merge loop over one bundle's map, on a copy of the map so far. */
  method MergeSubMap(voiceMap: map<string, string>, subMap: map<string, string>) returns (merged: map<string, string>)
    ensures merged == MergeFirstWins(voiceMap, subMap)
  {
    merged := voiceMap;
    var pending := subMap.Keys;
    while pending != {}
      invariant pending <= subMap.Keys
      invariant merged.Keys == voiceMap.Keys + (subMap.Keys - pending)
      invariant forall k :: k in merged ==> merged[k] == if k in voiceMap then voiceMap[k] else subMap[k]
      decreases pending
    {
      var k :| k in pending;
      if k !in merged {
        merged := merged[k := subMap[k]];
      }
      pending := pending - {k};
    }
  }

  /** The voice directory and the per-bundle clip maps after the loop over the voice bundles. */
  function VoicePass(files: map<string, Bytes>, voiceBundles: seq<Bundle>): (map<string, Bytes>, seq<Option<map<string, string>>>)
  {
    if |voiceBundles| == 0 then (files, [])
    else
      var (before, subMaps) := VoicePass(files, voiceBundles[..|voiceBundles| - 1]);
      var run := VoiceBundleRun(before, voiceBundles[|voiceBundles| - 1]);
      (run.state.files, subMaps + [if run.completed then Some(run.state.lineToVoice) else None])
  }

  /** A record after the join: its voice file is `voice_map.get(line_id, "")`. */
  function JoinRecord(rec: DialogueRecord, voiceMap: map<string, string>): DialogueRecord {
    rec.(voiceFile := if rec.lineId in voiceMap then voiceMap[rec.lineId] else "")
  }

  /** The records after the join loop. */
  function Joined(records: seq<DialogueRecord>, voiceMap: map<string, string>): (r: seq<DialogueRecord>)
    ensures |r| == |records|
  {
    if |records| == 0 then []
    else Joined(records[..|records| - 1], voiceMap) + [JoinRecord(records[|records| - 1], voiceMap)]
  }

  /**
   * The join sets each record's voice file to its id's entry in the voice map,
   * or `""` without one, and changes no other field.
   */
  lemma {:induction false} JoinedRecords(records: seq<DialogueRecord>, voiceMap: map<string, string>)
    ensures forall i :: 0 <= i < |records| ==>
      var r := Joined(records, voiceMap)[i];
      && r.voiceFile == (if records[i].lineId in voiceMap then voiceMap[records[i].lineId] else "")
      && r.lineId == records[i].lineId && r.speakerJa == records[i].speakerJa && r.speakerZh == records[i].speakerZh
      && r.lineJa == records[i].lineJa && r.lineZh == records[i].lineZh
    decreases |records|
  {
    if |records| > 0 {
      var init := records[..|records| - 1];
      JoinedRecords(init, voiceMap);
      forall i | 0 <= i < |records| - 1 ensures Joined(records, voiceMap)[i] == Joined(init, voiceMap)[i] && records[i] == init[i] {
      }
    }
  }

  /** Joining records that all have ids: every joined record has an id and its id's voice file. */
  lemma {:induction false} JoinedMembers(records: seq<DialogueRecord>, voiceMap: map<string, string>)
    requires forall r :: r in records ==> r.lineId != ""
    ensures forall rec :: rec in Joined(records, voiceMap) ==>
      rec.lineId != "" && rec.voiceFile == (if rec.lineId in voiceMap then voiceMap[rec.lineId] else "")
    decreases |records|
  {
    if |records| > 0 {
      var init := records[..|records| - 1];
      forall r | r in init ensures r.lineId != "" {
        var k :| 0 <= k < |init| && init[k] == r;
        assert records[k] == r;
      }
      JoinedMembers(init, voiceMap);
    }
  }

  /** Joining one more record appends its joined form. */
  lemma JoinedSnoc(records: seq<DialogueRecord>, i: nat, voiceMap: map<string, string>)
    requires i < |records|
    ensures Joined(records[..i + 1], voiceMap) == Joined(records[..i], voiceMap) + [JoinRecord(records[i], voiceMap)]
  {
    assert records[..i + 1][..i] == records[..i];
  }

  /** `matched`: the records with a non-empty voice file. */
  function Matched(records: seq<DialogueRecord>): nat {
    if |records| == 0 then 0
    else Matched(records[..|records| - 1]) + (if records[|records| - 1].voiceFile != "" then 1 else 0)
  }

  /** `missing_voice`: the records with an empty voice file. */
  function MissingVoice(records: seq<DialogueRecord>): nat {
    if |records| == 0 then 0
    else MissingVoice(records[..|records| - 1]) + (if records[|records| - 1].voiceFile == "" then 1 else 0)
  }

  /** `missing_speaker_map`: the records with a Japanese speaker that the table left as it was. */
  predicate SpeakerUnmapped(rec: DialogueRecord) {
    rec.speakerJa != "" && rec.speakerZh == rec.speakerJa
  }

  function MissingSpeakerMap(records: seq<DialogueRecord>): nat {
    if |records| == 0 then 0
    else MissingSpeakerMap(records[..|records| - 1]) + (if SpeakerUnmapped(records[|records| - 1]) then 1 else 0)
  }

  /** The three counters over one more record. */
  lemma CountersSnoc(records: seq<DialogueRecord>, rec: DialogueRecord)
    ensures Matched(records + [rec]) == Matched(records) + (if rec.voiceFile != "" then 1 else 0)
    ensures MissingVoice(records + [rec]) == MissingVoice(records) + (if rec.voiceFile == "" then 1 else 0)
    ensures MissingSpeakerMap(records + [rec]) == MissingSpeakerMap(records) + (if SpeakerUnmapped(rec) then 1 else 0)
  {
    assert (records + [rec])[..|records|] == records;
  }

  /** Every record is counted once, as matched or as missing its voice. */
  lemma {:induction false} MatchedPlusMissing(records: seq<DialogueRecord>)
    ensures Matched(records) + MissingVoice(records) == |records|
    decreases |records|
  {
    if |records| > 0 {
      MatchedPlusMissing(records[..|records| - 1]);
    }
  }

  /** `missing_speaker_map` counts exactly the indices of the unmapped records. */
  lemma {:induction false} MissingSpeakerMapCounts(records: seq<DialogueRecord>)
    ensures MissingSpeakerMap(records) == |set i | 0 <= i < |records| && SpeakerUnmapped(records[i])|
    decreases |records|
  {
    if |records| > 0 {
      var n := |records| - 1;
      var init := records[..n];
      MissingSpeakerMapCounts(init);
      var before := set i | 0 <= i < n && SpeakerUnmapped(init[i]);
      var after := set i | 0 <= i < |records| && SpeakerUnmapped(records[i]);
      if SpeakerUnmapped(records[n]) {
        assert after == before + {n};
      } else {
        assert after == before;
      }
    }
  }

  /** The join loop: the joined records and the three counters. */
  method JoinVoices(records: seq<DialogueRecord>, voiceMap: map<string, string>)
    returns (joined: seq<DialogueRecord>, matched: nat, missingVoice: nat, missingSpeakerMap: nat)
    ensures joined == Joined(records, voiceMap)
    ensures matched == Matched(joined) && missingVoice == MissingVoice(joined)
    ensures missingSpeakerMap == MissingSpeakerMap(joined)
    ensures matched + missingVoice == |records|
  {
    joined, matched, missingVoice, missingSpeakerMap := [], 0, 0, 0;
    for i := 0 to |records|
      invariant joined == Joined(records[..i], voiceMap)
      invariant matched == Matched(joined) && missingVoice == MissingVoice(joined)
      invariant missingSpeakerMap == MissingSpeakerMap(joined)
    {
      JoinedSnoc(records, i, voiceMap);
      var rec := records[i];
      rec := rec.(voiceFile := if rec.lineId in voiceMap then voiceMap[rec.lineId] else "");
      CountersSnoc(joined, rec);
      if rec.voiceFile != "" {
        matched := matched + 1;
      } else {
        missingVoice := missingVoice + 1;
      }
      if rec.speakerJa != "" && rec.speakerZh == rec.speakerJa {
        missingSpeakerMap := missingSpeakerMap + 1;
      }
      joined := joined + [rec];
    }
    assert records[..|records|] == records;
    MatchedPlusMissing(joined);
  }

  /** What the export produces: the records as written to the CSV, the merged voice map and the counters. */
  datatype ExportSummary = ExportSummary(
    records: seq<DialogueRecord>,
    voiceMap: map<string, string>,
    matched: nat,
    missingVoice: nat,
    missingSpeakerMap: nat)

  /** The speaker-name table: empty without its bundle; a bundle that fails to load or read fails the run. */
  function SpeakerMapOf(listing: seq<Bundle>): Result<map<string, string>, string> {
    match CharNamesBundle(listing)
    case None => Success(map[])
    case Some(b) =>
      match b.contents
      case None => Failure("bundle could not be loaded")
      case Some(objects) => SpeakerMappingOf(objects)
  }

  /** `run_export` over the asset directory `listing` with a voices directory holding `files`. */
  function ExportOf(listing: seq<Bundle>, files: map<string, Bytes>): Result<ExportSummary, string> {
    match SpeakerMapOf(listing)
    case Failure(e) => Failure(e)
    case Success(speakerMap) =>
      var records := AllRecords(TextBundles(listing), speakerMap);
      var voiceMap := MergeAll(VoicePass(files, VoiceBundles(listing)).1);
      var joined := Joined(records, voiceMap);
      Success(ExportSummary(joined, voiceMap, Matched(joined), MissingVoice(joined), MissingSpeakerMap(joined)))
  }

  /**
   * A successful export: every record has an id, a voice file equal to its
   * id's entry in the voice map (or `""`), and the counters partition the
   * records by voice file.
   */
  lemma ExportOutcome(listing: seq<Bundle>, files: map<string, Bytes>)
    ensures var r := ExportOf(listing, files);
      r.Success? ==>
        && r.value.matched + r.value.missingVoice == |r.value.records|
        && forall rec :: rec in r.value.records ==>
             rec.lineId != "" && rec.voiceFile == (if rec.lineId in r.value.voiceMap then r.value.voiceMap[rec.lineId] else "")
  {
    var r := ExportOf(listing, files);
    if r.Success? {
      var speakerMap := SpeakerMapOf(listing).value;
      var records := AllRecords(TextBundles(listing), speakerMap);
      AllRecordsWellFormed(TextBundles(listing), speakerMap);
      JoinedMembers(records, r.value.voiceMap);
      MatchedPlusMissing(r.value.records);
    }
  }

  /** The loop over the script bundles. */
  method CollectRecords(textBundles: seq<Bundle>, speakerMap: map<string, string>) returns (all: seq<DialogueRecord>)
    ensures all == AllRecords(textBundles, speakerMap)
  {
    all := [];
    for i := 0 to |textBundles|
      invariant all == AllRecords(textBundles[..i], speakerMap)
    {
      assert textBundles[..i + 1] == textBundles[..i] + [textBundles[i]];
      AllRecordsSnoc(textBundles[..i], textBundles[i], speakerMap);
      var b := textBundles[i];
      if b.contents.Some? {
        var recs := ParseScriptBundle(b.contents.value, speakerMap);
        if recs.Success? {
          all := all + recs.value;
        }
      }
    }
    assert textBundles[..|textBundles|] == textBundles;
  }

  /** The loop over the voice bundles, writing into `dir` and merging each bundle's map. */
  method ExportVoices(dir: VoiceDirectory, voiceBundles: seq<Bundle>) returns (voiceMap: map<string, string>)
    modifies dir
    ensures (dir.files, voiceMap) == (VoicePass(old(dir.files), voiceBundles).0, MergeAll(VoicePass(old(dir.files), voiceBundles).1))
  {
    voiceMap := map[];
    ghost var subMaps: seq<Option<map<string, string>>> := [];
    ghost var start := dir.files;
    for i := 0 to |voiceBundles|
      invariant VoicePass(start, voiceBundles[..i]) == (dir.files, subMaps)
      invariant voiceMap == MergeAll(subMaps)
    {
      assert voiceBundles[..i + 1][..i] == voiceBundles[..i];
      var subMap, _, _ := ExportVoiceBundle(dir, voiceBundles[i]);
      var outcome: Option<map<string, string>> := None;
      if subMap.Success? {
        voiceMap := MergeSubMap(voiceMap, subMap.value);
        outcome := Some(subMap.value);
      }
      assert (subMaps + [outcome])[..|subMaps|] == subMaps;
      subMaps := subMaps + [outcome];
    }
    assert voiceBundles[..|voiceBundles|] == voiceBundles;
  }

  /**
   * `run_export` after the asset directory is found: the outcome is `ExportOf`;
   * the voices directory is left as the voice loop leaves it, and untouched
   * when the speaker-name table fails.
   */
  method RunExport(dir: VoiceDirectory, listing: seq<Bundle>) returns (r: Result<ExportSummary, string>)
    modifies dir
    ensures r == ExportOf(listing, old(dir.files))
    ensures dir.files == if r.Success? then VoicePass(old(dir.files), VoiceBundles(listing)).0 else old(dir.files)
  {
    var speakerMap: map<string, string> := map[];
    var charNames := CharNamesBundle(listing);
    if charNames.Some? {
      if charNames.value.contents.None? {
        return Failure("bundle could not be loaded");
      }
      var mapping := BuildSpeakerMapping(charNames.value.contents.value);
      if mapping.Failure? {
        return Failure(mapping.error);
      }
      speakerMap := mapping.value;
    }
    var records := CollectRecords(TextBundles(listing), speakerMap);
    var voiceMap := ExportVoices(dir, VoiceBundles(listing));
    var joined, matched, missingVoice, missingSpeakerMap := JoinVoices(records, voiceMap);
    return Success(ExportSummary(joined, voiceMap, matched, missingVoice, missingSpeakerMap));
  }
}
