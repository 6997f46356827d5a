/**
 * `build_speaker_mapping`: the speaker-name table read from the first text
 * asset named `CharacterNames`, one `KEY:VALUE` entry per line.
 */
module SpeakerMapping {
  import opened Wrappers
  import opened Text
  import opened Assets

  const CharacterNamesAsset: string := "CharacterNames"

  /**
   * One line of the table: after stripping the line, the text before its first
   * colon is the key and the rest the value, both stripped; the entry is kept
   * only when both are non-empty.
   */
  function ParseMappingLine(raw: string): Option<(string, string)> {
    var line := Strip(raw);
    match IndexOf(line, ':')
    case None => None
    case Some(i) =>
      var k := Strip(line[..i]);
      var v := Strip(line[i + 1..]);
      if k != "" && v != "" then Some((k, v)) else None
  }

  /** A kept entry has a non-empty key without a colon and a non-empty value, neither padded with whitespace. */
  lemma MappingLineShape(raw: string)
    ensures var r := ParseMappingLine(raw);
      r.Some? ==> && r.value.0 != "" && r.value.1 != "" && ':' !in r.value.0
                  && Strip(r.value.0) == r.value.0 && Strip(r.value.1) == r.value.1
  {
    var line := Strip(raw);
    match IndexOf(line, ':')
    case None =>
    case Some(i) =>
      var k := Strip(line[..i]);
      var v := Strip(line[i + 1..]);
      StripKeepsOut(line[..i], ':');
      StripIdempotent(line[..i]);
      StripIdempotent(line[i + 1..]);
      assert ParseMappingLine(raw) == if k != "" && v != "" then Some((k, v)) else None;
      assert Strip(v) == v;
  }

  /** Writing an entry as `KEY:VALUE` and reading it back gives the entry. */
  lemma MappingLineRoundTrip(k: string, v: string)
    requires k != "" && v != "" && ':' !in k
    requires Strip(k) == k && Strip(v) == v
    ensures ParseMappingLine(k + ":" + v) == Some((k, v))
  {
    var line := k + ":" + v;
    assert line[0] == k[0] && line[|line| - 1] == v[|v| - 1];
    StripOfStripped(line);
    assert line[..|k|] == k && line[|k|] == ':';
    IndexOfFirst(line, ':', |k|);
    assert line[|k| + 1..] == v;
  }

  /** The parse of every line of the asset, in order. */
  function Entries(lines: seq<string>): (e: seq<Option<(string, string)>>)
    ensures |e| == |lines|
    ensures forall i :: 0 <= i < |lines| ==> e[i] == ParseMappingLine(lines[i])
  {
    if |lines| == 0 then [] else Entries(lines[..|lines| - 1]) + [ParseMappingLine(lines[|lines| - 1])]
  }

  /** The table built from the parsed lines in order: a later entry for a key replaces an earlier one. */
  function MappingFromEntries(entries: seq<Option<(string, string)>>): map<string, string> {
    if |entries| == 0 then map[]
    else
      var m := MappingFromEntries(entries[..|entries| - 1]);
      match entries[|entries| - 1]
      case Some((k, v)) => m[k := v]
      case None => m
  }

  /** The table the loop over the asset's lines builds. */
  function MappingFromLines(lines: seq<string>): map<string, string> {
    MappingFromEntries(Entries(lines))
  }

  /**
   * A key is in the table exactly when some entry defines it, and its value is
   * the one given by the LAST entry that defines it.
   */
  lemma MappingLastWins(entries: seq<Option<(string, string)>>)
    ensures forall k :: k in MappingFromEntries(entries) <==>
      exists i, v :: 0 <= i < |entries| && entries[i] == Some((k, v))
    ensures forall k :: k in MappingFromEntries(entries) ==>
      exists i :: (0 <= i < |entries| && entries[i] == Some((k, MappingFromEntries(entries)[k]))
        && (forall j :: i < j < |entries| ==> entries[j].None? || entries[j].value.0 != k))
  {
    MappingKeys(entries);
    MappingValues(entries);
  }

  /** A key is in the table exactly when some entry defines it. */
  lemma {:induction false} MappingKeys(entries: seq<Option<(string, string)>>)
    ensures forall k :: k in MappingFromEntries(entries) <==>
      exists i, v :: 0 <= i < |entries| && entries[i] == Some((k, v))
  {
    if |entries| > 0 {
      var init := entries[..|entries| - 1];
      MappingKeys(init);
      forall k ensures k in MappingFromEntries(entries) <==> exists i, v :: 0 <= i < |entries| && entries[i] == Some((k, v)) {
        if exists i, v :: 0 <= i < |entries| && entries[i] == Some((k, v)) {
          var i, v :| 0 <= i < |entries| && entries[i] == Some((k, v));
          if i < |entries| - 1 {
            assert init[i] == entries[i];
          }
        }
        if k in MappingFromEntries(init) {
          var i, v :| 0 <= i < |init| && init[i] == Some((k, v));
          assert entries[i] == init[i];
        }
      }
    }
  }

  /** The value of a key is the one of the last entry defining it. */
  lemma {:induction false} MappingValues(entries: seq<Option<(string, string)>>)
    ensures forall k :: k in MappingFromEntries(entries) ==>
      exists i :: (0 <= i < |entries| && entries[i] == Some((k, MappingFromEntries(entries)[k]))
        && (forall j :: i < j < |entries| ==> entries[j].None? || entries[j].value.0 != k))
  {
    if |entries| > 0 {
      var init := entries[..|entries| - 1];
      var last := entries[|entries| - 1];
      MappingValues(init);
      var m := MappingFromEntries(entries);
      forall k | k in m
        ensures exists i :: (0 <= i < |entries| && entries[i] == Some((k, m[k]))
          && (forall j :: i < j < |entries| ==> entries[j].None? || entries[j].value.0 != k))
      {
        if last.Some? && last.value.0 == k {
          assert entries[|entries| - 1] == Some((k, m[k]));
        } else {
          var i :| 0 <= i < |init| && init[i] == Some((k, MappingFromEntries(init)[k]))
            && (forall j :: i < j < |init| ==> init[j].None? || init[j].value.0 != k);
          assert entries[i] == init[i];
          forall j | i < j < |entries| ensures entries[j].None? || entries[j].value.0 != k {
            if j < |entries| - 1 {
              assert entries[j] == init[j];
            }
          }
        }
      }
    }
  }

  /** What `build_speaker_mapping` returns for a bundle's objects; `Failure` when reading a text asset raises first. */
  function SpeakerMappingOf(objects: seq<AssetObject>): Result<map<string, string>, string> {
    if |objects| == 0 then Success(map[])
    else match objects[0]
      case Unreadable(TextAssetKind) => Failure("TextAsset could not be read")
      case TextAsset(name, lines) =>
        if name == CharacterNamesAsset then Success(MappingFromLines(lines)) else SpeakerMappingOf(objects[1..])
      case _ => SpeakerMappingOf(objects[1..])
  }

  /** `obj` is read and passed over by the scan for `CharacterNames`. */
  predicate PassedOver(obj: AssetObject) {
    !(obj.Unreadable? && obj.kind == TextAssetKind) && !(obj.TextAsset? && obj.name == CharacterNamesAsset)
  }

  /**
   * Only the first `CharacterNames` text asset is read: whatever follows it
   * does not matter; without one the table is empty.
   */
  lemma {:induction false} FirstCharacterNamesOnly(before: seq<AssetObject>, lines: seq<string>, after: seq<AssetObject>)
    requires forall j :: 0 <= j < |before| ==> PassedOver(before[j])
    ensures SpeakerMappingOf(before + [TextAsset(CharacterNamesAsset, lines)] + after) == Success(MappingFromLines(lines))
    ensures SpeakerMappingOf(before) == Success(map[])
  {
    if |before| > 0 {
      assert (before + [TextAsset(CharacterNamesAsset, lines)] + after)[1..]
        == before[1..] + [TextAsset(CharacterNamesAsset, lines)] + after;
      FirstCharacterNamesOnly(before[1..], lines, after);
    }
  }

  /** The loop over the lines of the `CharacterNames` asset: `mapping[k] = v` for every kept entry. */
  method ParseCharacterNames(lines: seq<string>) returns (mapping: map<string, string>)
    ensures mapping == MappingFromLines(lines)
  {
    mapping := map[];
    for j := 0 to |lines|
      invariant mapping == MappingFromLines(lines[..j])
    {
      assert lines[..j + 1][..j] == lines[..j];
      assert Entries(lines[..j + 1]) == Entries(lines[..j]) + [ParseMappingLine(lines[j])];
      assert (Entries(lines[..j]) + [ParseMappingLine(lines[j])])[..j] == Entries(lines[..j]);
      match ParseMappingLine(lines[j]) {
        case Some((k, v)) => mapping := mapping[k := v];
        case None =>
      }
    }
    assert lines[..|lines|] == lines;
  }

  /** `build_speaker_mapping`: scan the objects, parse the first `CharacterNames` asset line by line, stop. */
  method BuildSpeakerMapping(objects: seq<AssetObject>) returns (r: Result<map<string, string>, string>)
    ensures r == SpeakerMappingOf(objects)
  {
    var i := 0;
    while i < |objects|
      invariant 0 <= i <= |objects|
      invariant SpeakerMappingOf(objects[i..]) == SpeakerMappingOf(objects)
    {
      assert objects[i..][1..] == objects[i + 1..];
      var obj := objects[i];
      if obj.Unreadable? && obj.kind == TextAssetKind {
        return Failure("TextAsset could not be read");
      }
      if obj.TextAsset? && obj.name == CharacterNamesAsset {
        var mapping := ParseCharacterNames(obj.lines);
        return Success(mapping);
      }
      i := i + 1;
    }
    return Success(map[]);
  }
}
