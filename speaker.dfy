/**
 * Speaker names: the name derived from a dialogue id (`_speaker_from_line_id`),
 * the ordered lookup keys for a name (`_normalize_speaker_key`) and the display
 * name resolved through the speaker mapping (the lookup inside `flush_current`).
 */
module Speaker {
  import opened Wrappers
  import opened Text

  predicate IsAsciiLetter(c: char) { 'A' <= c <= 'Z' || 'a' <= c <= 'z' }

  predicate IsDigit(c: char) { '0' <= c <= '9' }

  predicate IsWordChar(c: char) { IsAsciiLetter(c) || IsDigit(c) || c == '_' }

  /**
   * `p` is what group 1 of `^([A-Za-z][A-Za-z0-9_]*?)(\d+)?$` can capture in a
   * match against `tail`: a prefix starting with a letter, made of word
   * characters, followed by nothing but digits up to the end.
   */
  ghost predicate GroupOne(tail: string, p: string) {
    && 0 < |p| <= |tail|
    && tail[..|p|] == p
    && IsAsciiLetter(p[0])
    && (forall j :: 0 <= j < |p| ==> IsWordChar(p[j]))
    && (forall j :: |p| <= j < |tail| ==> IsDigit(tail[j]))
  }

  /** `s` without its maximal run of trailing digits. */
  function DropTrailingDigits(s: string): (r: string)
    ensures r <= s
    ensures forall j :: |r| <= j < |s| ==> IsDigit(s[j])
    ensures r == [] || !IsDigit(r[|r| - 1])
  {
    if |s| > 0 && IsDigit(s[|s| - 1]) then DropTrailingDigits(s[..|s| - 1]) else s
  }

  /** `s` is a letter followed by letters, digits and underscores (`[A-Za-z][A-Za-z0-9_]*`). */
  predicate IsWord(s: string) {
    |s| > 0 && IsAsciiLetter(s[0]) && forall j :: 0 <= j < |s| ==> IsWordChar(s[j])
  }

  /**
   * `_speaker_from_line_id`: "" without an underscore; otherwise the text after
   * the first underscore, without its trailing digits when that text is a
   * letter followed by word characters, and unchanged when it is not.
   */
  function SpeakerFromLineId(lineId: string): string {
    match IndexOf(lineId, '_')
    case None => ""
    case Some(i) =>
      var tail := lineId[i + 1..];
      if IsWord(tail) then DropTrailingDigits(tail)
      else tail
  }

  /** A dialogue id without an underscore names no speaker. */
  lemma SpeakerWithoutUnderscore(lineId: string)
    requires '_' !in lineId
    ensures SpeakerFromLineId(lineId) == ""
  {
  }

  /**
   * With `tail` the text after the first underscore (at `i`), the derived
   * speaker is what the regular expression's lazy group 1 captures: the
   * shortest capture that lets the whole tail match; and it is the whole tail
   * when the expression does not match.
   */
  lemma SpeakerFromLineIdIsRegexGroup(lineId: string, i: nat, tail: string)
    requires i < |lineId| && lineId[i] == '_' && '_' !in lineId[..i]
    requires tail == lineId[i + 1..]
    ensures (exists p :: GroupOne(tail, p)) ==>
      && GroupOne(tail, SpeakerFromLineId(lineId))
      && forall p :: GroupOne(tail, p) ==> |SpeakerFromLineId(lineId)| <= |p|
    ensures !(exists p :: GroupOne(tail, p)) ==> SpeakerFromLineId(lineId) == tail
  {
    IndexOfFirst(lineId, '_', i);
    var r := SpeakerFromLineId(lineId);
    var wordy := IsWord(tail);
    forall p | GroupOne(tail, p) ensures wordy {
      assert tail[0] == p[0];
      forall j | 0 <= j < |tail| ensures IsWordChar(tail[j]) {
        if j < |p| {
          assert tail[j] == p[j];
        }
      }
    }
    if wordy {
      assert r == DropTrailingDigits(tail);
      assert r != [] by {
        assert !IsDigit(tail[0]);
      }
      assert GroupOne(tail, r);
      forall p | GroupOne(tail, p) ensures |r| <= |p| {
        assert tail[|r| - 1] == r[|r| - 1];
        assert !IsDigit(tail[|r| - 1]);
      }
    }
  }

  const CreaturePrefix: string := "Creature"

  /** The candidate list `_normalize_speaker_key` builds before its de-duplication loop. */
  function SpeakerKeyCandidates(name: string): seq<string> {
    [name]
    + (if StartsWith(name, CreaturePrefix) && |name| > |CreaturePrefix| then [name[|CreaturePrefix|..]] else [])
    + [Strip(name)]
  }

  /** The de-duplication loop from `seen` onwards: non-empty entries not met before, in order. */
  function DedupNonEmpty(xs: seq<string>, seen: set<string>): seq<string> {
    if |xs| == 0 then []
    else if xs[0] != "" && xs[0] !in seen then [xs[0]] + DedupNonEmpty(xs[1..], seen + {xs[0]})
    else DedupNonEmpty(xs[1..], seen)
  }

  /** What `_normalize_speaker_key(name)` returns. */
  function NormalizedKeys(name: string): seq<string> {
    DedupNonEmpty(SpeakerKeyCandidates(name), {})
  }

  /** The de-duplicated list holds exactly the non-empty unseen entries, each once. */
  lemma {:induction false} DedupNonEmptyShape(xs: seq<string>, seen: set<string>)
    ensures forall x :: x in DedupNonEmpty(xs, seen) <==> x in xs && x != "" && x !in seen
    ensures forall i, j :: 0 <= i < j < |DedupNonEmpty(xs, seen)| ==>
      DedupNonEmpty(xs, seen)[i] != DedupNonEmpty(xs, seen)[j]
  {
    if |xs| > 0 {
      if xs[0] != "" && xs[0] !in seen {
        DedupNonEmptyShape(xs[1..], seen + {xs[0]});
        var r := DedupNonEmpty(xs, seen);
        forall i, j | 0 <= i < j < |r| ensures r[i] != r[j] {
          if i == 0 {
            assert r[j] in DedupNonEmpty(xs[1..], seen + {xs[0]});
          } else {
            assert r[i] == DedupNonEmpty(xs[1..], seen + {xs[0]})[i - 1];
            assert r[j] == DedupNonEmpty(xs[1..], seen + {xs[0]})[j - 1];
          }
        }
        assert xs == [xs[0]] + xs[1..];
      } else {
        DedupNonEmptyShape(xs[1..], seen);
        assert xs == [xs[0]] + xs[1..];
      }
    }
  }

  /** The keys are the non-empty candidates, each once. */
  lemma NormalizedKeysShape(name: string)
    ensures forall x :: x in NormalizedKeys(name) <==> x in SpeakerKeyCandidates(name) && x != ""
    ensures forall i, j :: 0 <= i < j < |NormalizedKeys(name)| ==> NormalizedKeys(name)[i] != NormalizedKeys(name)[j]
  {
    DedupNonEmptyShape(SpeakerKeyCandidates(name), {});
  }

  /** `_normalize_speaker_key`: a loop over the candidates with a `seen` set. */
  method NormalizeSpeakerKey(name: string) returns (keys: seq<string>)
    ensures keys == NormalizedKeys(name)
    ensures forall x :: x in keys <==> x in SpeakerKeyCandidates(name) && x != ""
    ensures forall i, j :: 0 <= i < j < |keys| ==> keys[i] != keys[j]
  {
    var candidates := SpeakerKeyCandidates(name);
    keys := [];
    var seen: set<string> := {};
    for i := 0 to |candidates|
      invariant keys + DedupNonEmpty(candidates[i..], seen) == DedupNonEmpty(candidates, {})
      invariant forall x :: x in seen <==> x in keys
    {
      var x := candidates[i];
      assert candidates[i..][1..] == candidates[i + 1..];
      assert DedupNonEmpty(candidates[i..], seen) ==
        if x != "" && x !in seen then [x] + DedupNonEmpty(candidates[i + 1..], seen + {x})
        else DedupNonEmpty(candidates[i + 1..], seen);
      if x != "" && x !in seen {
        seen := seen + {x};
        keys := keys + [x];
      }
    }
    assert candidates[|candidates|..] == [];
    NormalizedKeysShape(name);
  }

  /** The value of the first key in `keys` that `m` maps (the loop that breaks on a hit). */
  function FirstMapped(keys: seq<string>, m: map<string, string>): Option<string> {
    if |keys| == 0 then None
    else if keys[0] in m then Some(m[keys[0]])
    else FirstMapped(keys[1..], m)
  }

  /** `speaker_zh` for a resolved `speaker_ja`: the mapped value, or `speaker_ja` when that is empty or absent. */
  function SpeakerZh(speakerJa: string, m: map<string, string>): string {
    var found := match FirstMapped(NormalizedKeys(speakerJa), m) case Some(v) => v case None => "";
    if found == "" then speakerJa else found
  }

  /** The lookup loop inside `flush_current`. */
  method ResolveSpeakerZh(speakerJa: string, m: map<string, string>) returns (speakerZh: string)
    ensures speakerZh == SpeakerZh(speakerJa, m)
  {
    var keys := NormalizeSpeakerKey(speakerJa);
    speakerZh := "";
    var i := 0;
    while i < |keys|
      invariant 0 <= i <= |keys|
      invariant speakerZh == ""
      invariant FirstMapped(keys[i..], m) == FirstMapped(keys, m)
    {
      assert keys[i..][1..] == keys[i + 1..];
      if keys[i] in m {
        speakerZh := m[keys[i]];
        break;
      }
      i := i + 1;
    }
    if speakerZh == "" {
      speakerZh := speakerJa;
    }
  }

  /** The first non-empty entry of `keys` that `m` maps. */
  function FirstNonEmptyMapped(keys: seq<string>, m: map<string, string>): Option<string> {
    if |keys| == 0 then None
    else if keys[0] != "" && keys[0] in m then Some(m[keys[0]])
    else FirstNonEmptyMapped(keys[1..], m)
  }

  /** Dropping repeated entries does not change which key is found first. */
  lemma {:induction false} LookupThroughDedup(xs: seq<string>, seen: set<string>, m: map<string, string>)
    requires forall s :: s in seen ==> s !in m
    ensures FirstMapped(DedupNonEmpty(xs, seen), m) == FirstNonEmptyMapped(xs, m)
  {
    if |xs| > 0 {
      if xs[0] != "" && xs[0] !in seen {
        if xs[0] !in m {
          LookupThroughDedup(xs[1..], seen + {xs[0]}, m);
        }
      } else {
        LookupThroughDedup(xs[1..], seen, m);
      }
    }
  }

  /**
   * `speaker_zh` is the value of the first candidate, in the order: the name,
   * the name without a `Creature` prefix, the stripped name, that is non-empty
   * and mapped (when that value is non-empty); otherwise it is `speaker_ja`.
   */
  lemma SpeakerZhByCandidates(speakerJa: string, m: map<string, string>)
    ensures var hit := FirstNonEmptyMapped(SpeakerKeyCandidates(speakerJa), m);
      SpeakerZh(speakerJa, m) == if hit.Some? && hit.value != "" then hit.value else speakerJa
  {
    LookupThroughDedup(SpeakerKeyCandidates(speakerJa), {}, m);
  }

  /** Example: `CreatureLeia` is displayed through the mapping entry for `Leia`. */
  lemma CreaturePrefixFallsBackToName()
    ensures SpeakerZh("CreatureLeia", map["Leia" := "莱雅"]) == "莱雅"
  {
    var name := "CreatureLeia";
    assert StartsWith(name, CreaturePrefix);
    assert name[|CreaturePrefix|..] == "Leia";
    StripOfStripped(name);
    SpeakerZhByCandidates(name, map["Leia" := "莱雅"]);
  }

  /** Dropping the trailing digits of a name followed by digits gives back the name. */
  lemma {:induction false} DropDigitsSuffix(name: string, digits: string)
    requires name == [] || !IsDigit(name[|name| - 1])
    requires forall j :: 0 <= j < |digits| ==> IsDigit(digits[j])
    ensures DropTrailingDigits(name + digits) == name
  {
    if |digits| == 0 {
      assert name + digits == name;
    } else {
      var shorter := digits[..|digits| - 1];
      assert (name + digits)[..|name + digits| - 1] == name + shorter;
      DropDigitsSuffix(name, shorter);
    }
  }

  /**
   * An id `<scene>_<Name><number>` names the speaker `<Name>` when the scene
   * has no underscore and the name is a word not ending in a digit
   * (`Leia001` gives `Leia`, `EmaFake001` gives `EmaFake`).
   */
  lemma SpeakerOfNumberedName(scene: string, name: string, number: string)
    requires '_' !in scene
    requires IsWord(name) && !IsDigit(name[|name| - 1])
    requires forall j :: 0 <= j < |number| ==> IsDigit(number[j])
    ensures SpeakerFromLineId(scene + "_" + name + number) == name
  {
    var id := scene + "_" + name + number;
    assert id[..|scene|] == scene && id[|scene|] == '_';
    IndexOfFirst(id, '_', |scene|);
    var tail := name + number;
    assert id[|scene| + 1..] == tail;
    assert tail[0] == name[0];
    forall j | 0 <= j < |tail| ensures IsWordChar(tail[j]) {
      if j < |name| {
        assert tail[j] == name[j];
      } else {
        assert tail[j] == number[j - |name|];
      }
    }
    DropDigitsSuffix(name, number);
  }

  /** Example: the dialogue id `0101Trial00_Leia001` names the speaker `Leia`. */
  lemma LeiaFromLineId()
    ensures SpeakerFromLineId("0101Trial00_Leia001") == "Leia"
  {
    assert "0101Trial00_Leia001" == "0101Trial00" + "_" + "Leia" + "001";
    assert IsWord("Leia") by {
      assert "Leia" == ['L', 'e', 'i', 'a'];
    }
    SpeakerOfNumberedName("0101Trial00", "Leia", "001");
  }
}
