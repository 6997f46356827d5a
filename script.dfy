/**
 * The dialogue-script parser of `parse_localized_script_bundle`: a line-by-line
 * state machine over the lines of each text asset.
 *
 * The model has three layers. `Classify` says what one line is (marker,
 * directive, Japanese comment, Chinese text). `Step` and `Emitted` are the
 * state machine over classified lines: the state is the parser's closure
 * variables (open id, inline speaker, two text buffers), and every flush that
 * emits hands over the state it builds its record from. `RecordOf` turns such
 * a state into the `DialogueRecord` `flush_current` appends. The `ScriptParser`
 * class holds the same variables as fields and is proved against these
 * functions; the lemmas state what the machine computes block by block.
 */
module Script {
  import opened Wrappers
  import opened Text
  import opened Assets
  import opened Speaker

  /** One localized line of dialogue (the `DialogueRecord` dataclass). */
  datatype DialogueRecord = DialogueRecord(
    lineId: string,
    speakerJa: string,
    speakerZh: string,
    lineJa: string,
    lineZh: string,
    voiceFile: string)

  const MarkerPrefix: string := "# "
  const DirectivePrefix: string := "; > "
  const CommentPrefix: string := ";"
  const LanguageTag: string := "日本語 <ja>"

  /** The role of one script line. `None` marks a line the buffers do not take. */
  datatype LineKind =
    | Marker(id: string)
    | Directive(speaker: Option<string>)
    | Japanese(text: Option<string>)
    | Chinese(text: Option<string>)

  /**
   * The speaker an inline directive `; > NAME: ...` names: the stripped text
   * before the first colon of the stripped remainder, when that is non-empty
   * and does not start with `@`.
   */
  function DirectiveSpeaker(line: string): (r: Option<string>)
    requires StartsWith(line, DirectivePrefix)
    ensures r.Some? ==> r.value != "" && r.value[0] != '@'
  {
    var text := Strip(line[|DirectivePrefix|..]);
    match IndexOf(text, ':')
    case None => None
    case Some(i) =>
      var name := Strip(text[..i]);
      if name != "" && name[0] != '@' then Some(name) else None
  }

  /** The routing rule, tested in the loop's order: marker, directive, Japanese comment, Chinese text. */
  function Classify(line: string): LineKind {
    if StartsWith(line, MarkerPrefix) then Marker(Strip(line[|MarkerPrefix|..]))
    else if StartsWith(line, DirectivePrefix) then Directive(DirectiveSpeaker(line))
    else if StartsWith(line, CommentPrefix) then
      var ja := LStrip(line[|CommentPrefix|..]);
      Japanese(if ja != "" && !StartsWith(ja, LanguageTag) then Some(ja) else None)
    else
      Chinese(if Strip(line) != "" then Some(RStrip(line)) else None)
  }

  /** The classification of every line of an asset, in order. */
  function Kinds(lines: seq<string>): seq<LineKind> {
    seq(|lines|, i requires 0 <= i < |lines| => Classify(lines[i]))
  }

  /**
   * `; > NAME: REST` names the speaker NAME when NAME is stripped, non-empty,
   * colon-free and does not start with `@`, whatever REST holds.
   */
  lemma DirectiveNamesSpeaker(name: string, rest: string)
    requires name != "" && Strip(name) == name && ':' !in name && name[0] != '@'
    ensures Classify(DirectivePrefix + name + ":" + rest) == Directive(Some(name))
  {
    var line := DirectivePrefix + name + ":" + rest;
    var text := (name + ":") + RStrip(rest);
    assert !StartsWith(line, MarkerPrefix) by {
      assert line[0] == ';';
    }
    assert StartsWith(line, DirectivePrefix) by {
      assert line[..|DirectivePrefix|] == DirectivePrefix;
    }
    assert Strip(line[|DirectivePrefix|..]) == text by {
      var after := line[|DirectivePrefix|..];
      assert after == (name + ":") + rest;
      assert LStrip(after) == after by {
        assert after[0] == name[0];
      }
      RStripAfter(name + ":", rest);
    }
    assert IndexOf(text, ':') == Some(|name|) by {
      assert text[..|name|] == name && text[|name|] == ':';
      IndexOfFirst(text, ':', |name|);
    }
    assert text[..|name|] == name;
  }

  /** A `; > ` line only ever sets the speaker: neither text buffer takes it, and it flushes nothing. */
  lemma DirectiveNeverBuffered(s: ParseState, line: string)
    requires StartsWith(line, DirectivePrefix)
    ensures Step(s, Classify(line)).jaLines == s.jaLines && Step(s, Classify(line)).zhLines == s.zhLines
    ensures Step(s, Classify(line)).openId == s.openId && StepOutput(s, Classify(line)) == []
  {
    assert line[0] == DirectivePrefix[0];
  }

  /**
   * Inside an open record, a `;` comment that is not a directive adds its text
   * after the `;`, left-stripped, to the Japanese buffer exactly when that text
   * is non-empty and is not the `日本語 <ja>` tag line; nothing else changes.
   */
  lemma JapaneseRoute(s: ParseState, line: string)
    requires s.openId.Some?
    requires StartsWith(line, CommentPrefix) && !StartsWith(line, DirectivePrefix)
    ensures var ja := LStrip(line[1..]);
      Step(s, Classify(line)).jaLines ==
        (if ja != "" && !StartsWith(ja, LanguageTag) then s.jaLines + [ja] else s.jaLines)
    ensures Step(s, Classify(line)).zhLines == s.zhLines && Step(s, Classify(line)).speakerJa == s.speakerJa
    ensures Step(s, Classify(line)).openId == s.openId && StepOutput(s, Classify(line)) == []
  {
    assert !StartsWith(line, MarkerPrefix) by {
      assert line[0] == CommentPrefix[0];
    }
  }

  /**
   * Inside an open record, a line that is neither a marker nor a `;` comment
   * adds itself, right-stripped, to the Chinese buffer exactly when it is not
   * blank; nothing else changes.
   */
  lemma ChineseRoute(s: ParseState, line: string)
    requires s.openId.Some?
    requires !StartsWith(line, MarkerPrefix) && !StartsWith(line, CommentPrefix)
    ensures Step(s, Classify(line)).zhLines ==
      (if Strip(line) != "" then s.zhLines + [RStrip(line)] else s.zhLines)
    ensures Step(s, Classify(line)).jaLines == s.jaLines && Step(s, Classify(line)).speakerJa == s.speakerJa
    ensures Step(s, Classify(line)).openId == s.openId && StepOutput(s, Classify(line)) == []
  {
    assert !StartsWith(line, DirectivePrefix) by {
      if |line| >= |DirectivePrefix| {
        assert line[..1] == line[..|DirectivePrefix|][..1];
      }
    }
    assert Classify(line) == Chinese(if Strip(line) != "" then Some(RStrip(line)) else None);
  }

  /** The directive form the scripts use: `; > Leia: |#0101Trial00_Leia001|` makes `Leia` the speaker. */
  lemma LeiaDirective()
    ensures Classify(DirectivePrefix + "Leia" + ":" + " |#0101Trial00_Leia001|") == Directive(Some("Leia"))
  {
    StripOfStripped("Leia");
    DirectiveNamesSpeaker("Leia", " |#0101Trial00_Leia001|");
  }

  /** The parser's variables: `current_line_id` (None, "" or an id), `current_speaker_ja`, `ja_lines`, `zh_lines`. */
  datatype ParseState = ParseState(openId: Option<string>, speakerJa: string, jaLines: seq<string>, zhLines: seq<string>)

  /** The state at the start of every text asset and after every flush that emits. */
  const Idle: ParseState := ParseState(None, "", [], [])

  /** A flush emits a record: the open id is set and non-empty. */
  predicate HasOpenRecord(s: ParseState) {
    s.openId.Some? && s.openId.value != ""
  }

  /** The states `flush_current` builds a record from: the open one, or none when it returns early. */
  function Flushed(s: ParseState): seq<ParseState> {
    if HasOpenRecord(s) then [s] else []
  }

  /** The state after `flush_current`: reset when it emitted, untouched when it returned early. */
  function AfterFlush(s: ParseState): ParseState {
    if HasOpenRecord(s) then Idle else s
  }

  /**
   * A `# REST` line flushes the record that is open (if any) and opens a fresh
   * one for the stripped REST, with no speaker and empty buffers.
   */
  lemma MarkerLine(s: ParseState, rest: string)
    requires s == Idle || HasOpenRecord(s)
    ensures Classify(MarkerPrefix + rest) == Marker(Strip(rest))
    ensures StepOutput(s, Classify(MarkerPrefix + rest)) == Flushed(s)
    ensures Step(s, Classify(MarkerPrefix + rest)) == Idle.(openId := Some(Strip(rest)))
  {
    assert (MarkerPrefix + rest)[..|MarkerPrefix|] == MarkerPrefix;
    assert (MarkerPrefix + rest)[|MarkerPrefix|..] == rest;
  }

  /** A second flush without a new marker emits nothing and leaves the state as the first flush left it. */
  lemma SecondFlushEmitsNothing(s: ParseState)
    ensures Flushed(AfterFlush(s)) == [] && AfterFlush(AfterFlush(s)) == AfterFlush(s)
  {
  }

  /** The state after one iteration of the line loop, on a line of the given kind. */
  function Step(s: ParseState, kind: LineKind): ParseState {
    if kind.Marker? then AfterFlush(s).(openId := Some(kind.id))
    else if s.openId.None? then s
    else match kind
      case Directive(Some(name)) => s.(speakerJa := name)
      case Japanese(Some(text)) => s.(jaLines := s.jaLines + [text])
      case Chinese(Some(text)) => s.(zhLines := s.zhLines + [text])
      case _ => s
  }

  /** The states one iteration of the line loop flushes. */
  function StepOutput(s: ParseState, kind: LineKind): seq<ParseState> {
    if kind.Marker? then Flushed(s) else []
  }

  /** The states flushed from state `s` over classified lines, including the final flush at the end of the asset. */
  function Emitted(s: ParseState, kinds: seq<LineKind>): (flushed: seq<ParseState>)
    ensures forall t :: t in flushed ==> HasOpenRecord(t)
    decreases |kinds|
  {
    if |kinds| == 0 then Flushed(s)
    else StepOutput(s, kinds[0]) + Emitted(Step(s, kinds[0]), kinds[1..])
  }

  /** The state reached from `s` over classified lines, before the final flush. */
  function Run(s: ParseState, kinds: seq<LineKind>): ParseState
    decreases |kinds|
  {
    if |kinds| == 0 then s else Run(Step(s, kinds[0]), kinds[1..])
  }

  /**
   * The record `flush_current` builds from an open state: the inline speaker,
   * or the one derived from the id; its Chinese name; the non-empty buffered
   * lines joined by newlines and stripped; no voice file yet.
   */
  function RecordOf(s: ParseState, speakerMap: map<string, string>): DialogueRecord
    requires HasOpenRecord(s)
  {
    var lineId := s.openId.value;
    var speakerJa := if s.speakerJa != "" then s.speakerJa else SpeakerFromLineId(lineId);
    DialogueRecord(lineId, speakerJa, SpeakerZh(speakerJa, speakerMap),
      Strip(JoinNonEmpty(s.jaLines)), Strip(JoinNonEmpty(s.zhLines)), "")
  }

  /** The records built from flushed states, in order. */
  function Assemble(flushed: seq<ParseState>, speakerMap: map<string, string>): (records: seq<DialogueRecord>)
    requires forall t :: t in flushed ==> HasOpenRecord(t)
    ensures |records| == |flushed|
  {
    if |flushed| == 0 then [] else [RecordOf(flushed[0], speakerMap)] + Assemble(flushed[1..], speakerMap)
  }

  /** Building records distributes over concatenation of the flushed states. */
  lemma {:induction false} AssembleAppend(a: seq<ParseState>, b: seq<ParseState>, speakerMap: map<string, string>)
    requires forall t :: t in a ==> HasOpenRecord(t)
    requires forall t :: t in b ==> HasOpenRecord(t)
    ensures Assemble(a + b, speakerMap) == Assemble(a, speakerMap) + Assemble(b, speakerMap)
    decreases |a|
  {
    if |a| == 0 {
      assert a + b == b;
    } else {
      assert (a + b)[1..] == a[1..] + b;
      AssembleAppend(a[1..], b, speakerMap);
    }
  }

  /** The records one text asset contributes. */
  function AssetRecords(lines: seq<string>, speakerMap: map<string, string>): seq<DialogueRecord> {
    Assemble(Emitted(Idle, Kinds(lines)), speakerMap)
  }

  /**
   * Every record built has a non-empty id, no voice file yet, and the Chinese
   * speaker name the lookup gives for its Japanese one.
   */
  lemma {:induction false} AssembledWellFormed(flushed: seq<ParseState>, speakerMap: map<string, string>)
    requires forall t :: t in flushed ==> HasOpenRecord(t)
    ensures forall r :: r in Assemble(flushed, speakerMap) ==>
      r.lineId != "" && r.voiceFile == "" && r.speakerZh == SpeakerZh(r.speakerJa, speakerMap)
    decreases |flushed|
  {
    if |flushed| > 0 {
      AssembledWellFormed(flushed[1..], speakerMap);
      var first := RecordOf(flushed[0], speakerMap);
      assert first.lineId != "" && first.voiceFile == "" && first.speakerZh == SpeakerZh(first.speakerJa, speakerMap);
      assert Assemble(flushed, speakerMap) == [first] + Assemble(flushed[1..], speakerMap);
    }
  }

  /** None of the lines is a `# ` marker. */
  predicate NoMarkers(kinds: seq<LineKind>) {
    forall j :: 0 <= j < |kinds| ==> !kinds[j].Marker?
  }

  /** Lines before the first marker of an asset are ignored. */
  lemma {:induction false} PreambleIgnored(preamble: seq<LineKind>, rest: seq<LineKind>)
    requires NoMarkers(preamble)
    ensures Emitted(Idle, preamble + rest) == Emitted(Idle, rest)
    decreases |preamble|
  {
    if |preamble| > 0 {
      assert (preamble + rest)[0] == preamble[0];
      assert (preamble + rest)[1..] == preamble[1..] + rest;
      assert Step(Idle, preamble[0]) == Idle;
      PreambleIgnored(preamble[1..], rest);
    } else {
      assert preamble + rest == rest;
    }
  }

  /** The inline speaker after a line: the name an accepted directive gives, else unchanged. */
  function SpeakerStep(speaker: string, kind: LineKind): string {
    match kind case Directive(Some(name)) => name case _ => speaker
  }

  /** The Japanese text a line adds to the buffer: one entry or none. */
  function JaOf(kind: LineKind): seq<string> {
    match kind case Japanese(Some(text)) => [text] case _ => []
  }

  /** The Chinese text a line adds to the buffer: one entry or none. */
  function ZhOf(kind: LineKind): seq<string> {
    match kind case Chinese(Some(text)) => [text] case _ => []
  }

  /** The inline speaker after the lines of `body`: the name of the last accepted directive, else `speaker`. */
  function SpeakerAfter(speaker: string, body: seq<LineKind>): string
    decreases |body|
  {
    if |body| == 0 then speaker else SpeakerAfter(SpeakerStep(speaker, body[0]), body[1..])
  }

  /** The accepted Japanese comment texts of a block's body, in order. */
  function BlockJa(body: seq<LineKind>): seq<string> {
    if |body| == 0 then [] else JaOf(body[0]) + BlockJa(body[1..])
  }

  /** The accepted Chinese text lines of a block's body, in order. */
  function BlockZh(body: seq<LineKind>): seq<string> {
    if |body| == 0 then [] else ZhOf(body[0]) + BlockZh(body[1..])
  }

  /** The state after an open record has taken in the lines of `body`. */
  function Absorb(s: ParseState, body: seq<LineKind>): ParseState {
    s.(speakerJa := SpeakerAfter(s.speakerJa, body),
       jaLines := s.jaLines + BlockJa(body),
       zhLines := s.zhLines + BlockZh(body))
  }

  /** An open record takes in a non-marker line: it emits nothing and only updates the speaker or a buffer. */
  lemma StepInBody(s: ParseState, kind: LineKind)
    requires s.openId.Some? && !kind.Marker?
    ensures StepOutput(s, kind) == []
    ensures Step(s, kind) == s.(speakerJa := SpeakerStep(s.speakerJa, kind),
                                jaLines := s.jaLines + JaOf(kind),
                                zhLines := s.zhLines + ZhOf(kind))
  {
    assert s.jaLines + [] == s.jaLines && s.zhLines + [] == s.zhLines;
    match kind
    case Directive(Some(name)) =>
    case Japanese(Some(text)) =>
    case Chinese(Some(text)) =>
    case _ =>
  }

  /** Emitting over a line followed by more lines: that line's step, then the rest. */
  lemma EmittedCons(s: ParseState, kind: LineKind, kinds: seq<LineKind>)
    ensures Emitted(s, [kind] + kinds) == StepOutput(s, kind) + Emitted(Step(s, kind), kinds)
  {
    assert ([kind] + kinds)[0] == kind;
    assert ([kind] + kinds)[1..] == kinds;
  }

  /** Absorbing a non-empty body is absorbing its first line, then the others. */
  lemma AbsorbCons(s: ParseState, body: seq<LineKind>)
    requires s.openId.Some? && |body| > 0 && !body[0].Marker?
    ensures Absorb(Step(s, body[0]), body[1..]) == Absorb(s, body)
  {
    var kind, more := body[0], body[1..];
    StepInBody(s, kind);
    assert BlockJa(body) == JaOf(kind) + BlockJa(more);
    assert BlockZh(body) == ZhOf(kind) + BlockZh(more);
    assert SpeakerAfter(s.speakerJa, body) == SpeakerAfter(SpeakerStep(s.speakerJa, kind), more);
    SeqAssoc(s.jaLines, JaOf(kind), BlockJa(more));
    SeqAssoc(s.zhLines, ZhOf(kind), BlockZh(more));
  }

  /** Concatenation of text lists is associative. */
  lemma SeqAssoc(a: seq<string>, b: seq<string>, c: seq<string>)
    ensures a + b + c == a + (b + c)
  {
  }

  /** While a record is open, marker-free lines emit nothing and only fill the speaker and the buffers. */
  lemma {:induction false} BodyAccumulates(s: ParseState, body: seq<LineKind>, rest: seq<LineKind>)
    requires s.openId.Some? && NoMarkers(body)
    ensures Emitted(s, body + rest) == Emitted(Absorb(s, body), rest)
    decreases |body|
  {
    if |body| == 0 {
      assert body + rest == rest;
      assert s.jaLines + [] == s.jaLines && s.zhLines + [] == s.zhLines;
      assert Absorb(s, body) == s;
    } else {
      var kind := body[0];
      var next := Step(s, kind);
      assert Emitted(s, body + rest) == Emitted(next, body[1..] + rest) by {
        assert body + rest == [kind] + (body[1..] + rest);
        EmittedCons(s, kind, body[1..] + rest);
        StepInBody(s, kind);
      }
      BodyAccumulates(next, body[1..], rest);
      AbsorbCons(s, body);
    }
  }

  /** At a marker or at the end of the asset, an open record is emitted and the machine starts afresh. */
  lemma FlushAtBoundary(s: ParseState, rest: seq<LineKind>)
    requires s == Idle || HasOpenRecord(s)
    requires rest == [] || rest[0].Marker?
    ensures Emitted(s, rest) == Flushed(s) + Emitted(Idle, rest)
  {
    if rest != [] {
      assert Step(s, rest[0]) == Step(Idle, rest[0]);
    }
  }

  /** The state a block `# ID` with the lines `body` flushes. */
  function BlockState(lineId: string, body: seq<LineKind>): ParseState {
    ParseState(Some(lineId), SpeakerAfter("", body), BlockJa(body), BlockZh(body))
  }

  /** A freshly opened record that takes in `body` holds exactly what the block state says. */
  lemma AbsorbFromOpen(lineId: string, body: seq<LineKind>)
    ensures Absorb(Idle.(openId := Some(lineId)), body) == BlockState(lineId, body)
  {
    assert [] + BlockJa(body) == BlockJa(body) && [] + BlockZh(body) == BlockZh(body);
  }

  /** After a blank marker's body and the next marker's body, the buffers hold both bodies' lines. */
  lemma CarriedThenNext(body: seq<LineKind>, lineId: string, next: seq<LineKind>)
    ensures Absorb(Absorb(Idle.(openId := Some("")), body).(openId := Some(lineId)), next)
      == ParseState(Some(lineId), SpeakerAfter(SpeakerAfter("", body), next),
                    BlockJa(body) + BlockJa(next), BlockZh(body) + BlockZh(next))
  {
    assert [] + BlockJa(body) == BlockJa(body) && [] + BlockZh(body) == BlockZh(body);
  }

  /**
   * A block `# ID` (non-empty ID) followed by marker-free lines, up to the next
   * marker or the end of the asset, emits exactly one record, built from the
   * id, the last directive speaker, and the accepted Japanese and Chinese
   * lines in order. The record open before the block, if any, is emitted first.
   */
  lemma BlockYieldsRecord(s: ParseState, lineId: string, body: seq<LineKind>, rest: seq<LineKind>)
    requires s == Idle || HasOpenRecord(s)
    requires lineId != "" && NoMarkers(body)
    requires rest == [] || rest[0].Marker?
    ensures Emitted(s, [Marker(lineId)] + body + rest) == Flushed(s) + [BlockState(lineId, body)] + Emitted(Idle, rest)
  {
    var open := Idle.(openId := Some(lineId));
    calc {
      Emitted(s, [Marker(lineId)] + body + rest);
      { assert [Marker(lineId)] + body + rest == [Marker(lineId)] + (body + rest); }
      Emitted(s, [Marker(lineId)] + (body + rest));
      { EmittedCons(s, Marker(lineId), body + rest); assert Step(s, Marker(lineId)) == open; }
      Flushed(s) + Emitted(open, body + rest);
      { BodyAccumulates(open, body, rest); AbsorbFromOpen(lineId, body); }
      Flushed(s) + Emitted(BlockState(lineId, body), rest);
      { FlushAtBoundary(BlockState(lineId, body), rest); }
      Flushed(s) + ([BlockState(lineId, body)] + Emitted(Idle, rest));
    }
  }

  /**
   * A marker whose id strips to "" opens no record, yet its flush returns
   * before resetting: the speaker and text lines under it are carried into the
   * record of the next marker.
   */
  lemma BlankMarkerCarriesOver(body: seq<LineKind>, lineId: string, next: seq<LineKind>, rest: seq<LineKind>)
    requires NoMarkers(body) && NoMarkers(next)
    requires lineId != ""
    requires rest == [] || rest[0].Marker?
    ensures Emitted(Idle, [Marker("")] + body + [Marker(lineId)] + next + rest)
      == [ParseState(Some(lineId),
                     SpeakerAfter(SpeakerAfter("", body), next),
                     BlockJa(body) + BlockJa(next), BlockZh(body) + BlockZh(next))]
         + Emitted(Idle, rest)
  {
    var tail := [Marker(lineId)] + (next + rest);
    var carried := Absorb(Idle.(openId := Some("")), body);
    var full := ParseState(Some(lineId), SpeakerAfter(SpeakerAfter("", body), next),
                           BlockJa(body) + BlockJa(next), BlockZh(body) + BlockZh(next));
    RegroupLines([Marker("")], body, [Marker(lineId)], next, rest);
    OpenBlank(body, tail);
    ReopenCarried(carried, lineId, next, rest);
    CarriedThenNext(body, lineId, next);
    FlushAtBoundary(full, rest);
  }

  /** Concatenation regrouped to the right. */
  lemma RegroupLines(a: seq<LineKind>, b: seq<LineKind>, c: seq<LineKind>, d: seq<LineKind>, e: seq<LineKind>)
    ensures a + b + c + d + e == a + (b + (c + (d + e)))
  {
  }

  /** A blank marker opens the id "" and its marker-free body is taken in. */
  lemma OpenBlank(body: seq<LineKind>, tail: seq<LineKind>)
    requires NoMarkers(body)
    ensures Emitted(Idle, [Marker("")] + (body + tail)) == Emitted(Absorb(Idle.(openId := Some("")), body), tail)
  {
    EmittedCons(Idle, Marker(""), body + tail);
    assert Step(Idle, Marker("")) == Idle.(openId := Some(""));
    BodyAccumulates(Idle.(openId := Some("")), body, tail);
  }

  /** The next marker, over a state whose id is "", flushes nothing and only replaces the id. */
  lemma ReopenCarried(carried: ParseState, lineId: string, next: seq<LineKind>, rest: seq<LineKind>)
    requires carried.openId == Some("") && NoMarkers(next)
    ensures Emitted(carried, [Marker(lineId)] + (next + rest))
         == Emitted(Absorb(carried.(openId := Some(lineId)), next), rest)
  {
    EmittedCons(carried, Marker(lineId), next + rest);
    assert Step(carried, Marker(lineId)) == carried.(openId := Some(lineId));
    BodyAccumulates(carried.(openId := Some(lineId)), next, rest);
  }

  /** Running from position `i`: the step on line `i`, then the run from `i + 1`. */
  lemma UnfoldAt(s: ParseState, kinds: seq<LineKind>, i: nat)
    requires i < |kinds|
    ensures Emitted(s, kinds[i..]) == StepOutput(s, kinds[i]) + Emitted(Step(s, kinds[i]), kinds[i + 1..])
    ensures Run(s, kinds[i..]) == Run(Step(s, kinds[i]), kinds[i + 1..])
  {
    assert kinds[i..][0] == kinds[i];
    assert kinds[i..][1..] == kinds[i + 1..];
  }

  /** The records emitted so far, then those of one step, then the rest, are the records of both together. */
  lemma AssembleAfterStep(emitted: seq<DialogueRecord>, out: seq<ParseState>, later: seq<ParseState>,
                          speakerMap: map<string, string>)
    requires forall t :: t in out ==> HasOpenRecord(t)
    requires forall t :: t in later ==> HasOpenRecord(t)
    ensures emitted + Assemble(out, speakerMap) + Assemble(later, speakerMap) == emitted + Assemble(out + later, speakerMap)
  {
    AssembleAppend(out, later, speakerMap);
  }

  /** The parser's state and the records it has emitted so far in the bundle. */
  class ScriptParser {
    const speakerMap: map<string, string>
    var openId: Option<string>
    var speakerJa: string
    var jaLines: seq<string>
    var zhLines: seq<string>
    var records: seq<DialogueRecord>

    function State(): ParseState
      reads this
    {
      ParseState(openId, speakerJa, jaLines, zhLines)
    }

    constructor (speakerMap: map<string, string>)
      ensures this.speakerMap == speakerMap && State() == Idle && records == []
    {
      this.speakerMap := speakerMap;
      openId, speakerJa, jaLines, zhLines := None, "", [], [];
      records := [];
    }

    /** `flush_current`: emit the open record, if its id is non-empty, and reset. */
    method Flush()
      modifies this
      ensures State() == AfterFlush(old(State()))
      ensures records == old(records) + Assemble(Flushed(old(State())), speakerMap)
    {
      if openId.None? || openId.value == "" {
        return;
      }
      var lineId := openId.value;
      var resolvedJa := if speakerJa != "" then speakerJa else SpeakerFromLineId(lineId);
      var resolvedZh := ResolveSpeakerZh(resolvedJa, speakerMap);
      var rec := DialogueRecord(lineId, resolvedJa, resolvedZh,
        Strip(JoinNonEmpty(jaLines)), Strip(JoinNonEmpty(zhLines)), "");
      assert [rec] == Assemble(Flushed(State()), speakerMap);
      records := records + [rec];
      openId, speakerJa, jaLines, zhLines := None, "", [], [];
    }

    /** One iteration of the line loop. */
    method Consume(line: string)
      modifies this
      ensures State() == Step(old(State()), Classify(line))
      ensures records == old(records) + Assemble(StepOutput(old(State()), Classify(line)), speakerMap)
    {
      if StartsWith(line, MarkerPrefix) {
        Flush();
        openId := Some(Strip(line[|MarkerPrefix|..]));
        return;
      }
      if openId.None? {
        return;
      }
      if StartsWith(line, DirectivePrefix) {
        var text := Strip(line[|DirectivePrefix|..]);
        match IndexOf(text, ':') {
          case Some(i) =>
            var name := Strip(text[..i]);
            if name != "" && name[0] != '@' {
              speakerJa := name;
            }
          case None =>
        }
        return;
      }
      if StartsWith(line, CommentPrefix) {
        var ja := LStrip(line[|CommentPrefix|..]);
        if ja != "" && !StartsWith(ja, LanguageTag) {
          jaLines := jaLines + [ja];
        }
        return;
      }
      if Strip(line) != "" {
        zhLines := zhLines + [RStrip(line)];
      }
    }

    /** The per-asset part of `parse_localized_script_bundle`: reset the variables, run the line loop, flush once more. */
    method ParseAsset(lines: seq<string>)
      modifies this
      ensures State() == AfterFlush(Run(Idle, Kinds(lines)))
      ensures records == old(records) + AssetRecords(lines, speakerMap)
    {
      openId, speakerJa, jaLines, zhLines := None, "", [], [];
      ghost var start := records;
      ghost var kinds := Kinds(lines);
      for i := 0 to |lines|
        invariant records + Assemble(Emitted(State(), kinds[i..]), speakerMap)
          == start + Assemble(Emitted(Idle, kinds), speakerMap)
        invariant Run(State(), kinds[i..]) == Run(Idle, kinds)
      {
        ghost var before, emitted := State(), records;
        ghost var out := StepOutput(before, kinds[i]);
        ghost var later := Emitted(Step(before, kinds[i]), kinds[i + 1..]);
        UnfoldAt(before, kinds, i);
        Consume(lines[i]);
        AssembleAfterStep(emitted, out, later, speakerMap);
      }
      assert kinds[|lines|..] == [];
      assert Emitted(State(), []) == Flushed(State());
      Flush();
    }
  }

  /** `rs` followed by the records of `r`, or the failure of `r`. */
  function Prepend(rs: seq<DialogueRecord>, r: Result<seq<DialogueRecord>, string>): Result<seq<DialogueRecord>, string> {
    match r
    case Success(more) => Success(rs + more)
    case Failure(e) => Failure(e)
  }

  lemma PrependAppend(a: seq<DialogueRecord>, b: seq<DialogueRecord>, r: Result<seq<DialogueRecord>, string>)
    ensures Prepend(a + b, r) == Prepend(a, Prepend(b, r))
  {
    if r.Success? {
      assert a + b + r.value == a + (b + r.value);
    }
  }

  /** What `parse_localized_script_bundle` returns: the records of every text asset in order, or the failure of a read. */
  function BundleRecords(objects: seq<AssetObject>, speakerMap: map<string, string>): Result<seq<DialogueRecord>, string> {
    if |objects| == 0 then Success([])
    else match objects[0]
      case TextAsset(_, lines) => Prepend(AssetRecords(lines, speakerMap), BundleRecords(objects[1..], speakerMap))
      case Unreadable(TextAssetKind) => Failure("TextAsset could not be read")
      case _ => BundleRecords(objects[1..], speakerMap)
  }

  /** `parse_localized_script_bundle` on a loaded bundle. */
  method ParseScriptBundle(objects: seq<AssetObject>, speakerMap: map<string, string>)
    returns (r: Result<seq<DialogueRecord>, string>)
    ensures r == BundleRecords(objects, speakerMap)
  {
    var parser := new ScriptParser(speakerMap);
    assert BundleRecords(objects, speakerMap).Success? ==>
      [] + BundleRecords(objects, speakerMap).value == BundleRecords(objects, speakerMap).value;
    for i := 0 to |objects|
      invariant Prepend(parser.records, BundleRecords(objects[i..], speakerMap)) == BundleRecords(objects, speakerMap)
    {
      assert objects[i..][1..] == objects[i + 1..];
      match objects[i] {
        case TextAsset(_, lines) =>
          PrependAppend(parser.records, AssetRecords(lines, speakerMap), BundleRecords(objects[i + 1..], speakerMap));
          parser.ParseAsset(lines);
        case Unreadable(kind) =>
          if kind == TextAssetKind {
            return Failure("TextAsset could not be read");
          }
        case _ =>
      }
    }
    assert objects[|objects|..] == [];
    assert parser.records + [] == parser.records;
    return Success(parser.records);
  }
}
