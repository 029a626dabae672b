/**
 * The text post-processing of the SOAP executor: the function schema sent to
 * the language model, the parser that turns a SUBJECTIVE / OBJECTIVE /
 * ASSESSMENT / PLAN note into summary fields, the selection of the transcript
 * segments that mention a recognised entity, and the assembly and filtering
 * of the four summary line lists. The language model, sentence tokenizer and
 * bucket are outside: their answers are parameters.
 */
module SoapExecutor {
  import opened Wrappers
  import opened Ascii

  // ---------------------------------------------------------------------
  // filter_summary_properties
  // ---------------------------------------------------------------------

  /** One property of the function schema: its description and JSON type. */
  datatype Property = Property(description: string, kind: string)

  /**
   * The `ClinicalSummaries` function schema. `properties` is the ordered
   * dictionary of the `parameters` object, as (key, property) pairs.
   */
  datatype FunctionSchema = FunctionSchema(
    name: string, description: string, parametersType: string, properties: seq<(string, Property)>)

  const SchemaName: string := "ClinicalSummaries"
  const SchemaDescription: string := "write clinical summaries for given transcript"

  const SubjectiveProperty: Property :=
    Property("Crisp summary of medication history, surgery history and symptoms.", "string")
  const ObjectiveProperty: Property :=
    Property("Crisp summary of results of imaging, physical exam, visual auditory physical touch signs, lab results", "string")
  const AssessmentProperty: Property :=
    Property("Crisp summary of diagnosis, reason for diagnosis, perspective on historical diagnosis management", "string")
  const CarePlanProperty: Property :=
    Property("Crisp summary of medications prescribed, tests ordered, procedures ordered, surgeries ordered, treatement plan", "string")

  /** The four summary properties, in the order the schema lists them. */
  const SummaryProperties: seq<(string, Property)> := [
    ("subjectiveSummary", SubjectiveProperty),
    ("objectiveSummary", ObjectiveProperty),
    ("clinicalAssessmentSummary", AssessmentProperty),
    ("carePlanSummary", CarePlanProperty)
  ]

  /** The dictionary comprehension `{key: value for key, value in properties.items() if key == wanted}`. */
  function KeepKey(properties: seq<(string, Property)>, wanted: string): (r: seq<(string, Property)>)
    ensures forall e :: e in r <==> e in properties && e.0 == wanted
    ensures |r| <= |properties|
    decreases |properties|
  {
    if properties == [] then []
    else
      var rest := KeepKey(properties[1..], wanted);
      if properties[0].0 == wanted then [properties[0]] + rest else rest
  }

  /**
   * `filter_summary_properties`: the one-element list holding the schema,
   * whose properties are cut down to the entry named `summaryType`.
   */
  function FilterSummaryProperties(summaryType: string): (r: seq<FunctionSchema>)
    ensures |r| == 1
    ensures r[0].name == SchemaName && r[0].description == SchemaDescription && r[0].parametersType == "object"
    ensures forall e :: e in r[0].properties <==> e in SummaryProperties && e.0 == summaryType
  {
    [FunctionSchema(SchemaName, SchemaDescription, "object", KeepKey(SummaryProperties, summaryType))]
  }

  /** A key that names exactly one entry keeps exactly that entry. */
  lemma {:induction false} KeepUnique(properties: seq<(string, Property)>, i: nat)
    requires i < |properties|
    requires forall j :: 0 <= j < |properties| && j != i ==> properties[j].0 != properties[i].0
    ensures KeepKey(properties, properties[i].0) == [properties[i]]
    decreases |properties|
  {
    var rest := properties[1..];
    if i == 0 {
      forall j | 0 <= j < |rest|
        ensures rest[j].0 != properties[0].0
      {
        assert rest[j] == properties[j + 1];
      }
      KeepAbsent(rest, properties[0].0);
    } else {
      forall j | 0 <= j < |rest| && j != i - 1
        ensures rest[j].0 != rest[i - 1].0
      {
        assert rest[j] == properties[j + 1];
      }
      KeepUnique(rest, i - 1);
    }
  }

  /** A key that names no entry keeps nothing. */
  lemma {:induction false} KeepAbsent(properties: seq<(string, Property)>, wanted: string)
    requires forall j :: 0 <= j < |properties| ==> properties[j].0 != wanted
    ensures KeepKey(properties, wanted) == []
    decreases |properties|
  {
    if properties != [] {
      KeepAbsent(properties[1..], wanted);
    }
  }

  /** A known summary type keeps exactly its own property; any other keeps none. */
  lemma {:induction false} FilterSummaryPropertiesCases(summaryType: string)
    ensures var props := FilterSummaryProperties(summaryType)[0].properties;
      && (summaryType in SummaryKeys ==> exists i :: 0 <= i < 4 && props == [SummaryProperties[i]] && SummaryProperties[i].0 == summaryType)
      && (summaryType !in SummaryKeys ==> props == [])
  {
    var ps := SummaryProperties;
    var props := FilterSummaryProperties(summaryType)[0].properties;
    if summaryType in SummaryKeys {
      var i :| 0 <= i < 4 && ps[i].0 == summaryType;
      KeepUnique(ps, i);
    } else {
      forall j | 0 <= j < |ps|
        ensures ps[j].0 != summaryType
      {
        assert ps[j].0 in SummaryKeys;
      }
      KeepAbsent(ps, summaryType);
    }
  }

  // ---------------------------------------------------------------------
  // string_to_dict and process_sentence
  // ---------------------------------------------------------------------

  /** The keys `string_to_dict` can produce. */
  const SummaryKeys: set<string> := {"subjectiveSummary", "objectiveSummary", "clinicalAssessmentSummary", "carePlanSummary"}

  /** `process_sentence`: strip, drop every "- ", and end with a full stop. */
  function ProcessSentence(sentence: string): (r: string)
    ensures EndsWith(r, '.')
    ensures var t := RemoveAll(Strip(sentence), "- ");
      r == t || r == t + "."
    ensures EndsWith(RemoveAll(Strip(sentence), "- "), '.') <==> |r| == |RemoveAll(Strip(sentence), "- ")|
  {
    var t := RemoveAll(Strip(sentence), "- ");
    if EndsWith(t, '.') then t else t + "."
  }

  /** A piece that is only whitespace is not empty, so it is kept, and becomes a lone full stop. */
  lemma {:induction false} BlankPieceIsFullStop(s: string)
    requires forall i :: 0 <= i < |s| ==> IsSpace(s[i])
    ensures ProcessSentence(s) == "."
  {
    assert TrimLeft(s, IsSpace) == [];
    assert Strip(s) == [];
  }

  /** A sentence that is already stripped, free of "- " and ends with a full stop comes through unchanged. */
  lemma {:induction false} ProcessSentenceFixpoint(s: string)
    requires s != [] && !IsSpace(s[0]) && !IsSpace(s[|s| - 1])
    requires !Contains(s, "- ")
    requires EndsWith(s, '.')
    ensures ProcessSentence(s) == s
  {
    var l := TrimLeft(s, IsSpace);
    assert l == s;
    var r := TrimRight(l, IsSpace);
    assert r == s;
    RemoveAbsent(s, "- ");
  }

  /** The summary key a section title maps to, if any. */
  function SectionKey(title: string): (r: Option<string>)
    ensures r.Some? ==> r.value in SummaryKeys
    ensures r.Some? <==> title in {"subjective", "objective", "assessment", "plan"}
  {
    if title == "subjective" then Some("subjectiveSummary")
    else if title == "objective" then Some("objectiveSummary")
    else if title == "assessment" then Some("clinicalAssessmentSummary")
    else if title == "plan" then Some("carePlanSummary")
    else None
  }

  /** The title of a section: its first line without surrounding colons, lower-cased. */
  function Title(section: string): string {
    Lower(StripColons(Split(section, "\n")[0]))
  }

  /** The sentences of one line: its non-empty pieces between " -", processed. */
  function Pieces(pieces: seq<string>): (r: seq<string>)
    ensures |r| <= |pieces|
    ensures forall i :: 0 <= i < |r| ==> EndsWith(r[i], '.')
    decreases |pieces|
  {
    if pieces == [] then []
    else
      var last := pieces[|pieces| - 1];
      Pieces(pieces[..|pieces| - 1]) + (if last != "" then [ProcessSentence(last)] else [])
  }

  /** The sentences of the body lines of a section, line after line. */
  function Sentences(lines: seq<string>): (r: seq<string>)
    ensures forall i :: 0 <= i < |r| ==> EndsWith(r[i], '.')
    decreases |lines|
  {
    if lines == [] then []
    else Sentences(lines[..|lines| - 1]) + Pieces(Split(lines[|lines| - 1], " -"))
  }

  /** The content of a section: the sentences of every line after the title line, joined by spaces. */
  function Content(section: string): string {
    Join(" ", Sentences(Split(section, "\n")[1..]))
  }

  /** What one section contributes: the key its title maps to, if any, and its content. */
  function Entry(section: string): (Option<string>, string) {
    (SectionKey(Title(section)), Content(section))
  }

  function Entries(sections: seq<string>): (r: seq<(Option<string>, string)>)
    ensures |r| == |sections|
    decreases |sections|
  {
    if sections == [] then [] else Entries(sections[..|sections| - 1]) + [Entry(sections[|sections| - 1])]
  }

  lemma {:induction false} EntriesAt(sections: seq<string>, i: nat)
    requires i < |sections|
    ensures Entries(sections)[i] == Entry(sections[i])
    decreases |sections|
  {
    if i < |sections| - 1 {
      var init := sections[..|sections| - 1];
      EntriesAt(init, i);
      assert init[i] == sections[i];
    }
  }

  /** Entries assigned in order into an empty dictionary: a later entry for the same key replaces an earlier one. */
  function Assign(entries: seq<(Option<string>, string)>): map<string, string>
    decreases |entries|
  {
    if entries == [] then map[]
    else
      var before := Assign(entries[..|entries| - 1]);
      var (key, value) := entries[|entries| - 1];
      if key.Some? then before[key.value := value] else before
  }

  /** A key is assigned exactly when some entry names it, and holds the value of the last such entry. */
  lemma {:induction false} AssignLastWins(entries: seq<(Option<string>, string)>, key: string)
    ensures key in Assign(entries) <==> exists i :: 0 <= i < |entries| && entries[i].0 == Some(key)
    ensures key in Assign(entries) ==>
      exists i :: 0 <= i < |entries| && entries[i].0 == Some(key)
        && Assign(entries)[key] == entries[i].1
        && forall j :: i < j < |entries| ==> entries[j].0 != Some(key)
    decreases |entries|
  {
    if entries != [] {
      var n := |entries| - 1;
      var init := entries[..n];
      AssignLastWins(init, key);
      assert forall i :: 0 <= i < n ==> init[i] == entries[i];
      if entries[n].0 != Some(key) && key in Assign(entries) {
        var i :| 0 <= i < n && init[i].0 == Some(key)
          && Assign(init)[key] == init[i].1
          && forall j :: i < j < n ==> init[j].0 != Some(key);
        assert entries[i] == init[i];
      }
    }
  }

  /** The dictionary `string_to_dict` builds from `sections`. */
  function Parse(sections: seq<string>): map<string, string> {
    Assign(Entries(sections))
  }

  /**
   * What `string_to_dict` promises: only the four summary keys; a key is
   * present exactly when some section has the matching title; and it then
   * holds the content of the last such section.
   */
  lemma {:induction false} ParseLastWins(sections: seq<string>, key: string)
    ensures key in Parse(sections) ==> key in SummaryKeys
    ensures key in Parse(sections) <==> exists i :: 0 <= i < |sections| && SectionKey(Title(sections[i])) == Some(key)
    ensures key in Parse(sections) ==>
      exists i :: 0 <= i < |sections| && SectionKey(Title(sections[i])) == Some(key)
        && Parse(sections)[key] == Content(sections[i])
        && forall j :: i < j < |sections| ==> SectionKey(Title(sections[j])) != Some(key)
  {
    var entries := Entries(sections);
    AssignLastWins(entries, key);
    forall i | 0 <= i < |sections|
      ensures entries[i] == Entry(sections[i])
    {
      EntriesAt(sections, i);
    }
  }

  /** The title line of a section gives its title and nothing to its content. */
  lemma {:induction false} TitleLineIgnored(title: string, body: string)
    requires '\n' !in title
    ensures Title(title + "\n" + body) == Lower(StripColons(title))
    ensures Content(title + "\n" + body) == Join(" ", Sentences(Split(body, "\n")))
  {
    SplitAtFirst(title, '\n', body);
  }

  /** One more section files its content under its title's key, if the title has one. */
  lemma {:induction false} ParseStep(sections: seq<string>, i: nat)
    requires i < |sections|
    ensures Parse(sections[..i + 1]) == Filed(Parse(sections[..i]), Entry(sections[i]))
  {
    var entries := Entries(sections[..i + 1]);
    assert sections[..i + 1][..i] == sections[..i];
    assert sections[..i + 1][i] == sections[i];
    assert entries[..i] == Entries(sections[..i]);
  }

  /** The dictionary after one entry is filed into it. */
  function Filed(before: map<string, string>, entry: (Option<string>, string)): (r: map<string, string>)
    ensures entry.0.None? ==> r == before
    ensures entry.0.Some? ==> r.Keys == before.Keys + {entry.0.value} && r[entry.0.value] == entry.1
    ensures forall k :: k in before && Some(k) != entry.0 ==> k in r && r[k] == before[k]
  {
    if entry.0.Some? then before[entry.0.value := entry.1] else before
  }

  /** `string_to_dict` */
  method StringToDict(input: string) returns (result: map<string, string>)
    ensures result == Parse(Split(input, "\n\n"))
  {
    var sections := Split(input, "\n\n");
    result := map[];
    for i := 0 to |sections|
      invariant result == Parse(sections[..i])
    {
      var title, content := ParseSection(sections[i]);
      ParseStep(sections, i);
      result := MapTitle(result, title, content);
    }
    assert sections[..|sections|] == sections;
  }

  /** The title and the content of one section, as the loop body of `string_to_dict` computes them. */
  method ParseSection(section: string) returns (title: string, content: string)
    ensures Entry(section) == (SectionKey(title), content)
  {
    var lines := Split(section, "\n");
    title := Lower(StripColons(lines[0]));
    var sentences := SectionSentences(lines);
    content := Join(" ", sentences);
  }

  /** The `if`/`elif` chain of `string_to_dict` that files a section's content under its title's key. */
  method MapTitle(before: map<string, string>, title: string, content: string) returns (result: map<string, string>)
    ensures result == Filed(before, (SectionKey(title), content))
  {
    if title == "subjective" {
      result := before["subjectiveSummary" := content];
    } else if title == "objective" {
      result := before["objectiveSummary" := content];
    } else if title == "assessment" {
      result := before["clinicalAssessmentSummary" := content];
    } else if title == "plan" {
      result := before["carePlanSummary" := content];
    } else {
      result := before;
    }
  }

  /** The nested loops of `string_to_dict` over the body lines of one section. */
  method SectionSentences(lines: seq<string>) returns (sentences: seq<string>)
    requires lines != []
    ensures sentences == Sentences(lines[1..])
  {
    sentences := [];
    var body := lines[1..];
    for n := 0 to |body|
      invariant sentences == Sentences(body[..n])
    {
      var more := LineSentences(body[n]);
      SentencesStep(body, n);
      sentences := sentences + more;
    }
    assert body[..|body|] == body;
  }

  /** One more line contributes its pieces after the sentences of the lines before it. */
  lemma {:induction false} SentencesStep(lines: seq<string>, n: nat)
    requires n < |lines|
    ensures Sentences(lines[..n + 1]) == Sentences(lines[..n]) + Pieces(Split(lines[n], " -"))
  {
    assert lines[..n + 1][..n] == lines[..n];
  }

  /** The innermost loop of `string_to_dict`: the non-empty pieces of one line between " -", processed. */
  method LineSentences(line: string) returns (sentences: seq<string>)
    ensures sentences == Pieces(Split(line, " -"))
  {
    var pieces := Split(line, " -");
    sentences := [];
    for m := 0 to |pieces|
      invariant sentences == Pieces(pieces[..m])
    {
      assert pieces[..m + 1][..m] == pieces[..m];
      if pieces[m] != "" {
        sentences := sentences + [ProcessSentence(pieces[m])];
      }
    }
    assert pieces[..|pieces|] == pieces;
  }

  // ---------------------------------------------------------------------
  // Selecting from a list, as a comprehension with a condition does
  // ---------------------------------------------------------------------

  /** `[x for x in xs if keep(x)]` */
  function Select<T>(xs: seq<T>, keep: T -> bool): (r: seq<T>)
    ensures |r| <= |xs|
    ensures forall i :: 0 <= i < |r| ==> keep(r[i])
    decreases |xs|
  {
    if xs == [] then []
    else
      var last := xs[|xs| - 1];
      Select(xs[..|xs| - 1], keep) + (if keep(last) then [last] else [])
  }

  /** An element is selected exactly when it is in the list and passes the test. */
  lemma {:induction false} SelectMembers<T>(xs: seq<T>, keep: T -> bool, x: T)
    ensures x in Select(xs, keep) <==> x in xs && keep(x)
    decreases |xs|
  {
    if xs != [] {
      var init := xs[..|xs| - 1];
      SelectMembers(init, keep, x);
      assert xs == init + [xs[|xs| - 1]];
    }
  }

  /** Selection keeps the order of the list: it distributes over concatenation. */
  lemma {:induction false} SelectAppend<T>(xs: seq<T>, ys: seq<T>, keep: T -> bool)
    ensures Select(xs + ys, keep) == Select(xs, keep) + Select(ys, keep)
    decreases |ys|
  {
    if ys == [] {
      assert xs + ys == xs;
    } else {
      var init, last := ys[..|ys| - 1], ys[|ys| - 1];
      var zs := xs + ys;
      SelectAppend(xs, init, keep);
      assert zs[..|zs| - 1] == xs + init && zs[|zs| - 1] == last;
      var tail := if keep(last) then [last] else [];
      assert Select(zs, keep) == Select(xs + init, keep) + tail;
      assert Select(ys, keep) == Select(init, keep) + tail;
    }
  }

  // ---------------------------------------------------------------------
  // get_interested_text
  // ---------------------------------------------------------------------

  /**
   * A segment mentions an entity value when the value, or one of its words
   * longer than three characters, occurs in the segment, ignoring case.
   */
  predicate Mentions(text: string, value: string) {
    Contains(Lower(text), Lower(value))
    || exists w :: w in Words(value) && |w| > 3 && Contains(Lower(text), Lower(w))
  }

  /** A segment mentions some value of some entity type. */
  predicate MentionsAny(text: string, entities: seq<seq<string>>) {
    exists i, j :: 0 <= i < |entities| && 0 <= j < |entities[i]| && Mentions(text, entities[i][j])
  }

  /** The segments that mention an entity, in order. */
  function Interesting(entities: seq<seq<string>>, segments: seq<string>): seq<string> {
    Select(segments, text => MentionsAny(text, entities))
  }

  /**
   * `get_interested_text`. The entity values are grouped by entity type;
   * `None` stands for predictions without an "entities" entry, which raise
   * as soon as there is a segment to look at, so the result is `None`.
   */
  function InterestedText(entities: Option<seq<seq<string>>>, segments: seq<string>): Option<seq<string>> {
    if entities.Some? then Some(Interesting(entities.value, segments))
    else if segments == [] then Some([])
    else None
  }

  /**
   * What `get_interested_text` promises: a segment is kept exactly when it
   * mentions an entity value, the kept segments keep their order, and the
   * only failure is missing entities with at least one segment.
   */
  lemma {:induction false} InterestedTextCharacterized(entities: Option<seq<seq<string>>>, segments: seq<string>, more: seq<string>)
    ensures InterestedText(entities, segments).None? <==> entities.None? && segments != []
    ensures entities.Some? ==> forall t ::
      t in InterestedText(entities, segments).value <==> t in segments && MentionsAny(t, entities.value)
    ensures entities.Some? ==>
      InterestedText(entities, segments + more).value
        == InterestedText(entities, segments).value + InterestedText(entities, more).value
  {
    if entities.Some? {
      var keep := text => MentionsAny(text, entities.value);
      forall t {
        SelectMembers(segments, keep, t);
      }
      SelectAppend(segments, more, keep);
    }
  }

  /** One more segment is appended to the interesting ones exactly when it mentions an entity. */
  lemma {:induction false} InterestingStep(entities: seq<seq<string>>, segments: seq<string>, s: nat)
    requires s < |segments|
    ensures Interesting(entities, segments[..s + 1])
      == Interesting(entities, segments[..s]) + (if MentionsAny(segments[s], entities) then [segments[s]] else [])
  {
    assert segments[..s + 1][..s] == segments[..s];
  }

  /** `get_interested_text`: the loop over the segments. */
  method GetInterestedText(entities: Option<seq<seq<string>>>, segments: seq<string>) returns (interest: Option<seq<string>>)
    ensures interest == InterestedText(entities, segments)
  {
    var texts := [];
    for s := 0 to |segments|
      invariant s > 0 ==> entities.Some?
      invariant entities.None? ==> texts == []
      invariant entities.Some? ==> texts == Interesting(entities.value, segments[..s])
    {
      var text := segments[s];
      if entities.None? {
        return None;
      }
      var isImp := SegmentMatters(text, entities.value);
      InterestingStep(entities.value, segments, s);
      if isImp {
        texts := texts + [text];
      }
    }
    assert segments[..|segments|] == segments;
    interest := Some(texts);
  }

  /** The loop over the entity types, which stops at the first type with a mentioned value. */
  method SegmentMatters(text: string, entities: seq<seq<string>>) returns (isImp: bool)
    ensures isImp == MentionsAny(text, entities)
  {
    isImp := false;
    for t := 0 to |entities|
      invariant isImp <==> exists i, j :: 0 <= i < t && 0 <= j < |entities[i]| && Mentions(text, entities[i][j])
    {
      if isImp {
        break;
      }
      isImp := AnyMentioned(text, entities[t]);
    }
  }

  /** The loop over the values of one entity type, which stops at the first mentioned value. */
  method AnyMentioned(text: string, values: seq<string>) returns (found: bool)
    ensures found <==> exists j :: 0 <= j < |values| && Mentions(text, values[j])
  {
    for j := 0 to |values|
      invariant forall k :: 0 <= k < j ==> !Mentions(text, values[k])
    {
      if Mentions(text, values[j]) {
        return true;
      }
    }
    return false;
  }

  // ---------------------------------------------------------------------
  // The line filter
  // ---------------------------------------------------------------------

  /**
   * `remove_lines_with_words` as the module writes it: a missing comma makes
   * Python glue "un known" and "unknown" into one entry.
   */
  const RemoveLinesWithWordsAsWritten: seq<string> := [
    "none", "un knownunknown", "not applicable", "not available",
    "not mentioned", "n/a", "undetermined", "not determined"]

  /** `remove_lines_with_words` as evidently intended: "un known" and "unknown" are two entries. */
  const RemoveLinesWithWords: seq<string> := [
    "none", "un known", "unknown", "not applicable", "not available",
    "not mentioned", "n/a", "undetermined", "not determined"]

  /** Some entry of `words` occurs in the lower-cased line. */
  predicate Flagged(line: string, words: seq<string>) {
    exists i :: 0 <= i < |words| && Contains(Lower(line), words[i])
  }

  /** The comprehension that drops every flagged line. */
  function FilterLines(lines: seq<string>, words: seq<string>): seq<string> {
    Select(lines, line => !Flagged(line, words))
  }

  /** The filter keeps exactly the lines that contain no listed entry, in their order. */
  lemma {:induction false} FilterLinesCharacterized(lines: seq<string>, more: seq<string>, words: seq<string>)
    ensures forall line :: line in FilterLines(lines, words) <==> line in lines && !Flagged(line, words)
    ensures FilterLines(lines + more, words) == FilterLines(lines, words) + FilterLines(more, words)
  {
    var keep := line => !Flagged(line, words);
    forall line {
      SelectMembers(lines, keep, line);
    }
    SelectAppend(lines, more, keep);
  }

  /** As written, the list lets a line that reads "unknown" through. */
  lemma {:induction false} UnknownKeptAsWritten()
    ensures FilterLines(["unknown"], RemoveLinesWithWordsAsWritten) == ["unknown"]
  {
    UnknownNotFlagged();
    assert ["unknown"][..0] == [];
  }

  /** No entry of the list as written occurs in "unknown". */
  lemma {:induction false} UnknownNotFlagged()
    ensures !Flagged("unknown", RemoveLinesWithWordsAsWritten)
  {
    var line := "unknown";
    var words := RemoveLinesWithWordsAsWritten;
    LowerUnknown();
    forall i | 0 <= i < |words|
      ensures !Contains(line, words[i])
    {
      if i == 0 {
        MissingChar(line, words[i], 'e');
      } else if i == 5 {
        MissingChar(line, words[i], '/');
      } else {
        assert |words[i]| > 7;
        TooLong(line, words[i]);
      }
    }
  }

  lemma LowerUnknown()
    ensures Lower("unknown") == "unknown"
  {
  }

  /** With the comma in place, the same line is dropped. */
  lemma {:induction false} UnknownDroppedWhenCorrected()
    ensures FilterLines(["unknown"], RemoveLinesWithWords) == []
  {
    var line := "unknown";
    LowerUnknown();
    assert Contains(line, RemoveLinesWithWords[2]);
    assert [line][..0] == [];
  }

  /** A pattern longer than the text does not occur in it. */
  lemma {:induction false} TooLong(s: string, sub: string)
    requires |sub| > |s|
    ensures !Contains(s, sub)
  {
    ContainsAt(s, sub);
  }

  /** A pattern with a character the text lacks does not occur in it. */
  lemma {:induction false} MissingChar(s: string, sub: string, c: char)
    requires c in sub && c !in s
    ensures !Contains(s, sub)
  {
    ContainsAt(s, sub);
  }

  // ---------------------------------------------------------------------
  // The prefix lines of the subjective and objective summaries
  // ---------------------------------------------------------------------

  /** The prediction fields the subjective summary opens with, in order. */
  const SubjectiveKeys: seq<string> := [
    "age", "gender", "height", "weight", "bmi", "ethnicity",
    "substanceAbuse", "physicalActivityExercise", "allergies"]

  /** The vital signs the objective summary opens with, in order. */
  const ObjectiveKeys: seq<string> := ["bloodPressure", "pulse", "respiratoryRate", "bodyTemperature"]

  /**
   * The predictions of a conversation: the text of each named field
   * (`None` for a null text, which Python formats as "None"), and the entity
   * values grouped by entity type (`None` when there is no "entities" entry).
   */
  datatype Predictions = Predictions(fields: map<string, Option<string>>, entities: Option<seq<seq<string>>>)

  /** The line for one field: its capitalized key, a colon, and its text. */
  function FieldLine(key: string, text: Option<string>): string {
    Capitalize(key) + ": " + (if text.Some? then text.value else "None")
  }

  /** The lines for the fields among `keys` that are present, in the order of `keys`. */
  function Prefix(keys: seq<string>, fields: map<string, Option<string>>): seq<string>
    decreases |keys|
  {
    if keys == [] then []
    else
      var k := keys[|keys| - 1];
      Prefix(keys[..|keys| - 1], fields) + (if k in fields then [FieldLine(k, fields[k])] else [])
  }

  /** A line is emitted exactly for each listed key that is present. */
  lemma {:induction false} PrefixMembers(keys: seq<string>, fields: map<string, Option<string>>)
    ensures |Prefix(keys, fields)| <= |keys|
    ensures forall line :: line in Prefix(keys, fields) <==>
      exists k :: k in keys && k in fields && line == FieldLine(k, fields[k])
    decreases |keys|
  {
    if keys != [] {
      var init := keys[..|keys| - 1];
      PrefixMembers(init, fields);
      assert keys == init + [keys[|keys| - 1]];
    }
  }

  /** When every listed key is present, the lines follow the order of the keys one to one. */
  lemma {:induction false} PrefixInKeyOrder(keys: seq<string>, fields: map<string, Option<string>>)
    requires forall k :: k in keys ==> k in fields
    ensures |Prefix(keys, fields)| == |keys|
    ensures forall i :: 0 <= i < |keys| ==> Prefix(keys, fields)[i] == FieldLine(keys[i], fields[keys[i]])
    decreases |keys|
  {
    if keys != [] {
      var init, k := keys[..|keys| - 1], keys[|keys| - 1];
      assert forall j :: j in init ==> j in keys;
      PrefixInKeyOrder(init, fields);
      assert Prefix(keys, fields) == Prefix(init, fields) + [FieldLine(k, fields[k])];
      forall i | 0 <= i < |keys|
        ensures Prefix(keys, fields)[i] == FieldLine(keys[i], fields[keys[i]])
      {
        if i < |init| {
          assert keys[i] == init[i];
        }
      }
    }
  }

  /**
   * The lines follow the order of the keys whichever keys are missing: the
   * lines of a split key list are the lines of its first part, then those of
   * its second.
   */
  lemma {:induction false} PrefixAppend(a: seq<string>, b: seq<string>, fields: map<string, Option<string>>)
    ensures Prefix(a + b, fields) == Prefix(a, fields) + Prefix(b, fields)
    decreases |b|
  {
    if b == [] {
      assert a + b == a;
    } else {
      var init, k := b[..|b| - 1], b[|b| - 1];
      var ab := a + b;
      PrefixAppend(a, init, fields);
      assert ab[..|ab| - 1] == a + init && ab[|ab| - 1] == k;
      var tail := if k in fields then [FieldLine(k, fields[k])] else [];
      assert Prefix(ab, fields) == Prefix(a + init, fields) + tail;
      assert Prefix(b, fields) == Prefix(init, fields) + tail;
    }
  }

  /** The loop that appends a line for each present key. */
  method PrefixLines(keys: seq<string>, fields: map<string, Option<string>>) returns (lines: seq<string>)
    ensures lines == Prefix(keys, fields)
  {
    lines := [];
    for i := 0 to |keys|
      invariant lines == Prefix(keys[..i], fields)
    {
      assert keys[..i + 1][..i] == keys[..i];
      if keys[i] in fields {
        lines := lines + [FieldLine(keys[i], fields[keys[i]])];
      }
    }
    assert keys[..|keys|] == keys;
  }

  /** The line of a field with a null text ends in "None", so a list holding "none" flags it. */
  lemma {:induction false} NullFieldFlagged(key: string, words: seq<string>)
    requires "none" in words
    ensures Flagged(FieldLine(key, None), words)
  {
    var line := FieldLine(key, None);
    var low := Lower(line);
    var n := |line|;
    assert line[n - 4] == 'N' && line[n - 3] == 'o' && line[n - 2] == 'n' && line[n - 1] == 'e';
    assert low[n - 4] == 'n' && low[n - 3] == 'o' && low[n - 2] == 'n' && low[n - 1] == 'e';
    assert low[n - 4..] == "none";
    assert OccursAt(low, "none", n - 4);
    ContainsAt(low, "none");
  }

  // ---------------------------------------------------------------------
  // The four summaries
  // ---------------------------------------------------------------------

  /** The four summary methods, which differ only in the constants below. */
  datatype Summary = Subjective | Objective | Assessment | Plan

  /** The fields a summary opens with: none for the assessment and the plan. */
  function Keys(kind: Summary): seq<string> {
    match kind
    case Subjective => SubjectiveKeys
    case Objective => ObjectiveKeys
    case _ => []
  }

  /** The `summary_type` a summary asks the language model for. */
  function SummaryType(kind: Summary): (r: string)
    ensures r in SummaryKeys
  {
    match kind
    case Subjective => "subjectiveSummary"
    case Objective => "objectiveSummary"
    case Assessment => "clinicalAssessmentSummary"
    case Plan => "carePlanSummary"
  }

  /** The object a summary is uploaded to, under the conversation's prefix. */
  function FileName(kind: Summary): string {
    match kind
    case Subjective => "subjectiveClinicalSummary.json"
    case Objective => "objectiveClinicalSummary.json"
    case Assessment => "clinicalAssessment.json"
    case Plan => "carePlanSuggested.json"
  }

  /** An object written to storage: its key and the JSON list of lines it holds. */
  datatype Upload = Upload(key: string, lines: seq<string>)

  /** The language model is asked only for at least one interesting segment and at least 20 words in all. */
  predicate Gate(interest: Option<seq<string>>) {
    interest.Some? && interest.value != [] && |Words(Join(" ", interest.value))| >= 20
  }

  /**
   * The lines a summary uploads when it filters with `words`.
   * `generate(prompt, summaryType)` stands for the language model followed by
   * the sentence tokenizer: the sentences of the requested summary, or `None`
   * when there is no such summary.
   */
  function Lines(kind: Summary, preds: Predictions, segments: seq<string>,
                 generate: (string, string) -> Option<seq<string>>, words: seq<string>): seq<string>
  {
    var prefix := Prefix(Keys(kind), preds.fields);
    var interest := InterestedText(preds.entities, segments);
    if Gate(interest) then
      var generated := generate(Join("\n", interest.value), SummaryType(kind));
      FilterLines(prefix + (if generated.Some? then generated.value else []), words)
    else prefix
  }

  /**
   * What a summary promises: below the gate, the prefix lines unfiltered
   * (nothing at all for the assessment and the plan) and the language model
   * is not consulted; at or above it, exactly the prefix lines and generated
   * sentences that carry no listed word, so a null field never shows when
   * "none" is listed.
   */
  lemma {:induction false} LinesCharacterized(kind: Summary, preds: Predictions, segments: seq<string>,
                                              generate: (string, string) -> Option<seq<string>>, words: seq<string>)
    ensures var interest := InterestedText(preds.entities, segments);
      !Gate(interest) ==> Lines(kind, preds, segments, generate, words) == Prefix(Keys(kind), preds.fields)
    ensures !Gate(InterestedText(preds.entities, segments)) && (kind.Assessment? || kind.Plan?) ==>
      Lines(kind, preds, segments, generate, words) == []
    ensures var interest := InterestedText(preds.entities, segments);
      Gate(interest) ==>
        var generated := generate(Join("\n", interest.value), SummaryType(kind));
        forall line :: line in Lines(kind, preds, segments, generate, words) <==>
          (line in Prefix(Keys(kind), preds.fields) || (generated.Some? && line in generated.value))
          && !Flagged(line, words)
    ensures Gate(InterestedText(preds.entities, segments)) && "none" in words ==>
      forall k :: k in preds.fields && preds.fields[k] == None ==>
        FieldLine(k, None) !in Lines(kind, preds, segments, generate, words)
  {
    var interest := InterestedText(preds.entities, segments);
    if Gate(interest) {
      var prefix := Prefix(Keys(kind), preds.fields);
      var generated := generate(Join("\n", interest.value), SummaryType(kind));
      var all := prefix + (if generated.Some? then generated.value else []);
      FilterLinesCharacterized(all, [], words);
      if "none" in words {
        forall k | k in preds.fields && preds.fields[k] == None
          ensures FieldLine(k, None) !in Lines(kind, preds, segments, generate, words)
        {
          NullFieldFlagged(k, words);
        }
      }
    }
  }

  /**
   * The missing comma reaches the upload: above the gate, a subjective
   * summary whose "bmi" field reads "Unknown" uploads that line with the
   * list as written, and would drop it with the corrected list.
   */
  lemma {:induction false} UnknownFieldUploaded(preds: Predictions, segments: seq<string>,
                                               generate: (string, string) -> Option<seq<string>>)
    requires Gate(InterestedText(preds.entities, segments))
    requires "bmi" in preds.fields && preds.fields["bmi"] == Some("Unknown")
    ensures "Bmi: Unknown" in Lines(Subjective, preds, segments, generate, RemoveLinesWithWordsAsWritten)
    ensures "Bmi: Unknown" !in Lines(Subjective, preds, segments, generate, RemoveLinesWithWords)
  {
    var line := "Bmi: Unknown";
    BmiUnknownLine();
    PrefixMembers(SubjectiveKeys, preds.fields);
    assert line in Prefix(Keys(Subjective), preds.fields);
    LinesCharacterized(Subjective, preds, segments, generate, RemoveLinesWithWordsAsWritten);
    LinesCharacterized(Subjective, preds, segments, generate, RemoveLinesWithWords);
    BmiUnknownLower();
    BmiUnknownFlags(line);
  }

  /** A line that lower-cases to "bmi: unknown" passes the list as written and not the corrected one. */
  lemma {:induction false} BmiUnknownFlags(line: string)
    requires Lower(line) == "bmi: unknown"
    ensures !Flagged(line, RemoveLinesWithWordsAsWritten)
    ensures Flagged(line, RemoveLinesWithWords)
  {
    BmiUnknownNotFlagged();
    var low := Lower(line);
    assert OccursAt(low, "unknown", 5);
    ContainsAt(low, "unknown");
    assert Contains(low, RemoveLinesWithWords[2]);
  }

  /** The line for a "bmi" field reading "Unknown". */
  lemma BmiUnknownLine()
    ensures FieldLine("bmi", Some("Unknown")) == "Bmi: Unknown"
  {
    var c := Capitalize("bmi");
    assert c[0] == 'B' && c[1] == 'm' && c[2] == 'i';
    assert c == "Bmi";
  }

  /** That line, lower-cased. */
  lemma BmiUnknownLower()
    ensures Lower("Bmi: Unknown") == "bmi: unknown"
  {
    LowerByChars("Bmi: Unknown", "bmi: unknown");
  }

  /** `t` is `s` lower-cased when it agrees with it character by lower-cased character. */
  lemma LowerByChars(s: string, t: string)
    requires |s| == |t| && forall i :: 0 <= i < |s| ==> t[i] == LowerChar(s[i])
    ensures Lower(s) == t
  {
  }

  /** No entry of the list as written occurs in "bmi: unknown". */
  lemma {:induction false} BmiUnknownNotFlagged()
    ensures forall i :: 0 <= i < |RemoveLinesWithWordsAsWritten| ==>
      !Contains("bmi: unknown", RemoveLinesWithWordsAsWritten[i])
  {
    var low := "bmi: unknown";
    var words := RemoveLinesWithWordsAsWritten;
    forall i | 0 <= i < |words|
      ensures !Contains(low, words[i])
    {
      if i == 0 {
        MissingChar(low, words[i], 'e');
      } else if i == 5 {
        MissingChar(low, words[i], '/');
      } else if i == 6 {
        MissingChar(low, words[i], 'd');
      } else {
        assert |words[i]| > 12;
        TooLong(low, words[i]);
      }
    }
  }

  /**
   * The corrected list does what the list evidently meant to: above the gate
   * no uploaded line mentions "unknown" or "un known", in any case.
   */
  lemma {:induction false} CorrectedLinesNeverUnknown(kind: Summary, preds: Predictions, segments: seq<string>,
                                                     generate: (string, string) -> Option<seq<string>>)
    requires Gate(InterestedText(preds.entities, segments))
    ensures forall line :: line in Lines(kind, preds, segments, generate, RemoveLinesWithWords) ==>
      !Contains(Lower(line), "unknown") && !Contains(Lower(line), "un known")
  {
    LinesCharacterized(kind, preds, segments, generate, RemoveLinesWithWords);
    assert RemoveLinesWithWords[1] == "un known" && RemoveLinesWithWords[2] == "unknown";
  }

  /**
   * `get_subjective_summary`, `get_objective_summary`,
   * `get_clinical_assessment_summary` and `get_care_plan_summary`: build the
   * prefix lines, pick the interesting segments, and above the gate append
   * the generated sentences and filter; the result is what gets uploaded.
   */
  method Summarize(kind: Summary, conversationId: string, preds: Predictions, segments: seq<string>,
                   generate: (string, string) -> Option<seq<string>>) returns (upload: Upload)
    ensures upload.key == conversationId + "/" + FileName(kind)
    ensures upload.lines == Lines(kind, preds, segments, generate, RemoveLinesWithWordsAsWritten)
  {
    var lines := PrefixLines(Keys(kind), preds.fields);
    var interest := GetInterestedText(preds.entities, segments);
    if Gate(interest) {
      var generated := generate(Join("\n", interest.value), SummaryType(kind));
      if generated.Some? {
        lines := lines + generated.value;
      } else {
        assert lines + [] == lines;
      }
      lines := FilterLines(lines, RemoveLinesWithWordsAsWritten);
    }
    upload := Upload(conversationId + "/" + FileName(kind), lines);
  }
}
