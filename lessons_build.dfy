/** build_lessons.py, part 5: `build_all`. It loads the lessons; with none it
    stops; otherwise it exports every lesson (HTML, MD, CSV, XLSX, then the
    audio) into the build directory and writes the root index last. Nothing
    catches an exception here, so one raised on the way ends the build. */
module LessonBuild {
  import opened Storage
  import opened Text
  import opened Order
  import opened Lessons
  import opened LessonRender
  import opened LessonAudio
  import opened LessonIndex

  /** The voice `generate_lesson_tts` uses when called with its defaults. */
  const DefaultVoice: Option<string> := Some("fr-FR-Wavenet-D")

  /** What the four text exports of a lesson hold. */
  datatype Rendered = Rendered(html: string, md: string, rows: seq<Row>)

  function Render(lesson: Record): Rendered
    requires IsLesson(lesson)
  {
    Rendered(LessonHtml(lesson), Join(MdLines(Sentences(lesson)), "\n"), TableRows(Sentences(lesson)))
  }

  /** The four text exports of the lesson whose id prints as `name`, in the
      order `build_all` runs them; the spreadsheet only with openpyxl. */
  function Exports(e: Entries, name: string, r: Rendered, openpyxl: bool): Entries {
    var e3 := e[name + ".html" := Page(r.html)][name + ".md" := Page(r.md)][name + ".csv" := Csv(r.rows)];
    if openpyxl then e3[name + ".xlsx" := Workbook("Phrases", r.rows)] else e3
  }

  /** The speech step of a lesson with this id raises: its library and
      client are available, so it reaches `AUDIO_ROOT / lesson_id`, and the
      id is not a string. */
  predicate TtsRaises(id: Value, ttsReady: bool) {
    ttsReady && !id.Str?
  }

  /** Everything one lesson writes: its exports, then its audio. The file
      names print the id whatever its type; only the speech step needs a
      string. */
  function AfterLesson(e: Entries, id: Value, ss: seq<Sentence>, r: Rendered, openpyxl: bool,
                       ttsReady: bool, tts: Synthesizer): Entries
  {
    var e4 := Exports(e, Show(id), r, openpyxl);
    if ttsReady && id.Str? then TtsUpTo(e4, id.s, ss, |ss|, DefaultVoice, tts) else e4
  }

  /** The loaded lessons all have the fields the exports read. */
  predicate Buildable(lessons: seq<Record>) {
    forall i :: 0 <= i < |lessons| ==> IsLesson(lessons[i])
  }

  /** Some lesson's speech step raises, which ends `build_all`. */
  predicate StepRaises(lessons: seq<Record>, ttsReady: bool)
    requires Buildable(lessons)
  {
    exists i :: 0 <= i < |lessons| && TtsRaises(lessons[i]["id"], ttsReady)
  }

  /** How far the loop of `build_all` gets, counting from lesson `i`: up to
      and including the first lesson whose speech step raises, or to the end. */
  function ProcessedFrom(lessons: seq<Record>, ttsReady: bool, i: nat): (k: nat)
    requires i <= |lessons| && Buildable(lessons)
    ensures i <= k <= |lessons|
    ensures forall j :: i <= j < k - 1 ==> !TtsRaises(lessons[j]["id"], ttsReady)
    ensures (k == |lessons| && forall j :: i <= j < |lessons| ==> !TtsRaises(lessons[j]["id"], ttsReady))
         || (i < k && TtsRaises(lessons[k - 1]["id"], ttsReady))
    decreases |lessons| - i
  {
    if i == |lessons| then i
    else if TtsRaises(lessons[i]["id"], ttsReady) then i + 1
    else ProcessedFrom(lessons, ttsReady, i + 1)
  }

  /** The number of lessons `build_all` exports: all of them when no speech
      step raises, otherwise up to and including the first that does. */
  function Processed(lessons: seq<Record>, ttsReady: bool): (k: nat)
    requires Buildable(lessons)
    ensures k <= |lessons|
    ensures !StepRaises(lessons, ttsReady) ==> k == |lessons|
    ensures StepRaises(lessons, ttsReady) ==>
      0 < k && TtsRaises(lessons[k - 1]["id"], ttsReady) &&
      forall j :: 0 <= j < k - 1 ==> !TtsRaises(lessons[j]["id"], ttsReady)
  {
    ProcessedFrom(lessons, ttsReady, 0)
  }

  /** No speech step among the first `n` lessons raises. */
  predicate NoneRaiseBefore(lessons: seq<Record>, ttsReady: bool, n: nat)
    requires n <= |lessons| && Buildable(lessons)
  {
    forall j :: 0 <= j < n ==> !TtsRaises(lessons[j]["id"], ttsReady)
  }

  lemma NoneRaiseAll(lessons: seq<Record>, ttsReady: bool)
    requires Buildable(lessons) && NoneRaiseBefore(lessons, ttsReady, |lessons|)
    ensures !StepRaises(lessons, ttsReady)
  {
  }

  /** One lesson of the loop: the count from `i` is one more than `i` when its
      step raises, and the count from `i + 1` when it does not. */
  lemma ProcessedStep(lessons: seq<Record>, ttsReady: bool, i: nat)
    requires i < |lessons| && Buildable(lessons)
    ensures TtsRaises(lessons[i]["id"], ttsReady) ==> ProcessedFrom(lessons, ttsReady, i) == i + 1
    ensures !TtsRaises(lessons[i]["id"], ttsReady) ==>
      ProcessedFrom(lessons, ttsReady, i) == ProcessedFrom(lessons, ttsReady, i + 1)
  {
  }

  /** The build directory after the first `n` lessons, `rs[i]` being what
      lesson i renders to. */
  function BuildOut(e: Entries, lessons: seq<Record>, rs: seq<Rendered>, n: nat, openpyxl: bool,
                    ttsReady: bool, tts: Synthesizer): Entries
    requires n <= |lessons| == |rs| && Buildable(lessons)
  {
    if n == 0 then e
    else
      var lesson := lessons[n - 1];
      AfterLesson(BuildOut(e, lessons, rs, n - 1, openpyxl, ttsReady, tts),
                  lesson["id"], Sentences(lesson), rs[n - 1], openpyxl, ttsReady, tts)
  }

  function Renders(lessons: seq<Record>): (rs: seq<Rendered>)
    requires Buildable(lessons)
    ensures |rs| == |lessons|
  {
    seq(|lessons|, i requires 0 <= i < |lessons| && Buildable(lessons) => Render(lessons[i]))
  }

  /** A lesson's spreadsheet name never names an audio file of that lesson:
      audio paths hold a '/' after the id. */
  lemma XlsxIsNotAudio(id: string, j: nat)
    ensures id + ".xlsx" != AudioRel(id, j)
  {
    var a := AudioRel(id, j);
    assert a == "audio/" + id + "/" + Pad2(j) + ".mp3";
    assert |a| >= |id| + 12;
  }

  /** The exports add their files (the spreadsheet only with openpyxl) and
      remove nothing. */
  lemma ExportsKeys(e: Entries, name: string, r: Rendered, openpyxl: bool)
    ensures var x := Exports(e, name, r, openpyxl);
      && (forall k :: k in e ==> k in x)
      && name + ".html" in x && name + ".md" in x && name + ".csv" in x
      && (name + ".xlsx" in x <==> openpyxl || name + ".xlsx" in e)
  {
    assert (name + ".xlsx")[|name| + 1] == 'x' && (name + ".html")[|name| + 1] == 'h';
  }

  /** A lesson's step never removes a file and leaves its exports in place. */
  lemma AfterLessonKeeps(e: Entries, id: Value, ss: seq<Sentence>, r: Rendered, openpyxl: bool,
                         ttsReady: bool, tts: Synthesizer)
    ensures var x, name := AfterLesson(e, id, ss, r, openpyxl, ttsReady, tts), Show(id);
      && (forall k :: k in e ==> k in x)
      && name + ".html" in x && name + ".md" in x && name + ".csv" in x
      && (name + ".xlsx" in x <==> openpyxl || name + ".xlsx" in e)
  {
    var e4 := Exports(e, Show(id), r, openpyxl);
    ExportsKeys(e, Show(id), r, openpyxl);
    if ttsReady && id.Str? {
      TtsKeepsOthers(e4, id.s, ss, |ss|, DefaultVoice, tts);
      forall j | 1 <= j <= |ss| ensures id.s + ".xlsx" != AudioRel(id.s, j) {
        XlsxIsNotAudio(id.s, j);
      }
    }
  }

  /** After the first `n` lessons' steps every one of them has its page, its
      Markdown and its CSV in the build directory, named after its printed
      id, and its spreadsheet when openpyxl is installed; nothing that was
      there is removed. */
  lemma {:induction false} EveryLessonExported(e: Entries, lessons: seq<Record>, rs: seq<Rendered>, n: nat,
                                               openpyxl: bool, ttsReady: bool, tts: Synthesizer)
    requires n <= |lessons| == |rs| && Buildable(lessons)
    ensures forall k :: k in e ==> k in BuildOut(e, lessons, rs, n, openpyxl, ttsReady, tts)
    ensures forall i :: 0 <= i < n ==>
      var name, x := Show(lessons[i]["id"]), BuildOut(e, lessons, rs, n, openpyxl, ttsReady, tts);
      name + ".html" in x && name + ".md" in x && name + ".csv" in x && (openpyxl ==> name + ".xlsx" in x)
  {
    if n > 0 {
      EveryLessonExported(e, lessons, rs, n - 1, openpyxl, ttsReady, tts);
      var lesson := lessons[n - 1];
      AfterLessonKeeps(BuildOut(e, lessons, rs, n - 1, openpyxl, ttsReady, tts),
                       lesson["id"], Sentences(lesson), rs[n - 1], openpyxl, ttsReady, tts);
    }
  }

  /** The loop body of `build_all` for one lesson: the four exports, then the
      speech step, which raises for an id that is not a string when its
      library and client are available. */
  method ExportLesson(out: Directory, lesson: Record, openpyxl: bool, ttsReady: bool, tts: Synthesizer)
    returns (raised: bool)
    requires IsLesson(lesson)
    modifies out
    ensures raised <==> TtsRaises(lesson["id"], ttsReady)
    ensures out.entries ==
      AfterLesson(old(out.entries), lesson["id"], Sentences(lesson), Render(lesson), openpyxl, ttsReady, tts)
  {
    var _ := ExportLessonHtml(out, lesson);
    var _ := ExportLessonMd(out, lesson);
    var _ := ExportLessonCsv(out, lesson);
    var _ := ExportLessonXlsx(out, lesson, openpyxl);
    var _, r := GenerateLessonTts(out, lesson, ttsReady, true, DefaultVoice, tts);
    raised := r;
  }

  lemma BuildOutStep(e: Entries, lessons: seq<Record>, rs: seq<Rendered>, i: nat, openpyxl: bool,
                     ttsReady: bool, tts: Synthesizer)
    requires i < |lessons| && Buildable(lessons) && rs == Renders(lessons)
    ensures BuildOut(e, lessons, rs, i + 1, openpyxl, ttsReady, tts) ==
      AfterLesson(BuildOut(e, lessons, rs, i, openpyxl, ttsReady, tts), lessons[i]["id"], Sentences(lessons[i]),
                  Render(lessons[i]), openpyxl, ttsReady, tts)
  {
  }

  /** The `for lesson in lessons` loop of `build_all`: the lessons' steps in
      load order, ending with the first step that raises. */
  method ExportLessons(out: Directory, lessons: seq<Record>, openpyxl: bool, ttsReady: bool, tts: Synthesizer)
    returns (raised: bool)
    requires Buildable(lessons)
    modifies out
    ensures raised <==> StepRaises(lessons, ttsReady)
    ensures out.entries ==
      BuildOut(old(out.entries), lessons, Renders(lessons), Processed(lessons, ttsReady), openpyxl, ttsReady, tts)
  {
    ghost var e0 := out.entries;
    ghost var rs := Renders(lessons);
    ghost var k := Processed(lessons, ttsReady);
    raised := false;
    var i := 0;
    while i < |lessons|
      invariant 0 <= i <= |lessons|
      invariant out.entries == BuildOut(e0, lessons, rs, i, openpyxl, ttsReady, tts)
      invariant k == ProcessedFrom(lessons, ttsReady, i)
      invariant NoneRaiseBefore(lessons, ttsReady, i)
    {
      BuildOutStep(e0, lessons, rs, i, openpyxl, ttsReady, tts);
      ProcessedStep(lessons, ttsReady, i);
      raised := ExportLesson(out, lessons[i], openpyxl, ttsReady, tts);
      if raised {
        assert TtsRaises(lessons[i]["id"], ttsReady);
        return;
      }
      i := i + 1;
    }
    NoneRaiseAll(lessons, ttsReady);
  }

  /** `build_all`. The speech step runs with its default voice; `ttsReady`
      says whether its client library is installed and its client could be
      created. The clock reading for the index is `lastUpdated`. An
      exception from loading, from a speech step or from indexing the lesson
      ids ends the build where it happens (`raised`). */
  method BuildAll(content: Option<map<string, Parsed>>, out: Directory, root: Directory, openpyxl: bool,
                  ttsReady: bool, tts: Synthesizer, lastUpdated: string) returns (lessons: seq<Record>, raised: bool)
    requires out != root
    modifies out, root
    ensures LoadRaises(content) ==>
      raised && lessons == [] && out.entries == old(out.entries) && root.entries == old(root.entries)
    ensures !LoadRaises(content) ==> lessons == LoadSpec(content) && Buildable(lessons)
    ensures !LoadRaises(content) && lessons == [] ==>
      !raised && out.entries == old(out.entries) && root.entries == old(root.entries)
    ensures !LoadRaises(content) && lessons != [] ==>
      out.entries == BuildOut(old(out.entries), lessons, Renders(lessons), Processed(lessons, ttsReady),
                              openpyxl, ttsReady, tts)
    ensures !LoadRaises(content) && lessons != [] ==>
      (raised <==> StepRaises(lessons, ttsReady) || MetaRaises(lessons))
    ensures !LoadRaises(content) && lessons != [] ==>
      root.entries == if raised then old(root.entries)
                      else old(root.entries)["index.html" := Page(IndexHtml(lessons, Some(out.entries), lastUpdated))]
  {
    lessons, raised := LoadLessons(content);
    if raised {
      return;
    }
    forall i | 0 <= i < |lessons| ensures IsLesson(lessons[i]) {
      LoadedAreLessons(content, i);
    }
    if lessons == [] {
      return;
    }
    raised := ExportLessons(out, lessons, openpyxl, ttsReady, tts);
    if raised {
      return;
    }
    raised := ExportIndexHtml(root, lessons, out.entries, lastUpdated);
  }

  /** When the speech step runs, a lesson id that cannot be a dict key has
      already made it raise, so indexing never fails after a full loop. */
  lemma MetaRaisesAfterStep(lessons: seq<Record>, ttsReady: bool)
    requires Buildable(lessons) && ttsReady
    ensures MetaRaises(lessons) ==> StepRaises(lessons, ttsReady)
  {
    if MetaRaises(lessons) {
      var i :| 0 <= i < |lessons| && !Hashable(lessons[i]["id"]);
      assert TtsRaises(lessons[i]["id"], ttsReady);
    }
  }

  /** Once every lesson is exported, each loaded lesson whose printed id is
      a plain file name gets a card in the root index, unless its page is
      named `index.html` in some letter case. */
  lemma IndexListsEveryLesson(e: Entries, lessons: seq<Record>, rs: seq<Rendered>, i: int, openpyxl: bool,
                              ttsReady: bool, tts: Synthesizer)
    requires |lessons| == |rs| && Buildable(lessons) && 0 <= i < |lessons|
    requires '/' !in Show(lessons[i]["id"])
    ensures var name := Show(lessons[i]["id"]) + ".html";
      name in ListedFiles(Some(BuildOut(e, lessons, rs, |lessons|, openpyxl, ttsReady, tts))) <==>
      Lower(name) != "index.html"
  {
    var name := Show(lessons[i]["id"]) + ".html";
    var x := BuildOut(e, lessons, rs, |lessons|, openpyxl, ttsReady, tts);
    EveryLessonExported(e, lessons, rs, |lessons|, openpyxl, ttsReady, tts);
    ListedExactly(Some(x));
    assert name[|name| - 5..] == ".html";
    assert '/' !in name;
  }
}
