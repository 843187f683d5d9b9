# French lesson pipeline — a Dafny model

This project models the deterministic core of a small French-learning content
pipeline written in Python. The pipeline has five scripts:

- `build_lessons.py` is the lesson compiler. It loads the lesson JSON files of
  `lessons/`, fills in default fields and drops malformed files. For each
  lesson it renders an HTML page with play buttons, a CSV table, a Markdown
  list and an optional XLSX workbook. It asks Google Cloud Text-to-Speech for
  one mp3 per sentence, skipping the files that already exist. Last, it writes
  a root `index.html` with one card per page of the build directory.
- `res.py` reads the tagged `span.fr-phrase` elements of a restaurant
  dialogue page. It speaks each line with gTTS, then speaks each section, each
  role and the whole dialogue as one joined text each.
- `_Archive_files/res.py` speaks a static restaurant script of 100 lines, one
  mp3 per line, choosing the voice by role. It then joins the clips with
  pydub into one file per section and one global file, with fixed stretches
  of silence between them.
- `generate_html.py` lists the `.html` files beside it in an `index.html`,
  each under the text of its `<title>` element.
- `_Archive_files/daily_50.py` renders one fixed lesson of fifty phrases as
  HTML, CSV and Markdown, and speaks each phrase into an mp3.

## How the outside world is modelled

- **Files.** A directory is a `Storage.Directory` object. It holds a
  `map<string, Artifact>` from relative path to contents, and its one
  method `Write` overwrites a single path. An `Artifact` records what the
  writer was given: page text, CSV rows, a workbook sheet, audio bytes, a
  pydub mix as a list of pieces, or `Partial` for a file that was opened
  for writing before its writer raised.
- **A script that dies.** An exception nobody catches ends a script. Where
  that can happen, the state is a `Run(files, alive)` value.
- **Speech services.** Google Cloud TTS and gTTS are both a `Synthesizer`
  oracle. It maps a `Request` (text, language code, optional voice) to
  `Some(bytes)`, or to `None` when the call raises. The Google Cloud scripts
  receive the bytes before they open the target file, so a failed call
  leaves that file as it was. gTTS's `save` opens (and so truncates) the
  target first and then writes the answer as it arrives, so in `res.py` a
  failed call leaves a `Partial` file at the target.
- **Parsed inputs.** JSON and HTML parsing are taken as done. A lesson file
  is a `Parsed` value. It is `Unreadable` when reading or parsing raised,
  `NotObject` when it is valid JSON but not an object, and otherwise an
  object given as a map from key to `Value`. A dialogue span is a `Restaurant.Span` holding its three
  attributes and its stripped text.
- **Missing pieces.** Whether a client library is installed and whether a
  client can be created are boolean parameters. So is the presence of
  openpyxl.
- **Audio lengths.** pydub clip lengths come from an abstract
  `duration: Bytes -> nat`.
- **Clock.** The current time is a string parameter.
- **Strings and sorting.** Strings are `seq<char>`. `Order.Below` is
  Python's `<` on `str`, which compares code point by code point.
  `Order.SortedOf` is `sorted()` of a set of names in that order.

## Model

| member | source | states |
|---|---|---|
| `Lessons.LoadLessons` | build_lessons.py:45-74 | The function raises if and only if some globbed `*.json` file is valid JSON but not an object. Otherwise it returns exactly `LoadSpec`: nothing for a missing directory, else the kept records of the `*.json` files in sorted name order. |
| `Lessons.LoadOne` | build_lessons.py:53-72 | A parsed non-object raises. A file is kept if and only if it parsed to an object whose `sentences` value is a list. The kept record is the file's object with the defaults filled in and `_source_path` set. |
| `Lessons.NormalizeFields` | build_lessons.py:59-66 | `id` is the file stem only when the key is absent. `title` defaults to the id; `title_zh`, `description` and `description_zh` default to "". A value already present is kept. |
| `Lessons.NormalizeKeeps` | build_lessons.py:59-66 | Normalising keeps every key of the file, apart from `_source_path`, with its value. It adds no key other than the six defaults. |
| `Lessons.Stem` | build_lessons.py:60 | `Path.stem` of a globbed name is the name without `.json`, or the whole name when there is nothing before the extension. |
| `Lessons.LoadExactly` | build_lessons.py:48-74 | Of a load that does not raise: the source files of the loaded records are strictly increasing. A file's name is among them if and only if it is a top-level `.json` file that parsed to an object with a `sentences` list. A missing directory gives []. |
| `Lessons.LoadedFromFiles` | build_lessons.py:52-72 | Each loaded record is the normalised object of its own source file. |
| `Lessons.LoadedAreLessons` | build_lessons.py:59-72 | Every loaded record has all the fields the renderers read, with `sentences` a list. It keeps every value its file gave. |
| `LessonRender.BuildBlocks` | build_lessons.py:233-249 | The block loop appends exactly one phrase block per sentence, in order, numbered from 1. |
| `LessonRender.BuildLessonHtml` | build_lessons.py:227-252 | The page is the head filled with title and subtitle, then the blocks joined by "\n\n", then the tail. |
| `LessonRender.Subtitle` | build_lessons.py:230 | The subtitle is `title_zh` when it is truthy, otherwise the lesson id. |
| `LessonRender.BodyAround` | build_lessons.py:237-251 | Block i is the block of sentence i with ordinal i+1. Cut around block i, the body is the earlier blocks, one "\n\n", block i, one "\n\n", and the later blocks. |
| `LessonRender.ElementIdInjective` | build_lessons.py:241 | The element ids `<id>_<NN>` of different sentences of a lesson differ. |
| `LessonRender.AudioRelInjective` | build_lessons.py:240 | Different ordinals give different `audio/<id>/<NN>.mp3` references. |
| `LessonRender.LessonRows` | build_lessons.py:271-273 | The rows are the header `#, Français, 中文` followed by `[i+1, fr, zh or ""]` for sentence i, in order: one more row than sentences. |
| `LessonRender.MdLinesAt` | build_lessons.py:281-285 | Markdown lines 3i, 3i+1 and 3i+2 are `## NN fr`, the translation (or ""), and "". |
| `LessonRender.LessonMarkdown` | build_lessons.py:281-286 | The Markdown text is the three-lines-per-sentence list joined by "\n". |
| `LessonRender.ExportLessonHtml` | build_lessons.py:255-261 | Writes the page to `<id>.html` and changes nothing else. |
| `LessonRender.ExportLessonCsv` | build_lessons.py:266-275 | Writes the table rows to `<id>.csv` and changes nothing else. |
| `LessonRender.ExportLessonMd` | build_lessons.py:278-288 | Writes the Markdown to `<id>.md` and changes nothing else. |
| `LessonRender.ExportLessonXlsx` | build_lessons.py:291-309 | Without openpyxl it returns None and writes nothing. Otherwise it writes the CSV's rows to sheet "Phrases" of `<id>.xlsx`. |
| `LessonAudio.GenerateLessonTts` | build_lessons.py:314-376 | Returns before any write when the library is missing, the client fails, or the id is not a string (the last case raises). Otherwise it skips existing targets, writes answered sentences and skips failed ones. |
| `LessonAudio.TtsOutcome` | build_lessons.py:337-374 | After the loop a pre-existing file is untouched. A missing file holds the service's audio when the call succeeded, and stays absent when it failed; later sentences are still processed. |
| `LessonAudio.TtsKeepsOthers` | build_lessons.py:337-374 | The loop never changes a file that existed before. The only files it adds are this lesson's `audio/<id>/<NN>.mp3`. |
| `LessonAudio.TtsLaterTurns` | build_lessons.py:337-374 | A later sentence's turn never touches an earlier sentence's file. The existence test for sentence m sees the directory as it was at the start. |
| `LessonAudio.PageAudioExists` | build_lessons.py:240-241 | The `data-audio` of block i names the file this step handles for sentence i. That file exists afterwards if and only if it existed before or its synthesis call succeeded. |
| `LessonIndex.BuildMeta` | build_lessons.py:478-480 | The loop raises if and only if some lesson id is a list or a dict, which cannot be a dict key. Otherwise it builds the id-to-lesson index `MetaOf`. |
| `LessonIndex.MetaIsLast` | build_lessons.py:478-480 | An id is in the index if and only if some lesson has it, and it maps to the last lesson with that id. |
| `LessonIndex.Description` | build_lessons.py:500 | desc is `description_zh` when truthy, else `description` when truthy, else "". It is truthy if and only if one of the two is. |
| `LessonIndex.LinkPartsIff` | build_lessons.py:505-516 | The HTML link comes first. Each of the MD, CSV and XLSX links is present if and only if its file exists in the build directory. |
| `LessonIndex.ListedExactly` | build_lessons.py:485-493 | The carded files are strictly increasing by name. A name is among them if and only if it is a top-level `.html` file of the build directory whose lower case is not `index.html`. |
| `LessonIndex.CardsMatchListed` | build_lessons.py:490-533 | There is exactly one card per listed file, in the same order. |
| `LessonIndex.BuildIndexHtml` | build_lessons.py:471-538 | It raises if and only if some lesson id cannot be a dict key. Otherwise the page is the template filled with the clock reading and the cards joined by "\n". |
| `LessonIndex.CardUsesLesson` | build_lessons.py:495-500 | The page of a loaded lesson with a string id takes its metadata from that lesson, or from the last lesson sharing the id. |
| `LessonIndex.ExportIndexHtml` | build_lessons.py:540-550 | When building the page raises, nothing is written. Otherwise it writes the page to `index.html` of the root directory and changes nothing else there. |
| `LessonBuild.ExportLesson` | build_lessons.py:562-568 | One lesson's step writes HTML, MD, CSV, then XLSX when openpyxl is present, all named after the id as printed, whatever its type. Then comes the audio batch. The step raises if and only if the speech step runs and the id is not a string. |
| `LessonBuild.Processed` | build_lessons.py:562-568 | The loop gets through every lesson when no speech step raises. Otherwise it stops just after the first lesson whose step raises. |
| `LessonBuild.ExportLessons` | build_lessons.py:562-568 | The loop raises if and only if some lesson's speech step raises. The build directory afterwards is the steps of the processed lessons applied in load order. |
| `LessonBuild.BuildAll` | build_lessons.py:556-570 | A load that raises writes nothing. Otherwise the lessons are `LoadSpec` of the content, and with none nothing is written anywhere, not even the index. Otherwise the lessons are exported up to the first raising step. The index is written if and only if no step raised and every id can be a dict key. |
| `LessonBuild.MetaRaisesAfterStep` | build_lessons.py:478-480 | When the speech step runs, an id that cannot be a dict key has already raised in the lesson loop (at line 334), so the index step itself never raises. |
| `LessonBuild.EveryLessonExported` | build_lessons.py:562-568 | After the steps of the first n lessons, each of them has `.html`, `.md` and `.csv` named after its printed id, and `.xlsx` when openpyxl is present. No file that was there is removed. |
| `LessonBuild.IndexListsEveryLesson` | build_lessons.py:485-493 | Once every lesson is exported, the page of each lesson whose printed id is a plain name gets an index card if and only if its name is not `index.html` in some letter case. |
| `Restaurant.LineOf` | res.py:36-45 | A span is skipped if and only if it has no or an empty `data-tts-id`, or empty text. Otherwise it keeps its id and text; role defaults to "unknown" and section to "default". |
| `Restaurant.SkippedSpanIgnored` | res.py:40-45 | Removing a skipped span changes neither the kept lines nor any call the script makes. |
| `Restaurant.SameTotals` | res.py:53-55 | Each kept line is counted once in the section groups, once in the role groups and once in `all_texts`, so the three totals are equal. |
| `Restaurant.GroupJobs` | res.py:58-67 | There is one call per group key, in key order: the group's texts joined by one space, written to `<prefix><key>.mp3`. |
| `Restaurant.AllLast` | res.py:69-73 | The script makes no call if and only if no span is kept. Otherwise its last call writes `restaurant_all.mp3` from all kept texts joined by spaces. |
| `Restaurant.SayFacts` | res.py:15-22 | A blank text asks for nothing and writes nothing. Otherwise the request is the collapsed text with the same visible characters; an answer is written to the target and the run goes on, while a failed call leaves a partial file at the target and ends the run. A call writes only its own path. |
| `Restaurant.TextToSpeech` | res.py:15-22 | `text_to_speech` is the step `Say`: collapse the whitespace and do nothing for an empty result; otherwise open the target (leaving a partial file), then write the answer, or fail with the partial file left in place. |
| `Restaurant.SpeakLines` | res.py:35-55 | The span loop speaks each kept line to `restaurant_<id>.mp3` in document order. When every call succeeds, the section, role and overall collections hold exactly the groupings of the kept lines. |
| `Restaurant.SpeakGroups` | res.py:58-67 | The group loop makes the group calls in key order and stops at the first failure. |
| `Restaurant.RunScript` | res.py:24-73 | The whole script makes exactly the calls of `Jobs`, in order: lines, then sections, then roles, then everything. A failed call ends it, with a partial file at that call's target. |
| `Text.CollapseNormalForm` | res.py:17-18 | `" ".join(text.split())` has only single spaces between words and none at the ends. It keeps every visible character in order, and is empty if and only if the text is all whitespace. |
| `Text.CollapseIdempotent` | res.py:17 | Normalising the whitespace twice gives the same text as once. |
| `Text.SplitJoin` | res.py:17 | Splitting a space-joined list of words gives the words back. |
| `Grouping.Groups.Append` | res.py:53-54 | `d[k].append(v)` on an insertion-ordered dict of lists: a new key goes last, and the key's list gains v. |
| `Grouping.KeysExactly` | _Archive_files/res.py:180-182 | The keys are exactly the keys that occur, each once, in order of first appearance. |
| `Grouping.ListsSelect` | _Archive_files/res.py:180-182 | A key has a list if and only if it occurs. Its list is its values in input order. |
| `Grouping.GroupsCount` | res.py:53-55 | The groups together hold exactly as many values as were fed in. |
| `RestaurantScript.IdsDistinct` | _Archive_files/res.py:33-150 | No two lines of `ALL_LINES` share an id. |
| `RestaurantScript.AllLinesAscending` | _Archive_files/res.py:150 | The id numbers strictly increase along `ALL_LINES`, the dialogue table followed by the vocabulary table. |
| `RestaurantScript.AllLinesShaped` | _Archive_files/res.py:33-150 | Every line of `ALL_LINES` has a four-character id and a non-empty section id. |
| `RestaurantClips.VoiceFor` | _Archive_files/res.py:156 | The waiter's voice if and only if the role is "serveur"; otherwise the customer's voice. |
| `RestaurantClips.GenerateIndividualFiles` | _Archive_files/res.py:165-175 | Each line's `<id>.mp3` is written with the service's answer, with no existence check. The first failed call ends the run. |
| `RestaurantClips.IndividualWrites` | _Archive_files/res.py:165-175 | When ids are distinct and the run completes, every line's file holds that line's own audio, whatever it held before. |
| `RestaurantClips.IndividualAlive` | _Archive_files/res.py:165-175 | The run completes if and only if every call succeeds. |
| `RestaurantClips.ScriptLineFiles` | _Archive_files/res.py:166-175 | For `ALL_LINES`, a completed first step leaves every line's file holding that line's own audio: the per-line paths never collide. |
| `RestaurantClips.GroupSections` | _Archive_files/res.py:180-182 | The `setdefault(...).append` loop builds exactly the grouping of the (section, id) pairs. |
| `RestaurantClips.SectionsContents` | _Archive_files/res.py:180-182 | `sections` has a key for exactly the sections present. Each key's list is its line ids in table order. |
| `RestaurantClips.SectionsOrder` | _Archive_files/res.py:180-182 | The section keys are distinct and in first-appearance order. |
| `RestaurantClips.SectionClip` | _Archive_files/res.py:187-192 | With every line's audio present, a section clip is 200 ms of silence, then each line's clip followed by 400 ms. |
| `RestaurantClips.SectionClipLength` | _Archive_files/res.py:187-192 | A section clip lasts 200 + Σ dᵢ + 400·n milliseconds. |
| `RestaurantClips.MixSection` | _Archive_files/res.py:187-192 | The inner loop computes `SectionMix`; a missing or undecodable file gives None. |
| `RestaurantClips.MixSections` | _Archive_files/res.py:185-194 | The section loop exports each clip to `<section>_all.mp3` in key order. The first read that raises ends the run. |
| `RestaurantClips.VocabCheck` | _Archive_files/res.py:198-200 | The notice shows if and only if `vocab_all.mp3` is missing and a "vocab" section exists. It writes nothing. |
| `RestaurantClips.VocabNoticeSilent` | _Archive_files/res.py:196-200 | Once the section loop completes, `vocab_all.mp3` exists whenever a "vocab" section exists. |
| `RestaurantClips.GlobalPieces` | _Archive_files/res.py:203-209 | With every section file in place, the global clip is 200 ms of silence, then each section's pieces in sorted order at its start position, each followed by 800 ms, and nothing else. |
| `RestaurantClips.GlobalClip` | _Archive_files/res.py:203-209 | With every section file in place, the global clip lasts 200 + the section lengths + 800 per section. |
| `RestaurantClips.GlobalOrder` | _Archive_files/res.py:205 | The global clip visits the sections in strictly increasing order, and visits exactly the sections present. |
| `RestaurantClips.BuildSectionsAndGlobal` | _Archive_files/res.py:178-211 | The method computes `Build`. When it completes, the vocabulary notice is never printed. |
| `RestaurantClips.RunScript` | _Archive_files/res.py:214-217 | If the client cannot be created (line 11), nothing is written. Otherwise the individual files are made, then the joined clips, and a raise in the first step skips the second. |
| `RestaurantClips.ScriptOutcome` | _Archive_files/res.py:165-211 | When every call succeeds and names do not clash, the script completes. Each section's file is the clip of its lines' audio, and `all_dialogues.mp3` is written. |
| `RestaurantClips.ScriptApart` | _Archive_files/res.py:165-194 | In the script's own table no `<section>_all.mp3` has the name of a line's `<id>.mp3`, so no section clip overwrites a line file. |
| `RestaurantClips.AllLinesOutcome` | _Archive_files/res.py:214-217 | `main` on the real table: when every line's call succeeds, the script completes, each section's file is the clip of its lines' audio, and `all_dialogues.mp3` is written. |
| `IndexPage.FindFirst` | generate_html.py:13 | The case-insensitive search finds the first occurrence at or after its start, and fails only when there is none. |
| `IndexPage.TitleExists` | generate_html.py:13-18 | A title is found if and only if some `<title>` is followed, anywhere later, by a `</title>` in any letter case. |
| `IndexPage.TitleText` | generate_html.py:13-15 | The title is the stripped text between the first `<title>` and the nearest `</title>` after it. |
| `Text.StripTrims` | generate_html.py:15 | `strip()` leaves no whitespace at either end, is empty for blank text, and otherwise cuts only whitespace from the two ends. |
| `IndexPage.TitleOrName` | generate_html.py:29 | The entry's title is the extracted title when it is present and non-empty, otherwise the file name. |
| `IndexPage.CollectFiles` | generate_html.py:21-30 | The listing loop collects a `(name, title)` pair for each regular file whose lower-cased name ends in `.html` and is not `index.html`, in listing order. |
| `IndexPage.CollectedSound` | generate_html.py:22-30 | Every collected pair comes from a listed regular file with such a name. |
| `IndexPage.CollectedComplete` | generate_html.py:22-30 | Every listed regular file with such a name is collected. |
| `IndexPage.SortByNameCorrect` | generate_html.py:32 | The sort orders the entries by file name and keeps each entry exactly as often as before. |
| `IndexPage.ItemCount` | generate_html.py:61-72 | With no entries the list is the one placeholder line. Otherwise it has exactly 8 lines per entry. |
| `IndexPage.EntryAt` | generate_html.py:64-72 | Entry i owns lines 8i to 8i+7, in file order. |
| `IndexPage.BuildParts` | generate_html.py:35-78 | The lines are the opening lines, then the item lines, then the closing lines. |
| `IndexPage.GenerateIndex` | generate_html.py:20-84 | Writes `index.html` as those lines over the sorted entries, joined by "\n", and reports the entry count. |
| `IndexPage.PageListsShownFiles` | generate_html.py:22-32 | The page lists exactly the collected entries, sorted by name, and includes every shown regular file. |
| `DailyPhrases.PhrasesNumbered` | _Archive_files/daily_50.py:24-75 | The table has 50 phrases, numbered 1 to 50 in order with no gap. |
| `Daily50.BuildHtmlBody` | _Archive_files/daily_50.py:204-216 | The body is one block per phrase, in table order, joined by "\n\n". |
| `Daily50.PageBlocks` | _Archive_files/daily_50.py:204-216 | Block i carries the id `p<i+1>` and the number i+1 padded to width 2. No two blocks share an id. |
| `Daily50.ExportHtml` | _Archive_files/daily_50.py:218-221 | Writes `HTML_HEAD + body + HTML_TAIL` to `fr_daily_50.html` and changes nothing else. |
| `Daily50.CsvRows` | _Archive_files/daily_50.py:230-232 | The rows are the header, then `[num, fr, zh]` per phrase, using the table's own num. |
| `Daily50.CsvNumbers` | _Archive_files/daily_50.py:24-75 | For this table, row i of the CSV carries the number i, for i from 1 to 50. |
| `Daily50.MdLinesAt` | _Archive_files/daily_50.py:239-243 | Markdown lines 3i, 3i+1 and 3i+2 are `## NN fr`, zh and "". |
| `Daily50.MdText` | _Archive_files/daily_50.py:239-244 | The Markdown is the three-lines-per-phrase list joined by "\n". |
| `Daily50.GenerateTts` | _Archive_files/daily_50.py:250-300 | Without the library or client it raises before writing. Otherwise it writes `<NN>.mp3` for each phrase with no existence check, and the first failure ends the run. |
| `Daily50.TtsAbort` | _Archive_files/daily_50.py:291-297 | A failed synthesis ends the run: the later phrases get no file. |
| `Daily50.TtsWrites` | _Archive_files/daily_50.py:271-297 | When the run completes, each phrase's file holds the service's answer for it, whatever the directory held before. |
| `Daily50.DailyOutcome` | _Archive_files/daily_50.py:305-310 | With every call answered, `main` leaves `audio/01.mp3` to `audio/50.mp3`, each holding the answer for its phrase. |
| `Text.Pad2RoundTrip` | build_lessons.py:240 | `{n:02d}` writes only digits, and reading them back gives n. |
| `Order.SortedOfSorted` | build_lessons.py:52 | `sorted()` of a set of names is strictly increasing in Python's string order. |
| `Order.SortedUnique` | build_lessons.py:486 | Only one strictly increasing sequence holds exactly a given set of names. |

## Behaviour worth noting

The model follows the code in each of these places, where a reader might
expect something else:

- **No HTML escaping.** Sentence text, titles and file names go into the
  HTML pages verbatim, and so they do in the model.
- **Missing library or client.** `generate_lesson_tts` does not fail
  sentence by sentence when the library is missing or the client cannot
  be created. It returns once, before any write.
- **Exceptions end the build.** Nothing in `build_all` catches an
  exception, and three inputs raise one. A lesson file that is valid JSON
  but not an object makes `load_lessons` raise (build_lessons.py:59-61),
  so nothing is built. An id that is not a string makes the speech step
  raise at build_lessons.py:334 when the speech service is available; the
  lessons after it and the index are not built. An id that is a list or
  an object makes the index step raise at build_lessons.py:480. The model
  ends the run at each of these points.
- **Fatal errors in the archived scripts.** In `res.py`,
  `_Archive_files/res.py` and `_Archive_files/daily_50.py` a failed
  synthesis is not caught, so the script ends. The model ends the run
  there. In `res.py` the failing target has already been opened by gTTS,
  so it is left empty or partly written, even where an earlier run had
  left a complete file.
- **Padding after the last item.** The code appends 400 ms after every
  line of a section, including the last. It appends 800 ms after every
  section, including the last.
- **Roles.** The role tag may be any string. Only "serveur" selects its
  own voice.

## Left out

- `Restaurant.Say`: the contents of the file a failed gTTS call leaves
  behind. Whether it is empty or holds the first chunks of the answer
  depends on where the request failed, which the oracle does not say, so
  the model writes `Partial` without bytes. gTTS is not part of this model;
  that its `save` opens the target in `"wb"` mode before requesting any
  audio is taken from gTTS's own implementation.

- Path normalisation. Paths are map keys compared as spelled. pathlib
  collapses empty, `.` and doubled parts and trailing slashes, and an
  absolute part replaces the base. So in the source, lesson ids such as `a`
  and `a/`, or `a` and `./a`, name the same files (build_lessons.py:257,
  334, 341), and an id starting with `/` writes outside the build
  directory. The model treats such names as different keys, so for those
  ids its calls and files can differ from the source's.
- I/O effects beyond the model. Directory creation (`mkdir`), encodings
  (CSV quoting, the xlsx format, mp3 bytes) and filesystem errors are not
  modelled. A directory is a map, and a file keeps the value its writer
  was given.
- The templates' style sheets and the pages' playback scripts (mp3 playback
  with the `speechSynthesis` fallback). Each stands as one placeholder line;
  the markup around the filled-in values is kept.
- `speaking_rate` (0.85). It is a fixed float passed to the service and does
  not appear in the `Request`.
- Setting `GOOGLE_APPLICATION_CREDENTIALS` in the process environment
  (build_lessons.py:34, _Archive_files/res.py:7). It is an environment side
  effect; whether a client can be created is a parameter instead.
- `datetime.now()`, which is passed in as a string.
- Printed log lines.
- JSON parsing and BeautifulSoup/lxml parsing, whose outputs are inputs
  here.
  - A sentence is assumed to be an object with a string `fr` and an
    optional string `zh`. A sentence without `fr`, or one that is not an
    object, makes the source raise `KeyError`/`TypeError`; the model does not
    represent such sentences.
  - Values other than strings and lists are carried only as their `str()`
    text, their truthiness and whether they can be dict keys.
  - Python treats equal numbers such as `1`, `1.0` and `true` as one dict
    key; `LessonIndex.MetaOf` keeps such ids apart. Pages are looked up
    only by string keys, so the page is the same either way.
  - `SourcePath` stands only for the path that loading stores under
    `_source_path`. A record given directly with a `SourcePath` id would be
    joined to the audio path by Python, but the model treats it like any
    other non-string id. JSON cannot produce such a record.
- Windows behaviour. The script's credential path suggests Windows, where
  `glob` and path ordering ignore letter case. The model follows POSIX:
  case-sensitive globbing, and ordering by code point.
- Unicode case rules. Case-insensitive tests use ASCII lower-casing
  (`Text.Lower`). For the comparisons with `index.html` and `.html` this
  matches Python's `str.lower()`, since no non-ASCII character lowers to
  one of those ASCII letters. In the `<title>` search, Python's
  `re.IGNORECASE` also lets `İ` (U+0130) and `ı` (U+0131) match `i`; the model
  does not.
- pydub's decoding and encoding. A decoded mp3 is one clip of abstract
  length `duration(bytes)`. An exported mix decodes back to its own pieces.
  mp3 frame rounding of lengths is not modelled.
