/** build_lessons.py, part 2: the per-lesson renderers. The HTML page is the
    head template, one phrase block per sentence joined by blank lines, and
    the tail template; CSV and XLSX hold a header row and one row per
    sentence; the Markdown is three lines per sentence. */
module LessonRender {
  import opened Storage
  import opened Text
  import opened Lessons

  /** `f"audio/{lesson_id}/{idx:02d}.mp3"`: the audio file of sentence `idx`
      (1-based), relative to the build directory. */
  function AudioRel(id: string, idx: nat): string {
    "audio/" + id + "/" + Pad2(idx) + ".mp3"
  }

  /** The audio references of one lesson never collide: the ordinal can be
      read back from the path. */
  lemma AudioRelInjective(id: string, a: nat, b: nat)
    requires AudioRel(id, a) == AudioRel(id, b)
    ensures a == b
  {
    var p := "audio/" + id + "/";
    assert AudioRel(id, a) == p + Pad2(a) + ".mp3";
    assert Pad2(a) == AudioRel(id, a)[|p|..|AudioRel(id, a)| - 4];
    assert Pad2(b) == AudioRel(id, b)[|p|..|AudioRel(id, b)| - 4];
    Pad2Injective(a, b);
  }

  /** The fixed text of `HTML_LESSON_TEMPLATE_HEAD`, line by line joined by
      newlines, cut where the title (twice) and the subtitle are filled in;
      its style sheet stands here as a placeholder line. */
  const HeadMarkup: seq<string> := [
    "<!DOCTYPE html>\n<html lang=\"fr\">\n<head>\n    <meta charset=\"UTF-8\">\n    <title>",
    "</title>\n    <meta name=\"viewport\" content=\"width=device-width, initial-scale=1\">\n    <style>\n"
      + "        /* lesson page style sheet */\n    </style>\n</head>\n<body>\n    <header>\n        <h1>",
    "</h1>\n        <p>",
    "</p>\n    </header>\n    <main>\n        <section class=\"tips\">\n"
      + "            <strong>使用方法：</strong>先看<b>法语句子</b>再对照<b>中文意思</b>，\n"
      + "            点右边的<b>▶️</b>听音频。优先播放 mp3，失败时用浏览器朗读兜底。\n        </section>\n"
  ]

  /** `HTML_LESSON_TEMPLATE_HEAD.format(title=..., subtitle=...)`. */
  function LessonHead(title: string, subtitle: string): string {
    Concat([HeadMarkup[0], title, HeadMarkup[1], title, HeadMarkup[2], subtitle, HeadMarkup[3]])
  }

  /** `HTML_LESSON_TEMPLATE_TAIL`, whose playback script stands here as a
      placeholder line. */
  const LessonTail := "\n" + Join([
      "    </main>",
      "    <footer>",
      "        Français · AWTZA",
      "    </footer>",
      "    <script>",
      "        /* mp3 playback with speechSynthesis fallback */",
      "    </script>",
      "</body>",
      "</html>"], "\n") + "\n"

  /** The fixed text of a phrase block's eight lines, cut at the six
      places where the sentence is filled in: the element id, the `data-fr`
      and `data-audio` attributes, the padded number, the French and the
      Chinese text. */
  const BlockMarkup: seq<string> := [
    "        <div class=\"phrase\" id=\"",
    "\" data-fr=\"",
    "\" data-audio=\"",
    "\">\n            <div class=\"num\">",
    "</div>\n            <div class=\"text\">\n                <div class=\"fr\">",
    "</div>\n                <div class=\"zh\">",
    "</div>\n            </div>\n            <button class=\"speak-btn\" onclick=\"playSentence(this.closest('.phrase'))\">▶️</button>\n        </div>"
  ]

  /** The element id of sentence `idx`: `f"{lesson_id}_{idx:02d}"`. */
  function ElementId(id: string, idx: nat): string {
    id + "_" + Pad2(idx)
  }

  /** Within one lesson the element ids of different sentences differ. */
  lemma ElementIdInjective(id: string, a: nat, b: nat)
    requires ElementId(id, a) == ElementId(id, b)
    ensures a == b
  {
    assert Pad2(a) == ElementId(id, a)[|id| + 1..];
    assert Pad2(b) == ElementId(id, b)[|id| + 1..];
    Pad2Injective(a, b);
  }

  /** The phrase block of sentence `idx` (1-based), the f-string of
      `build_lesson_html`: its `data-audio` is the sentence's mp3. */
  function PhraseBlock(id: string, idx: nat, s: Sentence): string {
    Concat([BlockMarkup[0], ElementId(id, idx), BlockMarkup[1], s.fr, BlockMarkup[2], AudioRel(id, idx),
      BlockMarkup[3], Pad2(idx), BlockMarkup[4], s.fr, BlockMarkup[5], ZhText(s), BlockMarkup[6]])
  }

  /** `lesson.get("title_zh", "") or lesson["id"]`. */
  function Subtitle(lesson: Record): (v: Value)
    requires IsLesson(lesson)
    ensures Truthy(lesson["title_zh"]) ==> v == lesson["title_zh"]
    ensures !Truthy(lesson["title_zh"]) ==> v == lesson["id"]
  {
    if Truthy(lesson["title_zh"]) then lesson["title_zh"] else lesson["id"]
  }

  /** The blocks of the sentences, numbered from 1. */
  function BlocksOf(id: string, ss: seq<Sentence>): (bs: seq<string>)
    ensures |bs| == |ss|
  {
    seq(|ss|, i requires 0 <= i < |ss| => PhraseBlock(id, i + 1, ss[i]))
  }

  /** The blocks of a lesson, one per sentence. */
  function Blocks(lesson: Record): seq<string>
    requires IsLesson(lesson)
  {
    BlocksOf(Show(lesson["id"]), Sentences(lesson))
  }

  /** The page `build_lesson_html` returns. */
  function LessonHtml(lesson: Record): string
    requires IsLesson(lesson)
  {
    LessonHead(Show(lesson["title"]), Show(Subtitle(lesson))) + Join(Blocks(lesson), "\n\n") + LessonTail
  }

  /** `build_lesson_html`'s loop: one block per sentence, appended in
      order with ordinals from 1. */
  method BuildBlocks(id: string, ss: seq<Sentence>) returns (blocks: seq<string>)
    ensures blocks == BlocksOf(id, ss)
  {
    blocks := [];
    var idx := 1;
    while idx <= |ss|
      invariant 1 <= idx <= |ss| + 1
      invariant |blocks| == idx - 1
      invariant forall k :: 0 <= k < idx - 1 ==> blocks[k] == PhraseBlock(id, k + 1, ss[k])
    {
      blocks := blocks + [PhraseBlock(id, idx, ss[idx - 1])];
      idx := idx + 1;
    }
  }

  /** `build_lesson_html`: head + "\n\n".join(blocks) + tail. */
  method BuildLessonHtml(lesson: Record) returns (html: string)
    requires IsLesson(lesson)
    ensures html == LessonHtml(lesson)
  {
    var head := LessonHead(Show(lesson["title"]), Show(Subtitle(lesson)));
    var blocks := BuildBlocks(Show(lesson["id"]), Sentences(lesson));
    html := head + Join(blocks, "\n\n") + LessonTail;
  }

  /** Between the head and the tail the page holds the blocks joined by
      blank lines; cut around sentence i's block, that is the blocks before
      it, a separator, the block, a separator, the blocks after it. */
  lemma BodyAround(lesson: Record, i: int)
    requires IsLesson(lesson) && 0 <= i < |Sentences(lesson)|
    ensures |Blocks(lesson)| == |Sentences(lesson)|
    ensures Blocks(lesson)[i] == PhraseBlock(Show(lesson["id"]), i + 1, Sentences(lesson)[i])
    ensures var bs := Blocks(lesson);
      Join(bs, "\n\n") ==
        Join(bs[..i], "\n\n") + (if i == 0 then "" else "\n\n") + bs[i]
        + (if i == |bs| - 1 then "" else "\n\n") + Join(bs[i + 1..], "\n\n")
  {
    var bs := Blocks(lesson);
    assert bs[i] == PhraseBlock(Show(lesson["id"]), i + 1, Sentences(lesson)[i]);
    JoinAround(bs, "\n\n", i);
  }

  /** The header row `["#", "Français", "中文"]`. */
  const Header: Row := [Txt("#"), Txt("Français"), Txt("中文")]

  /** `[idx, s["fr"], s.get("zh", "")]`. */
  function SentenceRow(idx: nat, s: Sentence): Row {
    [Num(idx), Txt(s.fr), Txt(ZhText(s))]
  }

  /** The rows `export_lesson_csv` and `export_lesson_xlsx` write. */
  function TableRows(ss: seq<Sentence>): seq<Row> {
    [Header] + seq(|ss|, i requires 0 <= i < |ss| => SentenceRow(i + 1, ss[i]))
  }

  /** The row loop of `export_lesson_csv` / `export_lesson_xlsx`: the header,
      then one row per sentence with its 1-based ordinal. */
  method LessonRows(lesson: Record) returns (rows: seq<Row>)
    requires IsLesson(lesson)
    ensures |rows| == |Sentences(lesson)| + 1 && rows[0] == Header
    ensures forall i :: 0 <= i < |Sentences(lesson)| ==>
      rows[i + 1] == [Num(i + 1), Txt(Sentences(lesson)[i].fr), Txt(ZhText(Sentences(lesson)[i]))]
    ensures rows == TableRows(Sentences(lesson))
  {
    rows := [Header];
    var sentences := Sentences(lesson);
    var idx := 1;
    while idx <= |sentences|
      invariant 1 <= idx <= |sentences| + 1
      invariant |rows| == idx && rows[0] == Header
      invariant forall i :: 0 <= i < idx - 1 ==> rows[i + 1] == SentenceRow(i + 1, sentences[i])
    {
      rows := rows + [[Num(idx), Txt(sentences[idx - 1].fr), Txt(ZhText(sentences[idx - 1]))]];
      idx := idx + 1;
    }
  }

  /** The lines of the Markdown export: `## NN fr`, then the translation,
      then an empty line, for each sentence. */
  function MdLines(ss: seq<Sentence>): (lines: seq<string>)
    ensures |lines| == 3 * |ss|
  {
    if ss == [] then []
    else MdLines(ss[..|ss| - 1]) + ["## " + Pad2(|ss|) + " " + ss[|ss| - 1].fr, ZhText(ss[|ss| - 1]), ""]
  }

  /** Line 3i, 3i+1 and 3i+2 of the Markdown belong to sentence i. */
  lemma {:induction false} MdLinesAt(ss: seq<Sentence>, i: int)
    requires 0 <= i < |ss|
    ensures MdLines(ss)[3 * i] == "## " + Pad2(i + 1) + " " + ss[i].fr
    ensures MdLines(ss)[3 * i + 1] == ZhText(ss[i])
    ensures MdLines(ss)[3 * i + 2] == ""
    decreases |ss|
  {
    if i < |ss| - 1 {
      MdLinesAt(ss[..|ss| - 1], i);
    }
  }

  /** `export_lesson_md`'s line loop; the file is `"\n".join(lines)`. */
  method LessonMarkdown(lesson: Record) returns (text: string)
    requires IsLesson(lesson)
    ensures text == Join(MdLines(Sentences(lesson)), "\n")
  {
    var lines: seq<string> := [];
    var sentences := Sentences(lesson);
    var idx := 1;
    while idx <= |sentences|
      invariant 1 <= idx <= |sentences| + 1
      invariant lines == MdLines(sentences[..idx - 1])
    {
      var s := sentences[idx - 1];
      assert sentences[..idx][..idx - 1] == sentences[..idx - 1];
      lines := lines + ["## " + Pad2(idx) + " " + s.fr];
      lines := lines + [ZhText(s)];
      lines := lines + [""];
      idx := idx + 1;
    }
    assert sentences[..|sentences|] == sentences;
    text := Join(lines, "\n");
  }

  /** `f"{lesson['id']}.<ext>"`. */
  function FileName(lesson: Record, ext: string): string
    requires IsLesson(lesson)
  {
    Show(lesson["id"]) + ext
  }

  /** `export_lesson_html`. */
  method ExportLessonHtml(out: Directory, lesson: Record) returns (path: string)
    requires IsLesson(lesson)
    modifies out
    ensures path == FileName(lesson, ".html")
    ensures out.entries == old(out.entries)[path := Page(LessonHtml(lesson))]
  {
    path := FileName(lesson, ".html");
    var html := BuildLessonHtml(lesson);
    out.Write(path, Page(html));
  }

  /** `export_lesson_csv`. */
  method ExportLessonCsv(out: Directory, lesson: Record) returns (path: string)
    requires IsLesson(lesson)
    modifies out
    ensures path == FileName(lesson, ".csv")
    ensures out.entries == old(out.entries)[path := Csv(TableRows(Sentences(lesson)))]
  {
    path := FileName(lesson, ".csv");
    var rows := LessonRows(lesson);
    out.Write(path, Csv(rows));
  }

  /** `export_lesson_md`. */
  method ExportLessonMd(out: Directory, lesson: Record) returns (path: string)
    requires IsLesson(lesson)
    modifies out
    ensures path == FileName(lesson, ".md")
    ensures out.entries == old(out.entries)[path := Page(Join(MdLines(Sentences(lesson)), "\n"))]
  {
    path := FileName(lesson, ".md");
    var text := LessonMarkdown(lesson);
    out.Write(path, Page(text));
  }

  /** `export_lesson_xlsx`: without openpyxl it returns None and writes
      nothing; otherwise one sheet "Phrases" with the same rows as the CSV. */
  method ExportLessonXlsx(out: Directory, lesson: Record, openpyxl: bool) returns (path: Option<string>)
    requires IsLesson(lesson)
    modifies out
    ensures !openpyxl ==> path == None && out.entries == old(out.entries)
    ensures openpyxl ==> (path == Some(FileName(lesson, ".xlsx")) &&
      out.entries == old(out.entries)[FileName(lesson, ".xlsx") := Workbook("Phrases", TableRows(Sentences(lesson)))])
  {
    if !openpyxl {
      return None;
    }
    var p := FileName(lesson, ".xlsx");
    var rows := LessonRows(lesson);
    out.Write(p, Workbook("Phrases", rows));
    path := Some(p);
  }
}
