/** _Archive_files/daily_50.py: one fixed lesson of fifty everyday phrases,
    rendered as an HTML page, a CSV table and a Markdown list, with one mp3
    per phrase from the speech service. The output files are keys of one
    directory map; the speech service is the `tts` oracle. */
module Daily50 {
  import opened Storage
  import opened Text
  import LessonRender
  import opened DailyPhrases

  // ---------------------------------------------------------------------
  // HTML

  /** `HTML_HEAD`, whose style sheet stands here as a placeholder line. */
  const Head := Join([
      "<!DOCTYPE html>",
      "<html lang=\"fr\">",
      "<head>",
      "    <meta charset=\"UTF-8\">",
      "    <title>Français – 50 phrases de la vie quotidienne</title>",
      "    <meta name=\"viewport\" content=\"width=device-width, initial-scale=1\">",
      "    <style>",
      "        /* daily phrases style sheet */",
      "    </style>",
      "</head>",
      "<body>",
      "    <header>",
      "        <h1>50 phrases de la vie quotidienne</h1>",
      "        <p>日常对话常用 50 句 · Cliquez sur ▶️ pour 听法语发音</p>",
      "    </header>",
      "    <main>",
      "        <section class=\"tips\">",
      "            <strong>使用方法：</strong>先看<b>法语句子</b>再对照<b>中文意思</b>，",
      "            最后点右边的<b>▶️</b>跟读。语速比正常略慢，适合初学者。",
      "        </section>"], "\n") + "\n"

  /** `HTML_TAIL`, whose `speak` script stands here as a placeholder line. */
  const Tail := "\n" + Join([
      "    </main>",
      "    <footer>",
      "        Français · Vie quotidienne · AWTZA",
      "    </footer>",
      "    <script>",
      "        /* speak(text) with speechSynthesis */",
      "    </script>",
      "</body>",
      "</html>"], "\n") + "\n"

  /** The element id of a phrase: `f"p{num}"`, the ordinal unpadded. */
  function ElementId(p: Phrase): string {
    "p" + Decimal(p.num)
  }

  /** Phrases with different ordinals get different element ids. */
  lemma ElementIdInjective(p: Phrase, q: Phrase)
    requires ElementId(p) == ElementId(q)
    ensures p.num == q.num
  {
    assert Decimal(p.num) == ElementId(p)[1..];
    assert Decimal(q.num) == ElementId(q)[1..];
    ParseDecimalOf(p.num);
    ParseDecimalOf(q.num);
  }

  /** The fixed text of a phrase block's eight lines, cut at the five
      places where the phrase is filled in: the id, the `data-fr`
      attribute, the padded number, the French and the Chinese text. */
  const Markup: seq<string> := [
    "        <div class=\"phrase\" id=\"",
    "\" data-fr=\"",
    "\">\n            <div class=\"num\">",
    "</div>\n            <div class=\"text\">\n                <div class=\"fr\">",
    "</div>\n                <div class=\"zh\">",
    "</div>\n            </div>\n            <button class=\"speak-btn\" onclick=\"speak(this.closest('.phrase').dataset.fr)\">▶️</button>\n        </div>"
  ]

  /** One phrase block, the f-string of `build_html_body`. */
  function Block(p: Phrase): string {
    Concat([Markup[0], ElementId(p), Markup[1], p.fr, Markup[2], Pad2(p.num), Markup[3], p.fr, Markup[4], p.zh, Markup[5]])
  }

  /** The blocks of the phrases, in order. */
  function Blocks(ps: seq<Phrase>): (bs: seq<string>)
    ensures |bs| == |ps|
  {
    seq(|ps|, i requires 0 <= i < |ps| => Block(ps[i]))
  }

  /** In a table numbered from 1, block i carries the id `p<i + 1>` and the
      number `i + 1` padded to two digits, and no two blocks share an id. */
  lemma NumberedBlocks(ps: seq<Phrase>)
    requires Numbered(ps, 1)
    ensures |Blocks(ps)| == |ps|
    ensures forall i :: 0 <= i < |ps| ==> (Blocks(ps)[i] ==
      Concat([Markup[0], "p" + Decimal(i + 1), Markup[1], ps[i].fr, Markup[2], Pad2(i + 1), Markup[3],
        ps[i].fr, Markup[4], ps[i].zh, Markup[5]]))
    ensures forall i, j :: 0 <= i < j < |ps| ==> ElementId(ps[i]) != ElementId(ps[j])
  {
    forall i, j | 0 <= i < j < |ps| ensures ElementId(ps[i]) != ElementId(ps[j]) {
      if ElementId(ps[i]) == ElementId(ps[j]) {
        ElementIdInjective(ps[i], ps[j]);
      }
    }
  }

  /** `build_html_body`: one block per phrase, in table order, joined by
      blank lines. */
  method BuildHtmlBody(ps: seq<Phrase>) returns (body: string)
    ensures body == Join(Blocks(ps), "\n\n")
  {
    var blocks: seq<string> := [];
    var i := 0;
    while i < |ps|
      invariant 0 <= i <= |ps|
      invariant |blocks| == i && forall k :: 0 <= k < i ==> blocks[k] == Block(ps[k])
    {
      var p := ps[i];
      blocks := blocks + [Block(p)];
      i := i + 1;
    }
    assert blocks == Blocks(ps);
    body := Join(blocks, "\n\n");
  }

  /** The page `export_html` writes. */
  function Html(ps: seq<Phrase>): string {
    Head + Join(Blocks(ps), "\n\n") + Tail
  }

  /** The page holds fifty blocks, numbered `01` to `50` with the ids `p1`
      to `p50`. */
  lemma PageBlocks()
    ensures |Blocks(Phrases)| == 50
    ensures forall i :: 0 <= i < 50 ==> (Blocks(Phrases)[i] ==
      Concat([Markup[0], "p" + Decimal(i + 1), Markup[1], Phrases[i].fr, Markup[2], Pad2(i + 1), Markup[3],
        Phrases[i].fr, Markup[4], Phrases[i].zh, Markup[5]]))
    ensures forall i, j :: 0 <= i < j < 50 ==> ElementId(Phrases[i]) != ElementId(Phrases[j])
  {
    PhrasesNumbered();
    NumberedBlocks(Phrases);
  }

  /** `export_html`: `HTML_HEAD + build_html_body() + HTML_TAIL`. */
  method ExportHtml(out: Directory, ps: seq<Phrase>)
    modifies out
    ensures out.entries == old(out.entries)["fr_daily_50.html" := Page(Html(ps))]
  {
    var body := BuildHtmlBody(ps);
    out.Write("fr_daily_50.html", Page(Head + body + Tail));
  }

  // ---------------------------------------------------------------------
  // CSV

  /** `[num, fr, zh]`: the table's own ordinal, not a position. */
  function PhraseRow(p: Phrase): Row {
    [Num(p.num), Txt(p.fr), Txt(p.zh)]
  }

  /** The header, then one row per phrase. */
  function Rows(ps: seq<Phrase>): seq<Row> {
    [LessonRender.Header] + seq(|ps|, i requires 0 <= i < |ps| => PhraseRow(ps[i]))
  }

  /** `export_csv`'s row loop. */
  method CsvRows(ps: seq<Phrase>) returns (rows: seq<Row>)
    ensures |rows| == |ps| + 1 && rows[0] == [Txt("#"), Txt("Français"), Txt("中文")]
    ensures forall i :: 0 <= i < |ps| ==> rows[i + 1] == [Num(ps[i].num), Txt(ps[i].fr), Txt(ps[i].zh)]
    ensures rows == Rows(ps)
  {
    rows := [LessonRender.Header];
    var i := 0;
    while i < |ps|
      invariant 0 <= i <= |ps|
      invariant |rows| == i + 1 && rows[0] == LessonRender.Header
      invariant forall k :: 0 <= k < i ==> rows[k + 1] == PhraseRow(ps[k])
    {
      rows := rows + [[Num(ps[i].num), Txt(ps[i].fr), Txt(ps[i].zh)]];
      i := i + 1;
    }
  }

  /** For this table the literal ordinal of row i + 1 is i + 1: the CSV
      numbers its rows 1 to 50. */
  lemma CsvNumbers()
    ensures |Rows(Phrases)| == 51
    ensures forall i :: 1 <= i <= 50 ==> Rows(Phrases)[i][0] == Num(i)
  {
    PhrasesNumbered();
  }

  /** `export_csv`. */
  method ExportCsv(out: Directory, ps: seq<Phrase>)
    modifies out
    ensures out.entries == old(out.entries)["fr_daily_50.csv" := Csv(Rows(ps))]
  {
    var rows := CsvRows(ps);
    out.Write("fr_daily_50.csv", Csv(rows));
  }

  // ---------------------------------------------------------------------
  // Markdown

  /** `## NN fr`, the translation and an empty line for each phrase. */
  function MdLines(ps: seq<Phrase>): (lines: seq<string>)
    ensures |lines| == 3 * |ps|
  {
    if ps == [] then []
    else
      var p := ps[|ps| - 1];
      MdLines(ps[..|ps| - 1]) + ["## " + Pad2(p.num) + " " + p.fr, p.zh, ""]
  }

  /** Lines 3i, 3i+1 and 3i+2 belong to phrase i. */
  lemma {:induction false} MdLinesAt(ps: seq<Phrase>, i: int)
    requires 0 <= i < |ps|
    ensures MdLines(ps)[3 * i] == "## " + Pad2(ps[i].num) + " " + ps[i].fr
    ensures MdLines(ps)[3 * i + 1] == ps[i].zh
    ensures MdLines(ps)[3 * i + 2] == ""
    decreases |ps|
  {
    if i < |ps| - 1 {
      MdLinesAt(ps[..|ps| - 1], i);
    }
  }

  /** `export_md`'s line loop and join. */
  method MdText(ps: seq<Phrase>) returns (text: string)
    ensures text == Join(MdLines(ps), "\n")
  {
    var lines: seq<string> := [];
    var i := 0;
    while i < |ps|
      invariant 0 <= i <= |ps|
      invariant lines == MdLines(ps[..i])
    {
      var p := ps[i];
      assert ps[..i + 1][..i] == ps[..i];
      lines := lines + ["## " + Pad2(p.num) + " " + p.fr];
      lines := lines + [p.zh];
      lines := lines + [""];
      i := i + 1;
    }
    assert ps[..i] == ps;
    text := Join(lines, "\n");
  }

  /** `export_md`. */
  method ExportMd(out: Directory, ps: seq<Phrase>)
    modifies out
    ensures out.entries == old(out.entries)["fr_daily_50.md" := Page(Join(MdLines(ps), "\n"))]
  {
    var text := MdText(ps);
    out.Write("fr_daily_50.md", Page(text));
  }

  // ---------------------------------------------------------------------
  // generate_tts_google

  const DefaultVoice := "fr-FR-Wavenet-D"

  /** `output_dir / f"{num:02d}.mp3"`. */
  function AudioPath(dir: string, num: nat): string {
    dir + "/" + Pad2(num) + ".mp3"
  }

  /** Different ordinals give different files. */
  lemma AudioPathInjective(dir: string, a: nat, b: nat)
    requires AudioPath(dir, a) == AudioPath(dir, b)
    ensures a == b
  {
    var n := |dir| + 1;
    assert Pad2(a) == AudioPath(dir, a)[n..|AudioPath(dir, a)| - 4];
    assert Pad2(b) == AudioPath(dir, b)[n..|AudioPath(dir, b)| - 4];
    Pad2Injective(a, b);
  }

  /** The request for one phrase: its French text in "fr-FR". */
  function PhraseRequest(p: Phrase, voiceName: Option<string>): Request {
    Request(p.fr, "fr-FR", VoiceParam(voiceName))
  }

  /** The run after the first `n` phrases: each turn writes its mp3 over
      whatever was there, and a failed call raises and ends the run. */
  function Tts(e0: Entries, ps: seq<Phrase>, n: nat, dir: string, voiceName: Option<string>,
               tts: Synthesizer): Run
    requires n <= |ps|
  {
    if n == 0 then Run(e0, true)
    else
      var r := Tts(e0, ps, n - 1, dir, voiceName, tts);
      if !r.alive then r
      else match tts(PhraseRequest(ps[n - 1], voiceName))
        case None => Run(r.files, false)
        case Some(b) => Run(r.files[AudioPath(dir, ps[n - 1].num) := Audio(b)], true)
  }

  /** Once the run has ended, later phrases change nothing. */
  lemma {:induction false} TtsDeadStays(e0: Entries, ps: seq<Phrase>, i: nat, n: nat, dir: string,
                                         voiceName: Option<string>, tts: Synthesizer)
    requires i <= n <= |ps| && !Tts(e0, ps, i, dir, voiceName, tts).alive
    ensures Tts(e0, ps, n, dir, voiceName, tts) == Tts(e0, ps, i, dir, voiceName, tts)
    decreases n - i
  {
    if i < n {
      TtsDeadStays(e0, ps, i, n - 1, dir, voiceName, tts);
    }
  }

  /** The run survives exactly when every call so far succeeded. */
  lemma {:induction false} TtsAlive(e0: Entries, ps: seq<Phrase>, n: nat, dir: string,
                                     voiceName: Option<string>, tts: Synthesizer)
    requires n <= |ps|
    ensures Tts(e0, ps, n, dir, voiceName, tts).alive <==>
      forall i :: 0 <= i < n ==> tts(PhraseRequest(ps[i], voiceName)).Some?
  {
    if n > 0 {
      TtsAlive(e0, ps, n - 1, dir, voiceName, tts);
      var r := Tts(e0, ps, n - 1, dir, voiceName, tts);
      assert Tts(e0, ps, n, dir, voiceName, tts).alive <==>
        r.alive && tts(PhraseRequest(ps[n - 1], voiceName)).Some?;
    }
  }

  /** The first failure ends the run: the phrases after it get no file,
      and the outcome is the directory as the failing turn found it. */
  lemma TtsAbort(e0: Entries, ps: seq<Phrase>, i: nat, dir: string, voiceName: Option<string>,
                 tts: Synthesizer)
    requires i < |ps| && Tts(e0, ps, i, dir, voiceName, tts).alive
    requires tts(PhraseRequest(ps[i], voiceName)).None?
    ensures Tts(e0, ps, |ps|, dir, voiceName, tts) == Run(Tts(e0, ps, i, dir, voiceName, tts).files, false)
  {
    TtsDeadStays(e0, ps, i + 1, |ps|, dir, voiceName, tts);
  }

  /** A file that is none of the phrases' mp3s keeps its contents. */
  lemma {:induction false} TtsKeeps(e0: Entries, ps: seq<Phrase>, n: nat, dir: string,
                                     voiceName: Option<string>, tts: Synthesizer, k: string)
    requires n <= |ps| && k in e0
    requires forall i :: 0 <= i < n ==> k != AudioPath(dir, ps[i].num)
    ensures var f := Tts(e0, ps, n, dir, voiceName, tts).files;
      k in f && f[k] == e0[k]
  {
    if n > 0 {
      TtsKeeps(e0, ps, n - 1, dir, voiceName, tts, k);
    }
  }

  /** The run adds no file other than the phrases' mp3s. */
  lemma {:induction false} TtsFootprint(e0: Entries, ps: seq<Phrase>, n: nat, dir: string,
                                         voiceName: Option<string>, tts: Synthesizer, k: string)
    requires n <= |ps| && k in Tts(e0, ps, n, dir, voiceName, tts).files
    ensures k in e0 || exists i :: 0 <= i < n && k == AudioPath(dir, ps[i].num)
  {
    if n > 0 {
      var r := Tts(e0, ps, n - 1, dir, voiceName, tts);
      if k in r.files {
        TtsFootprint(e0, ps, n - 1, dir, voiceName, tts, k);
      } else {
        assert k == AudioPath(dir, ps[n - 1].num);
      }
    }
  }

  /** When every call succeeds each phrase's file holds the service's
      answer for it, whatever the directory held before: there is no
      existence check. */
  lemma {:induction false} TtsWrites(e0: Entries, ps: seq<Phrase>, n: nat, i: nat, dir: string,
                                      voiceName: Option<string>, tts: Synthesizer)
    requires i < n <= |ps| && forall a, b :: 0 <= a < b < |ps| ==> ps[a].num != ps[b].num
    requires Tts(e0, ps, n, dir, voiceName, tts).alive
    ensures tts(PhraseRequest(ps[i], voiceName)).Some?
    ensures var f := Tts(e0, ps, n, dir, voiceName, tts).files;
      AudioPath(dir, ps[i].num) in f && f[AudioPath(dir, ps[i].num)] == Audio(tts(PhraseRequest(ps[i], voiceName)).value)
  {
    var r := Tts(e0, ps, n - 1, dir, voiceName, tts);
    if i < n - 1 {
      TtsWrites(e0, ps, n - 1, i, dir, voiceName, tts);
      if AudioPath(dir, ps[i].num) == AudioPath(dir, ps[n - 1].num) {
        AudioPathInjective(dir, ps[i].num, ps[n - 1].num);
      }
    }
  }

  /** `generate_tts_google`'s loop; when the library or the client is not
      available it raises before writing anything. */
  method GenerateTts(out: Directory, ps: seq<Phrase>, dir: string, voiceName: Option<string>,
                     clientReady: bool, tts: Synthesizer) returns (ok: bool)
    modifies out
    ensures !clientReady ==> !ok && out.entries == old(out.entries)
    ensures clientReady ==> Run(out.entries, ok) == Tts(old(out.entries), ps, |ps|, dir, voiceName, tts)
  {
    if !clientReady {
      return false;
    }
    var i := 0;
    while i < |ps|
      invariant 0 <= i <= |ps|
      invariant Run(out.entries, true) == Tts(old(out.entries), ps, i, dir, voiceName, tts)
    {
      var answer := tts(PhraseRequest(ps[i], voiceName));
      if answer.None? {
        TtsDeadStays(old(out.entries), ps, i + 1, |ps|, dir, voiceName, tts);
        return false;
      }
      out.Write(AudioPath(dir, ps[i].num), Audio(answer.value));
      i := i + 1;
    }
    ok := true;
  }

  // ---------------------------------------------------------------------
  // main

  /** The directory after the three exports. */
  function Exported(e0: Entries): Entries {
    e0["fr_daily_50.html" := Page(Html(Phrases))]["fr_daily_50.csv" := Csv(Rows(Phrases))]
      ["fr_daily_50.md" := Page(Join(MdLines(Phrases), "\n"))]
  }

  /** `main`: the HTML, CSV and Markdown exports, then the mp3s under
      `audio/` with the default voice. */
  method Daily(out: Directory, clientReady: bool, tts: Synthesizer) returns (ok: bool)
    modifies out
    ensures !clientReady ==> !ok && out.entries == Exported(old(out.entries))
    ensures clientReady ==>
      Run(out.entries, ok) == Tts(Exported(old(out.entries)), Phrases, |Phrases|, "audio", Some(DefaultVoice), tts)
  {
    ExportHtml(out, Phrases);
    ExportCsv(out, Phrases);
    ExportMd(out, Phrases);
    ok := GenerateTts(out, Phrases, "audio", Some(DefaultVoice), clientReady, tts);
  }

  /** With every call answered, a table numbered from 1 gets one mp3 per
      phrase, `<dir>/01.mp3` onwards, each the answer for that phrase. */
  lemma NumberedOutcome(e: Entries, ps: seq<Phrase>, dir: string, voiceName: Option<string>,
                        tts: Synthesizer, i: nat)
    requires Numbered(ps, 1) && i < |ps|
    requires forall k :: 0 <= k < |ps| ==> tts(PhraseRequest(ps[k], voiceName)).Some?
    ensures var r := Tts(e, ps, |ps|, dir, voiceName, tts);
      r.alive && AudioPath(dir, i + 1) in r.files &&
      r.files[AudioPath(dir, i + 1)] == Audio(tts(PhraseRequest(ps[i], voiceName)).value)
  {
    NumberedDistinct(ps, 1);
    TtsAlive(e, ps, |ps|, dir, voiceName, tts);
    TtsWrites(e, ps, |ps|, i, dir, voiceName, tts);
  }

  /** With every call answered, `main` leaves one mp3 per phrase,
      `audio/01.mp3` to `audio/50.mp3`, each the answer for that phrase in
      the default voice. */
  lemma DailyOutcome(e: Entries, tts: Synthesizer, i: nat)
    requires forall k :: 0 <= k < |Phrases| ==> tts(PhraseRequest(Phrases[k], Some(DefaultVoice))).Some?
    requires i < 50
    ensures var r := Tts(e, Phrases, |Phrases|, "audio", Some(DefaultVoice), tts);
      r.alive && AudioPath("audio", i + 1) in r.files &&
      r.files[AudioPath("audio", i + 1)] == Audio(tts(PhraseRequest(Phrases[i], Some(DefaultVoice))).value)
  {
    PhrasesNumbered();
    NumberedOutcome(e, Phrases, "audio", Some(DefaultVoice), tts, i);
  }
}
