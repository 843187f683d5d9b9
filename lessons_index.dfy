/** build_lessons.py, part 4: `build_index_html` and `export_index_html`.
    The root index lists every `.html` file directly inside the build
    directory except `index.html` (in any letter case), in sorted order, as a
    card that takes title, translation and description from the loaded
    lesson whose id is the file stem, and links the MD, CSV and XLSX files
    that exist beside it. */
module LessonIndex {
  import opened Storage
  import opened Text
  import opened Order
  import opened Lessons

  type Entries = map<string, Artifact>
  type Meta = map<Value, Record>

  /** `lesson_meta[lesson["id"]] = lesson` over the first `n` lessons: a
      later lesson with the same id replaces an earlier one. */
  function MetaOf(lessons: seq<Record>, n: nat): Meta
    requires n <= |lessons| && forall i :: 0 <= i < |lessons| ==> "id" in lessons[i]
  {
    if n == 0 then map[] else MetaOf(lessons, n - 1)[lessons[n - 1]["id"] := lessons[n - 1]]
  }

  /** The index of metadata holds an entry for every id, and that entry is
      the last lesson carrying the id. */
  lemma {:induction false} MetaIsLast(lessons: seq<Record>, n: nat, k: Value)
    requires n <= |lessons| && forall i :: 0 <= i < |lessons| ==> "id" in lessons[i]
    ensures k in MetaOf(lessons, n) <==> exists i :: 0 <= i < n && lessons[i]["id"] == k
    ensures k in MetaOf(lessons, n) ==>
      exists i :: 0 <= i < n && lessons[i]["id"] == k && MetaOf(lessons, n)[k] == lessons[i] &&
        forall j :: i < j < n ==> lessons[j]["id"] != k
  {
    if n > 0 {
      MetaIsLast(lessons, n - 1, k);
      var m, before := MetaOf(lessons, n), MetaOf(lessons, n - 1);
      if k == lessons[n - 1]["id"] {
        assert m[k] == lessons[n - 1];
      } else {
        assert k in m <==> k in before;
        if exists i :: 0 <= i < n && lessons[i]["id"] == k {
          var i :| 0 <= i < n && lessons[i]["id"] == k;
          assert i < n - 1;
        }
        if k in m {
          var i :| 0 <= i < n - 1 && lessons[i]["id"] == k && before[k] == lessons[i] &&
            forall j :: i < j < n - 1 ==> lessons[j]["id"] != k;
          assert m[k] == before[k];
          assert forall j :: i < j < n ==> lessons[j]["id"] != k;
        }
      }
    }
  }

  /** Some lesson's id is a list or a dict, which cannot be a key of
      `lesson_meta`: storing it raises `TypeError`. */
  predicate MetaRaises(lessons: seq<Record>)
    requires forall i :: 0 <= i < |lessons| ==> "id" in lessons[i]
  {
    exists i :: 0 <= i < |lessons| && !Hashable(lessons[i]["id"])
  }

  /** The loop that builds `lesson_meta`; it raises at the first id that
      cannot be a key. */
  method BuildMeta(lessons: seq<Record>) returns (meta: Meta, raised: bool)
    requires forall i :: 0 <= i < |lessons| ==> "id" in lessons[i]
    ensures raised <==> MetaRaises(lessons)
    ensures !raised ==> meta == MetaOf(lessons, |lessons|)
  {
    meta, raised := map[], false;
    var i := 0;
    while i < |lessons|
      invariant 0 <= i <= |lessons|
      invariant meta == MetaOf(lessons, i)
      invariant forall j :: 0 <= j < i ==> Hashable(lessons[j]["id"])
    {
      if !Hashable(lessons[i]["id"]) {
        raised := true;
        return;
      }
      meta := meta[lessons[i]["id"] := lessons[i]];
      i := i + 1;
    }
  }

  /** `sorted(OUTPUT_DIR.glob("*.html"))`, or nothing when the directory is
      missing. The match is case-sensitive, as on POSIX. */
  function HtmlFiles(build: Option<Entries>): seq<string> {
    match build
    case None => []
    case Some(e) => SortedOf(set n | n in e && '/' !in n && EndsWith(n, ".html"))
  }

  /** An HTML file that gets a card. */
  predicate Listed(name: string) {
    Lower(name) != "index.html"
  }

  /** `meta.get(key, default)`. */
  function Get(meta: Record, key: string, default: Value): Value {
    if key in meta then meta[key] else default
  }

  /** `meta.get("description_zh") or meta.get("description") or ""`. */
  function Description(meta: Record): (d: Value)
    ensures "description_zh" in meta && Truthy(meta["description_zh"]) ==> d == meta["description_zh"]
    ensures !("description_zh" in meta && Truthy(meta["description_zh"])) ==>
      d == if "description" in meta && Truthy(meta["description"]) then meta["description"] else Str("")
    ensures Truthy(d) <==> (("description_zh" in meta && Truthy(meta["description_zh"])) ||
                            ("description" in meta && Truthy(meta["description"])))
  {
    if "description_zh" in meta && Truthy(meta["description_zh"]) then meta["description_zh"]
    else if "description" in meta && Truthy(meta["description"]) then meta["description"]
    else Str("")
  }

  function MdLink(lid: string): string { "<a href=\"build/" + lid + ".md\">MD</a>" }
  function CsvLink(lid: string): string { "<a href=\"build/" + lid + ".csv\">CSV</a>" }
  function XlsxLink(lid: string): string { "<a href=\"build/" + lid + ".xlsx\">XLSX</a>" }

  /** `links_parts`: the HTML link, then each optional link whose file
      exists in the build directory. */
  function LinkParts(name: string, lid: string, e: Entries): seq<string> {
    ["<a href=\"build/" + name + "\">HTML</a>"]
      + (if lid + ".md" in e then [MdLink(lid)] else [])
      + (if lid + ".csv" in e then [CsvLink(lid)] else [])
      + (if lid + ".xlsx" in e then [XlsxLink(lid)] else [])
  }

  /** Two links with different labels differ: the label is the text just
      before the closing `</a>`. */
  lemma LabelsDiffer(a: string, la: string, b: string, lb: string)
    requires |la| == |lb| && la != lb
    ensures a + la + "</a>" != b + lb + "</a>"
  {
    var s, t := a + la + "</a>", b + lb + "</a>";
    if |a| == |b| {
      assert s[|a|..|a| + |la|] == la;
      assert t[|b|..|b| + |lb|] == lb;
    } else {
      assert |s| != |t|;
    }
  }

  /** The card lists an optional link exactly when its file exists, after
      the HTML link. */
  lemma LinkPartsIff(name: string, lid: string, e: Entries)
    ensures LinkParts(name, lid, e)[0] == "<a href=\"build/" + name + "\">HTML</a>"
    ensures MdLink(lid) in LinkParts(name, lid, e) <==> lid + ".md" in e
    ensures CsvLink(lid) in LinkParts(name, lid, e) <==> lid + ".csv" in e
    ensures XlsxLink(lid) in LinkParts(name, lid, e) <==> lid + ".xlsx" in e
  {
    var html := "<a href=\"build/" + name + "\">HTML</a>";
    assert html == ("<a href=\"build/" + name + "\">") + "HTML" + "</a>";
    assert MdLink(lid) == ("<a href=\"build/" + lid + ".md\">") + "MD" + "</a>";
    assert CsvLink(lid) == ("<a href=\"build/" + lid + ".csv\">") + "CSV" + "</a>";
    assert XlsxLink(lid) == ("<a href=\"build/" + lid + ".xlsx\">") + "XLSX" + "</a>";
    assert MdLink(lid) != html by {
      LabelsDiffer("<a href=\"build/" + lid + ".md\">", "MD", "<a href=\"build/" + name + "\">HT", "ML");
      assert html == ("<a href=\"build/" + name + "\">HT") + "ML" + "</a>";
    }
    assert MdLink(lid) != CsvLink(lid) by {
      assert CsvLink(lid) == ("<a href=\"build/" + lid + ".csv\">C") + "SV" + "</a>";
      LabelsDiffer("<a href=\"build/" + lid + ".md\">", "MD", "<a href=\"build/" + lid + ".csv\">C", "SV");
    }
    assert MdLink(lid) != XlsxLink(lid) by {
      assert XlsxLink(lid) == ("<a href=\"build/" + lid + ".xlsx\">XL") + "SX" + "</a>";
      LabelsDiffer("<a href=\"build/" + lid + ".md\">", "MD", "<a href=\"build/" + lid + ".xlsx\">XL", "SX");
    }
    assert CsvLink(lid) != html by {
      assert html == ("<a href=\"build/" + name + "\">H") + "TML" + "</a>";
      LabelsDiffer("<a href=\"build/" + lid + ".csv\">", "CSV", "<a href=\"build/" + name + "\">H", "TML");
    }
    assert CsvLink(lid) != XlsxLink(lid) by {
      assert XlsxLink(lid) == ("<a href=\"build/" + lid + ".xlsx\">X") + "LSX" + "</a>";
      LabelsDiffer("<a href=\"build/" + lid + ".csv\">", "CSV", "<a href=\"build/" + lid + ".xlsx\">X", "LSX");
    }
    assert XlsxLink(lid) != html by {
      LabelsDiffer("<a href=\"build/" + lid + ".xlsx\">", "XLSX", "<a href=\"build/" + name + "\">", "HTML");
    }
  }

  /** `html_path.stem` of a globbed name. */
  function PageId(name: string): string {
    if EndsWith(name, ".html") then Stem(name, ".html") else name
  }

  /** `lesson_meta.get(lid, {})`. */
  function MetaFor(name: string, meta: Meta): Record {
    if Str(PageId(name)) in meta then meta[Str(PageId(name))] else map[]
  }

  /** The card of one HTML file, line by line. */
  function CardLines(name: string, meta: Meta, e: Entries): seq<string> {
    var lid, m := PageId(name), MetaFor(name, meta);
    var desc := Description(m);
    [ "    <li>",
      "      <a href=\"build/" + name + "\">",
      "        <div class=\"card\">",
      "          <div class=\"title-line\">" + Show(Get(m, "title", Str(lid))) + "</div>",
      "          <div class=\"title-zh\">" + Show(Get(m, "title_zh", Str(""))) + "</div>",
      "          " + (if Truthy(desc) then "<div class=\"desc\">" + Show(desc) + "</div>" else ""),
      "          <div class=\"filename\">" + name + "</div>",
      "          <div class=\"links\">",
      "            " + Join(LinkParts(name, lid, e), " "),
      "          </div>",
      "        </div>",
      "      </a>",
      "    </li>" ]
  }

  function Card(name: string, meta: Meta, e: Entries): string {
    Join(CardLines(name, meta, e), "\n")
  }

  /** The cards of the listed files among the first `n` of `files`. */
  function CardsOf(files: seq<string>, n: nat, meta: Meta, e: Entries): seq<string>
    requires n <= |files|
  {
    if n == 0 then []
    else
      var card := if Listed(files[n - 1]) then [Card(files[n - 1], meta, e)] else [];
      CardsOf(files, n - 1, meta, e) + card
  }

  /** The files that get a card among the first `n`, in order. */
  function ListedOf(files: seq<string>, n: nat): seq<string>
    requires n <= |files|
  {
    if n == 0 then []
    else ListedOf(files, n - 1) + (if Listed(files[n - 1]) then [files[n - 1]] else [])
  }

  /** One card per listed file, in the same order. */
  lemma {:induction false} CardsMatchListed(files: seq<string>, n: nat, meta: Meta, e: Entries)
    requires n <= |files|
    ensures |CardsOf(files, n, meta, e)| == |ListedOf(files, n)|
    ensures forall i :: 0 <= i < |ListedOf(files, n)| ==>
      CardsOf(files, n, meta, e)[i] == Card(ListedOf(files, n)[i], meta, e)
  {
    if n > 0 {
      CardsMatchListed(files, n - 1, meta, e);
    }
  }

  lemma {:induction false} ListedMembers(files: seq<string>, n: nat)
    requires n <= |files|
    ensures forall x :: x in ListedOf(files, n) <==> x in files[..n] && Listed(x)
  {
    if n > 0 {
      ListedMembers(files, n - 1);
      assert files[..n] == files[..n - 1] + [files[n - 1]];
    }
  }

  lemma {:induction false} ListedSorted(files: seq<string>, n: nat)
    requires n <= |files| && Sorted(files)
    ensures Sorted(ListedOf(files, n))
  {
    if n > 0 {
      ListedSorted(files, n - 1);
      var before := ListedOf(files, n - 1);
      if Listed(files[n - 1]) {
        ListedMembers(files, n - 1);
        var ls := before + [files[n - 1]];
        forall a, b | 0 <= a < b < |ls| ensures Below(ls[a], ls[b]) {
          if b == |ls| - 1 {
            assert ls[a] in before;
            var k :| 0 <= k < n - 1 && files[..n - 1][k] == ls[a];
            assert files[k] == ls[a];
          } else {
            assert ls[a] == before[a] && ls[b] == before[b];
          }
        }
      }
    }
  }

  /** The files that get a card. */
  function ListedFiles(build: Option<Entries>): seq<string> {
    var files := HtmlFiles(build);
    ListedOf(files, |files|)
  }

  /** The index cards are exactly the `.html` files directly in the build
      directory, other than `index.html` in any letter case, each once, in
      increasing name order. */
  lemma ListedExactly(build: Option<Entries>)
    ensures Sorted(ListedFiles(build))
    ensures forall x :: x in ListedFiles(build) <==>
      build.Some? && x in build.value && '/' !in x && EndsWith(x, ".html") && Lower(x) != "index.html"
  {
    var files := HtmlFiles(build);
    if build.Some? {
      SortedOfSorted(set n | n in build.value && '/' !in n && EndsWith(n, ".html"));
    }
    ListedMembers(files, |files|);
    ListedSorted(files, |files|);
    assert files[..|files|] == files;
  }

  /** The cards of the build directory. */
  function Cards(meta: Meta, build: Option<Entries>): seq<string> {
    var files := HtmlFiles(build);
    CardsOf(files, |files|, meta, if build.Some? then build.value else map[])
  }

  /** The fixed text of `HTML_INDEX_TEMPLATE`, its lines joined by
      newlines, cut where the clock reading and the cards are filled in; its
      style sheet stands here as a placeholder line. */
  const IndexMarkup: seq<string> := [
    "<!DOCTYPE html>\n<html lang=\"fr\">\n<head>\n  <meta charset=\"UTF-8\" />\n"
      + "  <title>French Learning Index - fr.awtza.com</title>\n  <style>\n    /* index page style sheet */\n"
      + "  </style>\n</head>\n<body>\n  <h1>📚 Bruce 的法语学习首页</h1>\n  <div class=\"subtitle\">自动生成目录 · 最后更新：",
    "</div>\n  <ul>\n",
    "\n  </ul>\n</body>\n</html>\n"
  ]

  /** `HTML_INDEX_TEMPLATE.format(...)`. */
  function IndexPage(lastUpdated: string, items: string): string {
    Concat([IndexMarkup[0], lastUpdated, IndexMarkup[1], items, IndexMarkup[2]])
  }

  /** What `build_index_html` returns; the clock reading is `lastUpdated`. */
  function IndexHtml(lessons: seq<Record>, build: Option<Entries>, lastUpdated: string): string
    requires forall i :: 0 <= i < |lessons| ==> "id" in lessons[i]
  {
    IndexPage(lastUpdated, Join(Cards(MetaOf(lessons, |lessons|), build), "\n"))
  }

  /** `build_index_html`: the metadata index, then one card per listed file
      in sorted order, joined by newlines, in the template. */
  method BuildIndexHtml(lessons: seq<Record>, build: Option<Entries>, lastUpdated: string)
    returns (html: string, raised: bool)
    requires forall i :: 0 <= i < |lessons| ==> "id" in lessons[i]
    ensures raised <==> MetaRaises(lessons)
    ensures !raised ==> html == IndexHtml(lessons, build, lastUpdated)
  {
    html := "";
    var meta;
    meta, raised := BuildMeta(lessons);
    if raised {
      return;
    }
    var itemLines: seq<string> := [];
    var htmlFiles := HtmlFiles(build);
    var e := if build.Some? then build.value else map[];
    var i := 0;
    while i < |htmlFiles|
      invariant 0 <= i <= |htmlFiles|
      invariant itemLines == CardsOf(htmlFiles, i, meta, e)
    {
      var name := htmlFiles[i];
      assert CardsOf(htmlFiles, i + 1, meta, e) == itemLines + (if Listed(name) then [Card(name, meta, e)] else []);
      if Lower(name) == "index.html" {
        i := i + 1;
        continue;
      }
      itemLines := itemLines + [Card(name, meta, e)];
      i := i + 1;
    }
    assert itemLines == Cards(meta, build);
    html := IndexPage(lastUpdated, Join(itemLines, "\n"));
  }

  /** The card of the page of a loaded lesson with a non-empty string id
      takes its fields from that lesson; when several lessons share the id,
      from the last one. */
  lemma CardUsesLesson(lessons: seq<Record>, i: int)
    requires forall j :: 0 <= j < |lessons| ==> "id" in lessons[j]
    requires 0 <= i < |lessons| && lessons[i]["id"].Str? && lessons[i]["id"].s != []
    requires forall j :: i < j < |lessons| ==> lessons[j]["id"] != lessons[i]["id"]
    ensures PageId(lessons[i]["id"].s + ".html") == lessons[i]["id"].s
    ensures MetaFor(lessons[i]["id"].s + ".html", MetaOf(lessons, |lessons|)) == lessons[i]
  {
    var lid := lessons[i]["id"].s;
    var name := lid + ".html";
    assert name[..|name| - 5] == lid && name[|name| - 5..] == ".html";
    MetaIsLast(lessons, |lessons|, Str(lid));
    var meta := MetaOf(lessons, |lessons|);
    assert Str(lid) in meta;
    var k :| 0 <= k < |lessons| && lessons[k]["id"] == Str(lid) && meta[Str(lid)] == lessons[k] &&
      forall j :: k < j < |lessons| ==> lessons[j]["id"] != Str(lid);
    assert k == i;
  }

  /** `export_index_html`: the index page goes to `index.html` in the root
      directory, next to the build directory; when building it raises,
      nothing is written. */
  method ExportIndexHtml(root: Directory, lessons: seq<Record>, build: Entries, lastUpdated: string)
    returns (raised: bool)
    requires forall i :: 0 <= i < |lessons| ==> "id" in lessons[i]
    modifies root
    ensures raised <==> MetaRaises(lessons)
    ensures raised ==> root.entries == old(root.entries)
    ensures !raised ==>
      root.entries == old(root.entries)["index.html" := Page(IndexHtml(lessons, Some(build), lastUpdated))]
  {
    var html;
    html, raised := BuildIndexHtml(lessons, Some(build), lastUpdated);
    if raised {
      return;
    }
    root.Write("index.html", Page(html));
  }
}
