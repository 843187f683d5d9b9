/** generate_html.py: a table of contents for the `.html` pages next to the
    script, written to `index.html`. Each page's title is read from its
    `<title>` element. The directory listing, each entry's kind and each
    file's decoded text are inputs; the clock reading is `now`. */
module IndexPage {
  import opened Storage
  import opened Text
  import opened Order

  // ---------------------------------------------------------------------
  // get_title_from_file

  /** A case-insensitive occurrence of the lower-case `pat` at `i`. */
  predicate MatchAt(s: string, pat: string, i: int) {
    0 <= i && i + |pat| <= |s| && Lower(s[i..i + |pat|]) == pat
  }

  /** The search for `pat` from position `from`. */
  function Find(s: string, pat: string, from: nat): (r: Option<nat>)
    ensures r.Some? ==> from <= r.value && r.value + |pat| <= |s|
    decreases |s| - from
  {
    if from + |pat| > |s| then None
    else if MatchAt(s, pat, from) then Some(from)
    else Find(s, pat, from + 1)
  }

  /** The search finds the first occurrence at or after `from`, and fails
      only when there is none. */
  lemma {:induction false} FindFirst(s: string, pat: string, from: nat)
    ensures var r := Find(s, pat, from);
      r.Some? ==> (MatchAt(s, pat, r.value) &&
        forall k :: from <= k < r.value ==> !MatchAt(s, pat, k))
    ensures Find(s, pat, from).None? ==> forall k :: from <= k ==> !MatchAt(s, pat, k)
    decreases |s| - from
  {
    if from + |pat| <= |s| && !MatchAt(s, pat, from) {
      FindFirst(s, pat, from + 1);
    }
  }

  const Open := "<title>"
  const Close := "</title>"

  /** `re.search(r"<title>(.*?)</title>", content, re.IGNORECASE | re.DOTALL)`
      and `m.group(1).strip()`: the text from the first `<title>` to the
      nearest `</title>` after it; None when the file could not be read. */
  function TitleOf(content: Option<string>): Option<string> {
    match content
    case None => None
    case Some(c) =>
      match Find(c, Open, 0)
      case None => None
      case Some(p) =>
        match Find(c, Close, p + |Open|)
        case None => None
        case Some(q) => Some(Strip(c[p + |Open|..q]))
  }

  /** There is a match exactly when some `<title>` is followed, anywhere
      later, by a `</title>`: the search's later starting points add
      nothing once the first `<title>` has no closing tag after it. */
  lemma TitleExists(c: string)
    ensures TitleOf(Some(c)).Some? <==>
      exists p, q :: MatchAt(c, Open, p) && p + |Open| <= q && MatchAt(c, Close, q)
  {
    if exists p, q :: MatchAt(c, Open, p) && p + |Open| <= q && MatchAt(c, Close, q) {
      var p, q :| MatchAt(c, Open, p) && p + |Open| <= q && MatchAt(c, Close, q);
      var first := Find(c, Open, 0);
      FindFirst(c, Open, 0);
      assert first.Some?;
      assert first.value <= p;
      var close := Find(c, Close, first.value + |Open|);
      FindFirst(c, Close, first.value + |Open|);
      assert close.Some?;
    } else {
      FindFirst(c, Open, 0);
      if Find(c, Open, 0).Some? {
        FindFirst(c, Close, Find(c, Open, 0).value + |Open|);
      }
    }
  }

  /** The match is the stripped text between the first `<title>` and the
      nearest `</title>` after it. */
  lemma TitleText(c: string, p: nat, q: nat)
    requires MatchAt(c, Open, p) && forall k :: 0 <= k < p ==> !MatchAt(c, Open, k)
    requires p + |Open| <= q && MatchAt(c, Close, q)
    requires forall k :: p + |Open| <= k < q ==> !MatchAt(c, Close, k)
    ensures TitleOf(Some(c)) == Some(Strip(c[p + |Open|..q]))
  {
    FindIs(c, Open, 0, p);
    FindIs(c, Close, p + |Open|, q);
  }

  /** The search lands on the first match at or after `from`. */
  lemma {:induction false} FindIs(s: string, pat: string, from: nat, p: nat)
    requires from <= p && MatchAt(s, pat, p)
    requires forall k :: from <= k < p ==> !MatchAt(s, pat, k)
    ensures Find(s, pat, from) == Some(p)
    decreases p - from
  {
    if from < p {
      FindIs(s, pat, from + 1, p);
    }
  }

  // ---------------------------------------------------------------------
  // main: the listing

  /** One name from `os.listdir`: whether it is a regular file, and its text
      as a text-mode read gives it: decoded as UTF-8, with every "\r\n" and
      "\r" already turned into "\n" (universal newlines); None when opening,
      reading or decoding raises. */
  datatype DirEntry = DirEntry(name: string, isFile: bool, content: Option<string>)

  /** `name.lower().endswith(".html")` and `name.lower() != "index.html"`. */
  predicate Shown(name: string) {
    EndsWith(Lower(name), ".html") && Lower(name) != "index.html"
  }

  /** `get_title_from_file(full_path) or name`: the file name stands in for
      a missing or empty title. */
  function TitleOrName(e: DirEntry): (t: string)
    ensures TitleOf(e.content).Some? && TitleOf(e.content).value != [] ==> t == TitleOf(e.content).value
    ensures TitleOf(e.content).None? || TitleOf(e.content).value == [] ==> t == e.name
  {
    var t := TitleOf(e.content);
    if t.Some? && t.value != [] then t.value else e.name
  }

  type Item = (string, string)

  /** The `(name, title)` pairs of the entries that pass the tests, in
      listing order. */
  function Collected(listing: seq<DirEntry>): seq<Item> {
    if listing == [] then []
    else
      var e := listing[|listing| - 1];
      Collected(listing[..|listing| - 1]) + (if Shown(e.name) && e.isFile then [(e.name, TitleOrName(e))] else [])
  }

  /** Every collected item comes from a listed regular file with a shown
      name. */
  lemma {:induction false} CollectedSound(listing: seq<DirEntry>, it: Item)
    requires it in Collected(listing)
    ensures exists i :: (0 <= i < |listing| && listing[i].isFile && Shown(listing[i].name) &&
      it == (listing[i].name, TitleOrName(listing[i])))
  {
    var init := listing[..|listing| - 1];
    var e := listing[|listing| - 1];
    if it in Collected(init) {
      CollectedSound(init, it);
      var i :| 0 <= i < |init| && init[i].isFile && Shown(init[i].name) && it == (init[i].name, TitleOrName(init[i]));
      assert listing[i] == init[i];
    } else {
      assert e.isFile && Shown(e.name) && it == (e.name, TitleOrName(e));
    }
  }

  /** Every listed regular file with a shown name is collected. */
  lemma {:induction false} CollectedComplete(listing: seq<DirEntry>, i: nat)
    requires i < |listing| && listing[i].isFile && Shown(listing[i].name)
    ensures (listing[i].name, TitleOrName(listing[i])) in Collected(listing)
  {
    var init, e := listing[..|listing| - 1], listing[|listing| - 1];
    var x := (listing[i].name, TitleOrName(listing[i]));
    var last := if Shown(e.name) && e.isFile then [(e.name, TitleOrName(e))] else [];
    assert Collected(listing) == Collected(init) + last;
    if i < |init| {
      assert init[i] == listing[i];
      CollectedComplete(init, i);
      assert x in Collected(init);
    } else {
      assert last == [x];
    }
  }

  /** The loop over `os.listdir(BASE_DIR)`. */
  method CollectFiles(listing: seq<DirEntry>) returns (files: seq<Item>)
    ensures files == Collected(listing)
  {
    files := [];
    var i := 0;
    while i < |listing|
      invariant 0 <= i <= |listing|
      invariant files == Collected(listing[..i])
    {
      var e := listing[i];
      assert listing[..i + 1][..i] == listing[..i];
      assert Collected(listing[..i + 1]) ==
        files + (if Shown(e.name) && e.isFile then [(e.name, TitleOrName(e))] else []);
      if !EndsWith(Lower(e.name), ".html") {
        i := i + 1;
        continue;
      }
      if Lower(e.name) == "index.html" {
        i := i + 1;
        continue;
      }
      if e.isFile {
        var title := TitleOrName(e);
        files := files + [(e.name, title)];
      }
      i := i + 1;
    }
    assert listing[..i] == listing;
  }

  // ---------------------------------------------------------------------
  // main: files.sort(key=lambda x: x[0])

  /** Put `x` after every item whose name is not above its own. */
  function Insert(x: Item, s: seq<Item>): (r: seq<Item>)
    ensures multiset(r) == multiset(s) + multiset{x}
  {
    if s == [] then [x]
    else if Below(x.0, s[0].0) then [x] + s
    else
      assert s == [s[0]] + s[1..];
      [s[0]] + Insert(x, s[1..])
  }

  /** No name is above a later one. */
  predicate ByName(s: seq<Item>) {
    forall i, j :: 0 <= i < j < |s| ==> !Below(s[j].0, s[i].0)
  }

  /** A stable sort by name, as `list.sort` is. */
  function SortByName(s: seq<Item>): seq<Item> {
    if s == [] then [] else Insert(s[|s| - 1], SortByName(s[..|s| - 1]))
  }

  lemma {:induction false} InsertByName(x: Item, s: seq<Item>)
    requires ByName(s)
    ensures ByName(Insert(x, s))
  {
    if s == [] {
    } else if Below(x.0, s[0].0) {
      var r := Insert(x, s);
      forall i, j | 0 <= i < j < |r| ensures !Below(r[j].0, r[i].0) {
        if i == 0 {
          assert r[j] == s[j - 1];
          if Below(s[j - 1].0, x.0) {
            BelowTransitive(s[j - 1].0, x.0, s[0].0);
            BelowIrreflexive(s[0].0);
          }
        } else {
          assert r[i] == s[i - 1] && r[j] == s[j - 1];
        }
      }
    } else {
      InsertByName(x, s[1..]);
      var r := Insert(x, s);
      var t := Insert(x, s[1..]);
      assert r == [s[0]] + t;
      forall j | 0 < j < |r| ensures !Below(r[j].0, r[0].0) {
        InsertFrom(x, s[1..], j - 1);
        if r[j] != x {
          var k :| 0 <= k < |s[1..]| && s[1..][k] == r[j];
          assert s[k + 1] == r[j];
        }
      }
      forall i, j | 0 < i < j < |r| ensures !Below(r[j].0, r[i].0) {
        assert r[i] == t[i - 1] && r[j] == t[j - 1];
      }
    }
  }

  /** Every entry of `Insert(x, s)` is `x` or an entry of `s`. */
  lemma InsertFrom(x: Item, s: seq<Item>, j: nat)
    requires j < |Insert(x, s)|
    ensures Insert(x, s)[j] == x || exists k :: 0 <= k < |s| && s[k] == Insert(x, s)[j]
  {
    var y := Insert(x, s)[j];
    assert y in multiset(Insert(x, s));
    if y != x {
      assert y in multiset(s);
    }
  }

  /** The sort orders by name and keeps every item, each as often. */
  lemma {:induction false} SortByNameCorrect(s: seq<Item>)
    ensures ByName(SortByName(s))
    ensures multiset(SortByName(s)) == multiset(s)
  {
    if s != [] {
      SortByNameCorrect(s[..|s| - 1]);
      InsertByName(s[|s| - 1], SortByName(s[..|s| - 1]));
      assert s == s[..|s| - 1] + [s[|s| - 1]];
    }
  }

  // ---------------------------------------------------------------------
  // main: the page

  /** The lines before the list, with the style sheet's eleven lines
      standing as one placeholder line. */
  function HeadLines(now: string): seq<string> {
    [
      "<!DOCTYPE html>",
      "<html lang=\"fr\">",
      "<head>",
      "  <meta charset=\"UTF-8\" />",
      "  <title>French Learning Index - fr.awtza.com</title>",
      "  <style>",
      "    /* style sheet */",
      "  </style>",
      "</head>",
      "<body>",
      "  <h1>📚 Bruce 的法语学习首页</h1>",
      "  <div class=\"subtitle\">自动生成目录 · 最后更新：" + now + "</div>",
      "  <ul>"
    ]
  }

  const TailLines: seq<string> := ["  </ul>", "</body>", "</html>"]

  const Placeholder := "    <li>目前还没有单元页面，请添加一些 .html 文件。</li>"

  /** The eight lines of one entry. */
  function EntryLines(it: Item): (lines: seq<string>)
    ensures |lines| == 8
  {
    [
      "    <li>",
      "      <a href=\"" + it.0 + "\">",
      "        <div class=\"card\">",
      "          <div>" + it.1 + "</div>",
      "          <div class=\"filename\">" + it.0 + "</div>",
      "        </div>",
      "      </a>",
      "    </li>"
    ]
  }

  /** The entries' lines, entry after entry. */
  function EntriesLines(files: seq<Item>): seq<string> {
    if files == [] then [] else EntriesLines(files[..|files| - 1]) + EntryLines(files[|files| - 1])
  }

  /** The list's lines: the placeholder when there is nothing to list. */
  function ItemLines(files: seq<Item>): seq<string> {
    if files == [] then [Placeholder] else EntriesLines(files)
  }

  lemma {:induction false} EntriesLinesLength(files: seq<Item>)
    ensures |EntriesLines(files)| == 8 * |files|
  {
    if files != [] {
      EntriesLinesLength(files[..|files| - 1]);
    }
  }

  /** Entry `i` owns lines `8i` to `8i + 7`, in file order. */
  lemma {:induction false} EntryAt(files: seq<Item>, i: nat)
    requires i < |files|
    ensures |EntriesLines(files)| == 8 * |files|
    ensures EntriesLines(files)[8 * i..8 * i + 8] == EntryLines(files[i])
  {
    var init := files[..|files| - 1];
    EntriesLinesLength(files);
    EntriesLinesLength(init);
    var a := EntriesLines(init);
    var b := EntryLines(files[|files| - 1]);
    assert EntriesLines(files) == a + b;
    if i < |init| {
      EntryAt(init, i);
      assert (a + b)[8 * i..8 * i + 8] == a[8 * i..8 * i + 8];
      assert init[i] == files[i];
    } else {
      assert (a + b)[8 * i..8 * i + 8] == b;
    }
  }

  /** The list holds one placeholder line when empty, else eight lines per
      entry. */
  lemma ItemCount(files: seq<Item>)
    ensures |ItemLines(files)| == if files == [] then 1 else 8 * |files|
    ensures files == [] ==> ItemLines(files) == [Placeholder]
  {
    EntriesLinesLength(files);
  }

  /** The lines `html_parts` ends with. */
  function PageLines(now: string, files: seq<Item>): seq<string> {
    HeadLines(now) + ItemLines(files) + TailLines
  }

  /** The loop that builds `html_parts`. */
  method BuildParts(files: seq<Item>, now: string) returns (parts: seq<string>)
    ensures parts == PageLines(now, files)
  {
    parts := HeadLines(now);
    if |files| == 0 {
      parts := parts + [Placeholder];
    } else {
      var i := 0;
      while i < |files|
        invariant 0 <= i <= |files|
        invariant parts == HeadLines(now) + EntriesLines(files[..i])
      {
        var it := files[i];
        assert files[..i + 1][..i] == files[..i];
        parts := parts + ["    <li>"];
        parts := parts + ["      <a href=\"" + it.0 + "\">"];
        parts := parts + ["        <div class=\"card\">"];
        parts := parts + ["          <div>" + it.1 + "</div>"];
        parts := parts + ["          <div class=\"filename\">" + it.0 + "</div>"];
        parts := parts + ["        </div>"];
        parts := parts + ["      </a>"];
        parts := parts + ["    </li>"];
        i := i + 1;
      }
      assert files[..i] == files;
    }
    parts := parts + TailLines;
  }

  /** The sorted entries the page lists. */
  function Entries(listing: seq<DirEntry>): seq<Item> {
    SortByName(Collected(listing))
  }

  /** `main`: the file written to `index.html` and the count it prints. */
  method GenerateIndex(listing: seq<DirEntry>, base: Directory, now: string) returns (count: nat)
    modifies base
    ensures count == |Collected(listing)|
    ensures base.entries == old(base.entries)["index.html" := Page(Join(PageLines(now, Entries(listing)), "\n"))]
  {
    var files := CollectFiles(listing);
    files := SortByName(files);
    SortByNameCorrect(Collected(listing));
    assert |multiset(files)| == |multiset(Collected(listing))|;
    var parts := BuildParts(files, now);
    base.Write("index.html", Page(Join(parts, "\n")));
    count := |files|;
  }

  /** The page lists exactly the shown regular files, by name, each with its
      title or name, sorted. */
  lemma PageListsShownFiles(listing: seq<DirEntry>)
    ensures ByName(Entries(listing))
    ensures forall it :: it in Entries(listing) <==> it in Collected(listing)
    ensures forall i :: 0 <= i < |listing| && listing[i].isFile && Shown(listing[i].name) ==>
      (listing[i].name, TitleOrName(listing[i])) in Entries(listing)
    ensures |Entries(listing)| == |Collected(listing)|
  {
    SortByNameCorrect(Collected(listing));
    assert |multiset(Entries(listing))| == |multiset(Collected(listing))|;
    forall it ensures it in Entries(listing) <==> it in Collected(listing) {
      assert it in Entries(listing) <==> it in multiset(Entries(listing));
      assert it in Collected(listing) <==> it in multiset(Collected(listing));
    }
    forall i | 0 <= i < |listing| && listing[i].isFile && Shown(listing[i].name)
      ensures (listing[i].name, TitleOrName(listing[i])) in Entries(listing)
    {
      CollectedComplete(listing, i);
    }
  }
}
