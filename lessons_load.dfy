/** build_lessons.py, part 1: lesson records and `load_lessons`, which reads
    the `.json` files of `lessons` in filename order, fills in the default fields and drops
    the files that cannot be read or have no `sentences` list. */
module Lessons {
  import opened Storage
  import opened Text
  import opened Order

  /** One entry of a lesson's `sentences` list: the French text and the
      optional Chinese translation. */
  datatype Sentence = Sentence(fr: string, zh: Option<string>)

  /** A value in a parsed lesson object. Strings and lists are what the
      pipeline inspects; for a nested object (`Dict`) and for a number, a
      boolean or null (`Other`) only Python's `str()` of it, its truthiness
      and whether it can be a dict key matter, so those are carried as given. */
  datatype Value =
    | Str(s: string)
    | List(items: seq<Sentence>, shown: string)
    | Dict(shown: string, truthy: bool)
    | Other(shown: string, truthy: bool)
    | SourcePath(file: string)   // the Path stored under "_source_path"

  /** What an f-string prints for the value. */
  function Show(v: Value): string {
    match v
    case Str(s) => s
    case List(_, shown) => shown
    case Dict(shown, _) => shown
    case Other(shown, _) => shown
    case SourcePath(file) => "lessons/" + file
  }

  /** Python truthiness: the empty string and the empty list are false. */
  predicate Truthy(v: Value) {
    match v
    case Str(s) => s != []
    case List(items, _) => items != []
    case Dict(_, truthy) => truthy
    case Other(_, truthy) => truthy
    case SourcePath(_) => true
  }

  /** Whether the value can be a dict key: lists and dicts cannot. */
  predicate Hashable(v: Value) {
    !v.List? && !v.Dict?
  }

  /** A lesson object: the dict `json.loads` returned. */
  type Record = map<string, Value>

  /** A lesson file after reading and parsing: `Unreadable` when
      `read_text` or `json.loads` raised, `NotObject` when the text is valid
      JSON but not an object (an array, a string, a number, a boolean or
      null), `Object` otherwise. */
  datatype Parsed = Unreadable | NotObject | Object(fields: Record)

  /** `s.get("zh", "")`. */
  function ZhText(s: Sentence): string {
    match s.zh
    case Some(z) => z
    case None => ""
  }

  /** `Path(name).stem` for a name ending in the extension `ext` (which is a
      dot and letters): the name without it, except that a name that is only
      the extension keeps it, as for a hidden file. */
  function Stem(name: string, ext: string): (stem: string)
    ensures stem == name || stem + ext == name
  {
    if EndsWith(name, ext) && |name| > |ext| then
      assert name == name[..|name| - |ext|] + name[|name| - |ext|..];
      name[..|name| - |ext|]
    else name
  }

  /** The files `CONTENT_DIR.glob("*.json")` finds. */
  function JsonNames(dir: map<string, Parsed>): (names: set<string>)
    ensures forall n :: n in names <==> n in dir && '/' !in n && EndsWith(n, ".json")
  {
    set n | n in dir && '/' !in n && EndsWith(n, ".json")
  }

  /** The fields every loaded lesson has. */
  predicate IsLesson(r: Record) {
    && "id" in r && "title" in r && "title_zh" in r
    && "description" in r && "description_zh" in r
    && "sentences" in r && r["sentences"].List?
  }

  function Sentences(r: Record): seq<Sentence>
    requires IsLesson(r)
  {
    r["sentences"].items
  }

  /** The keys `load_lessons` fills in. */
  const DefaultKeys: set<string> := {"id", "title", "title_zh", "description", "description_zh", "_source_path"}

  /** A file is kept when it parsed and its `sentences` value is a list. */
  predicate Keeps(p: Parsed) {
    p.Object? && "sentences" in p.fields && p.fields["sentences"].List?
  }

  /** `data.setdefault(key, value)`. */
  function SetDefault(data: Record, key: string, value: Value): Record
  {
    if key in data then data else data[key := value]
  }

  /** The record `load_lessons` keeps for a parsed file: `id` set from the
      file stem when absent, then `setdefault` of `title` (to `id`) and of the
      three other text fields (to ""), then the source path. */
  function Normalize(name: string, f: Record): Record
  {
    var withId := if "id" in f then f else f["id" := Str(Stem(name, ".json"))];
    var titled := SetDefault(withId, "title", withId["id"]);
    var full := SetDefault(SetDefault(SetDefault(titled, "title_zh", Str("")), "description", Str("")),
                           "description_zh", Str(""));
    full["_source_path" := SourcePath(name)]
  }

  /** A normalised record holds the file's own value of each lesson field, or
      the default for an absent one (`id` from the file stem, `title` from
      `id`, the other three empty), and the source path. */
  lemma NormalizeFields(name: string, f: Record)
    ensures var r := Normalize(name, f);
      && r["id"] == (if "id" in f then f["id"] else Str(Stem(name, ".json")))
      && r["title"] == (if "title" in f then f["title"] else r["id"])
      && r["title_zh"] == (if "title_zh" in f then f["title_zh"] else Str(""))
      && r["description"] == (if "description" in f then f["description"] else Str(""))
      && r["description_zh"] == (if "description_zh" in f then f["description_zh"] else Str(""))
      && r["_source_path"] == SourcePath(name)
  {
  }

  /** Normalising keeps every field of the file except `_source_path`, and
      adds none but the defaults. */
  lemma NormalizeKeeps(name: string, f: Record)
    ensures var r := Normalize(name, f);
      forall k :: k in f && k != "_source_path" ==> k in r && r[k] == f[k]
    ensures var r := Normalize(name, f);
      forall k :: k in r ==> k in f || k in DefaultKeys
  {
  }

  /** What the file `name` contributes: its normalised record when kept. */
  function Kept(dir: map<string, Parsed>, name: string): seq<Record> {
    if name in dir && Keeps(dir[name]) then [Normalize(name, dir[name].fields)] else []
  }

  /** The records kept from the first `n` files of `names`, in that order. */
  function Loaded(dir: map<string, Parsed>, names: seq<string>, n: nat): seq<Record>
    requires n <= |names|
  {
    if n == 0 then [] else Loaded(dir, names, n - 1) + Kept(dir, names[n - 1])
  }

  /** What `load_lessons` returns when no file raises: nothing when the
      directory is missing, otherwise the kept records of the `*.json` files
      in sorted order. */
  function LoadSpec(content: Option<map<string, Parsed>>): seq<Record> {
    match content
    case None => []
    case Some(dir) => var names := SortedOf(JsonNames(dir)); Loaded(dir, names, |names|)
  }

  /** The body of `load_lessons`'s loop for one parsed file: the defaults
      are set in place, and the record is kept when it has a `sentences` list.
      The `id` test and the assignments only work on a dict: on any other
      JSON value one of them raises `TypeError` or `AttributeError`, which
      nothing catches (`raised`). */
  method LoadOne(name: string, parsed: Parsed) returns (kept: Option<Record>, raised: bool)
    ensures raised <==> parsed.NotObject?
    ensures kept.None? <==> !Keeps(parsed)
    ensures kept.Some? ==> kept.value == Normalize(name, parsed.fields)
  {
    kept, raised := None, false;
    if parsed.Unreadable? {
      return;
    }
    if parsed.NotObject? {
      raised := true;
      return;
    }
    var data := parsed.fields;
    if "id" !in data {
      data := data["id" := Str(Stem(name, ".json"))];
    }
    data := SetDefault(data, "title", data["id"]);
    data := SetDefault(data, "title_zh", Str(""));
    data := SetDefault(data, "description", Str(""));
    data := SetDefault(data, "description_zh", Str(""));
    data := data["_source_path" := SourcePath(name)];
    if "sentences" in data && data["sentences"].List? {
      kept := Some(data);
    }
  }

  /** Some `*.json` file parses to a JSON value that is not an object, so
      `load_lessons` raises instead of returning. */
  predicate LoadRaises(content: Option<map<string, Parsed>>) {
    content.Some? && exists n :: n in JsonNames(content.value) && content.value[n].NotObject?
  }

  /** None of the first `n` files of `names` parses to a non-object. */
  predicate NoneRaise(dir: map<string, Parsed>, names: seq<string>, n: nat)
    requires n <= |names|
  {
    forall j :: 0 <= j < n ==> names[j] in dir ==> !dir[names[j]].NotObject?
  }

  /** When no globbed file, in sorted order, parses to a non-object, none
      does. */
  lemma NoneRaiseAll(dir: map<string, Parsed>)
    requires NoneRaise(dir, SortedOf(JsonNames(dir)), |SortedOf(JsonNames(dir))|)
    ensures !LoadRaises(Some(dir))
  {
    var paths := SortedOf(JsonNames(dir));
    forall n | n in JsonNames(dir) ensures !dir[n].NotObject? {
      assert n in paths;
      var j :| 0 <= j < |paths| && paths[j] == n;
    }
  }

  /** `load_lessons`: the files are visited in sorted order and each kept
      record is appended; a file that parses to something other than an
      object ends the function with an exception (`raised`, and no lessons). */
  method LoadLessons(content: Option<map<string, Parsed>>) returns (lessons: seq<Record>, raised: bool)
    ensures raised <==> LoadRaises(content)
    ensures raised ==> lessons == []
    ensures !raised ==> lessons == LoadSpec(content)
  {
    lessons, raised := [], false;
    if content.None? {
      return;
    }
    var dir := content.value;
    var paths := SortedOf(JsonNames(dir));
    var i := 0;
    while i < |paths|
      invariant 0 <= i <= |paths|
      invariant lessons == Loaded(dir, paths, i)
      invariant NoneRaise(dir, paths, i)
    {
      var name := paths[i];
      assert name in JsonNames(dir);
      var kept, failed := LoadOne(name, dir[name]);
      if failed {
        lessons, raised := [], true;
        return;
      }
      assert Loaded(dir, paths, i + 1) == lessons + Kept(dir, name);
      if kept.Some? {
        lessons := lessons + [kept.value];
      }
      i := i + 1;
    }
    NoneRaiseAll(dir);
  }

  /** The source file of a loaded record. */
  function SourceOf(r: Record): string {
    if "_source_path" in r && r["_source_path"].SourcePath? then r["_source_path"].file else ""
  }

  function Sources(ls: seq<Record>): seq<string> {
    seq(|ls|, i requires 0 <= i < |ls| => SourceOf(ls[i]))
  }

  lemma SourceOfNormalize(name: string, f: Record)
    ensures SourceOf(Normalize(name, f)) == name
  {
    NormalizeFields(name, f);
  }

  /** The kept files among the first `n` of `names`, in order. */
  function KeptNames(dir: map<string, Parsed>, names: seq<string>, n: nat): seq<string>
    requires n <= |names|
  {
    if n == 0 then []
    else KeptNames(dir, names, n - 1) + (if names[n - 1] in dir && Keeps(dir[names[n - 1]]) then [names[n - 1]] else [])
  }

  lemma SourcesAppend(ls: seq<Record>, r: Record)
    ensures Sources(ls + [r]) == Sources(ls) + [SourceOf(r)]
  {
    assert forall i :: 0 <= i < |ls| ==> (ls + [r])[i] == ls[i];
  }

  /** The kept records come one per kept file, from that file. */
  lemma {:induction false} LoadedSources(dir: map<string, Parsed>, names: seq<string>, n: nat)
    requires n <= |names|
    ensures Sources(Loaded(dir, names, n)) == KeptNames(dir, names, n)
  {
    if n > 0 {
      LoadedSources(dir, names, n - 1);
      var before, last := Loaded(dir, names, n - 1), names[n - 1];
      if last in dir && Keeps(dir[last]) {
        var r := Normalize(last, dir[last].fields);
        SourceOfNormalize(last, dir[last].fields);
        SourcesAppend(before, r);
        calc {
          Sources(Loaded(dir, names, n));
          Sources(before + [r]);
          Sources(before) + [last];
          KeptNames(dir, names, n - 1) + [last];
          KeptNames(dir, names, n);
        }
      } else {
        calc {
          Sources(Loaded(dir, names, n));
          Sources(before);
          KeptNames(dir, names, n - 1);
          KeptNames(dir, names, n);
        }
      }
    }
  }

  lemma {:induction false} KeptMembers(dir: map<string, Parsed>, names: seq<string>, n: nat)
    requires n <= |names|
    requires forall i :: 0 <= i < |names| ==> names[i] in dir
    ensures forall x :: x in KeptNames(dir, names, n) <==> x in names[..n] && Keeps(dir[x])
  {
    if n > 0 {
      KeptMembers(dir, names, n - 1);
      assert names[..n] == names[..n - 1] + [names[n - 1]];
    }
  }

  lemma {:induction false} LoadedNormalized(dir: map<string, Parsed>, names: seq<string>, n: nat)
    requires n <= |names|
    ensures forall i :: 0 <= i < |Loaded(dir, names, n)| ==>
      var r := Loaded(dir, names, n)[i];
      SourceOf(r) in dir && Keeps(dir[SourceOf(r)]) &&
      r == Normalize(SourceOf(r), dir[SourceOf(r)].fields)
  {
    if n > 0 {
      LoadedNormalized(dir, names, n - 1);
      var last := names[n - 1];
      if last in dir && Keeps(dir[last]) {
        SourceOfNormalize(last, dir[last].fields);
      }
    }
  }

  lemma {:induction false} KeptSorted(dir: map<string, Parsed>, names: seq<string>, n: nat)
    requires n <= |names| && Sorted(names)
    requires forall i :: 0 <= i < |names| ==> names[i] in dir
    ensures Sorted(KeptNames(dir, names, n))
  {
    if n > 0 {
      KeptSorted(dir, names, n - 1);
      var last := names[n - 1];
      var before := KeptNames(dir, names, n - 1);
      if Keeps(dir[last]) {
        var ss := before + [last];
        KeptMembers(dir, names, n - 1);
        forall a, b | 0 <= a < b < |ss| ensures Below(ss[a], ss[b]) {
          if b == |ss| - 1 {
            var x := ss[a];
            assert x in before;
            var k :| 0 <= k < n - 1 && names[..n - 1][k] == x;
            assert names[k] == x;
          } else {
            assert ss[a] == before[a] && ss[b] == before[b];
          }
        }
      }
    }
  }

  /** When it returns, `load_lessons` returns one record for each readable
      `.json` object whose `sentences` is a list and for no other file, in
      increasing filename order; a missing directory gives nothing. */
  lemma LoadExactly(content: Option<map<string, Parsed>>)
    ensures content.None? ==> LoadSpec(content) == []
    ensures Sorted(Sources(LoadSpec(content)))
    ensures forall n :: n in Sources(LoadSpec(content)) <==>
      content.Some? && n in content.value && '/' !in n && EndsWith(n, ".json") && Keeps(content.value[n])
  {
    if content.Some? {
      var dir := content.value;
      var names := SortedOf(JsonNames(dir));
      LoadedSources(dir, names, |names|);
      KeptMembers(dir, names, |names|);
      SortedOfSorted(JsonNames(dir));
      KeptSorted(dir, names, |names|);
      assert names[..|names|] == names;
    }
  }

  /** Each loaded record is its own file's object, normalised. */
  lemma LoadedFromFiles(content: Option<map<string, Parsed>>)
    ensures content.Some? ==> forall i :: 0 <= i < |LoadSpec(content)| ==>
      var r := LoadSpec(content)[i];
      SourceOf(r) in content.value && Keeps(content.value[SourceOf(r)]) &&
      r == Normalize(SourceOf(r), content.value[SourceOf(r)].fields)
  {
    if content.Some? {
      var names := SortedOf(JsonNames(content.value));
      LoadedNormalized(content.value, names, |names|);
    }
  }

  /** Every loaded record has the fields the renderers read, and keeps the
      values its file gave. */
  lemma LoadedAreLessons(content: Option<map<string, Parsed>>, i: int)
    requires 0 <= i < |LoadSpec(content)|
    ensures IsLesson(LoadSpec(content)[i])
    ensures content.Some? && SourceOf(LoadSpec(content)[i]) in content.value
    ensures var r := LoadSpec(content)[i];
      var p := content.value[SourceOf(r)];
      p.Object? && forall k :: k in p.fields && k != "_source_path" ==> k in r && r[k] == p.fields[k]
  {
    LoadedFromFiles(content);
    var r := LoadSpec(content)[i];
    var n := SourceOf(r);
    NormalizeFields(n, content.value[n].fields);
    NormalizeKeeps(n, content.value[n].fields);
  }
}
