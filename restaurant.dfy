/** res.py: reads the `span.fr-phrase` elements of the restaurant dialogue
    page, speaks each usable line into its own mp3, then speaks every section,
    every role and the whole dialogue as one text each. */
module Restaurant {
  import opened Storage
  import opened Text
  import opened Grouping

  /** One parsed span: its `data-tts-id`, `data-role` and `data-section`
      attributes, and its text as `get_text(strip=True)` gives it. */
  datatype Span = Span(ttsId: Option<string>, role: Option<string>, section: Option<string>, text: string)

  /** A span the script keeps, with the defaults filled in. */
  datatype Line = Line(id: string, role: string, section: string, text: string)

  /** A span is skipped when it has no (or an empty) id or an empty text; a
      missing role is "unknown" and a missing section "default". */
  function LineOf(s: Span): (l: Option<Line>)
    ensures l.None? <==> s.ttsId.None? || s.ttsId.value == [] || s.text == []
    ensures l.Some? ==> l.value.id == s.ttsId.value && l.value.text == s.text
    ensures l.Some? ==> l.value.role == (if s.role.None? then "unknown" else s.role.value)
    ensures l.Some? ==> l.value.section == (if s.section.None? then "default" else s.section.value)
  {
    var role := if s.role.Some? then s.role.value else "unknown";
    var section := if s.section.Some? then s.section.value else "default";
    if s.ttsId.None? || s.ttsId.value == [] then None
    else if s.text == [] then None
    else Some(Line(s.ttsId.value, role, section, s.text))
  }

  /** The line a span contributes: none when it is skipped. */
  function LineList(s: Span): seq<Line> {
    if LineOf(s).Some? then [LineOf(s).value] else []
  }

  /** The kept lines, in document order. */
  function Kept(spans: seq<Span>): seq<Line> {
    if spans == [] then [] else LineList(spans[0]) + Kept(spans[1..])
  }

  lemma {:induction false} KeptAppend(a: seq<Span>, b: seq<Span>)
    ensures Kept(a + b) == Kept(a) + Kept(b)
  {
    if a != [] {
      assert (a + b)[1..] == a[1..] + b;
      KeptAppend(a[1..], b);
    } else {
      assert a + b == b;
    }
  }

  /** A skipped span contributes nothing: the kept lines, and so everything
      the script speaks, are those of the page without it. */
  lemma SkippedSpanIgnored(a: seq<Span>, s: Span, b: seq<Span>)
    requires s.ttsId.None? || s.ttsId.value == [] || s.text == []
    ensures Kept(a + [s] + b) == Kept(a + b)
    ensures Jobs(a + [s] + b) == Jobs(a + b)
  {
    KeptAppend(a + [s], b);
    KeptAppend(a, [s]);
    KeptAppend(a, b);
    assert Kept([s]) == [] by {
      assert LineList(s) == [] && [s][1..] == [];
    }
    assert Kept(a + [s]) == Kept(a);
    JobsOfKept(a + [s] + b, a + b);
  }

  /** The calls depend only on the kept lines. */
  lemma JobsOfKept(x: seq<Span>, y: seq<Span>)
    requires Kept(x) == Kept(y)
    ensures Jobs(x) == Jobs(y)
  {
  }

  function SectionPairs(ls: seq<Line>): (ps: seq<Pair>)
  {
    seq(|ls|, i requires 0 <= i < |ls| => (ls[i].section, ls[i].text))
  }

  function RolePairs(ls: seq<Line>): (ps: seq<Pair>)
  {
    seq(|ls|, i requires 0 <= i < |ls| => (ls[i].role, ls[i].text))
  }

  function Texts(ls: seq<Line>): (ts: seq<string>)
  {
    seq(|ls|, i requires 0 <= i < |ls| => ls[i].text)
  }

  /** Each kept line goes once into its section's list, once into its role's
      list and once into the list of all texts. */
  lemma SameTotals(spans: seq<Span>)
    ensures var ls := Kept(spans);
      && Sizes(SectionPairs(ls), Keys(SectionPairs(ls))) == |ls|
      && Sizes(RolePairs(ls), Keys(RolePairs(ls))) == |ls|
      && |Texts(ls)| == |ls|
  {
    GroupsCount(SectionPairs(Kept(spans)));
    GroupsCount(RolePairs(Kept(spans)));
  }

  /** One call of `text_to_speech`: a text and the file it goes to. */
  datatype Job = Job(path: string, text: string)

  function LineFile(id: string): string { "restaurant_" + id + ".mp3" }

  function LineJobs(ls: seq<Line>): (js: seq<Job>)
  {
    seq(|ls|, i requires 0 <= i < |ls| => Job(LineFile(ls[i].id), ls[i].text))
  }

  /** One job per group key, in key order: the group's texts joined by a
      space, into `<prefix><key>.mp3`. */
  function GroupJobs(prefix: string, ps: seq<Pair>, ks: seq<string>): (js: seq<Job>)
    ensures |js| == |ks|
    ensures forall i :: 0 <= i < |ks| ==> js[i] == Job(prefix + ks[i] + ".mp3", Join(Select(ps, ks[i]), " "))
  {
    seq(|ks|, i requires 0 <= i < |ks| => Job(prefix + ks[i] + ".mp3", Join(Select(ps, ks[i]), " ")))
  }

  function AllJobs(ls: seq<Line>): seq<Job> {
    if ls == [] then [] else [Job("restaurant_all.mp3", Join(Texts(ls), " "))]
  }

  /** Every call `main` makes, in order: the lines, the sections, the roles,
      then the whole dialogue. */
  function Jobs(spans: seq<Span>): seq<Job> {
    var ls := Kept(spans);
    var sp, rp := SectionPairs(ls), RolePairs(ls);
    LineJobs(ls) + GroupJobs("restaurant_section_", sp, Keys(sp)) + GroupJobs("restaurant_role_", rp, Keys(rp))
      + AllJobs(ls)
  }

  /** The script speaks nothing exactly when no span is kept; otherwise its
      last call is the whole dialogue, its kept texts joined by spaces. */
  lemma AllLast(spans: seq<Span>)
    ensures Jobs(spans) == [] <==> Kept(spans) == []
    ensures Kept(spans) != [] ==>
      Jobs(spans)[|Jobs(spans)| - 1] == Job("restaurant_all.mp3", Join(Texts(Kept(spans)), " "))
  {
    var ls := Kept(spans);
    if ls == [] {
      assert SectionPairs(ls) == [] && RolePairs(ls) == [];
    }
  }

  /** `text_to_speech`: the text with its whitespace runs collapsed; nothing
      when that is empty. gTTS's `save` opens (and so truncates) the target
      before it asks for audio, so a call that raises leaves a partial file. */
  function Say(r: Run, j: Job, tts: Synthesizer): Run {
    if !r.alive then r
    else
      var t := Collapse(j.text);
      if t == [] then r
      else match tts(Request(t, "fr", None))
        case None => Run(r.files[j.path := Partial], false)
        case Some(b) => Run(r.files[j.path := Audio(b)], true)
  }

  function Perform(r: Run, js: seq<Job>, tts: Synthesizer): Run
    decreases |js|
  {
    if js == [] then r else Perform(Say(r, js[0], tts), js[1..], tts)
  }

  /** A dead run stays dead. */
  lemma {:induction false} DeadStays(r: Run, js: seq<Job>, tts: Synthesizer)
    requires !r.alive
    ensures Perform(r, js, tts) == r
    decreases |js|
  {
    if js != [] {
      DeadStays(Say(r, js[0], tts), js[1..], tts);
    }
  }

  lemma PerformCons(r: Run, j: Job, js: seq<Job>, tts: Synthesizer)
    ensures Perform(r, [j] + js, tts) == Perform(Say(r, j, tts), js, tts)
  {
    assert ([j] + js)[0] == j && ([j] + js)[1..] == js;
  }

  lemma {:induction false} PerformAppend(r: Run, a: seq<Job>, b: seq<Job>, tts: Synthesizer)
    ensures Perform(r, a + b, tts) == Perform(Perform(r, a, tts), b, tts)
    decreases |a|
  {
    if a != [] {
      assert (a + b)[1..] == a[1..] + b;
      PerformAppend(Say(r, a[0], tts), a[1..], b, tts);
    } else {
      assert a + b == b;
    }
  }

  /** What gTTS is asked for is a collapsed text with the same visible
      characters; an empty or all-blank text asks for nothing and writes
      nothing, and a call writes only its own file: the answer when gTTS
      returns one, otherwise a partial file, and the run ends. */
  lemma SayFacts(e: Entries, j: Job, tts: Synthesizer)
    ensures AllSpace(j.text) ==> Say(Run(e, true), j, tts) == Run(e, true)
    ensures !AllSpace(j.text) ==>
      var answer := tts(Request(Collapse(j.text), "fr", None));
      Say(Run(e, true), j, tts) ==
        if answer.Some? then Run(e[j.path := Audio(answer.value)], true) else Run(e[j.path := Partial], false)
    ensures var t := Collapse(j.text);
      !AllSpace(j.text) ==> t != [] && Collapsed(t) && Visible(t) == Visible(j.text)
    ensures forall p :: p in e && p != j.path ==>
      p in Say(Run(e, true), j, tts).files && Say(Run(e, true), j, tts).files[p] == e[p]
    ensures Say(Run(e, true), j, tts).files.Keys <= e.Keys + {j.path}
  {
    CollapseNormalForm(j.text);
  }

  /** `text_to_speech`, returning false where gTTS raises. */
  method TextToSpeech(audio: Directory, text: string, outPath: string, tts: Synthesizer) returns (ok: bool)
    modifies audio
    ensures Run(audio.entries, ok) == Say(Run(old(audio.entries), true), Job(outPath, text), tts)
  {
    var t := Collapse(text);
    ok := true;
    if t == [] {
      return;
    }
    audio.Write(outPath, Partial);
    var response := tts(Request(t, "fr", None));
    if response.None? {
      ok := false;
      return;
    }
    audio.Write(outPath, Audio(response.value));
  }

  /** The jobs of a dict of lists, in key order. */
  function DictJobs(prefix: string, keys: seq<string>, lists: map<string, seq<string>>): (js: seq<Job>)
    requires forall k :: k in keys ==> k in lists
    ensures |js| == |keys|
    ensures forall i :: 0 <= i < |keys| ==> js[i] == Job(prefix + keys[i] + ".mp3", Join(lists[keys[i]], " "))
  {
    seq(|keys|, i requires 0 <= i < |keys| && keys[i] in lists => Job(prefix + keys[i] + ".mp3", Join(lists[keys[i]], " ")))
  }

  lemma DictJobsOfGroups(prefix: string, g: Groups, ps: seq<Pair>)
    requires g.Models(ps)
    ensures forall k :: k in g.keys ==> k in g.lists
    ensures DictJobs(prefix, g.keys, g.lists) == GroupJobs(prefix, ps, Keys(ps))
  {
    KeysExactly(ps);
    ListsSelect(ps);
  }

  /** The loop `for key, texts in d.items(): text_to_speech(" ".join(texts), ...)`. */
  method SpeakGroups(audio: Directory, keys: seq<string>, lists: map<string, seq<string>>, prefix: string,
                     tts: Synthesizer) returns (ok: bool)
    requires forall k :: k in keys ==> k in lists
    modifies audio
    ensures Run(audio.entries, ok) == Perform(Run(old(audio.entries), true), DictJobs(prefix, keys, lists), tts)
  {
    ghost var gj := DictJobs(prefix, keys, lists);
    ghost var final := Perform(Run(audio.entries, true), gj, tts);
    var j := 0;
    while j < |keys|
      invariant 0 <= j <= |keys|
      invariant Perform(Run(audio.entries, true), gj[j..], tts) == final
    {
      var key := keys[j];
      var joined := Join(lists[key], " ");
      assert gj[j..][0] == gj[j] && gj[j..][1..] == gj[j + 1..];
      ok := TextToSpeech(audio, joined, prefix + key + ".mp3", tts);
      if !ok {
        DeadStays(Run(audio.entries, false), gj[j + 1..], tts);
        return;
      }
      j := j + 1;
    }
    ok := true;
  }

  /** Sequence concatenation regrouped; stated apart so that the loop of
      `SpeakLines` sees only this one instance. */
  lemma Associative<T>(a: seq<T>, b: seq<T>, c: seq<T>)
    ensures a + (b + c) == (a + b) + c
  {
  }

  /** The kept lines from span `i` on: span i's own line, then the rest. */
  lemma KeptFrom(spans: seq<Span>, i: int)
    requires 0 <= i < |spans|
    ensures Kept(spans[i..]) == LineList(spans[i]) + Kept(spans[i + 1..])
  {
    assert spans[i..][0] == spans[i] && spans[i..][1..] == spans[i + 1..];
  }

  /** The three appends of a kept line: to its section's list, to its role's
      list and to all texts. */
  method Collect(sections: Groups, roles: Groups, all: seq<string>, line: Line, ghost done: seq<Line>)
    returns (all': seq<string>)
    requires sections != roles
    requires sections.Models(SectionPairs(done)) && roles.Models(RolePairs(done)) && all == Texts(done)
    modifies sections, roles
    ensures sections.Models(SectionPairs(done + [line])) && roles.Models(RolePairs(done + [line]))
    ensures all' == Texts(done + [line])
  {
    assert SectionPairs(done + [line]) == SectionPairs(done) + [(line.section, line.text)];
    assert RolePairs(done + [line]) == RolePairs(done) + [(line.role, line.text)];
    sections.Append(line.section, line.text, SectionPairs(done));
    roles.Append(line.role, line.text, RolePairs(done));
    all' := all + [line.text];
  }

  /** One turn of the first loop of `main`, for the span `span` followed by
      the lines `later`: a skipped span does nothing; a kept line is spoken,
      and collected when the call succeeded. A failure ends the run. */
  method SpeakSpan(span: Span, audio: Directory, sections: Groups, roles: Groups, all: seq<string>,
                   ghost kept: seq<Line>, ghost later: seq<Line>, ghost final: Run, tts: Synthesizer)
    returns (ok: bool, all': seq<string>, ghost kept': seq<Line>)
    requires sections != roles
    requires sections.Models(SectionPairs(kept)) && roles.Models(RolePairs(kept)) && all == Texts(kept)
    requires Perform(Run(audio.entries, true), LineJobs(LineList(span) + later), tts) == final
    modifies audio, sections, roles
    ensures ok ==> kept' == kept + LineList(span)
    ensures ok ==> sections.Models(SectionPairs(kept')) && roles.Models(RolePairs(kept')) && all' == Texts(kept')
    ensures ok ==> Perform(Run(audio.entries, true), LineJobs(later), tts) == final
    ensures !ok ==> Run(audio.entries, false) == final
  {
    ok, all', kept' := true, all, kept;
    var ttsId := span.ttsId;
    var role := if span.role.Some? then span.role.value else "unknown";
    var section := if span.section.Some? then span.section.value else "default";
    var text := span.text;
    if ttsId.None? || ttsId.value == [] || text == [] {
      assert LineList(span) + later == later;
      return;
    }
    var line := Line(ttsId.value, role, section, text);
    assert LineList(span) == [line];
    var job := Job(LineFile(line.id), text);
    assert LineJobs([line] + later) == [job] + LineJobs(later);
    PerformCons(Run(audio.entries, true), job, LineJobs(later), tts);
    ok := TextToSpeech(audio, text, "restaurant_" + ttsId.value + ".mp3", tts);
    if !ok {
      DeadStays(Run(audio.entries, false), LineJobs(later), tts);
      return;
    }
    all' := Collect(sections, roles, all, line, kept);
    kept' := kept + [line];
  }

  /** The first loop of `main`: speaks every kept line, in order, while
      collecting the section, role and overall lists. */
  method SpeakLines(spans: seq<Span>, audio: Directory, tts: Synthesizer)
    returns (ok: bool, sectionTexts: Groups, roleTexts: Groups, allTexts: seq<string>)
    modifies audio
    ensures fresh(sectionTexts) && fresh(roleTexts) && sectionTexts != roleTexts
    ensures Run(audio.entries, ok) == Perform(Run(old(audio.entries), true), LineJobs(Kept(spans)), tts)
    ensures ok ==> sectionTexts.Models(SectionPairs(Kept(spans))) && roleTexts.Models(RolePairs(Kept(spans)))
    ensures ok ==> allTexts == Texts(Kept(spans))
  {
    ghost var ls := Kept(spans);
    ghost var final := Perform(Run(audio.entries, true), LineJobs(ls), tts);
    assert spans[0..] == spans;
    sectionTexts := new Groups();
    roleTexts := new Groups();
    allTexts := [];
    ghost var kept: seq<Line> := [];
    var i := 0;
    while i < |spans|
      invariant 0 <= i <= |spans|
      invariant fresh(sectionTexts) && fresh(roleTexts) && sectionTexts != roleTexts
      invariant ls == kept + Kept(spans[i..])
      invariant sectionTexts.Models(SectionPairs(kept)) && roleTexts.Models(RolePairs(kept))
      invariant allTexts == Texts(kept)
      invariant Perform(Run(audio.entries, true), LineJobs(Kept(spans[i..])), tts) == final
    {
      KeptFrom(spans, i);
      ghost var later := Kept(spans[i + 1..]);
      ghost var kept';
      ok, allTexts, kept' := SpeakSpan(spans[i], audio, sectionTexts, roleTexts, allTexts, kept, later, final, tts);
      if !ok {
        return;
      }
      Associative(kept, LineList(spans[i]), later);
      kept := kept';
      i := i + 1;
    }
    assert spans[i..] == [] && Kept(spans[i..]) == [] && LineJobs([]) == [];
    assert kept == ls;
    ok := true;
  }

  /** `main`, given the parsed spans. It returns false when a gTTS call
      raised, which ends the script. */
  method RunScript(spans: seq<Span>, audio: Directory, tts: Synthesizer) returns (completed: bool)
    modifies audio
    ensures Run(audio.entries, completed) == Perform(Run(old(audio.entries), true), Jobs(spans), tts)
  {
    ghost var e0 := audio.entries;
    ghost var ls := Kept(spans);
    ghost var sp, rp := SectionPairs(ls), RolePairs(ls);
    ghost var sj, rj, aj := GroupJobs("restaurant_section_", sp, Keys(sp)), GroupJobs("restaurant_role_", rp, Keys(rp)), AllJobs(ls);
    assert Jobs(spans) == LineJobs(ls) + (sj + (rj + aj));
    PerformAppend(Run(e0, true), LineJobs(ls), sj + (rj + aj), tts);
    var sectionTexts, roleTexts, allTexts;
    completed, sectionTexts, roleTexts, allTexts := SpeakLines(spans, audio, tts);
    if !completed {
      DeadStays(Run(audio.entries, false), sj + (rj + aj), tts);
      return;
    }
    DictJobsOfGroups("restaurant_section_", sectionTexts, sp);
    DictJobsOfGroups("restaurant_role_", roleTexts, rp);
    PerformAppend(Run(audio.entries, true), sj, rj + aj, tts);
    completed := SpeakGroups(audio, sectionTexts.keys, sectionTexts.lists, "restaurant_section_", tts);
    if !completed {
      DeadStays(Run(audio.entries, false), rj + aj, tts);
      return;
    }
    PerformAppend(Run(audio.entries, true), rj, aj, tts);
    completed := SpeakGroups(audio, roleTexts.keys, roleTexts.lists, "restaurant_role_", tts);
    if !completed {
      DeadStays(Run(audio.entries, false), aj, tts);
      return;
    }
    if allTexts != [] {
      var joined := Join(allTexts, " ");
      assert aj == [Job("restaurant_all.mp3", joined)];
      assert aj[1..] == [];
      completed := TextToSpeech(audio, joined, "restaurant_all.mp3", tts);
    }
  }
}
