/** _Archive_files/res.py: one mp3 per script line from the speech service,
    then, with pydub, one clip per section and one clip of every section,
    each joined with fixed stretches of silence. Files live in the `audio`
    directory; the keys below are names inside it. A clip's length in
    milliseconds comes from an abstract `duration` of the audio bytes. */
module RestaurantClips {
  import opened Storage
  import opened Order
  import opened Grouping
  import opened RestaurantScript

  const ServeurVoice := "fr-FR-Wavenet-D"
  const ClientVoice := "fr-FR-Wavenet-E"

  /** The voice of `synthesize_line`: the waiter's voice for "serveur", the
      customer's for every other role (the vocabulary included). */
  function VoiceFor(role: string): (voice: string)
    ensures voice == ServeurVoice <==> role == "serveur"
    ensures voice == ServeurVoice || voice == ClientVoice
  {
    if role == "serveur" then ServeurVoice else ClientVoice
  }

  /** The request for one line: its text, in "fr-FR", in its role's voice. */
  function LineRequest(line: ScriptLine): Request {
    Request(line.text, "fr-FR", Some(VoiceFor(line.role)))
  }

  function LinePath(id: string): string { id + ".mp3" }

  function SectionPath(section: string): string { section + "_all.mp3" }

  const GlobalPath := "all_dialogues.mp3"

  const VocabPath := "vocab_all.mp3"

  /** Two names with the same suffix added are the same name. */
  lemma SuffixInjective(a: string, b: string, suffix: string)
    requires a + suffix == b + suffix
    ensures a == b
  {
    assert a == (a + suffix)[..|a|];
    assert b == (b + suffix)[..|b|];
  }

  // ---------------------------------------------------------------------
  // generate_individual_files

  /** The directory after the first `n` lines: each line's file is written
      with whatever the service answers, existing or not; the first failed
      call ends the run. */
  function Individual(files: Entries, lines: seq<ScriptLine>, n: nat, tts: Synthesizer): Run
    requires n <= |lines|
  {
    if n == 0 then Run(files, true)
    else
      var r := Individual(files, lines, n - 1, tts);
      if !r.alive then r
      else match tts(LineRequest(lines[n - 1]))
        case None => Run(r.files, false)
        case Some(b) => Run(r.files[LinePath(lines[n - 1].id) := Audio(b)], true)
  }

  lemma {:induction false} IndividualDeadStays(files: Entries, lines: seq<ScriptLine>, i: nat, n: nat, tts: Synthesizer)
    requires i <= n <= |lines| && !Individual(files, lines, i, tts).alive
    ensures Individual(files, lines, n, tts) == Individual(files, lines, i, tts)
  {
    if n > i {
      IndividualDeadStays(files, lines, i, n - 1, tts);
    }
  }

  /** The run completes exactly when every call succeeds. */
  lemma {:induction false} IndividualAlive(files: Entries, lines: seq<ScriptLine>, n: nat, tts: Synthesizer)
    requires n <= |lines|
    ensures Individual(files, lines, n, tts).alive <==> forall i :: 0 <= i < n ==> tts(LineRequest(lines[i])).Some?
  {
    if n > 0 {
      IndividualAlive(files, lines, n - 1, tts);
    }
  }

  /** Ids being distinct, a completed run leaves in each line's file that
      line's own audio, whatever the file held before. */
  lemma {:induction false} IndividualWrites(files: Entries, lines: seq<ScriptLine>, n: nat, tts: Synthesizer)
    requires n <= |lines| && UniqueIds(lines)
    ensures var r := Individual(files, lines, n, tts);
      r.alive ==> forall i :: 0 <= i < n ==>
        var p := LinePath(lines[i].id);
        p in r.files && r.files[p].Audio? && tts(LineRequest(lines[i])) == Some(r.files[p].bytes)
  {
    if n > 0 {
      IndividualWrites(files, lines, n - 1, tts);
      forall i | 0 <= i < n - 1 ensures LinePath(lines[i].id) != LinePath(lines[n - 1].id) {
        if LinePath(lines[i].id) == LinePath(lines[n - 1].id) {
          SuffixInjective(lines[i].id, lines[n - 1].id, ".mp3");
        }
      }
    }
  }

  /** The run writes nothing but the lines' files. */
  lemma {:induction false} IndividualKeeps(files: Entries, lines: seq<ScriptLine>, n: nat, tts: Synthesizer)
    requires n <= |lines|
    ensures var r := Individual(files, lines, n, tts);
      forall p :: p in files && (forall i :: 0 <= i < n ==> p != LinePath(lines[i].id)) ==>
        p in r.files && r.files[p] == files[p]
    ensures var r := Individual(files, lines, n, tts);
      forall p :: p in r.files ==> p in files || exists i :: 0 <= i < n && p == LinePath(lines[i].id)
  {
    if n > 0 {
      IndividualKeeps(files, lines, n - 1, tts);
    }
  }

  /** `generate_individual_files`: `ok` is false when a call raised. */
  method GenerateIndividualFiles(audio: Directory, lines: seq<ScriptLine>, tts: Synthesizer) returns (ok: bool)
    modifies audio
    ensures Run(audio.entries, ok) == Individual(old(audio.entries), lines, |lines|, tts)
  {
    ghost var e0 := audio.entries;
    var i := 0;
    while i < |lines|
      invariant 0 <= i <= |lines|
      invariant Run(audio.entries, true) == Individual(e0, lines, i, tts)
    {
      var line := lines[i];
      var response := tts(LineRequest(line));
      if response.None? {
        IndividualDeadStays(e0, lines, i + 1, |lines|, tts);
        return false;
      }
      audio.Write(LinePath(line.id), Audio(response.value));
      i := i + 1;
    }
    return true;
  }

  // ---------------------------------------------------------------------
  // build_sections_and_global: grouping by section

  /** The (section, id) pairs the grouping loop feeds to `setdefault`. */
  function SectionPairs(lines: seq<ScriptLine>): (ps: seq<Pair>)
    ensures |ps| == |lines| && forall i :: 0 <= i < |lines| ==> ps[i] == (lines[i].section, lines[i].id)
  {
    seq(|lines|, i requires 0 <= i < |lines| => (lines[i].section, lines[i].id))
  }

  /** The ids of the lines of section `s`, in table order. */
  function IdsOf(lines: seq<ScriptLine>, s: string): seq<string> {
    if lines == [] then []
    else IdsOf(lines[..|lines| - 1], s) + (if lines[|lines| - 1].section == s then [lines[|lines| - 1].id] else [])
  }

  lemma {:induction false} SelectIsIdsOf(lines: seq<ScriptLine>, s: string)
    ensures Select(SectionPairs(lines), s) == IdsOf(lines, s)
  {
    if lines != [] {
      var init := lines[..|lines| - 1];
      assert SectionPairs(lines)[..|lines| - 1] == SectionPairs(init);
      SelectIsIdsOf(init, s);
    }
  }

  /** `sections` has a key for exactly the sections present, and each
      holds its line ids in table order. */
  lemma SectionsContents(lines: seq<ScriptLine>)
    ensures var ps := SectionPairs(lines);
      forall s :: s in Lists(ps) <==> exists i :: 0 <= i < |lines| && lines[i].section == s
    ensures var ps := SectionPairs(lines);
      forall s :: s in Lists(ps) ==> Lists(ps)[s] == IdsOf(lines, s)
  {
    var ps := SectionPairs(lines);
    ListsSelect(ps);
    forall s ensures Occurs(ps, s) <==> exists i :: 0 <= i < |lines| && lines[i].section == s {
      if Occurs(ps, s) {
        var i :| 0 <= i < |ps| && ps[i].0 == s;
        assert lines[i].section == s;
      }
    }
    forall s | s in Lists(ps) ensures Lists(ps)[s] == IdsOf(lines, s) {
      SelectIsIdsOf(lines, s);
    }
  }

  /** The keys of `sections` name each section once, in the order the
      sections first appear: every line of a later key comes after some
      line of an earlier key. */
  lemma SectionsOrder(lines: seq<ScriptLine>)
    ensures var ks := Keys(SectionPairs(lines));
      Distinct(ks) && forall s :: s in ks <==> s in Lists(SectionPairs(lines))
    ensures var ks := Keys(SectionPairs(lines));
      forall a, b, j :: 0 <= a < b < |ks| && 0 <= j < |lines| && lines[j].section == ks[b] ==>
        exists i :: 0 <= i < j && lines[i].section == ks[a]
  {
    var ps := SectionPairs(lines);
    var ks := Keys(ps);
    KeysExactly(ps);
    ListsSelect(ps);
    forall a, b, j | 0 <= a < b < |ks| && 0 <= j < |lines| && lines[j].section == ks[b]
      ensures exists i :: 0 <= i < j && lines[i].section == ks[a]
    {
      assert ks[a] in ks && ks[b] in ks;
      var fa, fb := First(ps, ks[a]), First(ps, ks[b]);
      assert ps[j].0 == ks[b];
      assert fb <= j;
      assert lines[fa].section == ks[a];
    }
  }

  /** The grouping loop: `sections.setdefault(section, []).append(line_id)`. */
  method GroupSections(lines: seq<ScriptLine>) returns (sections: Groups)
    ensures fresh(sections)
    ensures sections.Models(SectionPairs(lines))
  {
    sections := new Groups();
    ghost var ps := SectionPairs(lines);
    var i := 0;
    while i < |lines|
      invariant 0 <= i <= |lines|
      invariant sections.Models(ps[..i])
    {
      assert ps[..i + 1] == ps[..i] + [(lines[i].section, lines[i].id)];
      sections.Append(lines[i].section, lines[i].id, ps[..i]);
      i := i + 1;
    }
    assert ps[..i] == ps;
  }

  // ---------------------------------------------------------------------
  // build_sections_and_global: joining clips

  /** `AudioSegment.from_file`: a line's mp3 decodes to one clip of its
      duration, an exported clip to its pieces; a missing file or any other
      content raises. */
  function Decode(files: Entries, path: string, duration: Bytes -> nat): Option<seq<Piece>> {
    if path !in files then None
    else match files[path]
      case Audio(b) => Some([Clip(path, duration(b))])
      case Mix(ps) => Some(ps)
      case _ => None
  }

  /** The length of a clip in milliseconds. */
  function Length(ps: seq<Piece>): nat {
    if ps == [] then 0 else Length(ps[..|ps| - 1]) + ps[|ps| - 1].ms
  }

  lemma {:induction false} LengthAppend(a: seq<Piece>, b: seq<Piece>)
    ensures Length(a + b) == Length(a) + Length(b)
    decreases |b|
  {
    if b != [] {
      var c := a + b;
      assert c[..|c| - 1] == a + b[..|b| - 1];
      assert c[|c| - 1] == b[|b| - 1];
      LengthAppend(a, b[..|b| - 1]);
    } else {
      assert a + b == a;
    }
  }

  /** `combined` after the first `n` ids of a section: 200 ms of silence,
      then each line followed by 400 ms; None once a read raised. */
  function SectionMix(files: Entries, ids: seq<string>, n: nat, duration: Bytes -> nat): Option<seq<Piece>>
    requires n <= |ids|
  {
    if n == 0 then Some([Silence(200)])
    else match SectionMix(files, ids, n - 1, duration)
      case None => None
      case Some(c) =>
        match Decode(files, LinePath(ids[n - 1]), duration)
          case None => None
          case Some(a) => Some(c + a + [Silence(400)])
  }

  /** The total duration of the first `n` lines' audio files. */
  function Durations(files: Entries, ids: seq<string>, n: nat, duration: Bytes -> nat): nat
    requires n <= |ids| && AllAudio(files, ids, n)
  {
    if n == 0 then 0 else Durations(files, ids, n - 1, duration) + duration(files[LinePath(ids[n - 1])].bytes)
  }

  /** Every line's file holds audio. */
  predicate AllAudio(files: Entries, ids: seq<string>, n: nat)
    requires n <= |ids|
  {
    forall i :: 0 <= i < n ==> LinePath(ids[i]) in files && files[LinePath(ids[i])].Audio?
  }

  /** When every line's file holds audio, the section clip is 200 ms of
      silence, then each line's clip followed by 400 ms. */
  lemma {:induction false} SectionClip(files: Entries, ids: seq<string>, n: nat, duration: Bytes -> nat)
    requires n <= |ids| && AllAudio(files, ids, n)
    ensures SectionMix(files, ids, n, duration).Some?
    ensures var c := SectionMix(files, ids, n, duration).value;
      && |c| == 1 + 2 * n && c[0] == Silence(200)
      && (forall i :: 0 <= i < n ==>
            c[2 * i + 1] == Clip(LinePath(ids[i]), duration(files[LinePath(ids[i])].bytes)) &&
            c[2 * i + 2] == Silence(400))
  {
    if n > 0 {
      SectionClip(files, ids, n - 1, duration);
    }
  }

  /** With every line's audio in place, the section clip can be made. */
  lemma {:induction false} SectionMixSome(files: Entries, ids: seq<string>, n: nat, duration: Bytes -> nat)
    requires n <= |ids| && AllAudio(files, ids, n)
    ensures SectionMix(files, ids, n, duration).Some?
  {
    if n > 0 {
      SectionMixSome(files, ids, n - 1, duration);
    }
  }

  /** The section clip lasts 200 ms, plus the lines' durations, plus 400 ms
      per line. */
  lemma {:induction false} SectionClipLength(files: Entries, ids: seq<string>, n: nat, duration: Bytes -> nat)
    requires n <= |ids| && AllAudio(files, ids, n)
    ensures SectionMix(files, ids, n, duration).Some?
    ensures Length(SectionMix(files, ids, n, duration).value) == 200 + Durations(files, ids, n, duration) + 400 * n
  {
    SectionClip(files, ids, n, duration);
    if n > 0 {
      SectionClipLength(files, ids, n - 1, duration);
      var c := SectionMix(files, ids, n - 1, duration).value;
      var a := [Clip(LinePath(ids[n - 1]), duration(files[LinePath(ids[n - 1])].bytes))];
      LengthAppend(c, a);
      LengthAppend(c + a, [Silence(400)]);
      assert Length([Silence(400)]) == 400;
      assert Length(a) == duration(files[LinePath(ids[n - 1])].bytes);
    }
  }

  /** The inner loop: `combined` for one section's ids, or None when a read
      raised. It changes nothing. */
  method MixSection(audio: Directory, ids: seq<string>, duration: Bytes -> nat) returns (combined: Option<seq<Piece>>)
    ensures combined == SectionMix(audio.entries, ids, |ids|, duration)
  {
    var c := [Silence(200)];
    var i := 0;
    while i < |ids|
      invariant 0 <= i <= |ids|
      invariant SectionMix(audio.entries, ids, i, duration) == Some(c)
    {
      var a := Decode(audio.entries, LinePath(ids[i]), duration);
      if a.None? {
        DeadMixStays(audio.entries, ids, i + 1, |ids|, duration);
        return None;
      }
      c := c + a.value + [Silence(400)];
      i := i + 1;
    }
    return Some(c);
  }

  lemma {:induction false} DeadMixStays(files: Entries, ids: seq<string>, i: nat, n: nat, duration: Bytes -> nat)
    requires i <= n <= |ids| && SectionMix(files, ids, i, duration).None?
    ensures SectionMix(files, ids, n, duration).None?
  {
    if n > i {
      DeadMixStays(files, ids, i, n - 1, duration);
    }
  }

  /** Every key has a list. */
  predicate Listed(keys: seq<string>, lists: map<string, seq<string>>) {
    forall i :: 0 <= i < |keys| ==> keys[i] in lists
  }

  /** The directory after the first `n` sections: each section's clip is
      exported to `<section>_all.mp3`; the first read that raises ends the
      run. */
  function SectionsUpTo(files: Entries, keys: seq<string>, lists: map<string, seq<string>>, n: nat,
                        duration: Bytes -> nat): Run
    requires n <= |keys| && Listed(keys, lists)
  {
    if n == 0 then Run(files, true)
    else
      var r := SectionsUpTo(files, keys, lists, n - 1, duration);
      var ids := lists[keys[n - 1]];
      if !r.alive then r
      else match SectionMix(r.files, ids, |ids|, duration)
        case None => Run(r.files, false)
        case Some(c) => Run(r.files[SectionPath(keys[n - 1]) := Mix(c)], true)
  }

  lemma {:induction false} SectionsDeadStays(files: Entries, keys: seq<string>, lists: map<string, seq<string>>,
                                             i: nat, n: nat, duration: Bytes -> nat)
    requires i <= n <= |keys| && Listed(keys, lists) && !SectionsUpTo(files, keys, lists, i, duration).alive
    ensures SectionsUpTo(files, keys, lists, n, duration) == SectionsUpTo(files, keys, lists, i, duration)
  {
    if n > i {
      SectionsDeadStays(files, keys, lists, i, n - 1, duration);
    }
  }

  /** When the sections loop completes, every section's clip file exists. */
  lemma {:induction false} SectionsWritten(files: Entries, keys: seq<string>, lists: map<string, seq<string>>, n: nat,
                                           duration: Bytes -> nat)
    requires n <= |keys| && Listed(keys, lists)
    ensures var r := SectionsUpTo(files, keys, lists, n, duration);
      r.alive ==> forall i :: 0 <= i < n ==> SectionPath(keys[i]) in r.files && r.files[SectionPath(keys[i])].Mix?
  {
    if n > 0 {
      SectionsWritten(files, keys, lists, n - 1, duration);
    }
  }

  /** The loop over `sections.items()`. */
  method MixSections(audio: Directory, sections: Groups, duration: Bytes -> nat) returns (ok: bool)
    requires Listed(sections.keys, sections.lists)
    modifies audio
    ensures Run(audio.entries, ok) == SectionsUpTo(old(audio.entries), sections.keys, sections.lists, |sections.keys|, duration)
  {
    ghost var e0 := audio.entries;
    var keys := sections.keys;
    var i := 0;
    while i < |keys|
      invariant 0 <= i <= |keys|
      invariant Run(audio.entries, true) == SectionsUpTo(e0, keys, sections.lists, i, duration)
    {
      var combined := MixSection(audio, sections.lists[keys[i]], duration);
      if combined.None? {
        SectionsDeadStays(e0, keys, sections.lists, i + 1, |keys|, duration);
        return false;
      }
      audio.Write(SectionPath(keys[i]), Mix(combined.value));
      i := i + 1;
    }
    return true;
  }

  /** The `vocab_all.mp3` check: whether its notice is printed. It only
      looks; it writes nothing. */
  method VocabCheck(audio: Directory, sections: Groups) returns (notice: bool)
    ensures notice <==> VocabPath !in audio.entries && "vocab" in sections.lists
  {
    notice := VocabPath !in audio.entries && "vocab" in sections.lists;
  }

  /** Once every section's clip is exported, the notice can never show: a
      "vocab" section has already produced `vocab_all.mp3`. */
  lemma VocabNoticeSilent(files: Entries, keys: seq<string>, lists: map<string, seq<string>>, duration: Bytes -> nat)
    requires Listed(keys, lists) && forall s :: s in lists ==> s in keys
    requires SectionsUpTo(files, keys, lists, |keys|, duration).alive
    ensures "vocab" in lists ==> VocabPath in SectionsUpTo(files, keys, lists, |keys|, duration).files
  {
    SectionsWritten(files, keys, lists, |keys|, duration);
    if "vocab" in lists {
      var i :| 0 <= i < |keys| && keys[i] == "vocab";
      assert SectionPath(keys[i]) == VocabPath;
    }
  }

  /** `all_combined` after the first `n` sections of `order`: 200 ms of
      silence, then each section's clip followed by 800 ms. */
  function GlobalMix(files: Entries, order: seq<string>, n: nat, duration: Bytes -> nat): Option<seq<Piece>>
    requires n <= |order|
  {
    if n == 0 then Some([Silence(200)])
    else match GlobalMix(files, order, n - 1, duration)
      case None => None
      case Some(c) =>
        match Decode(files, SectionPath(order[n - 1]), duration)
          case None => None
          case Some(a) => Some(c + a + [Silence(800)])
  }

  /** The total length of the first `n` section clips of `order`. */
  function SectionLengths(files: Entries, order: seq<string>, n: nat): nat
    requires n <= |order|
    requires forall i :: 0 <= i < n ==> SectionPath(order[i]) in files && files[SectionPath(order[i])].Mix?
  {
    if n == 0 then 0 else SectionLengths(files, order, n - 1) + Length(files[SectionPath(order[n - 1])].pieces)
  }

  /** Where the `i`-th section clip starts inside the global clip: after the
      opening silence and, for each earlier section, its pieces and one
      silence. */
  function SectionStart(files: Entries, order: seq<string>, i: nat): nat
    requires i <= |order|
    requires forall k :: 0 <= k < i ==> SectionPath(order[k]) in files && files[SectionPath(order[k])].Mix?
  {
    if i == 0 then 1 else SectionStart(files, order, i - 1) + |files[SectionPath(order[i - 1])].pieces| + 1
  }

  /** The pieces `ps` sit in `c` from index `at`, followed by 800 ms. */
  predicate PlacedAt(c: seq<Piece>, at: nat, ps: seq<Piece>) {
    at + |ps| < |c| && c[at..at + |ps|] == ps && c[at + |ps|] == Silence(800)
  }

  lemma PlacedAtExtend(c: seq<Piece>, at: nat, ps: seq<Piece>, tail: seq<Piece>)
    requires PlacedAt(c, at, ps)
    ensures PlacedAt(c + tail, at, ps)
  {
    assert (c + tail)[at..at + |ps|] == c[at..at + |ps|];
  }

  lemma PlacedAtEnd(c: seq<Piece>, ps: seq<Piece>)
    ensures PlacedAt(c + (ps + [Silence(800)]), |c|, ps)
  {
    var d := c + (ps + [Silence(800)]);
    assert d[|c|..|c| + |ps|] == ps;
    assert d[|c| + |ps|] == Silence(800);
  }

  /** Every one of the first `n` section clips of `order` sits in `c` at its
      start, followed by 800 ms. */
  predicate AllPlaced(c: seq<Piece>, files: Entries, order: seq<string>, n: nat)
    requires n <= |order|
    requires forall i :: 0 <= i < n ==> SectionPath(order[i]) in files && files[SectionPath(order[i])].Mix?
  {
    forall i {:trigger SectionStart(files, order, i)} :: 0 <= i < n ==>
      PlacedAt(c, SectionStart(files, order, i), files[SectionPath(order[i])].pieces)
  }

  /** Appending the next section clip and its 800 ms keeps the earlier
      clips where they were and places the new one at its start. */
  lemma PlacedSnoc(c: seq<Piece>, files: Entries, order: seq<string>, n: nat)
    requires 0 < n <= |order|
    requires forall i :: 0 <= i < n ==> SectionPath(order[i]) in files && files[SectionPath(order[i])].Mix?
    requires |c| == SectionStart(files, order, n - 1) && AllPlaced(c, files, order, n - 1)
    ensures var c' := c + files[SectionPath(order[n - 1])].pieces + [Silence(800)];
      |c'| == SectionStart(files, order, n) && AllPlaced(c', files, order, n)
  {
    var a := files[SectionPath(order[n - 1])].pieces;
    var tail := a + [Silence(800)];
    assert c + a + [Silence(800)] == c + tail;
    forall i | 0 <= i < n
      ensures PlacedAt(c + tail, SectionStart(files, order, i), files[SectionPath(order[i])].pieces)
    {
      if i < n - 1 {
        PlacedAtExtend(c, SectionStart(files, order, i), files[SectionPath(order[i])].pieces, tail);
      } else {
        assert SectionStart(files, order, i) == |c| && files[SectionPath(order[i])].pieces == a;
        PlacedAtEnd(c, a);
      }
    }
  }

  /** With every section clip in place, the global clip is 200 ms of
      silence, then each section's pieces in `order`, each followed by
      800 ms, and nothing else. */
  lemma {:induction false} GlobalPieces(files: Entries, order: seq<string>, n: nat, duration: Bytes -> nat)
    requires n <= |order|
    requires forall i :: 0 <= i < n ==> SectionPath(order[i]) in files && files[SectionPath(order[i])].Mix?
    ensures GlobalMix(files, order, n, duration).Some?
    ensures var c := GlobalMix(files, order, n, duration).value;
      |c| == SectionStart(files, order, n) && c[0] == Silence(200) && AllPlaced(c, files, order, n)
  {
    if n > 0 {
      GlobalPieces(files, order, n - 1, duration);
      var c := GlobalMix(files, order, n - 1, duration).value;
      var c' := c + files[SectionPath(order[n - 1])].pieces + [Silence(800)];
      assert Decode(files, SectionPath(order[n - 1]), duration) == Some(files[SectionPath(order[n - 1])].pieces);
      assert GlobalMix(files, order, n, duration) == Some(c');
      PlacedSnoc(c, files, order, n);
      assert c'[0] == c[0];
    }
  }

  /** With every section clip in place, the global clip lasts 200 + the
      section lengths + 800 per section. */
  lemma {:induction false} GlobalClip(files: Entries, order: seq<string>, n: nat, duration: Bytes -> nat)
    requires n <= |order|
    requires forall i :: 0 <= i < n ==> SectionPath(order[i]) in files && files[SectionPath(order[i])].Mix?
    ensures GlobalMix(files, order, n, duration).Some?
    ensures Length(GlobalMix(files, order, n, duration).value) == 200 + SectionLengths(files, order, n) + 800 * n
  {
    if n > 0 {
      GlobalClip(files, order, n - 1, duration);
      var c := GlobalMix(files, order, n - 1, duration).value;
      var a := files[SectionPath(order[n - 1])].pieces;
      LengthAppend(c, a);
      LengthAppend(c + a, [Silence(800)]);
      assert Length([Silence(800)]) == 800;
    }
  }

  /** The loop over `sorted(sections.keys())`. It changes nothing. */
  method MixGlobal(audio: Directory, order: seq<string>, duration: Bytes -> nat) returns (all: Option<seq<Piece>>)
    ensures all == GlobalMix(audio.entries, order, |order|, duration)
  {
    var c := [Silence(200)];
    var i := 0;
    while i < |order|
      invariant 0 <= i <= |order|
      invariant GlobalMix(audio.entries, order, i, duration) == Some(c)
    {
      var a := Decode(audio.entries, SectionPath(order[i]), duration);
      if a.None? {
        DeadGlobalStays(audio.entries, order, i + 1, |order|, duration);
        return None;
      }
      c := c + a.value + [Silence(800)];
      i := i + 1;
    }
    return Some(c);
  }

  lemma {:induction false} DeadGlobalStays(files: Entries, order: seq<string>, i: nat, n: nat, duration: Bytes -> nat)
    requires i <= n <= |order| && GlobalMix(files, order, i, duration).None?
    ensures GlobalMix(files, order, n, duration).None?
  {
    if n > i {
      DeadGlobalStays(files, order, i, n - 1, duration);
    }
  }

  /** Every section is listed: the grouping's keys all have lists. */
  lemma SectionsListed(lines: seq<ScriptLine>)
    ensures Listed(Keys(SectionPairs(lines)), Lists(SectionPairs(lines)))
    ensures forall s :: s in Lists(SectionPairs(lines)) ==> s in Keys(SectionPairs(lines))
  {
    KeysExactly(SectionPairs(lines));
    ListsSelect(SectionPairs(lines));
  }

  /** `build_sections_and_global`: the section clips in first-appearance
      order, then the global clip over the sections in sorted order. */
  function Build(files: Entries, lines: seq<ScriptLine>, duration: Bytes -> nat): Run {
    var ps := SectionPairs(lines);
    SectionsListed(lines);
    var r := SectionsUpTo(files, Keys(ps), Lists(ps), |Keys(ps)|, duration);
    if !r.alive then r
    else
      var order := SortedOf(Lists(ps).Keys);
      match GlobalMix(r.files, order, |order|, duration)
        case None => Run(r.files, false)
        case Some(g) => Run(r.files[GlobalPath := Mix(g)], true)
  }

  /** `build_sections_and_global`; `notice` is whether the vocabulary notice
      is printed. */
  method BuildSectionsAndGlobal(audio: Directory, lines: seq<ScriptLine>, duration: Bytes -> nat)
    returns (ok: bool, notice: bool)
    modifies audio
    ensures Run(audio.entries, ok) == Build(old(audio.entries), lines, duration)
    ensures ok ==> !notice
  {
    ghost var e0 := audio.entries;
    ghost var ps := SectionPairs(lines);
    var sections := GroupSections(lines);
    SectionsListed(lines);
    ok := MixSections(audio, sections, duration);
    notice := false;
    if !ok {
      return;
    }
    notice := VocabCheck(audio, sections);
    VocabNoticeSilent(e0, Keys(ps), Lists(ps), duration);
    var order := SortedOf(sections.lists.Keys);
    var all := MixGlobal(audio, order, duration);
    if all.None? {
      ok := false;
      return;
    }
    audio.Write(GlobalPath, Mix(all.value));
  }

  /** The global clip visits the sections in increasing order. */
  lemma GlobalOrder(lines: seq<ScriptLine>)
    ensures var order := SortedOf(Lists(SectionPairs(lines)).Keys);
      Sorted(order) && forall s :: s in order <==> exists i :: 0 <= i < |lines| && lines[i].section == s
  {
    SortedOfSorted(Lists(SectionPairs(lines)).Keys);
    SectionsContents(lines);
  }

  /** `main`: the individual files, then the joined clips; a raise in the
      first step ends the script before the second. */
  function Script(files: Entries, lines: seq<ScriptLine>, tts: Synthesizer, duration: Bytes -> nat): Run {
    var r := Individual(files, lines, |lines|, tts);
    if !r.alive then r else Build(r.files, lines, duration)
  }

  /** `main`, after the module-level `TextToSpeechClient()`: when that
      client cannot be created the script ends before writing anything. */
  method RunScript(audio: Directory, clientReady: bool, tts: Synthesizer, duration: Bytes -> nat) returns (ok: bool)
    modifies audio
    ensures !clientReady ==> !ok && audio.entries == old(audio.entries)
    ensures clientReady ==> Run(audio.entries, ok) == Script(old(audio.entries), AllLines, tts, duration)
  {
    if !clientReady {
      return false;
    }
    ok := GenerateIndividualFiles(audio, AllLines, tts);
    if !ok {
      return;
    }
    var notice;
    ok, notice := BuildSectionsAndGlobal(audio, AllLines, duration);
  }

  // ---------------------------------------------------------------------
  // The two steps together

  /** `ALL_LINES` has distinct ids, so a completed first step leaves every
      line's file holding that line's own audio. */
  lemma ScriptLineFiles(files: Entries, tts: Synthesizer)
    ensures var r := Individual(files, AllLines, |AllLines|, tts);
      r.alive ==> forall i :: 0 <= i < |AllLines| ==>
        var p := LinePath(AllLines[i].id);
        p in r.files && r.files[p].Audio? && tts(LineRequest(AllLines[i])) == Some(r.files[p].bytes)
  {
    IdsDistinct();
    IndividualWrites(files, AllLines, |AllLines|, tts);
  }

  /** No section's clip file has the name of a line's file. */
  predicate Apart(lines: seq<ScriptLine>) {
    forall i, j :: 0 <= i < |lines| && 0 <= j < |lines| ==> SectionPath(lines[i].section) != LinePath(lines[j].id)
  }

  lemma GlobalNotSection(s: string)
    ensures SectionPath(s) != GlobalPath
  {
    if |SectionPath(s)| == |GlobalPath| {
      assert SectionPath(s)[9] == '_' && GlobalPath[9] == 'g';
    }
  }

  /** A section clip depends only on its lines' files. */
  lemma {:induction false} SectionMixFrame(f1: Entries, f2: Entries, ids: seq<string>, n: nat, duration: Bytes -> nat)
    requires n <= |ids|
    requires forall i :: 0 <= i < n ==> var p := LinePath(ids[i]); p in f1 && p in f2 && f1[p] == f2[p]
    ensures SectionMix(f1, ids, n, duration) == SectionMix(f2, ids, n, duration)
  {
    if n > 0 {
      SectionMixFrame(f1, f2, ids, n - 1, duration);
    }
  }

  /** Every listed id's file holds audio, and no section's clip is named
      like one of them. */
  predicate ReadyFor(files: Entries, lists: map<string, seq<string>>) {
    && (forall s :: s in lists ==> AllAudio(files, lists[s], |lists[s]|))
    && (forall s, t, i :: s in lists && t in lists && 0 <= i < |lists[t]| ==> SectionPath(s) != LinePath(lists[t][i]))
  }

  /** The sections loop writes nothing but section clips: a file that is
      no section's clip stays as it was. */
  lemma {:induction false} SectionsKeep(files: Entries, keys: seq<string>, lists: map<string, seq<string>>, n: nat,
                                        duration: Bytes -> nat, p: string)
    requires n <= |keys| && Listed(keys, lists)
    requires p in files && forall k :: 0 <= k < n ==> p != SectionPath(keys[k])
    ensures var r := SectionsUpTo(files, keys, lists, n, duration);
      p in r.files && r.files[p] == files[p]
  {
    if n > 0 {
      SectionsKeep(files, keys, lists, n - 1, duration, p);
    }
  }

  lemma {:induction false} SectionsComplete(files: Entries, keys: seq<string>, lists: map<string, seq<string>>, n: nat,
                                            duration: Bytes -> nat)
    requires n <= |keys| && Listed(keys, lists) && Distinct(keys) && ReadyFor(files, lists)
    ensures SectionsUpTo(files, keys, lists, n, duration).alive
    ensures var r := SectionsUpTo(files, keys, lists, n, duration);
      forall k :: 0 <= k < n ==>
        var ids := lists[keys[k]];
        SectionPath(keys[k]) in r.files && SectionMix(files, ids, |ids|, duration).Some? &&
        r.files[SectionPath(keys[k])] == Mix(SectionMix(files, ids, |ids|, duration).value)
  {
    if n > 0 {
      SectionsComplete(files, keys, lists, n - 1, duration);
      var r := SectionsUpTo(files, keys, lists, n - 1, duration);
      var ids := lists[keys[n - 1]];
      assert keys[n - 1] in lists;
      forall i | 0 <= i < |ids|
        ensures var p := LinePath(ids[i]); p in r.files && p in files && r.files[p] == files[p]
      {
        var p := LinePath(ids[i]);
        forall k | 0 <= k < n - 1 ensures p != SectionPath(keys[k]) {
          assert keys[k] in lists;
        }
        SectionsKeep(files, keys, lists, n - 1, duration, p);
      }
      SectionMixFrame(r.files, files, ids, |ids|, duration);
      SectionMixSome(files, ids, |ids|, duration);
      forall k | 0 <= k < n - 1 ensures SectionPath(keys[k]) != SectionPath(keys[n - 1]) {
        if SectionPath(keys[k]) == SectionPath(keys[n - 1]) {
          SuffixInjective(keys[k], keys[n - 1], "_all.mp3");
        }
      }
    }
  }

  lemma {:induction false} IdsOfLines(lines: seq<ScriptLine>, s: string)
    ensures forall x :: x in IdsOf(lines, s) ==> exists j :: 0 <= j < |lines| && lines[j].id == x
  {
    if lines != [] {
      var init := lines[..|lines| - 1];
      IdsOfLines(init, s);
      forall x | x in IdsOf(lines, s) ensures exists j :: 0 <= j < |lines| && lines[j].id == x {
        if x in IdsOf(init, s) {
          var j :| 0 <= j < |init| && init[j].id == x;
          assert lines[j].id == x;
        }
      }
    }
  }

  /** Every id listed under a section is the id of some line. */
  lemma ListedIsLine(lines: seq<ScriptLine>, s: string, i: int)
    requires s in Lists(SectionPairs(lines)) && 0 <= i < |Lists(SectionPairs(lines))[s]|
    ensures exists j :: 0 <= j < |lines| && lines[j].id == Lists(SectionPairs(lines))[s][i]
  {
    SectionsContents(lines);
    IdsOfLines(lines, s);
    assert Lists(SectionPairs(lines))[s][i] in IdsOf(lines, s);
  }

  /** After a completed first step every listed id's file holds audio. */
  lemma AudioAfterIndividual(files: Entries, lines: seq<ScriptLine>, tts: Synthesizer)
    requires UniqueIds(lines) && Individual(files, lines, |lines|, tts).alive
    ensures var lists := Lists(SectionPairs(lines));
      forall s :: s in lists ==> AllAudio(Individual(files, lines, |lines|, tts).files, lists[s], |lists[s]|)
  {
    var lists := Lists(SectionPairs(lines));
    var f := Individual(files, lines, |lines|, tts).files;
    IndividualWrites(files, lines, |lines|, tts);
    forall s, i | s in lists && 0 <= i < |lists[s]| ensures LinePath(lists[s][i]) in f && f[LinePath(lists[s][i])].Audio? {
      ListedIsLine(lines, s, i);
      var j :| 0 <= j < |lines| && lines[j].id == lists[s][i];
    }
  }

  /** `Apart` keeps every section's clip name off the listed ids' files. */
  lemma ApartListed(lines: seq<ScriptLine>)
    requires Apart(lines)
    ensures var lists := Lists(SectionPairs(lines));
      forall s, t, i :: s in lists && t in lists && 0 <= i < |lists[t]| ==> SectionPath(s) != LinePath(lists[t][i])
  {
    var lists := Lists(SectionPairs(lines));
    SectionsContents(lines);
    forall s, t, i | s in lists && t in lists && 0 <= i < |lists[t]| ensures SectionPath(s) != LinePath(lists[t][i]) {
      ListedIsLine(lines, t, i);
      var j :| 0 <= j < |lines| && lines[j].id == lists[t][i];
      var l :| 0 <= l < |lines| && lines[l].section == s;
    }
  }

  /** After the sections loop of a ready directory, each section's file is
      the clip of its lines. */
  lemma SectionsDone(f: Entries, lines: seq<ScriptLine>, duration: Bytes -> nat)
    requires ReadyFor(f, Lists(SectionPairs(lines)))
    ensures var ps := SectionPairs(lines);
      Listed(Keys(ps), Lists(ps)) && SectionsUpTo(f, Keys(ps), Lists(ps), |Keys(ps)|, duration).alive
    ensures var ps := SectionPairs(lines); var r := SectionsUpTo(f, Keys(ps), Lists(ps), |Keys(ps)|, duration);
      forall s :: s in Lists(ps) ==>
        var ids := IdsOf(lines, s);
        SectionPath(s) in r.files && SectionMix(f, ids, |ids|, duration).Some? &&
        r.files[SectionPath(s)] == Mix(SectionMix(f, ids, |ids|, duration).value)
  {
    var ps := SectionPairs(lines);
    var keys, lists := Keys(ps), Lists(ps);
    KeysExactly(ps);
    SectionsListed(lines);
    SectionsContents(lines);
    SectionsComplete(f, keys, lists, |keys|, duration);
    forall s | s in lists ensures s in keys {
    }
  }

  /** With the sections ready, `build_sections_and_global` completes: each
      section's file is the clip of its lines, and the global clip is
      written. */
  lemma BuildComplete(f: Entries, lines: seq<ScriptLine>, duration: Bytes -> nat)
    requires ReadyFor(f, Lists(SectionPairs(lines)))
    ensures Build(f, lines, duration).alive
    ensures var out := Build(f, lines, duration).files;
      forall s :: s in Lists(SectionPairs(lines)) ==>
        var ids := IdsOf(lines, s);
        SectionPath(s) in out && SectionMix(f, ids, |ids|, duration).Some? &&
        out[SectionPath(s)] == Mix(SectionMix(f, ids, |ids|, duration).value)
    ensures GlobalPath in Build(f, lines, duration).files
  {
    var ps := SectionPairs(lines);
    var keys, lists := Keys(ps), Lists(ps);
    SectionsDone(f, lines, duration);
    var r := SectionsUpTo(f, keys, lists, |keys|, duration);
    var order := SortedOf(lists.Keys);
    forall i | 0 <= i < |order| ensures SectionPath(order[i]) in r.files && r.files[SectionPath(order[i])].Mix? {
      assert order[i] in lists;
    }
    GlobalClip(r.files, order, |order|, duration);
    var g := GlobalMix(r.files, order, |order|, duration).value;
    var out := r.files[GlobalPath := Mix(g)];
    BuildMixed(f, lines, duration, g);
    forall s | s in lists ensures SectionPath(s) in out && out[SectionPath(s)] == r.files[SectionPath(s)] {
      GlobalNotSection(s);
    }
  }

  /** When the sections loop completes and the global clip is `g`, the
      build writes `g` beside the section clips. */
  lemma BuildMixed(f: Entries, lines: seq<ScriptLine>, duration: Bytes -> nat, g: seq<Piece>)
    requires Listed(Keys(SectionPairs(lines)), Lists(SectionPairs(lines)))
    requires var ps := SectionPairs(lines);
      var r := SectionsUpTo(f, Keys(ps), Lists(ps), |Keys(ps)|, duration);
      var order := SortedOf(Lists(ps).Keys);
      r.alive && GlobalMix(r.files, order, |order|, duration) == Some(g)
    ensures var ps := SectionPairs(lines);
      Build(f, lines, duration) == Run(SectionsUpTo(f, Keys(ps), Lists(ps), |Keys(ps)|, duration).files[GlobalPath := Mix(g)], true)
  {
  }

  /** When every call succeeds, ids are distinct and no clip name clashes
      with a line file, the whole script completes: each section's file is
      the clip of its lines' audio, and the global clip is written. */
  lemma ScriptOutcome(files: Entries, lines: seq<ScriptLine>, tts: Synthesizer, duration: Bytes -> nat)
    requires UniqueIds(lines) && Apart(lines)
    requires forall i :: 0 <= i < |lines| ==> tts(LineRequest(lines[i])).Some?
    ensures Script(files, lines, tts, duration).alive
    ensures var f := Individual(files, lines, |lines|, tts).files; var out := Script(files, lines, tts, duration).files;
      forall s :: s in Lists(SectionPairs(lines)) ==>
        var ids := IdsOf(lines, s);
        SectionPath(s) in out && SectionMix(f, ids, |ids|, duration).Some? &&
        out[SectionPath(s)] == Mix(SectionMix(f, ids, |ids|, duration).value)
    ensures GlobalPath in Script(files, lines, tts, duration).files
  {
    IndividualAlive(files, lines, |lines|, tts);
    AudioAfterIndividual(files, lines, tts);
    ApartListed(lines);
    BuildComplete(Individual(files, lines, |lines|, tts).files, lines, duration);
  }

  /** In the script's own table no section clip can overwrite a line file:
      a line file name has eight characters, a section clip name at least
      nine. */
  lemma ScriptApart()
    ensures Apart(AllLines)
  {
    AllLinesShaped();
    forall i, j | 0 <= i < |AllLines| && 0 <= j < |AllLines|
      ensures SectionPath(AllLines[i].section) != LinePath(AllLines[j].id)
    {
      assert |SectionPath(AllLines[i].section)| > 8 == |LinePath(AllLines[j].id)|;
    }
  }

  /** `main` on the script's own table: when the client is ready and every
      line's call succeeds, the script completes, each section's file holds
      the clip of its lines' audio, and `all_dialogues.mp3` is written. */
  lemma AllLinesOutcome(files: Entries, tts: Synthesizer, duration: Bytes -> nat)
    requires forall i :: 0 <= i < |AllLines| ==> tts(LineRequest(AllLines[i])).Some?
    ensures Script(files, AllLines, tts, duration).alive
    ensures var f := Individual(files, AllLines, |AllLines|, tts).files;
      var out := Script(files, AllLines, tts, duration).files;
      forall s :: s in Lists(SectionPairs(AllLines)) ==>
        var ids := IdsOf(AllLines, s);
        SectionPath(s) in out && SectionMix(f, ids, |ids|, duration).Some? &&
        out[SectionPath(s)] == Mix(SectionMix(f, ids, |ids|, duration).value)
    ensures GlobalPath in Script(files, AllLines, tts, duration).files
  {
    IdsDistinct();
    ScriptApart();
    ScriptOutcome(files, AllLines, tts, duration);
  }
}
