/** build_lessons.py, part 3: `generate_lesson_tts`, which asks the speech
    service for one mp3 per sentence under `audio/<id>/`, skipping the files
    that already exist and the sentences whose call fails. */
module LessonAudio {
  import opened Storage
  import opened Text
  import opened Lessons
  import opened LessonRender

  /** The request for one sentence: its French text, in "fr-FR". */
  function SentenceRequest(s: Sentence, voiceName: Option<string>): Request {
    Request(s.fr, "fr-FR", VoiceParam(voiceName))
  }

  /** One turn of the loop, for sentence `n` (1-based): nothing when its
      file exists, otherwise the service's audio, or nothing when it fails. */
  function TtsStep(e: Entries, id: string, ss: seq<Sentence>, n: nat, voiceName: Option<string>,
                   tts: Synthesizer): Entries
    requires 1 <= n <= |ss|
  {
    var path := AudioRel(id, n);
    if path in e then e
    else match tts(SentenceRequest(ss[n - 1], voiceName))
      case None => e
      case Some(b) => e[path := Audio(b)]
  }

  /** The directory after the first `n` turns. */
  function TtsUpTo(e0: Entries, id: string, ss: seq<Sentence>, n: nat, voiceName: Option<string>,
                   tts: Synthesizer): Entries
    requires n <= |ss|
  {
    if n == 0 then e0 else TtsStep(TtsUpTo(e0, id, ss, n - 1, voiceName, tts), id, ss, n, voiceName, tts)
  }

  /** The requests of the first `n` sentences whose file was missing at the
      start, in order. */
  function Calls(e0: Entries, id: string, ss: seq<Sentence>, n: nat, voiceName: Option<string>): seq<Request>
    requires n <= |ss|
  {
    if n == 0 then []
    else
      var call := if AudioRel(id, n) in e0 then [] else [SentenceRequest(ss[n - 1], voiceName)];
      Calls(e0, id, ss, n - 1, voiceName) + call
  }

  /** Files that existed are kept as they were, and the turns write nothing
      but audio files of this lesson's first `n` sentences. */
  lemma {:induction false} TtsKeepsOthers(e0: Entries, id: string, ss: seq<Sentence>, n: nat,
                                          voiceName: Option<string>, tts: Synthesizer)
    requires n <= |ss|
    ensures var r := TtsUpTo(e0, id, ss, n, voiceName, tts);
      forall k :: k in e0 ==> k in r && r[k] == e0[k]
    ensures var r := TtsUpTo(e0, id, ss, n, voiceName, tts);
      forall k :: k in r && k !in e0 ==> exists j :: 1 <= j <= n && k == AudioRel(id, j)
  {
    if n > 0 {
      TtsKeepsOthers(e0, id, ss, n - 1, voiceName, tts);
      var prev, r := TtsUpTo(e0, id, ss, n - 1, voiceName, tts), TtsUpTo(e0, id, ss, n, voiceName, tts);
      forall k | k in r && k !in e0 ensures exists j :: 1 <= j <= n && k == AudioRel(id, j) {
        if k !in prev {
          assert k == AudioRel(id, n);
        }
      }
    }
  }

  /** A later turn never touches the file of an earlier sentence. */
  lemma {:induction false} TtsLaterTurns(e0: Entries, id: string, ss: seq<Sentence>, n: nat, j: nat,
                                         voiceName: Option<string>, tts: Synthesizer)
    requires n <= |ss| && j <= n
    ensures forall m :: m > j && m >= 1 ==>
      var p := AudioRel(id, m);
      (p in TtsUpTo(e0, id, ss, j, voiceName, tts) <==> p in e0)
    ensures var p := AudioRel(id, j);
      (p in TtsUpTo(e0, id, ss, n, voiceName, tts) <==> p in TtsUpTo(e0, id, ss, j, voiceName, tts)) &&
      (p in TtsUpTo(e0, id, ss, j, voiceName, tts) ==>
         TtsUpTo(e0, id, ss, n, voiceName, tts)[p] == TtsUpTo(e0, id, ss, j, voiceName, tts)[p])
  {
    if n > j {
      TtsLaterTurns(e0, id, ss, n - 1, j, voiceName, tts);
      if AudioRel(id, n) == AudioRel(id, j) {
        AudioRelInjective(id, n, j);
      }
    }
    if j > 0 {
      TtsLaterTurns(e0, id, ss, j - 1, j - 1, voiceName, tts);
      forall m | m > j && m >= 1 ensures AudioRel(id, m) in TtsUpTo(e0, id, ss, j, voiceName, tts) <==> AudioRel(id, m) in e0 {
        if AudioRel(id, m) == AudioRel(id, j) {
          AudioRelInjective(id, m, j);
        }
      }
    }
  }

  /** Sentence m's file is untouched by the turns before it. */
  lemma TtsNotYet(e0: Entries, id: string, ss: seq<Sentence>, j: nat, m: nat,
                  voiceName: Option<string>, tts: Synthesizer)
    requires j <= |ss| && j < m
    ensures AudioRel(id, m) in TtsUpTo(e0, id, ss, j, voiceName, tts) <==> AudioRel(id, m) in e0
  {
    TtsLaterTurns(e0, id, ss, j, j, voiceName, tts);
  }

  /** After the loop, sentence j's file holds what it held before when it
      existed, the service's audio when its call succeeded, and is absent
      when the call failed. */
  lemma TtsOutcome(e0: Entries, id: string, ss: seq<Sentence>, j: nat,
                   voiceName: Option<string>, tts: Synthesizer)
    requires 1 <= j <= |ss|
    ensures var r, p := TtsUpTo(e0, id, ss, |ss|, voiceName, tts), AudioRel(id, j);
      && (p in e0 ==> p in r && r[p] == e0[p])
      && (p !in e0 && tts(SentenceRequest(ss[j - 1], voiceName)).Some? ==>
            p in r && r[p] == Audio(tts(SentenceRequest(ss[j - 1], voiceName)).value))
      && (p !in e0 && tts(SentenceRequest(ss[j - 1], voiceName)).None? ==> p !in r)
  {
    TtsKeepsOthers(e0, id, ss, |ss|, voiceName, tts);
    TtsLaterTurns(e0, id, ss, |ss|, j, voiceName, tts);
    TtsLaterTurns(e0, id, ss, j - 1, j - 1, voiceName, tts);
  }

  /** `generate_lesson_tts`. Without the client library, or when the client
      cannot be created, it returns before touching anything. An id that is
      not a string makes `AUDIO_ROOT / lesson_id` raise (`raised`), also
      before any write. Otherwise it visits the sentences in order;
      `requests` are the calls it makes. */
  method GenerateLessonTts(out: Directory, lesson: Record, libraryInstalled: bool, clientCreated: bool,
                           voiceName: Option<string>, tts: Synthesizer) returns (requests: seq<Request>, raised: bool)
    requires IsLesson(lesson)
    modifies out
    ensures raised <==> libraryInstalled && clientCreated && !lesson["id"].Str?
    ensures !(libraryInstalled && clientCreated && lesson["id"].Str?) ==>
      out.entries == old(out.entries) && requests == []
    ensures libraryInstalled && clientCreated && lesson["id"].Str? ==>
      var id, ss := lesson["id"].s, Sentences(lesson);
      out.entries == TtsUpTo(old(out.entries), id, ss, |ss|, voiceName, tts) &&
      requests == Calls(old(out.entries), id, ss, |ss|, voiceName)
  {
    requests, raised := [], false;
    if !libraryInstalled || !clientCreated {
      return;
    }
    if !lesson["id"].Str? {
      raised := true;
      return;
    }
    var lessonId := lesson["id"].s;
    var sentences := Sentences(lesson);
    ghost var e0 := out.entries;
    var idx := 1;
    while idx <= |sentences|
      invariant 1 <= idx <= |sentences| + 1
      invariant out.entries == TtsUpTo(e0, lessonId, sentences, idx - 1, voiceName, tts)
      invariant requests == Calls(e0, lessonId, sentences, idx - 1, voiceName)
    {
      var filename := AudioRel(lessonId, idx);
      TtsNotYet(e0, lessonId, sentences, idx - 1, idx, voiceName, tts);
      assert TtsUpTo(e0, lessonId, sentences, idx, voiceName, tts)
        == TtsStep(out.entries, lessonId, sentences, idx, voiceName, tts);
      assert Calls(e0, lessonId, sentences, idx, voiceName)
        == requests + (if filename in e0 then [] else [SentenceRequest(sentences[idx - 1], voiceName)]);
      if filename in out.entries {
        idx := idx + 1;
        continue;
      }
      var request := SentenceRequest(sentences[idx - 1], voiceName);
      requests := requests + [request];
      var response := tts(request);
      if response.Some? {
        out.Write(filename, Audio(response.value));
      }
      idx := idx + 1;
    }
  }

  /** The audio file a lesson page plays for sentence i is the file this
      step writes for it: after the step it exists exactly when it existed
      before or the service answered. */
  lemma PageAudioExists(e0: Entries, lesson: Record, i: int, voiceName: Option<string>, tts: Synthesizer)
    requires IsLesson(lesson) && lesson["id"].Str? && 0 <= i < |Sentences(lesson)|
    ensures Blocks(lesson)[i] == PhraseBlock(lesson["id"].s, i + 1, Sentences(lesson)[i])
    ensures var id, ss := lesson["id"].s, Sentences(lesson);
      AudioRel(id, i + 1) in TtsUpTo(e0, id, ss, |ss|, voiceName, tts) <==>
      AudioRel(id, i + 1) in e0 || tts(SentenceRequest(ss[i], voiceName)).Some?
  {
    TtsOutcome(e0, lesson["id"].s, Sentences(lesson), i + 1, voiceName, tts);
  }
}
