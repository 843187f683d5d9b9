/** The outside world the pipelines touch: files in a directory, held as a
    map from relative path to what the file contains, and the text-to-speech
    service, an oracle that answers a request with audio bytes or fails. */
module Storage {

  datatype Option<+T> = None | Some(value: T)

  newtype byte = x: int | 0 <= x < 256

  type Bytes = seq<byte>

  /** One field of a CSV row or spreadsheet row; the writers keep integers
      and text apart. */
  datatype Cell = Num(n: int) | Txt(s: string)

  type Row = seq<Cell>

  /** A stretch of a pydub audio segment: silence, or the decoded audio of
      one file, each with its length in milliseconds. */
  datatype Piece = Silence(ms: nat) | Clip(source: string, ms: nat)

  /** What a file holds. Encodings (CSV quoting, xlsx, mp3) are not modelled;
      the file keeps the value its writer was given. */
  datatype Artifact =
    | Page(text: string)                      // write_text
    | Csv(rows: seq<Row>)                     // csv.writer rows
    | Workbook(sheet: string, rows: seq<Row>) // one openpyxl sheet
    | Audio(bytes: Bytes)                     // bytes returned by the speech service
    | Mix(pieces: seq<Piece>)                 // an exported pydub segment
    | Partial                                 // opened for writing, then the writer raised:
                                              // empty, or a prefix of the answer

  /** A directory's files: relative path to contents. */
  type Entries = map<string, Artifact>

  /** The files written so far, and whether the script is still running:
      an exception nobody catches ends the whole run. */
  datatype Run = Run(files: Entries, alive: bool)

  /** A directory tree: relative path to file contents. Paths of files
      directly inside it contain no '/'. */
  class Directory {
    var entries: map<string, Artifact>

    constructor (initial: map<string, Artifact>)
      ensures entries == initial
    {
      entries := initial;
    }

    /** A full overwrite of one file. */
    method Write(path: string, a: Artifact)
      modifies this
      ensures entries == old(entries)[path := a]
    {
      entries := entries[path := a];
    }
  }

  /** The names of the files directly inside a directory. */
  function TopLevel(entries: map<string, Artifact>): (names: set<string>)
    ensures forall n :: n in names <==> n in entries && '/' !in n
  {
    set n | n in entries && '/' !in n
  }

  /** One call to the speech service: the text, the language code and the
      named voice, if any. */
  datatype Request = Request(text: string, language: string, voice: Option<string>)

  /** `if voice_name:` chooses a named voice; None and "" leave the choice
      to the service. */
  function VoiceParam(voiceName: Option<string>): (v: Option<string>)
    ensures v.Some? <==> voiceName.Some? && voiceName.value != []
    ensures v.Some? ==> v == voiceName
  {
    if voiceName.Some? && voiceName.value != [] then voiceName else None
  }

  /** The speech service: audio for a request, or None when the call (or the
      write of its answer) raises. */
  type Synthesizer = Request -> Option<Bytes>
}
