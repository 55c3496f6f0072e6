/** The GPU script (1_GPU_OpenAI-Whisper/Whisper_GPU.py): one pass over the
    entries of the lectures directory that transcribes every `.mp3` entry,
    writes its text next to the others in the texts directory and catches
    each entry's failure so that the pass goes on. */
module WhisperGpu {
  import opened Exceptions
  import opened PyText

  /** The module-level settings and the two calls the loop body makes. */
  datatype Batch = Batch(
    lecturesDir: string,                  // LECTURES_DIR
    textsDir: string,                     // TEXTS_DIR
    transcribe: string -> Result<string>, // model.transcribe(audio_path, language='ru')['text']
    open: string -> Status)               // open(text_path, "w", encoding="utf-8")

  /** The lines the loop prints, one constructor per `print`. */
  datatype Event =
    | Transcribing(audioPath: string)
    | Saved(textPath: string)
    | ErrorReported(audioPath: string, message: string)

  /** `filename.lower().endswith('.mp3')`. */
  predicate IsSelected(filename: string) {
    EndsWith(Lower(filename), ".mp3")
  }

  /** `os.path.splitext(filename)[0] + ".txt"`. */
  function OutputName(filename: string): string {
    SplitExt(filename).0 + ".txt"
  }

  function AudioPath(b: Batch, filename: string): string {
    JoinPath(b.lecturesDir, filename)
  }

  function TextPath(b: Batch, filename: string): string {
    JoinPath(b.textsDir, OutputName(filename))
  }

  /** The `try` block of one selected entry: the text it writes, or the
      exception it raises. Transcription comes before the file is opened. */
  function Attempt(b: Batch, filename: string): Result<string> {
    var result := b.transcribe(AudioPath(b, filename));
    if result.Raised? then result
    else match b.open(TextPath(b, filename))
      case Failed(e) => Raised(e)
      case Done => result
  }

  /** What the loop prints for one entry: nothing for a skipped entry, and
      for a selected one the "transcribing" line followed by exactly one of
      "saved" (the write happened) or the error naming the audio path. */
  function EntryEvents(b: Batch, filename: string): (events: seq<Event>)
    ensures !IsSelected(filename) ==> events == []
    ensures IsSelected(filename) ==> |events| == 2 && events[0] == Transcribing(AudioPath(b, filename))
    ensures IsSelected(filename) ==> (events[1].Saved? <==> Attempt(b, filename).Ok?)
    ensures IsSelected(filename) && Attempt(b, filename).Ok? ==> events[1] == Saved(TextPath(b, filename))
    ensures IsSelected(filename) && Attempt(b, filename).Raised? ==>
              events[1] == ErrorReported(AudioPath(b, filename), Attempt(b, filename).error.message)
  {
    if !IsSelected(filename) then []
    else
      var attempt := Attempt(b, filename);
      [Transcribing(AudioPath(b, filename))]
        + if attempt.Ok? then [Saved(TextPath(b, filename))]
          else [ErrorReported(AudioPath(b, filename), attempt.error.message)]
  }

  /** The entry's output file is `path` and its attempt succeeded. */
  predicate Writes(b: Batch, filename: string, path: string) {
    IsSelected(filename) && Attempt(b, filename).Ok? && TextPath(b, filename) == path
  }

  /** The files after one entry: mode "w" replaces whatever was at the path. */
  function StepFiles(b: Batch, files: map<string, string>, filename: string): map<string, string> {
    if IsSelected(filename) && Attempt(b, filename).Ok? then
      files[TextPath(b, filename) := Attempt(b, filename).value]
    else
      files
  }

  /** The files after the entries of `listing`, taken in order. */
  function RunFiles(b: Batch, listing: seq<string>, initial: map<string, string>): map<string, string> {
    if listing == [] then initial
    else StepFiles(b, RunFiles(b, listing[..|listing| - 1], initial), listing[|listing| - 1])
  }

  /** Everything printed for the entries of `listing`, in order. */
  function RunLog(b: Batch, listing: seq<string>): seq<Event> {
    if listing == [] then []
    else RunLog(b, listing[..|listing| - 1]) + EntryEvents(b, listing[|listing| - 1])
  }

  /** The loop at module level, over the entries `os.listdir` returned in
      the order it returned them; `initial` is the texts directory before. */
  method RunBatch(b: Batch, listing: seq<string>, initial: map<string, string>)
    returns (files: map<string, string>, log: seq<Event>)
    ensures files == RunFiles(b, listing, initial)
    ensures log == RunLog(b, listing)
  {
    files, log := initial, [];
    for i := 0 to |listing|
      invariant files == RunFiles(b, listing[..i], initial)
      invariant log == RunLog(b, listing[..i])
    {
      assert listing[..i + 1][..i] == listing[..i];
      var filename := listing[i];
      ghost var files0, log0 := files, log;
      if IsSelected(filename) {
        var audioPath := JoinPath(b.lecturesDir, filename);
        var textPath := JoinPath(b.textsDir, SplitExt(filename).0 + ".txt");
        log := log + [Transcribing(audioPath)];
        var result := b.transcribe(audioPath);
        if result.Raised? {
          log := log + [ErrorReported(audioPath, result.error.message)];
        } else {
          var openStatus := b.open(textPath);
          if openStatus.Failed? {
            log := log + [ErrorReported(audioPath, openStatus.error.message)];
          } else {
            files := files[textPath := result.value];
            log := log + [Saved(textPath)];
          }
        }
      }
      assert files == StepFiles(b, files0, filename);
      assert log == log0 + EntryEvents(b, filename);
    }
    assert listing[..|listing|] == listing;
  }

  /** The index of the last entry that writes `path`, or -1. */
  function LastWriter(b: Batch, listing: seq<string>, path: string): (w: int)
    ensures -1 <= w < |listing|
    ensures w >= 0 ==> Writes(b, listing[w], path)
    ensures forall k :: w < k < |listing| ==> !Writes(b, listing[k], path)
  {
    if listing == [] then -1
    else
      var n := |listing| - 1;
      if Writes(b, listing[n], path) then n
      else
        var front := listing[..n];
        assert forall k :: 0 <= k < n ==> front[k] == listing[k];
        LastWriter(b, front, path)
  }

  /** After the pass, a path holds the text of the last entry that wrote it;
      a path no entry wrote (a failed or skipped entry writes nothing) is
      exactly as it was before. */
  lemma {:induction false} FinalContents(b: Batch, listing: seq<string>, initial: map<string, string>, path: string)
    ensures var files := RunFiles(b, listing, initial);
            var w := LastWriter(b, listing, path);
            && (w >= 0 ==> path in files && files[path] == Attempt(b, listing[w]).value)
            && (w < 0 ==> (path in files <==> path in initial))
            && (w < 0 && path in initial ==> files[path] == initial[path])
  {
    if listing != [] {
      var n := |listing| - 1;
      var front, last := listing[..n], listing[n];
      FinalContents(b, front, initial, path);
      var before := RunFiles(b, front, initial);
      var after := StepFiles(b, before, last);
      assert RunFiles(b, listing, initial) == after;
      if Writes(b, last, path) {
        assert LastWriter(b, listing, path) == n;
        assert after == before[path := Attempt(b, last).value];
      } else {
        var w := LastWriter(b, front, path);
        assert LastWriter(b, listing, path) == w;
        assert w >= 0 ==> front[w] == listing[w];
        assert after == before || (TextPath(b, last) != path && after == before[TextPath(b, last) := Attempt(b, last).value]);
      }
    }
  }

  lemma {:induction false} RunLogAppend(b: Batch, xs: seq<string>, ys: seq<string>)
    ensures RunLog(b, xs + ys) == RunLog(b, xs) + RunLog(b, ys)
    decreases |ys|
  {
    if ys == [] {
      assert xs + ys == xs;
    } else {
      var ys' := ys[..|ys| - 1];
      assert (xs + ys)[..|xs + ys| - 1] == xs + ys';
      RunLogAppend(b, xs, ys');
    }
  }

  /** Every entry is handled exactly once, in listing order: the log is the
      log of the entries before it, then its own lines, then the log of the
      entries after it. */
  lemma EntryLoggedInPlace(b: Batch, listing: seq<string>, i: nat)
    requires i < |listing|
    ensures RunLog(b, listing) == RunLog(b, listing[..i]) + EntryEvents(b, listing[i]) + RunLog(b, listing[i + 1..])
  {
    assert listing == listing[..i] + [listing[i]] + listing[i + 1..];
    RunLogAppend(b, listing[..i] + [listing[i]], listing[i + 1..]);
    RunLogAppend(b, listing[..i], [listing[i]]);
    assert RunLog(b, [listing[i]]) == EntryEvents(b, listing[i]) by {
      assert [listing[i]][..0] == [];
    }
  }

  /** ".mp3" in any mix of upper and lower case. */
  predicate IsMp3Spelling(ext: string) {
    && |ext| == 4
    && ext[0] == '.'
    && (ext[1] == 'm' || ext[1] == 'M')
    && (ext[2] == 'p' || ext[2] == 'P')
    && ext[3] == '3'
  }

  /** The filter looks only at the last four characters. */
  lemma SelectionBySuffix(filename: string)
    ensures IsSelected(filename) <==> |filename| >= 4 && IsMp3Spelling(filename[|filename| - 4..])
  {
    var n := |filename|;
    if n >= 4 {
      var low := Lower(filename);
      var ext := filename[n - 4..];
      LowerAt(filename, n - 4);
      LowerAt(filename, n - 3);
      LowerAt(filename, n - 2);
      LowerAt(filename, n - 1);
      assert low[n - 4..] == [LowerChar(ext[0]), LowerChar(ext[1]), LowerChar(ext[2]), LowerChar(ext[3])];
      assert ".mp3" == ['.', 'm', 'p', '3'];
    }
  }

  /** For a selected name (a directory entry holds no '/') the output name
      drops the last four characters, except when everything before the
      final dot is dots: `splitext` then finds no extension and ".txt" is
      appended to the whole name. */
  lemma SelectedOutputName(filename: string)
    requires IsSelected(filename) && '/' !in filename
    ensures |filename| >= 4
    ensures var stem := filename[..|filename| - 4];
            OutputName(filename) == (if AllDots(stem) then filename else stem) + ".txt"
  {
    SelectionBySuffix(filename);
    var n := |filename|;
    var sepIndex := RFind(filename, '/');
    var dotIndex := RFind(filename, '.');
    RFindLast(filename, '/');
    RFindLast(filename, '.');
    assert sepIndex == -1;
    assert dotIndex == n - 4;
  }

  /** The same for a name given as stem and extension: `lecture1.MP3` gives
      `lecture1.txt`, `a.b.mp3` gives `a.b.txt`, and `.mp3` (an all-dots
      stem) gives `.mp3.txt`. */
  lemma SelectedByParts(filename: string, stem: string, ext: string)
    requires filename == stem + ext && '/' !in stem && IsMp3Spelling(ext)
    ensures IsSelected(filename)
    ensures !AllDots(stem) ==> OutputName(filename) == stem + ".txt"
    ensures AllDots(stem) ==> OutputName(filename) == filename + ".txt"
  {
    SelectionBySuffix(filename);
    assert filename[|filename| - 4..] == ext;
    assert '/' !in filename by {
      forall k | 0 <= k < |filename| ensures filename[k] != '/' {
        if k < |stem| { assert filename[k] == stem[k]; } else { assert filename[k] == ext[k - |stem|]; }
      }
    }
    SelectedOutputName(filename);
    assert filename[..|filename| - 4] == stem;
  }

  /** The naming is not injective: names that differ only in the case of
      ".mp3" (`a.mp3`, `a.MP3`) share one output file, and when both succeed
      it holds the text of the one listed later. */
  lemma CaseCollision(b: Batch, stem: string, ext1: string, ext2: string, initial: map<string, string>)
    requires '/' !in stem && !AllDots(stem) && IsMp3Spelling(ext1) && IsMp3Spelling(ext2)
    requires Attempt(b, stem + ext1).Ok? && Attempt(b, stem + ext2).Ok?
    ensures TextPath(b, stem + ext1) == TextPath(b, stem + ext2)
    ensures var files := RunFiles(b, [stem + ext1, stem + ext2], initial);
            TextPath(b, stem + ext1) in files && files[TextPath(b, stem + ext1)] == Attempt(b, stem + ext2).value
  {
    SelectedByParts(stem + ext1, stem, ext1);
    SelectedByParts(stem + ext2, stem, ext2);
    FinalContents(b, [stem + ext1, stem + ext2], initial, TextPath(b, stem + ext1));
  }

  /** A batch of a good file and one whose transcription raises: the good
      one's text is written and the failing one leaves no output file. */
  lemma GoodAndBadFileOutputs(b: Batch, good: string, bad: string, initial: map<string, string>)
    requires IsSelected(good) && Attempt(b, good).Ok?
    requires b.transcribe(AudioPath(b, bad)).Raised?
    requires TextPath(b, bad) !in initial && TextPath(b, good) != TextPath(b, bad)
    ensures var files := RunFiles(b, [good, bad], initial);
            && TextPath(b, good) in files
            && files[TextPath(b, good)] == Attempt(b, good).value
            && TextPath(b, bad) !in files
  {
    var listing := [good, bad];
    var pg, pb := TextPath(b, good), TextPath(b, bad);
    assert listing[..1] == [good];
    assert Attempt(b, bad).Raised?;
    assert Writes(b, good, pg) && !Writes(b, good, pb);
    assert !Writes(b, bad, pg) && !Writes(b, bad, pb);
    assert LastWriter(b, listing, pg) == 0;
    assert LastWriter(b, listing, pb) == -1;
    FinalContents(b, listing, initial, pg);
    FinalContents(b, listing, initial, pb);
  }

  /** ... and the log shows both attempts, in order, the second ending in the
      error that names its audio path; the pass goes on past it. */
  lemma GoodAndBadFileLog(b: Batch, good: string, bad: string)
    requires IsSelected(good) && IsSelected(bad) && Attempt(b, good).Ok?
    requires b.transcribe(AudioPath(b, bad)).Raised?
    ensures RunLog(b, [good, bad]) ==
              [ Transcribing(AudioPath(b, good)), Saved(TextPath(b, good)),
                Transcribing(AudioPath(b, bad)),
                ErrorReported(AudioPath(b, bad), b.transcribe(AudioPath(b, bad)).error.message) ]
  {
    var listing := [good, bad];
    var e := b.transcribe(AudioPath(b, bad)).error;
    assert Attempt(b, bad) == Raised(e);
    var first := [Transcribing(AudioPath(b, good)), Saved(TextPath(b, good))];
    var second := [Transcribing(AudioPath(b, bad)), ErrorReported(AudioPath(b, bad), e.message)];
    assert EntryEvents(b, good) == first;
    assert EntryEvents(b, bad) == second;
    assert [good][..0] == [];
    assert RunLog(b, [good]) == first;
    assert listing[..1] == [good];
    assert RunLog(b, listing) == RunLog(b, [good]) + EntryEvents(b, bad);
  }
}
