/** The CPU script (2_CPU_WhisperCPP/WhisperCPP.py): `load_audio`, which
    checks its preconditions in order, runs ffmpeg and decodes its output,
    and `transcribe_audio`, which drives model load, decoding, transcription,
    segment assembly and the result write under one top-level handler. */
module WhisperCpp {
  import opened Exceptions
  import opened PyText
  import opened Pcm
  import opened SegmentText

  /** Every exception leaving `load_audio` carries this prefix. */
  const LoadErrorPrefix: string := "Ошибка при загрузке аудио: "
  /** What `transcribe_audio` writes to stderr in front of an error. */
  const ReportPrefix: string := "Ошибка: "
  const FfmpegErrorPrefix: string := "Ошибка FFmpeg: "
  const UnknownError: string := "Неизвестная ошибка"
  const DefaultSampleRate: int := 16000
  const ResultFile: string := "transcription.txt"

  function FileNotFoundMessage(path: string): string {
    "Аудиофайл не найден: " + path
  }

  function FfmpegNotFoundMessage(ffmpegPath: string): string {
    "FFmpeg не найден по пути: " + ffmpegPath + ". "
    + "Убедитесь, что FFmpeg установлен и добавлен в PATH, или укажите правильный путь к ffmpeg.exe."
  }

  /** How `subprocess.run([ffmpeg_path, "-version"], check=True)` and the
      version print after it end: normally, by FileNotFoundError (no such
      executable), or by any other exception. */
  datatype Probe = ProbeOk | ProbeNotFound | ProbeFailed(error: Exception)

  /** How `ffmpeg.run(...)` ends: with the captured stdout and stderr, or by
      an exception (ffmpeg.Error on a non-zero exit status, an OSError, ...). */
  datatype Conversion =
    | Converted(out: seq<byte>, err: seq<byte>)
    | ConversionFailed(error: Exception)

  /** The facilities `load_audio` calls and this model does not look inside. */
  datatype AudioHost = AudioHost(
    resolve: string -> Result<string>,              // Path(p).resolve(), which may raise OSError
    isFile: string -> Result<bool>,                 // Path.is_file(), which may raise PermissionError
    probe: string -> Probe,                         // the version query, by ffmpeg path
    convert: (string, string, int) -> Conversion,   // ffmpeg path, input path, sample rate
    utf8: seq<byte> -> Result<string>)              // bytes.decode('utf-8')

  /** The facilities `transcribe_audio` adds. */
  datatype ModelHost = ModelHost(
    audio: AudioHost,
    loadModel: string -> Status,                    // Model(model_name, ...)
    transcribe: seq<real> -> Result<seq<Segment>>,  // model.transcribe(audio_data)
    openResult: string -> Status)                   // open(path, "w")

  /** The external steps, in the only order the scripts take them. */
  datatype Stage = LoadModel | CheckFile | ProbeFfmpeg | RunFfmpeg | Transcribe | WriteResult

  const Pipeline: seq<Stage> := [LoadModel, CheckFile, ProbeFfmpeg, RunFfmpeg, Transcribe, WriteResult]

  /** The path resolves and names a regular file: the check of lines 26-27
      passes without raising. */
  predicate FileFound(h: AudioHost, filePath: string) {
    h.resolve(filePath).Ok? && h.isFile(h.resolve(filePath).value) == Ok(true)
  }

  /** `load_audio` returns samples: the file exists, the probe succeeds and
      ffmpeg writes a non-empty, even number of bytes. */
  predicate AudioLoads(h: AudioHost, filePath: string, sampleRate: int, ffmpegPath: string) {
    && FileFound(h, filePath)
    && h.probe(ffmpegPath) == ProbeOk
    && var c := h.convert(ffmpegPath, h.resolve(filePath).value, sampleRate);
       c.Converted? && c.out != [] && |c.out| % 2 == 0
  }

  /** The samples `load_audio` then returns: one per byte pair, each the
      int16 of that pair divided by 32768, so inside [-1, 1). */
  function LoadedSamples(h: AudioHost, filePath: string, sampleRate: int, ffmpegPath: string): (samples: seq<real>)
    requires AudioLoads(h, filePath, sampleRate, ffmpegPath)
    ensures var out := h.convert(ffmpegPath, h.resolve(filePath).value, sampleRate).out;
            && 2 * |samples| == |out|
            && forall i :: 0 <= i < |samples| ==>
                 && samples[i] * 32768.0 == Int16(out[2 * i], out[2 * i + 1]) as real
                 && -1.0 <= samples[i] < 1.0
  {
    var out := h.convert(ffmpegPath, h.resolve(filePath).value, sampleRate).out;
    NormalizeAll(DecodeS16LE(out))
  }

  /** `raise RuntimeError(f"Ошибка при загрузке аудио: {str(e)}")`. */
  function Wrap(e: Exception): (w: Exception)
    ensures w.kind == RuntimeError && StartsWith(w.message, LoadErrorPrefix)
    ensures w.message[|LoadErrorPrefix|..] == e.message
  {
    Exception(RuntimeError, LoadErrorPrefix + e.message)
  }

  /** The last part of the `try` block of `load_audio`: run ffmpeg on the
      resolved path, reject empty output, and decode and scale the samples.
      What it raises is not yet wrapped. */
  method RunConversion(h: AudioHost, path: string, sampleRate: int, ffmpegPath: string)
    returns (inner: Result<seq<real>>)
    ensures var c := h.convert(ffmpegPath, path, sampleRate);
            inner.Ok? <==> c.Converted? && c.out != [] && |c.out| % 2 == 0
    ensures var c := h.convert(ffmpegPath, path, sampleRate);
            inner.Ok? ==> inner.value == NormalizeAll(DecodeS16LE(c.out))
    ensures var c := h.convert(ffmpegPath, path, sampleRate);
            && (c.ConversionFailed? ==> inner == Raised(c.error))
            && (c.Converted? && c.out == [] && c.err == [] ==>
                  inner == Raised(Exception(RuntimeError, FfmpegErrorPrefix + UnknownError)))
            && (c.Converted? && c.out == [] && c.err != [] && h.utf8(c.err).Ok? ==>
                  inner == Raised(Exception(RuntimeError, FfmpegErrorPrefix + h.utf8(c.err).value)))
            && (c.Converted? && c.out == [] && c.err != [] && h.utf8(c.err).Raised? ==>
                  inner == Raised(h.utf8(c.err).error))
            && (c.Converted? && |c.out| % 2 == 1 ==> inner == Raised(FrombufferError))
  {
    var conversion := h.convert(ffmpegPath, path, sampleRate);
    if conversion.ConversionFailed? {
      inner := Raised(conversion.error);
    } else if conversion.out == [] {
      if conversion.err == [] {
        inner := Raised(Exception(RuntimeError, FfmpegErrorPrefix + UnknownError));
      } else {
        var decoded := h.utf8(conversion.err);
        if decoded.Raised? {
          inner := Raised(decoded.error);
        } else {
          inner := Raised(Exception(RuntimeError, FfmpegErrorPrefix + decoded.value));
        }
      }
    } else {
      var samples := FromBufferInt16(conversion.out);
      if samples.Raised? {
        inner := Raised(samples.error);
      } else {
        inner := Ok(NormalizeAll(samples.value));
      }
    }
  }

  /** Lines 26-28 of `load_audio`: resolve the path and require a regular
      file there. Either call may raise; a path that is not a file raises
      FileNotFoundError naming the resolved path. */
  method FindAudioFile(h: AudioHost, filePath: string) returns (found: Result<string>)
    ensures found.Ok? <==> FileFound(h, filePath)
    ensures found.Ok? ==> found == h.resolve(filePath)
    ensures h.resolve(filePath).Raised? ==> found == h.resolve(filePath)
    ensures var path := h.resolve(filePath);
            path.Ok? && h.isFile(path.value).Raised? ==> found == Raised(h.isFile(path.value).error)
    ensures var path := h.resolve(filePath);
            path.Ok? && h.isFile(path.value) == Ok(false) ==>
              found == Raised(Exception(FileNotFoundError, FileNotFoundMessage(path.value)))
  {
    found := h.resolve(filePath);
    if found.Ok? {
      var isFile := h.isFile(found.value);
      if isFile.Raised? {
        found := Raised(isFile.error);
      } else if !isFile.value {
        found := Raised(Exception(FileNotFoundError, FileNotFoundMessage(found.value)));
      }
    }
  }

  /** The exception the `try` block of `load_audio` raises when it does not
      return samples: that of the first check that fails. */
  function LoadError(h: AudioHost, filePath: string, sampleRate: int, ffmpegPath: string): Exception
    requires !AudioLoads(h, filePath, sampleRate, ffmpegPath)
  {
    var path := h.resolve(filePath);
    if path.Raised? then path.error
    else if h.isFile(path.value).Raised? then h.isFile(path.value).error
    else if !h.isFile(path.value).value then Exception(FileNotFoundError, FileNotFoundMessage(path.value))
    else match h.probe(ffmpegPath)
      case ProbeNotFound => Exception(FileNotFoundError, FfmpegNotFoundMessage(ffmpegPath))
      case ProbeFailed(e) => e
      case ProbeOk =>
        var c := h.convert(ffmpegPath, path.value, sampleRate);
        if c.ConversionFailed? then c.error
        else if c.out != [] then FrombufferError
        else if c.err == [] then Exception(RuntimeError, FfmpegErrorPrefix + UnknownError)
        else match h.utf8(c.err)
          case Raised(e) => e
          case Ok(text) => Exception(RuntimeError, FfmpegErrorPrefix + text)
  }

  /** The `try` block of `load_audio` (lines 24-52): the checks in order,
      each failure raising its own exception, not yet wrapped. `trace` lists
      the external steps it took. */
  method LoadAudioBody(h: AudioHost, filePath: string, sampleRate: int, ffmpegPath: string)
    returns (inner: Result<seq<real>>, trace: seq<Stage>)
    // the checks run in order and each failure stops the ones after it
    ensures trace ==
              if !FileFound(h, filePath) then [CheckFile]
              else if h.probe(ffmpegPath) != ProbeOk then [CheckFile, ProbeFfmpeg]
              else [CheckFile, ProbeFfmpeg, RunFfmpeg]
    // success
    ensures inner.Ok? <==> AudioLoads(h, filePath, sampleRate, ffmpegPath)
    ensures inner.Ok? ==> inner.value == LoadedSamples(h, filePath, sampleRate, ffmpegPath)
    ensures inner.Raised? ==> inner.error == LoadError(h, filePath, sampleRate, ffmpegPath)
    // what each failing check raises
    ensures h.resolve(filePath).Raised? ==> inner == Raised(h.resolve(filePath).error)
    ensures var path := h.resolve(filePath);
            path.Ok? && h.isFile(path.value).Raised? ==> inner == Raised(h.isFile(path.value).error)
    ensures var path := h.resolve(filePath);
            path.Ok? && h.isFile(path.value) == Ok(false) ==>
              inner == Raised(Exception(FileNotFoundError, FileNotFoundMessage(path.value)))
    ensures FileFound(h, filePath) && h.probe(ffmpegPath) == ProbeNotFound ==>
              inner == Raised(Exception(FileNotFoundError, FfmpegNotFoundMessage(ffmpegPath)))
    ensures FileFound(h, filePath) && h.probe(ffmpegPath).ProbeFailed? ==>
              inner == Raised(h.probe(ffmpegPath).error)
    ensures FileFound(h, filePath) && h.probe(ffmpegPath) == ProbeOk ==>
            var c := h.convert(ffmpegPath, h.resolve(filePath).value, sampleRate);
              && (c.ConversionFailed? ==> inner == Raised(c.error))
              && (c.Converted? && c.out == [] && c.err == [] ==>
                    inner == Raised(Exception(RuntimeError, FfmpegErrorPrefix + UnknownError)))
              && (c.Converted? && c.out == [] && c.err != [] && h.utf8(c.err).Ok? ==>
                    inner == Raised(Exception(RuntimeError, FfmpegErrorPrefix + h.utf8(c.err).value)))
              && (c.Converted? && c.out == [] && c.err != [] && h.utf8(c.err).Raised? ==>
                    inner == Raised(h.utf8(c.err).error))
              && (c.Converted? && |c.out| % 2 == 1 ==> inner == Raised(FrombufferError))
  {
    var found := FindAudioFile(h, filePath);
    if found.Raised? {
      inner, trace := Raised(found.error), [CheckFile];
    } else {
      var probe := h.probe(ffmpegPath);
      if probe.ProbeNotFound? {
        inner := Raised(Exception(FileNotFoundError, FfmpegNotFoundMessage(ffmpegPath)));
        trace := [CheckFile, ProbeFfmpeg];
      } else if probe.ProbeFailed? {
        inner, trace := Raised(probe.error), [CheckFile, ProbeFfmpeg];
      } else {
        inner := RunConversion(h, found.value, sampleRate, ffmpegPath);
        trace := [CheckFile, ProbeFfmpeg, RunFfmpeg];
      }
    }
  }

  /** `load_audio(file_path, sample_rate, ffmpeg_path)`: the `try` block and
      its handler, which turns every exception into one RuntimeError. */
  method LoadAudio(h: AudioHost, filePath: string, sampleRate: int, ffmpegPath: string)
    returns (r: Result<seq<real>>, trace: seq<Stage>)
    // the checks run in order and each failure stops the ones after it
    ensures trace == [CheckFile] || trace == [CheckFile, ProbeFfmpeg] || trace == [CheckFile, ProbeFfmpeg, RunFfmpeg]
    ensures ProbeFfmpeg in trace <==> FileFound(h, filePath)
    ensures RunFfmpeg in trace <==> FileFound(h, filePath) && h.probe(ffmpegPath) == ProbeOk
    // success
    ensures r.Ok? <==> AudioLoads(h, filePath, sampleRate, ffmpegPath)
    ensures r.Ok? ==> r.value == LoadedSamples(h, filePath, sampleRate, ffmpegPath)
    ensures r.Raised? ==> r.error == Wrap(LoadError(h, filePath, sampleRate, ffmpegPath))
    // every failure is one RuntimeError with the fixed prefix ...
    ensures r.Raised? ==> r.error.kind == RuntimeError && StartsWith(r.error.message, LoadErrorPrefix)
    // ... around the message of what went wrong
    ensures h.resolve(filePath).Raised? ==> r == Raised(Wrap(h.resolve(filePath).error))
    ensures var path := h.resolve(filePath);
            path.Ok? && h.isFile(path.value).Raised? ==> r == Raised(Wrap(h.isFile(path.value).error))
    ensures var path := h.resolve(filePath);
            path.Ok? && h.isFile(path.value) == Ok(false) ==>
              r == Raised(Wrap(Exception(FileNotFoundError, FileNotFoundMessage(path.value))))
    ensures ProbeFfmpeg in trace && h.probe(ffmpegPath) == ProbeNotFound ==>
              r == Raised(Wrap(Exception(FileNotFoundError, FfmpegNotFoundMessage(ffmpegPath))))
    ensures ProbeFfmpeg in trace && h.probe(ffmpegPath).ProbeFailed? ==>
              r == Raised(Wrap(h.probe(ffmpegPath).error))
    ensures RunFfmpeg in trace ==>
            var c := h.convert(ffmpegPath, h.resolve(filePath).value, sampleRate);
              && (c.ConversionFailed? ==> r == Raised(Wrap(c.error)))
              && (c.Converted? && c.out == [] && c.err == [] ==>
                    r == Raised(Wrap(Exception(RuntimeError, FfmpegErrorPrefix + UnknownError))))
              && (c.Converted? && c.out == [] && c.err != [] && h.utf8(c.err).Ok? ==>
                    r == Raised(Wrap(Exception(RuntimeError, FfmpegErrorPrefix + h.utf8(c.err).value))))
              && (c.Converted? && c.out == [] && c.err != [] && h.utf8(c.err).Raised? ==>
                    r == Raised(Wrap(h.utf8(c.err).error)))
              && (c.Converted? && |c.out| % 2 == 1 ==> r == Raised(Wrap(FrombufferError)))
  {
    var inner;
    inner, trace := LoadAudioBody(h, filePath, sampleRate, ffmpegPath);
    if inner.Raised? {
      r := Raised(Wrap(inner.error));
    } else {
      r := inner;
    }
  }

  /** Whether `transcription.txt` was written, and with what. */
  datatype Written = NotWritten | Written(content: string)

  /** How one run of `transcribe_audio` ends: the process exit status, the
      lines written to stderr, and the result file. */
  datatype RunOutcome = RunOutcome(exitCode: int, stderr: seq<string>, result: Written)

  /** `transcribe_audio(audio_file, model_name, ffmpeg_path)`, including the
      `sys.exit(1)` of its handler. */
  method TranscribeAudio(h: ModelHost, audioFile: string, modelName: string, ffmpegPath: string)
    returns (outcome: RunOutcome, trace: seq<Stage>)
    // stages run in order; the model is loaded before the audio is
    ensures 1 <= |trace| && trace <= Pipeline
    ensures CheckFile in trace <==> h.loadModel(modelName) == Done
    ensures Transcribe in trace <==>
              h.loadModel(modelName) == Done && AudioLoads(h.audio, audioFile, DefaultSampleRate, ffmpegPath)
    ensures WriteResult in trace <==>
              && h.loadModel(modelName) == Done
              && AudioLoads(h.audio, audioFile, DefaultSampleRate, ffmpegPath)
              && h.transcribe(LoadedSamples(h.audio, audioFile, DefaultSampleRate, ffmpegPath)).Ok?
    // exit status 0 with the result file written, or 1 with one message and no file
    ensures outcome.exitCode == 0 || outcome.exitCode == 1
    ensures outcome.exitCode == 0 <==> WriteResult in trace && h.openResult(ResultFile) == Done
    ensures outcome.exitCode == 0 ==> outcome.stderr == [] && outcome.result.Written?
    ensures outcome.exitCode == 1 ==>
              && outcome.result == NotWritten
              && |outcome.stderr| == 1
              && StartsWith(outcome.stderr[0], ReportPrefix)
    // on success the file holds exactly full_text
    ensures outcome.result.Written? ==>
              && AudioLoads(h.audio, audioFile, DefaultSampleRate, ffmpegPath)
              && var segments := h.transcribe(LoadedSamples(h.audio, audioFile, DefaultSampleRate, ffmpegPath));
                 segments.Ok? && outcome.result.content == FullText(segments.value)
    // what is reported for each failing stage
    ensures h.loadModel(modelName).Failed? ==>
              outcome.stderr == [ReportPrefix + h.loadModel(modelName).error.message]
    ensures CheckFile in trace && Transcribe !in trace ==>
              outcome.stderr ==
                [ReportPrefix + Wrap(LoadError(h.audio, audioFile, DefaultSampleRate, ffmpegPath)).message]
    ensures Transcribe in trace && WriteResult !in trace ==>
              outcome.stderr ==
                [ReportPrefix + h.transcribe(LoadedSamples(h.audio, audioFile, DefaultSampleRate, ffmpegPath)).error.message]
    ensures WriteResult in trace && h.openResult(ResultFile).Failed? ==>
              outcome.stderr == [ReportPrefix + h.openResult(ResultFile).error.message]
  {
    var run: Result<string>;
    trace := [LoadModel];
    var model := h.loadModel(modelName);
    if model.Failed? {
      run := Raised(model.error);
    } else {
      var audio, audioTrace := LoadAudio(h.audio, audioFile, DefaultSampleRate, ffmpegPath);
      trace := trace + audioTrace;
      if audio.Raised? {
        run := Raised(audio.error);
      } else {
        trace := trace + [Transcribe];
        var segments := h.transcribe(audio.value);
        if segments.Raised? {
          run := Raised(segments.error);
        } else {
          var fullText := FullText(segments.value);
          trace := trace + [WriteResult];
          var openStatus := h.openResult(ResultFile);
          if openStatus.Failed? {
            run := Raised(openStatus.error);
          } else {
            run := Ok(fullText);
          }
        }
      }
    }
    if run.Raised? {
      outcome := RunOutcome(1, [ReportPrefix + run.error.message], NotWritten);
    } else {
      outcome := RunOutcome(0, [], Written(run.value));
    }
  }
}
