# Whisper transcription scripts in Dafny

This project models the two transcription scripts of the repository and proves
what their own code contributes. Speech recognition, ffmpeg and the file system
are outside that code.

- `1_GPU_OpenAI-Whisper/Whisper_GPU.py` makes one pass over the entries of the
  lectures directory. It selects entries whose lower-cased name ends in
  `.mp3` and transcribes each one. The text goes to
  `TEXTS_DIR/<splitext(name)[0]>.txt`. Each entry's failure is caught and
  printed, and the pass goes on.
- `2_CPU_WhisperCPP/WhisperCPP.py` has two functions.
  - `load_audio` checks that the file exists, then probes ffmpeg, then runs
    the conversion. It decodes the raw signed 16-bit little-endian PCM output
    into samples and wraps every failure in one `RuntimeError`.
  - `transcribe_audio` loads the model, loads the audio, transcribes, joins
    the stripped segment texts with single spaces and writes
    `transcription.txt`. Any exception becomes one stderr line and exit
    status 1.

Modules:

- `Exceptions` (exceptions.dfy): an exception is its class and its message. A
  call either returns or raises.
- `PyText` (pytext.dfy): the Python string and path functions the scripts use.
  These are `str.lower` (`Lower`), `endswith` (`EndsWith`), `str.strip` with
  Python's whitespace set (`Strip`), `os.path.splitext` (`SplitExt`) and
  `os.path.join` (`JoinPath`), the last two as POSIX `posixpath` defines them.
- `Pcm` (pcm.dfy): `np.frombuffer(out, np.int16)`, its inverse, and the
  division by 32768.
- `SegmentText` (segment_text.dfy): the `" ".join(... strip() ...)` of line 80.
- `WhisperCpp` (whisper_cpp.dfy): `load_audio` and `transcribe_audio` as
  methods.
  - Every external call is a field of a host value: `Path.resolve`,
    `is_file`, the ffmpeg probe, the ffmpeg run, the UTF-8 decode, model
    load, transcription, and opening the result file.
  - Each method returns a trace of the external stages it reached, in order.
  - `LoadError` names the exception of the first failing check of
    `load_audio`, the one the handler wraps.
- `WhisperGpu` (whisper_gpu.dfy): the module-level loop as the method
  `RunBatch`.
  - It runs over the directory listing.
  - Its pieces are `IsSelected` (the filter of line 9), `OutputName` and
    `TextPath` (the naming of line 11), `AudioPath` (line 10), `Attempt` (the
    `try` block of lines 12-16: transcribe, then open) and `EntryEvents` (the
    lines one entry prints).
  - It is proved equal to a fold that gives the final text files (a map
    from path to content) and the printed log.
  - Lemmas on that fold cover the per-entry outcome, the order, and "last
    writer wins".

Two points of order and error handling:

- `transcribe_audio` loads the model (WhisperCPP.py:69) before it reads the
  audio (WhisperCPP.py:73). So a missing audio file or a missing ffmpeg is
  reported after the model load. `TranscribeAudio`'s trace states this order.
- The docstring of `load_audio` (WhisperCPP.py:20-22) announces
  `FileNotFoundError`. The handler at WhisperCPP.py:54-55 turns it into
  `RuntimeError`, so callers never see a `FileNotFoundError`. `LoadAudio`
  states the `RuntimeError`.

## Model

| member | source | states |
|---|---|---|
| PyText.StripSlice | 2_CPU_WhisperCPP/WhisperCPP.py:80 | `strip()` returns a contiguous slice of its input. It removes only whitespace, and what it keeps starts and ends with non-whitespace. |
| PyText.StripIdempotent | 2_CPU_WhisperCPP/WhisperCPP.py:80 | Stripping an already stripped text changes nothing. |
| PyText.StripEmptyIff | 2_CPU_WhisperCPP/WhisperCPP.py:80 | A text strips to `""` exactly when every character is whitespace. |
| PyText.RFindLast | 1_GPU_OpenAI-Whisper/Whisper_GPU.py:11 | The index `splitext` searches from holds the character, and no later index does. |
| PyText.SplitExtParts | 1_GPU_OpenAI-Whisper/Whisper_GPU.py:11 | `splitext`'s root and extension concatenate to the name. The extension is empty or starts with its only `.`, and it holds no `/`. |
| PyText.JoinPathParts | 1_GPU_OpenAI-Whisper/Whisper_GPU.py:10-11 | `os.path.join(a, b)` ends with `b`. It starts with `a` when `b` is relative, and it is `b` itself when `b` is absolute. |
| Pcm.Int16 | 2_CPU_WhisperCPP/WhisperCPP.py:51 | Two little-endian bytes read as int16 give a value in [-32768, 32767]. It is `lo + 256*hi` when that is below 32768, and that minus 65536 otherwise. |
| Pcm.DecodeS16LE | 2_CPU_WhisperCPP/WhisperCPP.py:51 | 2n bytes give n samples, in order. Sample i is the two's-complement value of bytes 2i and 2i+1. |
| Pcm.FromBufferInt16 | 2_CPU_WhisperCPP/WhisperCPP.py:51 | `np.frombuffer(out, np.int16)` raises its ValueError exactly for an odd byte count. Otherwise it gives the decoded samples, half as many as the bytes and all in the int16 range. |
| Pcm.DecodeEncode | 2_CPU_WhisperCPP/WhisperCPP.py:51 | Decoding the little-endian encoding of samples gives the samples back. |
| Pcm.EncodeDecode | 2_CPU_WhisperCPP/WhisperCPP.py:51 | Encoding the decoded samples gives the bytes back, so the decoding is injective. |
| Pcm.Normalize | 2_CPU_WhisperCPP/WhisperCPP.py:51 | `x / 32768.0` lies in [-1, 1), and times 32768 it is `x` again. |
| Pcm.NormalizeAll | 2_CPU_WhisperCPP/WhisperCPP.py:51 | The scaled array has one value per sample, each in [-1, 1) and equal to its sample over 32768. |
| SegmentText.JoinWithSpace | 2_CPU_WhisperCPP/WhisperCPP.py:80 | Joining no pieces gives `""`. Joining n pieces gives their total length plus n-1 separators. |
| SegmentText.JoinPieces | 2_CPU_WhisperCPP/WhisperCPP.py:80 | Piece i sits at its offset in the joined text, the pieces before it plus one separator each. It is followed by exactly one `" "` unless it is the last. |
| SegmentText.FullText | 2_CPU_WhisperCPP/WhisperCPP.py:80 | `full_text` of no segments is `""`. For n segments its length is the total stripped length plus n-1. |
| SegmentText.FullTextLayout | 2_CPU_WhisperCPP/WhisperCPP.py:80 | Segment i's stripped text appears in `full_text` in segment order, at its offset, followed by one space unless it is last. |
| SegmentText.BlankSegmentGivesDoubleSpace | 2_CPU_WhisperCPP/WhisperCPP.py:80 | An all-whitespace segment between "a" and "b" gives `"a  b"`, with two adjacent spaces. |
| WhisperCpp.LoadedSamples | 2_CPU_WhisperCPP/WhisperCPP.py:45-52 | The returned array has one value per byte pair of ffmpeg's stdout. Each value is the pair's int16 over 32768, in [-1, 1). |
| WhisperCpp.FindAudioFile | 2_CPU_WhisperCPP/WhisperCPP.py:26-28 | The file check passes exactly when the path resolves and `is_file` answers true. An exception from `resolve` or `is_file` comes through unchanged, and a path that is not a file raises FileNotFoundError naming the resolved path. |
| WhisperCpp.RunConversion | 2_CPU_WhisperCPP/WhisperCPP.py:41-52 | Samples come back exactly when ffmpeg returns non-empty output of even length, and they are the decoded, scaled output. Otherwise it raises ffmpeg's own exception, "Ошибка FFmpeg: " with the decoded stderr or "Неизвестная ошибка" for empty output, the decode error, or frombuffer's error for an odd byte count. |
| WhisperCpp.LoadAudioBody | 2_CPU_WhisperCPP/WhisperCPP.py:24-52 | The checks run in order: file, then probe, then conversion, and each failure stops the later ones. Samples come back exactly when every step succeeds. Otherwise the exception raised is `LoadError`, the one of the first failing check, and each step's exception is given, including FileNotFoundError for a missing ffmpeg. |
| WhisperCpp.Wrap | 2_CPU_WhisperCPP/WhisperCPP.py:54-55 | The handler's exception is a RuntimeError whose message is the fixed prefix followed by exactly the original message. |
| WhisperCpp.LoadAudio | 2_CPU_WhisperCPP/WhisperCPP.py:8-55 | The checks run in order: file, then probe, then conversion. Each failure stops the later ones. Samples come back exactly when every step succeeds and stdout is non-empty and even. Every failure is one RuntimeError with the prefix "Ошибка при загрузке аудио: " around the original message. This includes an exception from `resolve` or `is_file`, the two FileNotFoundErrors, the decoded stderr or "Неизвестная ошибка" for empty output, and frombuffer's error for an odd byte count. The wrapped exception is exactly `Wrap(LoadError(...))`. |
| WhisperCpp.TranscribeAudio | 2_CPU_WhisperCPP/WhisperCPP.py:57-90 | Stages run in the order model load, audio load, transcription, write. Each later stage is reached iff all earlier ones succeed. Exit status is 0 with `transcription.txt` holding exactly `full_text`, or 1 with one "Ошибка: " stderr line carrying the failing stage's message and no file written. |
| WhisperGpu.EntryEvents | 1_GPU_OpenAI-Whisper/Whisper_GPU.py:9-19 | A skipped entry prints nothing. A selected entry prints "transcribing" with its audio path, then exactly one of "saved" (iff transcription and open succeeded) or the error naming its audio path. |
| WhisperGpu.RunBatch | 1_GPU_OpenAI-Whisper/Whisper_GPU.py:8-19 | The loop takes the entries once each in listing order. The text files and the printed log it leaves are the fold of the per-entry step over the listing, and nothing escapes the loop. |
| WhisperGpu.LastWriter | 1_GPU_OpenAI-Whisper/Whisper_GPU.py:8-19 | Gives the last entry whose successful write targets a path, or -1 if none: that entry writes the path and no later one does. |
| WhisperGpu.FinalContents | 1_GPU_OpenAI-Whisper/Whisper_GPU.py:14-17 | After the pass, a path holds exactly the text of the last entry that wrote it, since mode "w" replaces. A path no entry wrote, including those of skipped or failed entries, is as it was before. |
| WhisperGpu.EntryLoggedInPlace | 1_GPU_OpenAI-Whisper/Whisper_GPU.py:8 | The log is the earlier entries' lines, then this entry's lines, then the later entries' lines: each entry is handled once, in order. |
| WhisperGpu.SelectionBySuffix | 1_GPU_OpenAI-Whisper/Whisper_GPU.py:9 | An entry is selected iff its last four characters are ".mp3" in any letter case. |
| WhisperGpu.SelectedOutputName | 1_GPU_OpenAI-Whisper/Whisper_GPU.py:11 | For a selected name the output name drops the last four characters and appends ".txt". The exception is an all-dots stem, where the whole name gets ".txt". |
| WhisperGpu.SelectedByParts | 1_GPU_OpenAI-Whisper/Whisper_GPU.py:9-11 | `stem + ext` with ext a spelling of ".mp3" is selected. Its output name is `stem.txt`, or the whole name plus ".txt" when the stem is all dots (`.mp3` gives `.mp3.txt`). |
| WhisperGpu.CaseCollision | 1_GPU_OpenAI-Whisper/Whisper_GPU.py:11-16 | `a.mp3` and `a.MP3` share one output path, and after both succeed it holds the text of the later one. |
| WhisperGpu.GoodAndBadFileOutputs | 1_GPU_OpenAI-Whisper/Whisper_GPU.py:12-19 | When a good entry comes before one whose transcription raises, the good text is written and no file exists for the failing entry. The open comes after the transcription. |
| WhisperGpu.GoodAndBadFileLog | 1_GPU_OpenAI-Whisper/Whisper_GPU.py:12-19 | For the same two entries, the log shows both attempts in order: "saved" for the first, and the error naming the second's audio path. |

## Left out

- Speech recognition (`whisper.load_model`, `model.transcribe`, pywhispercpp's `Model` and `transcribe`) is not modelled. These are host functions whose results are taken as given.
- The ffmpeg subprocess and the ffmpeg-python stream construction are not modelled. The command-line flags are not modelled either. The probe is given as ok / not found / other error, and the conversion as its captured stdout and stderr bytes or an exception.
- The probe's version print (`splitlines()[0]`, WhisperCPP.py:33) is not modelled. An IndexError there is one of the probe's "other error" outcomes.
- `Path.resolve`, `is_file`, `os.listdir`, `bytes.decode('utf-8')` and `open` are not modelled. Each is a host function or a given listing. `resolve`, `is_file`, the decode and `open` may each return an exception.
- Writing the file after a successful `open` is treated as always succeeding. A failure in the middle of `f.write` is not modelled.
- Every `print` is taken not to raise. In the source a print that raises, such as a `UnicodeEncodeError` on a narrow console, would fail `transcribe_audio` after the join (WhisperCPP.py:84), or report an error after a successful write (Whisper_GPU.py:17). Neither outcome is modelled.
- WhisperGpu.Batch: `open` depends only on the text path. So entries that share a path, such as `a.mp3` and `a.MP3`, all get the same open outcome. Opens that succeed for one entry and fail for another at the same path are not modelled.
- Printed output is modelled as the ordered events of the GPU loop (each with the path or message it prints, not the surrounding Russian wording) and as the exact stderr line of `transcribe_audio`. The stdout progress lines of `transcribe_audio` and of the ffmpeg probe are not modelled.
- `sys.exit(1)` is modelled as the exit code of the outcome.
- The hard-coded paths, model names and language settings (WhisperCPP.py:92-98, Whisper_GPU.py:4-6) are not modelled. Only their roles appear: the directories as `Batch` fields, and the result file name and the sample rate as constants.
- `KeyboardInterrupt` and other `BaseException`s that are not `Exception`s are not modelled, because neither handler catches them.
- PyText.Lower: lower-cases ASCII letters only. No other character lower-cases to '.', 'm', 'p' or '3', so the `.mp3` test is unaffected.
- `np.frombuffer` reads in native byte order. The model assumes little-endian, which matches ffmpeg's `s16le` output on the hosts the scripts target.
- Pcm.Normalize: a real number stands in for the float32 value. The two coincide, because every int16 over 32768 is exactly representable in float32.
- `os.path.join` and `os.path.splitext` are modelled in their POSIX form. Windows path separators are not modelled.
