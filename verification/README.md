# Voice chat assistant: client decisions and chat gate, in Dafny

This project models the decision logic of a voice-chat assistant. The
browser client records a voice message, sends it to the backend and shows
the conversation as a list of bubbles. The backend also has a text-chat
endpoint, which answers through a language model. The model covers six parts:

- **`createPlaceholderWavBlob`** (`WavEncoder`, `WavFormat`, `ByteCodec`).
  It builds a 44-byte RIFF WAVE header and the 16-bit mono PCM samples in
  a zero-filled buffer, through `DataView` writes at fixed offsets. The
  encoder is an imperative method over an `array<Byte>`. Its result is
  proved equal to a file-as-value specification (`WavFile`). A reader for
  the container format (`ParseHeader`, `Decode`) is proved to read back
  from that file the intended header fields and exactly the samples written.
- **`formatTime`** (`RecordingTimer`). It turns whole seconds into
  `MM:SS` text. A reader for that text is proved to recover the number.
  The function is `RecordingTimer.FormatTime`, and the reader is `ParseTime`.
- **The client's handling of a finished recording** (`ChatClient`):
  - the `size < 1000` guard;
  - the classification of request errors into chat text (`friendlyError`);
  - the append-only message list.
  The handler is `ChatClient.HandleRecordingComplete`, the classification is
  `ChatClient.FriendlyError`, and the microphone error is
  `ChatClient.MicrophoneDenied`.
- **`POST /chat/`** (`ChatRoutes`). It strips the message and refuses an
  empty one with 400. A message containing a crisis keyword, in any letter
  case, gets the fixed helpline text without a model call. Any other message
  gets the model's answer, and a model failure becomes 500. The endpoint is
  `ChatRoutes.Chat`.
- **Shared text operations** (`Strings`). These are substring search
  (`Strings.Contains`), Python's `str.strip()` with its exact whitespace set
  (`Strings.Strip`), and Python's `str.lower()` as far as it can affect a
  match against ASCII keywords (`Strings.Lower`).
- **`Wrappers`** holds the `Option` type.

The samples of the placeholder tone, the network exchange and the language
model are inputs:

- the samples are `tone: nat -> Int16`;
- the exchange is an `Exchange`, meaning a delivered reply or a failure
  message;
- the model is a function from the stripped message to `Generated(text)`
  or `Raised`.

## Model

| member | source | states |
|---|---|---|
| ByteCodec.Uint32BERoundTrip | frontend/src/App.jsx:46 | a big-endian `setUint32` read back with the big-endian getter gives the value modulo 2^32 |
| ByteCodec.Uint32RoundTrip | frontend/src/App.jsx:47 | a little-endian `setUint32` read back gives the value modulo 2^32 |
| ByteCodec.Uint16RoundTrip | frontend/src/App.jsx:52 | a little-endian `setUint16` read back gives the value modulo 2^16 |
| ByteCodec.Int16RoundTrip | frontend/src/App.jsx:67 | every 16-bit signed sample survives `setInt16` followed by `getInt16` unchanged |
| ByteCodec.BytesOfUint32BE | frontend/src/App.jsx:46-59 | reading four bytes big-endian and writing the value back gives the same four bytes, so a tag read as its constant is exactly its bytes |
| ByteCodec.ReadUint16At | frontend/src/App.jsx:52-57 | two bytes that hold a little-endian encoding, anywhere in a buffer, read back as the value modulo 2^16 |
| ByteCodec.ReadUint32BEAt | frontend/src/App.jsx:46-59 | four bytes that hold a big-endian encoding, anywhere in a buffer, read back as the value modulo 2^32 |
| ByteCodec.ReadUint32At | frontend/src/App.jsx:47 | four bytes that hold a little-endian encoding, anywhere in a buffer, read back as the value modulo 2^32 |
| ByteCodec.ReadInt16At | frontend/src/App.jsx:67 | two bytes that hold a 16-bit sample, anywhere in a buffer, read back as that sample |
| WavEncoder.Header | frontend/src/App.jsx:45-60 | the header is exactly 44 bytes: RIFF header, `fmt ` chunk and `data` chunk header |
| WavEncoder.SampleBytes | frontend/src/App.jsx:62-69 | the data region for `n` samples is exactly `2*n` bytes |
| WavEncoder.SetUint32 | frontend/src/App.jsx:46-60 | writes the four bytes of the requested byte order at the offset; every other byte is unchanged |
| WavEncoder.SetUint16 | frontend/src/App.jsx:52-57 | writes two little-endian bytes at the offset; every other byte is unchanged |
| WavEncoder.SetInt16 | frontend/src/App.jsx:67 | writes the sample's two's-complement bytes at the offset; every other byte is unchanged |
| WavEncoder.WriteRiffHeader | frontend/src/App.jsx:45-48 | bytes 0-11 become the RIFF header; the bytes after it are unchanged |
| WavEncoder.WriteFmtFormat | frontend/src/App.jsx:49-53 | bytes 12-23 become the `fmt ` tag, size 16, format 1 and the channel count; bytes before and after are unchanged |
| WavEncoder.WriteFmtRates | frontend/src/App.jsx:54-57 | bytes 24-35 become the sample rate, byte rate, block align and bits per sample; bytes before and after are unchanged |
| WavEncoder.WriteFmtChunk | frontend/src/App.jsx:49-57 | bytes 12-35 become the `fmt ` chunk; bytes before and after are unchanged |
| WavEncoder.WriteDataChunkHeader | frontend/src/App.jsx:58-60 | bytes 36-43 become the `data` chunk header; bytes before and after are unchanged |
| WavEncoder.WriteHeader | frontend/src/App.jsx:45-60 | the first 44 bytes become `Header(duration)`; the data region is unchanged |
| WavEncoder.SampleBytesStep | frontend/src/App.jsx:62-69 | sample `i` takes exactly the two bytes after the first `i` samples |
| WavEncoder.WriteSamples | frontend/src/App.jsx:62-69 | after the loop the buffer is the untouched header followed by every sample in order |
| WavEncoder.CreatePlaceholderWav | frontend/src/App.jsx:37-70 | returns a fresh buffer whose whole contents are the header followed by every sample, in order, each at `44 + 2*i` |
| WavFormat.Ascii | frontend/src/App.jsx:46-59 | the tag text becomes one byte per character, same length |
| WavFormat.ParseHeader | frontend/src/App.jsx:45-60 | a header is accepted only from a file of at least 44 bytes that carries the `RIFF` tag |
| WavFormat.ReadSamples | frontend/src/App.jsx:62-69 | reads exactly `n` samples |
| WavFormat.Decode | frontend/src/App.jsx:37-70 | a decoded file carries the parsed header, and its samples fit inside the file after the header |
| WavFormat.FileLength | frontend/src/App.jsx:38-42 | the file is `44 + 44100*1*2*duration` bytes long; for duration 0 it is the bare header, and for the default 5 seconds it is 441044 bytes |
| WavFormat.RiffHeaderFields | frontend/src/App.jsx:46-48 | the RIFF header holds the big-endian `RIFF` tag, the little-endian `36 + dataSize`, and the big-endian `WAVE` tag |
| WavFormat.FmtChunkFields | frontend/src/App.jsx:50-57 | the `fmt ` chunk holds its tag, size 16, format 1 (PCM), 1 channel, rate 44100, byte rate 88200, block align 2 and 16 bits per sample |
| WavFormat.DataChunkHeaderFields | frontend/src/App.jsx:59-60 | the `data` chunk header holds its tag and `dataSize` |
| WavFormat.TagsAreAscii | frontend/src/App.jsx:46-59 | bytes 0-3, 8-11, 12-15 and 36-39 of the file are the ASCII text `RIFF`, `WAVE`, `fmt ` and `data` |
| WavFormat.TagBytes | frontend/src/App.jsx:46-59 | each hexadecimal constant, written big-endian, spells its four-letter tag |
| WavFormat.HeaderRoundTrip | frontend/src/App.jsx:45-60 | parsing the file's header gives exactly the intended fields, with the size fields reduced modulo 2^32 as the 32-bit writes do |
| WavFormat.SizeFieldsMatchLength | frontend/src/App.jsx:47-60 | the field at offset 4 equals the file length minus 8 and the field at offset 40 the length minus 44, each if and only if the duration is at most 48695 seconds |
| WavFormat.SampleAt | frontend/src/App.jsx:63-69 | sample `i` lies inside the file and reads back, little-endian two's complement at `44 + 2*i`, as the value written |
| WavFormat.DecodeRoundTrip | frontend/src/App.jsx:37-70 | for durations up to 48695 seconds, decoding the file gives the intended header and exactly the written samples, and the data region ends where the file ends |
| RecordingTimer.DecimalDigits | frontend/src/App.jsx:647-650 | `toString()` of a natural number is a string of decimal digits with no leading zero |
| RecordingTimer.DecimalBelow100 | frontend/src/App.jsx:647-650 | a number below 100 has at most two decimal digits |
| RecordingTimer.DecimalRoundTrip | frontend/src/App.jsx:647-650 | the decimal text reads back as the number |
| RecordingTimer.PadStart | frontend/src/App.jsx:649-650 | `padStart` gives a text as long as the longer of the text and the width |
| RecordingTimer.PadStartShape | frontend/src/App.jsx:649-650 | the padded text ends in the original text and holds only the fill character in front of it |
| RecordingTimer.PadStartKeepsValue | frontend/src/App.jsx:649-650 | zero padding keeps the text all digits and keeps its value |
| RecordingTimer.PaddedDecimal | frontend/src/App.jsx:647-650 | a padded number has at least two digits, exactly two below 100, and the same value |
| RecordingTimer.ParseTime | frontend/src/App.jsx:651 | a text read as a time has at least five characters and a colon third from the end |
| RecordingTimer.JoinedFields | frontend/src/App.jsx:651 | two padded fields joined by a colon, the second below 100, are found again from the end of the text with their values |
| RecordingTimer.FormatTimeFields | frontend/src/App.jsx:646-652 | the text is `minutes:seconds`: the seconds field is two digits showing `seconds % 60`, and the minutes field is at least two digits showing `floor(seconds / 60)`, never cut short |
| RecordingTimer.FormatTimeRoundTrip | frontend/src/App.jsx:646-652 | reading the timer text back gives the number of seconds it was made from |
| ChatClient.Append | frontend/src/App.jsx:478-485 | `[...prev, m]` keeps every earlier message in place and adds `m` at the end |
| ChatClient.FriendlyErrorCases | frontend/src/App.jsx:617-625 | "Audio file is too small" selects the short-recording text; otherwise "Failed to fetch" selects the cannot-connect text; the message is passed through if and only if it contains neither marker |
| ChatClient.NoMarkerWithoutCapitals | frontend/src/App.jsx:618-621 | a text without the letters `A` and `F` contains neither marker |
| ChatClient.ReplacementsCarryNoMarker | frontend/src/App.jsx:618-621 | neither replacement text contains either marker |
| ChatClient.FriendlyErrorIdempotent | frontend/src/App.jsx:617-625 | classifying an already classified text leaves it unchanged |
| ChatClient.ShortRecordingGuard | frontend/src/App.jsx:517-530 | no request is sent if and only if the blob is under 1000 bytes; a short blob appends exactly one error note, leaves processing off, and gives the same result whatever the server would have answered |
| ChatClient.SentRecordingOutcome | frontend/src/App.jsx:533-642 | a sent recording appends the user's bubble and then exactly one answer: the reply, or the classified error. Processing is on while the request runs and off afterwards |
| ChatClient.HistoryIsAppendOnly | frontend/src/App.jsx:517-642 | handling a recording keeps every earlier message in place and adds one message (not sent) or two (sent) |
| ChatClient.MicrophoneDeniedAppends | frontend/src/App.jsx:475-486 | a microphone failure appends exactly the permission error note and changes nothing else |
| Strings.ContainsIff | backend/chat_routes.py:36 | the substring scan succeeds if and only if the keyword occurs at some position |
| Strings.LeadingSpacesRun | backend/chat_routes.py:31 | the count at the front covers exactly the whitespace run there: all whitespace, and the next character is not |
| Strings.TrailingSpacesRun | backend/chat_routes.py:31 | the count at the end covers exactly the whitespace run there: all whitespace, and the character before it is not |
| Strings.StripRemovesSurroundingSpace | backend/chat_routes.py:31 | `strip()` removes a whitespace prefix and a whitespace suffix and leaves no whitespace at either end |
| Strings.StripEmptyIffAllSpace | backend/chat_routes.py:31-33 | the stripped message is empty if and only if the message is all whitespace |
| Strings.StripIdempotent | backend/chat_routes.py:31 | stripping twice is stripping once |
| Strings.OccursInStrip | backend/chat_routes.py:31-36 | a word with non-whitespace ends found at position `p` is found after stripping at `p` minus the removed prefix |
| Strings.OccurrenceSurvivesStrip | backend/chat_routes.py:31-36 | a word with non-whitespace ends found in the message is still found after stripping |
| Strings.LowerChar | backend/chat_routes.py:36 | lowering a character never yields an empty string or turns non-whitespace into whitespace |
| Strings.LowerAppend | backend/chat_routes.py:36 | the model's `Lower` distributes over concatenation |
| Strings.LowerFixed | backend/chat_routes.py:35-36 | text whose characters are already lower case is unchanged by `lower()` |
| Strings.LowerPreservesOccurrence | backend/chat_routes.py:36 | under the model's `Lower`, an occurrence of a word in the message becomes an occurrence of the lowered word in the lowered message |
| ChatRoutes.AnyKeywordIff | backend/chat_routes.py:36 | `any(keyword in text ...)` holds if and only if some keyword of the list occurs in the text |
| ChatRoutes.BlankMessageRefused | backend/chat_routes.py:31-33 | the answer is 400 "No message provided" if and only if the message is empty or all whitespace |
| ChatRoutes.CrisisAnswersWithHelpline | backend/chat_routes.py:35-44 | a non-blank crisis message gets the helpline text, and the answer does not depend on the model |
| ChatRoutes.OtherwiseTheModelAnswers | backend/chat_routes.py:46-52 | for any other message the reply is the model's text if and only if the model generated it, and the answer is 500 "Chat processing error" if and only if the model raised |
| ChatRoutes.SurroundingSpaceIgnored | backend/chat_routes.py:31-48 | leading and trailing whitespace never change the answer, and the model only ever sees the stripped message |
| ChatRoutes.PlainLowerWord | backend/chat_routes.py:35 | a word of ASCII lower-case letters, spaces and hyphens that starts and ends with a letter is unchanged by `lower()` and has non-whitespace ends |
| ChatRoutes.KeywordsAreLower | backend/chat_routes.py:35 | every crisis keyword is already lower case, non-empty, and starts and ends with a letter |
| ChatRoutes.KeywordFound | backend/chat_routes.py:36 | one keyword of the list occurring in the text makes the `any(...)` test true |
| ChatRoutes.WordSurvivesStrip | backend/chat_routes.py:31-36 | a word that lowers to a crisis keyword, found in the message, is still found in the stripped message, which is then not empty |
| ChatRoutes.CrisisInAnyCase | backend/chat_routes.py:35-44 | a message in which any word occurs that lowers to a crisis keyword (`Suicide`, `KILL MYSELF`) gets the helpline text, wherever the word stands |

## Left out

- The sample values `Math.round(Math.sin(angle) * 32767)` are floating point. They are the input `tone`, which gives a 16-bit value for each sample index.
- `new Blob([view], ...)` is not modelled. The model stops at the filled buffer.
- Durations are natural numbers. A fractional duration is not modelled: it gives a valid file when 44100·d is whole, and otherwise a RangeError in the sample loop. A negative one makes `new ArrayBuffer` throw. The default 5 appears as the d = 5 case of `FileLength`.
- JavaScript numbers are doubles: exact below 2^53, and `toString` switches to exponent form from 1e21. The model uses unbounded naturals; the timer and the encoder never reach those magnitudes.
- The 32-bit size fields wrap modulo 2^32, and the model keeps that wrap. Their exact value is proved only up to 48695 seconds. Beyond that the buffer would exceed 4 GiB, and that size is not modelled.
- `getUserMedia`, `MediaRecorder`, the `setInterval` timer and the start/stop wiring are device I/O and callbacks. So is the `recordingTime` value passed as the duration.
- The request itself is the input `Exchange`: `FormData`, `fetch`, the reading of `response.json()`, `text()` and `blob()`, and the derivation of the thrown message for non-2xx and non-MP3 responses. A failure enters only through its final message text.
- Message ids, timestamps and object URLs come from the clock and the browser. Audio URLs are inputs, and ids and timestamps are not modelled.
- `String(error.message)` of an error without a message (the text `undefined`) is not modelled. The error message is always a string here.
- The initial `friendlyError` value "Sorry, I couldn't process that. Please try again." is not modelled. Every branch overwrites it, so it is never shown.
- Strings.LowerChar: lower-cases only A-Z, KELVIN SIGN and LATIN CAPITAL LETTER I WITH DOT ABOVE, and keeps every other character. These are the only characters whose lower case contains ASCII letters. Any other difference from Python cannot create or destroy a match of an ASCII keyword, so the crisis test is exact. Lowered text containing other non-ASCII capitals is not. Python's context-sensitive final-sigma rule is not modelled either: the model lowers each character on its own, which differs from Python only in non-ASCII output.
- The system prompt and the model name passed to the language model are not modelled. The model's only input here is the stripped message.
- The `print` of a failed chat request is logging and is not modelled.
- The React components, styling, `AudioVisualizer` and `VoiceMessageBubble` (with its own float `formatTime`) are not part of this model.
- backend/app.py (transcription and speech synthesis), backend/llm_logic.py, backend/chat_router.py, backend/main.py, frontend/vite.config.js and src/App.jsx are not part of this model.
