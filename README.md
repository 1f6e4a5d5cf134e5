# Bangla text-to-speech autocall: a Dafny model

The system turns a Bangla text message into a phone call. An HTTP front end,
`api.php`, checks a POST request: its method, its `X-API-Key` header, the
fields `phone`, `message` and `uuid`, and the formats of the trimmed fields.
It then hands the three trimmed fields to the Python script
`text_to_speech.py` and turns the one JSON object the script prints into its
own reply `{status, message, data}`.

The script does the following:
- synthesises the text into a temporary MP3;
- converts the MP3 to `<uuid>.wav`;
- writes a nine-line dial-plan file `<uuid>.txt` for the dialer;
- removes the temporary file whatever happened;
- prints exactly one `success` or `error` object.

The model is split into six modules:

- `Common` (`common.dfy`): Option and Result types, digit and prefix/suffix predicates.
- `DialPlan` (`dial_plan.dfy`):
  - the output directory constants and the file naming, with `os.path.join` semantics;
  - `'\n'.join` and `str.split('\n')`;
  - the nine dial-plan lines;
  - a reader for the dial-plan file, `ParseConfig`, which the script itself does not have; it is proved to invert the writer for every phone and uuid without a newline, and to accept only texts the writer produces.
- `Script` (`script.dfy`): the script's entry-point checks on its argument, and the JSON object it prints.
- `Speech` (`speech.dfy`):
  - the `text_to_speech` pipeline as methods of a class `Host`;
  - `Host` holds the regular files (content and mode), the directories and the objects printed so far;
  - the outcome of each foreign step (`makedirs`, the temporary file, gTTS, the pydub conversion, the write, `chmod`) is given by an `Outcomes` value.
- `PhpText` (`php_text.dfy`): PHP `trim`, `empty()` on strings, and the two `preg_match` patterns. PCRE's `$` also matches before a final newline; this is modelled and proved harmless after `trim`.
- `Api` (`api.dfy`):
  - the guard chain of the front end;
  - the payload it forwards to the script;
  - the dispatch on the script's output;
  - the whole request handler, with the script as a function parameter.

Every reply of the front end is a `Reply(status, message, data)`, which gives
the `sendResponse` shape: exactly the keys `status`, `message` and `data`.
`None` stands for JSON null.

## Model

| member | source | states |
|---|---|---|
| DialPlan.PathJoin | text_to_speech.py:87 | definition of POSIX `os.path.join` for two components; its properties are the three lemmas below |
| DialPlan.PathJoinAbsolute | text_to_speech.py:87 | a file name starting with `/` replaces the directory: the result is the name itself |
| DialPlan.PathJoinRelative | text_to_speech.py:87 | a relative name joined to a non-empty directory without a trailing `/` gives `dir + "/" + name` |
| DialPlan.PathJoinEndsWith | text_to_speech.py:87 | the joined path always ends with the file name |
| DialPlan.AudioPath | text_to_speech.py:137-138 | definition: the audio output is `<uuid>.wav` joined to `AUDIO_FILES_PATH` |
| DialPlan.ConfigPath | text_to_speech.py:87 | definition: the dial-plan output is `<uuid>.txt` joined to `TXT_FILES_PATH` |
| DialPlan.OutputSuffixes | text_to_speech.py:87 | the audio path ends in `.wav` and the dial-plan path in `.txt`, for every uuid |
| DialPlan.AudioAndConfigPathsDiffer | text_to_speech.py:87 | no uuid's audio path equals any uuid's dial-plan path |
| DialPlan.RelativeUuidPaths | text_to_speech.py:137-138 | for a uuid not starting with `/`, the outputs are `AUDIO_FILES_PATH/<uuid>.wav` and `TXT_FILES_PATH/<uuid>.txt` |
| DialPlan.OutputPathsInjective | text_to_speech.py:137-138 | distinct non-absolute uuids never share an output path |
| DialPlan.AbsoluteUuidEscapesDirectory | text_to_speech.py:87 | for every uuid starting with `/`, the audio output is `<uuid>.wav` and the dial-plan output `<uuid>.txt`, whatever the output directories are |
| DialPlan.AbsoluteUuidsCollide | text_to_speech.py:137-138 | two different uuids, `7` and `AUDIO_FILES_PATH/7`, name the same audio file, and likewise for the dial-plan file |
| DialPlan.Join | text_to_speech.py:96 | definition of `'\n'.join`: the lines with one newline between neighbours and none after the last |
| DialPlan.Split | text_to_speech.py:96 | splitting on newlines gives at least one piece, and no piece contains a newline |
| DialPlan.SplitJoin | text_to_speech.py:96 | splitting the newline-joined lines gives the lines back when none contains a newline |
| DialPlan.JoinSplit | text_to_speech.py:96 | joining the pieces of any text gives the text back |
| DialPlan.JoinEndsWithLast | text_to_speech.py:96 | the joined text ends with the last line, so it has no separator after it |
| DialPlan.ConfigLines | text_to_speech.py:72-82 | definition: the nine lines the script writes, in the script's order, with the phone in the Channel line and the uuid in the Extension and Set lines |
| DialPlan.ConfigText | text_to_speech.py:72-96 | definition: the text of the dial-plan file is the nine lines joined by newlines |
| DialPlan.ConfigLinesAreFields | text_to_speech.py:72-82 | line `i` is key `i`, a colon and value `i` |
| DialPlan.KeyOf | text_to_speech.py:72-82 | the key of a line is the longest colon-free prefix, and it ends at the first colon |
| DialPlan.KeyOfField | text_to_speech.py:72-82 | the key of `key:value` is `key` when the key has no colon |
| DialPlan.ConfigSchema | text_to_speech.py:72-82 | the document has nine lines, with keys Channel, CallerID, MaxRetries, RetryTime, WaitTime, Context, Extension, Priority, Set in this order |
| DialPlan.ConfigConstantLines | text_to_speech.py:73-81 | every line except Channel, Extension and Set is the same for all phones and uuids |
| DialPlan.ParseConfig | text_to_speech.py:72-96 | the model's own reader of the dial-plan file, with no counterpart in the script; it exists to state what the written file determines, through the three lemmas below |
| DialPlan.ParseWrittenLines | text_to_speech.py:72-82 | the reader accepts the nine written lines and recovers the phone and uuid from them |
| DialPlan.ConfigRoundTrip | text_to_speech.py:72-96 | for a phone and uuid without newlines: the written text splits into exactly nine lines, reads back as that phone and uuid, and has no trailing newline |
| DialPlan.ConfigCanonical | text_to_speech.py:72-96 | any text the reader accepts is exactly the text the writer produces for what was read |
| Script.ParseArgs | text_to_speech.py:187-221 | the request is accepted exactly when there is a first argument, it decodes to an object, and the object has `message`, `phone` and `uuid`; the values pass unchanged; a missing argument, a decode error and a non-object each give their own error |
| Script.ExtraArgumentsIgnored | text_to_speech.py:187-189 | arguments after the first do not change the outcome |
| Script.ExtraKeysIgnored | text_to_speech.py:196 | keys other than the three do not change the outcome |
| Script.SuccessFor | text_to_speech.py:155-161 | the success object names a `.wav` audio file and a `.txt` dial-plan file, at two different paths |
| Script.ResponseObject | text_to_speech.py:155-175 | definition: the keys and values of the JSON object the script prints for a success and for an error |
| Script.ResponseObjectStatus | text_to_speech.py:155-175 | the printed object always has `status`; it is "success" exactly for a success and "error" exactly for an error; the key sets of both shapes |
| Speech.TempIsNoOutput | text_to_speech.py:125-138 | a `.mp3` temporary path is never one of the two outputs |
| Speech.Host.EnsureDir | text_to_speech.py:120-121 | the directory exists afterwards exactly when it already existed or `makedirs` succeeded; a new directory gets mode 0o755 |
| Speech.Host.CreateTemp | text_to_speech.py:125-126 | the temporary file is added, empty, with mode 0o600, or nothing changes when it cannot be created |
| Speech.Host.Synthesise | text_to_speech.py:132-133 | on success only the temporary file's content changes, to MP3 audio |
| Speech.Host.ConvertToWav | text_to_speech.py:24-64 | the conversion succeeds exactly when the input exists and the codec succeeds; the output then holds WAV audio and nothing else changes; a failed conversion is taken to change nothing |
| Speech.Host.Chmod | text_to_speech.py:146 | on an existing file only its mode changes; on a missing file the call fails |
| Speech.Host.RemoveIfExists | text_to_speech.py:165-166 | the path is gone afterwards and nothing else changes |
| Speech.Host.CreateConfigFile | text_to_speech.py:66-108 | success exactly when the directory exists or can be made and both the write and the chmod succeed; the result is then the dial-plan path, otherwise an error starting "Error creating config file: "; the file holds the dial-plan text with mode 0o644 |
| Speech.Host.ProduceOutputs | text_to_speech.py:129-161 | the steps after the temporary file succeed exactly when synthesis, conversion, both chmods and the dial-plan write succeed; success is the uuid's success object with both files written; a failure starts with "Error in text_to_speech: "; only the temporary file and the two outputs change; after a failure, the WAV file is present when conversion succeeded (with mode 0o644 when its chmod did too) and the dial-plan file holds the dial-plan text when the write succeeded and is untouched otherwise |
| Speech.Host.ProduceAndCleanUp | text_to_speech.py:129-167 | the same as `ProduceOutputs`, including the state of both outputs after a failure, and the temporary file is gone afterwards whatever the outcome |
| Speech.Host.Prepare | text_to_speech.py:119-126 | the temporary file exists afterwards exactly when the audio directory existed or could be made and the temporary file could be created |
| Speech.Host.TextToSpeech | text_to_speech.py:110-178 | exactly one object is printed; it is a success exactly when every step succeeds, and then it equals the uuid's success object and both outputs exist with mode 0o644; a failure starts with "Error in text_to_speech: "; the temporary file never survives; no file other than the two outputs changes; the WAV file holds WAV audio when conversion succeeded (with mode 0o644 when its chmod did too); the dial-plan file holds the dial-plan text when its write succeeded and is untouched otherwise; when conversion fails or is not reached no file changes, so outputs of an earlier run stay |
| Speech.Host.Run | text_to_speech.py:180-221 | exactly one object is printed; a rejected argument prints that check's error and touches no file; a success happens exactly when the argument is accepted and every step succeeds; for an accepted argument, a success leaves both outputs with mode 0o644, a failure starts with "Error in text_to_speech: ", files other than the two outputs are unchanged, nothing changes when conversion fails or is not reached, so outputs of an earlier run stay; the WAV file holds WAV audio when conversion succeeded (with mode 0o644 when its chmod did too), and the dial-plan file holds the dial-plan text when its write succeeded and is untouched otherwise; the directories are the old ones plus those that were created |
| PhpText.Trim | api.php:50-52 | definition of PHP `trim` with its default character list, as `rtrim` after `ltrim`; its properties are the lemmas below |
| PhpText.TrimStart | api.php:50-52 | `ltrim` returns a suffix of its input that does not start with a trim character |
| PhpText.TrimEnd | api.php:50-52 | `rtrim` returns a prefix of its input that does not end with a trim character |
| PhpText.TrimStartDrops | api.php:50-52 | everything `ltrim` removes is a trim character |
| PhpText.TrimEndDrops | api.php:50-52 | everything `rtrim` removes is a trim character |
| PhpText.TrimSpec | api.php:50-52 | `trim` keeps a contiguous slice of its input and leaves a trimmed string; the result is empty exactly when the input is all trim characters |
| PhpText.TrimSlice | api.php:50-52 | the kept part is the slice that starts where `ltrim` stopped |
| PhpText.TrimTrimmed | api.php:50-52 | the result of `trim` neither starts nor ends with a trim character |
| PhpText.TrimAllTrimChars | api.php:50-52 | `trim` returns "" exactly when every character is a trim character |
| PhpText.TrimIdempotent | api.php:50-52 | trimming twice is the same as trimming once |
| PhpText.TrimOfTrimmed | api.php:50-52 | `trim` leaves a trimmed string unchanged |
| PhpText.PhpEmpty | api.php:34-36 | definition of PHP `empty()` on a string: true exactly for "" and "0" |
| PhpText.UuidPattern | api.php:55 | definition of `preg_match('/^\d+$/')`: one or more ASCII digits, optionally followed by one final newline |
| PhpText.PhonePattern | api.php:60 | definition of `preg_match('/^\+?[1-9]\d{1,14}$/')`, with the same final-newline allowance |
| PhpText.TrimmedPatterns | api.php:54-62 | on a trimmed string, the uuid pattern accepts exactly the non-empty ASCII digit strings, and the phone pattern exactly an optional `+` followed by 2 to 15 digits, the first not 0 |
| PhpText.DollarAcceptsFinalNewline | api.php:55 | without `trim`, the uuid pattern would accept "42\n" |
| Api.Passes | api.php:27-67 | definition: what each of the seven guards tests, on the trimmed fields where the source trims them |
| Api.FirstRejection | api.php:27-67 | no message exactly when every guard passes; otherwise the message of a guard that fails while every earlier guard passes |
| Api.Validate | api.php:27-67 | accepted exactly when all seven guards pass, in the order method, key present, key equal, fields present, uuid, phone, message; otherwise the error is the message of the first guard that fails; the payload holds the three trimmed fields |
| Api.GuardMessagesDistinct | api.php:27-67 | the seven error messages are pairwise different, so each error identifies its guard |
| Api.AcceptedFields | api.php:50-67 | an accepted payload has a non-empty digit uuid, a phone that is an optional `+` and 2 to 15 digits not starting with 0, a message other than "" and "0", and all three fields trimmed |
| Api.ZeroKeyIsMissing | api.php:32-36 | every POST request whose API key is "0" is rejected as missing, whatever its body and whatever the configured key |
| Api.ZeroMessageIsEmpty | api.php:51-67 | a message that trims to "0" is rejected |
| Api.PaddedZeroTrimsToZero | api.php:51 | " 0 " trims to "0" |
| Api.ForwardedPayloadAccepted | api.php:70-74 | a well-formed payload passes the script's input checks unchanged, names output files inside the output directory, and its dial plan reads back as the same phone and uuid |
| Api.Dispatch | api.php:85-105 | the reply is an error quoting the output when the output does not decode to a non-empty object; it is a success exactly when the decoded status is not "error"; a success carries the trimmed phone and message, the script's `audio_file` or null, and the timestamp; an error has null data; an undecodable output or `{}` gives "Failed to decode Python output: " followed by the raw output; a decoded error status passes on the script's `message`, or null when it has none |
| Api.Handle | api.php:27-105 | every reply is a success or an error; a rejected request gets exactly its guard's error with null data; a success only follows an accepted request, and carries the trimmed phone and message |
| Api.ReplyFollowsScript | api.php:87-105 | for any object the script prints, a script success becomes a front-end success naming the script's audio file, and a script error becomes a front-end error with the script's message |
| Api.RejectedWithoutScript | api.php:27-67 | a rejected request is answered with its guard's message; the script's behaviour cannot affect the reply |
| Api.AcceptedRequestSucceeds | api.php:70-105 | when the script succeeds on an accepted request, the reply is a success naming `<uuid>.wav` |

## Left out

- Speech synthesis (gTTS) and the audio conversion (pydub decoding, downmix to mono, 8000 Hz resampling, WAV export) are foreign libraries. Each is a step that succeeds or fails, and the file contents are the tags `Mp3` and `Wav`.
- The real filesystem calls (`os.path.exists`, `makedirs`, `open`/`write`, `chmod`, `unlink`, `NamedTemporaryFile`) are operations on the maps of `Host`. The temporary file's name comes from the environment. Directories and files live in separate maps, so a file that blocks a directory path is not modelled.
- ConvertToWav, CreateConfigFile: writing a file does not require its parent directory to exist. Only the two output directories are created, so in the source a uuid naming a missing subdirectory (such as `sub/7`, or an absolute path under a missing directory) makes the export fail and the call print an error, while the model lets that call succeed. Through the front end this cannot happen, because its uuid check admits digits only.
- A failing `unlink` in the `finally` block is not modelled: removal always succeeds.
- A write that fails halfway leaves no partial dial-plan file in the model.
- ConvertToWav: a failed export is taken to leave the output untouched; a partly written `<uuid>.wav` left behind by a failing pydub export is not modelled, so the "nothing changes when conversion fails" clauses of `TextToSpeech` and `Run` rest on this.
- Path strings are not normalised: `.`, `..`, repeated `/` and symbolic links are not resolved, and two paths name the same file exactly when they are equal strings. The frame conditions and `OutputPathsInjective` therefore speak about path strings; a uuid such as `./7` or `a/../7` would name the same file as `7` on a real filesystem. Through the front end this cannot happen, because its uuid check admits digits only.
- Logging and the `traceback` text: error messages are modelled only by the fixed text they start with.
- The outer "Fatal error" handler of the entry point is not modelled. It can only fire when printing itself fails.
- JSON encoding and decoding on both sides:
  - the script's argument is an `Argument`, already decoded;
  - JSON values other than strings (numbers, nested objects, null in the request fields) are not modelled;
  - a script output that decodes to a JSON scalar or list is treated like one that does not decode.
- `shell_exec`, `escapeshellarg` and the `2>&1` merge of standard error are not modelled: the script's printed object reaches `Dispatch` directly, as `ScriptOutput`. The HTTP headers and CORS lines are left out as well.
- `date('Y-m-d H:i:s')` is the parameter `now`, and the `API_KEY` constant from `config.php` is the parameter `apiKey`. `config.php` is not part of this model.
- Permission modes are recorded as numbers on files and directories but never checked against access.
