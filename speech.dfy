/**
 * The `text_to_speech` pipeline and the script's entry point, as operations
 * on an abstract host: the regular files and directories that exist (with the
 * permission mode recorded on each) and the JSON objects printed so far.
 *
 * The foreign calls (directory creation, the temporary file, speech
 * synthesis, audio conversion, writing and chmod) are steps whose success is
 * given by an `Outcomes` value chosen by the environment.
 */
module Speech {
  import opened Common
  import opened DialPlan
  import opened Script

  /** 0o644: the mode given to both outputs. */
  const FileMode: int := 420
  /** 0o755: the mode of a directory the script creates. */
  const DirMode: int := 493
  /** 0o600: the mode of a file created by NamedTemporaryFile. */
  const TempMode: int := 384

  const TtsErrorPrefix: string := "Error in text_to_speech: "
  const ConvertFailure: string := "Failed to convert audio to WAV format"
  const ConfigFailure: string := "Failed to create config file: "
  const ConfigErrorPrefix: string := "Error creating config file: "

  datatype Content = Empty | Mp3 | Wav | Text(text: string)

  /** `Umask`: whatever mode the process umask gave the file when it was created. */
  datatype Mode = Umask | Bits(bits: int)

  datatype Entry = Entry(content: Content, mode: Mode)

  /** How each foreign step of one call turns out. */
  datatype Outcomes = Outcomes(
    audioDirOk: bool,              // os.makedirs of the audio directory, when it is missing
    tempFile: Option<string>,      // the path NamedTemporaryFile returns, None when it fails
    synthesisOk: bool,             // gTTS(...).save(temp)
    codecOk: bool,                 // decode, downmix, resample and export by the codec library
    audioChmodOk: bool,            // os.chmod of the WAV file
    configDirOk: bool,             // os.makedirs of the dial-plan directory, when it is missing
    configWriteOk: bool,           // open and write of the dial-plan file
    configChmodOk: bool)           // os.chmod of the dial-plan file

  /** The steps up to and including the audio conversion succeed. */
  predicate Converts(env: Outcomes, dirs: set<string>) {
    (AudioFilesPath in dirs || env.audioDirOk) && env.tempFile.Some? && env.synthesisOk && env.codecOk
  }

  /** The steps up to and including the write of the dial-plan file succeed. */
  predicate WritesConfig(env: Outcomes, dirs: set<string>) {
    Converts(env, dirs) && env.audioChmodOk
    && (TxtFilesPath in dirs + {AudioFilesPath} || env.configDirOk)
    && env.configWriteOk
  }

  /** Every step succeeds, given the directories that exist before the call. */
  predicate Succeeds(env: Outcomes, dirs: set<string>) {
    WritesConfig(env, dirs) && env.configChmodOk
  }

  /** `path` is present in both maps with the same entry, or absent from both. */
  predicate SameAt(m1: map<string, Entry>, m2: map<string, Entry>, path: string) {
    (path in m1 <==> path in m2) && (path in m1 ==> m1[path] == m2[path])
  }

  /**
   * What the two outputs hold once the steps before them have run, whether
   * or not a later step fails: a converted `<uuid>.wav` stays (with mode
   * 0o644 once its chmod succeeded), a written `<uuid>.txt` holds the dial
   * plan, and a dial-plan file that was not written is as it was in `before`.
   */
  predicate OutputsAfter(files: map<string, Entry>, before: map<string, Entry>, phone: string, uuid: string,
                         converted: bool, chmodded: bool, written: bool) {
    (converted ==> AudioPath(uuid) in files && files[AudioPath(uuid)].content == Wav
                   && (chmodded ==> files[AudioPath(uuid)].mode == Bits(FileMode)))
    && (written ==> ConfigPath(uuid) in files && files[ConfigPath(uuid)].content == Text(ConfigText(phone, uuid)))
    && (!written ==> SameAt(files, before, ConfigPath(uuid)))
  }

  /** A `.mp3` path is neither output of any uuid. */
  lemma {:induction false} TempIsNoOutput(tempPath: string, uuid: string)
    requires EndsWith(tempPath, ".mp3")
    ensures tempPath != AudioPath(uuid) && tempPath != ConfigPath(uuid)
  {
    OutputSuffixes(uuid);
    var a, c := AudioPath(uuid), ConfigPath(uuid);
    assert tempPath[|tempPath| - 4..] == ".mp3";
    assert a[|a| - 4..] == ".wav" && c[|c| - 4..] == ".txt";
    assert ".mp3"[1] != ".wav"[1] && ".mp3"[1] != ".txt"[1];
  }

  class Host {
    var files: map<string, Entry>
    var dirs: map<string, Mode>
    var stdout: seq<Response>

    constructor (files0: map<string, Entry>, dirs0: map<string, Mode>)
      ensures files == files0 && dirs == dirs0 && stdout == []
    {
      files, dirs, stdout := files0, dirs0, [];
    }

    /** The temporary path the environment offers is new and carries the `.mp3` suffix. */
    predicate FreshTemp(env: Outcomes)
      reads this
    {
      env.tempFile.Some? ==> env.tempFile.value !in files && EndsWith(env.tempFile.value, ".mp3")
    }

    /** The mode of the file at `path`, or the umask default a new file would get. */
    function ModeAt(path: string): Mode
      reads this
    {
      if path in files then files[path].mode else Umask
    }

    /** The entry a write leaves at `path`: new content, and the mode of the file it replaces. */
    function Rewritten(path: string, content: Content): Entry
      reads this
    {
      Entry(content, ModeAt(path))
    }

    /** `if not os.path.exists(path): os.makedirs(path, mode=0o755)`. */
    method EnsureDir(path: string, makeOk: bool) returns (ok: bool)
      modifies this
      ensures ok <==> path in old(dirs) || makeOk
      ensures dirs == if path in old(dirs) || !makeOk then old(dirs) else old(dirs)[path := Bits(DirMode)]
      ensures files == old(files) && stdout == old(stdout)
    {
      ok := true;
      if path !in dirs {
        if makeOk {
          dirs := dirs[path := Bits(DirMode)];
        } else {
          ok := false;
        }
      }
    }

    /** `tempfile.NamedTemporaryFile(suffix='.mp3', delete=False)`: an empty file, mode 0o600. */
    method CreateTemp(tempFile: Option<string>) returns (path: Option<string>)
      requires tempFile.Some? ==> tempFile.value !in files
      modifies this
      ensures path == tempFile
      ensures files == if tempFile.None? then old(files)
                       else old(files)[tempFile.value := Entry(Empty, Bits(TempMode))]
      ensures dirs == old(dirs) && stdout == old(stdout)
    {
      path := tempFile;
      if tempFile.Some? {
        files := files[tempFile.value := Entry(Empty, Bits(TempMode))];
      }
    }

    /** `gTTS(text=text, lang='bn').save(path)`: the synthesised speech is written into the file. */
    method Synthesise(text: string, path: string, ok: bool) returns (saved: bool)
      requires path in files
      modifies this
      ensures saved == ok
      ensures files == if ok then old(files)[path := old(files)[path].(content := Mp3)] else old(files)
      ensures dirs == old(dirs) && stdout == old(stdout)
    {
      saved := ok;
      if ok {
        files := files[path := files[path].(content := Mp3)];
      }
    }

    /**
     * `convert_to_wav_format`: fails when the input is missing or the codec
     * fails; otherwise the output is written (mono, 8000 Hz) and found to exist.
     */
    method ConvertToWav(input: string, output: string, codecOk: bool) returns (ok: bool)
      modifies this
      ensures ok <==> input in old(files) && codecOk
      ensures files == if ok then old(files)[output := old(Rewritten(output, Wav))] else old(files)
      ensures ok ==> output in files
      ensures dirs == old(dirs) && stdout == old(stdout)
    {
      if input !in files {
        return false;
      }
      if !codecOk {
        return false;
      }
      files := files[output := Rewritten(output, Wav)];
      ok := true;
    }

    /** `os.chmod(path, bits)`; fails on a missing file. */
    method Chmod(path: string, bits: int, chmodOk: bool) returns (ok: bool)
      modifies this
      ensures ok <==> path in old(files) && chmodOk
      ensures files == if ok then old(files)[path := old(files)[path].(mode := Bits(bits))] else old(files)
      ensures dirs == old(dirs) && stdout == old(stdout)
    {
      ok := path in files && chmodOk;
      if ok {
        files := files[path := files[path].(mode := Bits(bits))];
      }
    }

    /** `if os.path.exists(path): os.unlink(path)`. */
    method RemoveIfExists(path: string)
      modifies this
      ensures files == old(files) - {path}
      ensures dirs == old(dirs) && stdout == old(stdout)
    {
      if path in files {
        files := files - {path};
      }
    }

    /**
     * `create_config_file`: writes the nine-line dial plan to `<uuid>.txt` in
     * the dial-plan directory with mode 0o644, and returns its path; on any
     * failure returns false and an error message. A failure after the write
     * leaves the written file in place.
     */
    method CreateConfigFile(phone: string, uuid: string, env: Outcomes) returns (created: bool, result: string)
      modifies this
      ensures created <==> (TxtFilesPath in old(dirs) || env.configDirOk) && env.configWriteOk && env.configChmodOk
      ensures created ==> result == ConfigPath(uuid)
      ensures !created ==> StartsWith(result, ConfigErrorPrefix)
      ensures !((TxtFilesPath in old(dirs) || env.configDirOk) && env.configWriteOk) ==> files == old(files)
      ensures (TxtFilesPath in old(dirs) || env.configDirOk) && env.configWriteOk ==>
                files == old(files)[ConfigPath(uuid) := Entry(Text(ConfigText(phone, uuid)),
                                     if created then Bits(FileMode) else old(ModeAt(ConfigPath(uuid))))]
      ensures dirs == if TxtFilesPath in old(dirs) || !env.configDirOk then old(dirs)
                      else old(dirs)[TxtFilesPath := Bits(DirMode)]
      ensures stdout == old(stdout)
    {
      var path := ConfigPath(uuid);
      var dirOk := EnsureDir(TxtFilesPath, env.configDirOk);
      if !dirOk {
        return false, ConfigErrorPrefix;
      }
      if !env.configWriteOk {
        return false, ConfigErrorPrefix;
      }
      files := files[path := Rewritten(path, Text(ConfigText(phone, uuid)))];
      var chmodOk := Chmod(path, FileMode, env.configChmodOk);
      if !chmodOk {
        return false, ConfigErrorPrefix;
      }
      created, result := true, path;
    }

    /**
     * The `try` block of `text_to_speech` after the temporary MP3 exists:
     * synthesise into it, convert it to `<uuid>.wav`, chmod that, and write
     * `<uuid>.txt`; the first failing step decides the error.
     */
    method ProduceOutputs(text: string, phone: string, uuid: string, tempPath: string, env: Outcomes)
      returns (response: Response)
      requires tempPath in files && tempPath != AudioPath(uuid) && tempPath != ConfigPath(uuid)
      modifies this
      ensures response.Success? <==>
                env.synthesisOk && env.codecOk && env.audioChmodOk
                && (TxtFilesPath in old(dirs) || env.configDirOk) && env.configWriteOk && env.configChmodOk
      ensures response.Success? ==> response == SuccessFor(uuid)
      ensures response.Success? ==>
                AudioPath(uuid) in files && files[AudioPath(uuid)] == Entry(Wav, Bits(FileMode))
                && ConfigPath(uuid) in files
                && files[ConfigPath(uuid)] == Entry(Text(ConfigText(phone, uuid)), Bits(FileMode))
      ensures response.Failure? ==> StartsWith(response.message, TtsErrorPrefix)
      ensures tempPath in files
      ensures files - {tempPath, AudioPath(uuid), ConfigPath(uuid)}
              == old(files) - {tempPath, AudioPath(uuid), ConfigPath(uuid)}
      ensures !(env.synthesisOk && env.codecOk) ==> files - {tempPath} == old(files) - {tempPath}
      ensures OutputsAfter(files, old(files), phone, uuid, env.synthesisOk && env.codecOk,
                           env.synthesisOk && env.codecOk && env.audioChmodOk,
                           env.synthesisOk && env.codecOk && env.audioChmodOk
                           && (TxtFilesPath in old(dirs) || env.configDirOk) && env.configWriteOk)
      ensures dirs == old(dirs) || (TxtFilesPath !in old(dirs) && dirs == old(dirs)[TxtFilesPath := Bits(DirMode)])
      ensures stdout == old(stdout)
    {
      AudioAndConfigPathsDiffer(uuid, uuid);
      var saved := Synthesise(text, tempPath, env.synthesisOk);
      if !saved {
        return Failure(TtsErrorPrefix);
      }
      var filename := AudioFileName(uuid);
      var filepath := AudioPath(uuid);
      var converted := ConvertToWav(tempPath, filepath, env.codecOk);
      if !converted {
        return Failure(TtsErrorPrefix + ConvertFailure);
      }
      var chmodded := Chmod(filepath, FileMode, env.audioChmodOk);
      if !chmodded {
        return Failure(TtsErrorPrefix);
      }
      var configCreated, configResult := CreateConfigFile(phone, uuid, env);
      if !configCreated {
        return Failure(TtsErrorPrefix + ConfigFailure + configResult);
      }
      response := Success(filename, ConfigFileName(uuid), filepath, configResult);
    }

    /**
     * The `try`/`finally` of `text_to_speech`: the steps of `ProduceOutputs`,
     * then the temporary file is removed whatever they returned.
     */
    method ProduceAndCleanUp(text: string, phone: string, uuid: string, tempPath: string, env: Outcomes)
      returns (response: Response)
      requires tempPath in files && tempPath != AudioPath(uuid) && tempPath != ConfigPath(uuid)
      modifies this
      ensures response.Success? <==>
                env.synthesisOk && env.codecOk && env.audioChmodOk
                && (TxtFilesPath in old(dirs) || env.configDirOk) && env.configWriteOk && env.configChmodOk
      ensures response.Success? ==> response == SuccessFor(uuid)
      ensures response.Success? ==>
                AudioPath(uuid) in files && files[AudioPath(uuid)] == Entry(Wav, Bits(FileMode))
                && ConfigPath(uuid) in files
                && files[ConfigPath(uuid)] == Entry(Text(ConfigText(phone, uuid)), Bits(FileMode))
      ensures response.Failure? ==> StartsWith(response.message, TtsErrorPrefix)
      ensures tempPath !in files
      ensures files - {AudioPath(uuid), ConfigPath(uuid)} == old(files) - {tempPath, AudioPath(uuid), ConfigPath(uuid)}
      ensures !(env.synthesisOk && env.codecOk) ==> files == old(files) - {tempPath}
      ensures OutputsAfter(files, old(files), phone, uuid, env.synthesisOk && env.codecOk,
                           env.synthesisOk && env.codecOk && env.audioChmodOk,
                           env.synthesisOk && env.codecOk && env.audioChmodOk
                           && (TxtFilesPath in old(dirs) || env.configDirOk) && env.configWriteOk)
      ensures dirs == old(dirs) || (TxtFilesPath !in old(dirs) && dirs == old(dirs)[TxtFilesPath := Bits(DirMode)])
      ensures stdout == old(stdout)
    {
      response := ProduceOutputs(text, phone, uuid, tempPath, env);
      ghost var produced := files;
      RemoveIfExists(tempPath);
      assert files - {AudioPath(uuid), ConfigPath(uuid)} == produced - {tempPath, AudioPath(uuid), ConfigPath(uuid)};
    }

    /**
     * The first steps of `text_to_speech`: create the audio directory when it
     * is missing, then the empty temporary MP3; None when either fails.
     */
    method Prepare(env: Outcomes) returns (temp: Option<string>)
      requires FreshTemp(env)
      modifies this
      ensures temp.Some? <==> (AudioFilesPath in old(dirs) || env.audioDirOk) && env.tempFile.Some?
      ensures temp.Some? ==> temp == env.tempFile
      ensures files == if temp.None? then old(files) else old(files)[temp.value := Entry(Empty, Bits(TempMode))]
      ensures dirs == if AudioFilesPath in old(dirs) || !env.audioDirOk then old(dirs)
                      else old(dirs)[AudioFilesPath := Bits(DirMode)]
      ensures stdout == old(stdout)
    {
      var audioDir := EnsureDir(AudioFilesPath, env.audioDirOk);
      if !audioDir {
        return None;
      }
      temp := CreateTemp(env.tempFile);
    }

    /**
     * `text_to_speech`: ensure the audio directory, create the temporary MP3,
     * run the steps of `ProduceOutputs`, remove the temporary file in the
     * `finally` block, and print exactly one response. Whatever happens after
     * the temporary file is created, it is gone afterwards; no file other than
     * the two outputs is changed.
     */
    method TextToSpeech(text: string, phone: string, uuid: string, env: Outcomes) returns (response: Response)
      requires FreshTemp(env)
      modifies this
      ensures stdout == old(stdout) + [response]
      ensures response.Success? <==> Succeeds(env, old(dirs).Keys)
      ensures response.Success? ==> response == SuccessFor(uuid)
      ensures response.Success? ==>
                AudioPath(uuid) in files && files[AudioPath(uuid)] == Entry(Wav, Bits(FileMode))
                && ConfigPath(uuid) in files
                && files[ConfigPath(uuid)] == Entry(Text(ConfigText(phone, uuid)), Bits(FileMode))
      ensures response.Failure? ==> StartsWith(response.message, TtsErrorPrefix)
      ensures env.tempFile.Some? ==> env.tempFile.value !in files
      ensures files - {AudioPath(uuid), ConfigPath(uuid)} == old(files) - {AudioPath(uuid), ConfigPath(uuid)}
      ensures !Converts(env, old(dirs).Keys) ==> files == old(files)
      ensures OutputsAfter(files, old(files), phone, uuid, Converts(env, old(dirs).Keys),
                           Converts(env, old(dirs).Keys) && env.audioChmodOk, WritesConfig(env, old(dirs).Keys))
      ensures dirs == if AudioFilesPath in old(dirs) || !env.audioDirOk then old(dirs)
                      else old(dirs)[AudioFilesPath := Bits(DirMode)]
    {
      var temp := Prepare(env);
      if temp.None? {
        response := Failure(TtsErrorPrefix);
        stdout := stdout + [response];
        return;
      }
      var tempPath := temp.value;
      TempIsNoOutput(tempPath, uuid);
      ghost var created := files;
      response := ProduceAndCleanUp(text, phone, uuid, tempPath, env);
      stdout := stdout + [response];
      assert created - {tempPath, AudioPath(uuid), ConfigPath(uuid)} == old(files) - {AudioPath(uuid), ConfigPath(uuid)};
    }

    /**
     * The `__main__` block: check the argument, then either hand the request to
     * `TextToSpeech` or print the one error object.
     */
    method Run(args: seq<Argument>, env: Outcomes) returns (response: Response)
      requires FreshTemp(env)
      modifies this
      ensures stdout == old(stdout) + [response]
      ensures ParseArgs(args).Err? ==>
                response == Failure(InputErrorMessage(ParseArgs(args).error))
                && files == old(files) && dirs == old(dirs)
      ensures response.Success? <==> ParseArgs(args).Ok? && Succeeds(env, old(dirs).Keys)
      ensures response.Success? ==> response == SuccessFor(ParseArgs(args).value.uuid)
      ensures response.Success? ==>
                var q := ParseArgs(args).value;
                AudioPath(q.uuid) in files && files[AudioPath(q.uuid)] == Entry(Wav, Bits(FileMode))
                && ConfigPath(q.uuid) in files
                && files[ConfigPath(q.uuid)] == Entry(Text(ConfigText(q.phone, q.uuid)), Bits(FileMode))
      ensures ParseArgs(args).Ok? && response.Failure? ==> StartsWith(response.message, TtsErrorPrefix)
      ensures env.tempFile.Some? ==> env.tempFile.value !in files
      ensures ParseArgs(args).Ok? ==>
                var u := ParseArgs(args).value.uuid;
                files - {AudioPath(u), ConfigPath(u)} == old(files) - {AudioPath(u), ConfigPath(u)}
      ensures !Converts(env, old(dirs).Keys) ==> files == old(files)
      ensures ParseArgs(args).Ok? ==>
                var q := ParseArgs(args).value;
                OutputsAfter(files, old(files), q.phone, q.uuid, Converts(env, old(dirs).Keys),
                             Converts(env, old(dirs).Keys) && env.audioChmodOk, WritesConfig(env, old(dirs).Keys))
      ensures ParseArgs(args).Ok? ==>
                dirs == if AudioFilesPath in old(dirs) || !env.audioDirOk then old(dirs)
                        else old(dirs)[AudioFilesPath := Bits(DirMode)]
    {
      var parsed := ParseArgs(args);
      if parsed.Err? {
        response := Failure(InputErrorMessage(parsed.error));
        stdout := stdout + [response];
      } else {
        var request := parsed.value;
        response := TextToSpeech(request.message, request.phone, request.uuid, env);
      }
    }
  }
}
