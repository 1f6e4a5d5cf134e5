/**
 * The dial-plan file written by `create_config_file` and the names of the two
 * output files: nine `key:value` lines joined by a newline, stored as
 * `<uuid>.txt`, next to the audio stored as `<uuid>.wav`.
 *
 * Besides the writer, the module has a strict reader of its own for such a
 * file (`Split` on newlines, `ParseConfig`), and proves that the two are
 * inverse to each other. The script has no reader; this one states what the
 * written text determines.
 */
module DialPlan {
  import opened Common

  /** AUDIO_FILES_PATH: where the WAV files go. */
  const AudioFilesPath: string := "/var/www/html/test/audio_files"
  /** TXT_FILES_PATH: where the dial-plan files go (the same directory as the audio). */
  const TxtFilesPath: string := "/var/www/html/test/audio_files"
  /** The fixed SIP number every call originates from. */
  const OriginNumber: string := "9610003003"

  // ---------------------------------------------------------------------------
  // File names and paths
  // ---------------------------------------------------------------------------

  /**
   * `os.path.join(dir, name)` on POSIX: a `name` that starts with `/` replaces
   * `dir`; otherwise a separator is inserted unless `dir` is empty or already
   * ends with one.
   */
  function PathJoin(dir: string, name: string): string {
    if |name| > 0 && name[0] == '/' then name
    else if |dir| == 0 || dir[|dir| - 1] == '/' then dir + name
    else dir + "/" + name
  }

  /** The joined path always ends with the file name. */
  lemma {:induction false} PathJoinEndsWith(dir: string, name: string)
    ensures EndsWith(PathJoin(dir, name), name)
  {
    var p := PathJoin(dir, name);
    if !(|name| > 0 && name[0] == '/') {
      var d := if |dir| == 0 || dir[|dir| - 1] == '/' then dir else dir + "/";
      assert p == d + name;
      assert p[|d|..] == name;
    }
  }

  /** An absolute file name discards the directory. */
  lemma {:induction false} PathJoinAbsolute(dir: string, name: string)
    requires |name| > 0 && name[0] == '/'
    ensures PathJoin(dir, name) == name
  {
  }

  /**
   * A relative file name is placed inside the directory: the path starts
   * with the directory and one separator, and has no other characters than
   * those and the file name.
   */
  lemma {:induction false} PathJoinRelative(dir: string, name: string)
    requires |name| == 0 || name[0] != '/'
    requires |dir| > 0 && dir[|dir| - 1] != '/'
    ensures StartsWith(PathJoin(dir, name), dir + "/")
    ensures |PathJoin(dir, name)| == |dir| + 1 + |name|
  {
    var p := PathJoin(dir, name);
    assert p == (dir + "/") + name;
    assert p[..|dir| + 1] == dir + "/";
  }

  function AudioFileName(uuid: string): string {
    uuid + ".wav"
  }

  function ConfigFileName(uuid: string): string {
    uuid + ".txt"
  }

  /** The path of the generated WAV file; it depends on the uuid alone. */
  function AudioPath(uuid: string): string {
    PathJoin(AudioFilesPath, AudioFileName(uuid))
  }

  /** The path of the dial-plan file; it depends on the uuid alone. */
  function ConfigPath(uuid: string): string {
    PathJoin(TxtFilesPath, ConfigFileName(uuid))
  }

  /** Whatever the uuid, the audio path ends in `.wav` and the dial-plan path in `.txt`. */
  lemma {:induction false} OutputSuffixes(uuid: string)
    ensures EndsWith(AudioPath(uuid), ".wav")
    ensures EndsWith(ConfigPath(uuid), ".txt")
  {
    PathJoinEndsWith(AudioFilesPath, AudioFileName(uuid));
    EndsWithTail(AudioPath(uuid), uuid, ".wav");
    PathJoinEndsWith(TxtFilesPath, ConfigFileName(uuid));
    EndsWithTail(ConfigPath(uuid), uuid, ".txt");
  }

  /** The audio file and the dial-plan file never share a path, whatever the uuids. */
  lemma {:induction false} AudioAndConfigPathsDiffer(u1: string, u2: string)
    ensures AudioPath(u1) != ConfigPath(u2)
  {
    OutputSuffixes(u1);
    OutputSuffixes(u2);
    var a, c := AudioPath(u1), ConfigPath(u2);
    assert a[|a| - 4..] == ".wav";
    assert c[|c| - 4..] == ".txt";
  }

  /** A uuid that is not an absolute path names files directly inside the output directory. */
  lemma {:induction false} RelativeUuidPaths(uuid: string)
    requires |uuid| == 0 || uuid[0] != '/'
    ensures AudioPath(uuid) == AudioFilesPath + "/" + uuid + ".wav"
    ensures ConfigPath(uuid) == TxtFilesPath + "/" + uuid + ".txt"
  {
    assert (uuid + ".wav")[0] == (if |uuid| == 0 then '.' else uuid[0]);
    assert (uuid + ".txt")[0] == (if |uuid| == 0 then '.' else uuid[0]);
    PathJoinRelative(AudioFilesPath, uuid + ".wav");
    PathJoinEndsWith(AudioFilesPath, uuid + ".wav");
    PrefixAndSuffix(AudioPath(uuid), AudioFilesPath + "/", uuid + ".wav");
    PathJoinRelative(TxtFilesPath, uuid + ".txt");
    PathJoinEndsWith(TxtFilesPath, uuid + ".txt");
    PrefixAndSuffix(ConfigPath(uuid), TxtFilesPath + "/", uuid + ".txt");
    assert AudioFilesPath + "/" + uuid + ".wav" == (AudioFilesPath + "/") + (uuid + ".wav");
    assert TxtFilesPath + "/" + uuid + ".txt" == (TxtFilesPath + "/") + (uuid + ".txt");
  }

  /** Distinct non-absolute uuids never collide on an output path. */
  lemma {:induction false} OutputPathsInjective(u1: string, u2: string)
    requires |u1| == 0 || u1[0] != '/'
    requires |u2| == 0 || u2[0] != '/'
    ensures AudioPath(u1) == AudioPath(u2) ==> u1 == u2
    ensures ConfigPath(u1) == ConfigPath(u2) ==> u1 == u2
  {
    RelativeUuidPaths(u1);
    RelativeUuidPaths(u2);
    var n := |AudioFilesPath| + 1;
    if AudioPath(u1) == AudioPath(u2) {
      var p := AudioPath(u1);
      assert u1 == p[n..n + |u1|];
      assert u2 == p[n..n + |u2|];
    }
    if ConfigPath(u1) == ConfigPath(u2) {
      var p := ConfigPath(u1);
      assert u1 == p[n..n + |u1|];
      assert u2 == p[n..n + |u2|];
    }
  }

  /** An absolute uuid escapes the output directory: each output is the uuid itself plus its suffix. */
  lemma {:induction false} AbsoluteUuidEscapesDirectory(uuid: string)
    requires |uuid| > 0 && uuid[0] == '/'
    ensures AudioPath(uuid) == uuid + ".wav"
    ensures ConfigPath(uuid) == uuid + ".txt"
  {
    assert (uuid + ".wav")[0] == '/';
    assert (uuid + ".txt")[0] == '/';
    PathJoinAbsolute(AudioFilesPath, uuid + ".wav");
    PathJoinAbsolute(TxtFilesPath, uuid + ".txt");
  }

  /** Two different uuids, one of them absolute, can then name the same file. */
  lemma AbsoluteUuidsCollide()
    ensures AudioFilesPath + "/7" != "7"
    ensures AudioPath(AudioFilesPath + "/7") == AudioPath("7")
    ensures ConfigPath(TxtFilesPath + "/7") == ConfigPath("7")
  {
    RelativeUuidPaths("7");
    AbsoluteUuidEscapesDirectory(AudioFilesPath + "/7");
    AbsoluteUuidEscapesDirectory(TxtFilesPath + "/7");
  }

  // ---------------------------------------------------------------------------
  // Newline-separated text
  // ---------------------------------------------------------------------------

  /** `'\n'.join(lines)`: no separator before the first line or after the last. */
  function Join(lines: seq<string>): string {
    if |lines| == 0 then ""
    else if |lines| == 1 then lines[0]
    else lines[0] + "\n" + Join(lines[1..])
  }

  /** `s.split('\n')`: the pieces between newlines, always at least one. */
  function Split(s: string): (lines: seq<string>)
    ensures |lines| >= 1
    ensures forall i :: 0 <= i < |lines| ==> '\n' !in lines[i]
  {
    if |s| == 0 then [""]
    else
      var rest := Split(s[1..]);
      if s[0] == '\n' then [""] + rest
      else [[s[0]] + rest[0]] + rest[1..]
  }

  /** A newline-free prefix is glued to the first piece. */
  lemma {:induction false} SplitPrefix(x: string, t: string)
    requires '\n' !in x
    ensures Split(x + t) == [x + Split(t)[0]] + Split(t)[1..]
  {
    if |x| == 0 {
      assert x + t == t;
      assert x + Split(t)[0] == Split(t)[0];
      assert Split(t) == [Split(t)[0]] + Split(t)[1..];
    } else {
      assert (x + t)[0] == x[0];
      assert (x + t)[1..] == x[1..] + t;
      SplitPrefix(x[1..], t);
      assert [x[0]] + (x[1..] + Split(t)[0]) == x + Split(t)[0];
    }
  }

  /** Splitting the joined lines gives the lines back when none holds a newline. */
  lemma {:induction false} SplitJoin(lines: seq<string>)
    requires |lines| >= 1
    requires forall i :: 0 <= i < |lines| ==> '\n' !in lines[i]
    ensures Split(Join(lines)) == lines
  {
    if |lines| == 1 {
      SplitPrefix(lines[0], "");
      assert lines[0] + "" == lines[0];
    } else {
      var j := Join(lines[1..]);
      assert Join(lines) == lines[0] + ("\n" + j);
      SplitPrefix(lines[0], "\n" + j);
      assert ("\n" + j)[1..] == j;
      SplitJoin(lines[1..]);
      assert Split("\n" + j) == [""] + lines[1..];
      assert lines[0] + "" == lines[0];
    }
  }

  /** Joining the pieces of any text gives the text back. */
  lemma {:induction false} JoinSplit(s: string)
    ensures Join(Split(s)) == s
  {
    if |s| > 0 {
      var rest := Split(s[1..]);
      JoinSplit(s[1..]);
      if s[0] == '\n' {
        assert ([""] + rest)[1..] == rest;
        assert s == "\n" + s[1..];
      } else if |rest| == 1 {
        assert s == [s[0]] + s[1..];
      } else {
        var lines := [[s[0]] + rest[0]] + rest[1..];
        assert lines[1..] == rest[1..];
        assert s == [s[0]] + s[1..];
      }
    }
  }

  /** A joined text ends with its last line. */
  lemma {:induction false} JoinEndsWithLast(lines: seq<string>)
    requires |lines| >= 1
    ensures EndsWith(Join(lines), lines[|lines| - 1])
  {
    if |lines| > 1 {
      JoinEndsWithLast(lines[1..]);
      var j := Join(lines[1..]);
      EndsWithTail(lines[0] + "\n" + j, lines[0] + "\n", j);
      var s := Join(lines);
      var l := lines[|lines| - 1];
      assert s == (lines[0] + "\n") + j;
      assert s[|s| - |l|..] == j[|j| - |l|..];
    }
  }

  // ---------------------------------------------------------------------------
  // The dial-plan document
  // ---------------------------------------------------------------------------

  /** The keys of the nine lines, in the order they are written. */
  const ConfigKeys: seq<string> :=
    ["Channel", "CallerID", "MaxRetries", "RetryTime", "WaitTime", "Context", "Extension", "Priority", "Set"]

  /** The values of the nine lines, in the same order: only Channel, Extension and Set vary. */
  function ConfigValues(phone: string, uuid: string): seq<string> {
    ["SIP/" + OriginNumber + "/" + phone, OriginNumber, "0", "0", "30", "autocall", uuid, "1", "foo=" + uuid]
  }

  /** The nine lines `create_config_file` writes for a phone number and a uuid. */
  function ConfigLines(phone: string, uuid: string): seq<string> {
    [ "Channel:SIP/" + OriginNumber + "/" + phone,
      "CallerID:" + OriginNumber,
      "MaxRetries:0",
      "RetryTime:0",
      "WaitTime:30",
      "Context:autocall",
      "Extension:" + uuid,
      "Priority:1",
      "Set:foo=" + uuid ]
  }

  /** Line `i` is key `i`, a colon, and value `i`. */
  lemma {:induction false} ConfigLinesAreFields(phone: string, uuid: string, i: nat)
    requires i < 9
    ensures ConfigLines(phone, uuid)[i] == ConfigKeys[i] + ":" + ConfigValues(phone, uuid)[i]
  {
  }

  /** The text written to `<uuid>.txt`. */
  function ConfigText(phone: string, uuid: string): string {
    Join(ConfigLines(phone, uuid))
  }

  /** The text of a line before its first `:` (the whole line when it has none). */
  function KeyOf(line: string): (k: string)
    ensures |k| <= |line| && k == line[..|k|]
    ensures ':' !in k
    ensures |k| < |line| ==> line[|k|] == ':'
  {
    if |line| == 0 || line[0] == ':' then ""
    else [line[0]] + KeyOf(line[1..])
  }

  lemma {:induction false} KeyOfField(key: string, value: string)
    requires ':' !in key
    ensures KeyOf(key + ":" + value) == key
  {
    if |key| > 0 {
      assert (key + ":" + value)[1..] == key[1..] + ":" + value;
      KeyOfField(key[1..], value);
      assert [key[0]] + key[1..] == key;
    }
  }

  /** The nine lines carry the nine keys, in the fixed order. */
  lemma {:induction false} ConfigSchema(phone: string, uuid: string)
    ensures |ConfigLines(phone, uuid)| == |ConfigKeys| == 9
    ensures forall i :: 0 <= i < 9 ==> KeyOf(ConfigLines(phone, uuid)[i]) == ConfigKeys[i]
  {
    var lines := ConfigLines(phone, uuid);
    var values := ConfigValues(phone, uuid);
    forall i | 0 <= i < 9
      ensures KeyOf(lines[i]) == ConfigKeys[i]
    {
      ConfigLinesAreFields(phone, uuid, i);
      KeyOfField(ConfigKeys[i], values[i]);
    }
  }

  /** Every line other than Channel, Extension and Set is the same for all inputs. */
  lemma {:induction false} ConfigConstantLines(p1: string, u1: string, p2: string, u2: string)
    ensures forall i :: 0 <= i < 9 && i != 0 && i != 6 && i != 8 ==>
              ConfigLines(p1, u1)[i] == ConfigLines(p2, u2)[i]
  {
  }

  /** What a dialer learns from a dial-plan file: whom to call and which extension to run. */
  datatype DialTarget = DialTarget(phone: string, uuid: string)

  const ChannelPrefix: string := "Channel:SIP/" + OriginNumber + "/"
  const ExtensionPrefix: string := "Extension:"
  const SetPrefix: string := "Set:foo="

  /**
   * Reads a dial-plan file: nine lines, the fixed ones verbatim, Channel
   * carrying the phone number and Extension and Set carrying the same uuid.
   */
  function ParseConfig(text: string): Option<DialTarget> {
    ParseLines(Split(text))
  }

  /** The check `ParseConfig` applies to the lines of the file. */
  function ParseLines(lines: seq<string>): Option<DialTarget> {
    if |lines| == 9
       && StartsWith(lines[0], ChannelPrefix)
       && lines[1] == "CallerID:" + OriginNumber
       && lines[2] == "MaxRetries:0"
       && lines[3] == "RetryTime:0"
       && lines[4] == "WaitTime:30"
       && lines[5] == "Context:autocall"
       && StartsWith(lines[6], ExtensionPrefix)
       && lines[7] == "Priority:1"
       && lines[8] == SetPrefix + lines[6][|ExtensionPrefix|..]
    then Some(DialTarget(lines[0][|ChannelPrefix|..], lines[6][|ExtensionPrefix|..]))
    else None
  }

  /** The nine written lines are accepted as the phone and uuid they were written for. */
  lemma {:induction false} ParseWrittenLines(phone: string, uuid: string)
    ensures ParseLines(ConfigLines(phone, uuid)) == Some(DialTarget(phone, uuid))
  {
    var lines := ConfigLines(phone, uuid);
    assert lines[0] == ChannelPrefix + phone;
    assert lines[0][|ChannelPrefix|..] == phone;
    assert lines[6][|ExtensionPrefix|..] == uuid;
  }

  /**
   * The written file reads back as the phone and uuid it was written for; it
   * has exactly nine lines and no trailing newline.
   */
  lemma {:induction false} ConfigRoundTrip(phone: string, uuid: string)
    requires '\n' !in phone && '\n' !in uuid
    ensures |Split(ConfigText(phone, uuid))| == 9
    ensures ParseConfig(ConfigText(phone, uuid)) == Some(DialTarget(phone, uuid))
    ensures !EndsWith(ConfigText(phone, uuid), "\n")
  {
    var lines := ConfigLines(phone, uuid);
    assert forall i :: 0 <= i < 9 ==> '\n' !in lines[i];
    SplitJoin(lines);
    ParseWrittenLines(phone, uuid);
    JoinEndsWithLast(lines);
    var t, last := ConfigText(phone, uuid), lines[8];
    assert t[|t| - 1] == last[|last| - 1] != '\n';
    assert t[|t| - 1..] != "\n";
  }

  /** A text the model's reader accepts is exactly the text written for what it read. */
  lemma {:induction false} ConfigCanonical(text: string)
    ensures ParseConfig(text).Some? ==>
              ConfigText(ParseConfig(text).value.phone, ParseConfig(text).value.uuid) == text
  {
    if ParseConfig(text).Some? {
      var lines := Split(text);
      var d := ParseConfig(text).value;
      JoinSplit(text);
      assert lines[0] == ChannelPrefix + d.phone;
      assert lines[6] == ExtensionPrefix + d.uuid;
      assert lines == ConfigLines(d.phone, d.uuid);
    }
  }
}
