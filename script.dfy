/**
 * The interface of the `text_to_speech.py` script: the command-line argument
 * after JSON decoding, the request the entry point extracts from it, and the
 * one JSON object the script prints.
 */
module Script {
  import opened Common
  import opened DialPlan

  /** `sys.argv[1]` after `json.loads`: not JSON, JSON but not an object, or an object. */
  datatype Argument = Malformed | NonObject | Object(fields: map<string, string>)

  datatype Request = Request(message: string, phone: string, uuid: string)

  datatype InputError = NoInput | DecodeError | NotAnObject | MissingField

  const RequiredKeys: set<string> := {"message", "phone", "uuid"}

  /** The fixed part of each entry-point error message (the exception text and traceback follow it). */
  function InputErrorMessage(e: InputError): string {
    match e
    case NoInput => "No input provided"
    case DecodeError => "JSON decode error: "
    case NotAnObject => "Error processing input: Input must be a JSON object"
    case MissingField => "Error processing input: Input must contain 'message', 'phone', and 'uuid' fields"
  }

  /**
   * The checks of the `__main__` block on the arguments after the script name:
   * there must be one, it must decode, decode to an object, and hold all three
   * keys; the values are passed on unchanged.
   */
  function ParseArgs(args: seq<Argument>): (r: Result<Request, InputError>)
    ensures r.Ok? <==> |args| > 0 && args[0].Object? && RequiredKeys <= args[0].fields.Keys
    ensures r.Ok? ==> r.value.message == args[0].fields["message"]
    ensures r.Ok? ==> r.value.phone == args[0].fields["phone"]
    ensures r.Ok? ==> r.value.uuid == args[0].fields["uuid"]
    ensures r == Err(NoInput) <==> |args| == 0
    ensures r == Err(DecodeError) <==> |args| > 0 && args[0].Malformed?
    ensures r == Err(NotAnObject) <==> |args| > 0 && args[0].NonObject?
  {
    if |args| == 0 then Err(NoInput)
    else
      match args[0]
      case Malformed => Err(DecodeError)
      case NonObject => Err(NotAnObject)
      case Object(fields) =>
        if "message" in fields && "phone" in fields && "uuid" in fields
        then Ok(Request(fields["message"], fields["phone"], fields["uuid"]))
        else Err(MissingField)
  }

  /** Only the first argument after the script name is looked at. */
  lemma {:induction false} ExtraArgumentsIgnored(args: seq<Argument>, extra: seq<Argument>)
    requires |args| > 0
    ensures ParseArgs(args + extra) == ParseArgs(args)
  {
    assert (args + extra)[0] == args[0];
  }

  /** Keys the script does not know are ignored. */
  lemma {:induction false} ExtraKeysIgnored(fields: map<string, string>, key: string, value: string)
    requires key !in RequiredKeys
    ensures ParseArgs([Object(fields[key := value])]) == ParseArgs([Object(fields)])
  {
  }

  /** The object the script prints: a success with the four names, or an error with a message. */
  datatype Response =
    | Success(audioFile: string, configFile: string, audioPath: string, configPath: string)
    | Failure(message: string)

  const StatusSuccess: string := "success"
  const StatusError: string := "error"

  /** The JSON object `json.dumps` prints for a response, as a map from keys to string values. */
  function ResponseObject(r: Response): map<string, string> {
    match r
    case Success(audioFile, configFile, audioPath, configPath) =>
      map["status" := StatusSuccess, "audio_file" := audioFile, "config_file" := configFile,
          "audio_path" := audioPath, "config_path" := configPath]
    case Failure(message) =>
      map["status" := StatusError, "message" := message]
  }

  /** The success response of a request: both names come from the uuid alone. */
  function SuccessFor(uuid: string): (r: Response)
    ensures r.Success? && EndsWith(r.audioFile, ".wav") && EndsWith(r.configFile, ".txt")
    ensures r.audioPath != r.configPath
  {
    AudioAndConfigPathsDiffer(uuid, uuid);
    OutputSuffixes(uuid);
    Success(AudioFileName(uuid), ConfigFileName(uuid), AudioPath(uuid), ConfigPath(uuid))
  }

  /** The printed object always carries a status, and it is "success" exactly for a success. */
  lemma {:induction false} ResponseObjectStatus(r: Response)
    ensures "status" in ResponseObject(r)
    ensures ResponseObject(r)["status"] == StatusSuccess <==> r.Success?
    ensures ResponseObject(r)["status"] == StatusError <==> r.Failure?
    ensures r.Failure? ==> ResponseObject(r).Keys == {"status", "message"}
    ensures r.Success? ==> ResponseObject(r).Keys == {"status", "audio_file", "config_file", "audio_path", "config_path"}
  {
  }
}
