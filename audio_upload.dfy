/**
 * What the two audio pages (call-fraud detection and AI-voice detection)
 * share: the 10 MiB size rule for a picked file, the extraction of the
 * base64 payload from the file's `data:` URL, and the page state machine
 * around one analysis. The browser's file reader is not modelled: the
 * data URL it produces, or its failure, is an input.
 */
module AudioUpload {
  import opened Wrappers
  import opened JsStrings

  /** A picked audio file: its size in bytes and its MIME type. */
  datatype AudioFile = AudioFile(size: nat, mimeType: string)

  const MaxAudioBytes: nat := 10 * 1024 * 1024

  const TooLarge := "File is too large. Please select an audio file under 10MB."
  const AnalysisFailed := "Failed to analyze the audio. Please try again."

  /** A file is refused only when it is larger than the limit. */
  predicate Accepted(f: AudioFile) {
    !(f.size > MaxAudioBytes)
  }

  /** The limit is 10 MiB, and a file of exactly that size is taken. */
  lemma LimitIsTenMebibytes(f: AudioFile)
    ensures MaxAudioBytes == 10485760
    ensures Accepted(f) <==> f.size <= 10485760
  {
  }

  /** `split(',')[1]`: the text between the first comma and the next one
      (or the end). Without a comma the element is undefined. */
  function DataPart(url: string): (r: Option<string>)
    ensures r.None? <==> ',' !in url
    ensures r.Some? ==> ',' !in r.value
    ensures r.Some? ==> var start := |BeforeFirst(url, ',')| + 1;
      && start + |r.value| <= |url|
      && url[start..start + |r.value|] == r.value
      && (start + |r.value| == |url| || url[start + |r.value|] == ',')
  {
    var parts := Split(url, ',');
    SplitCount(url, ',');
    if |parts| > 1 then
      var tail := Join(parts[1..], [',']);
      assert url == parts[0] + [','] + tail;
      assert |parts[1..]| == 1 ==> tail == parts[1];
      assert |parts[1..]| > 1 ==> tail == parts[1] + [','] + Join(parts[2..], [',']) by {
        assert parts[1..][1..] == parts[2..];
      }
      assert url[|parts[0]| + 1..] == tail;
      Some(parts[1])
    else
      None
  }

  /** The element after the first comma is the field up to the second. */
  lemma DataPartField(head: string, field: string, rest: string)
    requires ',' !in head && ',' !in field
    ensures DataPart(head + "," + field) == Some(field)
    ensures DataPart(head + "," + field + "," + rest) == Some(field)
  {
    SplitAtSeparator(head, ',', field);
    SplitNoSeparator(field, ',');
    assert head + "," + field == head + [','] + field;
    SplitAtSeparator(head, ',', field + [','] + rest);
    SplitAtSeparator(field, ',', rest);
    assert head + "," + field + "," + rest == head + [','] + (field + [','] + rest);
  }

  /** A character of the base64 alphabet, padding included. */
  predicate IsBase64Char(c: char) {
    'A' <= c <= 'Z' || 'a' <= c <= 'z' || IsDigit(c) || c == '+' || c == '/' || c == '='
  }

  predicate IsBase64(s: string) {
    forall i :: 0 <= i < |s| ==> IsBase64Char(s[i])
  }

  /** The URL the file reader produces: `data:<mediatype>;base64,<data>`
      (section 3 of RFC 2397). */
  function DataUrl(mediatype: string, payload: string): (url: string)
    ensures StartsWith(url, "data:")
    ensures |url| == |mediatype| + |payload| + 13
    ensures url[|url| - |payload|..] == payload
  {
    "data:" + mediatype + ";base64," + payload
  }

  /** The payload sent is exactly the base64 data the reader encoded, as
      long as the media type has no comma. */
  lemma DataUrlRoundTrip(mediatype: string, payload: string)
    requires ',' !in mediatype && IsBase64(payload)
    ensures DataPart(DataUrl(mediatype, payload)) == Some(payload)
  {
    assert ',' !in payload by {
      forall i | 0 <= i < |payload| ensures payload[i] != ',' {
        assert IsBase64Char(payload[i]);
      }
    }
    var head := "data:" + mediatype + ";base64";
    assert ',' !in head by {
      forall i | 0 <= i < |head| ensures head[i] != ',' {
        if i < 5 {
          assert head[i] == "data:"[i];
        } else if i < 5 + |mediatype| {
          assert head[i] == mediatype[i - 5];
        } else {
          assert head[i] == ";base64"[i - 5 - |mediatype|];
        }
      }
    }
    assert DataUrl(mediatype, payload) == head + "," + payload;
    DataPartField(head, payload, "");
  }

  /** What is sent to the service: the payload (`None` where it is
      undefined) and the file's MIME type. */
  datatype AudioRequest = AudioRequest(data: Option<string>, mimeType: string)

  /**
   * One audio page: the selected file, the loading flag, the last result
   * and the message. `R` is the page's result record.
   */
  class AudioPage<R> {
    var audioFile: Option<AudioFile>
    var isLoading: bool
    var result: Option<R>
    var error: Option<string>

    constructor ()
      ensures audioFile == None && !isLoading && result == None && error == None
    {
      audioFile := None;
      isLoading := false;
      result := None;
      error := None;
    }

    /** `handleFileChange`: no file changes nothing; a file over the limit
        sets the message and keeps the old selection and result; any other
        file becomes the selection with result and message cleared. */
    method ChooseFile(picked: Option<AudioFile>)
      modifies this`audioFile, this`result, this`error
      ensures picked.None? ==> audioFile == old(audioFile) && result == old(result) && error == old(error)
      ensures picked.Some? && !Accepted(picked.value)
        ==> error == Some(TooLarge) && audioFile == old(audioFile) && result == old(result)
      ensures picked.Some? && Accepted(picked.value)
        ==> audioFile == picked && result == None && error == None
    {
      if picked.Some? {
        if picked.value.size > MaxAudioBytes {
          error := Some(TooLarge);
          return;
        }
        audioFile := picked;
        result := None;
        error := None;
      }
    }

    /** `handleDetect`, up to reading the file: without a file nothing
        happens; otherwise loading starts with result and message cleared,
        and the file being read is returned. */
    method Detect() returns (reading: Option<AudioFile>)
      modifies this`isLoading, this`result, this`error
      ensures reading == audioFile
      ensures reading.None? ==> isLoading == old(isLoading) && result == old(result) && error == old(error)
      ensures reading.Some? ==> isLoading && result == None && error == None
    {
      if audioFile.None? {
        return None;
      }
      isLoading := true;
      result := None;
      error := None;
      reading := audioFile;
    }

    /** The reader settles: a failure sets the message and ends loading;
        a data URL becomes the request for the file being read. */
    method FileRead(file: AudioFile, read: Option<string>) returns (request: Option<AudioRequest>)
      modifies this`error, this`isLoading
      ensures read.None? ==> request.None? && error == Some(AnalysisFailed) && !isLoading
      ensures read.Some? ==> request == Some(AudioRequest(DataPart(read.value), file.mimeType))
      ensures read.Some? ==> error == old(error) && isLoading == old(isLoading)
    {
      if read.None? {
        error := Some(AnalysisFailed);
        isLoading := false;
        return None;
      }
      request := Some(AudioRequest(DataPart(read.value), file.mimeType));
    }

    /** The analysis returns: its record is stored and loading ends. */
    method AnalysisArrived(analysis: R)
      modifies this`result, this`isLoading
      ensures result == Some(analysis) && !isLoading
    {
      result := Some(analysis);
      isLoading := false;
    }
  }
}
