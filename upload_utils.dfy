/**
 * Shared upload helpers of the connectors: the MIME type guessed from a file
 * name, the size check, the progress events a handler reports, and the unit
 * a byte count is shown in.
 */
module UploadUtils {
  import opened Wrappers
  import opened Strings

  // ---------------------------------------------------------------- MIME types

  const OctetStream := "application/octet-stream"

  /** The extensions `getMimeType` knows, lower-case, and their types. */
  const MimeTypes: map<string, string> := map[
    "txt" := "text/plain",
    "json" := "application/json",
    "pdf" := "application/pdf",
    "jpg" := "image/jpeg",
    "jpeg" := "image/jpeg",
    "png" := "image/png",
    "gif" := "image/gif",
    "mp4" := "video/mp4",
    "mp3" := "audio/mpeg",
    "zip" := "application/zip",
    "doc" := "application/msword",
    "docx" := "application/vnd.openxmlformats-officedocument.wordprocessingml.document",
    "xls" := "application/vnd.ms-excel",
    "xlsx" := "application/vnd.openxmlformats-officedocument.spreadsheetml.sheet"]

  /** The extension `getMimeType` looks up: the text after the last dot, lower-cased (the whole name when it has no dot). */
  function Extension(fileName: string): (ext: string)
    ensures '.' !in ext
  {
    ToLower(LastSegment(fileName, '.'))
  }

  /** `getMimeType`: the type of a known extension, otherwise `application/octet-stream`. */
  function GetMimeType(fileName: string): (mime: string)
    ensures Extension(fileName) in MimeTypes ==> mime == MimeTypes[Extension(fileName)]
    ensures Extension(fileName) !in MimeTypes ==> mime == OctetStream
  {
    var ext := Extension(fileName);
    if ext in MimeTypes then MimeTypes[ext] else OctetStream
  }

  /** A name ending in a dot and an extension gets that extension's type, whatever the case of its letters. */
  lemma MimeTypeByExtension(base: string, ext: string)
    requires '.' !in ext
    ensures GetMimeType(base + "." + ext) == if ToLower(ext) in MimeTypes then MimeTypes[ToLower(ext)] else OctetStream
  {
    assert base + "." + ext == base + ['.'] + ext;
    LastSegmentAfter(base, '.', ext);
  }

  /** Upper-casing one more character appends its upper case. */
  lemma ToUpperSnoc(a: string, c: char)
    ensures ToUpper(a + [c]) == ToUpper(a) + [UpperChar(c)]
  {
  }

  /** The last segment of a name with one more character. */
  lemma LastSegmentSnoc(s: string, c: char, sep: char)
    ensures LastSegment(s + [c], sep) == if c == sep then [] else LastSegment(s, sep) + [c]
  {
    assert (s + [c])[..|s|] == s;
  }

  /** The last segment of the upper-cased name is the upper-cased last segment. */
  lemma {:induction false} LastSegmentUpper(s: string)
    ensures LastSegment(ToUpper(s), '.') == ToUpper(LastSegment(s, '.'))
  {
    if s != [] {
      var init, c := s[..|s| - 1], s[|s| - 1];
      assert s == init + [c];
      ToUpperSnoc(init, c);
      LastSegmentSnoc(ToUpper(init), UpperChar(c), '.');
      LastSegmentSnoc(init, c, '.');
      LastSegmentUpper(init);
      if c != '.' {
        ToUpperSnoc(LastSegment(init, '.'), c);
      }
    }
  }

  /** Lower-casing forgets an upper-casing that came before it. */
  lemma LowerOfUpper(s: string)
    ensures ToLower(ToUpper(s)) == ToLower(s)
  {
  }

  /** The lookup ignores case: an upper-cased name gets the same type. */
  lemma MimeTypeIgnoresCase(fileName: string)
    ensures GetMimeType(ToUpper(fileName)) == GetMimeType(fileName)
  {
    LastSegmentUpper(fileName);
    LowerOfUpper(LastSegment(fileName, '.'));
  }

  // ---------------------------------------------------------------- size check

  /** `DEFAULT_CONFIG.MAX_FILE_SIZE`: 2 GiB. */
  const MaxFileSize: nat := 2 * 1024 * 1024 * 1024

  /** `validateFileSize`: the size is within the limit, 2 GiB unless one is given. */
  function ValidateFileSize(size: nat, maxSize: Option<int>): (ok: bool)
    ensures maxSize.None? ==> (ok <==> size <= 2147483648)
    ensures maxSize.Some? ==> (ok <==> size <= maxSize.value)
  {
    size <= maxSize.GetOr(MaxFileSize)
  }

  /** A size accepted under one limit is accepted under any larger limit. */
  lemma ValidateFileSizeMonotone(size: nat, smaller: int, larger: int)
    requires smaller <= larger && ValidateFileSize(size, Some(smaller))
    ensures ValidateFileSize(size, Some(larger))
  {
  }

  // ---------------------------------------------------------------- progress

  /** What a progress handler passes to its callback. */
  datatype Progress = Progress(percentage: int, text: string, color: string)

  /** The four calls of the handler `createProgressHandler` returns; `None` is an omitted text. */
  datatype ProgressEvent =
    | Start(startText: Option<string>)
    | Update(percentage: int, updateText: string)
    | Complete(completeText: Option<string>)
    | Error(errorText: Option<string>)

  /** The report the handler makes for one call. */
  function Report(event: ProgressEvent): (p: Progress)
    ensures event.Start? ==> p == Progress(0, event.startText.GetOr("Starting upload..."), "primary")
    ensures event.Update? ==> p == Progress(event.percentage, event.updateText, "primary")
    ensures event.Complete? ==> p == Progress(100, event.completeText.GetOr("Upload complete!"), "success")
    ensures event.Error? ==> p == Progress(100, event.errorText.GetOr("Upload failed!"), "error")
  {
    match event
    case Start(text) => Progress(0, text.GetOr("Starting upload..."), "primary")
    case Update(percentage, text) => Progress(percentage, text, "primary")
    case Complete(text) => Progress(100, text.GetOr("Upload complete!"), "success")
    case Error(text) => Progress(100, text.GetOr("Upload failed!"), "error")
  }

  /** The colour tells the outcome: only completion is "success", only failure is "error", and both end at 100. */
  lemma ReportColour(event: ProgressEvent)
    ensures Report(event).color == "primary" <==> event.Start? || event.Update?
    ensures Report(event).color == "success" <==> event.Complete?
    ensures Report(event).color == "error" <==> event.Error?
    ensures event.Complete? || event.Error? ==> Report(event).percentage == 100
  {
  }

  /** A text given to any call, even an empty one, is the text reported. */
  lemma ReportKeepsGivenText(event: ProgressEvent, text: string)
    requires event == Start(Some(text)) || event == Complete(Some(text)) || event == Error(Some(text))
      || (event.Update? && event.updateText == text)
    ensures Report(event).text == text
  {
  }

  // ---------------------------------------------------------------- byte counts

  /** `Math.pow(b, e)` on naturals. */
  function Pow(b: nat, e: nat): nat {
    if e == 0 then 1 else b * Pow(b, e - 1)
  }

  /** `sizes` in `formatBytes`. */
  const Sizes: seq<string> := ["B", "KB", "MB", "GB", "TB"]

  /** `Math.floor(Math.log(bytes) / Math.log(1024))` in exact arithmetic: the largest power of 1024 not above `bytes`. */
  function UnitIndex(bytes: nat): (i: nat)
    requires bytes >= 1
    ensures Pow(1024, i) <= bytes < Pow(1024, i + 1)
  {
    if bytes < 1024 then 0
    else
      var i := UnitIndex(bytes / 1024);
      assert Pow(1024, i + 1) == 1024 * Pow(1024, i);
      assert Pow(1024, i + 2) == 1024 * Pow(1024, i + 1);
      assert bytes / 1024 + 1 <= Pow(1024, i + 1);
      1 + i
  }

  /**
   * `formatBytes`: zero is the text "0 B"; any other count is scaled by the
   * power of 1024 below it and printed with that power's unit (`None` where
   * `sizes[i]` is undefined).
   */
  datatype FormattedSize =
    | Exact(text: string)
    | Scaled(bytes: nat, divisor: nat, unit: Option<string>)

  function FormatBytes(bytes: nat): (f: FormattedSize)
    ensures f.Exact? <==> bytes == 0
    ensures f.Exact? ==> f.text == "0 B"
    ensures f.Scaled? ==> f.bytes == bytes && 0 < f.divisor <= bytes < 1024 * f.divisor
    ensures f.Scaled? ==> (f.unit.Some? <==> bytes < Pow(1024, 5))
  {
    if bytes == 0 then Exact("0 B")
    else
      var i := UnitIndex(bytes);
      PowMonotone(i, 5);
      PowMonotone(5, i);
      Scaled(bytes, Pow(1024, i), if i < |Sizes| then Some(Sizes[i]) else None)
  }

  /** Powers of 1024 grow with the exponent. */
  lemma {:induction false} PowMonotone(a: nat, b: nat)
    ensures a <= b ==> Pow(1024, a) <= Pow(1024, b)
    ensures a < b ==> Pow(1024, a + 1) <= Pow(1024, b)
    decreases b
  {
    if a < b {
      PowMonotone(a, b - 1);
    }
  }

  /** Counts below 1024 are shown in bytes, and each further factor of 1024 moves one unit up. */
  lemma FormatBytesUnits(bytes: nat)
    ensures 1 <= bytes < 1024 ==> FormatBytes(bytes).unit == Some("B")
    ensures 1024 <= bytes < 1024 * 1024 ==> FormatBytes(bytes).unit == Some("KB")
    ensures 1024 * 1024 <= bytes < 1024 * 1024 * 1024 ==> FormatBytes(bytes).unit == Some("MB")
  {
    if 1 <= bytes {
      var i := UnitIndex(bytes);
      assert Pow(1024, 1) == 1024;
      assert Pow(1024, 2) == 1024 * 1024;
      assert Pow(1024, 3) == 1024 * 1024 * 1024;
      PowMonotone(i, 1);
      PowMonotone(i, 2);
      PowMonotone(1, i);
      PowMonotone(2, i);
      PowMonotone(3, i);
    }
  }
}
