/**
 * Model provisioning: the GGUF model ships as an APK asset and is copied into the app's
 * private storage before the native library loads it. An extracted copy is reused when
 * it is valid and its sidecar meta record still describes the current asset; otherwise
 * the copy is replaced, with progress reported after each read of at most 8192 bytes.
 *
 * The file system is a map from absolute path to file bytes; the asset is an immutable
 * input whose descriptor length may be unavailable.
 */
module AssetProvisioning {
  import opened Wrappers
  import opened Text

  newtype byte = x: int | 0 <= x < 256

  const MODEL_ASSET_PATH: string := "models/gemma-3-270m-it-qat-Q5_K_M.gguf"
  const MODEL_FILE_NAME: string := "crispify_model.gguf"
  const MODEL_DIR: string := "models"
  const META_FILE_NAME: string := "crispify_model.meta"
  const MIN_MODEL_SIZE: nat := 100_000_000
  const COPY_BUFFER_SIZE: nat := 8192
  const ESTIMATED_ASSET_SIZE: nat := 200_000_000

  /** "GGUF" in ASCII. */
  const GGUF_MAGIC: seq<byte> := [0x47, 0x47, 0x55, 0x46]

  /**
   * The packaged asset: missing (opening it fails with a message), or its bytes, whether
   * its descriptor length is available, and the sizes its stream's successive reads
   * return (see `NextTotal`).
   */
  datatype Asset = Missing(openError: string) | Present(content: seq<byte>, lengthKnown: bool, readSizes: seq<nat>)
  {
    /** `openFd(MODEL_ASSET_PATH).length`, or -1 when no descriptor can be opened. */
    function FdLength(): int {
      if Present? && lengthKnown then |content| else -1
    }

    /** The size the copy loop divides by: the descriptor length, or 200,000,000 as an estimate. */
    function ProgressSize(): nat
      requires Present?
    {
      if lengthKnown then |content| else ESTIMATED_ASSET_SIZE
    }
  }

  datatype IoError = IOException(message: string)

  // ---------------------------------------------------------------------------
  // Text encoding of the meta record
  // ---------------------------------------------------------------------------

  predicate IsAscii(s: string) {
    forall i :: 0 <= i < |s| ==> s[i] as int < 128
  }

  /** `writeText` (UTF-8) of ASCII text: one byte per character. */
  function EncodeAscii(s: string): (bytes: seq<byte>)
    requires IsAscii(s)
    ensures |bytes| == |s|
  {
    seq(|s|, i requires 0 <= i < |s| => s[i] as int as byte)
  }

  /** `readText` of bytes: ASCII bytes as themselves, any other byte as U+FFFD. */
  function DecodeText(bytes: seq<byte>): (s: string)
    ensures |s| == |bytes|
  {
    seq(|bytes|, i requires 0 <= i < |bytes| => if bytes[i] < 128 then bytes[i] as int as char else 0xFFFD as char)
  }

  lemma DecodeEncode(s: string)
    requires IsAscii(s)
    ensures DecodeText(EncodeAscii(s)) == s
  {
  }

  /**
   * The meta record written after a copy, for a descriptor length `assetSize`: the
   * lines "assetPath: <path>" and "assetSize: <length>", each ended by a line feed.
   */
  function MetaText(assetSize: int): string {
    PathLine() + "\n" + SizeLine(assetSize) + "\n"
  }

  lemma {:induction false} IntToStringAscii(n: int)
    ensures IsAscii(IntToString(n)) && NoLineBreak(IntToString(n))
    ensures |IntToString(n)| > 0 && !IsWhitespace(IntToString(n)[0])
    ensures !IsWhitespace(IntToString(n)[|IntToString(n)| - 1])
  {
    var d := NatToString(if n < 0 then -n else n);
    assert IsDigit(d[0]) && IsDigit(d[|d| - 1]);
    if n < 0 {
      assert IntToString(n) == "-" + d;
    }
  }

  lemma AsciiConcat(a: string, b: string)
    requires IsAscii(a) && IsAscii(b)
    ensures IsAscii(a + b)
  {
    assert forall i :: |a| <= i < |a + b| ==> (a + b)[i] == b[i - |a|];
  }

  lemma MetaTextAscii(assetSize: int)
    ensures IsAscii(MetaText(assetSize))
  {
    IntToStringAscii(assetSize);
    var path := PathLine();
    var size := SizeLine(assetSize);
    assert IsAscii("assetPath" + ": ");
    assert IsAscii(MODEL_ASSET_PATH);
    AsciiConcat("assetPath" + ": ", MODEL_ASSET_PATH);
    assert IsAscii("assetSize" + ": ");
    AsciiConcat("assetSize" + ": ", IntToString(assetSize));
    assert IsAscii("\n");
    AsciiConcat(path, "\n");
    AsciiConcat(path + "\n", size);
    AsciiConcat(path + "\n" + size, "\n");
  }

  function MetaBytes(assetSize: int): seq<byte> {
    MetaTextAscii(assetSize);
    EncodeAscii(MetaText(assetSize))
  }

  // ---------------------------------------------------------------------------
  // Parsing the meta record and the reuse decision
  // ---------------------------------------------------------------------------

  datatype MetaRecord = MetaRecord(assetPath: string, assetSize: Option<int>)

  /** `(line ?: "").substringAfter(":", "").trim()` of the first line with `prefix`. */
  function FieldOf(lines: seq<string>, prefix: string): string {
    var line := match FirstStartingWith(lines, prefix) case Some(l) => l case None => "";
    Trim(SubstringAfter(line, ":", ""))
  }

  function ParseMeta(meta: string): MetaRecord {
    var lines := Lines(meta);
    MetaRecord(FieldOf(lines, "assetPath:"), ToLongOrNull(FieldOf(lines, "assetSize:")))
  }

  /** What the meta read produced: its text, "" when there is no meta file, None when reading threw. */
  function MetaRead(files: map<string, seq<byte>>, metaPath: string, readFails: bool): Option<string> {
    if metaPath !in files then Some("")
    else if readFails then None
    else Some(DecodeText(files[metaPath]))
  }

  /**
   * `needsReplace`: the meta names another asset, or records a size other than the known
   * asset size, or the file length differs from the known asset size; or reading threw.
   */
  function NeedsReplace(meta: Option<string>, assetSize: int, fileLength: int): bool {
    match meta
    case None => true
    case Some(text) =>
      var record := ParseMeta(text);
      var metaSize := match record.assetSize case Some(n) => n case None => -1;
      var assetMismatch := |record.assetPath| > 0 && record.assetPath != MODEL_ASSET_PATH;
      var sizeMismatch := assetSize > 0 && metaSize > 0 && record.assetSize != Some(assetSize);
      var fileSizeMismatch := assetSize > 0 && fileLength != assetSize;
      assetMismatch || sizeMismatch || fileSizeMismatch
  }

  /** The value of a `key: value` line, as `substringAfter(":", "").trim()` reads it. */
  lemma FieldValue(key: string, value: string)
    requires ':' !in key
    requires value != [] && !IsWhitespace(value[0]) && !IsWhitespace(value[|value| - 1])
    ensures Trim(SubstringAfter(key + ": " + value, ":", "")) == value
  {
    assert key + ": " + value == key + ":" + (" " + value);
    SubstringAfterKey(key, " " + value);
    TrimPadded(" ", value, "");
    assert " " + value + "" == " " + value;
  }

  function PathLine(): string {
    "assetPath" + ": " + MODEL_ASSET_PATH
  }

  function SizeLine(assetSize: int): string {
    "assetSize" + ": " + IntToString(assetSize)
  }

  lemma PathField()
    ensures Trim(SubstringAfter(PathLine(), ":", "")) == MODEL_ASSET_PATH
  {
    assert MODEL_ASSET_PATH[0] == 'm' && MODEL_ASSET_PATH[|MODEL_ASSET_PATH| - 1] == 'f';
    FieldValue("assetPath", MODEL_ASSET_PATH);
  }

  lemma SizeField(assetSize: int)
    ensures Trim(SubstringAfter(SizeLine(assetSize), ":", "")) == IntToString(assetSize)
  {
    IntToStringAscii(assetSize);
    FieldValue("assetSize", IntToString(assetSize));
  }

  lemma PathLineUnbroken()
    ensures NoLineBreak(PathLine())
  {
    assert NoLineBreak("assetPath" + ": ");
    assert NoLineBreak(MODEL_ASSET_PATH);
    NoLineBreakConcat("assetPath" + ": ", MODEL_ASSET_PATH);
  }

  lemma SizeLineUnbroken(assetSize: int)
    ensures NoLineBreak(SizeLine(assetSize))
  {
    IntToStringAscii(assetSize);
    assert NoLineBreak("assetSize" + ": ");
    NoLineBreakConcat("assetSize" + ": ", IntToString(assetSize));
  }

  lemma MetaLines(assetSize: int)
    ensures Lines(MetaText(assetSize)) == [PathLine(), SizeLine(assetSize), ""]
  {
    PathLineUnbroken();
    SizeLineUnbroken(assetSize);
    LinesOfTwo(PathLine(), SizeLine(assetSize));
  }

  lemma MetaFields(assetSize: int)
    ensures FieldOf([PathLine(), SizeLine(assetSize), ""], "assetPath:") == MODEL_ASSET_PATH
    ensures FieldOf([PathLine(), SizeLine(assetSize), ""], "assetSize:") == IntToString(assetSize)
  {
    var lines := [PathLine(), SizeLine(assetSize), ""];
    assert PathLine()[..10] == "assetPath:";
    assert FirstStartingWith(lines, "assetPath:") == Some(PathLine());
    assert PathLine()[..10] != "assetSize:" by {
      assert PathLine()[5] != "assetSize:"[5];
    }
    assert SizeLine(assetSize)[..10] == "assetSize:";
    assert FirstStartingWith(lines, "assetSize:") == Some(SizeLine(assetSize));
    PathField();
    SizeField(assetSize);
  }

  /** Parsing the record the copy writes gives back the asset path and the size written. */
  lemma MetaRoundTrip(assetSize: int)
    requires LONG_MIN <= assetSize <= LONG_MAX
    ensures ParseMeta(MetaText(assetSize)) == MetaRecord(MODEL_ASSET_PATH, Some(assetSize))
  {
    MetaLines(assetSize);
    MetaFields(assetSize);
    LongRoundTrip(assetSize);
  }

  /** A record that matches the asset and a file of the asset's length leave nothing to replace. */
  lemma FreshMetaNoReplace(assetSize: int, fileLength: int)
    requires LONG_MIN <= assetSize <= LONG_MAX
    requires assetSize <= 0 || fileLength == assetSize
    ensures !NeedsReplace(Some(MetaText(assetSize)), assetSize, fileLength)
  {
    MetaRoundTrip(assetSize);
  }

  /** A missing meta file blocks reuse only through the file-length check. */
  lemma NoMetaFile(assetSize: int, fileLength: int)
    ensures NeedsReplace(Some(""), assetSize, fileLength) <==> assetSize > 0 && fileLength != assetSize
  {
    assert Lines("") == [""];
    assert !StartsWith("", "assetPath:") && !StartsWith("", "assetSize:");
    assert FieldOf([""], "assetPath:") == "";
  }

  /** A record of another size than the known asset size forces a replacement. */
  lemma ChangedAssetNeedsReplace(recorded: int, assetSize: int, fileLength: int)
    requires 0 < recorded <= LONG_MAX && 0 < assetSize && recorded != assetSize
    ensures NeedsReplace(Some(MetaText(recorded)), assetSize, fileLength)
  {
    MetaRoundTrip(recorded);
  }

  /** An unreadable meta file forces a replacement. */
  lemma UnreadableMetaNeedsReplace(assetSize: int, fileLength: int)
    ensures NeedsReplace(None, assetSize, fileLength)
  {
  }

  // ---------------------------------------------------------------------------
  // The copy loop's progress reports
  // ---------------------------------------------------------------------------

  /** `coerceIn(0f, 1f)`. */
  function Clamp(x: real): (r: real)
    ensures 0.0 <= r <= 1.0
    ensures 0.0 <= x <= 1.0 ==> r == x
  {
    if x < 0.0 then 0.0 else if x > 1.0 then 1.0 else x
  }

  /** The size the stream picks for its next read: the schedule's next entry, or a full buffer once it is spent. */
  function NextAsk(readSizes: seq<nat>): nat {
    if readSizes == [] then COPY_BUFFER_SIZE else readSizes[0]
  }

  function LaterReads(readSizes: seq<nat>): seq<nat> {
    if readSizes == [] then [] else readSizes[1..]
  }

  /**
   * The byte count after one more `read(buffer)` before the end of the stream: the read
   * returns at least one byte and at most min(8192, remaining); `ask` is the stream's
   * pick, taken into that range.
   */
  function NextTotal(total: nat, length: nat, ask: nat): (t: nat)
    requires total < length
    ensures total < t <= length && t - total <= COPY_BUFFER_SIZE
    ensures 1 <= ask <= COPY_BUFFER_SIZE && total + ask <= length ==> t == total + ask
    ensures ask >= COPY_BUFFER_SIZE ==> t == (if length - total < COPY_BUFFER_SIZE then length else total + COPY_BUFFER_SIZE)
  {
    var n := if ask < 1 then 1 else if ask > COPY_BUFFER_SIZE then COPY_BUFFER_SIZE else ask;
    if length - total < n then length else total + n
  }

  /**
   * The values the loop reports once `total` bytes are copied and the stream's reads
   * follow `readSizes`: clamp(written / size) after each read.
   */
  function CopyProgressFrom(total: nat, length: nat, size: nat, readSizes: seq<nat>): (ps: seq<real>)
    requires total <= length && (total == length || size > 0)
    decreases length - total
  {
    if total == length then []
    else
      var t := NextTotal(total, length, NextAsk(readSizes));
      [Clamp(t as real / size as real)] + CopyProgressFrom(t, length, size, LaterReads(readSizes))
  }

  predicate NonDecreasing(ps: seq<real>) {
    forall i, j :: 0 <= i < j < |ps| ==> ps[i] <= ps[j]
  }

  lemma ClampMonotone(x: real, y: real)
    requires x <= y
    ensures Clamp(x) <= Clamp(y)
  {
  }

  lemma DivMonotone(a: real, b: real, size: real)
    requires a <= b && size > 0.0
    ensures a / size <= b / size
  {
    assert b / size - a / size == (b - a) / size;
  }

  /** Every later report is at least clamp(total / size). */
  lemma {:induction false} CopyProgressAbove(total: nat, length: nat, size: nat, readSizes: seq<nat>)
    requires total <= length && size > 0
    ensures forall p :: p in CopyProgressFrom(total, length, size, readSizes) ==> Clamp(total as real / size as real) <= p
    decreases length - total
  {
    if total < length {
      var t := NextTotal(total, length, NextAsk(readSizes));
      CopyProgressAbove(t, length, size, LaterReads(readSizes));
      DivMonotone(total as real, t as real, size as real);
      ClampMonotone(total as real / size as real, t as real / size as real);
    }
  }

  /** The reported values never decrease and lie in [0, 1]. */
  lemma {:induction false} CopyProgressNonDecreasing(total: nat, length: nat, size: nat, readSizes: seq<nat>)
    requires total <= length && size > 0
    ensures NonDecreasing(CopyProgressFrom(total, length, size, readSizes))
    ensures forall p :: p in CopyProgressFrom(total, length, size, readSizes) ==> 0.0 <= p <= 1.0
    decreases length - total
  {
    if total < length {
      var t := NextTotal(total, length, NextAsk(readSizes));
      var rest := CopyProgressFrom(t, length, size, LaterReads(readSizes));
      CopyProgressNonDecreasing(t, length, size, LaterReads(readSizes));
      CopyProgressAbove(t, length, size, LaterReads(readSizes));
      var ps := CopyProgressFrom(total, length, size, readSizes);
      assert ps == [Clamp(t as real / size as real)] + rest;
      forall i, j | 0 <= i < j < |ps| ensures ps[i] <= ps[j] {
        if i == 0 {
          assert ps[j] == rest[j - 1] && rest[j - 1] in rest;
        } else {
          assert ps[i] == rest[i - 1] && ps[j] == rest[j - 1];
        }
      }
    }
  }

  lemma DivSelf(x: real)
    requires x > 0.0
    ensures x / x == 1.0
  {
  }

  /** When the size is the true length, the last read reports exactly 1.0. */
  lemma {:induction false} CopyProgressReachesOne(total: nat, length: nat, readSizes: seq<nat>)
    requires total < length
    ensures |CopyProgressFrom(total, length, length, readSizes)| > 0
    ensures CopyProgressFrom(total, length, length, readSizes)[|CopyProgressFrom(total, length, length, readSizes)| - 1] == 1.0
    decreases length - total
  {
    var t := NextTotal(total, length, NextAsk(readSizes));
    if t < length {
      CopyProgressReachesOne(t, length, LaterReads(readSizes));
    } else {
      assert t == length;
      var l := length as real;
      DivSelf(l);
      assert Clamp(1.0) == 1.0;
      assert CopyProgressFrom(total, length, length, readSizes) == [Clamp(t as real / l)];
    }
  }

  /** The whole sequence of reports of one copy: the loop's values, then 1.0. */
  function ExtractionProgress(content: seq<byte>, size: nat, readSizes: seq<nat>): (ps: seq<real>)
    requires |content| == 0 || size > 0
  {
    CopyProgressFrom(0, |content|, size, readSizes) + [1.0]
  }

  /** Extraction progress is non-decreasing, within [0, 1], and ends at 1.0. */
  lemma ExtractionProgressShape(asset: Asset)
    requires asset.Present?
    ensures asset.ProgressSize() > 0 || |asset.content| == 0
    ensures NonDecreasing(ExtractionProgress(asset.content, asset.ProgressSize(), asset.readSizes))
    ensures forall p :: p in ExtractionProgress(asset.content, asset.ProgressSize(), asset.readSizes) ==> 0.0 <= p <= 1.0
    ensures ExtractionProgress(asset.content, asset.ProgressSize(), asset.readSizes)[|ExtractionProgress(asset.content, asset.ProgressSize(), asset.readSizes)| - 1] == 1.0
  {
    var size := asset.ProgressSize();
    var length := |asset.content|;
    if length > 0 {
      CopyProgressNonDecreasing(0, length, size, asset.readSizes);
      var ps := CopyProgressFrom(0, length, size, asset.readSizes);
      var all := ps + [1.0];
      forall i, j | 0 <= i < j < |all| ensures all[i] <= all[j] {
        if j == |ps| {
          assert all[i] == ps[i] && ps[i] in ps;
        } else {
          assert all[i] == ps[i] && all[j] == ps[j];
        }
      }
    }
  }

  // ---------------------------------------------------------------------------
  // Validity
  // ---------------------------------------------------------------------------

  /** The bytes of a usable model: at least 100,000,000 of them, starting "GGUF". */
  predicate ValidModelBytes(bytes: seq<byte>) {
    |bytes| >= MIN_MODEL_SIZE && bytes[..4] == GGUF_MAGIC
  }

  predicate ValidModelAt(files: map<string, seq<byte>>, path: string) {
    path in files && ValidModelBytes(files[path])
  }

  /** The state `getModelPath` returns to: the files, its result, and the progress it reported. */
  datatype Provisioning = Provisioning(files: map<string, seq<byte>>, result: Result<string, IoError>, progress: seq<real>)

  class ModelAssetManager {
    const filesDir: string
    const asset: Asset
    var files: map<string, seq<byte>>

    constructor(filesDir: string, asset: Asset, files: map<string, seq<byte>>)
      ensures this.filesDir == filesDir && this.asset == asset && this.files == files
    {
      this.filesDir := filesDir;
      this.asset := asset;
      this.files := files;
    }

    function ModelPath(): string
    {
      filesDir + "/" + MODEL_DIR + "/" + MODEL_FILE_NAME
    }

    function MetaPath(): string
    {
      filesDir + "/" + MODEL_DIR + "/" + META_FILE_NAME
    }

    lemma PathsDistinct()
      ensures ModelPath() != MetaPath()
    {
      var m := ModelPath();
      assert m[|m| - 1] == 'f';
      assert MetaPath()[|MetaPath()| - 1] == 'a';
    }

    /** An existing, valid model file that the meta record still describes. */
    predicate CanReuse(files: map<string, seq<byte>>, metaReadFails: bool)
    {
      ValidModelAt(files, ModelPath())
      && !NeedsReplace(MetaRead(files, MetaPath(), metaReadFails), asset.FdLength(), |files[ModelPath()]|)
    }

    /** The files once a stale valid copy and its meta record are removed. */
    function Cleared(files: map<string, seq<byte>>): map<string, seq<byte>>
    {
      if ValidModelAt(files, ModelPath()) then files - {ModelPath(), MetaPath()} else files
    }

    /** The files after a copy from a present asset, with the meta record written unless writing fails. */
    function Extracted(files: map<string, seq<byte>>, metaWriteFails: bool): map<string, seq<byte>>
      requires asset.Present?
    {
      var copied := files[ModelPath() := asset.content];
      if metaWriteFails then copied else copied[MetaPath() := MetaBytes(asset.FdLength())]
    }

    /**
     * `isModelValid`: the file exists, holds at least 100,000,000 bytes, and its first
     * four bytes decode to "GGUF".
     */
    method IsModelValid(path: string) returns (valid: bool)
      ensures valid <==> ValidModelAt(files, path)
    {
      if path !in files {
        return false;
      }
      var bytes := files[path];
      if |bytes| < MIN_MODEL_SIZE {
        return false;
      }
      var magic := DecodeText(bytes[..4]);
      valid := magic == "GGUF";
      assert valid ==> bytes[..4] == GGUF_MAGIC by {
        if valid {
          forall i | 0 <= i < 4 ensures bytes[i] == GGUF_MAGIC[i] {
            assert magic[i] == "GGUF"[i];
          }
        }
      }
    }

    /** `deleteModel`: removes the model file and nothing else. */
    method DeleteModel()
      modifies this
      ensures files == old(files) - {ModelPath()}
    {
      if ModelPath() in files {
        files := files - {ModelPath()};
      }
    }

    /** `getModelSize`: 0 when there is no model file, and its length otherwise. */
    method GetModelSize() returns (size: nat)
      ensures ModelPath() !in files ==> size == 0
      ensures ModelPath() in files ==> size == |files[ModelPath()]|
    {
      size := if ModelPath() in files then |files[ModelPath()]| else 0;
    }

    /** `isModelExtracted`. */
    method IsModelExtracted() returns (extracted: bool)
      ensures extracted <==> ValidModelAt(files, ModelPath())
    {
      var path := ModelPath();
      extracted := path in files;
      if extracted {
        extracted := IsModelValid(path);
      }
    }

    /**
     * `extractModelFromAssets`: opens the asset (failing with its message when absent),
     * copies it to `target` in reads of at most 8192 bytes reporting clamped progress
     * after each, reports 1.0, then writes the meta record unless that write fails.
     */
    method ExtractModelFromAssets(metaWriteFails: bool) returns (outcome: Outcome<IoError>, progress: seq<real>)
      modifies this
      ensures asset.Missing? ==>
                outcome == Fail(IOException("Failed to extract model: " + asset.openError))
                && files == old(files) && progress == []
      ensures asset.Present? ==>
                outcome == Pass && files == Extracted(old(files), metaWriteFails)
                && progress == ExtractionProgress(asset.content, asset.ProgressSize(), asset.readSizes)
    {
      var target := ModelPath();
      var meta := MetaPath();
      PathsDistinct();
      if asset.Missing? {
        return Fail(IOException("Failed to extract model: " + asset.openError)), [];
      }
      progress := CopyAsset(target);
      progress := progress + [1.0];
      if !metaWriteFails {
        files := files[meta := MetaBytes(asset.FdLength())];
      }
      outcome := Pass;
    }

    /**
     * The copy loop: the asset's bytes go to `target` in reads of between 1 and 8192
     * bytes, as the stream returns them, and each read is reported.
     */
    method CopyAsset(target: string) returns (progress: seq<real>)
      requires asset.Present?
      modifies this
      ensures files == old(files)[target := asset.content]
      ensures progress == CopyProgressFrom(0, |asset.content|, asset.ProgressSize(), asset.readSizes)
    {
      var content := asset.content;
      var size := asset.ProgressSize();
      files := files[target := []];
      var total: nat := 0;
      var pending := asset.readSizes;
      progress := [];
      while total < |content|
        invariant total <= |content|
        invariant files == old(files)[target := content[..total]]
        invariant progress + CopyProgressFrom(total, |content|, size, pending)
                  == CopyProgressFrom(0, |content|, size, asset.readSizes)
        decreases |content| - total
      {
        var bytesRead := if pending == [] then COPY_BUFFER_SIZE else pending[0];
        if bytesRead < 1 {
          bytesRead := 1;
        } else if bytesRead > COPY_BUFFER_SIZE {
          bytesRead := COPY_BUFFER_SIZE;
        }
        if bytesRead > |content| - total {
          bytesRead := |content| - total;
        }
        var next := total + bytesRead;
        assert content[..next] == content[..total] + content[total..next];
        files := files[target := files[target] + content[total..next]];
        var report := Clamp(next as real / size as real);
        assert CopyProgressFrom(total, |content|, size, pending)
               == [report] + CopyProgressFrom(next, |content|, size, LaterReads(pending));
        assert progress + [report] + CopyProgressFrom(next, |content|, size, LaterReads(pending))
               == progress + ([report] + CopyProgressFrom(next, |content|, size, LaterReads(pending)));
        total := next;
        pending := if pending == [] then [] else pending[1..];
        progress := progress + [report];
      }
      assert content[..total] == content;
    }

    /**
     * What `getModelPath` leaves behind: the files, the outcome and the progress reports,
     * from the files before the call and whether the meta read and write fail.
     */
    function Provision(files: map<string, seq<byte>>, metaReadFails: bool, metaWriteFails: bool): Provisioning
    {
      if CanReuse(files, metaReadFails) then Provisioning(files, Success(ModelPath()), [1.0])
      else if asset.Missing? then
        Provisioning(Cleared(files), Failure(IOException("Failed to extract model: " + asset.openError)), [])
      else
        var after := Extracted(Cleared(files), metaWriteFails);
        var progress := ExtractionProgress(asset.content, asset.ProgressSize(), asset.readSizes);
        if ValidModelBytes(asset.content) then Provisioning(after, Success(ModelPath()), progress)
        else Provisioning(after - {ModelPath()}, Failure(IOException("Extracted model validation failed")), progress)
    }

    /** The reuse test of `getModelPath`: a valid copy whose meta record does not call for replacement. */
    method ShouldReuse(metaReadFails: bool) returns (reuse: bool)
      ensures reuse == CanReuse(files, metaReadFails)
    {
      var modelPath := ModelPath();
      var metaPath := MetaPath();
      if modelPath !in files {
        return false;
      }
      var valid := IsModelValid(modelPath);
      if !valid {
        return false;
      }
      var meta: Option<string>;
      if metaPath !in files {
        meta := Some("");
      } else if metaReadFails {
        meta := None;
      } else {
        meta := Some(DecodeText(files[metaPath]));
      }
      reuse := !NeedsReplace(meta, asset.FdLength(), |files[modelPath]|);
    }

    /** Deletes a valid copy and its meta record before a fresh extraction, ignoring failures. */
    method RemoveStaleCopy()
      modifies this
      ensures files == Cleared(old(files))
    {
      var valid := IsModelValid(ModelPath());
      if valid {
        files := files - {ModelPath()};
        files := files - {MetaPath()};
      }
    }

    /**
     * `getModelPath`: reuses a valid copy that the meta record describes, reporting 1.0;
     * otherwise removes a stale valid copy and its record, extracts, and checks the copy,
     * deleting it and failing when it is not a valid model.
     */
    method GetModelPath(metaReadFails: bool, metaWriteFails: bool) returns (r: Result<string, IoError>, progress: seq<real>)
      modifies this
      ensures Provisioning(files, r, progress) == Provision(old(files), metaReadFails, metaWriteFails)
    {
      var reuse := ShouldReuse(metaReadFails);
      if reuse {
        return Success(ModelPath()), [1.0];
      }
      RemoveStaleCopy();
      var extracted;
      extracted, progress := ExtractModelFromAssets(metaWriteFails);
      if extracted.Fail? {
        return Failure(extracted.error), progress;
      }
      var modelPath := ModelPath();
      PathsDistinct();
      assert files[modelPath] == asset.content;
      var valid := IsModelValid(modelPath);
      if !valid {
        files := files - {modelPath};
        return Failure(IOException("Extracted model validation failed")), progress;
      }
      r := Success(modelPath);
    }
  }

  /** A path `getModelPath` returns is the model path, and a valid model is there. */
  lemma ProvisionSuccessValid(m: ModelAssetManager, files: map<string, seq<byte>>, metaReadFails: bool, metaWriteFails: bool)
    ensures var p := m.Provision(files, metaReadFails, metaWriteFails);
            p.result.Success? ==> p.result.value == m.ModelPath() && ValidModelAt(p.files, p.result.value)
  {
    m.PathsDistinct();
  }

  /** When no copy is reused, a copy that fails validation is deleted; its meta record stays. */
  lemma ProvisionInvalidRemoved(m: ModelAssetManager, files: map<string, seq<byte>>, metaReadFails: bool, metaWriteFails: bool)
    requires !m.CanReuse(files, metaReadFails)
    requires m.asset.Present? && !ValidModelBytes(m.asset.content)
    ensures var p := m.Provision(files, metaReadFails, metaWriteFails);
            p.result == Failure(IOException("Extracted model validation failed")) && m.ModelPath() !in p.files
            && (!metaWriteFails ==> m.MetaPath() in p.files && p.files[m.MetaPath()] == MetaBytes(m.asset.FdLength()))
  {
    m.PathsDistinct();
  }

  /** Every call that succeeds reports non-decreasing progress in [0, 1] that ends at 1.0. */
  lemma ProvisionProgress(m: ModelAssetManager, files: map<string, seq<byte>>, metaReadFails: bool, metaWriteFails: bool)
    ensures var p := m.Provision(files, metaReadFails, metaWriteFails);
            p.result.Success? ==>
              |p.progress| > 0 && p.progress[|p.progress| - 1] == 1.0 && NonDecreasing(p.progress)
              && forall x :: x in p.progress ==> 0.0 <= x <= 1.0
  {
    var p := m.Provision(files, metaReadFails, metaWriteFails);
    if m.CanReuse(files, metaReadFails) {
      assert p.progress == [1.0];
    } else if m.asset.Present? {
      assert p.progress == ExtractionProgress(m.asset.content, m.asset.ProgressSize(), m.asset.readSizes);
      ExtractionProgressShape(m.asset);
    }
  }

  /** A second call after a successful extraction reuses the copy: the record names this
   * asset and its descriptor length, and the file has that length. */
  lemma {:induction false} ExtractedCopyReusable(m: ModelAssetManager, files: map<string, seq<byte>>)
    requires m.asset.Present? && ValidModelBytes(m.asset.content)
    requires |m.asset.content| <= LONG_MAX
    ensures m.CanReuse(m.Extracted(files, false), false)
  {
    m.PathsDistinct();
    var after := m.Extracted(files, false);
    var size := m.asset.FdLength();
    assert after[m.ModelPath()] == m.asset.content;
    assert after[m.MetaPath()] == MetaBytes(size);
    MetaTextAscii(size);
    DecodeEncode(MetaText(size));
    FreshMetaNoReplace(size, |m.asset.content|);
  }

  /**
   * Once `getModelPath` succeeds with the meta record written, the next call (whose meta
   * read succeeds) reuses the copy: it changes no file and reports only 1.0.
   */
  lemma SecondCallReuses(m: ModelAssetManager, files: map<string, seq<byte>>, metaReadFails: bool, metaWriteFails: bool)
    requires m.asset.Present? ==> |m.asset.content| <= LONG_MAX
    requires m.Provision(files, metaReadFails, false).result.Success?
    ensures var first := m.Provision(files, metaReadFails, false);
            m.Provision(first.files, false, metaWriteFails) == Provisioning(first.files, Success(m.ModelPath()), [1.0])
  {
    if !m.CanReuse(files, metaReadFails) {
      ExtractedCopyReusable(m, m.Cleared(files));
    }
  }
}
