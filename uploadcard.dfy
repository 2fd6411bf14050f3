/** The document upload widget (`src/components/renttrack/UploadCard.tsx`):
    the file check, the simulated progress and the widget's state across
    drop, select, upload and remove. */
module UploadCard {
  import opened Wrappers
  import opened Strings
  import opened Js

  const DefaultAccept := ".pdf,.jpg,.jpeg,.png"
  const DefaultMaxSize := 10
  const UploadFailed := "Upload failed. Please try again."

  /** The parts of a browser `File` the widget reads; `mimeType` is `file.type`. */
  datatype File = File(name: string, mimeType: string, size: nat)

  /** `accept.split(",").map(t => t.trim())`. */
  function AcceptTypes(accept: string): (types: seq<string>)
    ensures |types| == |SplitOn(accept, {','})|
    ensures forall k :: 0 <= k < |types| ==> types[k] == Trim(SplitOn(accept, {','})[k])
  {
    var parts := SplitOn(accept, {','});
    seq(|parts|, k requires 0 <= k < |parts| => Trim(parts[k]))
  }

  /** `.${name.split(".").pop()?.toLowerCase()}`: the split is never empty,
      so there is always a last part (the whole name when it has no dot). */
  function FileExt(name: string): string {
    var parts := SplitOn(name, {'.'});
    "." + Lower(parts[|parts| - 1])
  }

  /** The type check: the extension equals an entry, or the MIME type holds
      the entry with its first dot removed. */
  predicate TypeOk(file: File, accept: string) {
    var types := AcceptTypes(accept);
    exists k | 0 <= k < |types| ::
      FileExt(file.name) == types[k] || Contains(file.mimeType, RemoveFirst(types[k], '.'))
  }

  /** `maxSize * 1024 * 1024` bytes. */
  function MaxBytes(maxSize: int): int {
    maxSize * 1024 * 1024
  }

  /** `validateFile`: the error it sets, or `None` when the file is accepted.
      The type check comes first. */
  function Validate(file: File, accept: string, maxSize: int): (err: Option<string>)
    ensures err.None? <==> TypeOk(file, accept) && file.size <= MaxBytes(maxSize)
    ensures !TypeOk(file, accept) ==> err == Some("Invalid file type. Accepted: " + accept)
    ensures TypeOk(file, accept) && file.size > MaxBytes(maxSize) ==>
              err == Some("File too large. Maximum size: " + IntToString(maxSize) + "MB")
  {
    if !TypeOk(file, accept) then Some("Invalid file type. Accepted: " + accept)
    else if file.size > MaxBytes(maxSize) then Some("File too large. Maximum size: " + IntToString(maxSize) + "MB")
    else None
  }

  /** The default list of accepted types. */
  const DefaultEntries := [".pdf", ".jpg", ".jpeg", ".png"]

  lemma DefaultJoined()
    ensures Join(DefaultEntries, [',']) == DefaultAccept
  {
    var e := DefaultEntries;
    assert e[3..] == [".png"];
    assert Join(e[3..], [',']) == ".png";
    assert e[2..] == [".jpeg"] + e[3..];
    assert Join(e[2..], [',']) == ".jpeg" + "," + ".png";
    assert e[1..] == [".jpg"] + e[2..];
    assert Join(e[1..], [',']) == ".jpg" + "," + ".jpeg,.png";
    assert Join(e, [',']) == ".pdf" + "," + ".jpg,.jpeg,.png";
  }

  /** Trimmed, comma-free entries joined with commas are read back as they were. */
  lemma TypesOfJoin(entries: seq<string>)
    requires |entries| >= 1
    requires forall k :: 0 <= k < |entries| ==> ',' !in entries[k] && Trim(entries[k]) == entries[k]
    ensures AcceptTypes(Join(entries, [','])) == entries
  {
    forall k, j | 0 <= k < |entries| && 0 <= j < |entries[k]|
      ensures entries[k][j] !in {','}
    {
      assert entries[k][j] in entries[k];
    }
    SplitJoin(entries, ',', {','});
  }

  lemma DefaultTypes()
    ensures AcceptTypes(DefaultAccept) == DefaultEntries
  {
    var entries := DefaultEntries;
    forall k | 0 <= k < |entries|
      ensures ',' !in entries[k] && Trim(entries[k]) == entries[k]
    {
      TrimUnpadded(entries[k]);
    }
    TypesOfJoin(entries);
    DefaultJoined();
  }

  /** A name ending in a dot and a dot-free extension is judged by that
      extension in lower case. */
  lemma ExtensionAccepted(stem: string, ext: string, mimeType: string, size: nat, accept: string)
    requires forall j :: 0 <= j < |ext| ==> ext[j] != '.'
    requires "." + Lower(ext) in AcceptTypes(accept)
    ensures TypeOk(File(stem + "." + ext, mimeType, size), accept)
  {
    SplitLast(stem, '.', ext, {'.'});
    var types := AcceptTypes(accept);
    var k :| 0 <= k < |types| && types[k] == "." + Lower(ext);
    assert FileExt(stem + "." + ext) == types[k];
  }

  /** With the default `accept`, any name ending in `.pdf`, `.jpg`, `.jpeg`
      or `.png`, in any letter case, passes whatever its MIME type. */
  lemma DefaultAcceptsDocuments(stem: string, ext: string, mimeType: string, size: nat)
    requires forall j :: 0 <= j < |ext| ==> ext[j] != '.'
    requires "." + Lower(ext) in DefaultEntries
    ensures TypeOk(File(stem + "." + ext, mimeType, size), DefaultAccept)
  {
    DefaultTypes();
    ExtensionAccepted(stem, ext, mimeType, size, DefaultAccept);
  }

  /** An entry that is empty or a lone dot (a trailing comma in `accept`,
      say) reduces to "", which every MIME type holds: every file passes. */
  lemma EmptyEntryAcceptsAll(file: File, accept: string, k: nat)
    requires k < |AcceptTypes(accept)| && AcceptTypes(accept)[k] in {"", "."}
    ensures TypeOk(file, accept)
  {
    var e := AcceptTypes(accept)[k];
    assert RemoveFirst(e, '.') == "";
    ContainsEmpty(file.mimeType);
  }

  /** The limit is inclusive: an accepted type of exactly the limit passes,
      one byte more is refused. */
  lemma SizeLimitInclusive(file: File, accept: string, maxSize: int)
    requires TypeOk(file, accept)
    ensures file.size == MaxBytes(maxSize) ==> Validate(file, accept, maxSize).None?
    ensures file.size == MaxBytes(maxSize) + 1 ==> Validate(file, accept, maxSize).Some?
  {
  }

  /** The simulated progress step: ten more while below 90, then 90. */
  function ProgressStep(prev: int): (next: int)
    ensures prev < 90 ==> next == prev + 10
    ensures prev >= 90 ==> next == 90
  {
    if prev >= 90 then 90 else prev + 10
  }

  /** The progress after `n` steps from `p`. */
  function ProgressAfter(p: int, n: nat): int
    decreases n
  {
    if n == 0 then p else ProgressAfter(ProgressStep(p), n - 1)
  }

  /** From 0, the progress after `n` steps is min(10n, 90): it rises by ten
      and never passes 90 before the upload ends. */
  lemma {:induction false} ProgressCapped(n: nat)
    ensures ProgressAfter(0, n) == if 10 * n < 90 then 10 * n else 90
  {
    ProgressFrom(0, n);
  }

  lemma {:induction false} ProgressFrom(p: nat, n: nat)
    requires p <= 90 && p % 10 == 0
    ensures ProgressAfter(p, n) == if p + 10 * n < 90 then p + 10 * n else 90
    decreases n
  {
    if n > 0 {
      ProgressFrom(ProgressStep(p), n - 1);
    }
  }

  /** The widget's state. */
  class UploadWidget {
    var isDragging: bool
    var file: Option<File>
    var progress: int
    var uploading: bool
    var uploaded: bool
    var error: Option<string>
    const accept: string
    const maxSize: int

    /** An upload in flight has a file and shows a multiple of ten percent,
        at most 90. */
    predicate Valid()
      reads this
    {
      0 <= progress <= 100 && (uploading ==> file.Some? && progress <= 90 && progress % 10 == 0)
    }

    constructor (accept: string, maxSize: int)
      ensures Valid() && this.accept == accept && this.maxSize == maxSize
      ensures !isDragging && file == None && progress == 0 && !uploading && !uploaded && error == None
    {
      this.accept, this.maxSize := accept, maxSize;
      isDragging, file, progress, uploading, uploaded, error := false, None, 0, false, false, None;
    }

    method DragOver()
      modifies this
      ensures isDragging && file == old(file) && error == old(error) && progress == old(progress)
      ensures uploading == old(uploading) && uploaded == old(uploaded)
    {
      isDragging := true;
    }

    method DragLeave()
      modifies this
      ensures !isDragging && file == old(file) && error == old(error) && progress == old(progress)
      ensures uploading == old(uploading) && uploaded == old(uploaded)
    {
      isDragging := false;
    }

    /** The error is cleared, then a candidate file replaces the current one
        only when it passes; a refused one leaves its error and the old file. */
    method Offer(candidate: Option<File>)
      requires Valid()
      modifies this
      ensures Valid()
      ensures candidate.None? ==> file == old(file) && error == None
      ensures candidate.Some? && Validate(candidate.value, accept, maxSize).None? ==>
                file == candidate && error == None
      ensures candidate.Some? && Validate(candidate.value, accept, maxSize).Some? ==>
                file == old(file) && error == Validate(candidate.value, accept, maxSize)
      ensures isDragging == old(isDragging) && progress == old(progress)
      ensures uploading == old(uploading) && uploaded == old(uploaded)
    {
      error := None;
      if candidate.Some? {
        var err := Validate(candidate.value, accept, maxSize);
        if err.Some? {
          error := err;
        } else {
          file := candidate;
        }
      }
    }

    /** `handleDrop`: the first dropped file, if any. */
    method Drop(dropped: Option<File>)
      requires Valid()
      modifies this
      ensures Valid() && !isDragging
      ensures dropped.Some? && Validate(dropped.value, accept, maxSize).None? ==> file == dropped && error == None
      ensures dropped.Some? && Validate(dropped.value, accept, maxSize).Some? ==>
                file == old(file) && error == Validate(dropped.value, accept, maxSize)
      ensures dropped.None? ==> file == old(file) && error == None
      ensures progress == old(progress) && uploading == old(uploading) && uploaded == old(uploaded)
    {
      isDragging := false;
      Offer(dropped);
    }

    /** `handleFileSelect`: the first chosen file, if any. */
    method Select(selected: Option<File>)
      requires Valid()
      modifies this
      ensures Valid()
      ensures selected.Some? && Validate(selected.value, accept, maxSize).None? ==> file == selected && error == None
      ensures selected.Some? && Validate(selected.value, accept, maxSize).Some? ==>
                file == old(file) && error == Validate(selected.value, accept, maxSize)
      ensures selected.None? ==> file == old(file) && error == None
      ensures isDragging == old(isDragging) && progress == old(progress)
      ensures uploading == old(uploading) && uploaded == old(uploaded)
    {
      Offer(selected);
    }

    /** The start of `handleUpload`: nothing without a file. */
    method BeginUpload()
      requires Valid()
      modifies this
      ensures Valid()
      ensures old(file).None? ==> uploading == old(uploading) && progress == old(progress)
      ensures old(file).Some? ==> uploading && progress == 0
      ensures file == old(file) && error == old(error) && uploaded == old(uploaded) && isDragging == old(isDragging)
    {
      if file.Some? {
        uploading := true;
        progress := 0;
      }
    }

    /** One tick of the progress interval. */
    method Tick()
      requires Valid() && uploading
      modifies this
      ensures Valid() && uploading
      ensures progress == ProgressStep(old(progress))
      ensures file == old(file) && error == old(error) && uploaded == old(uploaded) && isDragging == old(isDragging)
    {
      progress := ProgressStep(progress);
    }

    /** The upload call settles: success shows 100 percent and "uploaded",
        failure the error and 0 percent; either way the upload is over. */
    method FinishUpload(outcome: Result<(), string>)
      requires Valid() && uploading
      modifies this
      ensures Valid() && !uploading
      ensures outcome.Success? ==> progress == 100 && uploaded && error == old(error)
      ensures outcome.Failure? ==> progress == 0 && uploaded == old(uploaded) && error == Some(UploadFailed)
      ensures file == old(file) && isDragging == old(isDragging)
    {
      if outcome.Success? {
        progress := 100;
        uploaded := true;
      } else {
        error := Some(UploadFailed);
        progress := 0;
      }
      uploading := false;
    }

    /** `handleRemove`, whose button is disabled during an upload. */
    method Remove()
      requires Valid() && !uploading
      modifies this
      ensures Valid()
      ensures file == None && progress == 0 && !uploaded && error == None
      ensures uploading == old(uploading) && isDragging == old(isDragging)
    {
      file := None;
      progress := 0;
      uploaded := false;
      error := None;
    }
  }
}
