/**
 * The attachment picker: a list of at most `maxFiles` uploaded files. A
 * selection is added whole or not at all: it is refused when it would pass
 * the limit, and dropped when any file cannot be read. Every change of the
 * list is reported to the owner with the new list.
 *
 * The browser's `File` objects, object URLs, random ids and `FileReader`
 * results are parameters (`PickedFile`, `ReadResult`).
 */
module Upload {
  import opened Wrappers
  import opened Text
  import opened Types

  const DefaultMaxFiles: nat := 5
  const ReadFailedAlert := "Failed to process files. Please try again."

  /** A file chosen in the browser's dialog. */
  datatype PickedFile = PickedFile(name: string, mimeType: string, size: nat)

  /** What reading one file gave: the fresh id and object URL, and the data URL or a failure. */
  datatype ReadResult = ReadResult(id: string, url: string, dataUrl: Option<string>)

  /**
   * `split(',')[1]` of a data URL: the text between its first and its second
   * comma (or its end), missing when there is no comma.
   */
  function Base64Of(dataUrl: string): (r: Option<string>)
    ensures r.Some? <==> ',' in dataUrl
    ensures r.Some? ==>
      |BeforeFirst(dataUrl, ',')| < |dataUrl| && r.value == BeforeFirst(dataUrl[|BeforeFirst(dataUrl, ',')| + 1..], ',')
    ensures r.Some? ==> ',' !in r.value
  {
    var parts := SplitOn(dataUrl, ',');
    if |parts| >= 2 then
      SplitOnFirst(dataUrl, ',');
      var rest := SplitOn(dataUrl[|BeforeFirst(dataUrl, ',')| + 1..], ',');
      assert parts[1] == rest[0];
      Some(parts[1])
    else None
  }

  /** A selection being read: the list when reading began, and the files picked. */
  datatype Reading = Reading(begun: seq<UploadedFile>, files: seq<PickedFile>)

  function Uploaded(f: PickedFile, rr: ReadResult): UploadedFile
    requires rr.dataUrl.Some?
  {
    UploadedFile(rr.id, f.name, f.mimeType, f.size, rr.url, Base64Of(rr.dataUrl.value))
  }

  /**
   * `Promise.all` over the outcomes: the uploaded records in selection order,
   * or none as soon as one read fails.
   */
  function Processed(files: seq<PickedFile>, outcomes: seq<ReadResult>): (r: Option<seq<UploadedFile>>)
    requires |outcomes| == |files|
    ensures r.Some? ==> |r.value| == |files|
  {
    if files == [] then Some([])
    else if outcomes[0].dataUrl.None? then None
    else
      var rest := Processed(files[1..], outcomes[1..]);
      if rest.None? then None else Some([Uploaded(files[0], outcomes[0])] + rest.value)
  }

  /**
   * All or nothing: the selection is uploaded exactly when every read
   * succeeds, and then entry `k` is file `k` under the id of read `k`.
   */
  lemma {:induction false} ProcessedAllOrNothing(files: seq<PickedFile>, outcomes: seq<ReadResult>)
    requires |outcomes| == |files|
    ensures Processed(files, outcomes).Some? <==> forall k :: 0 <= k < |outcomes| ==> outcomes[k].dataUrl.Some?
    ensures Processed(files, outcomes).Some? ==> forall k :: 0 <= k < |files| ==>
      Processed(files, outcomes).value[k] == Uploaded(files[k], outcomes[k])
  {
    if files != [] {
      ProcessedAllOrNothing(files[1..], outcomes[1..]);
      if outcomes[0].dataUrl.Some? && Processed(files[1..], outcomes[1..]).Some? {
        var rest := Processed(files[1..], outcomes[1..]).value;
        forall k | 0 <= k < |files|
          ensures Processed(files, outcomes).value[k] == Uploaded(files[k], outcomes[k])
        {
          if k > 0 {
            assert Processed(files, outcomes).value[k] == rest[k - 1];
          }
        }
      }
      if forall k :: 0 <= k < |outcomes| ==> outcomes[k].dataUrl.Some? {
        assert forall k :: 0 <= k < |outcomes[1..]| ==> outcomes[1..][k] == outcomes[k + 1];
      } else {
        var j :| 0 <= j < |outcomes| && outcomes[j].dataUrl.None?;
        if j > 0 {
          assert outcomes[1..][j - 1].dataUrl.None?;
        }
      }
    }
  }

  /** The list without the entries carrying `id`, in the original order. */
  function WithoutId(files: seq<UploadedFile>, id: string): (r: seq<UploadedFile>)
    ensures |r| <= |files|
    ensures forall f :: f in r <==> f in files && f.id != id
  {
    if files == [] then []
    else if files[0].id == id then WithoutId(files[1..], id)
    else [files[0]] + WithoutId(files[1..], id)
  }

  /** Removing an id twice is removing it once. */
  lemma {:induction false} WithoutIdIdempotent(files: seq<UploadedFile>, id: string)
    ensures WithoutId(WithoutId(files, id), id) == WithoutId(files, id)
  {
    if files != [] {
      WithoutIdIdempotent(files[1..], id);
      if files[0].id != id {
        assert ([files[0]] + WithoutId(files[1..], id))[1..] == WithoutId(files[1..], id);
      }
    }
  }

  /** Entries are kept in their relative order: removing an id commutes with appending. */
  lemma {:induction false} WithoutIdAppend(a: seq<UploadedFile>, b: seq<UploadedFile>, id: string)
    ensures WithoutId(a + b, id) == WithoutId(a, id) + WithoutId(b, id)
  {
    if a == [] {
      assert a + b == b;
    } else {
      assert (a + b)[1..] == a[1..] + b;
      WithoutIdAppend(a[1..], b, id);
    }
  }

  datatype FileIcon = ImageIcon | DocumentIcon | GenericIcon

  /** `getFileIcon`: images by MIME prefix, then PDFs and documents by substring. */
  function IconFor(mimeType: string): (r: FileIcon)
    ensures r == ImageIcon <==> StartsWith(mimeType, "image/")
    ensures r == DocumentIcon <==> !StartsWith(mimeType, "image/") && (Contains(mimeType, "pdf") || Contains(mimeType, "document"))
  {
    if StartsWith(mimeType, "image/") then ImageIcon
    else if Contains(mimeType, "pdf") || Contains(mimeType, "document") then DocumentIcon
    else GenericIcon
  }

  /** A size label: exact bytes below 1 KiB, otherwise a one-decimal figure in the named unit. */
  datatype SizeLabel = ExactBytes(text: string) | Scaled(unit: string)

  /** `formatFileSize`; the one-decimal figure of the scaled branches is not modelled. */
  function FormatFileSize(bytes: nat): (r: SizeLabel)
    ensures bytes < 1024 <==> r.ExactBytes?
    ensures r.ExactBytes? ==> r.text == NatToString(bytes) + " B"
    ensures r.Scaled? ==> r.unit == if bytes < 1024 * 1024 then "KB" else "MB"
  {
    if bytes < 1024 then ExactBytes(NatToString(bytes) + " B")
    else if bytes < 1024 * 1024 then Scaled("KB")
    else Scaled("MB")
  }

  /** A file of 512 bytes is labelled "512 B". */
  lemma SmallFileLabel()
    ensures FormatFileSize(512) == ExactBytes("512 B")
  {
    assert NatToString(512) == "512" by {
      assert NatToString(5) == "5";
      assert NatToString(51) == "51";
    }
  }

  function MaxFilesAlert(maxFiles: nat): string {
    "Maximum " + NatToString(maxFiles) + " files allowed"
  }

  class Attachments {
    const maxFiles: nat
    var selected: seq<UploadedFile>
    var processing: bool
    /** Every list handed to `onFilesSelected`, oldest first. */
    var notified: seq<seq<UploadedFile>>
    /** Every alert shown, oldest first. */
    var alerts: seq<string>

    /** The list never holds more than `maxFiles` entries. */
    predicate Valid()
      reads this
    {
      |selected| <= maxFiles
    }

    constructor (maxFiles: nat)
      ensures Valid()
      ensures this.maxFiles == maxFiles && selected == [] && !processing && notified == [] && alerts == []
    {
      this.maxFiles := maxFiles;
      selected := [];
      processing := false;
      notified := [];
      alerts := [];
    }

    /**
     * The picker button is enabled only below the limit and while nothing is
     * being read: a full list cannot be picked into, and a list the picker is
     * open for has room for one more file.
     */
    function PickerEnabled(disabled: bool): (r: bool)
      reads this
      ensures r ==> !disabled && !processing
      ensures Valid() && |selected| == maxFiles ==> !r
      ensures r ==> |selected| + 1 <= maxFiles
    {
      !disabled && !processing && |selected| < maxFiles
    }

    /**
     * `handleFileSelect` up to its `await`: an empty selection changes
     * nothing; one that would pass the limit is refused with an alert;
     * otherwise reading starts, and the list as it is now is remembered in
     * the returned `Reading`.
     */
    method BeginFileSelect(files: seq<PickedFile>) returns (reading: Option<Reading>)
      requires Valid()
      modifies this
      ensures Valid() && selected == old(selected) && notified == old(notified)
      ensures files == [] ==> reading == None && alerts == old(alerts) && processing == old(processing)
      ensures files != [] && |old(selected)| + |files| > maxFiles ==>
        reading == None && alerts == old(alerts) + [MaxFilesAlert(maxFiles)] && processing == old(processing)
      ensures files != [] && |old(selected)| + |files| <= maxFiles ==>
        reading == Some(Reading(old(selected), files)) && alerts == old(alerts) && processing
      ensures reading.Some? ==> |reading.value.begun| + |reading.value.files| <= maxFiles
    {
      if |files| == 0 {
        return None;
      }
      if |selected| + |files| > maxFiles {
        alerts := alerts + [MaxFilesAlert(maxFiles)];
        return None;
      }
      processing := true;
      return Some(Reading(selected, files));
    }

    /**
     * `handleFileSelect` after its `await`: either every file was read, and
     * the list becomes the list the selection BEGAN with followed by the new
     * files, in order, and is reported; or one read failed, the list stays,
     * and an alert is shown. Reading is over either way. Removing a file or
     * clearing the list while the files are read stays enabled, and is
     * undone here: the remembered list is written back.
     */
    method CompleteFileSelect(rd: Reading, outcomes: seq<ReadResult>)
      requires Valid() && |outcomes| == |rd.files| && |rd.begun| + |rd.files| <= maxFiles
      modifies this
      ensures Valid() && !processing
      ensures Processed(rd.files, outcomes).Some? ==>
        selected == rd.begun + Processed(rd.files, outcomes).value
        && notified == old(notified) + [selected] && alerts == old(alerts)
      ensures Processed(rd.files, outcomes).None? ==>
        selected == old(selected) && notified == old(notified) && alerts == old(alerts) + [ReadFailedAlert]
    {
      var processed := ReadAll(rd.files, outcomes);
      if processed.None? {
        alerts := alerts + [ReadFailedAlert];
      } else {
        var updated := rd.begun + processed.value;
        selected := updated;
        notified := notified + [updated];
      }
      processing := false;
    }

    /**
     * A whole `handleFileSelect` with nothing in between: an empty selection
     * changes nothing; one over the limit is refused whole with an alert;
     * otherwise all files are appended in order and the new list reported,
     * or, when one read failed, the list stays and an alert is shown.
     */
    method FileSelect(files: seq<PickedFile>, outcomes: seq<ReadResult>)
      requires Valid() && |outcomes| == |files|
      modifies this
      ensures Valid()
      ensures files == [] ==> selected == old(selected) && notified == old(notified) && alerts == old(alerts)
                              && processing == old(processing)
      ensures files != [] && |old(selected)| + |files| > maxFiles ==>
        selected == old(selected) && notified == old(notified) && alerts == old(alerts) + [MaxFilesAlert(maxFiles)]
        && processing == old(processing)
      ensures files != [] && |old(selected)| + |files| <= maxFiles ==> !processing
      ensures files != [] && |old(selected)| + |files| <= maxFiles && Processed(files, outcomes).Some? ==>
        selected == old(selected) + Processed(files, outcomes).value
        && notified == old(notified) + [selected] && alerts == old(alerts)
      ensures files != [] && |old(selected)| + |files| <= maxFiles && Processed(files, outcomes).None? ==>
        selected == old(selected) && notified == old(notified) && alerts == old(alerts) + [ReadFailedAlert]
    {
      var reading := BeginFileSelect(files);
      if reading.Some? {
        CompleteFileSelect(reading.value, outcomes);
      }
    }

    /** `removeFile`: entries with the id dropped, the others kept in order, and the new list reported. */
    method RemoveFile(id: string)
      requires Valid()
      modifies this
      ensures Valid()
      ensures selected == WithoutId(old(selected), id)
      ensures notified == old(notified) + [selected]
      ensures processing == old(processing) && alerts == old(alerts)
    {
      var updated := WithoutId(selected, id);
      selected := updated;
      notified := notified + [updated];
    }

    /** `clearAll`: the list emptied and the empty list reported. */
    method ClearAll()
      modifies this
      ensures Valid()
      ensures selected == [] && notified == old(notified) + [[]]
      ensures processing == old(processing) && alerts == old(alerts)
    {
      selected := [];
      notified := notified + [[]];
    }
  }

  /**
   * The reads of one selection, in order, stopping at the first failure: the
   * same outcome as `Promise.all` over all of them.
   */
  method ReadAll(files: seq<PickedFile>, outcomes: seq<ReadResult>) returns (r: Option<seq<UploadedFile>>)
    requires |outcomes| == |files|
    ensures r == Processed(files, outcomes)
  {
    var processed: seq<UploadedFile> := [];
    var i := 0;
    while i < |files|
      invariant 0 <= i <= |files|
      invariant Processed(files[..i], outcomes[..i]) == Some(processed)
    {
      ProcessedSplit(files, outcomes, i);
      if outcomes[i].dataUrl.None? {
        return None;
      }
      processed := processed + [Uploaded(files[i], outcomes[i])];
      i := i + 1;
    }
    assert files[..i] == files && outcomes[..i] == outcomes;
    return Some(processed);
  }

  /**
   * Reading the first `i` files and then the rest gives the same outcome as
   * reading them all; with the first `i` read, file `i` decides the next step.
   */
  lemma {:induction false} ProcessedSplit(files: seq<PickedFile>, outcomes: seq<ReadResult>, i: nat)
    requires |outcomes| == |files| && i < |files|
    requires Processed(files[..i], outcomes[..i]).Some?
    ensures outcomes[i].dataUrl.Some? ==>
      Processed(files[..i + 1], outcomes[..i + 1]) == Some(Processed(files[..i], outcomes[..i]).value + [Uploaded(files[i], outcomes[i])])
    ensures outcomes[i].dataUrl.None? ==> Processed(files, outcomes).None?
  {
    if outcomes[i].dataUrl.None? {
      ProcessedAllOrNothing(files, outcomes);
    } else {
      ProcessedSnoc(files[..i], outcomes[..i], files[i], outcomes[i]);
      assert files[..i + 1] == files[..i] + [files[i]];
      assert outcomes[..i + 1] == outcomes[..i] + [outcomes[i]];
    }
  }

  lemma {:induction false} ProcessedSnoc(files: seq<PickedFile>, outcomes: seq<ReadResult>, f: PickedFile, rr: ReadResult)
    requires |outcomes| == |files| && Processed(files, outcomes).Some? && rr.dataUrl.Some?
    ensures Processed(files + [f], outcomes + [rr]) == Some(Processed(files, outcomes).value + [Uploaded(f, rr)])
    decreases |files|
  {
    if files == [] {
      assert files + [f] == [f] && outcomes + [rr] == [rr];
      assert [f][1..] == [] && [rr][1..] == [];
      assert outcomes == [] && Processed(files, outcomes) == Some([]);
      assert Processed([], []) == Some([]);
      assert Processed([f], [rr]) == Some([Uploaded(f, rr)] + []);
      assert [] + [Uploaded(f, rr)] == [Uploaded(f, rr)] + [];
    } else {
      assert (files + [f])[1..] == files[1..] + [f];
      assert (outcomes + [rr])[1..] == outcomes[1..] + [rr];
      assert (files + [f])[0] == files[0] && (outcomes + [rr])[0] == outcomes[0];
      var rest := Processed(files[1..], outcomes[1..]);
      assert outcomes[0].dataUrl.Some? && rest.Some?;
      ProcessedSnoc(files[1..], outcomes[1..], f, rr);
      var u := Uploaded(files[0], outcomes[0]);
      assert Processed(files, outcomes).value == [u] + rest.value;
      assert Processed((files + [f])[1..], (outcomes + [rr])[1..]) == Some(rest.value + [Uploaded(f, rr)]);
      assert Processed(files + [f], outcomes + [rr]) == Some([u] + (rest.value + [Uploaded(f, rr)]));
      assert [u] + (rest.value + [Uploaded(f, rr)]) == [u] + rest.value + [Uploaded(f, rr)];
    }
  }
}
