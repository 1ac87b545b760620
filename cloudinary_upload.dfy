/**
 * The image upload widget: it screens a batch of selected files, uploads the valid ones one
 * at a time (each upload yields a fresh object URL that is appended to the list), has each
 * analysed by the mock analysis service, and tells its parent about every file it finished.
 * Delays are atomic steps; a failure of the upload, the analysis or the parent's callback is
 * an input (`Fault`), since the mocks themselves never fail.
 */
module CloudinaryUpload {
  import opened Wrappers
  import opened Browser
  import Seqs

  /** The 10 MB ceiling on one file. */
  const MaxFileSize: nat := 10 * 1024 * 1024

  /** The defaults of the `maxFiles` and `acceptedTypes` props. */
  const DefaultMaxFiles: nat := 5
  const DefaultAcceptedTypes: seq<string> := ["image/jpeg", "image/png", "image/webp"]

  predicate IsValidFile(f: File, acceptedTypes: seq<string>) {
    f.mimeType in acceptedTypes && f.size <= MaxFileSize
  }

  /** `validFiles`: the files of the batch that pass both checks, in selection order. */
  function ValidFiles(files: seq<File>, acceptedTypes: seq<string>): (valid: seq<File>)
    ensures Seqs.Subsequence(valid, files)
    ensures forall f :: multiset(valid)[f] == if IsValidFile(f, acceptedTypes) then multiset(files)[f] else 0
    ensures forall f :: f in valid <==> f in files && IsValidFile(f, acceptedTypes)
    decreases |files|
  {
    if files == [] then []
    else
      var rest := ValidFiles(files[1..], acceptedTypes);
      assert files == [files[0]] + files[1..];
      assert multiset(files) == multiset{files[0]} + multiset(files[1..]);
      assert multiset([files[0]] + rest) == multiset{files[0]} + multiset(rest);
      if IsValidFile(files[0], acceptedTypes) then [files[0]] + rest else rest
  }

  /** Screening distributes over concatenation, so each file is judged on its own. */
  lemma {:induction false} ValidFilesAppend(a: seq<File>, b: seq<File>, acceptedTypes: seq<string>)
    ensures ValidFiles(a + b, acceptedTypes) == ValidFiles(a, acceptedTypes) + ValidFiles(b, acceptedTypes)
    decreases |a|
  {
    if a == [] {
      assert a + b == b;
    } else {
      assert (a + b)[0] == a[0];
      assert (a + b)[1..] == a[1..] + b;
      ValidFilesAppend(a[1..], b, acceptedTypes);
    }
  }

  /** The decision taken before anything is uploaded. */
  datatype Screening = Ignore | RejectInvalid | RejectTooMany | Accept(valid: seq<File>)

  /**
   * A missing file list is ignored; a batch with no valid file, or one whose valid files
   * would take the list past `maxFiles`, is rejected as a whole.
   */
  function Screen(files: Option<seq<File>>, current: nat, maxFiles: nat, acceptedTypes: seq<string>): (s: Screening)
    ensures s.Ignore? <==> files.None?
    ensures s.RejectInvalid? <==> files.Some? && (forall f :: f in files.value ==> !IsValidFile(f, acceptedTypes))
    ensures s.RejectTooMany? <==>
              files.Some? && ValidFiles(files.value, acceptedTypes) != [] &&
              current + |ValidFiles(files.value, acceptedTypes)| > maxFiles
    ensures s.Accept? ==> s.valid == ValidFiles(files.value, acceptedTypes)
    ensures s.Accept? ==> s.valid != [] && current + |s.valid| <= maxFiles
  {
    if files.None? then Ignore
    else
      var valid := ValidFiles(files.value, acceptedTypes);
      if valid == [] then
        assert forall f :: f in files.value ==> !IsValidFile(f, acceptedTypes);
        RejectInvalid
      else if current + |valid| > maxFiles then
        assert valid[0] in valid;
        RejectTooMany
      else
        assert valid[0] in valid;
        Accept(valid)
  }

  /** With the default props, six valid files are refused as too many, and a GIF is never valid. */
  lemma DefaultPropsLimits(files: seq<File>, f: File)
    requires |files| == 6 && forall j :: 0 <= j < 6 ==> IsValidFile(files[j], DefaultAcceptedTypes)
    ensures Screen(Some(files), 0, DefaultMaxFiles, DefaultAcceptedTypes) == RejectTooMany
    ensures f.mimeType == "image/gif" ==> !IsValidFile(f, DefaultAcceptedTypes)
  {
    AllValidKept(files, DefaultAcceptedTypes);
  }

  /** A batch made only of valid files is kept whole. */
  lemma {:induction false} AllValidKept(files: seq<File>, acceptedTypes: seq<string>)
    requires forall j :: 0 <= j < |files| ==> IsValidFile(files[j], acceptedTypes)
    ensures ValidFiles(files, acceptedTypes) == files
    decreases |files|
  {
    if files != [] {
      AllValidKept(files[1..], acceptedTypes);
      assert [files[0]] + files[1..] == files;
    }
  }

  // ---------------------------------------------------------------- mock services

  /** An object URL; each upload creates one that was never handed out before. */
  datatype ImageUrl = ObjectUrl(serial: nat)

  /**
   * The `k` URLs created by uploads starting from counter value `start`: none was created
   * before `start`, and they come in creation order, so no two are equal.
   */
  function FreshUrls(start: nat, k: nat): (urls: seq<ImageUrl>)
    ensures |urls| == k
    ensures forall j :: 0 <= j < k ==> start <= urls[j].serial < start + k
    ensures forall i, j :: 0 <= i < j < k ==> urls[i].serial < urls[j].serial
  {
    seq(k, j requires 0 <= j < k => ObjectUrl(start + j))
  }

  /** One more upload appends the URL made from the next counter value. */
  lemma FreshUrlsSnoc(start: nat, k: nat)
    ensures FreshUrls(start, k + 1) == FreshUrls(start, k) + [ObjectUrl(start + k)]
  {
  }

  datatype Severity = Low | Medium | High
  datatype MaterialEstimate = MaterialEstimate(asphalt: string, cement: string)
  datatype AnalysisResult = AnalysisResult(area: real, depth: real, materialEstimate: MaterialEstimate, severity: Severity)

  /** The three canned results the mock analysis picks from. */
  const MockResults: seq<AnalysisResult> := [
    AnalysisResult(0.8, 0.05, MaterialEstimate("8 kg", "2 bags"), Medium),
    AnalysisResult(1.2, 0.08, MaterialEstimate("15 kg", "4 bags"), High),
    AnalysisResult(0.4, 0.03, MaterialEstimate("4 kg", "1 bag"), Low)
  ]

  /** The mock analysis: an arbitrary one of the canned results (the source picks at random). */
  method AnalyzeImage(url: ImageUrl) returns (result: AnalysisResult)
    ensures result in MockResults
  {
    var k :| 0 <= k < |MockResults|;
    result := MockResults[k];
  }

  /** Every severity can come out of the analysis, each from exactly one canned result. */
  lemma EachSeverityOnce(s: Severity)
    ensures exists k :: 0 <= k < |MockResults| && MockResults[k].severity == s
    ensures forall j, k :: 0 <= j < k < |MockResults| ==> MockResults[j].severity != MockResults[k].severity
  {
    match s
    case Medium => assert MockResults[0].severity == s;
    case High => assert MockResults[1].severity == s;
    case Low => assert MockResults[2].severity == s;
  }

  // ---------------------------------------------------------------- the upload loop

  /** Where in the loop an exception is thrown, if one is. */
  datatype Stage = DuringUpload | DuringAnalysis | DuringCallback
  datatype Fault = Fault(index: nat, stage: Stage)

  /** The fault hits one of the first `n` files. */
  predicate Hits(fault: Option<Fault>, n: nat) {
    fault.Some? && fault.value.index < n
  }

  predicate FailsAt(fault: Option<Fault>, i: nat, stage: Stage) {
    fault.Some? && fault.value.index == i && fault.value.stage == stage
  }

  /** How many URLs a batch of `n` accepted files leaves appended. */
  function AppendedCount(n: nat, fault: Option<Fault>): (a: nat)
    ensures a <= n
    ensures a == n <==> !Hits(fault, n) || (fault.value.index + 1 == n && fault.value.stage != DuringUpload)
    ensures Hits(fault, n) ==> fault.value.index <= a <= fault.value.index + 1
    ensures Hits(fault, n) ==> (a == fault.value.index + 1 <==> fault.value.stage != DuringUpload)
  {
    if !Hits(fault, n) then n
    else if fault.value.stage == DuringUpload then fault.value.index
    else fault.value.index + 1
  }

  /** How many files reached the parent's `onImageUpload` callback. */
  function NotifiedCount(n: nat, fault: Option<Fault>): (c: nat)
    ensures c <= AppendedCount(n, fault)
    ensures c == n <==> !Hits(fault, n) || (fault.value.index + 1 == n && fault.value.stage == DuringCallback)
    ensures Hits(fault, n) ==> fault.value.index <= c <= fault.value.index + 1
    ensures Hits(fault, n) ==> (c == fault.value.index + 1 <==> fault.value.stage == DuringCallback)
  {
    if !Hits(fault, n) then n
    else if fault.value.stage == DuringCallback then fault.value.index + 1
    else fault.value.index
  }

  /** The toast the handler ends with (`Ignored` is the silent return on a missing file list). */
  datatype SelectOutcome = Ignored | InvalidFiles | TooManyFiles | AllUploaded | UploadFailed

  /** One call of the parent's `onImageUpload(imageUrl, analysisData)`. */
  datatype Notification = Notification(url: ImageUrl, analysis: AnalysisResult)

  /**
   * The parent heard, in order, of the URLs of `images` from position `from` on, each with
   * one of the canned analysis results.
   */
  predicate NotifiedFrom(notified: seq<Notification>, images: seq<ImageUrl>, from: nat) {
    && from + |notified| <= |images|
    && forall j :: 0 <= j < |notified| ==> notified[j].url == images[from + j] && notified[j].analysis in MockResults
  }

  /** Appending a URL to the list keeps every earlier notification matched. */
  lemma NotifiedGrow(notified: seq<Notification>, images: seq<ImageUrl>, from: nat, url: ImageUrl)
    requires NotifiedFrom(notified, images, from)
    ensures NotifiedFrom(notified, images + [url], from)
  {
  }

  /** Notifying the parent of the next URL in the list, with a canned result, extends the match. */
  lemma NotifiedNext(notified: seq<Notification>, images: seq<ImageUrl>, from: nat, analysis: AnalysisResult)
    requires NotifiedFrom(notified, images, from) && from + |notified| < |images| && analysis in MockResults
    ensures NotifiedFrom(notified + [Notification(images[from + |notified|], analysis)], images, from)
  {
  }

  /** Every URL of the list was created before counter value `counter`, and no two are equal. */
  predicate CreatedDistinct(images: seq<ImageUrl>, counter: nat) {
    && (forall j :: 0 <= j < |images| ==> images[j].serial < counter)
    && (forall j, k :: 0 <= j < k < |images| ==> images[j] != images[k])
  }

  /** Appending the URL made from the counter, then advancing the counter, keeps the list distinct. */
  lemma AppendFresh(images: seq<ImageUrl>, counter: nat)
    requires CreatedDistinct(images, counter)
    ensures CreatedDistinct(images + [ObjectUrl(counter)], counter + 1)
  {
  }

  class Uploader {
    const maxFiles: nat
    const acceptedTypes: seq<string>
    var uploadedImages: seq<ImageUrl>
    var isUploading: bool
    var isAnalyzing: bool
    /** How many object URLs have been created so far. */
    var urlCounter: nat

    /** The list never exceeds `maxFiles` and holds distinct URLs that have been created. */
    ghost predicate ListValid()
      reads this
    {
      |uploadedImages| <= maxFiles && CreatedDistinct(uploadedImages, urlCounter)
    }

    /** Between events the list is valid and neither busy flag is set. */
    ghost predicate Valid()
      reads this
    {
      ListValid() && !isUploading && !isAnalyzing
    }

    constructor (maxFiles: nat, acceptedTypes: seq<string>)
      ensures Valid()
      ensures this.maxFiles == maxFiles && this.acceptedTypes == acceptedTypes
      ensures uploadedImages == [] && !isUploading && !isAnalyzing
    {
      this.maxFiles := maxFiles;
      this.acceptedTypes := acceptedTypes;
      uploadedImages := [];
      isUploading := false;
      isAnalyzing := false;
      urlCounter := 0;
    }

    /**
     * The select button is disabled while uploading and once the list is full. Outside an
     * upload, it is disabled exactly when no batch could be accepted: on a full list every
     * batch is refused, and otherwise any single valid file would be.
     */
    predicate SelectDisabled()
      reads this
      ensures SelectDisabled() && !isUploading ==>
                forall fs :: !Screen(Some(fs), |uploadedImages|, maxFiles, acceptedTypes).Accept?
      ensures !SelectDisabled() ==>
                forall f :: IsValidFile(f, acceptedTypes) ==>
                  Screen(Some([f]), |uploadedImages|, maxFiles, acceptedTypes) == Accept([f])
    {
      assert forall f :: IsValidFile(f, acceptedTypes) ==> ValidFiles([f], acceptedTypes) == [f] by {
        forall f | IsValidFile(f, acceptedTypes) {
          AllValidKept([f], acceptedTypes);
        }
      }
      isUploading || |uploadedImages| >= maxFiles
    }

    /**
     * `handleFileSelect`. A rejected batch changes nothing. An accepted one appends one fresh
     * URL per valid file in selection order, notifies the parent once per finished file in the
     * same order, keeps the URLs of the files it got through before a failure, and always ends
     * with both busy flags cleared.
     */
    method HandleFileSelect(files: Option<seq<File>>, fault: Option<Fault>)
      returns (outcome: SelectOutcome, notified: seq<Notification>)
      requires Valid()
      modifies this
      ensures Valid()
      ensures !SelectDisabled() <==> |uploadedImages| < maxFiles
      ensures var s := Screen(files, |old(uploadedImages)|, maxFiles, acceptedTypes);
              !s.Accept? ==> 
                && unchanged(this) && notified == []
                && outcome == (if s.Ignore? then Ignored else if s.RejectInvalid? then InvalidFiles else TooManyFiles)
      ensures var s := Screen(files, |old(uploadedImages)|, maxFiles, acceptedTypes);
              s.Accept? ==>
                var n := |s.valid|;
                && uploadedImages == old(uploadedImages) + FreshUrls(old(urlCounter), AppendedCount(n, fault))
                && urlCounter == old(urlCounter) + AppendedCount(n, fault)
                && |notified| == NotifiedCount(n, fault)
                && NotifiedFrom(notified, uploadedImages, |old(uploadedImages)|)
                && outcome == (if Hits(fault, n) then UploadFailed else AllUploaded)
    {
      var screening := Screen(files, |uploadedImages|, maxFiles, acceptedTypes);
      notified := [];
      if !screening.Accept? {
        outcome := if screening.Ignore? then Ignored else if screening.RejectInvalid? then InvalidFiles else TooManyFiles;
        return;
      }
      outcome, notified := UploadAll(screening.valid, fault);
    }

    /**
     * The loop over the accepted files: each one is uploaded, appended, analysed and
     * reported in turn, until the list is done or the fault strikes.
     */
    method UploadAll(valid: seq<File>, fault: Option<Fault>)
      returns (outcome: SelectOutcome, notified: seq<Notification>)
      requires Valid() && |uploadedImages| + |valid| <= maxFiles
      modifies this
      ensures Valid()
      ensures uploadedImages == old(uploadedImages) + FreshUrls(old(urlCounter), AppendedCount(|valid|, fault))
      ensures urlCounter == old(urlCounter) + AppendedCount(|valid|, fault)
      ensures |notified| == NotifiedCount(|valid|, fault)
      ensures NotifiedFrom(notified, uploadedImages, |old(uploadedImages)|)
      ensures outcome == (if Hits(fault, |valid|) then UploadFailed else AllUploaded)
    {
      notified := [];
      ghost var before := uploadedImages;
      ghost var start := urlCounter;
      isUploading := true;
      outcome := AllUploaded;
      var i := 0;
      while i < |valid|
        invariant 0 <= i <= |valid|
        invariant !Hits(fault, i)
        invariant urlCounter == start + i
        invariant uploadedImages == before + FreshUrls(start, i)
        invariant |notified| == i
        invariant NotifiedFrom(notified, uploadedImages, |before|)
        invariant ListValid() && isUploading
        invariant outcome == AllUploaded
      {
        if FailsAt(fault, i, DuringUpload) {
          assert AppendedCount(|valid|, fault) == NotifiedCount(|valid|, fault) == i;
          outcome := UploadFailed;
          break;
        }
        var url := ObjectUrl(urlCounter);
        AppendFresh(uploadedImages, urlCounter);
        NotifiedGrow(notified, uploadedImages, |before|, url);
        urlCounter := urlCounter + 1;
        uploadedImages := uploadedImages + [url];
        FreshUrlsSnoc(start, i);
        assert uploadedImages == before + FreshUrls(start, i + 1);
        isAnalyzing := true;
        if FailsAt(fault, i, DuringAnalysis) {
          assert AppendedCount(|valid|, fault) == i + 1 && NotifiedCount(|valid|, fault) == i;
          outcome := UploadFailed;
          break;
        }
        var analysis := AnalyzeImage(url);
        NotifiedNext(notified, uploadedImages, |before|, analysis);
        isAnalyzing := false;
        notified := notified + [Notification(url, analysis)];
        if FailsAt(fault, i, DuringCallback) {
          assert AppendedCount(|valid|, fault) == NotifiedCount(|valid|, fault) == i + 1;
          outcome := UploadFailed;
          break;
        }
        i := i + 1;
      }
      isUploading := false;
      isAnalyzing := false;
    }

    /** `removeImage`: drops exactly the entry at `index`; an index outside the list changes nothing. */
    method RemoveImage(index: int)
      requires Valid()
      modifies this`uploadedImages
      ensures Valid()
      ensures uploadedImages == Seqs.DropPosition(old(uploadedImages), index, 0)
      ensures 0 <= index < |old(uploadedImages)| ==>
                uploadedImages == old(uploadedImages)[..index] + old(uploadedImages)[index + 1..]
      ensures !(0 <= index < |old(uploadedImages)|) ==> uploadedImages == old(uploadedImages)
    {
      var kept := Seqs.DropPosition(uploadedImages, index, 0);
      if 0 <= index < |uploadedImages| {
        Seqs.DropPositionInRange(uploadedImages, index, 0);
      } else {
        Seqs.DropPositionOutOfRange(uploadedImages, index, 0);
      }
      uploadedImages := kept;
    }
  }
}
