/** What a provider answer makes of a claimed row. */
module Polling {
  import opened Options
  import opened Text
  import opened Catalog
  import opened Rows

  /** A provider download. `failed` is the verdict of FailureMessage on its state text. */
  datatype Download = Download(failed: bool, name: string, state: string, present: Option<bool>, files: seq<File>)

  datatype Answer = CheckError | NotFound | Found(download: Download)

  predicate Ready(d: Download) {
    && !d.failed
    && (Lower(d.state) == "cached" || Lower(d.state) == "completed")
    && d.present != Some(false)
    && |d.files| > 0
  }

  /** The placement is gone: not listed, or listed as finished but no longer present. */
  predicate Absence(a: Answer) {
    || a.NotFound?
    || (a.Found? && a.download.present == Some(false) && (a.download.state == "cached" || a.download.state == "completed"))
  }

  function StatusOf(j: Job, a: Answer): Status
    requires !a.CheckError?
  {
    Status(j.providerId, a.Found?, a.Found? && Ready(a.download), false)
  }

  datatype Config = Config(recoverMissing: bool, activePoll: int)

  datatype Write = NoWrite | Write(job: Job, delay: int)

  /** An absent placement: count it, and queue the job again at the third confirmation. */
  function AfterAbsence(j: Job, c: Config): Job {
    var checks := if j.missingChecks < CONFIRMATIONS then j.missingChecks + 1 else j.missingChecks;
    j.(missingChecks := checks,
       state := if checks < CONFIRMATIONS || !c.recoverMissing then Missing
                else if j.attempts >= MAX_ATTEMPTS then Failed
                else Queued)
  }

  /** A listed placement that is ready for import. */
  ghost function AfterReady(j: Job, files: seq<File>): Write {
    if !Valid(files) then NoWrite
    else if |j.files| > 0 && !Same(j.files, files) then Write(j.(state := Failed), 3600)
    else if j.state == Completed then Write(j.(files := files), 900)
    else Write(j.(files := files, state := Mounting), 60)
  }

  ghost function PollOutcome(j: Job, a: Answer, c: Config): Write {
    if a.CheckError? then Write(j.(missingChecks := 0), 300)
    else if a.Found? && a.download.failed then Write(j.(state := Failed, missingChecks := 0), 3600)
    else if Absence(a) then Write(AfterAbsence(j, c), 300)
    else
      var d := a.download;
      var seen := j.(missingChecks := 0, name := if d.name != "" then d.name else j.name);
      if !Ready(d) then Write(seen.(state := Downloading), c.activePoll)
      else AfterReady(seen, d.files)
  }

  /** A finished download: not failed, "cached" or "completed" in any case, not known to be absent, with files. */
  ghost predicate Importable(d: Download) {
    && !d.failed && d.present != Some(false) && d.files != []
    && Lower(d.state) in {"cached", "completed"}
  }

  /** Known to be gone: "cached" or "completed", spelled so, without its files. */
  ghost predicate Vanished(d: Download) {
    d.present == Some(false) && d.state in {"cached", "completed"}
  }

  /** The copy after an answer that shows the placement, under the name it has there. */
  ghost function Shown(copy: Job, d: Download): Job {
    copy.(missingChecks := 0, name := if d.name == "" then copy.name else d.name)
  }

  /** A finished download with a valid file list: a catalog that differs from the published one fails the
      job, with the published files; the same one, or the first one, is published. */
  lemma FinishedIsPublished(copy: Job, d: Download, c: Config)
    requires Importable(d) && Valid(d.files) && Valid(copy.files)
    ensures copy.files != [] && Sizes(d.files) != Sizes(copy.files) ==>
              PollOutcome(copy, Found(d), c) == Write(Shown(copy, d).(state := Failed), 3600)
    ensures copy.files == [] || Sizes(d.files) == Sizes(copy.files) ==>
              PollOutcome(copy, Found(d), c) ==
              if copy.state == Completed then Write(Shown(copy, d).(files := d.files), 900)
              else Write(Shown(copy, d).(files := d.files, state := Mounting), 60)
  {
    if copy.files != [] {
      SameIsMapEquality(copy.files, d.files);
    }
  }

  /** What every other answer means: an invalid list is not written, a failure is final, an unfinished
      download goes on, an error only resets the counter. */
  lemma OtherAnswers(copy: Job, d: Download, c: Config)
    ensures PollOutcome(copy, CheckError, c) == Write(copy.(missingChecks := 0), 300)
    ensures d.failed ==> PollOutcome(copy, Found(d), c) == Write(copy.(state := Failed, missingChecks := 0), 3600)
    ensures Importable(d) && !Valid(d.files) ==> PollOutcome(copy, Found(d), c) == NoWrite
    ensures !d.failed && !Importable(d) && !Vanished(d) ==>
              PollOutcome(copy, Found(d), c) == Write(Shown(copy, d).(state := Downloading), c.activePoll)
  {
  }

  /** An absence is counted up to three; at three the job is queued again if that is wanted and an attempt
      is left, fails if none is left, and otherwise stays missing. */
  lemma AbsenceIsCounted(copy: Job, d: Download, c: Config, a: Answer)
    requires a == NotFound || (a == Found(d) && !d.failed && Vanished(d))
    ensures var checks := if copy.missingChecks < 3 then copy.missingChecks + 1 else copy.missingChecks;
            var state := if checks < 3 || !c.recoverMissing then Missing else if copy.attempts < 3 then Queued else Failed;
            PollOutcome(copy, a, c) == Write(copy.(missingChecks := checks, state := state), 300)
  {
  }

  /** The status says which placement was asked for, whether it is listed, and whether it is finished. */
  lemma StatusMeans(copy: Job, d: Download)
    ensures StatusOf(copy, NotFound) == Status(copy.providerId, false, false, false)
    ensures StatusOf(copy, Found(d)) == Status(copy.providerId, true, Importable(d), false)
  {
  }

  /** A finished placement whose files are gone counts as absent if and only if its state is spelled in
      lower case, although readiness ignores case; in any other spelling it counts as downloading. */
  lemma AbsenceIsSpelled(j: Job, d: Download, c: Config)
    requires !d.failed && d.present == Some(false) && Lower(d.state) in {"cached", "completed"}
    ensures Absence(Found(d)) <==> d.state == Lower(d.state)
    ensures d.state == Lower(d.state) ==> PollOutcome(j, Found(d), c) == Write(AfterAbsence(j, c), 300)
    ensures d.state != Lower(d.state) ==>
              && PollOutcome(j, Found(d), c).Write?
              && PollOutcome(j, Found(d), c).job.state == Downloading && PollOutcome(j, Found(d), c).job.missingChecks == 0
  {
  }

  /** So this answer is never confirmed as an absence, however often it is polled. */
  lemma CapitalsHideAbsence(j: Job, c: Config)
    ensures var gone := Found(Download(false, "", "Completed", Some(false), []));
            && !Absence(gone)
            && PollOutcome(j, gone, c) == Write(j.(state := Downloading, missingChecks := 0), c.activePoll)
  {
  }

  lemma ReadyKeepsCatalog(j: Job, files: seq<File>)
    requires Valid(j.files) && AfterReady(j, files).Write?
    ensures var after := AfterReady(j, files).job.files;
            j.files != [] ==> after != [] && Sizes(after) == Sizes(j.files)
  {
    SameIsMapEquality(j.files, files);
  }

  /** No poll changes the name-to-size map of a published catalog. */
  lemma PollKeepsCatalog(copy: Job, answer: Answer, c: Config)
    requires Valid(copy.files) && PollOutcome(copy, answer, c).Write?
    ensures var after := PollOutcome(copy, answer, c).job.files;
            copy.files != [] ==> after != [] && Sizes(after) == Sizes(copy.files)
  {
    if answer.Found? {
      var d := answer.download;
      var seen := copy.(missingChecks := 0, name := if d.name != "" then d.name else copy.name);
      if !d.failed && !Absence(answer) && Ready(d) {
        ReadyKeepsCatalog(seen, d.files);
      }
    }
  }

  /** The poll half of Reconcile, after the provider has answered. */
  method Poll(claimed: Job, a: Answer, c: Config) returns (w: Write)
    ensures w == PollOutcome(claimed, a, c)
  {
    var j := claimed;
    if a.CheckError? {
      j := j.(missingChecks := 0);
      return Write(j, 300);
    }
    if a.Found? && a.download.failed {
      j := j.(state := Failed, missingChecks := 0);
      return Write(j, 3600);
    }
    if a.NotFound? || (a.download.present == Some(false) && (a.download.state == "cached" || a.download.state == "completed")) {
      if j.missingChecks < 3 {
        j := j.(missingChecks := j.missingChecks + 1);
      }
      j := j.(state := Missing);
      if j.missingChecks >= 3 && c.recoverMissing {
        if j.attempts >= 3 {
          j := j.(state := Failed);
        } else {
          j := j.(state := Queued);
        }
      }
      return Write(j, 300);
    }
    var download := a.download;
    j := j.(missingChecks := 0);
    if download.name != "" {
      j := j.(name := download.name);
    }
    if !Ready(download) {
      j := j.(state := Downloading);
      return Write(j, c.activePoll);
    }
    var ok := ValidateUsenetFiles(download.files);
    if !ok {
      return NoWrite;
    }
    if |j.files| > 0 {
      var same := SameCatalog(j.files, download.files);
      if !same {
        j := j.(state := Failed);
        return Write(j, 3600);
      }
    }
    if j.state == Completed {
      j := j.(files := download.files);
      return Write(j, 900);
    }
    j := j.(files := download.files, state := Mounting);
    return Write(j, 60);
  }

  predicate Video(name: string) {
    Preferred(name) || HasSuffix(Lower(name), ".m4v")
    || HasSuffix(Lower(name), ".avi") || HasSuffix(Lower(name), ".ts") || HasSuffix(Lower(name), ".webm")
  }

  predicate Preferred(name: string) {
    HasSuffix(Lower(name), ".mkv") || HasSuffix(Lower(name), ".mp4")
  }

  /** The kinds by their extensions, in any case. */
  lemma VideoMeans(stem: string)
    ensures Preferred(stem + ".mkv") && Preferred(stem + ".mp4") && Preferred(stem + ".MKV")
    ensures Video(stem + ".mkv") && Video(stem + ".mp4") && Video(stem + ".m4v")
    ensures Video(stem + ".avi") && Video(stem + ".ts") && Video(stem + ".webm")
  {
    LowerEnd(stem, ".mkv", ".mkv");
    LowerEnd(stem, ".MKV", ".mkv");
    LowerEnd(stem, ".mp4", ".mp4");
    LowerEnd(stem, ".m4v", ".m4v");
    LowerEnd(stem, ".avi", ".avi");
    LowerEnd(stem, ".ts", ".ts");
    LowerEnd(stem, ".webm", ".webm");
  }

  lemma LowerEnd(stem: string, written: string, small: string)
    requires |written| == |small| && forall i :: 0 <= i < |small| ==> LowerChar(written[i]) == small[i]
    ensures HasSuffix(Lower(stem + written), small)
  {
    var name := Lower(stem + written);
    assert name[|name| - |small|..] == small;
  }

  /** And by no others. */
  lemma VideoExactly(name: string)
    ensures Preferred(name) <==> exists ext :: ext in {".mkv", ".mp4"} && HasSuffix(Lower(name), ext)
    ensures Video(name) <==> exists ext :: ext in {".mkv", ".mp4", ".m4v", ".avi", ".ts", ".webm"} && HasSuffix(Lower(name), ext)
  {
  }

  predicate HasSuffix(s: string, suffix: string) {
    |suffix| <= |s| && s[|s| - |suffix|..] == suffix
  }

  predicate Named(name: string) {
    name != ""
  }

  /** A file with content whose name is of a kind. */
  predicate Shows(f: File, kind: string -> bool) {
    f.size != 0 && kind(f.name)
  }

  ghost predicate NoneShows(files: seq<File>, kind: string -> bool) {
    forall k :: 0 <= k < |files| ==> !Shows(files[k], kind)
  }

  ghost predicate FirstIs(files: seq<File>, kind: string -> bool, i: int) {
    0 <= i < |files| && Shows(files[i], kind) && forall k :: 0 <= k < i ==> !Shows(files[k], kind)
  }

  ghost predicate LastIs(files: seq<File>, kind: string -> bool, i: int) {
    0 <= i < |files| && Shows(files[i], kind) && forall k :: i < k < |files| ==> !Shows(files[k], kind)
  }

  /** The file whose read proves the mount: the first of the preferred kinds if there is one, else the
      last video, else the first file with content, else none. */
  ghost predicate Chosen(files: seq<File>, video: string -> bool, preferred: string -> bool, name: string) {
    && (forall i :: FirstIs(files, preferred, i) ==> name == files[i].name)
    && (NoneShows(files, preferred) ==> forall i :: LastIs(files, video, i) ==> name == files[i].name)
    && (NoneShows(files, video) ==> forall i :: FirstIs(files, Named, i) ==> name == files[i].name)
    && (name == "" <==> NoneShows(files, Named))
  }

  /** Of two preferred files the first is chosen, of two other videos the last, of two other files the first;
      a preferred one wins over a video, a video over the rest, and an empty file never counts. */
  lemma ChosenOfTwo(x: string, y: string, name: string)
    requires x != "" && y != "" && Chosen([File(0, x, 1), File(1, y, 1)], Video, Preferred, name)
    ensures Preferred(x) ==> name == x
    ensures !Preferred(x) && Preferred(y) ==> name == y
    ensures !Preferred(x) && !Preferred(y) && Video(y) ==> name == y
    ensures !Preferred(x) && !Preferred(y) && Video(x) && !Video(y) ==> name == x
    ensures !Video(x) && !Video(y) && !Preferred(x) && !Preferred(y) ==> name == x
  {
    var files := [File(0, x, 1), File(1, y, 1)];
    assert FirstIs(files, Preferred, 0) || FirstIs(files, Preferred, 1) || NoneShows(files, Preferred);
    assert LastIs(files, Video, 1) || LastIs(files, Video, 0) || NoneShows(files, Video);
    assert FirstIs(files, Named, 0);
  }

  lemma EmptyIsNotChosen(x: string, y: string, name: string)
    requires y != "" && Chosen([File(0, x, 0), File(1, y, 1)], Video, Preferred, name)
    ensures name == y
  {
    var files := [File(0, x, 0), File(1, y, 1)];
    assert FirstIs(files, Named, 1);
    assert FirstIs(files, Preferred, 1) || NoneShows(files, Preferred);
    assert LastIs(files, Video, 1) || NoneShows(files, Video);
  }

  method Candidate(files: seq<File>) returns (name: string)
    ensures Chosen(files, Video, Preferred, name)
    ensures name == "" <==> !HasPayload(files)
  {
    name := Choose(files, Video, Preferred);
    assert HasPayload(files) ==> !NoneShows(files, Named) by {
      if HasPayload(files) {
        var i :| 0 <= i < |files| && files[i].size != 0 && files[i].name != "";
        assert Shows(files[i], Named);
      }
    }
  }

  /** Its loop, for any kinds of names. */
  method Choose(files: seq<File>, video: string -> bool, preferred: string -> bool) returns (name: string)
    requires forall s :: preferred(s) ==> video(s)
    requires !video("")
    ensures Chosen(files, video, preferred, name)
  {
    name := "";
    ghost var last := -1;
    for n := 0 to |files|
      invariant forall k :: 0 <= k < n ==> !Shows(files[k], preferred)
      invariant -1 <= last < n && (last >= 0 ==> Shows(files[last], video) && name == files[last].name)
      invariant forall k :: last < k < n ==> !Shows(files[k], video)
      invariant last == -1 ==> forall i :: FirstIs(files, Named, i) && i < n ==> name == files[i].name
      invariant name == "" <==> forall k :: 0 <= k < n ==> !Shows(files[k], Named)
    {
      var file := files[n];
      if file.size == 0 {
        continue;
      }
      if name == "" {
        name := file.name;
      }
      if video(file.name) {
        name := file.name;
        last := n;
      }
      if name == file.name && preferred(file.name) {
        return;
      }
    }
  }
}
