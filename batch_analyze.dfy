// The batch driver that runs the analysis notebook over every matchup folder
// of a tournament result directory: folder discovery, error-message
// truncation, the success/failure partition, the failure summary and the exit
// code. The directory listing and each notebook run's outcome are inputs.

module BatchAnalyze {
  import opened Wrappers
  import opened Text

  /** One entry of the (already sorted) tournament directory listing. */
  datatype Entry = Entry(name: string, isDir: bool, hasCsv: bool, hasJson: bool)

  const MatchupPrefix: string := "matchup_"
  const MaxErrorLength: nat := 500
  const ShownErrorLength: nat := 100
  const ShownFailures: nat := 10

  /** A directory whose name starts with `matchup_`. */
  predicate IsMatchupDir(e: Entry)
  {
    e.isDir && StartsWith(e.name, MatchupPrefix)
  }

  /** Holds both `all_games_minimal.csv` and `simulation_summary.json`. */
  predicate HasBothFiles(e: Entry)
  {
    e.hasCsv && e.hasJson
  }

  /** The folders discovery keeps, in listing order. */
  function Kept(listing: seq<Entry>): seq<Entry>
  {
    if listing == [] then []
    else
      var last := listing[|listing| - 1];
      Kept(listing[..|listing| - 1]) + (if IsMatchupDir(last) && HasBothFiles(last) then [last] else [])
  }

  /** The names of the matchup directories skipped for a missing file, in listing order. */
  function Skipped(listing: seq<Entry>): seq<string>
  {
    if listing == [] then []
    else
      var last := listing[|listing| - 1];
      Skipped(listing[..|listing| - 1]) + (if IsMatchupDir(last) && !HasBothFiles(last) then [last.name] else [])
  }

  /** Number of `matchup_` directories in a listing. */
  function MatchupDirCount(listing: seq<Entry>): nat
  {
    if listing == [] then 0
    else MatchupDirCount(listing[..|listing| - 1]) + (if IsMatchupDir(listing[|listing| - 1]) then 1 else 0)
  }

  /** Lexicographic order on names, as Python orders path names. */
  predicate NameLe(a: string, b: string)
  {
    if a == [] then true
    else if b == [] then false
    else if a[0] != b[0] then a[0] < b[0]
    else NameLe(a[1..], b[1..])
  }

  predicate SortedByName(s: seq<Entry>)
  {
    forall i, j :: 0 <= i < j < |s| ==> NameLe(s[i].name, s[j].name)
  }

  /**
   * `find_matchup_folders`: walks the sorted listing, keeps the complete
   * matchup folders and emits one warning (the folder name) per matchup
   * folder missing a file. A missing root gives nothing.
   */
  method FindMatchupFolders(rootExists: bool, listing: seq<Entry>)
    returns (folders: seq<Entry>, warnings: seq<string>)
    ensures !rootExists ==> folders == [] && warnings == []
    ensures rootExists ==> folders == Kept(listing) && warnings == Skipped(listing)
  {
    folders, warnings := [], [];
    if !rootExists {
      return;
    }
    var i := 0;
    while i < |listing|
      invariant 0 <= i <= |listing|
      invariant folders == Kept(listing[..i])
      invariant warnings == Skipped(listing[..i])
    {
      var item := listing[i];
      assert listing[..i + 1][..i] == listing[..i];
      if IsMatchupDir(item) {
        if HasBothFiles(item) {
          folders := folders + [item];
        } else {
          warnings := warnings + [item.name];
        }
      }
      i := i + 1;
    }
    assert listing[..i] == listing;
  }

  /** Discovery keeps exactly the complete matchup folders of the listing. */
  lemma {:induction false} KeptExactly(listing: seq<Entry>, e: Entry)
    ensures e in Kept(listing) <==> e in listing && IsMatchupDir(e) && HasBothFiles(e)
  {
    if listing != [] {
      KeptExactly(listing[..|listing| - 1], e);
      assert listing == listing[..|listing| - 1] + [listing[|listing| - 1]];
    }
  }

  /** Every kept folder sits in the listing at a strictly later position than the one before it. */
  lemma {:induction false} KeptIsSubsequence(listing: seq<Entry>)
    ensures exists idx: seq<nat> :: IsEmbedding(idx, Kept(listing), listing)
  {
    if listing == [] {
      assert IsEmbedding([], Kept(listing), listing);
    } else {
      var init := listing[..|listing| - 1];
      KeptIsSubsequence(init);
      var idx: seq<nat> :| IsEmbedding(idx, Kept(init), init);
      var last := listing[|listing| - 1];
      if IsMatchupDir(last) && HasBothFiles(last) {
        var idx' := idx + [|listing| - 1];
        assert IsEmbedding(idx', Kept(listing), listing);
      } else {
        assert IsEmbedding(idx, Kept(listing), listing);
      }
    }
  }

  /** `idx` picks `sub` out of `s` at strictly increasing positions. */
  ghost predicate IsEmbedding(idx: seq<nat>, sub: seq<Entry>, s: seq<Entry>)
  {
    |idx| == |sub|
    && (forall k :: 0 <= k < |idx| ==> idx[k] < |s| && s[idx[k]] == sub[k])
    && (forall k, l :: 0 <= k < l < |idx| ==> idx[k] < idx[l])
  }

  /** Filtering a sorted listing keeps it sorted. */
  lemma {:induction false} KeptSorted(listing: seq<Entry>)
    requires SortedByName(listing)
    ensures SortedByName(Kept(listing))
  {
    KeptIsSubsequence(listing);
    var idx: seq<nat> :| IsEmbedding(idx, Kept(listing), listing);
    var kept := Kept(listing);
    forall i, j | 0 <= i < j < |kept|
      ensures NameLe(kept[i].name, kept[j].name)
    {
      assert kept[i] == listing[idx[i]] && kept[j] == listing[idx[j]];
    }
  }

  /** Each matchup directory is either kept or warned about, never both. */
  lemma {:induction false} KeptPlusSkipped(listing: seq<Entry>)
    ensures |Kept(listing)| + |Skipped(listing)| == MatchupDirCount(listing)
  {
    if listing != [] {
      KeptPlusSkipped(listing[..|listing| - 1]);
    }
  }

  /** The outcome of one papermill run. */
  datatype NotebookOutcome = Completed | PapermillError(message: string) | OtherError(message: string)

  /** The tuple `analyze_matchup` returns. */
  datatype Analysis = Analysis(success: bool, name: string, error: Option<string>)

  /** The last 500 characters of an over-long papermill message. */
  function TailTruncate(msg: string): (r: string)
    ensures |r| <= MaxErrorLength && |r| <= |msg|
    ensures r == msg[|msg| - |r|..]
    ensures |msg| <= MaxErrorLength ==> r == msg
    ensures |msg| > MaxErrorLength ==> |r| == MaxErrorLength
  {
    if |msg| > MaxErrorLength then msg[|msg| - MaxErrorLength..] else msg
  }

  /** `analyze_matchup` with the notebook run's outcome as input. */
  function AnalyzeMatchup(name: string, outcome: NotebookOutcome): (a: Analysis)
    ensures a.name == name
    ensures a.success <==> outcome.Completed?
    ensures a.success <==> a.error.None?
    ensures outcome.PapermillError? ==> a.error == Some(TailTruncate(outcome.message))
    ensures outcome.OtherError? ==> a.error == Some(outcome.message)
  {
    match outcome
    case Completed => Analysis(true, name, None)
    case PapermillError(m) => Analysis(false, name, Some(TailTruncate(m)))
    case OtherError(m) => Analysis(false, name, Some(m))
  }

  /** A completed future: its result, or the exception `future.result()` raised. */
  datatype FutureResult = Returned(analysis: Analysis) | Raised(message: string)

  /** One entry of `as_completed`, paired with the folder it was submitted for. */
  datatype Completion = Completion(folder: string, result: FutureResult)

  datatype Failure = Failure(name: string, error: string)

  predicate Succeeded(c: Completion)
  {
    c.result.Returned? && c.result.analysis.success
  }

  /** The failure record a non-successful completion produces. */
  function FailureOf(c: Completion): Failure
    requires !Succeeded(c)
  {
    match c.result
    case Returned(a) => Failure(a.name, if a.error.Some? then a.error.value else "")
    case Raised(m) => Failure(c.folder, m)
  }

  function SuccessNames(cs: seq<Completion>): seq<string>
  {
    if cs == [] then []
    else SuccessNames(cs[..|cs| - 1]) + (if Succeeded(cs[|cs| - 1]) then [cs[|cs| - 1].result.analysis.name] else [])
  }

  function Failures(cs: seq<Completion>): seq<Failure>
  {
    if cs == [] then []
    else Failures(cs[..|cs| - 1]) + (if Succeeded(cs[|cs| - 1]) then [] else [FailureOf(cs[|cs| - 1])])
  }

  /** The names of the failures, in order. */
  function FailureNames(fs: seq<Failure>): (names: seq<string>)
    ensures |names| == |fs|
  {
    if fs == [] then [] else FailureNames(fs[..|fs| - 1]) + [fs[|fs| - 1].name]
  }

  /** The folder each completion was submitted for, in completion order. */
  function Folders(cs: seq<Completion>): (names: seq<string>)
    ensures |names| == |cs|
  {
    if cs == [] then [] else Folders(cs[..|cs| - 1]) + [cs[|cs| - 1].folder]
  }

  /** The names of the discovered folders, in order. */
  function EntryNames(es: seq<Entry>): (names: seq<string>)
    ensures |names| == |es|
  {
    if es == [] then [] else EntryNames(es[..|es| - 1]) + [es[|es| - 1].name]
  }

  /** `analyze_matchup` reports the name of the folder it was given. */
  predicate NamedForFolder(c: Completion)
  {
    c.result.Returned? ==> c.result.analysis.name == c.folder
  }

  /**
   * Every completion's folder lands once among the success names and the
   * failure names, whichever way its future ended.
   */
  lemma {:induction false} CollectedNames(cs: seq<Completion>)
    requires forall k :: 0 <= k < |cs| ==> NamedForFolder(cs[k])
    ensures multiset(SuccessNames(cs)) + multiset(FailureNames(Failures(cs))) == multiset(Folders(cs))
  {
    if cs != [] {
      var init := cs[..|cs| - 1];
      var c := cs[|cs| - 1];
      CollectedNames(init);
      var fs := Failures(init);
      var before := multiset(SuccessNames(init)) + multiset(FailureNames(fs));
      assert Folders(cs) == Folders(init) + [c.folder];
      assert multiset(Folders(cs)) == before + multiset{c.folder};
      if Succeeded(c) {
        assert SuccessNames(cs) == SuccessNames(init) + [c.folder];
        assert multiset(SuccessNames(cs)) == multiset(SuccessNames(init)) + multiset{c.folder};
        assert Failures(cs) == fs;
      } else {
        var fs' := fs + [FailureOf(c)];
        assert SuccessNames(cs) == SuccessNames(init);
        assert Failures(cs) == fs';
        assert fs'[..|fs'| - 1] == fs;
        assert FailureNames(fs') == FailureNames(fs) + [c.folder];
        assert multiset(FailureNames(fs')) == multiset(FailureNames(fs)) + multiset{c.folder};
      }
    }
  }

  /**
   * The completion loop of `main`: every completed future lands in exactly
   * one of `successful` and `failed`.
   */
  method CollectResults(completions: seq<Completion>)
    returns (successful: seq<string>, failed: seq<Failure>)
    ensures successful == SuccessNames(completions) && failed == Failures(completions)
    ensures |successful| + |failed| == |completions|
  {
    successful, failed := [], [];
    var i := 0;
    while i < |completions|
      invariant 0 <= i <= |completions|
      invariant successful == SuccessNames(completions[..i])
      invariant failed == Failures(completions[..i])
      invariant |successful| + |failed| == i
    {
      var c := completions[i];
      assert completions[..i + 1][..i] == completions[..i];
      match c.result {
        case Returned(a) =>
          if a.success {
            successful := successful + [a.name];
          } else {
            failed := failed + [Failure(a.name, if a.error.Some? then a.error.value else "")];
          }
        case Raised(m) =>
          failed := failed + [Failure(c.folder, m)];
      }
      i := i + 1;
    }
    assert completions[..i] == completions;
  }

  /** `error[:100]`. */
  function Head(s: string): (r: string)
    ensures |r| <= ShownErrorLength && |r| <= |s|
    ensures r == s[..|r|]
    ensures |s| <= ShownErrorLength ==> r == s
    ensures |s| > ShownErrorLength ==> |r| == ShownErrorLength
  {
    if |s| > ShownErrorLength then s[..ShownErrorLength] else s
  }

  /** The progress line printed under a failed analysis, only when the error is non-empty. */
  function ProgressErrorLine(error: string): (line: Option<string>)
    ensures line.Some? <==> error != ""
    ensures line.Some? ==> line.value == "    Error: " + Head(error)
  {
    if error != "" then Some("    Error: " + Head(error)) else None
  }

  function FailureLine(f: Failure): string
  {
    "  - " + f.name + ": " + Head(f.error)
  }

  function FailureLines(fs: seq<Failure>): (lines: seq<string>)
    ensures |lines| == |fs|
    ensures forall k :: 0 <= k < |fs| ==> lines[k] == FailureLine(fs[k])
  {
    if fs == [] then [] else [FailureLine(fs[0])] + FailureLines(fs[1..])
  }

  /** The failure summary: the first ten failures, then "... and K more". */
  function FailureReport(failed: seq<Failure>): (lines: seq<string>)
    ensures |failed| <= ShownFailures ==> |lines| == |failed|
    ensures |failed| > ShownFailures ==> |lines| == ShownFailures + 1
    ensures forall k :: 0 <= k < |lines| && k < ShownFailures && k < |failed| ==> lines[k] == FailureLine(failed[k])
    ensures |failed| > ShownFailures ==>
      lines[ShownFailures] == "  ... and " + NatToString(|failed| - ShownFailures) + " more"
  {
    var shown := if |failed| > ShownFailures then failed[..ShownFailures] else failed;
    FailureLines(shown)
      + (if |failed| > ShownFailures then ["  ... and " + NatToString(|failed| - ShownFailures) + " more"] else [])
  }

  /** The exit code `main` returns after discovery and the completion loop. */
  function ExitCode(rootExists: bool, notebookExists: bool, folderCount: nat, failedCount: nat): (code: int)
    ensures code == 1 <==> !rootExists || !notebookExists || folderCount == 0
    ensures code == 0 <==> rootExists && notebookExists && folderCount > 0 && failedCount == 0
    ensures code == 2 <==> rootExists && notebookExists && folderCount > 0 && failedCount > 0
  {
    if !rootExists then 1
    else if !notebookExists then 1
    else if folderCount == 0 then 1
    else if failedCount == 0 then 0
    else 2
  }

  /**
   * `main` without the pool: discovery, one completion per discovered
   * folder, the summary and the exit code.
   */
  method RunBatch(rootExists: bool, notebookExists: bool, listing: seq<Entry>, completions: seq<Completion>)
    returns (code: int, successful: seq<string>, failed: seq<Failure>, report: seq<string>)
    requires rootExists && notebookExists ==> multiset(Folders(completions)) == multiset(EntryNames(Kept(listing)))
    requires forall k :: 0 <= k < |completions| ==> NamedForFolder(completions[k])
    ensures code == ExitCode(rootExists, notebookExists, if rootExists then |Kept(listing)| else 0, |failed|)
    ensures code in {0, 1, 2}
    ensures code != 1 ==> |successful| + |failed| == |Kept(listing)| && report == FailureReport(failed)
    ensures code != 1 ==> multiset(successful) + multiset(FailureNames(failed)) == multiset(EntryNames(Kept(listing)))
    ensures code == 0 ==> failed == [] && |successful| == |Kept(listing)|
  {
    successful, failed, report := [], [], [];
    if !rootExists || !notebookExists {
      code := 1;
      return;
    }
    var folders, warnings := FindMatchupFolders(rootExists, listing);
    if |folders| == 0 {
      code := 1;
      return;
    }
    successful, failed := CollectResults(completions);
    CollectedNames(completions);
    assert |Folders(completions)| == |multiset(Folders(completions))| == |EntryNames(Kept(listing))|;
    report := FailureReport(failed);
    code := if |failed| == 0 then 0 else 2;
  }
}
