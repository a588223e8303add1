// The file and frame bookkeeping of the HyperTree inference script: taking
// a file name from a URL, recognising and stripping an archive extension,
// expanding the list of files into one entry per evaluated frame, and the
// counters that label each evaluated frame with its file and frame number.
//
// Reading HDF5 files, downloading, the model and its scores, and the CSV
// and plot output are outside the model: their results are parameters.

module HyperTreeInference {
  import opened Wrappers
  import opened PyStrings

  datatype PyError =
    | NameError(name: string)
    | IndexError
    | ZeroDivisionError
      /** The `ValueError` raised when the fetched file is missing; its message names these four. */
    | MissingFile(url: string, extension: Option<string>, fileHash: Option<string>, path: string)

  // ---------------------------------------------------------------------
  // URLs and archive extensions.
  // ---------------------------------------------------------------------

  /** `extract_filename_from_url`: the text after the last `/` (all of it when there is none). */
  function ExtractFilename(url: string): (r: string)
    ensures forall k :: 0 <= k < |r| ==> r[k] != '/'
    ensures exists p :: 0 <= p <= |url| && url == url[..p] + r && (p == 0 || url[p - 1] == '/')
    ensures (forall k :: 0 <= k < |url| ==> url[k] != '/') ==> r == url
  {
    var p := RFind(url, '/') + 1;
    assert url == url[..p] + url[p..];
    url[p..]
  }

  /** The archive extensions `get_file_from_url` looks for, in the order it tests them. */
  const Extensions: seq<string> := [".tar", ".tar.gz", ".tar.bz", ".zip"]

  /** The last of `exts` that occurs in `filename`. */
  function LastMatch(filename: string, exts: seq<string>): (r: Option<string>)
    ensures r.Some? ==> r.value in exts
  {
    if exts == [] then None
    else if Contains(filename, exts[|exts| - 1]) then Some(exts[|exts| - 1])
    else LastMatch(filename, exts[..|exts| - 1])
  }

  /**
   * The extension found is one of the list that occurs in the file name and
   * no extension after it in the list occurs; none is found only when none
   * occurs.
   */
  lemma {:induction false} LastMatchSpec(filename: string, exts: seq<string>)
    ensures LastMatch(filename, exts).None? <==> forall i :: 0 <= i < |exts| ==> !Contains(filename, exts[i])
    ensures LastMatch(filename, exts).Some? ==>
              exists i :: 0 <= i < |exts| && exts[i] == LastMatch(filename, exts).value
                          && Contains(filename, exts[i])
                          && forall j :: i < j < |exts| ==> !Contains(filename, exts[j])
  {
    if exts != [] {
      var init := exts[..|exts| - 1];
      LastMatchSpec(filename, init);
      if !Contains(filename, exts[|exts| - 1]) {
        if LastMatch(filename, init).Some? {
          var i :| 0 <= i < |init| && init[i] == LastMatch(filename, init).value
                   && Contains(filename, init[i])
                   && forall j :: i < j < |init| ==> !Contains(filename, init[j]);
          assert exts[i] == init[i];
          forall j | i < j < |exts| ensures !Contains(filename, exts[j]) {
            if j < |init| {
              assert exts[j] == init[j];
            }
          }
        } else {
          forall i | 0 <= i < |exts| ensures !Contains(filename, exts[i]) {
            if i < |init| {
              assert exts[i] == init[i];
            }
          }
        }
      }
    }
  }

  /**
   * The extension scan: with `extract` on, each extension of the list is
   * tested in turn and remembered when it occurs in the file name, so the
   * last occurring one wins.
   */
  method FindExtension(filename: string, extract: bool) returns (found: Option<string>)
    ensures found == if extract then LastMatch(filename, Extensions) else None
  {
    found := None;
    if extract {
      var i := 0;
      while i < |Extensions|
        invariant 0 <= i <= |Extensions|
        invariant found == LastMatch(filename, Extensions[..i])
      {
        assert Extensions[..i + 1][..i] == Extensions[..i];
        if Contains(filename, Extensions[i]) {
          found := Some(Extensions[i]);
        }
        i := i + 1;
      }
      assert Extensions[..|Extensions|] == Extensions;
    }
  }

  /**
   * A `.tar.gz` archive is recognised as such, not as `.tar`, although
   * `.tar` also occurs in its name.
   */
  lemma TarGzWins(filename: string)
    requires Contains(filename, ".tar.gz")
    requires !Contains(filename, ".tar.bz") && !Contains(filename, ".zip")
    ensures Contains(filename, ".tar")
    ensures LastMatch(filename, Extensions) == Some(".tar.gz")
  {
    ContainsIff(filename, ".tar.gz");
    var i :| OccursAt(filename, ".tar.gz", i);
    assert filename[i..i + 4] == filename[i..i + 7][..4];
    assert OccursAt(filename, ".tar", i);
    ContainsIff(filename, ".tar");
    var e := Extensions;
    assert e[3] == ".zip" && e[..3][2] == ".tar.bz" && e[..3][..2][1] == ".tar.gz";
    assert |e| == 4 && |e[..3]| == 3 && |e[..3][..2]| == 2;
    assert LastMatch(filename, e) == LastMatch(filename, e[..3]);
    assert LastMatch(filename, e[..3]) == LastMatch(filename, e[..3][..2]);
  }

  /**
   * `get_file_from_url` as written: its first line calls
   * `extract_filename_from_url` without `self.`, a name the module does
   * not define, so every call raises before anything is fetched.
   */
  function GetFileFromUrlAsWritten(url: string, extract: bool, fileHash: Option<string>): (r: Result<string, PyError>)
    ensures r.Failure? && r.error.NameError?
  {
    Failure(NameError("extract_filename_from_url"))
  }

  /**
   * `get_file_from_url` with the method called on `self`: `fetched` is the
   * path the downloader returns for the file name and URL, and `isFile`
   * tells which paths exist. A recognised extension is removed from the
   * path wherever it occurs; a path that does not exist raises.
   */
  function GetFileFromUrl(url: string, extract: bool, fileHash: Option<string>,
                          fetched: string, isFile: string -> bool): (r: Result<string, PyError>)
    ensures var ext := if extract then LastMatch(ExtractFilename(url), Extensions) else None;
      var path := if ext.Some? then RemoveAll(fetched, ext.value) else fetched;
      && (r.Success? <==> isFile(path))
      && (r.Success? ==> r.value == path)
      && (r.Failure? ==> r.error == MissingFile(url, ext, fileHash, path))
      && (ext.Some? ==> |path| == |fetched| - |ext.value| * CountRemoved(fetched, ext.value))
      && (ext.None? || !Contains(fetched, ext.value) ==> path == fetched)
  {
    var filename := ExtractFilename(url);
    var ext := if extract then LastMatch(filename, Extensions) else None;
    if ext.Some? then
      LastMatchSpec(filename, Extensions);
      RemoveAllLength(fetched, ext.value);
      if !Contains(fetched, ext.value) then RemoveAllAbsent(fetched, ext.value); Finish(url, ext, fileHash, RemoveAll(fetched, ext.value), isFile)
      else Finish(url, ext, fileHash, RemoveAll(fetched, ext.value), isFile)
    else Finish(url, ext, fileHash, fetched, isFile)
  }

  function Finish(url: string, ext: Option<string>, fileHash: Option<string>, path: string,
                  isFile: string -> bool): Result<string, PyError>
  {
    if isFile(path) then Success(path) else Failure(MissingFile(url, ext, fileHash, path))
  }

  /**
   * Where the fetched file exists, the corrected function returns it while
   * the function as written raises; with extraction off, the path is used
   * as fetched.
   */
  lemma FetchRaisesAsWritten(url: string, fileHash: Option<string>, fetched: string, isFile: string -> bool)
    requires isFile(fetched)
    ensures GetFileFromUrlAsWritten(url, false, fileHash).Failure?
    ensures GetFileFromUrl(url, false, fileHash, fetched, isFile) == Success(fetched)
  {
  }

  /** A `.zip` name is always stripped of `.zip`, since `.zip` is the last extension tested. */
  lemma ZipIsStripped(url: string, fileHash: Option<string>, fetched: string, isFile: string -> bool)
    requires Contains(ExtractFilename(url), ".zip")
    requires isFile(RemoveAll(fetched, ".zip"))
    ensures GetFileFromUrl(url, true, fileHash, fetched, isFile) == Success(RemoveAll(fetched, ".zip"))
  {
  }

  // ---------------------------------------------------------------------
  // Frames and their labels.
  // ---------------------------------------------------------------------

  /** The labels `(file, frame)` of a file's frames: frames 1 to `n`, none when `n` is not positive. */
  function FileRows(file: nat, n: int): (r: seq<(nat, int)>)
    ensures |r| == if n > 0 then n else 0
    ensures forall j :: 0 <= j < |r| ==> r[j] == (file, j + 1)
  {
    if n <= 0 then [] else seq(n, j => (file, j + 1))
  }

  /** The label of every frame of every file, files in order, each numbered from 1. */
  function FrameRows(lens: seq<int>): (r: seq<(nat, int)>)
    ensures forall p :: 0 <= p < |r| ==> r[p].0 < |lens| && r[p].1 >= 1
  {
    if lens == [] then []
    else FrameRows(lens[..|lens| - 1]) + FileRows(|lens| - 1, lens[|lens| - 1])
  }

  /** The per-frame file list: the file name of each labelled frame. */
  function Expanded(names: seq<string>, lens: seq<int>): (r: seq<string>)
    requires |names| == |lens|
    ensures |r| == |FrameRows(lens)|
  {
    var rows := FrameRows(lens);
    seq(|rows|, p requires 0 <= p < |rows| => names[rows[p].0])
  }

  /**
   * Consecutive frame labels either stay in one file with the next frame
   * number or move to frame 1 of the next file, when every file has frames.
   */
  lemma {:induction false} FrameRowsStep(lens: seq<int>, p: nat)
    requires forall i :: 0 <= i < |lens| ==> lens[i] >= 1
    requires p + 1 < |FrameRows(lens)|
    ensures var r := FrameRows(lens);
            (r[p + 1].0 == r[p].0 && r[p + 1].1 == r[p].1 + 1) || (r[p + 1].0 == r[p].0 + 1 && r[p + 1].1 == 1)
  {
    var init := lens[..|lens| - 1];
    var front := FrameRows(init);
    var rows := FrameRows(lens);
    assert rows == front + FileRows(|lens| - 1, lens[|lens| - 1]);
    if p + 1 < |front| {
      FrameRowsStep(init, p);
      assert rows[p] == front[p] && rows[p + 1] == front[p + 1];
    } else if p + 1 == |front| {
      FrameRowsLast(init);
      assert rows[p] == front[p];
    }
  }

  /** The last label belongs to the last file and carries its frame count. */
  lemma {:induction false} FrameRowsLast(lens: seq<int>)
    requires forall i :: 0 <= i < |lens| ==> lens[i] >= 1
    ensures lens != [] ==> |FrameRows(lens)| > 0
                           && FrameRows(lens)[|FrameRows(lens)| - 1] == (|lens| - 1, lens[|lens| - 1])
  {
  }

  /** The first label is frame 1 of file 0, when every file has frames. */
  lemma {:induction false} FrameRowsFirst(lens: seq<int>)
    requires lens != [] && forall i :: 0 <= i < |lens| ==> lens[i] >= 1
    ensures |FrameRows(lens)| > 0 && FrameRows(lens)[0] == (0, 1)
  {
    var init := lens[..|lens| - 1];
    if init != [] {
      FrameRowsFirst(init);
    }
  }

  /** The state of the counter loop of `evaluate_model`. */
  datatype Counters = Counters(file: nat, frame: int, frameLen: int, rows: seq<(nat, int)>)

  /** Python's `a % b` for `b != 0`: the remainder takes the sign of `b`. */
  function PyMod(a: int, b: int): (r: int)
    requires b != 0
    ensures b > 0 ==> 0 <= r < b
    ensures b < 0 ==> b < r <= 0
  {
    if b > 0 then a % b
    else if a % (-b) == 0 then 0
    else a % (-b) + b
  }

  /**
   * One pass of the counter loop for frame `i`. The frame's file name is
   * compared with entry `file` of `reference`; a different name moves to
   * the next file, frame count 0. The frame count then grows by
   * `1 % frameLen` as written (Python reads `frame_counter += 1 % frame_len`
   * as adding `1 % frame_len`), or by 1 when `corrected`.
   */
  function CounterStep(s: Counters, updated: seq<string>, lens: seq<int>, reference: seq<string>,
                       i: nat, corrected: bool): (r: Result<Counters, PyError>)
    ensures r.Success? ==> i < |updated| && s.file < |reference|
    ensures r.Success? && updated[i] == reference[s.file] ==> r.value.file == s.file && r.value.frameLen == s.frameLen
    ensures r.Success? && updated[i] != reference[s.file] ==>
              s.file + 1 < |lens| && r.value.file == s.file + 1 && r.value.frameLen == lens[s.file + 1]
    ensures r.Success? ==> r.value.rows == s.rows + [(r.value.file, r.value.frame)]
  {
    if i >= |updated| || s.file >= |reference| then Failure(IndexError)
    else if updated[i] != reference[s.file] && s.file + 1 >= |lens| then Failure(IndexError)
    else
      var t := if updated[i] != reference[s.file] then Counters(s.file + 1, 0, lens[s.file + 1], s.rows) else s;
      if !corrected && t.frameLen == 0 then Failure(ZeroDivisionError)
      else
        var frame := t.frame + if corrected then 1 else PyMod(1, t.frameLen);
        Success(Counters(t.file, frame, t.frameLen, t.rows + [(t.file, frame)]))
  }

  /**
   * The increment `1 % frame_len` is 1 for a file of more than one frame,
   * 0 for a file of one frame, and `frame_len + 1` (zero or negative) for
   * the negative lengths a file with no goal index produces.
   */
  lemma FrameIncrement(frameLen: int)
    requires frameLen != 0
    ensures frameLen > 1 ==> PyMod(1, frameLen) == 1
    ensures frameLen == 1 ==> PyMod(1, frameLen) == 0
    ensures frameLen < 0 ==> PyMod(1, frameLen) == frameLen + 1
  {
  }

  /** The counters after `n` passes of the loop. */
  function CountersAfter(updated: seq<string>, lens: seq<int>, reference: seq<string>,
                         n: nat, corrected: bool): Result<Counters, PyError>
  {
    if n == 0 then
      if lens == [] then Failure(IndexError) else Success(Counters(0, 0, lens[0], []))
    else
      match CountersAfter(updated, lens, reference, n - 1, corrected)
      case Failure(e) => Failure(e)
      case Success(s) => CounterStep(s, updated, lens, reference, n - 1, corrected)
  }

  /** Once the loop has raised, the later passes never run: the error is the loop's outcome. */
  lemma {:induction false} FailurePersists(updated: seq<string>, lens: seq<int>, reference: seq<string>,
                                           n: nat, m: nat, corrected: bool)
    requires n <= m && CountersAfter(updated, lens, reference, n, corrected).Failure?
    ensures CountersAfter(updated, lens, reference, m, corrected) == CountersAfter(updated, lens, reference, n, corrected)
    decreases m - n
  {
    if n < m {
      FailurePersists(updated, lens, reference, n, m - 1, corrected);
    }
  }

  /** Consecutive labels stay in one file with the next frame number, or move to frame 1 of the next file. */
  predicate LabelSteps(rows: seq<(nat, int)>)
  {
    forall p :: 0 <= p < |rows| - 1 ==>
      (rows[p + 1].0 == rows[p].0 && rows[p + 1].1 == rows[p].1 + 1) || (rows[p + 1].0 == rows[p].0 + 1 && rows[p + 1].1 == 1)
  }

  /**
   * With the frame count incremented by one and the file names compared
   * against the list the frames were expanded from, the first `n` passes
   * label the frames with `rows` — any labelling that starts at frame 1 of
   * file 0 and moves on frame by frame, switching file only where the name
   * changes.
   */
  lemma {:induction false} CorrectedCountersFollowLabels(names: seq<string>, lens: seq<int>, rows: seq<(nat, int)>,
                                                         updated: seq<string>, n: nat)
    requires |names| == |lens| && forall i :: 0 <= i < |names| - 1 ==> names[i] != names[i + 1]
    requires |updated| == |rows| && forall p :: 0 <= p < |rows| ==> rows[p].0 < |lens| && updated[p] == names[rows[p].0]
    requires |rows| > 0 && rows[0] == (0, 1) && LabelSteps(rows)
    requires 1 <= n <= |rows|
    ensures CountersAfter(updated, lens, names, n, true)
              == Success(Counters(rows[n - 1].0, rows[n - 1].1, lens[rows[n - 1].0], rows[..n]))
  {
    if n == 1 {
      assert rows[..1] == [] + [(0, 1)];
    } else {
      CorrectedCountersFollowLabels(names, lens, rows, updated, n - 1);
      var prev, cur := rows[n - 2], rows[n - 1];
      var st := Counters(prev.0, prev.1, lens[prev.0], rows[..n - 1]);
      assert CountersAfter(updated, lens, names, n, true) == CounterStep(st, updated, lens, names, n - 1, true);
      PrefixSnoc(rows, n);
      CorrectedStep(st, updated, lens, names, n - 1);
      if cur.0 == prev.0 {
        assert cur.1 == prev.1 + 1;
      } else {
        assert names[prev.0] != names[cur.0];
      }
    }
  }

  /**
   * All frames labelled: with every file non-empty and no file name
   * repeating the one before it, the corrected loop's rows are exactly the
   * frame labels, each frame numbered from 1 within its file.
   */
  lemma CorrectedCountersRows(names: seq<string>, lens: seq<int>)
    requires |names| == |lens| && forall i :: 0 <= i < |lens| ==> lens[i] >= 1
    requires forall i :: 0 <= i < |names| - 1 ==> names[i] != names[i + 1]
    requires |FrameRows(lens)| > 0
    ensures var r := CountersAfter(Expanded(names, lens), lens, names, |FrameRows(lens)|, true);
            r.Success? && r.value.rows == FrameRows(lens)
  {
    var rows := FrameRows(lens);
    FrameRowsFirst(lens);
    forall p | 0 <= p < |rows| - 1
      ensures (rows[p + 1].0 == rows[p].0 && rows[p + 1].1 == rows[p].1 + 1) || (rows[p + 1].0 == rows[p].0 + 1 && rows[p + 1].1 == 1)
    {
      FrameRowsStep(lens, p);
    }
    CorrectedCountersFollowLabels(names, lens, rows, Expanded(names, lens), |rows|);
    assert rows[..|rows|] == rows;
  }

  lemma PrefixSnoc<T>(s: seq<T>, n: nat)
    requires 1 <= n <= |s|
    ensures s[..n] == s[..n - 1] + [s[n - 1]]
  {
  }

  /** One pass of the corrected loop: the same file with the next frame, or frame 1 of the next file. */
  lemma CorrectedStep(s: Counters, updated: seq<string>, lens: seq<int>, reference: seq<string>, i: nat)
    requires i < |updated| && s.file < |reference|
    requires updated[i] != reference[s.file] ==> s.file + 1 < |lens|
    ensures CounterStep(s, updated, lens, reference, i, true)
            == if updated[i] == reference[s.file]
               then Success(Counters(s.file, s.frame + 1, s.frameLen, s.rows + [(s.file, s.frame + 1)]))
               else Success(Counters(s.file + 1, 1, lens[s.file + 1], s.rows + [(s.file + 1, 1)]))
  {
  }

  /** As written, the frame of a one-frame file is numbered 0 instead of 1. */
  lemma OneFrameFileNumberedZero()
    ensures CountersAfter(["a.h5"], [1], ["a.h5"], 1, false) == Success(Counters(0, 0, 1, [(0, 0)]))
    ensures FrameRows([1]) == [(0, 1)]
  {
    var names: seq<string> := ["a.h5"];
    var s := Counters(0, 0, 1, []);
    assert CountersAfter(names, [1], names, 0, false) == Success(s);
    assert PyMod(1, 1) == 0;
    assert names[0] == names[s.file];
    assert s.rows + [(0, 0)] == [(0, 0)];
    assert CounterStep(s, names, [1], names, 0, false) == Success(Counters(0, 0, 1, [(0, 0)]));
    assert [1][..0] == [];
  }

  /**
   * As run from the script, the loop compares each file name with one
   * character of the path of the list file (the module-level `filenames`),
   * so the first frame already moves to the next file and, with a single
   * file, runs past the end of the length list.
   */
  lemma ScriptReferenceOverruns()
    ensures CountersAfter(["a.h5"], [1], ["C", ":"], 1, false) == Failure(IndexError)
  {
  }

  // ---------------------------------------------------------------------
  // The inference object.
  // ---------------------------------------------------------------------

  class HyperTreeInference {
    var fileListUpdated: seq<string>
    var fileLenList: seq<int>
    var gripperActionGoalIdx: seq<seq<int>>

    constructor ()
      ensures fileListUpdated == [] && fileLenList == [] && gripperActionGoalIdx == []
    {
      fileListUpdated := [];
      fileLenList := [];
      gripperActionGoalIdx := [];
    }

    /**
     * `inference_mode_gen`: `goalIdx[i]` is the goal-index list read from
     * file `i`. Each file contributes one less frame than its list has
     * entries; the per-frame list repeats each name that many times. The
     * goal-index lists accumulate across calls; the two lists are rebuilt.
     */
    method InferenceModeGen(fileNames: seq<string>, goalIdx: seq<seq<int>>)
      requires |goalIdx| == |fileNames|
      modifies this
      ensures |fileLenList| == |fileNames|
      ensures forall i :: 0 <= i < |fileNames| ==> fileLenList[i] == |goalIdx[i]| - 1
      ensures gripperActionGoalIdx == old(gripperActionGoalIdx) + goalIdx
      ensures fileListUpdated == Expanded(fileNames, fileLenList)
    {
      var lens: seq<int> := [];
      var goals := gripperActionGoalIdx;
      var i := 0;
      while i < |fileNames|
        invariant 0 <= i <= |fileNames| && |lens| == i
        invariant forall k :: 0 <= k < i ==> lens[k] == |goalIdx[k]| - 1
        invariant goals == old(gripperActionGoalIdx) + goalIdx[..i]
      {
        lens := lens + [|goalIdx[i]| - 1];
        goals := goals + [goalIdx[i]];
        assert goalIdx[..i + 1] == goalIdx[..i] + [goalIdx[i]];
        i := i + 1;
      }
      assert goalIdx[..i] == goalIdx;
      var updated: seq<string> := [];
      var f := 0;
      while f < |fileNames|
        invariant 0 <= f <= |fileNames|
        invariant updated == Expanded(fileNames[..f], lens[..f])
      {
        var j := 0;
        while j < lens[f]
          invariant 0 <= j && (j <= lens[f] || j == 0)
          invariant updated == Expanded(fileNames[..f], lens[..f]) + seq(j, _ => fileNames[f])
        {
          updated := updated + [fileNames[f]];
          j := j + 1;
        }
        ExpandedNext(fileNames, lens, f);
        f := f + 1;
      }
      assert fileNames[..f] == fileNames && lens[..f] == lens;
      fileListUpdated, fileLenList, gripperActionGoalIdx := updated, lens, goals;
    }

    /**
     * The counter loop of `evaluate_model`: `steps` passes (the generator's
     * length), comparing against `reference` (the module-level `filenames`).
     * It returns the `[file_counter, frame_counter]` prefix of every row
     * written. With `corrected` off the frame count grows by `1 % frame_len`
     * as written; with it on, by 1.
     */
    method EvaluateCounters(reference: seq<string>, steps: nat, corrected: bool) returns (r: Result<seq<(nat, int)>, PyError>)
      ensures var c := CountersAfter(fileListUpdated, fileLenList, reference, steps, corrected);
              && (r.Success? <==> c.Success?)
              && (r.Success? ==> r.value == c.value.rows && |r.value| == steps)
              && (r.Failure? ==> r.error == c.error)
    {
      var updated, lens := fileListUpdated, fileLenList;
      if lens == [] {
        FailurePersists(updated, lens, reference, 0, steps, corrected);
        return Failure(IndexError);
      }
      var frameCounter := 0;
      var fileCounter: nat := 0;
      var frameLen := lens[0];
      var rows: seq<(nat, int)> := [];
      var i := 0;
      while i < steps
        invariant 0 <= i <= steps && |rows| == i
        invariant CountersAfter(updated, lens, reference, i, corrected)
                  == Success(Counters(fileCounter, frameCounter, frameLen, rows))
      {
        ghost var next := CounterStep(Counters(fileCounter, frameCounter, frameLen, rows), updated, lens, reference, i, corrected);
        assert CountersAfter(updated, lens, reference, i + 1, corrected) == next;
        if i >= |updated| || fileCounter >= |reference| {
          FailurePersists(updated, lens, reference, i + 1, steps, corrected);
          return Failure(IndexError);
        }
        if updated[i] != reference[fileCounter] {
          if fileCounter + 1 >= |lens| {
            FailurePersists(updated, lens, reference, i + 1, steps, corrected);
            return Failure(IndexError);
          }
          fileCounter := fileCounter + 1;
          frameLen := lens[fileCounter];
          frameCounter := 0;
        }
        if !corrected && frameLen == 0 {
          FailurePersists(updated, lens, reference, i + 1, steps, corrected);
          return Failure(ZeroDivisionError);
        }
        frameCounter := frameCounter + if corrected then 1 else PyMod(1, frameLen);
        rows := rows + [(fileCounter, frameCounter)];
        i := i + 1;
      }
      return Success(rows);
    }
  }

  lemma ExpandedNext(names: seq<string>, lens: seq<int>, f: nat)
    requires |names| == |lens| && f < |names|
    ensures Expanded(names[..f + 1], lens[..f + 1])
            == Expanded(names[..f], lens[..f]) + seq(if lens[f] > 0 then lens[f] else 0, _ => names[f])
  {
    var ns, ls := names[..f + 1], lens[..f + 1];
    assert ns[..f] == names[..f] && ls[..f] == lens[..f];
    assert FrameRows(ls) == FrameRows(lens[..f]) + FileRows(f, lens[f]);
  }
}
