// The rotating log file (src/logging/Logger.cpp: log, rotateIfNeededLocked).

module LogRotation {
  const MAX_ROTATED_FILES: nat := 5
  const RETRY_BYTES: nat := 1024 * 1024

  // `limit` notes, when a file becomes a copy, the threshold in force plus the
  // length of its last line.
  datatype LogFile = LogFile(text: string, limit: int)

  // The live file is file 0, its numbered copies are files 1 to 5.
  type Files = map<nat, LogFile>

  const LIVE: nat := 0
  const NEW_FILE := LogFile("", 0)

  function Content(files: Files, k: nat): string { if k in files then files[k].text else "" }

  // Copies k down to 1.
  function Copies(files: Files, k: nat): string { if k == 0 then "" else Content(files, k) + Copies(files, k - 1) }

  // Everything the files still hold, oldest first.
  function Tail(files: Files): string { Copies(files, MAX_ROTATED_FILES) + Content(files, LIVE) }

  function Line(text: string): string { text + "\r\n" }

  // Renaming replaces the target.
  function MovedTo(files: Files, k: nat, target: nat): Files {
    if k in files then files[target := files[k]] - {k} else files
  }

  // Copies k, k - 1, ..., 1 move up by one.
  function MovedUp(files: Files, k: nat): Files
    decreases k
  {
    if k == 0 then files else MovedUp(MovedTo(files, k, k + 1), k - 1)
  }

  // What the file system does during one call: whether the live file can be
  // renamed (another process may hold it open) and opened again.
  datatype Luck = Luck(renames: bool, opens: bool)

  datatype Log = Log(files: Files, open: bool, rotateAt: int)

  function Opened(files: Files, opens: bool): Files {
    if opens && LIVE !in files then files[LIVE := NEW_FILE] else files
  }

  // The live file becomes copy 1.
  function Renamed(files: Files, limit: int): Files {
    if LIVE in files then MovedTo(files[LIVE := files[LIVE].(limit := limit)], LIVE, 1) else files
  }

  function Rotated(log: Log, max: int, last: int, luck: Luck): Log {
    var shifted := MovedUp(log.files, MAX_ROTATED_FILES - 1);
    var renamed := luck.renames && LIVE in shifted;
    var files := Opened(if renamed then Renamed(shifted, log.rotateAt + last) else shifted, luck.opens);
    Log(files, luck.opens, if renamed || !luck.opens then max else |Content(files, LIVE)| + RETRY_BYTES)
  }

  function Appended(files: Files, line: string): Files { files[LIVE := LogFile(Content(files, LIVE) + line, 0)] }

  function Written(log: Log, max: int, text: string, luck: Luck): Log {
    if !log.open then log
    else
      var next := log.(files := Appended(log.files, Line(text)));
      if |Content(next.files, LIVE)| < log.rotateAt then next else Rotated(next, max, |Line(text)|, luck)
  }

  // ----- The logger -----

  class Logger {
    const maxFileBytes: int
    const level: int
    var files: Files
    var open: bool
    var rotateAt: int

    ghost function View(): Log
      reads this
    {
      Log(files, open, rotateAt)
    }

    constructor (files: Files, maxFileBytes: int, level: int, opens: bool)
      ensures View() == Log(Opened(files, opens), opens, maxFileBytes)
      ensures this.maxFileBytes == maxFileBytes && this.level == level
    {
      this.files := Opened(files, opens);
      this.maxFileBytes, this.level := maxFileBytes, level;
      open, rotateAt := opens, maxFileBytes;
    }

    // The file is opened again (it may have grown past the threshold).
    method Configure(opens: bool)
      modifies this
      ensures View() == Log(Opened(old(files), opens), opens, maxFileBytes)
    {
      rotateAt := maxFileBytes;
      open := opens;
      files := Opened(files, open);
    }

    method Write(level: int, text: string, luck: Luck)
      modifies this
      ensures View() == if level < this.level then old(View()) else Written(old(View()), maxFileBytes, text, luck)
    {
      if level < this.level {
        return;
      }
      if open {
        files := Appended(files, Line(text));
        RotateIfNeeded(|Line(text)|, luck);
      }
    }

    method RotateIfNeeded(last: int, luck: Luck)
      requires open && LIVE in files
      modifies this
      ensures View()
              == if |Content(old(files), LIVE)| < old(rotateAt) then old(View())
                  else Rotated(old(View()), maxFileBytes, last, luck)
    {
      if |Content(files, LIVE)| < rotateAt {
        return;
      }
      for i := MAX_ROTATED_FILES - 1 downto 0
        invariant MovedUp(files, i) == MovedUp(old(files), MAX_ROTATED_FILES - 1)
        invariant open == old(open) && rotateAt == old(rotateAt)
      {
        // What was at i + 2 has moved on, or is the oldest copy and is dropped.
        files := MovedTo(files, i + 1, i + 2);
      }
      var rotated := luck.renames && LIVE in files;
      if rotated {
        files := Renamed(files, rotateAt + last);
      }
      open := luck.opens;
      files := Opened(files, open);
      // A live file that could not be renamed is tried again a megabyte later.
      rotateAt := if rotated || !open then maxFileBytes else |Content(files, LIVE)| + RETRY_BYTES;
    }
  }

  // ----- What the files hold -----

  predicate OnlyLog(files: Files) { forall k :: k in files ==> k <= MAX_ROTATED_FILES }

  predicate IsSuffix(s: string, all: string) { |s| <= |all| && all[|all| - |s|..] == s }

  predicate SameFile(a: Files, i: nat, b: Files, j: nat) { (i in a <==> j in b) && (i in a ==> a[i] == b[j]) }

  // Moving up touches copies 1 to k + 1 only, and leaves no copy 1; the copy
  // at k + 1 is lost when there is a copy k.
  lemma {:induction false} MovedUpMeans(files: Files, k: nat, j: nat)
    requires k >= 1
    ensures 1 !in MovedUp(files, k)
    ensures j > k + 1 || j == 0 ==> SameFile(MovedUp(files, k), j, files, j)
    ensures 2 <= j <= k ==> SameFile(MovedUp(files, k), j, files, j - 1)
    ensures if k in files then SameFile(MovedUp(files, k), k + 1, files, k)
            else SameFile(MovedUp(files, k), k + 1, files, k + 1)
    decreases k
  {
    var next := MovedTo(files, k, k + 1);
    if k > 1 {
      MovedUpMeans(next, k - 1, j);
      MovedUpMeans(next, k - 1, k + 1);
    }
  }

  lemma {:induction false} CopiesOf(a: Files, b: Files, k: nat)
    requires forall j :: 1 <= j <= k ==> Content(a, j) == Content(b, j)
    ensures Copies(a, k) == Copies(b, k)
  {
    if k > 0 {
      CopiesOf(a, b, k - 1);
    }
  }

  lemma FiveCopies(files: Files)
    ensures Copies(files, 5)
            == Content(files, 5) + (Content(files, 4) + (Content(files, 3) + (Content(files, 2) + Content(files, 1))))
  {
    assert Copies(files, 0) == "";
    assert Copies(files, 1) == Content(files, 1) + "" == Content(files, 1);
    assert Copies(files, 3) == Content(files, 3) + Copies(files, 2);
  }

  lemma MovedUpFiles(files: Files)
    ensures var shifted := MovedUp(files, 4);
            && SameFile(shifted, LIVE, files, LIVE) && 1 !in shifted
            && SameFile(shifted, 2, files, 1) && SameFile(shifted, 3, files, 2) && SameFile(shifted, 4, files, 3)
            && SameFile(shifted, 5, files, if 4 in files then 4 else 5)
  {
    MovedUpMeans(files, 4, 0);
    MovedUpMeans(files, 4, 2);
    MovedUpMeans(files, 4, 3);
    MovedUpMeans(files, 4, 4);
    hide MovedUp;
  }

  lemma ShiftedText(c1: string, c2: string, c3: string, c4: string, c5: string, moved: bool)
    requires !moved ==> c4 == ""
    ensures c5 + (c4 + (c3 + (c2 + c1)))
            == (if moved then c5 else "") + ((if moved then c4 else c5) + (c3 + (c2 + (c1 + ""))))
  {
    assert c1 + "" == c1;
    assert !moved ==> c4 + (c3 + (c2 + c1)) == c3 + (c2 + c1);
  }

  // At most the oldest copy is lost, and only for a newer one.
  lemma MovedUpText(files: Files)
    ensures var shifted := MovedUp(files, 4);
            && SameFile(shifted, LIVE, files, LIVE) && 1 !in shifted
            && Copies(files, 5) == (if 4 in files then Content(files, 5) else "") + Copies(shifted, 5)
  {
    hide MovedUp, Copies;
    MovedUpFiles(files);
    FiveCopies(files);
    FiveCopies(MovedUp(files, 4));
    ShiftedText(Content(files, 1), Content(files, 2), Content(files, 3), Content(files, 4), Content(files, 5),
                4 in files);
  }

  // When the next rotation is due: at the configured size again when the live
  // file was renamed, and a megabyte further on when it could not be.
  lemma NextRotation(log: Log, max: int, last: int, luck: Luck)
    requires LIVE in log.files
    ensures var after := Rotated(log, max, last, luck);
            && (luck.renames ==> after.rotateAt == max && Content(after.files, 1) == Content(log.files, LIVE))
            && (!luck.renames ==> Content(after.files, LIVE) == Content(log.files, LIVE))
            && (!luck.renames && luck.opens ==> after.rotateAt == |Content(log.files, LIVE)| + 1048576)
            && (!luck.opens ==> !after.open && after.rotateAt == max)
  {
    MovedUpMeans(log.files, 4, LIVE);
    hide MovedUp;
  }

  lemma MovedUpKeeps(files: Files)
    requires OnlyLog(files)
    ensures OnlyLog(MovedUp(files, 4))
  {
    forall k | k in MovedUp(files, 4)
      ensures k <= MAX_ROTATED_FILES
    {
      MovedUpMeans(files, 4, k);
    }
  }

  lemma RenamedText(files: Files, limit: int)
    requires LIVE in files && 1 !in files
    ensures Copies(Renamed(files, limit), 5) == Copies(files, 5) + Content(files, LIVE)
    ensures LIVE !in Renamed(files, limit)
    ensures OnlyLog(files) ==> OnlyLog(Renamed(files, limit))
  {
    RenamedFiles(files, limit);
    FiveCopies(files);
    FiveCopies(Renamed(files, limit));
    hide Copies, Renamed, Content, OnlyLog;
    LastAdded(Content(files, 5), Content(files, 4), Content(files, 3), Content(files, 2), Content(files, LIVE));
  }

  lemma RenamedFiles(files: Files, limit: int)
    requires LIVE in files && 1 !in files
    ensures var after := Renamed(files, limit);
            && Content(files, 1) == "" && Content(after, 1) == Content(files, LIVE)
            && (forall k :: 2 <= k ==> Content(after, k) == Content(files, k))
            && LIVE !in after && (OnlyLog(files) ==> OnlyLog(after))
  {
  }

  lemma LastAdded(a: string, b: string, c: string, d: string, e: string)
    ensures a + (b + (c + (d + e))) == (a + (b + (c + (d + "")))) + e
  {
  }

  lemma OpenedText(files: Files, opens: bool)
    ensures Tail(Opened(files, opens)) == Tail(files)
    ensures OnlyLog(files) ==> OnlyLog(Opened(files, opens))
  {
    CopiesOf(files, Opened(files, opens), 5);
    hide Copies;
  }

  // A rotation loses at most the beginning of what the files held, even when
  // the live file cannot be renamed or opened again.
  lemma RotatedText(log: Log, max: int, last: int, luck: Luck)
    requires OnlyLog(log.files)
    ensures IsSuffix(Tail(Rotated(log, max, last, luck).files), Tail(log.files))
    ensures OnlyLog(Rotated(log, max, last, luck).files)
  {
    hide MovedUp, Copies, Opened, Renamed, OnlyLog, IsSuffix;
    var shifted := MovedUp(log.files, MAX_ROTATED_FILES - 1);
    var lost := if 4 in log.files then Content(log.files, 5) else "";
    var live := Content(log.files, LIVE);
    MovedUpText(log.files);
    MovedUpKeeps(log.files);
    var renamed := luck.renames && LIVE in shifted;
    if renamed {
      RenamedText(shifted, log.rotateAt + last);
    }
    var files := if renamed then Renamed(shifted, log.rotateAt + last) else shifted;
    OpenedText(files, luck.opens);
    assert Tail(files) == Copies(shifted, 5) + live by {
      assert renamed ==> Copies(shifted, 5) + live + "" == Copies(shifted, 5) + live;
    }
    assert Tail(log.files) == lost + (Copies(shifted, 5) + live);
    EndIsSuffix(lost, Copies(shifted, 5) + live);
  }

  lemma EndIsSuffix(start: string, end: string)
    ensures IsSuffix(end, start + end)
  {
  }

  lemma AppendedText(files: Files, line: string)
    ensures Tail(Appended(files, line)) == Tail(files) + line
    ensures OnlyLog(files) ==> OnlyLog(Appended(files, line))
  {
    CopiesOf(files, Appended(files, line), 5);
    hide Copies;
  }

  // ----- Runs -----

  type Calls = seq<(string, Luck)>

  function RunLog(log: Log, max: int, calls: Calls): Log {
    if calls == [] then log
    else
      var n := |calls| - 1;
      Written(RunLog(log, max, calls[..n]), max, calls[n].0, calls[n].1)
  }

  // The lines that reached the live file; while it cannot be opened there are none.
  function Text(log: Log, max: int, calls: Calls): string {
    if calls == [] then ""
    else
      var n := |calls| - 1;
      Text(log, max, calls[..n]) + if RunLog(log, max, calls[..n]).open then Line(calls[n].0) else ""
  }

  lemma SuffixGrows(s: string, all: string, line: string)
    requires IsSuffix(s, all)
    ensures IsSuffix(s + line, all + line)
  {
  }

  lemma SuffixTwice(a: string, b: string, c: string)
    requires IsSuffix(a, b) && IsSuffix(b, c)
    ensures IsSuffix(a, c)
  {
  }

  lemma WrittenText(log: Log, max: int, text: string, luck: Luck)
    requires OnlyLog(log.files)
    ensures IsSuffix(Tail(Written(log, max, text, luck).files), Tail(log.files) + if log.open then Line(text) else "")
    ensures OnlyLog(Written(log, max, text, luck).files)
  {
    hide Tail, Rotated, Appended;
    var next := log.(files := Appended(log.files, Line(text)));
    AppendedText(log.files, Line(text));
    RotatedText(next, max, |Line(text)|, luck);
  }

  // After any run, copies 5 down to 1 followed by the live file are the end of
  // everything that was ever written, and there are at most five copies.
  lemma {:induction false} FilesHoldTheEnd(log: Log, max: int, calls: Calls)
    requires OnlyLog(log.files)
    ensures IsSuffix(Tail(RunLog(log, max, calls).files), Tail(log.files) + Text(log, max, calls))
    ensures OnlyLog(RunLog(log, max, calls).files)
  {
    hide Tail, Written, OnlyLog, IsSuffix;
    if calls == [] {
      assert Tail(log.files) + "" == Tail(log.files);
      WholeIsSuffix(Tail(log.files));
    } else {
      var n := |calls| - 1;
      var before := RunLog(log, max, calls[..n]);
      var line := if before.open then Line(calls[n].0) else "";
      FilesHoldTheEnd(log, max, calls[..n]);
      WrittenText(before, max, calls[n].0, calls[n].1);
      SuffixGrows(Tail(before.files), Tail(log.files) + Text(log, max, calls[..n]), line);
      assert Tail(log.files) + Text(log, max, calls[..n]) + line == Tail(log.files) + Text(log, max, calls);
      SuffixTwice(Tail(RunLog(log, max, calls).files), Tail(before.files) + line,
                  Tail(log.files) + Text(log, max, calls));
    }
  }

  lemma WholeIsSuffix(s: string)
    ensures IsSuffix(s, s)
  {
  }

  // ----- Sizes -----

  // Every copy is shorter than the threshold in force when it was rotated plus
  // its last line, and the live file is below the threshold.
  predicate Bounded(log: Log) {
    && (log.open ==> |Content(log.files, LIVE)| < log.rotateAt)
    && forall k :: k in log.files && 1 <= k ==> |log.files[k].text| < log.files[k].limit
  }

  lemma WrittenBounded(log: Log, max: int, text: string, luck: Luck)
    requires Bounded(log) && max > 0
    ensures Bounded(Written(log, max, text, luck))
  {
    if log.open {
      var next := log.(files := Appended(log.files, Line(text)));
      if !(|Content(next.files, LIVE)| < log.rotateAt) {
        hide Written, Appended;
        assert |Content(next.files, LIVE)| < log.rotateAt + |Line(text)| by { AppendedSize(log.files, Line(text)); }
        assert forall k :: k in next.files && 1 <= k ==> |next.files[k].text| < next.files[k].limit
        by { AppendedSize(log.files, Line(text)); }
        RotatedBounded(next, max, |Line(text)|, luck);
        assert Written(log, max, text, luck) == Rotated(next, max, |Line(text)|, luck)
        by { WrittenIs(log, max, text, luck); }
      }
    }
  }

  lemma WrittenIs(log: Log, max: int, text: string, luck: Luck)
    requires log.open && |Content(Appended(log.files, Line(text)), LIVE)| >= log.rotateAt
    ensures Written(log, max, text, luck)
            == Rotated(log.(files := Appended(log.files, Line(text))), max, |Line(text)|, luck)
  {
  }

  lemma AppendedSize(files: Files, line: string)
    ensures |Content(Appended(files, line), LIVE)| == |Content(files, LIVE)| + |line|
    ensures forall k :: k >= 1 ==> SameFile(Appended(files, line), k, files, k)
  {
  }

  lemma RotatedBounded(log: Log, max: int, last: int, luck: Luck)
    requires max > 0 && |Content(log.files, LIVE)| < log.rotateAt + last
    requires forall k :: k in log.files && 1 <= k ==> |log.files[k].text| < log.files[k].limit
    ensures Bounded(Rotated(log, max, last, luck))
  {
    var shifted := MovedUp(log.files, 4);
    forall k | k in shifted && 1 <= k
      ensures |shifted[k].text| < shifted[k].limit
    {
      MovedUpMeans(log.files, 4, k);
    }
    MovedUpMeans(log.files, 4, LIVE);
    hide MovedUp;
  }

  lemma {:induction false} StaysBounded(log: Log, max: int, calls: Calls)
    requires Bounded(log) && max > 0
    ensures Bounded(RunLog(log, max, calls))
  {
    hide Written, Bounded;
    if calls == [] {
    } else {
      var n := |calls| - 1;
      StaysBounded(log, max, calls[..n]);
      WrittenBounded(RunLog(log, max, calls[..n]), max, calls[n].0, calls[n].1);
    }
  }

  // The copies alone.
  predicate CopiesBounded(files: Files) { forall k :: k in files && 1 <= k ==> |files[k].text| < files[k].limit }

  // The log as it is opened: by the constructor, or again by configure.
  function AsOpened(files: Files, max: int, opens: bool): Log { Log(Opened(files, opens), opens, max) }

  // From the moment the log is opened, in every run, every copy is shorter
  // than the threshold in force when it was rotated plus its last line, if and
  // only if the live file is below the threshold when it is opened. (Copies
  // from before are noted with any limit above their size.)
  lemma CopiesAreBounded(files: Files, max: int, opens: bool)
    requires CopiesBounded(files) && max > 0
    ensures (forall calls :: CopiesBounded(RunLog(AsOpened(files, max, opens), max, calls).files))
            <==> (opens ==> |Content(files, LIVE)| < max)
  {
    var log := AsOpened(files, max, opens);
    assert Content(log.files, LIVE) == Content(files, LIVE) && CopiesBounded(log.files);
    hide RunLog, MovedUp;
    if opens && |Content(files, LIVE)| >= max {
      LargeStart(log, max);
    } else {
      forall calls
        ensures CopiesBounded(RunLog(log, max, calls).files)
      {
        StaysBounded(log, max, calls);
      }
    }
  }

  // The failing start: with a live file at or above the threshold, the first
  // line rotates it whole.
  lemma LargeStart(log: Log, max: int)
    requires log.open && LIVE in log.files && log.rotateAt == max && |Content(log.files, LIVE)| >= max
    ensures !CopiesBounded(RunLog(log, max, [("", Luck(true, true))]).files)
  {
    var calls: Calls := [("", Luck(true, true))];
    assert calls[..0] == [] && RunLog(log, max, calls) == Written(log, max, "", Luck(true, true));
    var next := log.(files := Appended(log.files, Line("")));
    AppendedSize(log.files, Line(""));
    WrittenIs(log, max, "", Luck(true, true));
    MovedUpMeans(next.files, 4, LIVE);
    hide MovedUp, Written, RunLog, Appended;
    var after := Rotated(next, max, |Line("")|, Luck(true, true));
    assert 1 in after.files && after.files[1].text == Content(next.files, LIVE) && after.files[1].limit == max + 2;
  }

  // A live file that could not be renamed is one: it grows past the threshold,
  // and the next configure opens it as it is.
  lemma FailedRenameStartsLarge(log: Log, max: int, text: string)
    requires log.open && LIVE in log.files && log.rotateAt == max
    requires |Content(log.files, LIVE)| + |Line(text)| >= max
    ensures var after := Written(log, max, text, Luck(false, true));
            |Content(AsOpened(after.files, max, true).files, LIVE)| >= max
  {
    var next := log.(files := Appended(log.files, Line(text)));
    AppendedSize(log.files, Line(text));
    WrittenIs(log, max, text, Luck(false, true));
    MovedUpMeans(next.files, 4, LIVE);
    hide MovedUp, Written, Appended;
  }
}
