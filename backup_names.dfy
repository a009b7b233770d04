/**
 * The pure part of src/lib/backupRestore.ts: how a backup is named, how the
 * listing recovers a date from a name, and the order of the listing.
 *
 * The date is taken with an unanchored JavaScript regular expression,
 * `wellbeing_backup_(.+)\.json` for files and `wellbeing_backup_(.+)` for
 * `localStorage` keys: `match` finds the leftmost position where the pattern
 * matches, `.` matches anything but a line terminator, and `(.+)` is greedy,
 * so on files the group ends at the last `.json` it can reach.
 */
module BackupNames {
  import opened Wrappers
  import opened Strings
  import opened Runtime
  import opened AppData

  const BackupFolder: string := "backup"
  const BackupPrefix: string := "wellbeing_backup_"
  const JsonSuffix: string := ".json"
  /** The date shown for a name that the pattern does not match. */
  const UnknownDate: string := "неизвестно"

  /**
   * The name of a backup made at `now` (an ISO 8601 timestamp): the prefix,
   * the timestamp with every `:` made `-`, and `.json` for a file.
   */
  function BackupName(now: string, platform: Platform): (r: string)
    ensures StartsWith(r, BackupPrefix)
    ensures ':' !in r
  {
    ReplaceCharRemoves(now, ':', '-');
    BackupPrefix + ReplaceChar(now, ':', '-') + (if platform == Native then JsonSuffix else "")
  }

  /** The end of the run of characters that `.` matches from `q`: the first line terminator at or after `q`, or the end. */
  function RunEnd(s: string, q: nat): (e: nat)
    requires q <= |s|
    ensures q <= e <= |s|
    ensures forall j :: q <= j < e ==> !IsLineTerminator(s[j])
    ensures e < |s| ==> IsLineTerminator(s[e])
    decreases |s| - q
  {
    if q == |s| || IsLineTerminator(s[q]) then q else RunEnd(s, q + 1)
  }

  /** `.json` starts at position `j` of `s`. */
  predicate JsonAt(s: string, j: int) {
    0 <= j && j + |JsonSuffix| <= |s| && s[j..j + |JsonSuffix|] == JsonSuffix
  }

  /** The largest `k` with `q < k <= top` where `.json` starts; how far the greedy group backs off. */
  function LastJsonAt(s: string, q: nat, top: int): (r: Option<nat>)
    requires top + |JsonSuffix| <= |s|
    ensures r.Some? ==> q < r.value <= top && JsonAt(s, r.value)
    ensures r.Some? ==> forall j :: r.value < j <= top ==> !JsonAt(s, j)
    ensures r.None? ==> forall j :: q < j <= top ==> !JsonAt(s, j)
    decreases top
  {
    if top <= q then None
    else if s[top..top + |JsonSuffix|] == JsonSuffix then Some(top)
    else LastJsonAt(s, q, top - 1)
  }

  /** The group that the pattern of `platform` captures when matched at position `p`. */
  function GroupAt(s: string, p: nat, platform: Platform): (r: Option<string>)
    requires p <= |s|
    ensures r.Some? ==> r.value != [] && forall c :: c in r.value ==> !IsLineTerminator(c)
  {
    if !StartsWith(s[p..], BackupPrefix) then None
    else
      var q := p + |BackupPrefix|;
      var e := RunEnd(s, q);
      if platform == Web then
        (if e > q then Some(s[q..e]) else None)
      else
        match LastJsonAt(s, q, e - |JsonSuffix|)
        case Some(k) => Some(s[q..k])
        case None => None
  }

  /** `s.match(pattern)[1]`: the group at the leftmost position from `p` where the pattern matches. */
  function Search(s: string, p: nat, platform: Platform): Option<string>
    requires p <= |s|
    decreases |s| - p
  {
    if GroupAt(s, p, platform).Some? then GroupAt(s, p, platform)
    else if p == |s| then None
    else Search(s, p + 1, platform)
  }

  /** The date that the listing shows for a name: the group with every `-` made `:`, or "неизвестно" without a match. */
  function DateOf(name: string, platform: Platform): string {
    match Search(name, 0, platform)
    case Some(g) => ReplaceChar(g, '-', ':')
    case None => UnknownDate
  }

  /** For a timestamp without line terminators the listing finds exactly the encoded timestamp after the prefix. */
  lemma SearchBackupName(now: string, platform: Platform)
    requires now != [] && forall c :: c in now ==> !IsLineTerminator(c)
    ensures Search(BackupName(now, platform), 0, platform) == Some(ReplaceChar(now, ':', '-'))
  {
    var enc := ReplaceChar(now, ':', '-');
    var tail := if platform == Native then JsonSuffix else "";
    var name := BackupName(now, platform);
    var q := |BackupPrefix|;
    assert name == BackupPrefix + enc + tail;
    assert name[0..] == name;
    forall j | q <= j < |name| ensures !IsLineTerminator(name[j]) {
      if j < q + |enc| {
        assert name[j] == enc[j - q];
        ReplaceCharAt(now, ':', '-', j - q);
        assert now[j - q] in now;
      } else {
        assert name[j] == tail[j - q - |enc|];
      }
    }
    assert RunEnd(name, q) == |name|;
    if platform == Native {
      var top := |name| - |JsonSuffix|;
      assert name[top..top + |JsonSuffix|] == JsonSuffix;
      assert LastJsonAt(name, q, top) == Some(top);
      assert name[q..top] == enc;
    } else {
      assert name[q..|name|] == enc;
    }
  }

  /**
   * Decoding is not the inverse of encoding: the listed date of a backup
   * made at `now` is `now` with every `-` made `:`, the dashes of the date
   * included.
   */
  lemma {:induction false} DateOfBackupName(now: string, platform: Platform)
    requires now != [] && forall c :: c in now ==> !IsLineTerminator(c)
    ensures DateOf(BackupName(now, platform), platform) == ReplaceChar(now, '-', ':')
  {
    SearchBackupName(now, platform);
    ReplaceCharTwice(now, ':', '-', ':');
    ReplaceCharSame(now, ':');
  }

  /** The listed date equals the timestamp exactly when the timestamp has no `-`; an ISO 8601 timestamp always has one. */
  lemma DateOfBackupNameIsNow(now: string, platform: Platform)
    requires now != [] && forall c :: c in now ==> !IsLineTerminator(c)
    ensures DateOf(BackupName(now, platform), platform) == now <==> '-' !in now
  {
    DateOfBackupName(now, platform);
    if '-' in now {
      var i :| 0 <= i < |now| && now[i] == '-';
      ReplaceCharAt(now, '-', ':', i);
    } else {
      ReplaceCharAbsent(now, '-', ':');
    }
  }

  /**
   * A timestamp `year-month-rest` whose parts hold no dash is listed as
   * `year:month:rest`: a backup made at 2024-05-01T10:30:00.000Z is listed
   * with the date 2024:05:01T10:30:00.000Z.
   */
  lemma ListedDate(year: string, month: string, rest: string)
    requires '-' !in year && '-' !in month && '-' !in rest
    requires forall c :: c in year + month + rest ==> !IsLineTerminator(c)
    ensures DateOf(BackupName(year + "-" + month + "-" + rest, Native), Native) == year + ":" + month + ":" + rest
  {
    var now := year + "-" + month + "-" + rest;
    forall c | c in now ensures !IsLineTerminator(c) {
      assert c in year + month + rest || c == '-';
    }
    DateOfBackupName(now, Native);
    DashesToColons(year, month, rest);
  }

  /** A timestamp with two dashes, between parts without dashes, is listed with two colons in their place. */
  lemma DashesToColons(year: string, month: string, rest: string)
    requires '-' !in year && '-' !in month && '-' !in rest
    ensures ReplaceChar(year + "-" + month + "-" + rest, '-', ':') == year + ":" + month + ":" + rest
  {
    ReplaceCharAppend(year + "-" + month + "-", rest, '-', ':');
    ReplaceCharAppend(year + "-" + month, "-", '-', ':');
    ReplaceCharAppend(year + "-", month, '-', ':');
    ReplaceCharAppend(year, "-", '-', ':');
    ReplaceCharAbsent(year, '-', ':');
    ReplaceCharAbsent(month, '-', ':');
    ReplaceCharAbsent(rest, '-', ':');
    assert ReplaceChar("-", '-', ':') == ":";
  }

  /** A file with the prefix but without `.json` after it is listed with the unknown date. */
  lemma UnmatchedFileIsUnknown()
    ensures DateOf("wellbeing_backup_x", Native) == UnknownDate
  {
    var s := "wellbeing_backup_x";
    assert GroupAt(s, 0, Native).None? by {
      assert s[0..] == s;
      assert RunEnd(s, 17) == 18;
    }
    forall p | 1 <= p <= |s| ensures !StartsWith(s[p..], BackupPrefix) {
    }
    assert Search(s, 18, Native) == None;
    assert Search(s, 17, Native) == None;
    assert Search(s, 1, Native) == None by {
      var p := 17;
      while p > 1
        invariant 1 <= p <= 17
        invariant Search(s, p, Native) == None
      {
        p := p - 1;
      }
    }
  }

  /** One row of the listing. */
  datatype BackupInfo = BackupInfo(name: string, date: string)

  /** The rows for the names that start with the prefix, in the order of the names. */
  function Listed(names: seq<string>, platform: Platform): (r: seq<BackupInfo>)
    ensures forall b :: b in r ==> b.name in names && StartsWith(b.name, BackupPrefix) && b.date == DateOf(b.name, platform)
  {
    if names == [] then []
    else
      var last := names[|names| - 1];
      Listed(names[..|names| - 1], platform)
        + (if StartsWith(last, BackupPrefix) then [BackupInfo(last, DateOf(last, platform))] else [])
  }

  /** Every name with the prefix is listed, with its date. */
  lemma {:induction false} ListedComplete(names: seq<string>, platform: Platform)
    ensures forall n :: n in names && StartsWith(n, BackupPrefix) ==> BackupInfo(n, DateOf(n, platform)) in Listed(names, platform)
  {
    if names != [] {
      var init := names[..|names| - 1];
      ListedComplete(init, platform);
      forall n | n in names && StartsWith(n, BackupPrefix)
        ensures BackupInfo(n, DateOf(n, platform)) in Listed(names, platform)
      {
        if n != names[|names| - 1] {
          var i :| 0 <= i < |names| && names[i] == n;
          assert init[i] == n;
        }
      }
    }
  }

  /** `b.date.localeCompare(a.date)` sorts newest first: every date is at least the dates after it. */
  predicate NewestFirst(bs: seq<BackupInfo>) {
    forall i, j :: 0 <= i < j < |bs| ==> LexLessEq(bs[j].date, bs[i].date)
  }

  /** Inserts `b` before the first row whose date is not greater, so rows with equal dates keep their order. */
  function InsertByDate(b: BackupInfo, bs: seq<BackupInfo>): (r: seq<BackupInfo>)
    ensures |r| == |bs| + 1
  {
    if bs == [] then [b]
    else if LexLessEq(bs[0].date, b.date) then [b] + bs
    else [bs[0]] + InsertByDate(b, bs[1..])
  }

  function SortByDateDesc(bs: seq<BackupInfo>): (r: seq<BackupInfo>)
    ensures |r| == |bs|
  {
    if bs == [] then [] else InsertByDate(bs[0], SortByDateDesc(bs[1..]))
  }

  lemma {:induction false} InsertByDateElements(b: BackupInfo, bs: seq<BackupInfo>)
    ensures multiset(InsertByDate(b, bs)) == multiset(bs) + multiset{b}
  {
    if bs != [] && !LexLessEq(bs[0].date, b.date) {
      InsertByDateElements(b, bs[1..]);
      assert bs == [bs[0]] + bs[1..];
    }
  }

  lemma NewestFirstTail(bs: seq<BackupInfo>)
    requires NewestFirst(bs) && bs != []
    ensures NewestFirst(bs[1..])
  {
    var rest := bs[1..];
    forall i, j | 0 <= i < j < |rest| ensures LexLessEq(rest[j].date, rest[i].date) {
      assert rest[i] == bs[i + 1] && rest[j] == bs[j + 1];
    }
  }

  lemma NewestFirstCons(x: BackupInfo, bs: seq<BackupInfo>)
    requires NewestFirst(bs)
    requires forall j :: 0 <= j < |bs| ==> LexLessEq(bs[j].date, x.date)
    ensures NewestFirst([x] + bs)
  {
    var r := [x] + bs;
    forall i, j | 0 <= i < j < |r| ensures LexLessEq(r[j].date, r[i].date) {
      if i == 0 {
        assert r[j] == bs[j - 1];
      } else {
        assert r[i] == bs[i - 1] && r[j] == bs[j - 1];
      }
    }
  }

  lemma {:induction false} InsertByDateCorrect(b: BackupInfo, bs: seq<BackupInfo>)
    requires NewestFirst(bs)
    ensures NewestFirst(InsertByDate(b, bs))
    ensures multiset(InsertByDate(b, bs)) == multiset(bs) + multiset{b}
  {
    InsertByDateElements(b, bs);
    if bs == [] {
    } else if LexLessEq(bs[0].date, b.date) {
      forall j | 0 <= j < |bs| ensures LexLessEq(bs[j].date, b.date) {
        if j > 0 {
          LexTransitive(bs[j].date, bs[0].date, b.date);
        }
      }
      NewestFirstCons(b, bs);
    } else {
      var rest := bs[1..];
      NewestFirstTail(bs);
      InsertByDateCorrect(b, rest);
      LexTotal(bs[0].date, b.date);
      var ins := InsertByDate(b, rest);
      forall j | 0 <= j < |ins| ensures LexLessEq(ins[j].date, bs[0].date) {
        assert ins[j] in multiset(ins);
        if ins[j] != b {
          assert ins[j] in multiset(rest);
          var k :| 0 <= k < |rest| && rest[k] == ins[j];
          assert bs[k + 1] == ins[j];
        }
      }
      NewestFirstCons(bs[0], ins);
    }
  }

  /** The sorted listing is newest first and holds exactly the rows it was given. */
  lemma {:induction false} SortByDateDescCorrect(bs: seq<BackupInfo>)
    ensures NewestFirst(SortByDateDesc(bs))
    ensures multiset(SortByDateDesc(bs)) == multiset(bs)
  {
    if bs != [] {
      SortByDateDescCorrect(bs[1..]);
      InsertByDateCorrect(bs[0], SortByDateDesc(bs[1..]));
      assert bs == [bs[0]] + bs[1..];
    }
  }

  /**
   * The native listing: the rows of the files of `backup` that start with
   * the prefix, newest first; `None` stands for a failing `readdir`, which
   * yields the empty list.
   */
  function NativeBackupList(files: Option<seq<string>>): (r: seq<BackupInfo>)
    ensures files.None? ==> r == []
  {
    match files
    case None => []
    case Some(names) => SortByDateDesc(Listed(names, Native))
  }

  /** The native listing is newest first, lists exactly the prefixed files, and dates each from its name. */
  lemma NativeBackupListCorrect(names: seq<string>)
    ensures NewestFirst(NativeBackupList(Some(names)))
    ensures forall b :: b in NativeBackupList(Some(names)) <==>
      b.name in names && StartsWith(b.name, BackupPrefix) && b.date == DateOf(b.name, Native)
  {
    var listed := Listed(names, Native);
    SortByDateDescCorrect(listed);
    ListedComplete(names, Native);
    forall b ensures b in NativeBackupList(Some(names)) <==> b in listed {
      assert b in NativeBackupList(Some(names)) <==> b in multiset(NativeBackupList(Some(names)));
      assert b in listed <==> b in multiset(listed);
    }
  }
}
