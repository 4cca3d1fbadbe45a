/**
 * The decisions `Backup::Manager` takes around its file operations: what goes into
 * a backup, the archive's file name, reading the timestamp back out of a file name,
 * which old archives are removed, and which archive a restore unpacks. The file
 * system, `tar`, the clock and the environment variables are parameters.
 */
module BackupManager {
  import opened Basics

  const ArchivesToBackup: seq<string> := ["uploads", "builds", "artifacts", "pages", "lfs", "registry"]
  const FoldersToBackup: seq<string> := ["repositories", "db"]
  const FileNameSuffix: string := "_gitlab_backup.tar"
  const InformationFile: string := "backup_information.yml"
  const ArchiveExtension: string := ".tar.gz"

  /** The fields of `backup_information.yml` that are read back; `skipped` is the raw `SKIP` value. */
  datatype Information = Information(dbVersion: string, gitlabVersion: string, skipped: Option<string>)

  // ---------------------------------------------------------------------------
  // What goes into a backup

  /** `disabled_features`, as a value. */
  function DisabledFeatures(registryEnabled: bool): (r: seq<string>)
    ensures forall x :: x in r <==> x == "registry" && !registryEnabled
  {
    if registryEnabled then [] else ["registry"]
  }

  /** `disabled_features`: starts from an empty list and appends `registry` when the registry is off. */
  method CollectDisabledFeatures(registryEnabled: bool) returns (features: seq<string>)
    ensures features == DisabledFeatures(registryEnabled)
  {
    features := [];
    if !registryEnabled {
      features := features + ["registry"];
    }
  }

  /**
   * `skipped?`: the stored `SKIP` value contains the item as a substring, or the item
   * is a disabled feature.
   */
  predicate Skipped(info: Information, registryEnabled: bool, item: string) {
    (info.skipped.Some? && Contains(info.skipped.value, item)) || item in DisabledFeatures(registryEnabled)
  }

  /** An item is skipped exactly when `SKIP` names it (as a substring) or it is the disabled registry. */
  lemma SkippedIff(info: Information, registryEnabled: bool, item: string)
    ensures Skipped(info, registryEnabled, item) <==>
              (exists v :: info.skipped == Some(v) && Contains(v, item))
              || (item == "registry" && !registryEnabled)
  {
    if info.skipped.Some? {
      assert info.skipped == Some(info.skipped.value);
    }
  }

  /** The names of `names` that are not skipped, in order (`reject { skipped? }`). */
  function Kept(names: seq<string>, info: Information, registryEnabled: bool): (r: seq<string>)
    ensures forall x :: x in r <==> x in names && !Skipped(info, registryEnabled, x)
    ensures SubsequenceOf(r, names)
  {
    if names == [] then []
    else
      var rest := Kept(names[1..], info, registryEnabled);
      assert forall x :: x in names <==> x == names[0] || x in names[1..];
      if Skipped(info, registryEnabled, names[0]) then
        SubsequenceSkip(rest, names);
        rest
      else
        [names[0]] + rest
  }

  /** Every name with `suffix` appended. */
  function Suffixed(names: seq<string>, suffix: string): (r: seq<string>)
    ensures |r| == |names|
    ensures forall i :: 0 <= i < |r| ==> r[i] == names[i] + suffix
  {
    if names == [] then [] else [names[0] + suffix] + Suffixed(names[1..], suffix)
  }

  /** `folders_to_backup`. */
  function Folders(info: Information, registryEnabled: bool): seq<string> {
    Kept(FoldersToBackup, info, registryEnabled)
  }

  /** `archives_to_backup`: the kept archive names with `.tar.gz` appended. */
  function Archives(info: Information, registryEnabled: bool): seq<string> {
    Suffixed(Kept(ArchivesToBackup, info, registryEnabled), ArchiveExtension)
  }

  /** `backup_contents`. */
  function BackupContents(info: Information, registryEnabled: bool): seq<string> {
    Folders(info, registryEnabled) + Archives(info, registryEnabled) + [InformationFile]
  }

  /**
   * A backup holds the folders that are not skipped, in their fixed order, then the
   * archives that are not skipped, in their fixed order and with `.tar.gz`, then the
   * information file, last.
   */
  lemma BackupContentsLayout(info: Information, registryEnabled: bool)
    ensures var c := BackupContents(info, registryEnabled);
            var f := Folders(info, registryEnabled);
            var a := Kept(ArchivesToBackup, info, registryEnabled);
            && |c| == |f| + |a| + 1
            && c[..|f|] == f
            && SubsequenceOf(f, FoldersToBackup)
            && SubsequenceOf(a, ArchivesToBackup)
            && (forall i :: 0 <= i < |a| ==> c[|f| + i] == a[i] + ArchiveExtension)
            && c[|c| - 1] == InformationFile
            && (forall x :: x in f <==> x in FoldersToBackup && !Skipped(info, registryEnabled, x))
            && (forall x :: x in a <==> x in ArchivesToBackup && !Skipped(info, registryEnabled, x))
  {
    var f := Folders(info, registryEnabled);
    var a := Kept(ArchivesToBackup, info, registryEnabled);
    var c := BackupContents(info, registryEnabled);
    assert c == f + Suffixed(a, ArchiveExtension) + [InformationFile];
    forall i | 0 <= i < |a| ensures c[|f| + i] == a[i] + ArchiveExtension {
      assert c[|f| + i] == Suffixed(a, ArchiveExtension)[i];
    }
  }

  lemma {:induction false} KeptAppend(a: seq<string>, b: seq<string>, info: Information, registryEnabled: bool)
    ensures Kept(a + b, info, registryEnabled) == Kept(a, info, registryEnabled) + Kept(b, info, registryEnabled)
  {
    if a == [] {
      assert a + b == b;
    } else {
      assert (a + b)[1..] == a[1..] + b;
      KeptAppend(a[1..], b, info, registryEnabled);
    }
  }

  lemma {:induction false} KeptAll(names: seq<string>, info: Information, registryEnabled: bool)
    requires forall i :: 0 <= i < |names| ==> !Skipped(info, registryEnabled, names[i])
    ensures Kept(names, info, registryEnabled) == names
  {
    if names != [] {
      KeptAll(names[1..], info, registryEnabled);
    }
  }

  /** With no `SKIP` and the registry on, everything is backed up. */
  lemma FullBackupContents(info: Information)
    requires info.skipped.None?
    ensures BackupContents(info, true) ==
              FoldersToBackup + Suffixed(ArchivesToBackup, ArchiveExtension) + [InformationFile]
  {
    KeptAll(FoldersToBackup, info, true);
    KeptAll(ArchivesToBackup, info, true);
  }

  /** With the registry off and no `SKIP`, only `registry.tar.gz` is missing. */
  lemma BackupContentsWithoutRegistry(info: Information)
    requires info.skipped.None?
    ensures BackupContents(info, false) ==
              FoldersToBackup + Suffixed(["uploads", "builds", "artifacts", "pages", "lfs"], ArchiveExtension)
              + [InformationFile]
  {
    KeptAll(FoldersToBackup, info, false);
    ArchivesWithoutRegistry(info);
  }

  lemma ArchivesWithoutRegistry(info: Information)
    requires info.skipped.None?
    ensures Kept(ArchivesToBackup, info, false) == ["uploads", "builds", "artifacts", "pages", "lfs"]
  {
    var shown := ["uploads", "builds", "artifacts", "pages", "lfs"];
    assert ArchivesToBackup == shown + ["registry"];
    KeptAll(shown, info, false);
    assert Kept(["registry"], info, false) == [];
    KeptAppend(shown, ["registry"], info, false);
  }

  // ---------------------------------------------------------------------------
  // The archive's file name and the timestamp read back from it

  function Pow10(k: nat): (r: nat)
    ensures r >= 1
  {
    if k == 0 then 1 else 10 * Pow10(k - 1)
  }

  /** A number below `10^k` takes at most `k` decimal digits. */
  lemma {:induction false} DecimalLength(n: nat, k: nat)
    requires k >= 1 && n < Pow10(k)
    ensures |Decimal(n)| <= k
  {
    if n >= 10 {
      assert k >= 2;
      DecimalLength(n / 10, k - 1);
    }
  }

  /**
   * `strftime('%s_%Y_%m_%d')` followed by the suffix: the epoch seconds, then the
   * year padded to four digits, the month and the day padded to two.
   */
  function TarFileName(epoch: nat, year: nat, month: nat, day: nat): (r: string)
    ensures EndsWith(r, FileNameSuffix)
  {
    Decimal(epoch) + DateStamp(year, month, day) + FileNameSuffix
  }

  /** `strftime('_%Y_%m_%d')`. */
  function DateStamp(year: nat, month: nat, day: nat): string {
    "_" + ZeroPad(Decimal(year), 4) + "_" + ZeroPad(Decimal(month), 2) + "_" + ZeroPad(Decimal(day), 2)
  }

  /** The length of the run of digits starting at `p`. */
  function DigitRun(s: string, p: nat): (n: nat)
    requires p <= |s|
    ensures p + n <= |s|
    ensures forall i :: p <= i < p + n ==> IsDigit(s[i])
    ensures p + n < |s| ==> !IsDigit(s[p + n])
    decreases |s| - p
  {
    if p < |s| && IsDigit(s[p]) then 1 + DigitRun(s, p + 1) else 0
  }

  predicate DigitsAt(s: string, q: nat, n: nat) {
    q + n <= |s| && forall i :: q <= i < q + n ==> IsDigit(s[i])
  }

  predicate TextAt(s: string, q: nat, t: string) {
    q + |t| <= |s| && s[q..q + |t|] == t
  }

  /** `_\d{4}_\d{2}_\d{2}` at `q`. */
  predicate DateAt(s: string, q: nat) {
    && q + 11 <= |s|
    && s[q] == '_' && DigitsAt(s, q + 1, 4)
    && s[q + 5] == '_' && DigitsAt(s, q + 6, 2)
    && s[q + 8] == '_' && DigitsAt(s, q + 9, 2)
  }

  /** What must follow the captured digits: `(?:_\d{4}_\d{2}_\d{2})?_gitlab_backup\.tar`. */
  predicate TailAt(s: string, q: nat) {
    (DateAt(s, q) && TextAt(s, q + 11, FileNameSuffix)) || TextAt(s, q, FileNameSuffix)
  }

  /** The whole pattern matches at `p` with `(\d+)` taking `n` digits. */
  predicate MatchesWith(s: string, p: nat, n: nat) {
    n >= 1 && DigitsAt(s, p, n) && TailAt(s, p + n)
  }

  /**
   * `(\d+)` can only succeed with the longest run of digits: with a shorter run a
   * digit stands where the tail needs `_`.
   */
  lemma MatchTakesWholeRun(s: string, p: nat, n: nat)
    requires p <= |s| && MatchesWith(s, p, n)
    ensures n == DigitRun(s, p)
  {
    var run := DigitRun(s, p);
    if n < run {
      assert IsDigit(s[p + n]);
      assert s[p + n] == '_' by {
        if !DateAt(s, p + n) {
          assert s[p + n..p + n + |FileNameSuffix|][0] == FileNameSuffix[0];
        }
      }
      assert false;
    } else if n > run {
      assert false;
    }
  }

  /** The pattern matches at `p` (with the whole digit run, by `MatchTakesWholeRun`). */
  predicate MatchesAt(s: string, p: nat)
    requires p <= |s|
  {
    MatchesWith(s, p, DigitRun(s, p))
  }

  /** Where the leftmost match at or after `p` starts, as `=~` finds it. */
  function FirstMatch(s: string, p: nat): (r: Option<nat>)
    requires p <= |s|
    ensures r.None? ==> forall q :: p <= q <= |s| ==> !MatchesAt(s, q)
    ensures r.Some? ==> p <= r.value < |s| && MatchesAt(s, r.value)
    ensures r.Some? ==> forall q :: p <= q < r.value ==> !MatchesAt(s, q)
    decreases |s| - p
  {
    if p == |s| then None
    else if MatchesAt(s, p) then Some(p)
    else FirstMatch(s, p + 1)
  }

  /** `$1`: the digits the leftmost match captures. */
  function Capture(s: string): (r: Option<string>)
    ensures r.Some? ==> AllDigits(r.value) && |r.value| >= 1
  {
    match FirstMatch(s, 0)
    case None => None
    case Some(p) => Some(s[p..p + DigitRun(s, p)])
  }

  /** `file =~ /(\d+)(?:_\d{4}_\d{2}_\d{2})?_gitlab_backup\.tar/` and then `$1.to_i`. */
  function Timestamp(file: string): Option<nat> {
    match Capture(file)
    case None => None
    case Some(digits) => Some(DecimalValue(digits))
  }

  lemma DigitRunExact(s: string, p: nat, n: nat)
    requires DigitsAt(s, p, n)
    requires p + n == |s| || !IsDigit(s[p + n])
    ensures DigitRun(s, p) == n
  {
  }

  /** Text in front does not change what follows it. */
  lemma TailShift(pre: string, s: string, q: nat)
    requires q <= |s| && TailAt(s, q)
    ensures TailAt(pre + s, |pre| + q)
  {
    var t := pre + s;
    assert forall i :: q <= i < |s| ==> t[|pre| + i] == s[i];
    if TextAt(s, q, FileNameSuffix) {
      assert t[|pre| + q..|pre| + q + |FileNameSuffix|] == s[q..q + |FileNameSuffix|];
    } else {
      assert t[|pre| + q + 11..|pre| + q + 11 + |FileNameSuffix|] == s[q + 11..q + 11 + |FileNameSuffix|];
    }
  }

  lemma DigitsWithin(pre: string, e: string, rest: string)
    requires AllDigits(e)
    ensures DigitsAt(pre + e + rest, |pre|, |e|)
  {
    var s := pre + e + rest;
    forall i | |pre| <= i < |pre| + |e| ensures IsDigit(s[i]) {
      assert s[i] == e[i - |pre|];
    }
  }

  lemma RunOfDigits(pre: string, e: string, rest: string, s: string)
    requires AllDigits(e)
    requires rest != [] && rest[0] == '_'
    requires s == pre + e + rest
    ensures DigitRun(s, |pre|) == |e|
  {
    DigitsWithin(pre, e, rest);
    assert !IsDigit(s[|pre| + |e|]);
    DigitRunExact(s, |pre|, |e|);
  }

  lemma TailAfter(pre: string, e: string, rest: string, s: string)
    requires TailAt(rest, 0)
    requires s == pre + e + rest
    ensures TailAt(s, |pre| + |e|)
  {
    assert s == (pre + e) + rest;
    TailShift(pre + e, rest, 0);
  }

  lemma MatchFromRun(s: string, p: nat, n: nat)
    requires p <= |s| && n >= 1 && DigitRun(s, p) == n && TailAt(s, p + n)
    ensures MatchesAt(s, p)
  {
  }

  /** A match starts where digits `e` stand and an accepted tail follows them. */
  lemma MatchOfDigits(pre: string, e: string, rest: string, s: string)
    requires |e| >= 1 && AllDigits(e)
    requires rest != [] && rest[0] == '_' && TailAt(rest, 0)
    requires s == pre + e + rest
    ensures MatchesAt(s, |pre|) && DigitRun(s, |pre|) == |e| && s[|pre|..|pre| + |e|] == e
  {
    RunOfDigits(pre, e, rest, s);
    TailAfter(pre, e, rest, s);
    MatchFromRun(s, |pre|, |e|);
  }

  /** No match starts among leading characters that are not digits. */
  lemma NoMatchBefore(pre: string, rest: string, s: string)
    requires forall i :: 0 <= i < |pre| ==> !IsDigit(pre[i])
    requires s == pre + rest
    ensures forall q :: 0 <= q < |pre| ==> !MatchesAt(s, q)
  {
    forall q | 0 <= q < |pre| ensures !MatchesAt(s, q) {
      assert s[q] == pre[q];
    }
  }

  /** When the leftmost match starts at `p`, `=~` finds it there. */
  lemma LeftmostAt(s: string, p: nat)
    requires p <= |s| && MatchesAt(s, p)
    requires forall q :: 0 <= q < p ==> !MatchesAt(s, q)
    ensures FirstMatch(s, 0) == Some(p)
  {
  }

  /** Digits after text without digits, followed by an accepted tail, are what `$1` captures. */
  lemma CaptureOfDigits(pre: string, e: string, rest: string, s: string)
    requires forall i :: 0 <= i < |pre| ==> !IsDigit(pre[i])
    requires |e| >= 1 && AllDigits(e)
    requires rest != [] && rest[0] == '_' && TailAt(rest, 0)
    requires s == pre + e + rest
    ensures Capture(s) == Some(e)
  {
    MatchOfDigits(pre, e, rest, s);
    NoMatchBefore(pre, e + rest, s);
    LeftmostAt(s, |pre|);
  }

  /** The suffix alone is an accepted tail. */
  lemma SuffixTail()
    ensures TailAt(FileNameSuffix, 0)
  {
    assert FileNameSuffix[0..|FileNameSuffix|] == FileNameSuffix;
  }

  /** `_YYYY_MM_DD` and the suffix form an accepted tail. */
  lemma DatedTailOf(y: string, m: string, d: string, t: string)
    requires |y| == 4 && |m| == 2 && |d| == 2
    requires AllDigits(y) && AllDigits(m) && AllDigits(d)
    requires t == "_" + y + "_" + m + "_" + d
    ensures TailAt(t + FileNameSuffix, 0) && (t + FileNameSuffix)[0] == '_'
  {
    var s := t + FileNameSuffix;
    var a := "_" + y;
    var b := a + "_" + m;
    assert t == b + "_" + d;
    assert forall i :: 0 <= i < 4 ==> a[1 + i] == y[i];
    assert forall i :: 0 <= i < 5 ==> b[i] == a[i];
    assert forall i :: 0 <= i < 2 ==> b[6 + i] == m[i];
    assert forall i :: 0 <= i < 8 ==> t[i] == b[i];
    assert forall i :: 0 <= i < 2 ==> t[9 + i] == d[i];
    assert forall i :: 0 <= i < 11 ==> s[i] == t[i];
    assert s[11..11 + |FileNameSuffix|] == FileNameSuffix;
  }

  /** The padded year, month and day take exactly four, two and two digits. */
  lemma PaddedParts(year: nat, month: nat, day: nat)
    requires year <= 9999 && month <= 99 && day <= 99
    ensures |ZeroPad(Decimal(year), 4)| == 4 && AllDigits(ZeroPad(Decimal(year), 4))
    ensures |ZeroPad(Decimal(month), 2)| == 2 && AllDigits(ZeroPad(Decimal(month), 2))
    ensures |ZeroPad(Decimal(day), 2)| == 2 && AllDigits(ZeroPad(Decimal(day), 2))
  {
    assert Pow10(4) == 10000 && Pow10(2) == 100;
    DecimalLength(year, 4);
    DecimalLength(month, 2);
    DecimalLength(day, 2);
    ZeroPadDigits(Decimal(year), 4);
    ZeroPadDigits(Decimal(month), 2);
    ZeroPadDigits(Decimal(day), 2);
  }

  /** The rendered epoch after text without digits, followed by an accepted tail, is read back. */
  lemma NameReadsEpoch(pre: string, epoch: nat, rest: string, name: string)
    requires forall i :: 0 <= i < |pre| ==> !IsDigit(pre[i])
    requires rest != [] && rest[0] == '_' && TailAt(rest, 0)
    requires name == pre + Decimal(epoch) + rest
    ensures Timestamp(name) == Some(epoch)
  {
    CaptureOfDigits(pre, Decimal(epoch), rest, name);
    DecimalRoundTrip(epoch);
  }

  /**
   * The name `pack` gives an archive is matched by the pattern of `remove_old`, and the
   * timestamp read back is the epoch it was written with (for years of at most four
   * digits, as `%Y` gives until the year 10000).
   */
  lemma TimestampRoundTrip(epoch: nat, year: nat, month: nat, day: nat)
    requires year <= 9999 && month <= 99 && day <= 99
    ensures Timestamp(TarFileName(epoch, year, month, day)) == Some(epoch)
  {
    DateStampTail(year, month, day);
    TarFileNameParts(epoch, year, month, day);
    NameReadsEpoch([], epoch, DateStamp(year, month, day) + FileNameSuffix, TarFileName(epoch, year, month, day));
  }

  /** The date part is accepted by the optional group of the pattern. */
  lemma DateStampTail(year: nat, month: nat, day: nat)
    requires year <= 9999 && month <= 99 && day <= 99
    ensures var rest := DateStamp(year, month, day) + FileNameSuffix; TailAt(rest, 0) && rest[0] == '_'
  {
    PaddedParts(year, month, day);
    DatedTailOf(ZeroPad(Decimal(year), 4), ZeroPad(Decimal(month), 2), ZeroPad(Decimal(day), 2),
                DateStamp(year, month, day));
  }

  lemma TarFileNameParts(epoch: nat, year: nat, month: nat, day: nat)
    ensures TarFileName(epoch, year, month, day) == [] + Decimal(epoch) + (DateStamp(year, month, day) + FileNameSuffix)
  {
    Regroup(Decimal(epoch), DateStamp(year, month, day), FileNameSuffix, TarFileName(epoch, year, month, day));
  }

  lemma Regroup(a: string, b: string, c: string, r: string)
    requires r == a + b + c
    ensures r == [] + a + (b + c)
  {
  }

  /** Names without the date part (`<epoch>_gitlab_backup.tar`) are read back as well. */
  lemma UndatedTimestampRoundTrip(epoch: nat)
    ensures Timestamp(Decimal(epoch) + FileNameSuffix) == Some(epoch)
  {
    SuffixTail();
    NameReadsEpoch([], epoch, FileNameSuffix, Decimal(epoch) + FileNameSuffix);
  }

  /**
   * The pattern is not anchored: in front of `<epoch>_gitlab_backup.tar` may stand
   * any text without digits (`v2_gitlab_backup.tar` is read as 2).
   */
  lemma UnanchoredTimestamp(pre: string, epoch: nat)
    requires forall i :: 0 <= i < |pre| ==> !IsDigit(pre[i])
    ensures Timestamp(pre + Decimal(epoch) + FileNameSuffix) == Some(epoch)
  {
    SuffixTail();
    NameReadsEpoch(pre, epoch, FileNameSuffix, pre + Decimal(epoch) + FileNameSuffix);
  }

  /** A name without any digit has no timestamp. */
  lemma NoDigitsNoTimestamp(name: string)
    requires forall i :: 0 <= i < |name| ==> !IsDigit(name[i])
    ensures Timestamp(name) == None
  {
    forall q | 0 <= q <= |name| ensures !MatchesAt(name, q) {
      assert DigitRun(name, q) == 0;
    }
  }

  // ---------------------------------------------------------------------------
  // remove_old

  /** `Dir.glob("*_gitlab_backup.tar")`: the name ends with the suffix and is not hidden. */
  predicate Globbed(file: string) {
    EndsWith(file, FileNameSuffix) && file[0] != '.'
  }

  /** The entries a glob returns, in directory order. */
  function Glob(entries: seq<string>): (r: seq<string>)
    ensures forall f :: f in r <==> f in entries && Globbed(f)
    ensures SubsequenceOf(r, entries)
  {
    if entries == [] then []
    else
      var rest := Glob(entries[1..]);
      assert forall x :: x in entries <==> x == entries[0] || x in entries[1..];
      if Globbed(entries[0]) then [entries[0]] + rest
      else
        SubsequenceSkip(rest, entries);
        rest
  }

  /** The archive matches the pattern and its timestamp lies strictly before `now - keepTime`. */
  predicate Expired(file: string, now: int, keepTime: int) {
    var ts := Timestamp(file);
    ts.Some? && ts.value < now - keepTime
  }

  /** The archives `remove_old` deletes: expired ones whose `rm` does not raise. */
  function Deleted(files: seq<string>, now: int, keepTime: int, failing: set<string>): (r: seq<string>)
    ensures |r| <= |files|
  {
    if files == [] then []
    else
      var init := files[..|files| - 1];
      var last := files[|files| - 1];
      assert files == init + [last];
      var r := Deleted(init, now, keepTime, failing);
      if Expired(last, now, keepTime) && last !in failing then r + [last] else r
  }

  /**
   * `remove_old`: with a positive `keep_time`, every globbed archive whose timestamp
   * is older than `now - keep_time` is removed; a removal that raises is reported and
   * the loop goes on. `removed` counts the removals that succeeded.
   */
  method RemoveOld(entries: seq<string>, now: int, keepTime: int, failing: set<string>)
    returns (removed: nat, deleted: seq<string>)
    ensures keepTime <= 0 ==> removed == 0 && deleted == []
    ensures keepTime > 0 ==> deleted == Deleted(Glob(entries), now, keepTime, failing)
    ensures removed == |deleted|
  {
    removed := 0;
    deleted := [];
    if keepTime > 0 {
      removed, deleted := RemoveExpired(Glob(entries), now, keepTime, failing);
    }
  }

  /** The loop of `remove_old` over the globbed files. */
  method RemoveExpired(files: seq<string>, now: int, keepTime: int, failing: set<string>)
    returns (removed: nat, deleted: seq<string>)
    ensures deleted == Deleted(files, now, keepTime, failing)
    ensures removed == |deleted|
  {
    removed := 0;
    deleted := [];
    var i := 0;
    while i < |files|
      invariant 0 <= i <= |files|
      invariant deleted == Deleted(files[..i], now, keepTime, failing)
      invariant removed == |deleted|
    {
      var file := files[i];
      var ts := Timestamp(file);
      DeletedStep(files, i, now, keepTime, failing, ts);
      if ts.Some? && ts.value < now - keepTime {
        if file !in failing {
          deleted := deleted + [file];
          removed := removed + 1;
        }
      }
      i := i + 1;
    }
    assert files[..|files|] == files;
  }

  /** One more file considered: it is deleted after the others exactly when it is expired and does not fail. */
  lemma DeletedStep(files: seq<string>, i: nat, now: int, keepTime: int, failing: set<string>, ts: Option<nat>)
    requires i < |files| && ts == Timestamp(files[i])
    ensures Deleted(files[..i + 1], now, keepTime, failing)
            == Deleted(files[..i], now, keepTime, failing)
               + (if ts.Some? && ts.value < now - keepTime && files[i] !in failing then [files[i]] else [])
  {
    assert files[..i + 1][..i] == files[..i];
  }

  /** The deleted files are exactly the expired ones whose removal does not fail. */
  lemma {:induction false} DeletedMembers(files: seq<string>, now: int, keepTime: int, failing: set<string>, f: string)
    ensures f in Deleted(files, now, keepTime, failing) <==> f in files && Expired(f, now, keepTime) && f !in failing
  {
    if files != [] {
      var init := files[..|files| - 1];
      assert files == init + [files[|files| - 1]];
      DeletedMembers(init, now, keepTime, failing, f);
    }
  }

  /**
   * With a positive `keep_time`, a directory entry is deleted exactly when it is a
   * globbed archive, its name carries a timestamp older than `now - keep_time`, and
   * its removal does not fail.
   */
  lemma DeletedIff(entries: seq<string>, now: int, keepTime: int, failing: set<string>, f: string)
    ensures f in Deleted(Glob(entries), now, keepTime, failing) <==>
              && f in entries && Globbed(f) && f !in failing
              && (exists ts :: Timestamp(f) == Some(ts) && ts < now - keepTime)
  {
    DeletedMembers(Glob(entries), now, keepTime, failing, f);
    if Timestamp(f).Some? {
      assert Timestamp(f) == Some(Timestamp(f).value);
    }
  }

  lemma TarFileNameGlobbed(epoch: nat, year: nat, month: nat, day: nat)
    ensures Globbed(TarFileName(epoch, year, month, day))
  {
    var e := Decimal(epoch);
    assert TarFileName(epoch, year, month, day)[0] == e[0];
  }

  /** A backup written at or after the cut-off survives `remove_old`. */
  lemma RecentBackupKept(entries: seq<string>, now: int, keepTime: int, failing: set<string>,
                         epoch: nat, year: nat, month: nat, day: nat)
    requires year <= 9999 && month <= 99 && day <= 99
    requires epoch >= now - keepTime
    ensures TarFileName(epoch, year, month, day) !in Deleted(Glob(entries), now, keepTime, failing)
  {
    TimestampRoundTrip(epoch, year, month, day);
    DeletedMembers(Glob(entries), now, keepTime, failing, TarFileName(epoch, year, month, day));
  }

  /** A backup written before the cut-off is removed, unless its removal fails. */
  lemma OldBackupRemoved(entries: seq<string>, now: int, keepTime: int, failing: set<string>,
                         epoch: nat, year: nat, month: nat, day: nat)
    requires year <= 9999 && month <= 99 && day <= 99
    requires epoch < now - keepTime
    requires TarFileName(epoch, year, month, day) in entries
    requires TarFileName(epoch, year, month, day) !in failing
    ensures TarFileName(epoch, year, month, day) in Deleted(Glob(entries), now, keepTime, failing)
  {
    TimestampRoundTrip(epoch, year, month, day);
    DeletedMembers(Glob(entries), now, keepTime, failing, TarFileName(epoch, year, month, day));
    TarFileNameGlobbed(epoch, year, month, day);
  }

  // ---------------------------------------------------------------------------
  // unpack

  datatype RestoreError =
    | NoBackups
    | Ambiguous
    | Missing(file: string)
    | ExtractFailed
    | VersionMismatch(backupVersion: string)

  /**
   * The archive `unpack` opens: none found, or several found without `BACKUP`, is an
   * error; a non-blank `BACKUP` names the archive `BACKUP` + suffix; otherwise the
   * first archive found is taken. The chosen file must exist.
   */
  function SelectArchive(entries: seq<string>, backup: Option<string>): (r: Result<string, RestoreError>)
    ensures Glob(entries) == [] ==> r == Err(NoBackups)
    ensures Glob(entries) != [] && |Glob(entries)| > 1 && backup.None? ==> r == Err(Ambiguous)
    ensures r.Ok? ==> r.value in entries
    ensures r.Ok? && backup.Some? && !Blank(backup.value) ==> r.value == backup.value + FileNameSuffix
    ensures r.Ok? && (backup.None? || Blank(backup.value)) ==> r.value == Glob(entries)[0]
    ensures r.Err? && r.error.Missing? ==> r.error.file !in entries && backup.Some? && r.error.file == backup.value + FileNameSuffix
    ensures r.Ok? <==> && Glob(entries) != [] && (|Glob(entries)| == 1 || backup.Some?)
                       && (backup.Some? && !Blank(backup.value) ==> backup.value + FileNameSuffix in entries)
  {
    var files := Glob(entries);
    if |files| == 0 then Err(NoBackups)
    else if |files| > 1 && backup.None? then Err(Ambiguous)
    else
      var file := if backup.Some? && !Blank(backup.value) then backup.value + FileNameSuffix else files[0];
      if file !in entries then Err(Missing(file)) else Ok(file)
  }

  /** A blank `BACKUP` with several archives is not refused: the first archive is taken. */
  lemma BlankBackupTakesFirst(entries: seq<string>, v: string)
    requires |Glob(entries)| > 1 && Blank(v)
    ensures SelectArchive(entries, Some(v)) == Ok(Glob(entries)[0])
  {
  }

  /** The whitespace `String#to_i` skips first. */
  function DropSpace(s: string): (r: string)
    ensures |r| <= |s| && r == s[|s| - |r|..]
    ensures r != [] ==> !IsSpace(r[0])
  {
    if s != [] && IsSpace(s[0]) then DropSpace(s[1..]) else s
  }

  /** The leading digits of `s`. */
  function DigitPrefix(s: string): (r: string)
    ensures AllDigits(r)
  {
    s[..DigitRun(s, 0)]
  }

  /**
   * Ruby's `String#to_i`: leading whitespace, an optional sign, then as many decimal
   * digits as there are; no digits give 0.
   */
  function ToI(s: string): int {
    var t := DropSpace(s);
    if t != [] && t[0] == '-' then -(DecimalValue(DigitPrefix(t[1..])) as int)
    else if t != [] && t[0] == '+' then DecimalValue(DigitPrefix(t[1..]))
    else DecimalValue(DigitPrefix(t))
  }

  /** A rendered number is read back by `to_i`. */
  lemma ToIRoundTrip(n: nat)
    ensures ToI(Decimal(n)) == n
  {
    var s := Decimal(n);
    assert !IsSpace(s[0]);
    assert DropSpace(s) == s;
    DigitRunExact(s, 0, |s|);
    assert DigitPrefix(s) == s;
    DecimalRoundTrip(n);
  }

  /** What a successful restore leaves: the archive unpacked and the `VERSION` it sets, if any. */
  datatype Restore = Restore(archive: string, versionEnv: Option<string>)

  /**
   * `unpack`: select the archive, extract it (the outcome of `tar -xf` is `extractOk`),
   * set `VERSION` to the stored database version when it reads as a positive number,
   * and refuse a backup written by another GitLab version.
   */
  function Unpack(entries: seq<string>, backup: Option<string>, extractOk: bool,
                  info: Information, currentVersion: string): (r: Result<Restore, RestoreError>)
    ensures r.Ok? <==> SelectArchive(entries, backup).Ok? && extractOk && info.gitlabVersion == currentVersion
    ensures r.Ok? ==> r.value.archive == SelectArchive(entries, backup).value
    ensures r.Ok? ==> (r.value.versionEnv.Some? <==> ToI(info.dbVersion) > 0)
    ensures r.Ok? && r.value.versionEnv.Some? ==> r.value.versionEnv.value == info.dbVersion
    ensures SelectArchive(entries, backup).Err? ==> r == Err(SelectArchive(entries, backup).error)
    ensures SelectArchive(entries, backup).Ok? && !extractOk ==> r == Err(ExtractFailed)
    ensures (SelectArchive(entries, backup).Ok? && extractOk && info.gitlabVersion != currentVersion)
              ==> r == Err(VersionMismatch(info.gitlabVersion))
  {
    match SelectArchive(entries, backup)
    case Err(e) => Err(e)
    case Ok(file) =>
      if !extractOk then Err(ExtractFailed)
      else
        var version := if ToI(info.dbVersion) > 0 then Some(info.dbVersion) else None;
        if info.gitlabVersion != currentVersion then Err(VersionMismatch(info.gitlabVersion))
        else Ok(Restore(file, version))
  }

  /**
   * A backup whose information was written by `pack` (`db_version` is the decimal
   * schema version) sets `VERSION` exactly when that version is positive.
   */
  lemma RestoreSetsSchemaVersion(entries: seq<string>, backup: Option<string>, info: Information,
                                 currentVersion: string, schema: nat)
    requires info.dbVersion == Decimal(schema)
    requires Unpack(entries, backup, true, info, currentVersion).Ok?
    ensures Unpack(entries, backup, true, info, currentVersion).value.versionEnv ==
              (if schema > 0 then Some(Decimal(schema)) else None)
  {
    ToIRoundTrip(schema);
  }

  // ---------------------------------------------------------------------------
  // cleanup

  /** The entries of `contents` that exist, in order. */
  function Existing(contents: seq<string>, existing: set<string>): (r: seq<string>)
    ensures forall x :: x in r <==> x in contents && x in existing
    ensures SubsequenceOf(r, contents)
  {
    if contents == [] then []
    else
      var rest := Existing(contents[1..], existing);
      assert forall x :: x in contents <==> x == contents[0] || x in contents[1..];
      if contents[0] in existing then [contents[0]] + rest
      else
        SubsequenceSkip(rest, contents);
        rest
  }

  /**
   * `cleanup`: walks the backup contents and removes each one that exists in the
   * backup directory, skipping the others. Returns what was removed, in order.
   */
  method Cleanup(info: Information, registryEnabled: bool, existing: set<string>) returns (removed: seq<string>)
    ensures removed == Existing(BackupContents(info, registryEnabled), existing)
  {
    var contents := BackupContents(info, registryEnabled);
    removed := [];
    var j := 0;
    while j < |contents|
      invariant 0 <= j <= |contents|
      invariant Existing(contents, existing) == removed + Existing(contents[j..], existing)
    {
      assert contents[j..][1..] == contents[j + 1..];
      var dir := contents[j];
      if dir in existing {
        removed := removed + [dir];
      }
      j := j + 1;
    }
  }
}
