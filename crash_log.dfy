/** Crash-log files: one file per calendar day in the cache directory, named
    `CrashlogAsOn-dd-MM-yyyy.log`, and the rotation done at startup. The cache
    directory is a map from file name to content; dates are day, month and year
    numbers supplied by the caller. */
module CrashLog {

  datatype Date = Date(day: nat, month: nat, year: nat)

  predicate ValidDate(d: Date) {
    1 <= d.day <= 31 && 1 <= d.month <= 12 && 1 <= d.year <= 9999
  }

  type FileSystem = map<string, string>

  const PREFIX: string := "CrashlogAsOn-"
  const SUFFIX: string := ".log"

  function Pow10(w: nat): (r: nat)
    ensures r >= 1
  {
    if w == 0 then 1 else 10 * Pow10(w - 1)
  }

  function DigitChar(k: nat): char
    requires k < 10
  {
    ('0' as int + k) as char
  }

  function DigitValue(c: char): nat {
    if '0' <= c <= '9' then c as int - '0' as int else 0
  }

  /** Every character is a decimal digit. */
  predicate AllDigits(s: string) {
    forall i :: 0 <= i < |s| ==> '0' <= s[i] <= '9'
  }

  /** The decimal reading of a string of digits. */
  function DecimalValue(s: string): nat {
    if s == [] then 0 else 10 * DecimalValue(s[..|s| - 1]) + DigitValue(s[|s| - 1])
  }

  /** `n` written with exactly `width` decimal digits, zero-padded on the left. */
  function Digits(n: nat, width: nat): (r: string)
    requires n < Pow10(width)
    ensures |r| == width
    ensures AllDigits(r)
    ensures DecimalValue(r) == n
    decreases width
  {
    if width == 0 then []
    else
      var r := Digits(n / 10, width - 1) + [DigitChar(n % 10)];
      assert r[..|r| - 1] == Digits(n / 10, width - 1);
      r
  }

  /** `fileNameForLogFileOn` with the "dd-MM-yyyy" format: the prefix, three
      fields separated by hyphens, and the suffix. */
  function FileName(d: Date): (r: string)
    requires ValidDate(d)
    ensures |r| == 27 && r[..13] == PREFIX && r[23..] == SUFFIX && r[15] == '-' && r[18] == '-'
  {
    var dd, mm, yyyy := Digits(d.day, 2), Digits(d.month, 2), Digits(d.year, 4);
    NameLayout(PREFIX, dd, mm, yyyy, SUFFIX);
    PREFIX + dd + "-" + mm + "-" + yyyy + SUFFIX
  }

  /** The three fields of a file name are decimal digits, and the day, month
      and year can be read back from their fixed positions. */
  lemma FileNameFields(d: Date)
    requires ValidDate(d)
    ensures var r := FileName(d);
      AllDigits(r[13..15]) && AllDigits(r[16..18]) && AllDigits(r[19..23])
      && DecimalValue(r[13..15]) == d.day && DecimalValue(r[16..18]) == d.month
      && DecimalValue(r[19..23]) == d.year
  {
    NameLayout(PREFIX, Digits(d.day, 2), Digits(d.month, 2), Digits(d.year, 4), SUFFIX);
  }

  /** Where the pieces of a file name sit, for any prefix and suffix of the
      lengths used. */
  lemma NameLayout(prefix: string, dd: string, mm: string, yyyy: string, suffix: string)
    requires |prefix| == 13 && |dd| == 2 && |mm| == 2 && |yyyy| == 4 && |suffix| == 4
    ensures var r := prefix + dd + "-" + mm + "-" + yyyy + suffix;
      |r| == 27 && r[..13] == prefix && r[13..15] == dd && r[15] == '-' && r[16..18] == mm
      && r[18] == '-' && r[19..23] == yyyy && r[23..] == suffix
  {
  }

  /** Distinct dates get distinct file names, which is what lets rotation find
      yesterday's file and nothing else. */
  lemma FileNameInjective(d1: Date, d2: Date)
    requires ValidDate(d1) && ValidDate(d2)
    ensures FileName(d1) == FileName(d2) <==> d1 == d2
  {
    FileNameFields(d1);
    FileNameFields(d2);
  }

  /** The cache directory after `readLastSavedCrashLog`: yesterday's and today's
      files removed, then today's file recreated empty. */
  function RotatedFiles(fs: FileSystem, today: Date, yesterday: Date): (r: FileSystem)
    requires ValidDate(today) && ValidDate(yesterday)
    ensures FileName(today) in r && r[FileName(today)] == ""
  {
    var t, y := FileName(today), FileName(yesterday);
    Replacing(fs, t, y);
    (fs - {y} - {t})[t := ""]
  }

  /** The text `readLastSavedCrashLog` returns: today's file as found after
      yesterday's was removed, or the empty string. */
  function SavedLog(fs: FileSystem, today: Date, yesterday: Date): (r: string)
    requires ValidDate(today) && ValidDate(yesterday)
    ensures today == yesterday ==> r == ""
    ensures today != yesterday ==> r == if FileName(today) in fs then fs[FileName(today)] else ""
  {
    var t, y := FileName(today), FileName(yesterday);
    FileNameInjective(today, yesterday);
    Replacing(fs, t, y);
    var rest := fs - {y};
    if t in rest then rest[t] else ""
  }

  /** Rotation on plain names: removing `y` and `t` and recreating `t` empty
      leaves every other entry as it was, and reading `t` after removing `y`
      sees `t`'s content unless the two names coincide. */
  lemma Replacing(fs: FileSystem, t: string, y: string)
    ensures var r := (fs - {y} - {t})[t := ""];
      t in r && r[t] == "" && r - {t} == fs - {y} - {t} && (t != y ==> y !in r)
      && (forall name :: name != t && name != y ==> (name in r <==> name in fs))
      && (forall name :: name != t && name != y && name in fs ==> r[name] == fs[name])
    ensures t == y ==> t !in fs - {y}
    ensures t != y ==> (t in fs - {y} <==> t in fs) && (t in fs ==> (fs - {y})[t] == fs[t])
  {
  }

  /** What one rotation does: yesterday's file is gone, today's file exists and
      is empty, the text read is today's prior content, and every other file is
      left as it was. */
  lemma RotationOutcome(fs: FileSystem, today: Date, yesterday: Date)
    requires ValidDate(today) && ValidDate(yesterday) && today != yesterday
    ensures FileName(yesterday) !in RotatedFiles(fs, today, yesterday)
    ensures FileName(today) in RotatedFiles(fs, today, yesterday)
    ensures RotatedFiles(fs, today, yesterday)[FileName(today)] == ""
    ensures SavedLog(fs, today, yesterday) == if FileName(today) in fs then fs[FileName(today)] else ""
    ensures forall name :: name != FileName(today) && name != FileName(yesterday) ==>
              (name in RotatedFiles(fs, today, yesterday) <==> name in fs)
    ensures forall name :: name != FileName(today) && name != FileName(yesterday) && name in fs ==>
              RotatedFiles(fs, today, yesterday)[name] == fs[name]
  {
    FileNameInjective(today, yesterday);
    Replacing(fs, FileName(today), FileName(yesterday));
  }

  /** The retention gap: the file of any third date (the day before yesterday,
      say) survives every rotation untouched. */
  lemma OtherDatesUntouched(fs: FileSystem, today: Date, yesterday: Date, other: Date)
    requires ValidDate(today) && ValidDate(yesterday) && ValidDate(other)
    requires other != today && other != yesterday
    ensures FileName(other) in RotatedFiles(fs, today, yesterday) <==> FileName(other) in fs
    ensures FileName(other) in fs ==> RotatedFiles(fs, today, yesterday)[FileName(other)] == fs[FileName(other)]
  {
    FileNameInjective(other, today);
    FileNameInjective(other, yesterday);
    Replacing(fs, FileName(today), FileName(yesterday));
  }

  /** Yesterday's file is removed without being read: a log captured the day
      before is lost when the next start falls on the following day. */
  lemma YesterdaysLogDiscarded(fs: FileSystem, today: Date, yesterday: Date)
    requires ValidDate(today) && ValidDate(yesterday) && today != yesterday
    requires FileName(today) !in fs
    ensures SavedLog(fs, today, yesterday) == ""
    ensures FileName(yesterday) !in RotatedFiles(fs, today, yesterday)
  {
    FileNameInjective(today, yesterday);
    Replacing(fs, FileName(today), FileName(yesterday));
  }

  /** A rotation right after a rotation reads back nothing. */
  lemma SecondRotationReadsNothing(fs: FileSystem, today: Date, yesterday: Date)
    requires ValidDate(today) && ValidDate(yesterday)
    ensures SavedLog(RotatedFiles(fs, today, yesterday), today, yesterday) == ""
  {
  }
}
