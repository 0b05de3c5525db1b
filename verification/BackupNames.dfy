/** Backup names: a time in the format of section 5.6 of RFC 3339, a dash, and a sequence number. */
module BackupNames {
  import opened Options
  import opened Lexical
  import opened Calendar
  import opened Text
  import opened Decimals
  import opened Rfc3339

  // Names.

  /** The instant of a backup, in nanoseconds since 0000-01-01T00:00:00Z, and what follows it. */
  datatype NameInfo = NameInfo(timestamp: int, suffix: string)

  /** Where "Z-" first occurs. */
  function IndexOfZDash(s: string): (r: int)
    ensures r == -1 || (0 <= r <= |s| - 2 && s[r] == 'Z' && s[r + 1] == '-')
    ensures forall i | 0 <= i < |s| - 1 && (r == -1 || i < r) :: !(s[i] == 'Z' && s[i + 1] == '-')
  {
    if |s| < 2 then -1
    else if s[0] == 'Z' && s[1] == '-' then 0
    else
      var r := IndexOfZDash(s[1..]);
      assert forall i | 0 < i < |s| - 1 :: s[1..][i - 1] == s[i] && s[1..][i] == s[i + 1];
      if r == -1 then -1 else r + 1
  }

  lemma {:induction false} FirstZDash(s: string, rest: string)
    requires 'Z' !in s
    ensures IndexOfZDash(s + "Z-" + rest) == |s|
  {
    var t := s + "Z-" + rest;
    if s == "" {
      assert t[0] == 'Z' && t[1] == '-';
    } else {
      assert t[1..] == s[1..] + "Z-" + rest;
      assert t[0] == s[0];
      FirstZDash(s[1..], rest);
    }
  }

  function ParseBackupName(name: string): Option<NameInfo> {
    var z := IndexOfZDash(name);
    if z == -1 then
      match ParseInstant(name)
      case None => None
      case Some(t) => Some(NameInfo(t, ""))
    else
      match ParseInstant(name[..z + 1])
      case None => None
      case Some(t) => Some(NameInfo(t, name[z + 2..]))
  }

  /** The name of a backup made at an instant. */
  function BackupName(t: int, suffix: string): string
    requires 0 <= t < End()
  {
    Stamp(CivilOf(t)) + "-" + suffix
  }

  lemma {:induction false} NoZInDigits(n: nat, w: nat)
    ensures 'Z' !in Digits(n, w)
  {
    if w > 0 {
      NoZInDigits(n / 10, w - 1);
    }
  }

  lemma StampHasOneZ(c: Civil)
    ensures 'Z' !in Stamp(c)[..19]
  {
    NoZInDigits(c.year, 4);
    NoZInDigits(c.month, 2);
    NoZInDigits(c.day, 2);
    NoZInDigits(c.hour, 2);
    NoZInDigits(c.minute, 2);
    NoZInDigits(c.second, 2);
    hide Digits;
    var d := DateText(c) + "T" + Digits(c.hour, 2) + ":" + Digits(c.minute, 2) + ":" + Digits(c.second, 2);
    assert 'Z' !in d;
    assert Stamp(c) == d + "Z";
    assert (d + "Z")[..19] == d;
  }

  /** A name parses back to its second and its suffix, whatever the suffix is. */
  lemma ParseMadeName(t: int, suffix: string)
    requires 0 <= t < End()
    ensures ParseBackupName(BackupName(t, suffix)) == Some(NameInfo(t * SECOND, suffix))
  {
    var c := CivilOf(t);
    StampHasOneZ(c);
    StampIsRead(c);
    StampEnds(c);
    StampedName(Stamp(c), suffix, t * SECOND);
  }

  lemma StampedName(s: string, suffix: string, t: int)
    requires |s| == 20 && s[19] == 'Z' && 'Z' !in s[..19] && ParseInstant(s) == Some(t)
    ensures ParseBackupName(s + "-" + suffix) == Some(NameInfo(t, suffix))
  {
    hide ParseInstant, IndexOfZDash;
    var name := s + "-" + suffix;
    assert name == s[..19] + "Z-" + suffix;
    FirstZDash(s[..19], suffix);
    assert name[..20] == s && name[21..] == suffix;
  }

  lemma StampEnds(c: Civil)
    ensures Stamp(c)[19] == 'Z'
  {
  }

  /** The order of names is the order of (time, sequence number); in particular names are different. */
  lemma OrderOfNames(t: int, n: nat, u: int, m: nat)
    requires 0 <= t < End() && 0 <= u < End() && n <= MAX_SEQUENCE && m <= MAX_SEQUENCE
    ensures Less(BackupName(t, Digits(n, 6)), BackupName(u, Digits(m, 6))) <==> t < u || (t == u && n < m)
    ensures BackupName(t, Digits(n, 6)) == BackupName(u, Digits(m, 6)) <==> t == u && n == m
  {
    Powers();
    OrderOfStamps(CivilOf(t), CivilOf(u));
    OneMoreField(Stamp(CivilOf(t)), Stamp(CivilOf(u)), "-", n, m, 6);
  }

  // The sequence number of a manager.

  const MAX_SEQUENCE: nat := 999999

  function NextSequence(n: nat): (r: nat)
    requires n <= MAX_SEQUENCE
    ensures r <= MAX_SEQUENCE
  {
    if n + 1 > MAX_SEQUENCE then 0 else n + 1
  }

  class Uploads {
    var sequence: nat

    ghost predicate Valid()
      reads this
    {
      sequence <= MAX_SEQUENCE
    }

    constructor ()
      ensures Valid() && sequence == 0
    {
      sequence := 0;
    }

    method UploadBackup(now: int) returns (name: string)
      requires Valid() && 0 <= now < End()
      modifies this
      ensures Valid() && sequence == NextSequence(old(sequence))
      ensures name == BackupName(now, Digits(sequence, 6))
    {
      sequence := sequence + 1;
      if sequence > MAX_SEQUENCE {
        sequence := 0;
      }
      name := Stamp(CivilOf(now)) + "-" + Digits(sequence, 6);
    }
  }

  /** Two backups of one manager, one after the other, are listed in this order unless they fall in one
      second and the counter wrapped between them. */
  lemma NextNameIsLater(t: int, u: int, n: nat)
    requires 0 <= t <= u < End() && n <= MAX_SEQUENCE
    ensures Less(BackupName(t, Digits(n, 6)), BackupName(u, Digits(NextSequence(n), 6))) <==> t < u || n != MAX_SEQUENCE
  {
    OrderOfNames(t, n, u, NextSequence(n));
  }

  // Listing.

  const META_FILENAME := "_etcd_backup.meta"

  /** The backups among the files of the store. */
  function Listed(paths: seq<string>): seq<string> {
    if paths == [] then [] else Listed(paths[..|paths| - 1]) + DirectoryOf(paths[|paths| - 1])
  }

  predicate EndsWith(s: string, suffix: string) {
    |s| >= |suffix| && s[|s| - |suffix|..] == suffix
  }

  /** The path is that of the meta file in the directory `name`. */
  predicate IsMetaOf(path: string, name: string) {
    EndsWith("/" + path, "/" + name + "/" + META_FILENAME)
  }

  /** The last two tokens of a path. */
  predicate TokensEnd(path: string, name: string) {
    var tokens := Split(path, '/');
    |tokens| >= 2 && tokens[|tokens| - 2..] == [name, META_FILENAME]
  }

  lemma MetaTail(name: string)
    requires '/' !in name
    ensures Split(name + "/" + META_FILENAME, '/') == [name, META_FILENAME] && Join([name, META_FILENAME], '/') == name + "/" + META_FILENAME
  {
    assert '/' !in META_FILENAME;
    SplitPiece(name, META_FILENAME, '/');
    SplitLast(META_FILENAME, '/');
    assert [name, META_FILENAME][1..] == [META_FILENAME];
  }

  /** A path ends in a tail exactly if it is the tail or goes on before it. */
  lemma EndsWithSlash(path: string, tail: string)
    ensures EndsWith("/" + path, "/" + tail) <==> path == tail || exists head :: path == head + ['/'] + tail
  {
    var whole, suffix := "/" + path, "/" + tail;
    if EndsWith(whole, suffix) && |path| > |tail| {
      var k := |path| - |tail|;
      assert whole == whole[..k] + suffix;
      assert path == whole[1..] == whole[1..k] + suffix;
      assert path == whole[1..k] + ['/'] + tail;
    } else if EndsWith(whole, suffix) {
      assert whole[0..] == whole;
      assert path == whole[1..] && tail == suffix[1..];
    }
    if head :| path == head + ['/'] + tail {
      assert whole == ("/" + head) + suffix;
    }
    if path == tail { assert whole[0..] == whole; }
  }

  lemma MetaTokens(path: string, name: string)
    requires '/' !in name
    ensures TokensEnd(path, name) <==> IsMetaOf(path, name)
  {
    var tail := name + "/" + META_FILENAME;
    MetaTail(name);
    EndsWithSlash(path, tail);
    assert "/" + tail == "/" + name + "/" + META_FILENAME;
    hide Split, Join, EndsWith;
    if head :| path == head + ['/'] + tail {
      SplitAppend(head, tail, '/');
      var tokens := Split(head, '/') + [name, META_FILENAME];
      assert tokens[|tokens| - 2..] == [name, META_FILENAME];
    }
    if path == tail { assert [name, META_FILENAME][0..] == [name, META_FILENAME]; }
    if TokensEnd(path, name) { TokensEndTail(path, name, tail); }
  }

  lemma TokensEndTail(path: string, name: string, tail: string)
    requires TokensEnd(path, name) && Join([name, META_FILENAME], '/') == tail
    ensures path == tail || exists head :: path == head + ['/'] + tail
  {
    var tokens := Split(path, '/');
    var last := tokens[|tokens| - 2..];
    JoinSplit(path, '/');
    hide Split, Join;
    if |tokens| == 2 {
      assert tokens == last;
    } else {
      var init := tokens[..|tokens| - 2];
      assert tokens == init + last;
      JoinAppend(init, last, '/');
      assert path == Join(init, '/') + ['/'] + tail;
    }
  }

  /** A directory is listed exactly as often as there are meta files in it. */
  lemma {:induction false} ListedIsDirectories(paths: seq<string>, name: string)
    requires '/' !in name
    ensures multiset(Listed(paths))[name] == |set i | 0 <= i < |paths| && IsMetaOf(paths[i], name)|
  {
    var found := set i | 0 <= i < |paths| && IsMetaOf(paths[i], name);
    if paths == [] {
      assert found == {};
    } else {
      var n := |paths| - 1;
      var init := paths[..n];
      ListedIsDirectories(init, name);
      ListedOne(paths, name);
      MetaTokens(paths[n], name);
      CountNext(paths, name);
      hide IsMetaOf, TokensEnd, Listed, META_FILENAME;
    }
  }

  lemma CountNext(paths: seq<string>, name: string)
    requires paths != []
    ensures var n := |paths| - 1;
            |set i | 0 <= i < |paths| && IsMetaOf(paths[i], name)| ==
            |set i | 0 <= i < |paths[..n]| && IsMetaOf(paths[..n][i], name)| + if IsMetaOf(paths[n], name) then 1 else 0
  {
    hide IsMetaOf;
    var n := |paths| - 1;
    var init := paths[..n];
    var before := set i | 0 <= i < |init| && IsMetaOf(init[i], name);
    var after := set i | 0 <= i < |paths| && IsMetaOf(paths[i], name);
    assert forall i | 0 <= i < n :: init[i] == paths[i];
    assert after == before + if IsMetaOf(paths[n], name) then {n} else {};
  }

  /** The directory of a meta file. */
  function DirectoryOf(path: string): seq<string> {
    var tokens := Split(path, '/');
    var n := |tokens|;
    if tokens[n - 1] == META_FILENAME && n >= 2 then [tokens[n - 2]] else []
  }

  lemma DirectoryTokens(path: string, name: string)
    ensures multiset(DirectoryOf(path))[name] == if TokensEnd(path, name) then 1 else 0
  {
    var tokens := Split(path, '/');
    hide Split, META_FILENAME;
    if |tokens| >= 2 { assert tokens[|tokens| - 2..] == [tokens[|tokens| - 2], tokens[|tokens| - 1]]; }
  }

  lemma ListedOne(paths: seq<string>, name: string)
    requires paths != []
    ensures var n := |paths| - 1;
            multiset(Listed(paths))[name] == multiset(Listed(paths[..n]))[name] + if TokensEnd(paths[n], name) then 1 else 0
  {
    DirectoryTokens(paths[|paths| - 1], name);
    hide Split, TokensEnd, META_FILENAME, DirectoryOf;
  }

  /** The backups of the store, in order. */
  method ListBackups(paths: seq<string>) returns (backups: seq<string>)
    ensures Sorted(backups) && multiset(backups) == multiset(Listed(paths))
  {
    backups := [];
    for i := 0 to |paths|
      invariant backups == Listed(paths[..i])
    {
      assert paths[..i + 1][..i] == paths[..i];
      var tokens := Split(paths[i], '/');
      if tokens[|tokens| - 1] != META_FILENAME {
        continue;
      }
      if |tokens| < 2 {
        continue;
      } else {
        backups := backups + [tokens[|tokens| - 2]];
      }
    }
    assert paths[..|paths|] == paths;
    backups := SortStrings(backups);
  }

  /** So a listing of made names is in the order of their times, and of their sequence numbers within a
      second. */
  lemma ListingIsChronological(names: seq<string>, times: seq<int>, numbers: seq<nat>)
    requires Sorted(names) && |names| == |times| == |numbers|
    requires forall i | 0 <= i < |names| ::
               0 <= times[i] < End() && numbers[i] <= MAX_SEQUENCE && names[i] == BackupName(times[i], Digits(numbers[i], 6))
    ensures forall i, j | 0 <= i < j < |names| ::
              times[i] < times[j] || (times[i] == times[j] && numbers[i] <= numbers[j])
  {
    forall i, j | 0 <= i < j < |names|
      ensures times[i] < times[j] || (times[i] == times[j] && numbers[i] <= numbers[j])
    {
      OrderOfNames(times[i], numbers[i], times[j], numbers[j]);
    }
  }
}
