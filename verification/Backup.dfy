/** Backup archives of the data directories, and their extraction. */
module Backup {
  import opened Common

  type Bytes = seq<int>

  datatype Bucket = DbFiles | LanceDbFiles

  predicate StartsWith(s: string, prefix: string) {
    |prefix| <= |s| && s[..|prefix|] == prefix
  }

  predicate EndsWith(s: string, suffix: string) {
    |suffix| <= |s| && s[|s| - |suffix|..] == suffix
  }

  predicate HasDotDot(s: string) {
    exists i :: 0 <= i < |s| - 1 && s[i] == '.' && s[i + 1] == '.'
  }

  /** What a directory lists: a path below it never starts with a slash. */
  type RelativePath = p: string | !StartsWith(p, "/") witness ""

  /** A file by its path below its bucket's directory. */
  datatype Key = Key(bucket: Bucket, path: RelativePath)

  /** `content` is `None` for a member that is not a regular file. */
  datatype Member = Member(name: string, isDir: bool, content: Option<Bytes>)

  /** The file system by absolute paths, and how many files were restored. */
  datatype Restored = Restored(files: map<string, Bytes>, db: nat, lancedb: nat)

  const DB_DIR := "/data/db"
  const LANCEDB_DIR := "/data/lancedb"

  function Prefix(b: Bucket): string {
    if b.DbFiles? then "db/" else "lancedb/"
  }

  function DirOf(b: Bucket): string {
    if b.DbFiles? then DB_DIR else LANCEDB_DIR
  }

  function PathOf(key: Key): string {
    DirOf(key.bucket) + "/" + key.path
  }

  /** Joining paths: an absolute second path replaces the first. */
  function Joined(dir: string, rest: string): string {
    if StartsWith(rest, "/") then rest else dir + "/" + rest
  }

  function MemberFor(key: Key, content: Bytes): Member {
    Member(Prefix(key.bucket) + key.path, false, Some(content))
  }

  /** Where a member is extracted to; `None` when it is skipped. */
  function Destination(name: string): Option<string> {
    if StartsWith(name, "/") || HasDotDot(name) then None
    else if StartsWith(name, "db/") then Some(Joined(DB_DIR, name[3..]))
    else if StartsWith(name, "lancedb/") then Some(Joined(LANCEDB_DIR, name[8..]))
    else if EndsWith(name, ".db") || EndsWith(name, ".db-wal") || EndsWith(name, ".db-shm") then Some(Joined(DB_DIR, name))
    else None
  }

  /** The bucket a member is counted for. */
  function BucketOf(name: string): Bucket {
    if StartsWith(name, "lancedb/") then LanceDbFiles else DbFiles
  }

  function ExtractOne(r: Restored, m: Member): Restored {
    var dest := Destination(m.name);
    if m.isDir || dest.None? || m.content.None? then r
    else
      var files := r.files[dest.value := m.content.value];
      if BucketOf(m.name).LanceDbFiles? then Restored(files, r.db, r.lancedb + 1)
      else Restored(files, r.db + 1, r.lancedb)
  }

  function ExtractAll(r: Restored, members: seq<Member>, n: nat): Restored
    requires n <= |members|
  {
    if n == 0 then r else ExtractOne(ExtractAll(r, members, n - 1), members[n - 1])
  }

  /** Archives the files in the order in which the directories list them. */
  method CreateBackup(files: map<Key, Bytes>, listing: seq<Key>) returns (members: seq<Member>)
    requires forall k :: k in listing ==> k in files
    ensures |members| == |listing|
    ensures forall i :: 0 <= i < |listing| ==> members[i] == MemberFor(listing[i], files[listing[i]])
  {
    members := [];
    for i := 0 to |listing|
      invariant |members| == i
      invariant forall k :: 0 <= k < i ==> members[k] == MemberFor(listing[k], files[listing[k]])
    {
      members := members + [MemberFor(listing[i], files[listing[i]])];
    }
  }

  /** The chain of tests on a member's name. */
  method FindDestination(name: string) returns (dest: Option<string>)
    ensures dest == Destination(name)
  {
    if StartsWith(name, "/") || HasDotDot(name) { return None; }
    if StartsWith(name, "db/") {
      dest := Some(Joined(DB_DIR, name[3..]));
    } else if StartsWith(name, "lancedb/") {
      dest := Some(Joined(LANCEDB_DIR, name[8..]));
    } else if EndsWith(name, ".db") || EndsWith(name, ".db-wal") || EndsWith(name, ".db-shm") {
      dest := Some(Joined(DB_DIR, name));
    } else {
      dest := None;
    }
  }

  method ExtractBackup(members: seq<Member>, target: map<string, Bytes>) returns (r: Restored)
    ensures r == ExtractAll(Restored(target, 0, 0), members, |members|)
  {
    var files, db, lancedb := target, 0, 0;
    for i := 0 to |members|
      invariant Restored(files, db, lancedb) == ExtractAll(Restored(target, 0, 0), members, i)
    {
      var m := members[i];
      var dest := FindDestination(m.name);
      if !m.isDir && dest.Some? && m.content.Some? {
        files := files[dest.value := m.content.value];
        if StartsWith(m.name, "lancedb/") { lancedb := lancedb + 1; } else { db := db + 1; }
      }
    }
    r := Restored(files, db, lancedb);
  }

  // ----- Destinations -----

  /** A prefix without dots neither hides nor creates a double dot. */
  lemma DotDotBehind(prefix: string, path: string)
    requires forall i :: 0 <= i < |prefix| ==> prefix[i] != '.'
    ensures HasDotDot(prefix + path) <==> HasDotDot(path)
  {
    var name := prefix + path;
    assert forall i :: 0 <= i < |path| ==> name[|prefix| + i] == path[i];
    assert forall i :: 0 <= i < |prefix| ==> name[i] == prefix[i] != '.';
    if HasDotDot(path) {
      var i :| 0 <= i < |path| - 1 && path[i] == '.' && path[i + 1] == '.';
      assert name[|prefix| + i] == '.' && name[|prefix| + i + 1] == '.';
    }
    if HasDotDot(name) {
      var i :| 0 <= i < |name| - 1 && name[i] == '.' && name[i + 1] == '.';
      assert path[i - |prefix|] == '.' && path[i - |prefix| + 1] == '.';
    }
  }

  lemma FirstLetter(name: string, prefix: string)
    requires prefix != ""
    ensures StartsWith(name, prefix) ==> name[0] == prefix[0]
  {
    if StartsWith(name, prefix) { assert name[..|prefix|][0] == name[0]; }
  }

  /** A member's destination is the file it was made from, unless that file's path has a double dot. */
  lemma DestinationOfMember(key: Key)
    ensures Destination(Prefix(key.bucket) + key.path) == if HasDotDot(key.path) then None else Some(PathOf(key))
    ensures BucketOf(Prefix(key.bucket) + key.path) == key.bucket
  {
    var prefix := Prefix(key.bucket);
    var name := prefix + key.path;
    DotDotBehind(prefix, key.path);
    assert name[..|prefix|] == prefix && name[|prefix|..] == key.path;
    FirstLetter(name, "/");
    FirstLetter(name, "db/");
    FirstLetter(name, "lancedb/");
  }

  predicate Below(path: string, dir: string) {
    StartsWith(path, dir + "/")
  }

  /** What follows the bucket's prefix. */
  function AfterPrefix(name: string): string {
    if StartsWith(name, "db/") then name[3..] else if StartsWith(name, "lancedb/") then name[8..] else name
  }

  /** The name goes on with a slash right after its bucket's prefix. */
  predicate SlashAfterPrefix(name: string) {
    (StartsWith(name, "db/") || StartsWith(name, "lancedb/")) && StartsWith(AfterPrefix(name), "/")
  }

  /**
   What an accepted name leads to: without a slash right after its bucket's
   prefix, a path below the directory of the bucket it is counted for, which ends
   as the name does and has no double dot; with one, the absolute path that
   follows the prefix.
   */
  lemma DestinationMeans(name: string)
    requires Destination(name).Some?
    ensures var path := Destination(name).value;
            && !HasDotDot(path) && EndsWith(path, AfterPrefix(name))
            && if SlashAfterPrefix(name) then path == AfterPrefix(name)
               else Below(path, DirOf(BucketOf(name))) && path == DirOf(BucketOf(name)) + "/" + AfterPrefix(name)
  {
    var rest := AfterPrefix(name);
    FirstLetter(name, "db/");
    FirstLetter(name, "lancedb/");
    assert rest == name[|name| - |rest|..];
    if StartsWith(rest, "/") {
      assert EndsWith(rest, rest);
    } else {
      var dir := DirOf(BucketOf(name)) + "/";
      DotDotBehind(dir, rest);
      assert (dir + rest)[|dir|..] == rest && (dir + rest)[..|dir|] == dir;
    }
  }

  /** A database file by its name. */
  predicate IsDatabase(name: string) {
    EndsWith(name, ".db") || EndsWith(name, ".db-wal") || EndsWith(name, ".db-shm")
  }

  lemma StartsWithExactlyWhen(name: string, prefix: string)
    ensures StartsWith(name, prefix) <==> exists rest :: name == prefix + rest
  {
    if StartsWith(name, prefix) { assert name == prefix + name[|prefix|..]; }
  }

  lemma DotDotExactlyWhen(name: string)
    ensures HasDotDot(name) <==> exists a, b :: name == a + ".." + b
  {
    if HasDotDot(name) {
      var i :| 0 <= i < |name| - 1 && name[i] == '.' && name[i + 1] == '.';
      assert name == name[..i] + ".." + name[i + 2..];
    }
    if a, b :| name == a + ".." + b {
      assert name[|a|] == '.' && name[|a| + 1] == '.';
    }
  }

  /** A relative name without double dots is accepted exactly when it goes on from a bucket's prefix or ends as a database does. */
  lemma AcceptedExactlyWhen(name: string)
    ensures Destination(name).Some? <==>
            && !(exists rest :: name == "/" + rest)
            && !(exists a, b :: name == a + ".." + b)
            && ((exists rest :: name == "db/" + rest) || (exists rest :: name == "lancedb/" + rest) || IsDatabase(name))
  {
    StartsWithExactlyWhen(name, "/");
    DotDotExactlyWhen(name);
    StartsWithExactlyWhen(name, "db/");
    StartsWithExactlyWhen(name, "lancedb/");
  }

  // ----- Which files change -----

  /** The member is extracted, to some path. */
  predicate Accepted(m: Member) {
    !m.isDir && m.content.Some? && Destination(m.name).Some?
  }

  ghost predicate Unchanged(before: map<string, Bytes>, after: map<string, Bytes>, path: string) {
    (path in after <==> path in before) && (path in before ==> after[path] == before[path])
  }

  predicate WritesTo(m: Member, path: string) {
    Accepted(m) && Destination(m.name).value == path
  }

  lemma TouchOne(r: Restored, m: Member, path: string)
    ensures if WritesTo(m, path) then path in ExtractOne(r, m).files else Unchanged(r.files, ExtractOne(r, m).files, path)
    ensures path in r.files ==> path in ExtractOne(r, m).files
  {
  }

  ghost predicate Touched(members: seq<Member>, n: nat, path: string)
    requires n <= |members|
  {
    exists i :: 0 <= i < n && WritesTo(members[i], path)
  }

  /** A path that some member writes to is there afterwards, and any other path is as it was. */
  lemma {:induction false} ExtractTouches(r: Restored, members: seq<Member>, n: nat, path: string)
    requires n <= |members|
    ensures if Touched(members, n, path) then path in ExtractAll(r, members, n).files
            else Unchanged(r.files, ExtractAll(r, members, n).files, path)
  {
    if n > 0 {
      ExtractTouches(r, members, n - 1, path);
      TouchOne(ExtractAll(r, members, n - 1), members[n - 1], path);
      assert Touched(members, n, path) <==> Touched(members, n - 1, path) || WritesTo(members[n - 1], path);
    }
  }

  ghost predicate InDirectories(path: string) {
    Below(path, DB_DIR) || Below(path, LANCEDB_DIR)
  }

  /** The name has a slash right after its prefix and what follows is not a path back into the two directories. */
  ghost predicate LeadsOut(name: string) {
    SlashAfterPrefix(name) && !InDirectories(AfterPrefix(name))
  }

  /** Extraction changes no file outside the two directories, whatever the file system holds. */
  ghost predicate StaysInside(members: seq<Member>) {
    forall target, path :: !InDirectories(path) ==>
      Unchanged(target, ExtractAll(Restored(target, 0, 0), members, |members|).files, path)
  }

  lemma WritesOutside(members: seq<Member>, i: nat)
    requires i < |members| && Accepted(members[i]) && LeadsOut(members[i].name)
    ensures !StaysInside(members)
  {
    var path := Destination(members[i].name).value;
    DestinationMeans(members[i].name);
    assert WritesTo(members[i], path);
    ExtractTouches(Restored(map[], 0, 0), members, |members|, path);
    assert !Unchanged(map[], ExtractAll(Restored(map[], 0, 0), members, |members|).files, path);
  }

  /**
   That holds exactly when no accepted member has a slash right after its
   bucket's prefix that leads elsewhere: a leading slash and double dots are
   refused, but that slash makes the rest of the name an absolute path.
   */
  lemma {:induction false} StaysInsideExactlyWhen(members: seq<Member>)
    ensures StaysInside(members) <==> forall m :: m in members && Accepted(m) ==> !LeadsOut(m.name)
  {
    if m :| m in members && Accepted(m) && LeadsOut(m.name) {
      var i :| 0 <= i < |members| && members[i] == m;
      WritesOutside(members, i);
    } else {
      forall target, path | !InDirectories(path)
        ensures Unchanged(target, ExtractAll(Restored(target, 0, 0), members, |members|).files, path)
      {
        ExtractTouches(Restored(target, 0, 0), members, |members|, path);
        forall i | 0 <= i < |members| ensures !WritesTo(members[i], path) {
        }
      }
    }
  }

  // ----- Round trip -----

  lemma PathsDiffer(a: Key, b: Key)
    requires PathOf(a) == PathOf(b)
    ensures a == b
  {
    assert PathOf(a)[6] == PathOf(b)[6];
    assert PathOf(a)[|DirOf(a.bucket)| + 1..] == a.path && PathOf(b)[|DirOf(b.bucket)| + 1..] == b.path;
  }

  /** How many of the first `n` listed files of a bucket can be restored. */
  function Restorable(listing: seq<Key>, b: Bucket, n: nat): nat
    requires n <= |listing|
  {
    if n == 0 then 0
    else Restorable(listing, b, n - 1) + if listing[n - 1].bucket == b && !HasDotDot(listing[n - 1].path) then 1 else 0
  }

  ghost predicate ArchiveOf(files: map<Key, Bytes>, listing: seq<Key>, members: seq<Member>) {
    && (forall k :: k in listing ==> k in files)
    && |members| == |listing|
    && forall i :: 0 <= i < |listing| ==> members[i] == MemberFor(listing[i], files[listing[i]])
  }

  /** One file is restored, unless its path has a double dot. */
  function Written(r: Restored, key: Key, content: Bytes): Restored {
    if HasDotDot(key.path) then r
    else if key.bucket.DbFiles? then Restored(r.files[PathOf(key) := content], r.db + 1, r.lancedb)
    else Restored(r.files[PathOf(key) := content], r.db, r.lancedb + 1)
  }

  lemma ExtractMember(r: Restored, key: Key, content: Bytes)
    ensures ExtractOne(r, MemberFor(key, content)) == Written(r, key, content)
  {
    DestinationOfMember(key);
  }

  lemma ExtractNext(files: map<Key, Bytes>, listing: seq<Key>, members: seq<Member>, r0: Restored, n: nat)
    requires ArchiveOf(files, listing, members) && n < |listing|
    ensures ExtractAll(r0, members, n + 1) == Written(ExtractAll(r0, members, n), listing[n], files[listing[n]])
  {
    ExtractMember(ExtractAll(r0, members, n), listing[n], files[listing[n]]);
  }

  ghost predicate Counted(r: Restored, listing: seq<Key>, n: nat)
    requires n <= |listing|
  {
    r.db == Restorable(listing, DbFiles, n) && r.lancedb == Restorable(listing, LanceDbFiles, n)
  }

  lemma CountNext(r: Restored, listing: seq<Key>, n: nat, content: Bytes)
    requires 0 < n <= |listing| && Counted(r, listing, n - 1)
    ensures Counted(Written(r, listing[n - 1], content), listing, n)
  {
  }

  function WrittenAll(r: Restored, files: map<Key, Bytes>, listing: seq<Key>, n: nat): Restored
    requires n <= |listing| && forall k :: k in listing ==> k in files
  {
    if n == 0 then r else Written(WrittenAll(r, files, listing, n - 1), listing[n - 1], files[listing[n - 1]])
  }

  lemma {:induction false} ExtractIsWritten(files: map<Key, Bytes>, listing: seq<Key>, members: seq<Member>, r: Restored, n: nat)
    requires ArchiveOf(files, listing, members) && n <= |listing|
    ensures ExtractAll(r, members, n) == WrittenAll(r, files, listing, n)
  {
    if n > 0 {
      ExtractIsWritten(files, listing, members, r, n - 1);
      ExtractNext(files, listing, members, r, n - 1);
    }
  }

  lemma {:induction false} WrittenCounts(files: map<Key, Bytes>, listing: seq<Key>, target: map<string, Bytes>, n: nat)
    requires n <= |listing| && forall k :: k in listing ==> k in files
    ensures Counted(WrittenAll(Restored(target, 0, 0), files, listing, n), listing, n)
  {
    if n > 0 {
      WrittenCounts(files, listing, target, n - 1);
      CountNext(WrittenAll(Restored(target, 0, 0), files, listing, n - 1), listing, n, files[listing[n - 1]]);
    }
  }

  lemma ExtractCounts(files: map<Key, Bytes>, listing: seq<Key>, members: seq<Member>, target: map<string, Bytes>, n: nat)
    requires ArchiveOf(files, listing, members) && n <= |listing|
    ensures Counted(ExtractAll(Restored(target, 0, 0), members, n), listing, n)
  {
    ExtractIsWritten(files, listing, members, Restored(target, 0, 0), n);
    WrittenCounts(files, listing, target, n);
  }

  /** The file at `key` is as archived if it was `listed` and can be restored, and otherwise as it was. */
  ghost predicate RestoredAt(r: Restored, files: map<Key, Bytes>, target: map<string, Bytes>, key: Key, listed: bool)
    requires listed ==> key in files
  {
    if listed && !HasDotDot(key.path) then PathOf(key) in r.files && r.files[PathOf(key)] == files[key]
    else Unchanged(target, r.files, PathOf(key))
  }

  lemma RestoredNext(r: Restored, files: map<Key, Bytes>, target: map<string, Bytes>, key: Key, listed: bool, other: Key)
    requires (listed ==> key in files) && other in files && RestoredAt(r, files, target, key, listed)
    ensures RestoredAt(Written(r, other, files[other]), files, target, key, listed || key == other)
  {
    if PathOf(key) == PathOf(other) {
      PathsDiffer(key, other);
    }
  }

  lemma {:induction false} WrittenAt(files: map<Key, Bytes>, listing: seq<Key>, target: map<string, Bytes>, n: nat, key: Key)
    requires n <= |listing| && forall k :: k in listing ==> k in files
    ensures RestoredAt(WrittenAll(Restored(target, 0, 0), files, listing, n), files, target, key, key in listing[..n])
  {
    if n > 0 {
      WrittenAt(files, listing, target, n - 1, key);
      assert listing[..n] == listing[..n - 1] + [listing[n - 1]];
      RestoredNext(WrittenAll(Restored(target, 0, 0), files, listing, n - 1), files, target, key, key in listing[..n - 1], listing[n - 1]);
    }
  }

  lemma ExtractAt(files: map<Key, Bytes>, listing: seq<Key>, members: seq<Member>, target: map<string, Bytes>, n: nat, key: Key)
    requires ArchiveOf(files, listing, members) && n <= |listing|
    ensures RestoredAt(ExtractAll(Restored(target, 0, 0), members, n), files, target, key, key in listing[..n])
  {
    ExtractIsWritten(files, listing, members, Restored(target, 0, 0), n);
    WrittenAt(files, listing, target, n, key);
  }

  /** No archived file lies at `path`. */
  ghost predicate Elsewhere(files: map<Key, Bytes>, path: string) {
    forall k :: k in files ==> PathOf(k) != path
  }

  lemma ExtractElsewhere(files: map<Key, Bytes>, listing: seq<Key>, members: seq<Member>, target: map<string, Bytes>, path: string)
    requires ArchiveOf(files, listing, members) && Elsewhere(files, path)
    ensures Unchanged(target, ExtractAll(Restored(target, 0, 0), members, |members|).files, path)
  {
    ExtractTouches(Restored(target, 0, 0), members, |members|, path);
    forall i | 0 <= i < |members| ensures !WritesTo(members[i], path) {
      DestinationOfMember(listing[i]);
      assert listing[i] in files;
    }
  }

  /**
   Extracting the archive of any files into any file system restores, byte for
   byte at its own path, exactly every file whose path has no double dot; it
   leaves every other file as it was, wherever that lies, and counts the
   restored files per bucket.
   */
  lemma {:induction false} BackupRoundTrip(files: map<Key, Bytes>, listing: seq<Key>, members: seq<Member>, target: map<string, Bytes>, key: Key, path: string)
    requires ArchiveOf(files, listing, members)
    requires forall k :: k in listing <==> k in files
    ensures var r := ExtractAll(Restored(target, 0, 0), members, |members|);
            && (key in files && !HasDotDot(key.path) ==> PathOf(key) in r.files && r.files[PathOf(key)] == files[key])
            && (key in files && HasDotDot(key.path) ==> Unchanged(target, r.files, PathOf(key)))
            && (Elsewhere(files, path) ==> Unchanged(target, r.files, path))
            && r.db == Restorable(listing, DbFiles, |listing|) && r.lancedb == Restorable(listing, LanceDbFiles, |listing|)
  {
    ExtractAt(files, listing, members, target, |listing|, key);
    ExtractCounts(files, listing, members, target, |listing|);
    assert listing[..|listing|] == listing;
    if Elsewhere(files, path) {
      ExtractElsewhere(files, listing, members, target, path);
    }
  }

  /** A file system that holds exactly these files, each at its own path. */
  ghost predicate HoldsExactly(fs: map<string, Bytes>, files: map<Key, Bytes>) {
    && (forall k :: k in files ==> PathOf(k) in fs && fs[PathOf(k)] == files[k])
    && (forall path :: path in fs ==> !Elsewhere(files, path))
  }

  /** Into an empty file system the backup is restored completely exactly when no path has a double dot. */
  lemma {:induction false} CompleteExactlyWhen(files: map<Key, Bytes>, listing: seq<Key>, members: seq<Member>)
    requires ArchiveOf(files, listing, members)
    requires forall k :: k in listing <==> k in files
    ensures HoldsExactly(ExtractAll(Restored(map[], 0, 0), members, |members|).files, files)
            <==> forall k :: k in files ==> !HasDotDot(k.path)
  {
    var r := ExtractAll(Restored(map[], 0, 0), members, |members|);
    forall k | k in files
      ensures !HasDotDot(k.path) ==> PathOf(k) in r.files && r.files[PathOf(k)] == files[k]
      ensures HasDotDot(k.path) ==> PathOf(k) !in r.files
    {
      BackupRoundTrip(files, listing, members, map[], k, "");
    }
    forall path | path in r.files ensures !Elsewhere(files, path) {
      if Elsewhere(files, path) {
        ExtractElsewhere(files, listing, members, map[], path);
      }
    }
  }

  // ----- Archives without prefixes -----

  /** The members of an archive made before there were buckets: plain file names. */
  ghost predicate FlatArchiveOf(files: map<string, Bytes>, listing: seq<string>, members: seq<Member>) {
    && (forall name :: name in listing ==> name in files && '/' !in name)
    && |members| == |listing|
    && forall i :: 0 <= i < |listing| ==> members[i] == Member(listing[i], false, Some(files[listing[i]]))
  }

  /** A plain name that is restored. */
  predicate Restores(name: string) {
    IsDatabase(name) && !HasDotDot(name)
  }

  lemma SlashInPrefix(name: string, prefix: string, i: nat)
    requires i < |prefix| && prefix[i] == '/'
    ensures StartsWith(name, prefix) ==> '/' in name
  {
    if StartsWith(name, prefix) { assert name[i] == prefix[i]; }
  }

  lemma FlatDestination(name: string)
    requires '/' !in name
    ensures Destination(name) == if Restores(name) then Some(DB_DIR + "/" + name) else None
    ensures BucketOf(name).DbFiles?
  {
    SlashInPrefix(name, "/", 0);
    SlashInPrefix(name, "db/", 2);
    SlashInPrefix(name, "lancedb/", 7);
  }

  /** How many of the first `n` names are restored. */
  function Restoring(listing: seq<string>, n: nat): nat
    requires n <= |listing|
  {
    if n == 0 then 0 else Restoring(listing, n - 1) + if Restores(listing[n - 1]) then 1 else 0
  }

  /**
   An archive of plain names puts back, beside the database, exactly its
   database files; it changes nothing else and counts what it restored.
   */
  lemma {:induction false} FlatArchiveRestores(files: map<string, Bytes>, listing: seq<string>, members: seq<Member>, target: map<string, Bytes>, n: nat, name: string)
    requires FlatArchiveOf(files, listing, members) && n <= |listing|
    ensures var r := ExtractAll(Restored(target, 0, 0), members, n);
            && (if name in listing[..n] && Restores(name)
                then DB_DIR + "/" + name in r.files && r.files[DB_DIR + "/" + name] == files[name]
                else Unchanged(target, r.files, DB_DIR + "/" + name))
            && r.db == Restoring(listing, n) && r.lancedb == 0
  {
    if n > 0 {
      FlatArchiveRestores(files, listing, members, target, n - 1, name);
      var last := listing[n - 1];
      FlatDestination(last);
      assert listing[..n] == listing[..n - 1] + [last];
      assert (DB_DIR + "/" + name)[|DB_DIR| + 1..] == name && (DB_DIR + "/" + last)[|DB_DIR| + 1..] == last;
    }
  }
}
