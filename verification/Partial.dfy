/** The downloads directory: partial files with the part of them that is known to be on disk,
    the sidecars that describe them, and what a crash may leave behind. */
module Partial {
  import opened Bytes
  import opened Clock
  import opened Names
  import Chunker

  const COMMIT_INTERVAL: nat := 4 * 1024 * 1024
  const PARTIAL_MAX_AGE: real := 604800.0
  const MAX_TEXT: nat := 1024

  /** A sidecar record. */
  datatype Record = Record(peer: string, filename: string, size: int, checksum: string,
                           destName: string, committed: int, updatedAt: Stamp)

  /** A file holds bytes, the first `synced` of which were fsynced, or a sidecar record. */
  datatype Node = Blob(bytes: seq<byte>, synced: nat) | Sidecar(rec: Record)

  type Files = map<string, Node>

  /** Who offered what: all four must match for a partial to be reused. */
  datatype Key = Key(peer: string, filename: string, size: int, checksum: string)

  function KeyOf(r: Record): Key { Key(r.peer, r.filename, r.size, r.checksum) }

  function RoundDown(n: nat): (m: nat)
    ensures m <= n && m % Chunker.CHUNK_SIZE == 0 && n - m < Chunker.CHUNK_SIZE
  {
    n - n % Chunker.CHUNK_SIZE
  }

  // ---- _validate --------------------------------------------------------

  predicate IsHexDigit(c: char) { '0' <= c <= '9' || 'a' <= c <= 'f' }

  /** The pattern is anchored with `$`, which also matches before one final newline. */
  predicate IsChecksum(s: string) {
    && (|s| == 64 || (|s| == 65 && s[64] == '\n'))
    && forall i :: 0 <= i < 64 ==> IsHexDigit(s[i])
  }

  predicate IsPlainComponent(name: string) {
    && 0 < |name| <= MAX_TEXT && name != "." && name != ".."
    && '/' !in name && '\\' !in name && '\0' !in name
  }

  predicate WellFormed(r: Record) {
    && 0 < |r.peer| <= 128
    && 0 < |r.filename| <= MAX_TEXT
    && IsPlainComponent(r.destName)
    && IsChecksum(r.checksum)
    && 0 <= r.committed <= r.size
  }

  /** A sidecar only ever speaks for the part file it sits next to. */
  predicate Validates(r: Record, metaName: string) {
    WellFormed(r) && metaName == MetaName(r.destName)
  }

  function ReadMeta(files: Files, metaName: string): (r: Option<Record>)
    ensures r.Some? <==> metaName in files && files[metaName].Sidecar? && Validates(files[metaName].rec, metaName)
  {
    if metaName in files && files[metaName].Sidecar? && Validates(files[metaName].rec, metaName)
    then Some(files[metaName].rec) else None
  }

  /** A sidecar that is read names a file of this very directory: itself, without its two
      suffixes, and never a path. Its other fields are in bounds, and it counts no more than
      the size. */
  lemma ReadSidecarIsInBounds(files: Files, n: string)
    requires n in files && files[n].Sidecar?
    ensures var r := files[n].rec;
            ReadMeta(files, n) == Some(r) <==>
              && n == r.destName + ".part.meta" && r.destName !in {"", ".", ".."} && |r.destName| <= 1024
              && (forall c :: c in r.destName ==> c !in {'/', '\\', '\0'})
              && 1 <= |r.peer| <= 128 && 1 <= |r.filename| <= 1024 && 0 <= r.committed <= r.size
              && IsDigest(r.checksum)
  {
    assert MetaName(files[n].rec.destName) == files[n].rec.destName + ".part.meta" by {
      assert PART_SUFFIX + META_SUFFIX == ".part.meta";
      assert files[n].rec.destName + PART_SUFFIX + META_SUFFIX == files[n].rec.destName + (PART_SUFFIX + META_SUFFIX);
    }
  }

  /** Sixty-four hexadecimal digits in lower case, and perhaps a newline. */
  predicate IsDigest(s: string) {
    && (forall i :: 0 <= i < |s| && i < 64 ==> s[i] in "0123456789abcdef")
    && (|s| == 64 || (|s| == 65 && s[64] == '\n'))
  }

  // ---- changes to files -----------------------------------------------

  /** write_meta: a record that does not validate, or a write that fails, leaves the old
      sidecar alone. */
  function WriteMeta(files: Files, r: Record, writeOk: bool): Files {
    if writeOk && WellFormed(r) then files[MetaName(r.destName) := Sidecar(r)] else files
  }

  /** What is written is read back, under its own name and no other; a record that is refused or
      a write that fails leaves what was there. */
  lemma WrittenMetaIsRead(files: Files, r: Record, writeOk: bool, n: string)
    ensures ReadMeta(WriteMeta(files, r, writeOk), n) ==
              if n == MetaName(r.destName) && writeOk && WellFormed(r) then Some(r) else ReadMeta(files, n)
  {
  }

  function Discard(files: Files, dest: string): Files {
    files - {PartName(dest), MetaName(dest)}
  }

  predicate IsBlob(files: Files, name: string) { name in files && files[name].Blob? }

  function Fsync(files: Files, name: string): Files {
    if IsBlob(files, name) then files[name := Blob(files[name].bytes, |files[name].bytes|)] else files
  }

  function Append(files: Files, name: string, data: seq<byte>): Files {
    if IsBlob(files, name) then files[name := Blob(files[name].bytes + data, files[name].synced)] else files
  }

  /** A shorter file is filled up with zeros. */
  function Cut(bytes: seq<byte>, n: nat): (r: seq<byte>)
    ensures |r| == n && (n <= |bytes| ==> r == bytes[..n])
  {
    if n <= |bytes| then bytes[..n] else bytes + seq(n - |bytes|, i => 0)
  }

  function Truncate(files: Files, name: string, n: nat): Files {
    if IsBlob(files, name)
    then files[name := Blob(Cut(files[name].bytes, n), Chunker.Min(files[name].synced, n))] else files
  }

  /** Every file only claims to have synced bytes it holds. */
  predicate Sane(files: Files) {
    forall n :: n in files && files[n].Blob? ==> files[n].synced <= |files[n].bytes|
  }

  /** What may be found after a crash: synced bytes and sidecars survive, anything may follow
      the synced bytes. */
  ghost predicate CrashImage(files: Files, after: Files) {
    && after.Keys == files.Keys
    && forall n :: n in files ==>
         match files[n]
         case Sidecar(_) => after[n] == files[n]
         case Blob(bytes, synced) =>
           && after[n].Blob?
           && synced <= after[n].synced <= |after[n].bytes|
           && synced <= |bytes| && after[n].bytes[..synced] == bytes[..synced]
  }

  // ---- find_resumable ---------------------------------------------------

  predicate Matches(files: Files, name: string, key: Key) {
    && ReadMeta(files, name).Some?
    && KeyOf(files[name].rec) == key
    && IsBlob(files, PartName(files[name].rec.destName))
  }

  function Best(files: Files, listing: seq<string>, key: Key): (r: Option<Record>)
    ensures r.Some? ==> exists n :: n in listing && Matches(files, n, key) && files[n].rec == r.value
  {
    if listing == [] then None
    else
      var best := Best(files, listing[..|listing| - 1], key);
      var n := listing[|listing| - 1];
      if Matches(files, n, key) && (best.None? || Later(files[n].rec.updatedAt, best.value.updatedAt))
      then Some(files[n].rec) else best
  }

  /** The winner belongs to this exact offer and no matching sidecar compares as newer; there
      is none only if nothing matches. */
  lemma {:induction false} BestIsNewest(files: Files, listing: seq<string>, key: Key, n: string)
    requires n in listing && Matches(files, n, key)
    ensures Best(files, listing, key).Some?
    ensures !Later(files[n].rec.updatedAt, Best(files, listing, key).value.updatedAt)
    decreases |listing|
  {
    var front := listing[..|listing| - 1];
    if n != listing[|listing| - 1] {
      BestIsNewest(files, front, key, n);
    }
  }

  /** What is chosen: a sidecar of the listing, for exactly this peer, name, size and checksum,
      whose part file is there. */
  lemma WinnerMatches(files: Files, listing: seq<string>, key: Key)
    requires Best(files, listing, key).Some?
    ensures var r := Best(files, listing, key).value;
            && MetaName(r.destName) in listing && ReadMeta(files, MetaName(r.destName)) == Some(r)
            && r.peer == key.peer && r.filename == key.filename && r.size == key.size && r.checksum == key.checksum
            && PartName(r.destName) in files && files[PartName(r.destName)].Blob?
  {
    var n :| n in listing && Matches(files, n, key) && files[n].rec == Best(files, listing, key).value;
  }

  /** The first sidecar of the listing that matches. */
  function FirstMatch(files: Files, listing: seq<string>, key: Key): (r: Option<Record>)
    ensures r.None? <==> forall n :: n in listing ==> !Matches(files, n, key)
  {
    if listing == [] then None
    else if FirstMatch(files, listing[..|listing| - 1], key).Some?
    then FirstMatch(files, listing[..|listing| - 1], key)
    else if Matches(files, listing[|listing| - 1], key) then Some(files[listing[|listing| - 1]].rec)
    else None
  }

  /** Nothing compares as newer than NaN. So the winner has a time, and is then at least as new
      as every match that has one, if and only if the first match in the listing has one. */
  lemma {:induction false} WinnerHasATimeIff(files: Files, listing: seq<string>, key: Key)
    requires exists n :: n in listing && Matches(files, n, key)
    ensures Best(files, listing, key).Some? && FirstMatch(files, listing, key).Some?
    ensures Best(files, listing, key).value.updatedAt == NotANumber <==>
              FirstMatch(files, listing, key).value.updatedAt == NotANumber
    decreases |listing|
  {
    var front := listing[..|listing| - 1];
    if exists n :: n in front && Matches(files, n, key) {
      WinnerHasATimeIff(files, front, key);
    } else {
      assert Best(files, front, key).None? && FirstMatch(files, front, key).None?;
    }
  }

  method FindResumable(files: Files, listing: seq<string>, key: Key) returns (best: Option<Record>)
    ensures best == Best(files, listing, key)
  {
    best := None;
    for i := 0 to |listing|
      invariant best == Best(files, listing[..i], key)
    {
      assert listing[..i + 1][..i] == listing[..i];
      var info := ReadMeta(files, listing[i]);
      if info.None? || KeyOf(info.value) != key || !IsBlob(files, PartName(info.value.destName)) {
        continue;
      }
      if best.None? || Later(info.value.updatedAt, best.value.updatedAt) {
        best := info;
      }
    }
    assert listing[..|listing|] == listing;
  }

  /** resume_offset_for. */
  function ResumeOffset(files: Files, r: Record): (n: nat)
    requires WellFormed(r)
    ensures n % Chunker.CHUNK_SIZE == 0 && n <= r.committed
    ensures n > 0 ==> IsBlob(files, PartName(r.destName)) && n <= |files[PartName(r.destName)].bytes|
  {
    if !IsBlob(files, PartName(r.destName)) then 0
    else RoundDown(Chunker.Min(Chunker.Min(r.committed, |files[PartName(r.destName)].bytes|), r.size))
  }

  // ---- sweep_expired ---------------------------------------------------

  predicate Expired(files: Files, now: real, metaName: string) {
    ReadMeta(files, metaName).Some? && OlderThan(now, files[metaName].rec.updatedAt, PARTIAL_MAX_AGE)
  }

  /** A file goes if it is an expired sidecar or the part file next to one. */
  predicate Doomed(files: Files, now: real, name: string) {
    Expired(files, now, name) || Expired(files, now, name + META_SUFFIX)
  }

  function Swept(files: Files, now: real): Files {
    map n | n in files && !Doomed(files, now, n) :: files[n]
  }

  /** Exactly what a sweep takes away: a sidecar that can be read and is more than a week old, and
      the part file whose name it has without its suffix. */
  lemma SweepTakesIff(files: Files, now: real, n: string)
    requires n in files
    ensures n !in Swept(files, now) <==>
              exists m :: (m == n || m == n + ".meta") && ReadMeta(files, m).Some?
                && OlderThan(now, files[m].rec.updatedAt, 7.0 * 24.0 * 3600.0)
    ensures n in Swept(files, now) ==> Swept(files, now)[n] == files[n]
  {
    assert n + META_SUFFIX == n + ".meta";
    if n !in Swept(files, now) {
      assert Expired(files, now, n) || Expired(files, now, n + ".meta");
    }
  }

  predicate DoomedBy(files: Files, now: real, seen: set<string>, name: string) {
    || (name in seen && Expired(files, now, name))
    || (name + META_SUFFIX in seen && Expired(files, now, name + META_SUFFIX))
  }

  function SweptBy(files: Files, now: real, seen: set<string>): Files {
    map n | n in files && !DoomedBy(files, now, seen, n) :: files[n]
  }

  lemma SuffixCancels(a: string, b: string)
    ensures a + META_SUFFIX == b + META_SUFFIX <==> a == b
  {
    assert (a + META_SUFFIX)[..|a|] == a && (b + META_SUFFIX)[..|b|] == b;
  }

  lemma SweepOne(files: Files, now: real, seen: set<string>, entry: string)
    ensures var left := SweptBy(files, now, seen);
            SweptBy(files, now, seen + {entry}) ==
              if Expired(left, now, entry) then Discard(left, left[entry].rec.destName) else left
  {
    var left := SweptBy(files, now, seen);
    if Expired(files, now, entry) {
      var d := files[entry].rec.destName;
      assert entry == MetaName(d) == PartName(d) + META_SUFFIX;
      CompanionsAreInjective(d, d);
      forall n ensures n + META_SUFFIX == entry <==> n == PartName(d) {
        SuffixCancels(n, PartName(d));
      }
      if entry !in left {
        forall e ensures entry + META_SUFFIX == MetaName(e) <==> entry == PartName(e) {
          SuffixCancels(entry, PartName(e));
        }
        forall e ensures entry != PartName(e) {
          CompanionsAreInjective(e, d);
        }
        assert entry in seen;
        assert SweptBy(files, now, seen + {entry}) == left;
      } else {
        assert SweptBy(files, now, seen + {entry}) == Discard(left, d);
      }
    } else {
      assert SweptBy(files, now, seen + {entry}) == left;
    }
  }

  /** Deletes expired partials with their sidecars and nothing else: in particular no `.part`
      without a valid sidecar, whatever the order in which the directory is listed. */
  method SweepExpired(files: Files, listing: seq<string>, now: real) returns (left: Files)
    requires forall n :: n in files ==> n in listing
    ensures left == Swept(files, now)
  {
    left := files;
    ghost var seen: set<string> := {};
    assert left == SweptBy(files, now, seen);
    for i := 0 to |listing|
      invariant forall n :: n in listing[..i] ==> n in seen
      invariant left == SweptBy(files, now, seen)
    {
      var entry := listing[i];
      SweepOne(files, now, seen, entry);
      seen := seen + {entry};
      var info := ReadMeta(left, entry);
      if info.None? || !OlderThan(now, info.value.updatedAt, PARTIAL_MAX_AGE) {
        continue;
      }
      left := Discard(left, info.value.destName);
    }
    assert listing[..|listing|] == listing;
    assert left == Swept(files, now);
  }
}
