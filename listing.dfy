/**
 * The folder listing and the daily sample: files without an id or a name
 * are dropped, and a listing longer than the wanted count is shuffled and
 * cut to that count.
 */
module Listing {

  datatype Option<T> = None | Some(value: T)

  /** A playable file: its storage handle and its display name. */
  datatype Track = Track(id: string, name: string)

  /** One entry of the storage provider's listing; either field may be missing. */
  datatype DriveFile = DriveFile(id: Option<string>, name: Option<string>)

  /** Number of tracks drawn for a day's queue. */
  const DailyCount: nat := 20

  function Min(a: int, b: int): int { if a <= b then a else b }

  /** JavaScript truthiness of an optional string: present and not empty. */
  predicate Truthy(s: Option<string>) {
    s.Some? && s.value != []
  }

  /** The filter condition `file.id && file.name`. */
  predicate Usable(f: DriveFile) {
    Truthy(f.id) && Truthy(f.name)
  }

  function AsTrack(f: DriveFile): (t: Track)
    requires Usable(f)
    ensures Some(t.id) == f.id && Some(t.name) == f.name
  {
    Track(f.id.value, f.name.value)
  }

  /** The filter followed by the map in getFilesFromFolder. */
  function KeepUsable(files: seq<DriveFile>): (r: seq<Track>)
    ensures |r| <= |files|
    ensures forall k | 0 <= k < |r| :: r[k].id != [] && r[k].name != []
  {
    if files == [] then []
    else (if Usable(files[0]) then [AsTrack(files[0])] else []) + KeepUsable(files[1..])
  }

  /** What files.list gives back: an error, or a response whose file list may be missing. */
  datatype Response = ApiError | Listed(files: Option<seq<DriveFile>>)

  /**
   * getFilesFromFolder: an error yields no tracks, a response without a
   * file list counts as an empty one, and otherwise the complete entries
   * are kept.
   */
  function FilesFromFolder(response: Response): (r: seq<Track>)
    ensures response.ApiError? || response.files.None? ==> r == []
    ensures response.Listed? && response.files.Some? ==> r == KeepUsable(response.files.value)
    ensures response.Listed? && response.files.Some? ==> |r| <= |response.files.value|
    ensures forall k | 0 <= k < |r| :: r[k].id != [] && r[k].name != []
  {
    match response
    case ApiError => []
    case Listed(None) => []
    case Listed(Some(files)) => KeepUsable(files)
  }

  /** Filtering a concatenation filters each part in place: the kept entries keep their order. */
  lemma {:induction false} KeepUsableAppend(a: seq<DriveFile>, b: seq<DriveFile>)
    ensures KeepUsable(a + b) == KeepUsable(a) + KeepUsable(b)
    decreases |a|
  {
    if a == [] {
      assert a + b == b;
    } else {
      assert (a + b)[1..] == a[1..] + b;
      KeepUsableAppend(a[1..], b);
    }
  }

  /** A track is kept exactly when some entry with both fields present describes it. */
  lemma {:induction false} KeepUsableMembers(files: seq<DriveFile>, t: Track)
    ensures t in KeepUsable(files) <==>
      exists i :: 0 <= i < |files| && Usable(files[i]) && AsTrack(files[i]) == t
    decreases |files|
  {
    if files != [] {
      KeepUsableMembers(files[1..], t);
      if exists i :: 0 <= i < |files[1..]| && Usable(files[1..][i]) && AsTrack(files[1..][i]) == t {
        var i :| 0 <= i < |files[1..]| && Usable(files[1..][i]) && AsTrack(files[1..][i]) == t;
        assert files[i + 1] == files[1..][i];
      }
      if exists i :: 0 <= i < |files| && Usable(files[i]) && AsTrack(files[i]) == t {
        var i :| 0 <= i < |files| && Usable(files[i]) && AsTrack(files[i]) == t;
        if i > 0 {
          assert files[1..][i - 1] == files[i];
        }
      }
    }
  }

  /** A listing in which every entry is complete comes through whole, entry for entry. */
  lemma {:induction false} KeepUsableAllComplete(files: seq<DriveFile>)
    requires forall i | 0 <= i < |files| :: Usable(files[i])
    ensures |KeepUsable(files)| == |files|
    ensures forall i | 0 <= i < |files| :: KeepUsable(files)[i] == AsTrack(files[i])
    decreases |files|
  {
    if files != [] {
      KeepUsableAllComplete(files[1..]);
    }
  }

  /**
   * getRandomTracks(count) once the listing is known. `shuffled` is the
   * listing after the randomised sort, which only reorders it.
   */
  function RandomTracks(listing: seq<Track>, count: nat, shuffled: seq<Track>): (r: seq<Track>)
    requires multiset(shuffled) == multiset(listing)
    ensures |r| == Min(|listing|, count)
    ensures |listing| <= count ==> r == listing
    ensures multiset(r) <= multiset(listing)
    ensures forall k | 0 <= k < |r| :: r[k] in listing
  {
    if |listing| <= count then listing
    else
      assert |shuffled| == |listing| by {
        assert |multiset(shuffled)| == |multiset(listing)|;
      }
      assert shuffled == shuffled[..count] + shuffled[count..];
      assert forall k | 0 <= k < count :: shuffled[..count][k] in multiset(shuffled);
      shuffled[..count]
  }

  /** No entry occurs twice. */
  predicate Distinct(s: seq<Track>) {
    forall i, j | 0 <= i < j < |s| :: s[i] != s[j]
  }

  lemma {:induction false} DistinctOnce(s: seq<Track>, x: Track)
    requires Distinct(s)
    ensures multiset(s)[x] <= 1
    decreases |s|
  {
    if s != [] {
      assert s == [s[0]] + s[1..];
      assert Distinct(s[1..]) by {
        forall i, j | 0 <= i < j < |s[1..]| ensures s[1..][i] != s[1..][j] {
          assert s[1..][i] == s[i + 1] && s[1..][j] == s[j + 1];
        }
      }
      DistinctOnce(s[1..], x);
      if s[0] == x {
        assert x !in s[1..] by {
          forall k | 0 <= k < |s[1..]| ensures s[1..][k] != x {
            assert s[1..][k] == s[k + 1];
          }
        }
      }
    }
  }

  lemma OnceDistinct(s: seq<Track>)
    requires forall x :: multiset(s)[x] <= 1
    ensures Distinct(s)
  {
    forall i, j | 0 <= i < j < |s| ensures s[i] != s[j] {
      assert s == s[..j] + [s[j]] + s[j + 1..];
      assert s[..j][i] == s[i];
      assert multiset(s)[s[j]] == multiset(s[..j])[s[j]] + 1 + multiset(s[j + 1..])[s[j]];
      assert s[i] in multiset(s[..j]);
    }
  }

  /** A sample of a listing without repeats has no repeats. */
  lemma RandomTracksDistinct(listing: seq<Track>, count: nat, shuffled: seq<Track>)
    requires multiset(shuffled) == multiset(listing)
    requires Distinct(listing)
    ensures Distinct(RandomTracks(listing, count, shuffled))
  {
    var r := RandomTracks(listing, count, shuffled);
    forall x ensures multiset(r)[x] <= 1 {
      DistinctOnce(listing, x);
    }
    OnceDistinct(r);
  }
}
