/**
 * Discovery of the candidate music files: the entries listed directly inside
 * the music directory that are regular files and whose name ends with the
 * configured format suffix (`find_music_files`).
 */
module Discovery {

  import opened Paths

  /** One entry of a directory listing: its name and whether it is a regular file. */
  datatype Entry = Entry(name: string, isFile: bool)

  /** Case-sensitive suffix test, as a string's `endswith`. */
  predicate EndsWith(s: string, suffix: string)
  {
    |suffix| <= |s| && s[|s| - |suffix|..] == suffix
  }

  lemma EndsWithIffSplit(s: string, suffix: string)
    ensures EndsWith(s, suffix) <==> exists k :: 0 <= k <= |s| && s[..k] + suffix == s
  {
    if EndsWith(s, suffix) {
      var k := |s| - |suffix|;
      assert s[..k] + s[k..] == s;
    }
  }

  /** An entry kept by the filter: a regular file carrying the suffix. */
  predicate IsMusicEntry(e: Entry, musicFormat: string)
  {
    e.isFile && EndsWith(e.name, musicFormat)
  }

  /**
   * The music files of a directory listing, each joined under `musicDir`, in
   * listing order.
   */
  function FindMusicFiles(musicDir: Path, musicFormat: string, listing: seq<Entry>): (files: seq<Path>)
    ensures |files| <= |listing|
    ensures forall p :: p in files ==>
              p.Join? && p.parent == musicDir &&
              exists e :: e in listing && IsMusicEntry(e, musicFormat) && e.name == p.name
    ensures forall e :: e in listing && IsMusicEntry(e, musicFormat) ==> Join(musicDir, e.name) in files
  {
    if listing == [] then []
    else
      var rest := FindMusicFiles(musicDir, musicFormat, listing[1..]);
      if IsMusicEntry(listing[0], musicFormat) then [Join(musicDir, listing[0].name)] + rest else rest
  }

  /**
   * The filter works entry by entry and keeps the listing's order: a listing
   * split in two yields the files of the first part followed by those of the
   * second.
   */
  lemma {:induction false} FindMusicFilesAppend(musicDir: Path, musicFormat: string, a: seq<Entry>, b: seq<Entry>)
    ensures FindMusicFiles(musicDir, musicFormat, a + b)
         == FindMusicFiles(musicDir, musicFormat, a) + FindMusicFiles(musicDir, musicFormat, b)
  {
    if a == [] {
      assert a + b == b;
    } else {
      assert (a + b)[1..] == a[1..] + b;
      FindMusicFilesAppend(musicDir, musicFormat, a[1..], b);
    }
  }

  /** Each position of the result comes from a listed entry that passes the filter. */
  lemma {:induction false} FindMusicFilesSingle(musicDir: Path, musicFormat: string, e: Entry)
    ensures FindMusicFiles(musicDir, musicFormat, [e])
         == if IsMusicEntry(e, musicFormat) then [Join(musicDir, e.name)] else []
  {
    assert [e][1..] == [];
  }

  /** `a.mp3`, `b.flac` and `c.MP3` under the filter `.mp3`: only `a.mp3` is kept. */
  lemma SuffixMatchIsCaseSensitive(musicDir: Path)
    ensures FindMusicFiles(musicDir, ".mp3",
              [Entry("a.mp3", true), Entry("b.flac", true), Entry("c.MP3", true)])
         == [Join(musicDir, "a.mp3")]
  {
    var a, b, c := Entry("a.mp3", true), Entry("b.flac", true), Entry("c.MP3", true);
    assert !IsMusicEntry(c, ".mp3") by { assert c.name[2] != ".mp3"[1]; }
    assert !IsMusicEntry(b, ".mp3") by { assert b.name[3] != ".mp3"[1]; }
    assert IsMusicEntry(a, ".mp3");
    assert [c][1..] == [] && [b, c][1..] == [c] && [a, b, c][1..] == [b, c];
    assert FindMusicFiles(musicDir, ".mp3", [c]) == [];
    assert FindMusicFiles(musicDir, ".mp3", [b, c]) == [];
  }

  /**
   * An entry that is not a regular file is never kept, whatever its name:
   * the listing with it yields the same files as the listing without it.
   */
  lemma DirectoriesAreSkipped(musicDir: Path, musicFormat: string, a: seq<Entry>, name: string, b: seq<Entry>)
    ensures FindMusicFiles(musicDir, musicFormat, a + [Entry(name, false)] + b)
         == FindMusicFiles(musicDir, musicFormat, a + b)
  {
    var d := Entry(name, false);
    FindMusicFilesAppend(musicDir, musicFormat, a + [d], b);
    FindMusicFilesAppend(musicDir, musicFormat, a, [d]);
    FindMusicFilesSingle(musicDir, musicFormat, d);
    FindMusicFilesAppend(musicDir, musicFormat, a, b);
    assert FindMusicFiles(musicDir, musicFormat, a) + [] == FindMusicFiles(musicDir, musicFormat, a);
  }

  /** No two entries of the listing share a name, as in a directory's listing. */
  predicate DistinctNames(listing: seq<Entry>)
  {
    forall i, j :: 0 <= i < j < |listing| ==> listing[i].name != listing[j].name
  }

  /** A listing with distinct names yields each path at most once. */
  lemma {:induction false} FindMusicFilesDistinct(musicDir: Path, musicFormat: string, listing: seq<Entry>)
    requires DistinctNames(listing)
    ensures forall i, j :: 0 <= i < j < |FindMusicFiles(musicDir, musicFormat, listing)| ==>
              FindMusicFiles(musicDir, musicFormat, listing)[i] != FindMusicFiles(musicDir, musicFormat, listing)[j]
  {
    if listing != [] {
      var rest := FindMusicFiles(musicDir, musicFormat, listing[1..]);
      assert DistinctNames(listing[1..]) by {
        forall i, j | 0 <= i < j < |listing[1..]| ensures listing[1..][i].name != listing[1..][j].name {
          assert listing[1..][i] == listing[i + 1] && listing[1..][j] == listing[j + 1];
        }
      }
      FindMusicFilesDistinct(musicDir, musicFormat, listing[1..]);
      if IsMusicEntry(listing[0], musicFormat) {
        var p := Join(musicDir, listing[0].name);
        assert p !in rest;
        var files := [p] + rest;
        forall i, j | 0 <= i < j < |files| ensures files[i] != files[j] {
          if i == 0 {
            assert files[j] == rest[j - 1];
          } else {
            assert files[i] == rest[i - 1] && files[j] == rest[j - 1];
          }
        }
      }
    }
  }

}
