/**
 * The grouper (`get_music_by_artist`): one pass over the music files that
 * files each one under its artist key in a dictionary of records holding the
 * songs and a running song count.  The dictionary remembers the order in
 * which its keys were first inserted; that order is `artists`.
 */
module Grouper {

  import opened Wrappers
  import opened Paths
  import opened ArtistKeys

  /** The record kept per artist: its songs and the redundant count of them. */
  datatype ArtistGroup = ArtistGroup(songs: seq<Path>, totalSongs: nat)

  /** An insertion-ordered dictionary from artist key to its record. */
  datatype Grouping = Grouping(artists: seq<string>, groups: map<string, ArtistGroup>)
  {
    /** `f` is one of the songs of some group. */
    ghost predicate HasSong(f: Path)
    {
      exists k :: k in groups && f in groups[k].songs
    }

    /**
     * The shape every grouping produced here has: the key order lists each
     * key once, the count of each record equals its number of songs, and no
     * song is filed under two keys.
     */
    ghost predicate Valid()
    {
      Distinct(artists) &&
      (forall k :: k in groups <==> k in artists) &&
      (forall k :: k in groups ==> groups[k].totalSongs == |groups[k].songs|) &&
      (forall k1, k2, f :: k1 in groups && k2 in groups && f in groups[k1].songs && f in groups[k2].songs ==> k1 == k2)
    }
  }

  predicate Distinct<T(==)>(s: seq<T>)
  {
    forall i, j :: 0 <= i < j < |s| ==> s[i] != s[j]
  }

  /**
   * The artist key of each file, through the tag-reading capability `read`.
   * Everything below about grouping holds for any key function; the grouper
   * itself is run with this one.
   */
  function KeyOf(read: Path -> Option<string>): Path -> string
  {
    f => ArtistForMusicFile(read(f))
  }

  /** The files whose key is `k`, in the order of `files`. */
  function SongsOf(files: seq<Path>, key: Path -> string, k: string): seq<Path>
  {
    if files == [] then []
    else
      var last := files[|files| - 1];
      SongsOf(files[..|files| - 1], key, k) + (if key(last) == k then [last] else [])
  }

  /** The distinct keys of `files`, in the order of their first occurrence. */
  function ArtistsOf(files: seq<Path>, key: Path -> string): (artists: seq<string>)
    ensures Distinct(artists)
  {
    if files == [] then []
    else
      var earlier := ArtistsOf(files[..|files| - 1], key);
      var k := key(files[|files| - 1]);
      if k in earlier then earlier else earlier + [k]
  }

  /** A key is among the artists of `files` exactly when some file has that key. */
  lemma {:induction false} ArtistsOfMembership(files: seq<Path>, key: Path -> string, k: string)
    ensures k in ArtistsOf(files, key) <==> exists f :: f in files && key(f) == k
  {
    if files != [] {
      var init := files[..|files| - 1];
      var last := files[|files| - 1];
      assert files == init + [last];
      ArtistsOfMembership(init, key, k);
      assert forall f :: f in files <==> f in init || f == last;
    }
  }

  /** A file is among the songs of key `k` exactly when it is an input file whose key is `k`. */
  lemma {:induction false} SongsOfMembership(files: seq<Path>, key: Path -> string, k: string, f: Path)
    ensures f in SongsOf(files, key, k) <==> f in files && key(f) == k
  {
    if files != [] {
      var init := files[..|files| - 1];
      assert files == init + [files[|files| - 1]];
      SongsOfMembership(init, key, k, f);
    }
  }

  /** The positions in `files` of the files whose key is `k`, in increasing order. */
  function SongIndices(files: seq<Path>, key: Path -> string, k: string): seq<int>
  {
    if files == [] then []
    else
      var n := |files| - 1;
      SongIndices(files[..n], key, k) + (if key(files[n]) == k then [n] else [])
  }

  /** `sub` is `s` read at the strictly increasing positions `idx`. */
  predicate PicksOut(idx: seq<int>, sub: seq<Path>, s: seq<Path>)
  {
    |idx| == |sub| &&
    (forall j :: 0 <= j < |idx| ==> 0 <= idx[j] < |s| && s[idx[j]] == sub[j]) &&
    (forall j1, j2 :: 0 <= j1 < j2 < |idx| ==> idx[j1] < idx[j2])
  }

  /**
   * The songs of a key are a subsequence of the input: each comes from its
   * own position in `files`, and earlier songs from earlier positions.
   */
  lemma {:induction false} SongsOfInInputOrder(files: seq<Path>, key: Path -> string, k: string)
    ensures PicksOut(SongIndices(files, key, k), SongsOf(files, key, k), files)
  {
    if files != [] {
      var n := |files| - 1;
      var init := files[..n];
      SongsOfInInputOrder(init, key, k);
      var idx, sub := SongIndices(init, key, k), SongsOf(init, key, k);
      forall j | 0 <= j < |idx| ensures files[idx[j]] == sub[j] {
        assert files[idx[j]] == init[idx[j]];
      }
    }
  }

  /** A file listed once is filed once: over input without repeats, no key's songs repeat. */
  lemma SongsOfDistinct(files: seq<Path>, key: Path -> string, k: string)
    requires Distinct(files)
    ensures Distinct(SongsOf(files, key, k))
  {
    SongsOfInInputOrder(files, key, k);
    var idx, sub := SongIndices(files, key, k), SongsOf(files, key, k);
    forall i, j | 0 <= i < j < |sub| ensures sub[i] != sub[j] {
      assert files[idx[i]] == sub[i] && files[idx[j]] == sub[j] && idx[i] < idx[j];
    }
  }

  /**
   * Nothing dropped, nothing duplicated: each file occurs among the songs of
   * its own key as often as it occurs in the input, and among the songs of
   * any other key not at all.
   */
  lemma {:induction false} SongsOfMultiplicity(files: seq<Path>, key: Path -> string, k: string, f: Path)
    ensures multiset(SongsOf(files, key, k))[f] == if key(f) == k then multiset(files)[f] else 0
  {
    if files != [] {
      var init := files[..|files| - 1];
      assert files == init + [files[|files| - 1]];
      SongsOfMultiplicity(init, key, k, f);
    }
  }

  /**
   * Songs keep the relative order of the input: grouping a list split in two
   * gives, per key, the songs of the first part followed by those of the second.
   */
  lemma {:induction false} SongsOfAppend(a: seq<Path>, b: seq<Path>, key: Path -> string, k: string)
    ensures SongsOf(a + b, key, k) == SongsOf(a, key, k) + SongsOf(b, key, k)
  {
    if b == [] {
      assert a + b == a;
    } else {
      var init := b[..|b| - 1];
      assert (a + b)[..|a + b| - 1] == a + init;
      SongsOfAppend(a, init, key, k);
    }
  }

  /** Every key present has at least one song: no group is empty. */
  lemma NoEmptyGroup(files: seq<Path>, key: Path -> string, k: string)
    requires k in ArtistsOf(files, key)
    ensures |SongsOf(files, key, k)| > 0
  {
    ArtistsOfMembership(files, key, k);
    var f :| f in files && key(f) == k;
    SongsOfMembership(files, key, k, f);
  }

  /** The number of songs over the groups of the keys `ks`. */
  function SumSizes(files: seq<Path>, key: Path -> string, ks: seq<string>): nat
  {
    if ks == [] then 0 else |SongsOf(files, key, ks[0])| + SumSizes(files, key, ks[1..])
  }

  lemma {:induction false} SumSizesSnoc(files: seq<Path>, key: Path -> string, ks: seq<string>, k: string)
    ensures SumSizes(files, key, ks + [k]) == SumSizes(files, key, ks) + |SongsOf(files, key, k)|
  {
    if ks != [] {
      assert (ks + [k])[1..] == ks[1..] + [k];
      SumSizesSnoc(files, key, ks[1..], k);
    }
  }

  lemma {:induction false} SumSizesAddFile(files: seq<Path>, key: Path -> string, ks: seq<string>, x: Path)
    requires Distinct(ks)
    ensures SumSizes(files + [x], key, ks)
         == SumSizes(files, key, ks) + (if key(x) in ks then 1 else 0)
  {
    assert (files + [x])[..|files + [x]| - 1] == files;
    if ks != [] {
      SumSizesAddFile(files, key, ks[1..], x);
      assert key(x) in ks <==> key(x) == ks[0] || key(x) in ks[1..];
      assert key(x) == ks[0] ==> key(x) !in ks[1..];
    }
  }

  /**
   * The group sizes add up to the number of input files: the groups
   * partition the input.
   */
  lemma {:induction false} GroupSizesSumToFileCount(files: seq<Path>, key: Path -> string)
    ensures SumSizes(files, key, ArtistsOf(files, key)) == |files|
  {
    if files != [] {
      var init := files[..|files| - 1];
      var last := files[|files| - 1];
      assert files == init + [last];
      var earlier := ArtistsOf(init, key);
      GroupSizesSumToFileCount(init, key);
      SumSizesAddFile(init, key, earlier, last);
      if key(last) !in earlier {
        var k := key(last);
        SumSizesSnoc(files, key, earlier, k);
        NoSongsOfAbsentKey(init, key, k);
      }
    }
  }

  /**
   * Exactly one artist key when, and only when, there is at least one file
   * and every file has the key of the first.
   */
  lemma SingleArtistIff(files: seq<Path>, key: Path -> string)
    ensures |ArtistsOf(files, key)| == 1 <==>
              files != [] && forall f :: f in files ==> key(f) == key(files[0])
  {
    var artists := ArtistsOf(files, key);
    if |artists| == 1 {
      assert files != [] by {
        assert artists[0] in artists;
      }
      forall f | f in files ensures key(f) == key(files[0]) {
        assert key(f) in artists && key(files[0]) in artists;
      }
    }
    if files != [] && forall f :: f in files ==> key(f) == key(files[0]) {
      var k := key(files[0]);
      assert k in artists;
      assert forall a :: a in artists ==> a == k;
    }
  }

  /** Grouping one more file extends only the songs of that file's key. */
  lemma SongsOfSnoc(files: seq<Path>, key: Path -> string, k: string, x: Path)
    ensures SongsOf(files + [x], key, k) == SongsOf(files, key, k) + (if key(x) == k then [x] else [])
  {
    assert (files + [x])[..|files|] == files;
  }

  /** One more file adds its key at the end, unless the key was already present. */
  lemma ArtistsOfSnoc(files: seq<Path>, key: Path -> string, x: Path)
    ensures ArtistsOf(files + [x], key)
         == if key(x) in ArtistsOf(files, key) then ArtistsOf(files, key)
            else ArtistsOf(files, key) + [key(x)]
  {
    assert (files + [x])[..|files|] == files;
  }

  /** A key that no file has has no songs. */
  lemma NoSongsOfAbsentKey(files: seq<Path>, key: Path -> string, k: string)
    requires k !in ArtistsOf(files, key)
    ensures SongsOf(files, key, k) == []
  {
    if SongsOf(files, key, k) != [] {
      SongsOfMembership(files, key, k, SongsOf(files, key, k)[0]);
      ArtistsOfMembership(files, key, k);
    }
  }

  /** A grouping of `files` as the grouper builds it: keys in first-seen order, each with the files of that key. */
  ghost predicate GroupsFiles(g: Grouping, files: seq<Path>, key: Path -> string)
  {
    g.artists == ArtistsOf(files, key) &&
    (forall k :: k in g.groups <==> k in g.artists) &&
    forall k {:trigger SongsOf(files, key, k)} :: k in g.groups ==> g.groups[k].songs == SongsOf(files, key, k)
  }

  /**
   * Filing one more file `x` under its key, in a grouping of `files`, gives
   * a grouping of `files + [x]`: the key joins the key order if new, and `x`
   * is appended to that key's songs; every other key is unchanged.
   */
  lemma GroupOneMore(files: seq<Path>, key: Path -> string, x: Path, g: Grouping, g': Grouping)
    requires GroupsFiles(g, files, key)
    requires g'.artists == if key(x) in g.groups then g.artists else g.artists + [key(x)]
    requires key(x) in g'.groups
    requires g'.groups[key(x)].songs
          == (if key(x) in g.groups then g.groups[key(x)].songs else []) + [x]
    requires forall k :: k != key(x) ==> (k in g'.groups <==> k in g.groups)
    requires forall k :: k != key(x) && k in g.groups ==> g'.groups[k].songs == g.groups[k].songs
    ensures GroupsFiles(g', files + [x], key)
  {
    var kx := key(x);
    ArtistsOfSnoc(files, key, x);
    forall k | k in g'.groups ensures g'.groups[k].songs == SongsOf(files + [x], key, k) {
      SongsOfSnoc(files, key, k, x);
      if k == kx && kx !in g.groups {
        NoSongsOfAbsentKey(files, key, kx);
      }
    }
  }

  /** What the grouper hands back: the dictionary, or the file whose metadata load raised. */
  datatype GroupResult = Grouped(grouping: Grouping) | LoadFailed(file: Path)

  /** No file's metadata load raises. */
  predicate AllLoad(files: seq<Path>, loadRaises: Path -> bool)
  {
    forall f :: f in files ==> !loadRaises(f)
  }

  /**
   * Builds the dictionary from artist key to record in one pass, filing each
   * file under its key (inserting an empty record the first time a key is
   * met), appending it to the songs and incrementing the count.  Loading a
   * file's metadata happens outside the guarded tag access, so a load that
   * raises ends the pass at that file.
   */
  method GetMusicByArtist(files: seq<Path>, loadRaises: Path -> bool, read: Path -> Option<string>)
    returns (r: GroupResult)
    ensures r.Grouped? <==> AllLoad(files, loadRaises)
    ensures r.LoadFailed? ==>
              exists i :: 0 <= i < |files| && files[i] == r.file && loadRaises(files[i]) &&
                          AllLoad(files[..i], loadRaises)
    ensures r.Grouped? ==> r.grouping.artists == ArtistsOf(files, KeyOf(read))
    ensures r.Grouped? ==> forall k :: k in r.grouping.groups <==> k in r.grouping.artists
    ensures r.Grouped? ==>
              forall k :: k in r.grouping.groups ==> r.grouping.groups[k].songs == SongsOf(files, KeyOf(read), k)
    ensures r.Grouped? ==>
              forall k :: k in r.grouping.groups ==> r.grouping.groups[k].totalSongs == |r.grouping.groups[k].songs|
    ensures r.Grouped? ==> r.grouping.Valid()
  {
    ghost var key := KeyOf(read);
    var artists: seq<string> := [];
    var byArtist: map<string, ArtistGroup> := map[];
    for i := 0 to |files|
      invariant AllLoad(files[..i], loadRaises)
      invariant GroupsFiles(Grouping(artists, byArtist), files[..i], key)
      invariant forall k :: k in byArtist ==> byArtist[k].totalSongs == |byArtist[k].songs|
    {
      var musicFile := files[i];
      if loadRaises(musicFile) {
        assert !AllLoad(files, loadRaises) by { assert musicFile in files; }
        return LoadFailed(musicFile);
      }
      var artist := ArtistForMusicFile(read(musicFile));
      ghost var before := Grouping(artists, byArtist);
      if artist !in byArtist {
        byArtist := byArtist[artist := ArtistGroup([], 0)];
        artists := artists + [artist];
      }
      byArtist := byArtist[artist := byArtist[artist].(songs := byArtist[artist].songs + [musicFile])];
      byArtist := byArtist[artist := byArtist[artist].(totalSongs := byArtist[artist].totalSongs + 1)];
      assert files[..i + 1] == files[..i] + [musicFile];
      assert key(musicFile) == artist;
      assert artists == if artist in before.groups then before.artists else before.artists + [artist];
      assert artist in byArtist;
      assert byArtist[artist].songs == (if artist in before.groups then before.groups[artist].songs else []) + [musicFile];
      assert forall k :: k != artist ==> (k in byArtist <==> k in before.groups);
      assert forall k :: k != artist && k in before.groups ==> byArtist[k].songs == before.groups[k].songs;
      GroupOneMore(files[..i], key, musicFile, before, Grouping(artists, byArtist));
    }
    assert files[..|files|] == files;
    var g := Grouping(artists, byArtist);
    GroupingIsValid(files, key, g);
    return Grouped(g);
  }

  /** Each input file is among the songs of its own key, and only input files are grouped, each under its own key. */
  ghost predicate FiledUnderOwnKey(g: Grouping, files: seq<Path>, key: Path -> string)
  {
    (forall k, f :: k in g.groups && f in g.groups[k].songs ==> f in files && k == key(f)) &&
    (forall f :: f in files ==> key(f) in g.groups && f in g.groups[key(f)].songs)
  }

  /**
   * After grouping, every input file appears in exactly one group, the one
   * of its own key, and nothing but input files is grouped.
   */
  lemma EveryFileInExactlyOneGroup(files: seq<Path>, key: Path -> string, g: Grouping)
    requires GroupsFiles(g, files, key)
    ensures FiledUnderOwnKey(g, files, key)
  {
    forall k, f | k in g.groups && f in g.groups[k].songs ensures f in files && k == key(f) {
      SongsOfMembership(files, key, k, f);
    }
    forall f | f in files ensures key(f) in g.groups && f in g.groups[key(f)].songs {
      ArtistsOfMembership(files, key, key(f));
      SongsOfMembership(files, key, key(f), f);
    }
  }

  /** A grouping of `files` with the counts kept has the shape every grouping has. */
  lemma GroupingIsValid(files: seq<Path>, key: Path -> string, g: Grouping)
    requires GroupsFiles(g, files, key)
    requires forall k :: k in g.groups ==> g.groups[k].totalSongs == |g.groups[k].songs|
    ensures g.Valid()
  {
    forall k1, k2, f | k1 in g.groups && k2 in g.groups && f in g.groups[k1].songs && f in g.groups[k2].songs
      ensures k1 == k2
    {
      SongsOfMembership(files, key, k1, f);
      SongsOfMembership(files, key, k2, f);
    }
  }

}
