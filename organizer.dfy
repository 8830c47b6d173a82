/**
 * The run: discover the music files, group them by artist, stop when there
 * is nothing or only one artist to organize, and otherwise give every artist
 * a directory under the music directory and move its songs there.
 * Title-casing of the directory names is a capability passed in.
 */
module Organizer {

  import opened Wrappers
  import opened Paths
  import opened Discovery
  import opened ArtistKeys
  import opened Grouper
  import opened FileSystemModel

  /** The directory of one artist: its title-cased key joined under the music directory. */
  function ArtistDir(musicDir: Path, titleCase: string -> string, artist: string): Path
  {
    Join(musicDir, titleCase(artist))
  }

  /** The directories of the artists `ks`. */
  function ArtistDirs(musicDir: Path, titleCase: string -> string, ks: seq<string>): set<Path>
  {
    set k | k in ks :: ArtistDir(musicDir, titleCase, k)
  }

  /** The failure that aborts organizing. */
  datatype OrganizeError = CreateDirFailed(dir: Path) | MoveFailed(song: Path, dir: Path)

  datatype Outcome = Done | Aborted(error: OrganizeError)

  /**
   * Nothing in the way of organizing `g`: each artist directory either exists
   * already or can be created, and no song's move is refused.
   */
  ghost predicate Unobstructed(dirs: set<Path>, mkdirDenied: set<Path>, moveDenied: set<Path>,
                               musicDir: Path, g: Grouping, titleCase: string -> string)
  {
    (forall k :: k in g.artists ==>
       ArtistDir(musicDir, titleCase, k) in dirs || ArtistDir(musicDir, titleCase, k) !in mkdirDenied) &&
    (forall k, f :: k in g.groups && f in g.groups[k].songs ==> f !in moveDenied)
  }

  /** An artist whose directory neither existed nor could be created is in the way. */
  lemma DirInTheWay(dirs: set<Path>, mkdirDenied: set<Path>, moveDenied: set<Path>,
                    musicDir: Path, g: Grouping, titleCase: string -> string, artist: string)
    requires artist in g.artists
    requires ArtistDir(musicDir, titleCase, artist) !in dirs && ArtistDir(musicDir, titleCase, artist) in mkdirDenied
    ensures !Unobstructed(dirs, mkdirDenied, moveDenied, musicDir, g, titleCase)
  {
  }

  /** A song whose move is refused is in the way. */
  lemma SongInTheWay(dirs: set<Path>, mkdirDenied: set<Path>, moveDenied: set<Path>,
                     musicDir: Path, g: Grouping, titleCase: string -> string, artist: string, song: Path)
    requires artist in g.groups && song in g.groups[artist].songs && song in moveDenied
    ensures !Unobstructed(dirs, mkdirDenied, moveDenied, musicDir, g, titleCase)
  {
  }

  /**
   * When every artist's directory was available and every artist's songs
   * are placed, nothing was in the way and every song is in its artist's
   * directory.
   */
  lemma AllPlaced(dirs: set<Path>, mkdirDenied: set<Path>, location: map<Path, Path>, moveDenied: set<Path>,
                  musicDir: Path, g: Grouping, titleCase: string -> string)
    requires g.Valid()
    requires forall a :: 0 <= a < |g.artists| ==>
               ArtistDir(musicDir, titleCase, g.artists[a]) in dirs ||
               ArtistDir(musicDir, titleCase, g.artists[a]) !in mkdirDenied
    requires forall a :: 0 <= a < |g.artists| ==>
               g.artists[a] in g.groups && Placed(location, moveDenied, musicDir, g, titleCase, g.artists[a])
    ensures Unobstructed(dirs, mkdirDenied, moveDenied, musicDir, g, titleCase)
    ensures forall k, f :: k in g.groups && f in g.groups[k].songs ==>
              f in location && location[f] == ArtistDir(musicDir, titleCase, k)
  {
    forall k, f | k in g.groups && f in g.groups[k].songs
      ensures f !in moveDenied && f in location && location[f] == ArtistDir(musicDir, titleCase, k)
    {
      assert k in g.artists;
      var a :| 0 <= a < |g.artists| && g.artists[a] == k;
    }
    forall k | k in g.artists
      ensures ArtistDir(musicDir, titleCase, k) in dirs || ArtistDir(musicDir, titleCase, k) !in mkdirDenied
    {
      var a :| 0 <= a < |g.artists| && g.artists[a] == k;
    }
  }

  /**
   * What organizing may do to the file locations, from `before` to `after`:
   * the tracked files stay the same, only grouped files are relocated, and a
   * grouped file is either where it was or in its artist's directory.
   */
  ghost predicate MovesOnlyIntoArtistDirs(musicDir: Path, g: Grouping, titleCase: string -> string,
                                          before: map<Path, Path>, after: map<Path, Path>)
  {
    (forall f :: f in after <==> f in before) &&
    (forall f :: f in before && !g.HasSong(f) ==> after[f] == before[f]) &&
    (forall k, f :: k in g.groups && f in g.groups[k].songs && f in after ==>
       after[f] == ArtistDir(musicDir, titleCase, k) || (f in before && after[f] == before[f]))
  }

  /** Moving one song of `artist` into the artist's directory keeps the allowed-moves relation. */
  lemma MoveKeepsDirections(musicDir: Path, g: Grouping, titleCase: string -> string,
                            before: map<Path, Path>, now: map<Path, Path>, artist: string, song: Path)
    requires g.Valid() && artist in g.groups && song in g.groups[artist].songs && song in now
    requires MovesOnlyIntoArtistDirs(musicDir, g, titleCase, before, now)
    ensures MovesOnlyIntoArtistDirs(musicDir, g, titleCase, before, now[song := ArtistDir(musicDir, titleCase, artist)])
  {
    assert g.HasSong(song);
  }

  /** The songs of `artist` are all in the artist's directory, and none of their moves is refused. */
  ghost predicate Placed(location: map<Path, Path>, moveDenied: set<Path>,
                         musicDir: Path, g: Grouping, titleCase: string -> string, artist: string)
    requires artist in g.groups
  {
    forall f :: f in g.groups[artist].songs ==>
      f !in moveDenied && f in location && location[f] == ArtistDir(musicDir, titleCase, artist)
  }

  /** Moving only the songs of `artist` leaves the songs of every other artist where they were. */
  lemma PlacedKept(before: map<Path, Path>, after: map<Path, Path>, moveDenied: set<Path>,
                   musicDir: Path, g: Grouping, titleCase: string -> string, artist: string, other: string)
    requires g.Valid() && artist in g.groups && other in g.groups && artist != other
    requires Placed(before, moveDenied, musicDir, g, titleCase, other)
    requires forall f :: f in before && f !in g.groups[artist].songs ==> f in after && after[f] == before[f]
    ensures Placed(after, moveDenied, musicDir, g, titleCase, other)
  {
  }

  lemma ArtistDirsOfPrefix(musicDir: Path, titleCase: string -> string, ks: seq<string>, i: nat)
    requires i <= |ks|
    ensures ArtistDirs(musicDir, titleCase, ks[..i]) <= ArtistDirs(musicDir, titleCase, ks)
  {
    forall d | d in ArtistDirs(musicDir, titleCase, ks[..i]) ensures d in ArtistDirs(musicDir, titleCase, ks) {
      var k :| k in ks[..i] && d == ArtistDir(musicDir, titleCase, k);
      assert k in ks;
    }
  }

  /**
   * The songs `songs` of one artist after the move of `songs[j]` was refused:
   * the songs before it in the list were moved into `dir` (none of their
   * moves was refused), and every song not among those is still where it
   * was in `loc0`.
   */
  ghost predicate StoppedAtSong(songs: seq<Path>, j: int, dir: Path, moveDenied: set<Path>,
                                loc0: map<Path, Path>, location: map<Path, Path>)
  {
    0 <= j < |songs| && songs[j] in moveDenied &&
    (forall f :: f in songs[..j] ==> f !in moveDenied && f in location && location[f] == dir) &&
    (forall f :: f in songs[j..] && f !in songs[..j] && f in loc0 ==> f in location && location[f] == loc0[f])
  }

  /** `StoppedAtSong` measured from an earlier state in which the songs were where they are in `before`. */
  lemma StoppedAtSongSince(songs: seq<Path>, j: int, dir: Path, moveDenied: set<Path>,
                           loc0: map<Path, Path>, before: map<Path, Path>, location: map<Path, Path>)
    requires StoppedAtSong(songs, j, dir, moveDenied, before, location)
    requires forall f :: f in songs && f in loc0 ==> f in before && before[f] == loc0[f]
    ensures StoppedAtSong(songs, j, dir, moveDenied, loc0, location)
  {
    forall f | f in songs[j..] && f !in songs[..j] && f in loc0
      ensures f in location && location[f] == loc0[f]
    {
      assert f in songs;
    }
  }

  /**
   * Moves the songs of one artist, in list order, into its directory,
   * stopping at the first move the host refuses.  Files that are not songs
   * of this artist keep their place.
   */
  method MoveSongs(fs: FileSystem, musicDir: Path, g: Grouping, titleCase: string -> string,
                   artist: string, ghost before: map<Path, Path>) returns (res: Outcome)
    requires fs.Valid() && g.Valid() && artist in g.groups
    requires ArtistDir(musicDir, titleCase, artist) in fs.dirs
    requires forall f :: f in g.groups[artist].songs ==> f in before
    requires MovesOnlyIntoArtistDirs(musicDir, g, titleCase, before, fs.location)
    modifies fs`location
    ensures fs.Valid()
    ensures MovesOnlyIntoArtistDirs(musicDir, g, titleCase, before, fs.location)
    ensures res.Done? <==> forall f :: f in g.groups[artist].songs ==> f !in fs.moveDenied
    ensures res.Done? ==> Placed(fs.location, fs.moveDenied, musicDir, g, titleCase, artist)
    ensures res.Aborted? ==>
              exists j :: 0 <= j < |g.groups[artist].songs| &&
                          res.error == MoveFailed(g.groups[artist].songs[j], ArtistDir(musicDir, titleCase, artist)) &&
                          StoppedAtSong(g.groups[artist].songs, j, ArtistDir(musicDir, titleCase, artist),
                                        fs.moveDenied, old(fs.location), fs.location)
    ensures forall f :: f in old(fs.location) && f !in g.groups[artist].songs ==>
              f in fs.location && fs.location[f] == old(fs.location)[f]
  {
    var songs := g.groups[artist].songs;
    var artistDir := ArtistDir(musicDir, titleCase, artist);
    for j := 0 to |songs|
      invariant fs.Valid()
      invariant MovesOnlyIntoArtistDirs(musicDir, g, titleCase, before, fs.location)
      invariant forall f :: f in songs[..j] ==>
                  f !in fs.moveDenied && f in fs.location && fs.location[f] == artistDir
      invariant forall f :: f in old(fs.location) && f !in songs[..j] ==>
                  f in fs.location && fs.location[f] == old(fs.location)[f]
      invariant forall f :: f in old(fs.location) && f !in songs ==>
                  f in fs.location && fs.location[f] == old(fs.location)[f]
    {
      var song := songs[j];
      assert songs[..j + 1] == songs[..j] + [song];
      assert song in before;
      MoveKeepsDirections(musicDir, g, titleCase, before, fs.location, artist, song);
      var moved := fs.Move(song, artistDir);
      if !moved {
        assert StoppedAtSong(songs, j, artistDir, fs.moveDenied, old(fs.location), fs.location);
        return Aborted(MoveFailed(song, artistDir));
      }
    }
    assert songs[..|songs|] == songs;
    return Done;
  }

  /**
   * The state after organizing the first `i` artists, starting from
   * directories `dirs0` and locations `loc0`: their directories were
   * available and are now present (and no other new ones), their songs are
   * placed, and files moved only into artist directories.
   */
  ghost predicate OrganizedUpTo(i: nat, dirs0: set<Path>, loc0: map<Path, Path>,
                                dirs: set<Path>, location: map<Path, Path>,
                                mkdirDenied: set<Path>, moveDenied: set<Path>,
                                musicDir: Path, g: Grouping, titleCase: string -> string)
  {
    i <= |g.artists| &&
    dirs == dirs0 + ArtistDirs(musicDir, titleCase, g.artists[..i]) &&
    (forall a :: 0 <= a < i ==>
       ArtistDir(musicDir, titleCase, g.artists[a]) in dirs0 ||
       ArtistDir(musicDir, titleCase, g.artists[a]) !in mkdirDenied) &&
    (forall a :: 0 <= a < i ==>
       g.artists[a] in g.groups && Placed(location, moveDenied, musicDir, g, titleCase, g.artists[a])) &&
    MovesOnlyIntoArtistDirs(musicDir, g, titleCase, loc0, location)
  }

  /**
   * Organizing the artist at position `i` (its directory was available and
   * is now present, its songs are placed, nothing else moved) extends the
   * organized prefix by one.
   */
  lemma OrganizedOneMore(i: nat, dirs0: set<Path>, loc0: map<Path, Path>,
                         dirs: set<Path>, before: map<Path, Path>, dirs': set<Path>, after: map<Path, Path>,
                         mkdirDenied: set<Path>, moveDenied: set<Path>,
                         musicDir: Path, g: Grouping, titleCase: string -> string)
    requires g.Valid() && i < |g.artists| && g.artists[i] in g.groups
    requires OrganizedUpTo(i, dirs0, loc0, dirs, before, mkdirDenied, moveDenied, musicDir, g, titleCase)
    requires ArtistDir(musicDir, titleCase, g.artists[i]) in dirs0 ||
             ArtistDir(musicDir, titleCase, g.artists[i]) !in mkdirDenied
    requires dirs' == dirs + {ArtistDir(musicDir, titleCase, g.artists[i])}
    requires Placed(after, moveDenied, musicDir, g, titleCase, g.artists[i])
    requires forall f :: f in before && f !in g.groups[g.artists[i]].songs ==> f in after && after[f] == before[f]
    requires MovesOnlyIntoArtistDirs(musicDir, g, titleCase, loc0, after)
    ensures OrganizedUpTo(i + 1, dirs0, loc0, dirs', after, mkdirDenied, moveDenied, musicDir, g, titleCase)
  {
    var artist := g.artists[i];
    assert g.artists[..i + 1] == g.artists[..i] + [artist];
    assert ArtistDirs(musicDir, titleCase, g.artists[..i + 1])
        == ArtistDirs(musicDir, titleCase, g.artists[..i]) + {ArtistDir(musicDir, titleCase, artist)};
    forall a | 0 <= a < i ensures Placed(after, moveDenied, musicDir, g, titleCase, g.artists[a]) {
      assert g.artists[a] != artist;
      PlacedKept(before, after, moveDenied, musicDir, g, titleCase, artist, g.artists[a]);
    }
  }

  /** Every grouped song is a file the filesystem holds. */
  ghost predicate Tracked(g: Grouping, location: map<Path, Path>)
  {
    forall k, f :: k in g.groups && f in g.groups[k].songs ==> f in location
  }

  /** The songs of every artist not among `ks` are still where they were in `loc0`. */
  ghost predicate Untouched(g: Grouping, ks: seq<string>, loc0: map<Path, Path>, location: map<Path, Path>)
  {
    forall k, f :: k in g.groups && k !in ks && f in g.groups[k].songs && f in loc0 ==>
      f in location && location[f] == loc0[f]
  }

  /** Moving only songs of `artist` leaves the songs of the artists after `ks` and `artist` untouched. */
  lemma UntouchedOneMore(g: Grouping, ks: seq<string>, artist: string,
                         loc0: map<Path, Path>, before: map<Path, Path>, after: map<Path, Path>)
    requires g.Valid() && artist in g.groups
    requires Untouched(g, ks, loc0, before)
    requires forall f :: f in before && f !in g.groups[artist].songs ==> f in after && after[f] == before[f]
    ensures Untouched(g, ks + [artist], loc0, after)
  {
    forall k, f | k in g.groups && k !in ks + [artist] && f in g.groups[k].songs && f in loc0
      ensures f in after && after[f] == loc0[f]
    {
      assert k !in ks && k != artist;
    }
  }

  lemma TakeOneMore<T>(s: seq<T>, i: nat)
    requires i < |s|
    ensures s[..i + 1] == s[..i] + [s[i]]
  {
  }

  /** The directories of the first `i + 1` artists are those of the first `i` and that of the next. */
  lemma ArtistDirsSnoc(musicDir: Path, titleCase: string -> string, ks: seq<string>, i: nat)
    requires i < |ks|
    ensures ArtistDirs(musicDir, titleCase, ks[..i + 1])
         == ArtistDirs(musicDir, titleCase, ks[..i]) + {ArtistDir(musicDir, titleCase, ks[i])}
  {
    TakeOneMore(ks, i);
  }

  /**
   * The state after organizing stopped at the artist at position `i`, from
   * directories `dirs0` and locations `loc0`: the artists before it are
   * organized, the songs of the artists after it have not moved, and
   * `error` names the failure.  Either the artist's directory neither
   * existed nor could be created, and no other directory was added for it;
   * or its directory is present and the move of one of its songs was
   * refused after the songs before that one were moved.
   */
  ghost predicate AbortedAt(i: int, dirs0: set<Path>, loc0: map<Path, Path>,
                            dirs: set<Path>, location: map<Path, Path>,
                            mkdirDenied: set<Path>, moveDenied: set<Path>,
                            musicDir: Path, g: Grouping, titleCase: string -> string, error: OrganizeError)
  {
    0 <= i < |g.artists| && g.artists[i] in g.groups &&
    (forall a :: 0 <= a < i ==>
       ArtistDir(musicDir, titleCase, g.artists[a]) in dirs0 ||
       ArtistDir(musicDir, titleCase, g.artists[a]) !in mkdirDenied) &&
    (forall a :: 0 <= a < i ==>
       g.artists[a] in g.groups && Placed(location, moveDenied, musicDir, g, titleCase, g.artists[a])) &&
    Untouched(g, g.artists[..i + 1], loc0, location) &&
    MovesOnlyIntoArtistDirs(musicDir, g, titleCase, loc0, location) &&
    match error
    case CreateDirFailed(d) =>
      d == ArtistDir(musicDir, titleCase, g.artists[i]) && d !in dirs0 && d in mkdirDenied &&
      dirs == dirs0 + ArtistDirs(musicDir, titleCase, g.artists[..i])
    case MoveFailed(song, d) =>
      d == ArtistDir(musicDir, titleCase, g.artists[i]) && (d in dirs0 || d !in mkdirDenied) &&
      dirs == dirs0 + ArtistDirs(musicDir, titleCase, g.artists[..i + 1]) &&
      exists j :: 0 <= j < |g.groups[g.artists[i]].songs| && song == g.groups[g.artists[i]].songs[j] &&
                  StoppedAtSong(g.groups[g.artists[i]].songs, j, d, moveDenied, loc0, location)
  }

  /** The artist at position `i` is not among the artists before it. */
  lemma NotEarlier(g: Grouping, i: nat)
    requires g.Valid() && i < |g.artists|
    ensures g.artists[i] !in g.artists[..i]
  {
  }

  /** Moving only the songs of the artist at position `i` keeps the artists before it organized. */
  lemma PrefixPlacedKept(i: nat, before: map<Path, Path>, after: map<Path, Path>, moveDenied: set<Path>,
                         musicDir: Path, g: Grouping, titleCase: string -> string)
    requires g.Valid() && i < |g.artists| && g.artists[i] in g.groups
    requires forall a :: 0 <= a < i ==>
               g.artists[a] in g.groups && Placed(before, moveDenied, musicDir, g, titleCase, g.artists[a])
    requires forall f :: f in before && f !in g.groups[g.artists[i]].songs ==> f in after && after[f] == before[f]
    ensures forall a :: 0 <= a < i ==>
              g.artists[a] in g.groups && Placed(after, moveDenied, musicDir, g, titleCase, g.artists[a])
  {
    forall a | 0 <= a < i
      ensures g.artists[a] in g.groups && Placed(after, moveDenied, musicDir, g, titleCase, g.artists[a])
    {
      assert g.artists[a] != g.artists[i];
      PlacedKept(before, after, moveDenied, musicDir, g, titleCase, g.artists[i], g.artists[a]);
    }
  }

  /** The state after a refused move at the artist at position `i`, assembled from its parts. */
  lemma AbortedAtMove(i: nat, dirs0: set<Path>, loc0: map<Path, Path>, dirs: set<Path>, location: map<Path, Path>,
                      mkdirDenied: set<Path>, moveDenied: set<Path>,
                      musicDir: Path, g: Grouping, titleCase: string -> string, j: nat)
    requires i < |g.artists| && g.artists[i] in g.groups
    requires forall a :: 0 <= a < i + 1 ==>
               ArtistDir(musicDir, titleCase, g.artists[a]) in dirs0 ||
               ArtistDir(musicDir, titleCase, g.artists[a]) !in mkdirDenied
    requires forall a :: 0 <= a < i ==>
               g.artists[a] in g.groups && Placed(location, moveDenied, musicDir, g, titleCase, g.artists[a])
    requires Untouched(g, g.artists[..i + 1], loc0, location)
    requires MovesOnlyIntoArtistDirs(musicDir, g, titleCase, loc0, location)
    requires dirs == dirs0 + ArtistDirs(musicDir, titleCase, g.artists[..i + 1])
    requires j < |g.groups[g.artists[i]].songs|
    requires StoppedAtSong(g.groups[g.artists[i]].songs, j, ArtistDir(musicDir, titleCase, g.artists[i]),
                           moveDenied, loc0, location)
    ensures AbortedAt(i, dirs0, loc0, dirs, location, mkdirDenied, moveDenied, musicDir, g, titleCase,
                      MoveFailed(g.groups[g.artists[i]].songs[j], ArtistDir(musicDir, titleCase, g.artists[i])))
  {
  }

  /**
   * After the first `i` artists were organized, a directory for the artist
   * at position `i` that was present or could be created was available from
   * the start: it existed then, or the host allows creating it.
   */
  lemma DirAvailable(i: nat, dirs0: set<Path>, loc0: map<Path, Path>, dirs: set<Path>, location: map<Path, Path>,
                     mkdirDenied: set<Path>, moveDenied: set<Path>,
                     musicDir: Path, g: Grouping, titleCase: string -> string)
    requires i < |g.artists|
    requires OrganizedUpTo(i, dirs0, loc0, dirs, location, mkdirDenied, moveDenied, musicDir, g, titleCase)
    requires ArtistDir(musicDir, titleCase, g.artists[i]) in dirs ||
             ArtistDir(musicDir, titleCase, g.artists[i]) !in mkdirDenied
    ensures ArtistDir(musicDir, titleCase, g.artists[i]) in dirs0 ||
            ArtistDir(musicDir, titleCase, g.artists[i]) !in mkdirDenied
  {
    var d := ArtistDir(musicDir, titleCase, g.artists[i]);
    if d in ArtistDirs(musicDir, titleCase, g.artists[..i]) {
      var k :| k in g.artists[..i] && d == ArtistDir(musicDir, titleCase, k);
      var a :| 0 <= a < i && g.artists[..i][a] == k;
      assert g.artists[a] == k;
    }
  }

  /** A directory failure at the artist at position `i` leaves the state `AbortedAt` describes. */
  lemma MkdirAborts(i: nat, dirs0: set<Path>, loc0: map<Path, Path>, dirs: set<Path>, location: map<Path, Path>,
                    mkdirDenied: set<Path>, moveDenied: set<Path>,
                    musicDir: Path, g: Grouping, titleCase: string -> string)
    requires g.Valid() && i < |g.artists|
    requires OrganizedUpTo(i, dirs0, loc0, dirs, location, mkdirDenied, moveDenied, musicDir, g, titleCase)
    requires Untouched(g, g.artists[..i], loc0, location)
    requires ArtistDir(musicDir, titleCase, g.artists[i]) !in dirs
    requires ArtistDir(musicDir, titleCase, g.artists[i]) in mkdirDenied
    ensures !Unobstructed(dirs0, mkdirDenied, moveDenied, musicDir, g, titleCase)
    ensures dirs <= dirs0 + ArtistDirs(musicDir, titleCase, g.artists)
    ensures AbortedAt(i, dirs0, loc0, dirs, location, mkdirDenied, moveDenied, musicDir, g, titleCase,
                      CreateDirFailed(ArtistDir(musicDir, titleCase, g.artists[i])))
  {
    var artist := g.artists[i];
    DirInTheWay(dirs0, mkdirDenied, moveDenied, musicDir, g, titleCase, artist);
    ArtistDirsOfPrefix(musicDir, titleCase, g.artists, i);
    UntouchedOneMore(g, g.artists[..i], artist, loc0, location, location);
    TakeOneMore(g.artists, i);
  }

  /** A refused move of the artist at position `i` leaves the state `AbortedAt` describes. */
  lemma MoveAborts(i: nat, dirs0: set<Path>, loc0: map<Path, Path>, dirs: set<Path>, before: map<Path, Path>,
                   after: map<Path, Path>, mkdirDenied: set<Path>, moveDenied: set<Path>,
                   musicDir: Path, g: Grouping, titleCase: string -> string, j: nat)
    requires g.Valid() && i < |g.artists| && g.artists[i] in g.groups
    requires OrganizedUpTo(i, dirs0, loc0, dirs, before, mkdirDenied, moveDenied, musicDir, g, titleCase)
    requires ArtistDir(musicDir, titleCase, g.artists[i]) in dirs0 ||
             ArtistDir(musicDir, titleCase, g.artists[i]) !in mkdirDenied
    requires Untouched(g, g.artists[..i], loc0, before)
    requires j < |g.groups[g.artists[i]].songs|
    requires StoppedAtSong(g.groups[g.artists[i]].songs, j, ArtistDir(musicDir, titleCase, g.artists[i]),
                           moveDenied, before, after)
    requires forall f :: f in before && f !in g.groups[g.artists[i]].songs ==> f in after && after[f] == before[f]
    requires MovesOnlyIntoArtistDirs(musicDir, g, titleCase, loc0, after)
    ensures !Unobstructed(dirs0, mkdirDenied, moveDenied, musicDir, g, titleCase)
    ensures dirs + {ArtistDir(musicDir, titleCase, g.artists[i])} <= dirs0 + ArtistDirs(musicDir, titleCase, g.artists)
    ensures AbortedAt(i, dirs0, loc0, dirs + {ArtistDir(musicDir, titleCase, g.artists[i])}, after,
                      mkdirDenied, moveDenied, musicDir, g, titleCase,
                      MoveFailed(g.groups[g.artists[i]].songs[j], ArtistDir(musicDir, titleCase, g.artists[i])))
  {
    var artist := g.artists[i];
    var songs := g.groups[artist].songs;
    var dir := ArtistDir(musicDir, titleCase, artist);
    SongInTheWay(dirs0, mkdirDenied, moveDenied, musicDir, g, titleCase, artist, songs[j]);
    ArtistDirsOfPrefix(musicDir, titleCase, g.artists, i + 1);
    ArtistDirsSnoc(musicDir, titleCase, g.artists, i);
    NotEarlier(g, i);
    StoppedAtSongSince(songs, j, dir, moveDenied, loc0, before, after);
    UntouchedOneMore(g, g.artists[..i], artist, loc0, before, after);
    TakeOneMore(g.artists, i);
    PrefixPlacedKept(i, before, after, moveDenied, musicDir, g, titleCase);
    AbortedAtMove(i, dirs0, loc0, dirs + {dir}, after, mkdirDenied, moveDenied, musicDir, g, titleCase, j);
  }

  /**
   * One iteration of the organize loop, for the artist at position `i`:
   * create its directory, tolerating one that already exists, then move its
   * songs into it.  Any other directory failure, or a refused move, aborts.
   */
  method OrganizeArtist(fs: FileSystem, musicDir: Path, g: Grouping, titleCase: string -> string,
                        i: nat, ghost dirs0: set<Path>, ghost loc0: map<Path, Path>) returns (res: Outcome)
    requires fs.Valid() && g.Valid() && i < |g.artists|
    requires Tracked(g, loc0)
    requires OrganizedUpTo(i, dirs0, loc0, fs.dirs, fs.location, fs.mkdirDenied, fs.moveDenied, musicDir, g, titleCase)
    requires Untouched(g, g.artists[..i], loc0, fs.location)
    modifies fs
    ensures fs.Valid()
    ensures old(fs.dirs) <= fs.dirs
    ensures res.Done? ==>
              OrganizedUpTo(i + 1, dirs0, loc0, fs.dirs, fs.location, fs.mkdirDenied, fs.moveDenied, musicDir, g, titleCase) &&
              Untouched(g, g.artists[..i + 1], loc0, fs.location)
    ensures res.Aborted? ==>
              !Unobstructed(dirs0, fs.mkdirDenied, fs.moveDenied, musicDir, g, titleCase) &&
              fs.dirs <= dirs0 + ArtistDirs(musicDir, titleCase, g.artists) &&
              MovesOnlyIntoArtistDirs(musicDir, g, titleCase, loc0, fs.location) &&
              AbortedAt(i, dirs0, loc0, fs.dirs, fs.location, fs.mkdirDenied, fs.moveDenied, musicDir, g, titleCase, res.error)
  {
    var artist := g.artists[i];
    assert artist in g.groups;
    var artistDir := ArtistDir(musicDir, titleCase, artist);
    ghost var dirs := fs.dirs;
    ghost var before := fs.location;
    ArtistDirsOfPrefix(musicDir, titleCase, g.artists, i);
    TakeOneMore(g.artists, i);
    ghost var allDirs := dirs0 + ArtistDirs(musicDir, titleCase, g.artists);
    assert artistDir in allDirs && dirs <= allDirs;
    var made := fs.MakeDir(artistDir);
    if made == MkdirFailed {
      MkdirAborts(i, dirs0, loc0, fs.dirs, fs.location, fs.mkdirDenied, fs.moveDenied, musicDir, g, titleCase);
      return Aborted(CreateDirFailed(artistDir));
    }
    assert fs.dirs == dirs + {artistDir};
    DirAvailable(i, dirs0, loc0, dirs, before, fs.mkdirDenied, fs.moveDenied, musicDir, g, titleCase);
    res := MoveSongs(fs, musicDir, g, titleCase, artist, loc0);
    if res.Aborted? {
      ghost var j :| 0 <= j < |g.groups[artist].songs| &&
                     res.error == MoveFailed(g.groups[artist].songs[j], artistDir) &&
                     StoppedAtSong(g.groups[artist].songs, j, artistDir, fs.moveDenied, before, fs.location);
      MoveAborts(i, dirs0, loc0, dirs, before, fs.location, fs.mkdirDenied, fs.moveDenied, musicDir, g, titleCase, j);
      return;
    }
    UntouchedOneMore(g, g.artists[..i], artist, loc0, before, fs.location);
    OrganizedOneMore(i, dirs0, loc0, dirs, before, fs.dirs, fs.location,
                     fs.mkdirDenied, fs.moveDenied, musicDir, g, titleCase);
  }

  /**
   * For each artist in key order: create its directory (already existing is
   * fine, any other failure aborts), then move each of its songs into it (a
   * failed move aborts).  On completion every song is in its artist's
   * directory and the new directories are exactly those of the artists.
   * On abort the artists before the failing one are organized, those after
   * it untouched, and the error names the failing directory or song.
   * Whatever happens, no directory disappears, files outside the grouping
   * stay where they were and a grouped file is either where it was or in its
   * artist's directory.
   */
  method Organize(fs: FileSystem, musicDir: Path, g: Grouping, titleCase: string -> string) returns (res: Outcome)
    requires fs.Valid() && g.Valid()
    requires Tracked(g, fs.location)
    modifies fs
    ensures fs.Valid()
    ensures res.Done? <==> Unobstructed(old(fs.dirs), fs.mkdirDenied, fs.moveDenied, musicDir, g, titleCase)
    ensures res.Done? ==>
              forall k, f :: k in g.groups && f in g.groups[k].songs ==>
                f in fs.location && fs.location[f] == ArtistDir(musicDir, titleCase, k)
    ensures res.Done? ==> fs.dirs == old(fs.dirs) + ArtistDirs(musicDir, titleCase, g.artists)
    ensures res.Aborted? ==>
              exists i :: AbortedAt(i, old(fs.dirs), old(fs.location), fs.dirs, fs.location,
                                    fs.mkdirDenied, fs.moveDenied, musicDir, g, titleCase, res.error)
    ensures old(fs.dirs) <= fs.dirs <= old(fs.dirs) + ArtistDirs(musicDir, titleCase, g.artists)
    ensures MovesOnlyIntoArtistDirs(musicDir, g, titleCase, old(fs.location), fs.location)
  {
    for i := 0 to |g.artists|
      invariant fs.Valid()
      invariant OrganizedUpTo(i, old(fs.dirs), old(fs.location), fs.dirs, fs.location,
                              fs.mkdirDenied, fs.moveDenied, musicDir, g, titleCase)
      invariant Untouched(g, g.artists[..i], old(fs.location), fs.location)
    {
      ArtistDirsOfPrefix(musicDir, titleCase, g.artists, i);
      res := OrganizeArtist(fs, musicDir, g, titleCase, i, old(fs.dirs), old(fs.location));
      if res.Aborted? {
        return;
      }
    }
    assert g.artists[..|g.artists|] == g.artists;
    AllPlaced(old(fs.dirs), fs.mkdirDenied, fs.location, fs.moveDenied, musicDir, g, titleCase);
    return Done;
  }

  /**
   * How a run ends: nothing found, a file whose metadata load raised, a
   * single artist, organized, or aborted by a filesystem failure.
   */
  datatype RunResult =
    | NoMusicFiles
    | MetadataLoadRaised(file: Path)
    | OnlyOneArtist(artist: string)
    | Completed
    | Failed(error: OrganizeError)

  /**
   * Nothing in the way of organizing `files`: the directory of each of their
   * artists exists or can be created, and none of their moves is refused.
   */
  ghost predicate FilesUnobstructed(dirs: set<Path>, mkdirDenied: set<Path>, moveDenied: set<Path>,
                                    musicDir: Path, files: seq<Path>, key: Path -> string,
                                    titleCase: string -> string)
  {
    (forall k :: k in ArtistsOf(files, key) ==>
       ArtistDir(musicDir, titleCase, k) in dirs || ArtistDir(musicDir, titleCase, k) !in mkdirDenied) &&
    (forall f :: f in files ==> f !in moveDenied)
  }

  /**
   * What a run may do to the file locations: nothing tracked is lost, files
   * outside `files` stay where they were, and each of `files` is either where
   * it was or in the directory of its own artist.
   */
  ghost predicate MovesOnlyFilesToTheirArtist(musicDir: Path, files: seq<Path>, key: Path -> string,
                                              titleCase: string -> string,
                                              before: map<Path, Path>, after: map<Path, Path>)
  {
    (forall f :: f in after <==> f in before) &&
    (forall f :: f in before && f !in files ==> after[f] == before[f]) &&
    (forall f :: f in files && f in after ==>
       after[f] == ArtistDir(musicDir, titleCase, key(f)) || (f in before && after[f] == before[f]))
  }

  /** Nothing is in the way of organizing a grouping exactly when nothing is in the way for its files. */
  lemma UnobstructedForFiles(files: seq<Path>, key: Path -> string, g: Grouping,
                             dirs: set<Path>, mkdirDenied: set<Path>, moveDenied: set<Path>,
                             musicDir: Path, titleCase: string -> string)
    requires g.artists == ArtistsOf(files, key) && FiledUnderOwnKey(g, files, key)
    ensures Unobstructed(dirs, mkdirDenied, moveDenied, musicDir, g, titleCase)
        <==> FilesUnobstructed(dirs, mkdirDenied, moveDenied, musicDir, files, key, titleCase)
  {
    if Unobstructed(dirs, mkdirDenied, moveDenied, musicDir, g, titleCase) {
      forall f | f in files ensures f !in moveDenied {
        assert key(f) in g.groups && f in g.groups[key(f)].songs;
      }
    }
    if FilesUnobstructed(dirs, mkdirDenied, moveDenied, musicDir, files, key, titleCase) {
      forall k, f | k in g.groups && f in g.groups[k].songs ensures f !in moveDenied {
        assert g.HasSong(f);
      }
    }
  }

  /** Moving grouped songs only into their artist's directory moves each file only into its own artist's. */
  lemma MovesForFiles(files: seq<Path>, key: Path -> string, g: Grouping,
                      musicDir: Path, titleCase: string -> string, before: map<Path, Path>, after: map<Path, Path>)
    requires FiledUnderOwnKey(g, files, key)
    requires MovesOnlyIntoArtistDirs(musicDir, g, titleCase, before, after)
    ensures MovesOnlyFilesToTheirArtist(musicDir, files, key, titleCase, before, after)
  {
    forall f | f in after ensures f in before || f in files {
      if g.HasSong(f) {
        var k :| k in g.groups && f in g.groups[k].songs;
      }
    }
    forall f | f in before && f !in files ensures after[f] == before[f] {
      if g.HasSong(f) {
        var k :| k in g.groups && f in g.groups[k].songs;
      }
    }
    forall f | f in files && f in after
      ensures after[f] == ArtistDir(musicDir, titleCase, key(f)) || (f in before && after[f] == before[f])
    {
      var k := key(f);
      assert k in g.groups && f in g.groups[k].songs;
    }
  }

  /** Every grouped song in its artist's directory means every file in its own artist's directory. */
  lemma PlacedForFiles(files: seq<Path>, key: Path -> string, g: Grouping,
                       musicDir: Path, titleCase: string -> string, after: map<Path, Path>)
    requires FiledUnderOwnKey(g, files, key)
    requires forall k, f :: k in g.groups && f in g.groups[k].songs ==>
               f in after && after[f] == ArtistDir(musicDir, titleCase, k)
    ensures forall f :: f in files ==> f in after && after[f] == ArtistDir(musicDir, titleCase, key(f))
  {
    forall f | f in files ensures f in after && after[f] == ArtistDir(musicDir, titleCase, key(f)) {
      assert key(f) in g.groups && f in g.groups[key(f)].songs;
    }
  }

  /**
   * `AbortedAt` in terms of the files: organizing stopped at the artist at
   * position `i` of the key order of `files`.  The files of the artists
   * before it are in their artists' directories, the files of the artists
   * after it have not moved, and `error` names the failing directory, or the
   * failing song of that artist after its songs before it were moved.
   */
  ghost predicate FilesAbortedAt(i: int, dirs0: set<Path>, loc0: map<Path, Path>,
                                 dirs: set<Path>, location: map<Path, Path>,
                                 mkdirDenied: set<Path>, moveDenied: set<Path>,
                                 musicDir: Path, files: seq<Path>, key: Path -> string,
                                 titleCase: string -> string, error: OrganizeError)
  {
    var ks := ArtistsOf(files, key);
    0 <= i < |ks| &&
    (forall k :: k in ks[..i] ==>
       ArtistDir(musicDir, titleCase, k) in dirs0 || ArtistDir(musicDir, titleCase, k) !in mkdirDenied) &&
    (forall f :: f in files && key(f) in ks[..i] ==>
       f !in moveDenied && f in location && location[f] == ArtistDir(musicDir, titleCase, key(f))) &&
    (forall f :: f in files && key(f) !in ks[..i + 1] && f in loc0 ==> f in location && location[f] == loc0[f]) &&
    match error
    case CreateDirFailed(d) =>
      d == ArtistDir(musicDir, titleCase, ks[i]) && d !in dirs0 && d in mkdirDenied &&
      dirs == dirs0 + ArtistDirs(musicDir, titleCase, ks[..i])
    case MoveFailed(song, d) =>
      d == ArtistDir(musicDir, titleCase, ks[i]) && (d in dirs0 || d !in mkdirDenied) &&
      dirs == dirs0 + ArtistDirs(musicDir, titleCase, ks[..i + 1]) &&
      exists j :: 0 <= j < |SongsOf(files, key, ks[i])| && song == SongsOf(files, key, ks[i])[j] &&
                  StoppedAtSong(SongsOf(files, key, ks[i]), j, d, moveDenied, loc0, location)
  }

  /** Stopping at an artist of a grouping of `files` is stopping at that artist for the files. */
  lemma AbortedForFiles(i: int, dirs0: set<Path>, loc0: map<Path, Path>, dirs: set<Path>, location: map<Path, Path>,
                        mkdirDenied: set<Path>, moveDenied: set<Path>, musicDir: Path,
                        files: seq<Path>, key: Path -> string, g: Grouping, titleCase: string -> string,
                        error: OrganizeError)
    requires GroupsFiles(g, files, key) && FiledUnderOwnKey(g, files, key)
    requires AbortedAt(i, dirs0, loc0, dirs, location, mkdirDenied, moveDenied, musicDir, g, titleCase, error)
    ensures FilesAbortedAt(i, dirs0, loc0, dirs, location, mkdirDenied, moveDenied, musicDir, files, key, titleCase, error)
  {
    var ks := g.artists;
    forall k | k in ks[..i]
      ensures ArtistDir(musicDir, titleCase, k) in dirs0 || ArtistDir(musicDir, titleCase, k) !in mkdirDenied
    {
      var a :| 0 <= a < i && ks[..i][a] == k;
      assert ks[a] == k;
    }
    forall f | f in files && key(f) in ks[..i]
      ensures f !in moveDenied && f in location && location[f] == ArtistDir(musicDir, titleCase, key(f))
    {
      var a :| 0 <= a < i && ks[..i][a] == key(f);
      assert ks[a] == key(f) && f in g.groups[key(f)].songs;
    }
    forall f | f in files && key(f) !in ks[..i + 1] && f in loc0
      ensures f in location && location[f] == loc0[f]
    {
      assert key(f) in g.groups && f in g.groups[key(f)].songs;
    }
    if error.MoveFailed? {
      var songs := g.groups[ks[i]].songs;
      assert songs == SongsOf(files, key, ks[i]);
      var j :| 0 <= j < |songs| && error.song == songs[j] &&
               StoppedAtSong(songs, j, error.dir, moveDenied, loc0, location);
    }
  }

  /** Files that start in the music directory end there or in their own artist's directory. */
  lemma StillOrPlaced(musicDir: Path, files: seq<Path>, key: Path -> string, titleCase: string -> string,
                      before: map<Path, Path>, after: map<Path, Path>)
    requires forall f :: f in files ==> f in before && before[f] == musicDir
    requires MovesOnlyFilesToTheirArtist(musicDir, files, key, titleCase, before, after)
    ensures forall f :: f in files ==>
              f in after && (after[f] == musicDir || after[f] == ArtistDir(musicDir, titleCase, key(f)))
  {
  }

  /** `AbortedForFiles` for an abort at some artist position. */
  lemma SomeAbortForFiles(dirs0: set<Path>, loc0: map<Path, Path>, dirs: set<Path>, location: map<Path, Path>,
                          mkdirDenied: set<Path>, moveDenied: set<Path>, musicDir: Path,
                          files: seq<Path>, key: Path -> string, g: Grouping, titleCase: string -> string,
                          error: OrganizeError)
    requires GroupsFiles(g, files, key) && FiledUnderOwnKey(g, files, key)
    requires exists i :: AbortedAt(i, dirs0, loc0, dirs, location, mkdirDenied, moveDenied, musicDir, g, titleCase, error)
    ensures exists i :: FilesAbortedAt(i, dirs0, loc0, dirs, location, mkdirDenied, moveDenied,
                                       musicDir, files, key, titleCase, error)
  {
    var i :| AbortedAt(i, dirs0, loc0, dirs, location, mkdirDenied, moveDenied, musicDir, g, titleCase, error);
    AbortedForFiles(i, dirs0, loc0, dirs, location, mkdirDenied, moveDenied, musicDir, files, key, g, titleCase, error);
  }

  /**
   * Organizes a grouping of `files`, with its outcome and effect stated in
   * terms of the files: on completion each file is in its own artist's
   * directory, and a run stops short exactly when something was in the way.
   */
  method OrganizeFiles(fs: FileSystem, musicDir: Path, files: seq<Path>, key: Path -> string,
                       g: Grouping, titleCase: string -> string) returns (res: RunResult)
    requires fs.Valid() && g.Valid()
    requires GroupsFiles(g, files, key) && FiledUnderOwnKey(g, files, key)
    requires forall f :: f in files ==> f in fs.location && fs.location[f] == musicDir
    modifies fs
    ensures fs.Valid()
    ensures res.Completed? || res.Failed?
    ensures res.Completed? <==> FilesUnobstructed(old(fs.dirs), fs.mkdirDenied, fs.moveDenied, musicDir, files, key, titleCase)
    ensures res.Completed? ==>
              forall f :: f in files ==> f in fs.location && fs.location[f] == ArtistDir(musicDir, titleCase, key(f))
    ensures res.Completed? ==> fs.dirs == old(fs.dirs) + ArtistDirs(musicDir, titleCase, ArtistsOf(files, key))
    ensures res.Failed? ==>
              exists i :: FilesAbortedAt(i, old(fs.dirs), old(fs.location), fs.dirs, fs.location,
                                         fs.mkdirDenied, fs.moveDenied, musicDir, files, key, titleCase, res.error)
    ensures old(fs.dirs) <= fs.dirs <= old(fs.dirs) + ArtistDirs(musicDir, titleCase, ArtistsOf(files, key))
    ensures MovesOnlyFilesToTheirArtist(musicDir, files, key, titleCase, old(fs.location), fs.location)
    ensures forall f :: f in files ==>
              f in fs.location && (fs.location[f] == musicDir || fs.location[f] == ArtistDir(musicDir, titleCase, key(f)))
  {
    ghost var dirs0, loc0 := fs.dirs, fs.location;
    var outcome := Organize(fs, musicDir, g, titleCase);
    if outcome.Done? {
      PlacedForFiles(files, key, g, musicDir, titleCase, fs.location);
    } else {
      SomeAbortForFiles(dirs0, loc0, fs.dirs, fs.location, fs.mkdirDenied, fs.moveDenied,
                        musicDir, files, key, g, titleCase, outcome.error);
    }
    UnobstructedForFiles(files, key, g, dirs0, fs.mkdirDenied, fs.moveDenied, musicDir, titleCase);
    MovesForFiles(files, key, g, musicDir, titleCase, loc0, fs.location);
    StillOrPlaced(musicDir, files, key, titleCase, loc0, fs.location);
    match outcome
    case Done => res := Completed;
    case Aborted(error) => res := Failed(error);
  }

  /**
   * A whole run: find the music files of the listing; with none, stop; group
   * them by artist, which stops at a file whose metadata load raises; with
   * exactly one artist, stop; otherwise organize.  The three early stops
   * leave the filesystem untouched.
   */
  method OrganizeMusicByArtist(fs: FileSystem, musicDir: Path, musicFormat: string, listing: seq<Entry>,
                               loadRaises: Path -> bool, read: Path -> Option<string>, titleCase: string -> string)
    returns (res: RunResult)
    requires fs.Valid()
    requires DistinctNames(listing)
    requires forall f :: f in FindMusicFiles(musicDir, musicFormat, listing) ==> f in fs.location && fs.location[f] == musicDir
    modifies fs
    ensures fs.Valid()
    ensures res.NoMusicFiles? <==> FindMusicFiles(musicDir, musicFormat, listing) == []
    ensures res.MetadataLoadRaised? <==>
              FindMusicFiles(musicDir, musicFormat, listing) != [] &&
              !AllLoad(FindMusicFiles(musicDir, musicFormat, listing), loadRaises)
    ensures res.MetadataLoadRaised? ==>
              exists i :: 0 <= i < |FindMusicFiles(musicDir, musicFormat, listing)| &&
                          FindMusicFiles(musicDir, musicFormat, listing)[i] == res.file && loadRaises(res.file) &&
                          AllLoad(FindMusicFiles(musicDir, musicFormat, listing)[..i], loadRaises)
    ensures res.OnlyOneArtist? <==>
              AllLoad(FindMusicFiles(musicDir, musicFormat, listing), loadRaises) &&
              |ArtistsOf(FindMusicFiles(musicDir, musicFormat, listing), KeyOf(read))| == 1
    ensures res.OnlyOneArtist? ==> ArtistsOf(FindMusicFiles(musicDir, musicFormat, listing), KeyOf(read)) == [res.artist]
    ensures res.NoMusicFiles? || res.MetadataLoadRaised? || res.OnlyOneArtist? ==>
              fs.dirs == old(fs.dirs) && fs.location == old(fs.location)
    ensures res.Completed? <==>
              AllLoad(FindMusicFiles(musicDir, musicFormat, listing), loadRaises) &&
              |ArtistsOf(FindMusicFiles(musicDir, musicFormat, listing), KeyOf(read))| > 1 &&
              FilesUnobstructed(old(fs.dirs), fs.mkdirDenied, fs.moveDenied, musicDir,
                                FindMusicFiles(musicDir, musicFormat, listing), KeyOf(read), titleCase)
    ensures res.Completed? ==>
              forall f :: f in FindMusicFiles(musicDir, musicFormat, listing) ==>
                f in fs.location && fs.location[f] == ArtistDir(musicDir, titleCase, ArtistForMusicFile(read(f)))
    ensures res.Completed? ==>
              fs.dirs == old(fs.dirs) +
                         ArtistDirs(musicDir, titleCase, ArtistsOf(FindMusicFiles(musicDir, musicFormat, listing), KeyOf(read)))
    ensures res.Failed? ==>
              exists i :: FilesAbortedAt(i, old(fs.dirs), old(fs.location), fs.dirs, fs.location,
                                         fs.mkdirDenied, fs.moveDenied, musicDir,
                                         FindMusicFiles(musicDir, musicFormat, listing), KeyOf(read), titleCase, res.error)
    ensures old(fs.dirs) <= fs.dirs <= old(fs.dirs) +
                       ArtistDirs(musicDir, titleCase, ArtistsOf(FindMusicFiles(musicDir, musicFormat, listing), KeyOf(read)))
    ensures MovesOnlyFilesToTheirArtist(musicDir, FindMusicFiles(musicDir, musicFormat, listing), KeyOf(read), titleCase,
                                        old(fs.location), fs.location)
    ensures forall f :: f in FindMusicFiles(musicDir, musicFormat, listing) ==>
              f in fs.location &&
              (fs.location[f] == musicDir || fs.location[f] == ArtistDir(musicDir, titleCase, ArtistForMusicFile(read(f))))
  {
    var musicFiles := FindMusicFiles(musicDir, musicFormat, listing);
    if musicFiles == [] {
      return NoMusicFiles;
    }
    var grouped := GetMusicByArtist(musicFiles, loadRaises, read);
    if grouped.LoadFailed? {
      return MetadataLoadRaised(grouped.file);
    }
    var musicByArtist := grouped.grouping;
    EveryFileInExactlyOneGroup(musicFiles, KeyOf(read), musicByArtist);
    // the dictionary's number of keys
    if |musicByArtist.artists| == 1 {
      return OnlyOneArtist(musicByArtist.artists[0]);
    }
    res := OrganizeFiles(fs, musicDir, musicFiles, KeyOf(read), musicByArtist, titleCase);
  }

}
