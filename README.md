# Organize music by artist — a Dafny model

This project models the core of `organize_music_by_artist.py` from the
music-manager scripts. That script:

1. lists the music files of one directory (regular files whose name ends
   with the configured format);
2. reads each file's artist tag;
3. groups the files under a lower-cased artist key in an insertion-ordered
   dictionary of `{songs, total_songs}` records;
4. stops when there are no files or only one artist;
5. otherwise creates one title-cased directory per artist (tolerating one
   that already exists) and moves every song into its artist's directory.

The model is split into modules:

- `Paths`: a path is a root or a name joined under a parent path.
- `Discovery`: `find_music_files`, as a pure function over a directory listing.
- `ArtistKeys`: `get_artist_for_music_file`, as a pure function over the outcome of reading the tag.
- `Grouper`: `get_music_by_artist`, as a method whose loop updates a map and the order of its keys. It is proved against the reference functions `ArtistsOf` (keys in first-seen order) and `SongsOf` (the files of one key, in input order).
- `FileSystemModel`: a `FileSystem` class. It holds the existing directories and the directory each tracked file is in, and its `MakeDir` and `Move` methods change them in place.
- `Organizer`: the organize loop of `main` and the whole run with its early stops.

The metadata library, the directory listing and the title-casing helper are
capabilities given as parameters:

- `loadRaises` says whether loading a file's metadata raises.
- `read` gives the artist tag, or `None` when the tag cannot be read.
- `listing` is the directory's entries, each with its name and whether it is a regular file.
- `titleCase` maps a key to a directory name.

The host filesystem decides which directory creations and which moves it
refuses. In the model these are two fixed sets of the `FileSystem`.

## Model

| member | source | states |
|---|---|---|
| Discovery.FindMusicFiles | music_manager/organize_music_by_artist.py:98-103 | every result is `music_dir` joined with the name of a listed regular file ending in the format; every such entry's path is in the result; the result is no longer than the listing |
| Discovery.FindMusicFilesAppend | music_manager/organize_music_by_artist.py:98-103 | the filter keeps listing order: the files of a concatenated listing are the files of the first part followed by those of the second |
| Discovery.EndsWithIffSplit | music_manager/organize_music_by_artist.py:102 | `endswith` holds exactly when the name is some prefix followed by the format |
| Discovery.SuffixMatchIsCaseSensitive | music_manager/organize_music_by_artist.py:102 | with format `.mp3`, the listing `a.mp3`, `b.flac`, `c.MP3` yields only `a.mp3`: the suffix match is case-sensitive |
| Discovery.FindMusicFilesDistinct | music_manager/organize_music_by_artist.py:98-103 | when the listing names each entry once, as a directory listing does, no path is found twice |
| Discovery.DirectoriesAreSkipped | music_manager/organize_music_by_artist.py:101 | removing an entry that is not a regular file from anywhere in the listing does not change the files found, whatever its name |
| ArtistKeys.ArtistForMusicFile | music_manager/organize_music_by_artist.py:144-150 | an unreadable tag gives `"unknown"`; a readable one gives a string of the same length with no upper-case letter that equals the tag up to letter case; the function is total, so it never fails |
| ArtistKeys.SameKeyIffEqualIgnoringCase | music_manager/organize_music_by_artist.py:145 | two tags get the same key if and only if they differ only in the case of their letters |
| ArtistKeys.KeyIsFixedPoint | music_manager/organize_music_by_artist.py:145-148 | lower-casing a key again changes nothing |
| ArtistKeys.CaseVariantsExample | music_manager/organize_music_by_artist.py:145 | `Radiohead` and `radiohead` share the key `radiohead` |
| ArtistKeys.UnknownTagJoinsUnreadable | music_manager/organize_music_by_artist.py:145-148 | a file tagged `Unknown`, in any letter case, is grouped with the files whose tag cannot be read |
| Grouper.ArtistsOf | music_manager/organize_music_by_artist.py:118-129 | the dictionary's key order lists each key once |
| Grouper.ArtistsOfMembership | music_manager/organize_music_by_artist.py:118-129 | a key is in the dictionary if and only if some input file has that key; in particular, no files give no keys |
| Grouper.SongsOfMembership | music_manager/organize_music_by_artist.py:123-126 | a file is among the songs of key `k` if and only if it is an input file whose key is `k` |
| Grouper.SongsOfMultiplicity | music_manager/organize_music_by_artist.py:119-126 | each file occurs among the songs of its own key as often as in the input, and under any other key not at all |
| Grouper.SongsOfAppend | music_manager/organize_music_by_artist.py:119-126 | the songs of a key keep input order: for concatenated inputs they are the songs from the first part followed by those from the second |
| Grouper.SongsOfInInputOrder | music_manager/organize_music_by_artist.py:119-126 | the songs of a key are the input files read at strictly increasing positions: a subsequence of the input, in input order |
| Grouper.SongsOfDistinct | music_manager/organize_music_by_artist.py:119-126 | when no input file is repeated, no song is repeated within a key |
| Grouper.NoSongsOfAbsentKey | music_manager/organize_music_by_artist.py:125-126 | a key that is not in the dictionary has no songs |
| Grouper.NoEmptyGroup | music_manager/organize_music_by_artist.py:125-126 | every key in the dictionary has at least one song |
| Grouper.GroupSizesSumToFileCount | music_manager/organize_music_by_artist.py:118-129 | the group sizes add up to the number of input files: nothing is dropped or duplicated |
| Grouper.SingleArtistIff | music_manager/organize_music_by_artist.py:55 | the dictionary has exactly one key if and only if there is at least one file and every file has the key of the first |
| Grouper.GroupOneMore | music_manager/organize_music_by_artist.py:123-127 | one iteration (`setdefault`, then `append`) turns the dictionary of a prefix of the files into the dictionary of that prefix plus one file |
| Grouper.GetMusicByArtist | music_manager/organize_music_by_artist.py:118-129 | returns the file whose metadata load raises first, if there is one; otherwise returns the dictionary. Its key order is `ArtistsOf` of the files, each key's songs are `SongsOf` that key, each `total_songs` equals the number of songs, and no song is under two keys |
| Grouper.EveryFileInExactlyOneGroup | music_manager/organize_music_by_artist.py:118-129 | after grouping, every input file is among the songs of its own key, and every grouped song is an input file filed under its own key |
| Grouper.GroupingIsValid | music_manager/organize_music_by_artist.py:125-127 | a dictionary of the files whose counts are kept lists each key once, has a record for exactly the listed keys, keeps `total_songs` equal to the number of songs, and files no song under two keys |
| FileSystemModel.FileSystem.MakeDir | music_manager/organize_music_by_artist.py:67-74 | an existing directory is reported as already existing and nothing changes; a refused creation fails and nothing changes; otherwise exactly that directory is added |
| FileSystemModel.FileSystem.Move | music_manager/organize_music_by_artist.py:77 | a move succeeds exactly when the file is held by the filesystem and the host does not refuse the move; on success only the moved file's directory changes, to the destination, and on failure nothing changes |
| Organizer.AllPlaced | music_manager/organize_music_by_artist.py:61-77 | when every artist's directory was available and each artist's songs are placed, nothing was in the way and every song is in its artist's directory |
| Organizer.MoveSongs | music_manager/organize_music_by_artist.py:76-77 | moves one artist's songs in list order and completes exactly when no move of them is refused; then all its songs are in its directory. Otherwise it stops at the first refused song, which the error names: the songs before it are in the directory, and the songs not among those have not moved. Files that are not its songs keep their place |
| Organizer.OrganizeArtist | music_manager/organize_music_by_artist.py:63-77 | creates the artist directory, tolerating one that already exists, then moves the songs. On success the organized prefix grows by one and the later artists are untouched. On abort the state is the one `AbortedAt` describes for this artist. No directory is removed |
| Organizer.Organize | music_manager/organize_music_by_artist.py:61-77 | completes exactly when no artist directory is blocked and no song move is refused. On completion every song is in its artist's directory and the new directories are exactly the artists' directories. On abort there is an artist position `i` where: every earlier artist's directory existed or could be created, and the artist is organized; the songs of later artists have not moved; the directories are the old ones plus those of the artists handled; and the error is either the directory of artist `i`, missing and refused, or the first refused song of artist `i`, whose directory was available and whose earlier songs have moved. So the abort is at the first problem in key order. No directory is removed, and files outside the grouping stay where they were |
| Organizer.OrganizeFiles | music_manager/organize_music_by_artist.py:61-77 | the organize loop, stated in terms of the files, which start in the music directory: it completes exactly when nothing is in the way for them, and then every file is in its own artist's directory. On failure the state is the one `FilesAbortedAt` describes: it stops at the first problem in key order; the directories of earlier artists were available and their files are placed; the files of later artists have not moved, and the error names the failing directory or the first refused song. No directory is removed, no other file moves, and each file is either still in the music directory or in its own artist's directory |
| Organizer.OrganizeMusicByArtist | music_manager/organize_music_by_artist.py:49-77 | the run stops with no change to the filesystem in three cases: no music files; the first file, in listing order, whose metadata load raises; or exactly one artist. Otherwise it completes exactly when nothing is in the way. On completion every file is in the directory of its own key, and the only new directories are the artists' directories. On failure it stopped at the first problem in key order: the earlier artists' directories were available and they are organized, the later ones are untouched, and the error names the failing directory or song. Whatever happens, no directory is removed, only music files move, each only from the music directory into its own artist's directory, and the set of files does not change |

## Left out

- Loading metadata and reading the tag (the `eyed3` library) is not modelled. It becomes two parameters: `loadRaises` for a load that raises, and `read` for the tag, which is `None` whenever the guarded tag access raises (no tag, no artist, a load that returned nothing).
- Metadata loading (line 121) is outside the guarded block, so a load that raises ends the whole run. Only a failure of the tag access itself (lines 144-148) is recovered per file, as `"unknown"`. The model follows the code in this: `Grouper.GetMusicByArtist` stops at the first file whose load raises.
- `os.listdir` and `os.path.isfile` are not modelled. The listing is an input sequence of entries, each with a name and a regular-file flag.
- `string_helpers.convert_to_title_case` is not part of this model. It is the parameter `titleCase`, with no assumption about its casing rules. Two keys that title-case to the same name share a directory.
- `ArtistKeys.ArtistForMusicFile`: lower-casing covers ASCII `A`–`Z` only. Python's `str.lower` also folds other Unicode letters.
- `os.path.join` is an abstract pairing of a parent path and a name, with no separator or normalisation. So every title-cased key gives its own fresh subdirectory of the music directory. In the source, a key that title-cases to `""` or `"."` names the music directory itself: its `mkdir` is tolerated as already existing, and the first move then raises because the file is already there. A name containing `/` nests under another directory, so whether its `mkdir` succeeds can depend on the artists handled before it. The model captures neither case.
- The real `os.mkdir` and `shutil.move` are not modelled. Refused creations and refused moves are fixed sets of the filesystem. A failure aborts the run, as the uncaught exception does.
- `FileSystemModel.FileSystem.Move`: a file is tracked by the path it was found at, and the model does not capture that this path is gone once the file has moved. Moving the same path twice would therefore succeed in the model, while `shutil.move` fails. The run never does this: `OrganizeMusicByArtist` requires a listing with distinct names, as `os.listdir` gives. `Discovery.FindMusicFilesDistinct` and `Grouper.SongsOfDistinct` show that no path then repeats within a group, and the grouping's validity files no path under two keys.
- `FileSystemModel.FileSystem.Move`: the model does not capture what happens when the destination already holds a file of the same name. It also does not capture a regular file sitting where an artist directory should be, which `os.mkdir` reports as already existing.
- Command-line parsing, logging, the `main_executor` decorator and the top-level exception handler are left out. They carry no logic that can be stated here.
