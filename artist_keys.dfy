/**
 * The grouping key of one music file (`get_artist_for_music_file`): the
 * artist tag lower-cased, or the sentinel "unknown" when no artist tag could
 * be read.  Reading the tag is a capability outside this model; its answer
 * arrives as an `Option`, with `None` standing for every way the read fails.
 */
module ArtistKeys {

  import opened Wrappers

  /** The key given to a file whose artist tag cannot be read. */
  const Unknown: string := "unknown"

  predicate IsUpper(c: char)
  {
    'A' <= c <= 'Z'
  }

  /** Lower-cases one character; characters other than `A`..`Z` are kept. */
  function LowerChar(c: char): char
  {
    if IsUpper(c) then (c as int + 32) as char else c
  }

  function Lower(s: string): string
  {
    seq(|s|, i requires 0 <= i < |s| => LowerChar(s[i]))
  }

  /**
   * Two strings that differ at most in the case of their letters: at every
   * position the characters are equal or are the upper- and lower-case form
   * of one letter.
   */
  predicate EqualIgnoringCase(a: string, b: string)
  {
    |a| == |b| &&
    forall i :: 0 <= i < |a| ==>
      a[i] == b[i] ||
      (IsUpper(a[i]) && b[i] as int == a[i] as int + 32) ||
      (IsUpper(b[i]) && a[i] as int == b[i] as int + 32)
  }

  /** A key holds no upper-case letter. */
  predicate IsLowerCase(s: string)
  {
    forall i :: 0 <= i < |s| ==> !IsUpper(s[i])
  }

  /**
   * The artist key of a file, given what reading its artist tag produced.
   * A missing tag yields "unknown"; a present one is the tag with its letters
   * lower-cased, same length, same text otherwise.
   */
  function ArtistForMusicFile(artistTag: Option<string>): (artist: string)
    ensures artistTag.None? ==> artist == Unknown
    ensures artistTag.Some? ==>
              |artist| == |artistTag.value| && IsLowerCase(artist) &&
              EqualIgnoringCase(artist, artistTag.value)
  {
    match artistTag
    case None => Unknown
    case Some(tag) => Lower(tag)
  }

  /**
   * Two tags map to the same key exactly when they differ only in the case
   * of their letters.
   */
  lemma SameKeyIffEqualIgnoringCase(a: string, b: string)
    ensures ArtistForMusicFile(Some(a)) == ArtistForMusicFile(Some(b)) <==> EqualIgnoringCase(a, b)
  {
    var la, lb := Lower(a), Lower(b);
    if EqualIgnoringCase(a, b) {
      forall i | 0 <= i < |a| ensures la[i] == lb[i] {
        assert LowerChar(a[i]) == LowerChar(b[i]);
      }
    }
    if la == lb {
      assert |a| == |b|;
      forall i | 0 <= i < |a|
        ensures a[i] == b[i] ||
                (IsUpper(a[i]) && b[i] as int == a[i] as int + 32) ||
                (IsUpper(b[i]) && a[i] as int == b[i] as int + 32)
      {
        assert LowerChar(a[i]) == la[i] == lb[i] == LowerChar(b[i]);
      }
    }
  }

  /** A key is its own key: lower-casing a key changes nothing. */
  lemma KeyIsFixedPoint(tag: Option<string>)
    ensures ArtistForMusicFile(Some(ArtistForMusicFile(tag))) == ArtistForMusicFile(tag)
  {
    var k := ArtistForMusicFile(tag);
    forall i | 0 <= i < |k| ensures Lower(k)[i] == k[i] {
      assert !IsUpper(k[i]);
    }
  }

  /** "Radiohead" and "radiohead" share the key "radiohead". */
  lemma CaseVariantsExample()
    ensures ArtistForMusicFile(Some("Radiohead")) == ArtistForMusicFile(Some("radiohead")) == "radiohead"
  {
    assert Lower("Radiohead")[0] == 'r';
  }

  /**
   * A file tagged "Unknown" (in any case) shares its key with the files
   * whose tag cannot be read.
   */
  lemma UnknownTagJoinsUnreadable(tag: string)
    requires EqualIgnoringCase(tag, Unknown)
    ensures ArtistForMusicFile(Some(tag)) == ArtistForMusicFile(None)
  {
    SameKeyIffEqualIgnoringCase(tag, Unknown);
    KeyIsFixedPoint(None);
  }

}
