/** The image staging step of `handle_content_message` (app.py): the
    downloaded image is written to a fresh temporary file in the `static`
    directory, every `*.jpg` file there is deleted, and the temporary file is
    renamed to its own name plus ".jpg". The directory is a map from file
    names to contents. */
module Staging {
  import opened Prompt

  newtype Byte = x: int | 0 <= x < 256

  type Bytes = seq<Byte>

  /** `ext + '-'`: the prefix of every temporary file name. */
  const TempPrefix: string := "jpg-"

  /** The characters Python's `tempfile` draws the random part of a name from. */
  const TempChars: string := "abcdefghijklmnopqrstuvwxyz0123456789_"

  /** A random name part as `tempfile` produces one. */
  predicate IsRandomPart(random: string)
  {
    forall i :: 0 <= i < |random| ==> random[i] in TempChars
  }

  /** The name of the temporary file (`NamedTemporaryFile` with no suffix). */
  function TempName(random: string): (t: string)
    ensures |t| == |TempPrefix| + |random|
    ensures t[..|TempPrefix|] == TempPrefix && t[|TempPrefix|..] == random
  {
    TempPrefix + random
  }

  /** `dist_name`: the temporary name with the extension appended. */
  function DistName(random: string): (d: string)
    ensures |d| == |TempPrefix| + |random| + |JpgSuffix|
    ensures d[..|d| - |JpgSuffix|] == TempName(random)
    ensures d[|d| - |JpgSuffix|..] == JpgSuffix
  {
    TempName(random) + JpgSuffix
  }

  /** Whether `glob(os.path.join(os.getcwd(), 'static', '*.jpg'))` lists a file: its name ends in ".jpg",
      matched case-sensitively, and does not start with a dot (glob's `*`
      skips hidden names). */
  predicate GlobMatches(name: string)
  {
    && |name| >= |JpgSuffix|
    && name[|name| - |JpgSuffix|..] == JpgSuffix
    && name[0] != '.'
  }

  /** The glob, position by position: at least four characters, not starting
      with a dot, and ending in a dot, then lower-case j, p, g (both
      directions). */
  lemma GlobMatchesByPosition(name: string)
    ensures GlobMatches(name) <==>
              && |name| >= 4 && name[0] != '.'
              && name[|name| - 4] == '.' && name[|name| - 3] == 'j'
              && name[|name| - 2] == 'p' && name[|name| - 1] == 'g'
  {
    if |name| >= 4 {
      var t := name[|name| - 4..];
      assert t[0] == name[|name| - 4] && t[1] == name[|name| - 3];
      assert t[2] == name[|name| - 2] && t[3] == name[|name| - 1];
      assert JpgSuffix == ['.', 'j', 'p', 'g'];
    }
  }

  /** No character `tempfile` uses for the random part is a dot. */
  lemma RandomPartHasNoDot(random: string, i: int)
    requires IsRandomPart(random)
    requires 0 <= i < |random|
    ensures random[i] != '.'
  {
    assert random[i] in TempChars;
  }

  /** The temporary file is never one the purge deletes: its name has no dot. */
  lemma TempNameNotGlobbed(random: string)
    requires IsRandomPart(random)
    ensures !GlobMatches(TempName(random))
  {
    var n := TempName(random);
    if |n| >= |JpgSuffix| {
      var k := |n| - |JpgSuffix|;
      var c := if k >= |TempPrefix| then random[k - |TempPrefix|] else TempPrefix[k];
      assert c != '.' by {
        if k >= |TempPrefix| {
          RandomPartHasNoDot(random, k - |TempPrefix|);
        }
      }
      assert n[k..][0] == c;
      assert n[k..] != JpgSuffix by {
        assert JpgSuffix[0] == '.';
      }
    }
  }

  /** The purge is narrower than the vision branch: a name ending in another
      letter case of ".jpg", or a hidden name, is not listed. */
  lemma GlobSkipsOtherCasesAndHiddenNames(stem: string)
    ensures !GlobMatches(stem + ".JPG") && IsVisionInput(stem + ".JPG")
    ensures !GlobMatches("." + stem + JpgSuffix)
  {
    var upper := stem + ".JPG";
    assert upper[|upper| - 3] == 'J';
    AnyCaseJpgIsVision(stem, ".JPG");
    var hidden := "." + stem + JpgSuffix;
    assert hidden[0] == '.';
  }

  /** The final name is always one the purge would list. */
  lemma DistNameGlobbed(random: string)
    ensures GlobMatches(DistName(random))
  {
    assert DistName(random)[0] == 'j';
  }

  /** The directory with every `*.jpg` file removed and the rest as it was. */
  function Purged(files: map<string, Bytes>): (r: map<string, Bytes>)
    ensures forall n :: n in r <==> n in files && !GlobMatches(n)
    ensures forall n :: n in r ==> r[n] == files[n]
  {
    map n | n in files && !GlobMatches(n) :: files[n]
  }

  /** The directory after one staging step, stated as its intended outcome:
      the files that are not `*.jpg` as before, plus the new image. */
  function Staged(before: map<string, Bytes>, random: string, content: Bytes): (after: map<string, Bytes>)
    ensures forall n :: n in after && GlobMatches(n) <==> n == DistName(random)
    ensures DistName(random) in after && after[DistName(random)] == content
    ensures forall n :: n in before && !GlobMatches(n) ==> n in after && after[n] == before[n]
    ensures forall n :: n in after ==> n == DistName(random) || (n in before && !GlobMatches(n))
  {
    DistNameGlobbed(random);
    Purged(before)[DistName(random) := content]
  }

  /** The names the purge deletes. */
  function JpgNames(files: map<string, Bytes>): set<string>
  {
    set n | n in files && GlobMatches(n)
  }

  /** After staging, the only `*.jpg` file is the one just written: every
      image present before it is gone, and the temporary name is gone too. */
  lemma StagedLeavesOneImage(before: map<string, Bytes>, random: string, content: Bytes)
    requires IsRandomPart(random)
    requires TempName(random) !in before
    ensures JpgNames(Staged(before, random, content)) == {DistName(random)}
    ensures forall n :: n in JpgNames(before) && n != DistName(random) ==>
              n !in Staged(before, random, content)
    ensures TempName(random) !in Staged(before, random, content)
  {
    TempNameNotGlobbed(random);
    var after := Staged(before, random, content);
    assert DistName(random) in JpgNames(after);
  }

  /** Two staging steps in a row leave only the second image, whatever the
      first one was and whatever else the directory holds. */
  lemma StagedTwiceKeepsSecond(before: map<string, Bytes>, r1: string, c1: Bytes, r2: string, c2: Bytes)
    ensures var after := Staged(Staged(before, r1, c1), r2, c2);
            && JpgNames(after) == {DistName(r2)}
            && after[DistName(r2)] == c2
            && (DistName(r1) != DistName(r2) ==> DistName(r1) !in after)
            && Purged(after) == Purged(before)
  {
    var mid := Staged(before, r1, c1);
    var after := Staged(mid, r2, c2);
    assert DistName(r2) in JpgNames(after);
    DistNameGlobbed(r1);
    assert Purged(mid) == Purged(before);
  }

  /** The directory without the names listed in `removed`. */
  function Without(files: map<string, Bytes>, removed: seq<string>): map<string, Bytes>
  {
    map n | n in files && n !in removed :: files[n]
  }

  lemma WithoutOneMore(files: map<string, Bytes>, removed: seq<string>, x: string)
    ensures Without(files, removed + [x]) == Without(files, removed) - {x}
  {
  }

  lemma WithoutAllMatchesIsPurged(files: map<string, Bytes>, removed: seq<string>)
    requires forall k :: 0 <= k < |removed| ==> GlobMatches(removed[k])
    requires forall n :: n in files && GlobMatches(n) ==> n in removed
    ensures Without(files, removed) == Purged(files)
  {
  }

  /** Writing the temporary file, purging and renaming gives `Staged`. */
  lemma WritePurgeRenameIsStaged(before: map<string, Bytes>, random: string, content: Bytes)
    requires IsRandomPart(random)
    requires TempName(random) !in before
    ensures var purged := Purged(before[TempName(random) := content]);
            && TempName(random) in purged
            && (purged - {TempName(random)})[DistName(random) := purged[TempName(random)]]
               == Staged(before, random, content)
  {
    TempNameNotGlobbed(random);
    var tmp := TempName(random);
    var purged := Purged(before[tmp := content]);
    assert purged == Purged(before)[tmp := content];
    assert purged - {tmp} == Purged(before);
  }

  /** The `static` directory. */
  class StaticDir {
    var files: map<string, Bytes>

    constructor (initial: map<string, Bytes>)
      ensures files == initial
    {
      files := initial;
    }

    /** `tempfile.NamedTemporaryFile(dir='static', prefix='jpg-', delete=False)`
        followed by the write: a new file under a name not yet in use. The
        random part of the name is a parameter. */
    method WriteTemp(random: string, content: Bytes) returns (tmp: string)
      requires TempName(random) !in files
      modifies this
      ensures tmp == TempName(random)
      ensures files == old(files)[tmp := content]
    {
      tmp := TempPrefix + random;
      files := files[tmp := content];
    }

    /** `glob.glob(os.path.join(os.getcwd(), 'static', '*.jpg'))`: every matching name once, in the order
        the directory yields them. */
    method Glob() returns (matches: seq<string>)
      ensures forall k :: 0 <= k < |matches| ==> matches[k] in files && GlobMatches(matches[k])
      ensures forall n :: n in files && GlobMatches(n) ==> n in matches
      ensures forall j, k :: 0 <= j < k < |matches| ==> matches[j] != matches[k]
    {
      matches := [];
      var rest := files.Keys;
      while |rest| > 0
        invariant rest <= files.Keys
        invariant forall k :: 0 <= k < |matches| ==>
                    matches[k] in files && GlobMatches(matches[k]) && matches[k] !in rest
        invariant forall n :: n in files && GlobMatches(n) ==> n in rest || n in matches
        invariant forall j, k :: 0 <= j < k < |matches| ==> matches[j] != matches[k]
        decreases rest
      {
        var n :| n in rest;
        rest := rest - {n};
        if GlobMatches(n) {
          matches := matches + [n];
        }
      }
    }

    /** `os.remove(name)` on a file that exists. */
    method Remove(name: string)
      requires name in files
      modifies this
      ensures files == old(files) - {name}
    {
      files := files - {name};
    }

    /** `os.rename(src, dst)`: on POSIX an existing `dst` is replaced. */
    method Rename(src: string, dst: string)
      requires src in files
      modifies this
      ensures files == (old(files) - {src})[dst := old(files)[src]]
    {
      files := (files - {src})[dst := files[src]];
    }

    /** The staging step of `handle_content_message`; returns `dist_name`. */
    method StageImage(random: string, content: Bytes) returns (distName: string)
      requires IsRandomPart(random)
      requires TempName(random) !in files
      modifies this
      ensures distName == DistName(random)
      ensures files == Staged(old(files), random, content)
    {
      var tmp := WriteTemp(random, content);
      ghost var written := files;
      var jpgFiles := Glob();
      var i := 0;
      while i < |jpgFiles|
        invariant 0 <= i <= |jpgFiles|
        invariant files == Without(written, jpgFiles[..i])
      {
        assert jpgFiles[i] !in jpgFiles[..i];
        Remove(jpgFiles[i]);
        assert jpgFiles[..i + 1] == jpgFiles[..i] + [jpgFiles[i]];
        WithoutOneMore(written, jpgFiles[..i], jpgFiles[i]);
        i := i + 1;
      }
      assert jpgFiles[..i] == jpgFiles;
      WithoutAllMatchesIsPurged(written, jpgFiles);
      WritePurgeRenameIsStaged(old(files), random, content);
      distName := tmp + JpgSuffix;
      Rename(tmp, distName);
    }
  }
}
