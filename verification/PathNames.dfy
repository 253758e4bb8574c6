/** What the path stage does to the last segment of a path, in terms of the names of index files alone. */
module PathNames {
  import opened Strings
  import opened PathForm

  const INDEX_FILES :=
    ["index.htm", "index.html", "index.php", "index.asp", "index.aspx",
     "default.htm", "default.html", "default.php", "default.asp", "default.aspx"]

  /** The same letter, the capital of it, or one of the three letters beyond ASCII that a pattern which ignores case takes
      for it: the capital I with a dot and the dotless i for i, the long s for s. */
  predicate SameLetter(c: char, lower: char) {
    || c == lower || ('a' <= lower <= 'z' && c as int + 32 == lower as int)
    || (lower == 'i' && (c == '\U{130}' || c == '\U{131}')) || (lower == 's' && c == '\U{17f}')
  }

  predicate SameLetters(s: string, name: string) {
    |s| == |name| && forall i | 0 <= i < |s| :: SameLetter(s[i], name[i])
  }

  predicate NamesIndexFile(s: string) {
    exists k | 0 <= k < |INDEX_FILES| :: SameLetters(s, INDEX_FILES[k])
  }

  predicate LowerCase(name: string) {
    forall i | 0 <= i < |name| :: name[i] as int < 128 && !('A' <= name[i] <= 'Z')
  }

  lemma FoldedIsSame(s: string, name: string)
    requires LowerCase(name)
    ensures FoldAll(s) == name <==> SameLetters(s, name)
  {
    if FoldAll(s) == name {
      forall i | 0 <= i < |s| ensures SameLetter(s[i], name[i]) {
        assert FoldAll(s)[i] == Fold(s[i]);
      }
    }
    if SameLetters(s, name) {
      forall i | 0 <= i < |s| ensures FoldAll(s)[i] == name[i] {
        assert SameLetter(s[i], name[i]);
      }
    }
  }

  /** The ten names are what the stems and extensions make. */
  lemma NamesAreListed(i: nat, j: nat)
    requires i < 2 && j < 5
    ensures STEMS[i] + "." + EXTENSIONS[j] == INDEX_FILES[5 * i + j] && LowerCase(INDEX_FILES[5 * i + j])
  {
  }

  lemma IndexNameIsListed(s: string)
    ensures IsIndexName(s) <==> NamesIndexFile(s)
  {
    if IsIndexName(s) {
      var stem, ext :| stem in STEMS && ext in EXTENSIONS && FoldAll(s) == stem + "." + ext;
      var i: nat :| i < |STEMS| && STEMS[i] == stem;
      var j: nat :| j < |EXTENSIONS| && EXTENSIONS[j] == ext;
      NamesAreListed(i, j);
      FoldedIsSame(s, INDEX_FILES[5 * i + j]);
    }
    if NamesIndexFile(s) {
      var k: nat :| k < |INDEX_FILES| && SameLetters(s, INDEX_FILES[k]);
      NamesAreListed(k / 5, k % 5);
      FoldedIsSame(s, INDEX_FILES[k]);
      assert STEMS[k / 5] in STEMS && EXTENSIONS[k % 5] in EXTENSIONS;
    }
  }

  /** The segments before the last one. */
  function Front(dir: string): seq<string>
    requires IsPath(dir)
  {
    if dir == "" then [] else Segments(dir)
  }

  lemma SegmentsBehind(dir: string, last: string)
    requires IsPath(dir) && '/' !in last
    ensures Segments(dir + "/" + last) == Front(dir) + [last]
  {
    var path := dir + "/" + last;
    if dir == "" {
      assert path[1..] == last;
      SplitPlain(last, '/');
    } else {
      SplitLast(dir[1..], last, '/');
      assert path[1..] == dir[1..] + ['/'] + last;
    }
  }

  lemma MeaningBehind(dir: string, last: string)
    requires IsPath(dir) && '/' !in last
    ensures Meaning(dir + "/" + last) == NonEmpty(Front(dir)) + First(WithoutIndex(last))
  {
    SegmentsBehind(dir, last);
    var ss := Front(dir) + [last];
    assert ss[..|ss| - 1] == Front(dir);
    NonEmptySnoc(Front(dir), WithoutIndex(last));
  }

  lemma RootSnoc(front: seq<string>, last: string)
    ensures Root(front + [last]) == (if front == [] then "" else Root(front)) + "/" + last
  {
    ConcatSnoc(front, last);
    assert front == [] ==> Concat(front) == "";
  }

  lemma RootIsSlash(segments: seq<string>)
    requires Named(segments)
    ensures Root(segments) == "/" <==> segments == []
  {
    if segments != [] {
      assert |Root(segments)| >= 2;
    }
  }

  /** A last segment that is one of the ten index files, in any case, is dropped: what remains is its directory. Any other
      one stays as it is, behind its directory. */
  lemma LastSegment(dir: string, last: string)
    requires IsPath(dir) && last != "" && '/' !in last && last[|last| - 1] != '\n'
    ensures NamesIndexFile(last) ==> Pass(dir + "/" + last) == Pass(dir + "/")
    ensures !NamesIndexFile(last) ==>
              Pass(dir + "/" + last) == (if Pass(dir + "/") == "/" then "" else Pass(dir + "/")) + "/" + last
  {
    IndexNameIsListed(last);
    assert dir + "/" + "" == dir + "/";
    MeaningBehind(dir, last);
    MeaningBehind(dir, "");
    PassKeepsMeaning(dir + "/" + last);
    PassKeepsMeaning(dir + "/");
    DirectoryMeaning(dir);
    if NamesIndexFile(last) {
      assert First(WithoutIndex(last)) == [];
    } else {
      RootIsSlash(NonEmpty(Front(dir)));
      RootSnoc(NonEmpty(Front(dir)), last);
    }
  }

  /** With a newline behind it, which `$` lets stand, an index file leaves just that newline; any other segment stays. */
  lemma LastSegmentWithNewline(dir: string, last: string)
    requires IsPath(dir) && '/' !in last
    ensures Pass(dir + "/" + last + "\n") == (if Pass(dir + "/") == "/" then "" else Pass(dir + "/")) + "/"
                                             + (if NamesIndexFile(last) then "\n" else last + "\n")
  {
    IndexNameIsListed(last);
    var whole := last + "\n";
    assert dir + "/" + "" == dir + "/" && dir + "/" + last + "\n" == dir + "/" + whole;
    assert Visible(whole) == last && whole[|last|..] == "\n";
    MeaningBehind(dir, whole);
    MeaningBehind(dir, "");
    PassKeepsMeaning(dir + "/" + whole);
    PassKeepsMeaning(dir + "/");
    DirectoryMeaning(dir);
    RootIsSlash(NonEmpty(Front(dir)));
    RootSnoc(NonEmpty(Front(dir)), WithoutIndex(whole));
  }

  /** A segment that is not the last one stays, whatever its name, unless it is empty; so the directory of LastSegment is
      its segments joined again. */
  lemma InnerSegment(dir: string, segment: string)
    requires IsPath(dir) && '/' !in segment
    ensures Pass("") == "/" && Pass("/") == "/"
    ensures segment == "" ==> Pass(dir + "/" + segment + "/") == Pass(dir + "/")
    ensures segment != "" ==>
              Pass(dir + "/" + segment + "/") == (if Pass(dir + "/") == "/" then "" else Pass(dir + "/")) + "/" + segment
  {
    var longer := dir + "/" + segment;
    assert dir + "/" + "" == dir + "/" && longer + "/" + "" == longer + "/";
    SegmentsBehind(dir, segment);
    MeaningBehind(dir, "");
    MeaningBehind(longer, "");
    DirectoryMeaning(dir);
    DirectoryMeaning(longer);
    NonEmptySnoc(Front(dir), segment);
    PassKeepsMeaning(dir + "/");
    PassKeepsMeaning(longer + "/");
    NoSegments();
    if segment != "" {
      RootIsSlash(NonEmpty(Front(dir)));
      RootSnoc(NonEmpty(Front(dir)), segment);
    }
  }

  lemma NoSegments()
    ensures Pass("") == "/" && Pass("/") == "/"
  {
    DirectoryMeaning("");
    MeaningBehind("", "");
    assert "" + "/" + "" == "/";
    PassKeepsMeaning("/");
    PassKeepsMeaning("");
    SamePathSameMeaning("", "/");
    assert Pass("") == Pass("/");
  }

  lemma DirectoryMeaning(dir: string)
    requires IsPath(dir)
    ensures First(WithoutIndex("")) == [] && NonEmpty(Front(dir)) + [] == NonEmpty(Front(dir))
    ensures Named(NonEmpty(Front(dir)))
  {
    assert !IsIndexName("") by {
      if IsIndexName("") {
        NameFacts("");
      }
    }
    if dir != "" {
      SegmentsOf(dir);
    }
    NonEmptyNamed(Front(dir));
  }
}
