/** The path stage of crawler/normalize.py, on the decoded path. */
module PathForm {
  import opened Strings

  // ---------------------------------------------------------------- the source's steps

  /** re.sub(r"//+", "/", path). */
  function Collapse(s: string): string {
    if s == "" then ""
    else if |s| >= 2 && s[0] == '/' && s[1] == '/' then Collapse(s[1..])
    else [s[0]] + Collapse(s[1..])
  }

  /** What a letter of a case-insensitive pattern is compared with: besides the capitals the dotted capital I and the
      dotless i stand for i, and the long s for s. */
  function Fold(c: char): char {
    if 'A' <= c <= 'Z' then (c as int + 32) as char
    else if c == '\U{130}' || c == '\U{131}' then 'i'
    else if c == '\U{17f}' then 's'
    else c
  }

  function FoldAll(s: string): (r: string)
    ensures |r| == |s| && forall i | 0 <= i < |s| :: r[i] == Fold(s[i])
  {
    if s == "" then "" else [Fold(s[0])] + FoldAll(s[1..])
  }

  const STEMS := ["index", "default"]
  const EXTENSIONS := ["htm", "html", "php", "asp", "aspx"]

  /** (index|default)\.(html?|php|aspx?), ignoring case. */
  predicate IsIndexName(s: string) {
    exists stem, ext | stem in STEMS && ext in EXTENSIONS :: FoldAll(s) == stem + "." + ext
  }

  /** The end of the text as `$` sees it: a final newline may be left out. */
  function Visible(s: string): string {
    if s != "" && s[|s| - 1] == '\n' then s[..|s| - 1] else s
  }

  /** The pattern matches at position n. */
  predicate MatchesAt(s: string, n: nat) {
    n < |Visible(s)| && s[n] == '/' && IsIndexName(Visible(s)[n + 1..])
  }

  /** _INDEX_FILES.sub("/", path): the leftmost match from position n on. */
  function SubIndexFrom(s: string, n: nat): string
    requires n <= |s|
    decreases |s| - n
  {
    if n == |s| then s
    else if MatchesAt(s, n) then s[..n] + "/" + s[|Visible(s)|..]
    else SubIndexFrom(s, n + 1)
  }

  function StripSlashes(s: string): string {
    if s != "" && s[|s| - 1] == '/' then StripSlashes(s[..|s| - 1]) else s
  }

  /** From `path = unquote(...) or "/"` to `if not path`. */
  function Pass(path: string): string {
    var p0 := if path == "" then "/" else path;
    var p1 := Collapse(p0);
    var p2 := SubIndexFrom(p1, 0);
    var p3 := if |p2| > 1 && p2[|p2| - 1] == '/' then StripSlashes(p2) else p2;
    if p3 == "" then "/" else p3
  }

  // ---------------------------------------------------------------- the same on segments

  function Concat(segments: seq<string>): string {
    if segments == [] then "" else "/" + segments[0] + Concat(segments[1..])
  }

  function Root(segments: seq<string>): string {
    if segments == [] then "/" else Concat(segments)
  }

  function NonEmpty(segments: seq<string>): seq<string> {
    if segments == [] then []
    else First(segments[0]) + NonEmpty(segments[1..])
  }

  function First(segment: string): seq<string> {
    if segment == "" then [] else [segment]
  }

  /** The segments of a path that starts with a slash. */
  function Segments(path: string): (r: seq<string>)
    ensures |r| >= 1
  {
    if path == "" then [""] else SplitOn(path[1..], '/')
  }

  predicate IsIndexFile(segment: string) {
    IsIndexName(Visible(segment))
  }

  /** An index file disappears, but for the newline that may follow it. */
  function WithoutIndex(segment: string): string {
    if IsIndexFile(segment) then segment[|Visible(segment)|..] else segment
  }

  /** The list of segments a path stands for: no empty ones, and no index file at the end. */
  function Meaning(path: string): seq<string> {
    var ss := Segments(path);
    NonEmpty(ss[..|ss| - 1] + [WithoutIndex(ss[|ss| - 1])])
  }

  predicate Plain(segments: seq<string>) {
    forall i | 0 <= i < |segments| :: '/' !in segments[i]
  }

  predicate IsPath(s: string) {
    s == "" || s[0] == '/'
  }

  // ---------------------------------------------------------------- Pass in terms of segments

  lemma {:induction false} ConcatOfSplit(s: string)
    ensures Concat(SplitOn(s, '/')) == "/" + s
  {
    if s != "" {
      ConcatOfSplit(s[1..]);
      var rest := SplitOn(s[1..], '/');
      if s[0] == '/' {
        assert ([""] + rest)[1..] == rest;
      } else {
        assert "/" + s[1..] == "/" + rest[0] + Concat(rest[1..]);
        assert s[1..] == rest[0] + Concat(rest[1..]) by {
          assert ("/" + s[1..])[1..] == s[1..] && ("/" + rest[0] + Concat(rest[1..]))[1..] == rest[0] + Concat(rest[1..]);
        }
        var all := [[s[0]] + rest[0]] + rest[1..];
        assert all[1..] == rest[1..];
        assert Concat(all) == "/" + ([s[0]] + rest[0]) + Concat(rest[1..]);
        assert s == [s[0]] + s[1..];
      }
    }
  }

  /** A segment before the end is copied, with its slash. */
  lemma {:induction false} CollapseSegment(s: string, rest: string)
    requires '/' !in s
    ensures Collapse(s + rest) == s + Collapse(rest)
  {
    if s != "" {
      CollapseSegment(s[1..], rest);
      assert (s + rest)[1..] == s[1..] + rest && s == [s[0]] + s[1..];
    } else {
      assert s + rest == rest;
    }
  }

  lemma CollapseNamed(s: string, rest: string)
    requires '/' !in s && s != ""
    ensures Collapse("/" + s + rest) == "/" + s + Collapse(rest)
  {
    var all := "/" + s + rest;
    assert all[1..] == s + rest && all[1] == s[0];
    CollapseSegment(s, rest);
  }

  lemma CollapseBlank(rest: string)
    requires rest != "" && rest[0] == '/'
    ensures Collapse("/" + "" + rest) == Collapse(rest)
  {
    var all := "/" + "" + rest;
    assert all[1..] == rest && all[1] == '/';
  }

  function Ending(ss: seq<string>): string
    requires ss != []
  {
    if ss[|ss| - 1] == "" then "/" else ""
  }

  lemma {:induction false} CollapseConcat(ss: seq<string>)
    requires Plain(ss) && ss != []
    ensures Collapse(Concat(ss)) == Concat(NonEmpty(ss)) + Ending(ss)
  {
    var s, rest := ss[0], ss[1..];
    assert ss == [s] + rest;
    NonEmptyCons(s, rest);
    ConcatCons(s, rest);
    if rest == [] {
      CollapseLast(s);
    } else {
      CollapseConcat(rest);
      assert Ending(rest) == Ending(ss);
      CollapseFirst(s, rest, Concat(NonEmpty(rest)) + Ending(rest));
      ConcatAppend(First(s), NonEmpty(rest));
      JoinIsAssociative(Concat(First(s)), Concat(NonEmpty(rest)), Ending(ss));
    }
  }

  lemma CollapseLast(s: string)
    requires '/' !in s
    ensures Collapse("/" + s + "") == Concat(First(s)) + if s == "" then "/" else ""
  {
    if s == "" {
      assert "/" + s + "" == "/";
    } else {
      CollapseNamed(s, "");
      ConcatOne(s);
    }
  }

  lemma CollapseFirst(s: string, rest: seq<string>, collapsed: string)
    requires '/' !in s && rest != [] && collapsed == Collapse(Concat(rest))
    ensures Collapse("/" + s + Concat(rest)) == Concat(First(s)) + collapsed
  {
    if s == "" {
      CollapseBlank(Concat(rest));
    } else {
      CollapseNamed(s, Concat(rest));
      ConcatOne(s);
    }
  }

  lemma ConcatCons(s: string, rest: seq<string>)
    ensures Concat([s] + rest) == "/" + s + Concat(rest)
  {
    assert ([s] + rest)[1..] == rest;
  }

  lemma NonEmptyCons(s: string, rest: seq<string>)
    ensures NonEmpty([s] + rest) == First(s) + NonEmpty(rest)
  {
    assert ([s] + rest)[1..] == rest;
  }

  lemma {:induction false} NonEmptyAppend(a: seq<string>, b: seq<string>)
    ensures NonEmpty(a + b) == NonEmpty(a) + NonEmpty(b)
  {
    if a == [] {
      assert a + b == b;
    } else {
      var s, rest := a[0], a[1..];
      NonEmptyAppend(rest, b);
      NonEmptyCons(s, rest + b);
      assert a + b == [s] + (rest + b);
      Associative(First(s), NonEmpty(rest), NonEmpty(b));
    }
  }

  lemma Associative(a: seq<string>, b: seq<string>, c: seq<string>)
    ensures a + (b + c) == (a + b) + c
  {
  }

  lemma {:induction false} ConcatAppend(a: seq<string>, b: seq<string>)
    ensures Concat(a + b) == Concat(a) + Concat(b)
  {
    if a == [] {
      assert a + b == b;
    } else {
      ConcatAppend(a[1..], b);
      assert (a + b)[1..] == a[1..] + b;
    }
  }

  lemma ConcatOne(s: string)
    ensures Concat([s]) == "/" + s
  {
    assert [s][1..] == [];
  }

  /** Collapsing leaves the non-empty segments and the last one. */
  lemma CollapseSegments(ss: seq<string>)
    requires Plain(ss) && ss != []
    ensures Collapse(Concat(ss)) == Concat(NonEmpty(ss[..|ss| - 1])) + "/" + ss[|ss| - 1]
  {
    var front, last := ss[..|ss| - 1], ss[|ss| - 1];
    CollapseConcat(ss);
    assert ss == front + [last];
    NonEmptyAppend(front, [last]);
    if last == "" {
      assert NonEmpty([last]) == [];
      assert NonEmpty(ss) == NonEmpty(front);
      assert Concat(NonEmpty(front)) + "/" + last == Concat(NonEmpty(front)) + "/";
    } else {
      assert [last][1..] == [];
      assert NonEmpty([last]) == [last];
      ConcatAppend(NonEmpty(front), [last]);
      ConcatOne(last);
    }
  }

  lemma NamesArePlain(stem: string, ext: string)
    requires stem in STEMS && ext in EXTENSIONS
    ensures '/' !in stem && '/' !in ext && ext != "" && ext[|ext| - 1] != '\n'
  {
  }

  lemma NameFacts(s: string)
    requires IsIndexName(s)
    ensures s != "" && '/' !in s && s[|s| - 1] != '\n'
  {
    var stem, ext :| stem in STEMS && ext in EXTENSIONS && FoldAll(s) == stem + "." + ext;
    NamesArePlain(stem, ext);
    JoinedIsPlain(FoldAll(s), stem, ext);
    forall i | 0 <= i < |s| ensures s[i] != '/' {
      assert FoldAll(s)[i] != '/';
    }
  }

  lemma JoinedIsPlain(name: string, stem: string, ext: string)
    requires name == stem + "." + ext && '/' !in stem && '/' !in ext && ext != "" && ext[|ext| - 1] != '\n'
    ensures name != "" && '/' !in name && name[|name| - 1] != '\n'
  {
    assert name[|name| - 1] == ext[|ext| - 1];
  }

  lemma {:induction false} SubSkips(s: string, n: nat, m: nat)
    requires n <= m <= |s| && forall k | n <= k < m :: !MatchesAt(s, k)
    ensures SubIndexFrom(s, n) == SubIndexFrom(s, m)
    decreases m - n
  {
    if n < m {
      SubSkips(s, n + 1, m);
    }
  }

  lemma VisibleTail(pre: string, last: string)
    ensures var s := pre + "/" + last;
            && Visible(s) == pre + "/" + Visible(last)
            && s[|Visible(s)|..] == last[|Visible(last)|..]
  {
    var s := pre + "/" + last;
    if last != "" {
      assert s[|s| - 1] == last[|last| - 1];
      assert s[..|s| - 1] == pre + "/" + last[..|last| - 1];
    } else {
      assert s == pre + "/";
    }
  }

  /** A match has no slash but its first character. */
  lemma NoMatchBefore(s: string, k: nat, j: nat)
    requires k < j < |Visible(s)| && s[j] == '/'
    ensures !MatchesAt(s, k)
  {
    var name := Visible(s)[k + 1..];
    assert name[j - k - 1] == '/';
    if IsIndexName(name) {
      NameFacts(name);
    }
  }

  /** The pattern can match only at the last slash, and does when an index file follows it. */
  lemma MatchOnlyLast(pre: string, last: string, k: nat)
    requires '/' !in last
    ensures MatchesAt(pre + "/" + last, k) <==> k == |pre| && IsIndexFile(last)
  {
    var s := pre + "/" + last;
    VisibleTail(pre, last);
    assert Visible(s)[|pre| + 1..] == Visible(last);
    if k < |pre| {
      NoMatchBefore(s, k, |pre|);
    } else if |pre| < k < |s| {
      assert s[k] == last[k - |pre| - 1];
    }
  }

  /** The substitution rewrites the last segment. */
  lemma SubIndexLast(pre: string, last: string)
    requires '/' !in last
    ensures SubIndexFrom(pre + "/" + last, 0) == pre + "/" + WithoutIndex(last)
  {
    var s := pre + "/" + last;
    VisibleTail(pre, last);
    forall k | 0 <= k < |s| && (k != |pre| || !IsIndexFile(last)) ensures !MatchesAt(s, k) {
      MatchOnlyLast(pre, last, k);
    }
    MatchOnlyLast(pre, last, |pre|);
    SubSkips(s, 0, |pre|);
    assert s[..|pre|] == pre;
    if !IsIndexFile(last) {
      SubSkips(s, |pre|, |s|);
    }
  }

  // ---------------------------------------------------------------- canonical paths

  predicate Named(segments: seq<string>) {
    forall i | 0 <= i < |segments| :: segments[i] != "" && '/' !in segments[i]
  }

  lemma {:induction false} NonEmptyNamed(ss: seq<string>)
    requires Plain(ss)
    ensures Named(NonEmpty(ss))
  {
    if ss != [] {
      NonEmptyNamed(ss[1..]);
    }
  }

  /** The last segment stands at the end. */
  lemma ConcatLast(segments: seq<string>)
    requires segments != []
    ensures Concat(segments) == Concat(segments[..|segments| - 1]) + "/" + segments[|segments| - 1]
  {
    var front, last := segments[..|segments| - 1], segments[|segments| - 1];
    ConcatSnoc(front, last);
    assert front + [last] == segments;
  }

  lemma ConcatSnoc(front: seq<string>, last: string)
    ensures Concat(front + [last]) == Concat(front) + "/" + last
  {
    ConcatAppend(front, [last]);
    ConcatOne(last);
    JoinIsAssociative(Concat(front), "/", last);
  }

  lemma JoinIsAssociative(a: string, b: string, c: string)
    ensures a + (b + c) == a + b + c
  {
  }

  lemma StripOne(s: string)
    requires s != "" && s[|s| - 1] != '/'
    ensures StripSlashes(s + "/") == s
  {
    assert (s + "/")[..|s|] == s;
  }

  /** The last three lines of the path stage. */
  function Trim(p2: string): string {
    var p3 := if |p2| > 1 && p2[|p2| - 1] == '/' then StripSlashes(p2) else p2;
    if p3 == "" then "/" else p3
  }

  lemma TrimNamed(segments: seq<string>, w: string)
    requires w != "" && '/' !in w
    ensures Trim(Concat(segments) + "/" + w) == Concat(segments + [w])
  {
    var c := Concat(segments);
    ConcatAppend(segments, [w]);
    ConcatOne(w);
    assert c + "/" + w == c + ("/" + w);
    TrimKeeps(c + ("/" + w));
  }

  lemma TrimKeeps(s: string)
    requires s != "" && s[|s| - 1] != '/'
    ensures Trim(s) == s
  {
  }

  lemma LastIsNoSlash(segments: seq<string>)
    requires Named(segments) && segments != []
    ensures Concat(segments) != "" && Concat(segments)[|Concat(segments)| - 1] != '/'
  {
    ConcatLast(segments);
    var last, c := segments[|segments| - 1], Concat(segments);
    assert c[|c| - 1] == last[|last| - 1];
  }

  lemma TrimSlash(segments: seq<string>)
    requires Named(segments)
    ensures Trim(Concat(segments) + "/") == Root(segments)
  {
    if segments != [] {
      LastIsNoSlash(segments);
      StripOne(Concat(segments));
    } else {
      assert Concat(segments) + "/" == "/";
    }
  }

  lemma TrimConcat(segments: seq<string>, w: string)
    requires Named(segments) && '/' !in w
    ensures Trim(Concat(segments) + "/" + w) == Root(segments + First(w))
  {
    if w != "" {
      TrimNamed(segments, w);
    } else {
      TrimSlash(segments);
      assert segments + First(w) == segments;
      assert Concat(segments) + "/" + w == Concat(segments) + "/";
    }
  }

  lemma SegmentsOf(path: string)
    requires IsPath(path)
    ensures Concat(Segments(path)) == (if path == "" then "/" else path) && Plain(Segments(path))
  {
    if path != "" {
      ConcatOfSplit(path[1..]);
      PiecesArePlain(path[1..], '/');
    } else {
      ConcatOne("");
    }
  }

  /** The path stage, string step by string step, computes the path of the segments that count. */
  lemma PassKeepsMeaning(path: string)
    requires IsPath(path)
    ensures Pass(path) == Root(Meaning(path)) && Named(Meaning(path))
  {
    var ss := Segments(path);
    SegmentsOf(path);
    PassOfSegments(path, ss);
    NonEmptyNamed(ss[..|ss| - 1] + [WithoutIndex(ss[|ss| - 1])]);
  }

  lemma PassOfSegments(path: string, ss: seq<string>)
    requires ss != [] && Plain(ss) && Concat(ss) == if path == "" then "/" else path
    ensures Pass(path) == Root(NonEmpty(ss[..|ss| - 1] + [WithoutIndex(ss[|ss| - 1])]))
  {
    var front, last := ss[..|ss| - 1], ss[|ss| - 1];
    CollapseSegments(ss);
    NonEmptyNamed(front);
    PassOfLast(path, NonEmpty(front), last);
    NonEmptySnoc(front, WithoutIndex(last));
  }

  lemma PassOfLast(path: string, front: seq<string>, last: string)
    requires Collapse(if path == "" then "/" else path) == Concat(front) + "/" + last && Named(front) && '/' !in last
    ensures Pass(path) == Root(front + First(WithoutIndex(last)))
  {
    SubIndexLast(Concat(front), last);
    PassIsTrim(path, front, last);
    TrimConcat(front, WithoutIndex(last));
  }

  lemma PassIsTrim(path: string, segments: seq<string>, last: string)
    requires Collapse(if path == "" then "/" else path) == Concat(segments) + "/" + last
    requires SubIndexFrom(Concat(segments) + "/" + last, 0) == Concat(segments) + "/" + WithoutIndex(last)
    ensures Pass(path) == Trim(Concat(segments) + "/" + WithoutIndex(last))
  {
  }

  lemma NonEmptySnoc(front: seq<string>, w: string)
    ensures NonEmpty(front + [w]) == NonEmpty(front) + First(w)
  {
    NonEmptyAppend(front, [w]);
    assert [w] == [w] + [];
    NonEmptyCons(w, []);
    assert First(w) + NonEmpty([]) == First(w);
  }

  lemma {:induction false} SplitConcat(segments: seq<string>)
    requires Named(segments) && segments != []
    ensures Concat(segments) != "" && SplitOn(Concat(segments)[1..], '/') == segments
  {
    var s, rest := segments[0], segments[1..];
    if rest == [] {
      assert Concat(segments)[1..] == s;
      SplitPlain(s, '/');
    } else {
      SplitConcat(rest);
      var tail := Concat(rest)[1..];
      assert Concat(rest) == ['/'] + tail;
      assert Concat(segments)[1..] == s + ['/'] + tail;
      SplitFirst(s, tail, '/');
    }
  }

  /** A canonical path has the segments it was made of. */
  lemma SegmentsOfRoot(segments: seq<string>)
    requires Named(segments)
    ensures Segments(Root(segments)) == if segments == [] then [""] else segments
  {
    if segments != [] {
      SplitConcat(segments);
    }
  }

  /** Two paths become the same exactly when they have the same segments that count. */
  lemma SamePathSameMeaning(p: string, q: string)
    requires IsPath(p) && IsPath(q)
    ensures Pass(p) == Pass(q) <==> Meaning(p) == Meaning(q)
  {
    PassKeepsMeaning(p);
    PassKeepsMeaning(q);
    SegmentsOfRoot(Meaning(p));
    SegmentsOfRoot(Meaning(q));
  }

  predicate NoDoubleSlash(s: string) {
    forall i | 0 <= i < |s| - 1 :: s[i] != '/' || s[i + 1] != '/'
  }

  predicate IsCanonical(s: string) {
    s != "" && s[0] == '/' && NoDoubleSlash(s) && (s[|s| - 1] == '/' ==> s == "/")
  }

  lemma {:induction false} ConcatCanonical(segments: seq<string>)
    requires Named(segments) && segments != []
    ensures IsCanonical(Concat(segments)) && Concat(segments) != "/"
  {
    var s, rest := segments[0], segments[1..];
    var c, tail := Concat(segments), Concat(rest);
    assert c == "/" + s + tail;
    if rest != [] {
      ConcatCanonical(rest);
    }
    forall i | 0 <= i < |c| - 1 ensures c[i] != '/' || c[i + 1] != '/' {
      if i > |s| {
        assert c[i] == tail[i - |s| - 1] && c[i + 1] == tail[i - |s|];
      } else if i > 0 {
        assert c[i] == s[i - 1];
      } else {
        assert c[1] == s[0];
      }
    }
    assert c[|c| - 1] == if rest == [] then s[|s| - 1] else tail[|tail| - 1];
  }

  /** For every decoded path: a slash first, no double slash, and no slash last but in the root. */
  lemma PassIsCanonical(path: string)
    requires IsPath(path)
    ensures IsCanonical(Pass(path))
  {
    PassKeepsMeaning(path);
    if Meaning(path) != [] {
      ConcatCanonical(Meaning(path));
    }
  }

  // ---------------------------------------------------------------- further passes

  predicate EndsInIndexFile(s: string) {
    exists n | 0 <= n < |s| :: MatchesAt(s, n)
  }

  function LastDropped(segments: seq<string>): seq<string> {
    if segments == [] then []
    else segments[..|segments| - 1] + First(WithoutIndex(segments[|segments| - 1]))
  }

  lemma {:induction false} NamedIsNonEmpty(segments: seq<string>)
    requires Named(segments)
    ensures NonEmpty(segments) == segments
  {
    if segments != [] {
      NamedIsNonEmpty(segments[1..]);
      NonEmptyCons(segments[0], segments[1..]);
      assert segments == [segments[0]] + segments[1..];
    }
  }

  lemma NonEmptyLast(front: seq<string>, w: string)
    requires Named(front)
    ensures NonEmpty(front + [w]) == front + First(w)
  {
    NonEmptySnoc(front, w);
    NamedIsNonEmpty(front);
  }

  lemma MeaningOfRoot(segments: seq<string>)
    requires Named(segments)
    ensures Meaning(Root(segments)) == LastDropped(segments)
  {
    SegmentsOfRoot(segments);
    if segments == [] {
      MeaningOfBlank(Root(segments));
    } else {
      MeaningOfMany(segments);
    }
  }

  lemma MeaningOfMany(segments: seq<string>)
    requires Named(segments) && segments != [] && Segments(Root(segments)) == segments
    ensures Meaning(Root(segments)) == LastDropped(segments)
  {
    var front, last := segments[..|segments| - 1], segments[|segments| - 1];
    NonEmptyLast(front, WithoutIndex(last));
  }

  lemma MeaningOfBlank(path: string)
    requires Segments(path) == [""]
    ensures Meaning(path) == []
  {
    NonEmptyLast([], "");
    assert [""][..0] + [WithoutIndex("")] == [] + [""];
  }

  lemma PassOfRoot(segments: seq<string>)
    requires Named(segments)
    ensures Pass(Root(segments)) == Root(LastDropped(segments)) && Named(LastDropped(segments))
  {
    if segments != [] {
      SplitConcat(segments);
    }
    PassKeepsMeaning(Root(segments));
    MeaningOfRoot(segments);
  }

  predicate LastIsIndex(segments: seq<string>) {
    segments != [] && IsIndexFile(segments[|segments| - 1])
  }

  lemma RootEndsInIndex(segments: seq<string>)
    requires Named(segments)
    ensures EndsInIndexFile(Root(segments)) <==> LastIsIndex(segments)
  {
    if segments == [] {
      assert Root(segments) == "" + "/" + "";
      MatchOnlyLast("", "", 0);
    } else {
      var pre, last := Concat(segments[..|segments| - 1]), segments[|segments| - 1];
      ConcatLast(segments);
      var s := Root(segments);
      assert s == pre + "/" + last && |pre| < |s|;
      forall k | 0 <= k < |s| ensures MatchesAt(s, k) <==> k == |pre| && IsIndexFile(last) {
        MatchOnlyLast(pre, last, k);
      }
      assert IsIndexFile(last) ==> MatchesAt(s, |pre|);
    }
  }

  /** Dropping an index file makes the path shorter; otherwise nothing is dropped. */
  lemma DroppingShortens(segments: seq<string>)
    requires Named(segments)
    ensures if LastIsIndex(segments) then |Root(LastDropped(segments))| < |Root(segments)|
            else LastDropped(segments) == segments
  {
    if segments != [] {
      var front, last := segments[..|segments| - 1], segments[|segments| - 1];
      assert segments == front + [last];
      ConcatLast(segments);
      if IsIndexFile(last) {
        NameFacts(Visible(last));
        var w := WithoutIndex(last);
        if w != "" {
          ConcatLast(front + [w]);
          assert (front + [w])[..|front|] == front;
        } else {
          assert front + [] == front;
        }
      }
    }
  }

  /** A second pass, without decoding, changes the path exactly when it still ends in an index file, and then makes it
      shorter. */
  lemma SecondPass(path: string)
    requires IsPath(path)
    ensures Pass(Pass(path)) != Pass(path) <==> EndsInIndexFile(Pass(path))
    ensures Pass(Pass(path)) != Pass(path) ==> |Pass(Pass(path))| < |Pass(path)|
  {
    PassKeepsMeaning(path);
    PassOfRoot(Meaning(path));
    RootEndsInIndex(Meaning(path));
    DroppingShortens(Meaning(path));
  }

  /** `pass` n times over. */
  function Passes(pass: string -> string, path: string, n: nat): string {
    if n == 0 then path else pass(Passes(pass, path, n - 1))
  }

  /** How many index files stand at the end, one after another. */
  function Trailing(segments: seq<string>): nat {
    if !LastIsIndex(segments) then 0
    else if WithoutIndex(segments[|segments| - 1]) != "" then 1
    else 1 + Trailing(segments[..|segments| - 1])
  }

  lemma DropCounts(segments: seq<string>)
    requires Named(segments)
    ensures Trailing(LastDropped(segments)) == if Trailing(segments) == 0 then 0 else Trailing(segments) - 1
  {
    if LastIsIndex(segments) {
      var front, last := segments[..|segments| - 1], segments[|segments| - 1];
      var w := WithoutIndex(last);
      if w == "" {
        assert front + [] == front;
      } else {
        assert w == "\n";
        assert Visible(w) == "";
        assert !IsIndexFile(w) by {
          if IsIndexName("") {
            NameFacts("");
          }
        }
      }
    } else {
      DroppingShortens(segments);
    }
  }

  /** `pass` lowers the rank of a good string by one until it is zero, and only then leaves the string alone. */
  ghost predicate Descends(pass: string -> string, rank: string -> nat, good: string -> bool) {
    forall s | good(s) :: Falls(pass, rank, good, s)
  }

  ghost predicate Falls(pass: string -> string, rank: string -> nat, good: string -> bool, s: string) {
    good(pass(s)) && rank(pass(s)) == (if rank(s) == 0 then 0 else rank(s) - 1) && (pass(s) == s <==> rank(s) == 0)
  }

  lemma {:induction false} Descent(pass: string -> string, rank: string -> nat, good: string -> bool, s: string, n: nat)
    requires Descends(pass, rank, good) && good(s)
    ensures good(Passes(pass, s, n))
    ensures rank(Passes(pass, s, n)) == if n >= rank(s) then 0 else rank(s) - n
    ensures Passes(pass, s, n + 1) == Passes(pass, s, n) <==> n >= rank(s)
  {
    if n > 0 {
      Descent(pass, rank, good, s, n - 1);
    }
    assert Falls(pass, rank, good, Passes(pass, s, n));
  }

  ghost predicate IsRoot(s: string) {
    exists segments :: Named(segments) && s == Root(segments)
  }

  /** How many index files are stacked at the end of a path. */
  function Stack(s: string): nat {
    Trailing(Segments(s))
  }

  lemma StackOfRoot(segments: seq<string>)
    requires Named(segments)
    ensures Stack(Root(segments)) == Trailing(segments)
  {
    SegmentsOfRoot(segments);
    if segments == [] {
      if IsIndexName("") {
        NameFacts("");
      }
    }
  }

  lemma PassDescends()
    ensures Descends(Pass, Stack, IsRoot)
  {
    forall s | IsRoot(s) ensures Falls(Pass, Stack, IsRoot, s) {
      PassFalls(s);
    }
  }

  lemma PassFalls(s: string)
    requires IsRoot(s)
    ensures Falls(Pass, Stack, IsRoot, s)
  {
    var segments :| Named(segments) && s == Root(segments);
    PassDescendsFrom(s, segments);
  }

  lemma PassDescendsFrom(s: string, segments: seq<string>)
    requires Named(segments) && s == Root(segments)
    ensures IsRoot(Pass(s)) && Stack(Pass(s)) == (if Stack(s) == 0 then 0 else Stack(s) - 1)
    ensures Pass(s) == s <==> Stack(s) == 0
  {
    PassOfRoot(segments);
    StackFalls(segments, LastDropped(segments), Pass(s));
  }

  lemma StackFalls(segments: seq<string>, dropped: seq<string>, p: string)
    requires Named(segments) && dropped == LastDropped(segments) && Named(dropped) && p == Root(dropped)
    ensures IsRoot(p) && Stack(p) == (if Stack(Root(segments)) == 0 then 0 else Stack(Root(segments)) - 1)
    ensures p == Root(segments) <==> Stack(Root(segments)) == 0
  {
    DropCounts(segments);
    DroppingShortens(segments);
    StackOfRoot(segments);
    StackOfRoot(dropped);
  }

  /** After the first pass it takes exactly as many more as there are index files stacked at the end to reach a path that
      does not change any more. */
  lemma SettlesAfterStackedIndexFiles(path: string, n: nat)
    requires IsPath(path)
    ensures Passes(Pass, Pass(path), n + 1) == Passes(Pass, Pass(path), n) <==> n >= Stack(Pass(path))
  {
    PassKeepsMeaning(path);
    PassDescends();
    Descent(Pass, Stack, IsRoot, Pass(path), n);
  }
}
