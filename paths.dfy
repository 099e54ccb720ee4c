/** Where a received attachment is saved and how the log refers to it (`download_file`). */
module Paths {
  import Timestamp

  /** The three attachment kinds, each with its own directory. */
  datatype MediaKind = Photo | Video | Audio {
    function Name(): string {
      match this
      case Photo => "photo"
      case Video => "video"
      case Audio => "audio"
    }
  }

  /** Index of the last `c` in `s`, or -1 when there is none (Python's `str.rfind`). */
  function LastIndexOf(s: string, c: char): (r: int)
    ensures -1 <= r < |s|
    ensures r >= 0 ==> s[r] == c
    ensures forall j :: r < j < |s| ==> s[j] != c
  {
    if s == [] then -1
    else if s[|s| - 1] == c then |s| - 1
    else LastIndexOf(s[..|s| - 1], c)
  }

  predicate AllDots(s: string) {
    forall i :: 0 <= i < |s| ==> s[i] == '.'
  }

  /** The final component of a POSIX path: everything after the last `/`. */
  function BaseName(p: string): string {
    p[LastIndexOf(p, '/') + 1..]
  }

  /** POSIX `os.path.splitext`: the extension runs from the last `.` of the final
      component, provided that component has something other than dots before it. */
  function SplitExt(p: string): (parts: (string, string))
    ensures parts.0 + parts.1 == p
  {
    var sep := LastIndexOf(p, '/');
    var dot := LastIndexOf(p, '.');
    if dot > sep && !AllDots(p[sep + 1..dot]) then (p[..dot], p[dot..]) else (p, "")
  }

  function Extension(p: string): string {
    SplitExt(p).1
  }

  /** An extension is empty, or a dot followed by characters that are neither dots nor slashes. */
  lemma ExtensionShape(p: string)
    ensures var e := Extension(p);
      e == [] || (e[0] == '.' && forall i :: 1 <= i < |e| ==> e[i] != '.' && e[i] != '/')
  {
  }

  /** The final component has a dot somewhere after a character that is not a dot. */
  predicate HasInnerDot(b: string) {
    exists i, j :: 0 <= i < j < |b| && b[i] != '.' && b[j] == '.'
  }

  /** The extension is a suffix of the final component of the path. */
  lemma ExtensionInBaseName(p: string)
    ensures var b, e := BaseName(p), Extension(p);
      |e| <= |b| && b[|b| - |e|..] == e
  {
  }

  /** A component whose dots all come before its first other character has no inner dot. */
  lemma OnlyLeadingDots(b: string, n: int)
    requires forall i :: 0 <= i < n && i < |b| ==> b[i] == '.'
    requires forall j :: 0 <= j < |b| && n < j ==> b[j] != '.'
    ensures !HasInnerDot(b)
  {
  }

  /** When `splitext` finds no extension, the final component has no inner dot. */
  lemma NoInnerDotWithoutExtension(p: string, sep: int, dot: int)
    requires sep == LastIndexOf(p, '/') && dot == LastIndexOf(p, '.')
    requires dot <= sep || AllDots(p[sep + 1..dot])
    ensures !HasInnerDot(p[sep + 1..])
  {
    var b := p[sep + 1..];
    var n := if dot <= sep then -1 else dot - sep - 1;
    forall i | 0 <= i < n && i < |b| ensures b[i] == '.' {
      assert b[i] == p[sep + 1..dot][i];
    }
    forall j | 0 <= j < |b| && n < j ensures b[j] != '.' {
      assert b[j] == p[sep + 1 + j];
    }
    OnlyLeadingDots(b, n);
  }

  /** When `splitext` finds an extension, the final component has an inner dot. */
  lemma InnerDotWithExtension(p: string, sep: int, dot: int)
    requires sep == LastIndexOf(p, '/') && dot == LastIndexOf(p, '.')
    requires dot > sep && !AllDots(p[sep + 1..dot])
    ensures HasInnerDot(p[sep + 1..])
  {
    var b := p[sep + 1..];
    var m := p[sep + 1..dot];
    var k :| 0 <= k < |m| && m[k] != '.';
    assert b[k] == m[k];
    assert b[dot - sep - 1] == p[dot];
  }

  /** The extension is non-empty exactly when the final component has a dot preceded
      by some character other than a dot: leading dots never start an extension. */
  lemma ExtensionNonEmptyIff(p: string)
    ensures Extension(p) != "" <==> HasInnerDot(BaseName(p))
  {
    var sep := LastIndexOf(p, '/');
    var dot := LastIndexOf(p, '.');
    var found := dot > sep && !AllDots(p[sep + 1..dot]);
    assert Extension(p) != "" <==> found by {
      assert SplitExt(p).1 == if found then p[dot..] else "";
    }
    assert BaseName(p) == p[sep + 1..];
    if found {
      InnerDotWithExtension(p, sep, dot);
    } else {
      NoInnerDotWithoutExtension(p, sep, dot);
    }
  }

  /** `f"{timestamp}{file_ext}"`: the download time followed by the resolved path's extension. */
  function Filename(t: Timestamp.DateTime, resolvedPath: string): string
    requires t.Valid()
  {
    Timestamp.Stamp(t) + Extension(resolvedPath)
  }

  /** Where the attachment is written: `chat/message/<kind>/<filename>`. */
  function SavedPath(k: MediaKind, filename: string): string {
    "chat/message/" + k.Name() + "/" + filename
  }

  /** What the log's `file_path` holds: `./<kind>/<filename>`. */
  function RecordPath(k: MediaKind, filename: string): string {
    "./" + k.Name() + "/" + filename
  }

  /** Splitting a media filename again gives back the stamp and the original extension. */
  lemma FilenameSplitsBack(t: Timestamp.DateTime, resolvedPath: string)
    requires t.Valid()
    ensures SplitExt(Filename(t, resolvedPath)) == (Timestamp.Stamp(t), Extension(resolvedPath))
  {
    var s, e := Timestamp.Stamp(t), Extension(resolvedPath);
    var f := s + e;
    ExtensionShape(resolvedPath);
    assert forall k :: 0 <= k < 15 ==> f[k] == s[k] && f[k] != '/' && f[k] != '.';
    assert forall k :: 15 < k < |f| ==> f[k] == e[k - 15] && f[k] != '/' && f[k] != '.';
    assert LastIndexOf(f, '/') == -1;
    if e == [] {
      assert LastIndexOf(f, '.') == -1;
      assert f == s;
    } else {
      assert f[15] == '.';
      assert LastIndexOf(f, '.') == 15;
      assert f[0] != '.';
      assert f[..15] == s && f[15..] == e;
    }
  }

  /** The record path names the saved file relative to the `chat/message` directory. */
  lemma RecordPathUnderMediaRoot(k: MediaKind, filename: string)
    ensures SavedPath(k, filename) == "chat/message" + RecordPath(k, filename)[1..]
  {
  }

  /** Two downloads write the same file exactly when they are of the same kind, fall in
      the same second and carry the same extension: the later one overwrites the earlier. */
  lemma SavedPathsCollide(k1: MediaKind, t1: Timestamp.DateTime, p1: string,
                          k2: MediaKind, t2: Timestamp.DateTime, p2: string)
    requires t1.Valid() && t2.Valid()
    ensures SavedPath(k1, Filename(t1, p1)) == SavedPath(k2, Filename(t2, p2)) <==>
            k1 == k2 && t1 == t2 && Extension(p1) == Extension(p2)
  {
    var f1, f2 := Filename(t1, p1), Filename(t2, p2);
    var a, b := SavedPath(k1, f1), SavedPath(k2, f2);
    if a == b {
      assert a[13..18] == k1.Name() && b[13..18] == k2.Name();
      assert k1 == k2;
      assert a[19..] == f1 && b[19..] == f2;
      FilenameSplitsBack(t1, p1);
      FilenameSplitsBack(t2, p2);
      Timestamp.StampInjective(t1, t2);
    }
  }
}
