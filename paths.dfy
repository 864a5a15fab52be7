/**
 * The part of std::filesystem::path the shader loaders rely on: the file
 * name (the text after the last '/') and its extension (from the last '.'
 * of the file name on, except that "." and "..", and a file name whose only
 * dot is its first character, have no extension).
 */
module Paths {

  /** The position of the last `c` in `s`, or -1 when `s` has none. */
  function LastIndexOf(s: string, c: char): (r: int)
    ensures -1 <= r < |s|
    ensures r >= 0 ==> s[r] == c
  {
    if s == [] then -1
    else if s[|s| - 1] == c then |s| - 1
    else LastIndexOf(s[..|s| - 1], c)
  }

  /** LastIndexOf finds the last occurrence, and -1 means there is none. */
  lemma {:induction false} LastIndexOfIsLast(s: string, c: char)
    ensures LastIndexOf(s, c) == -1 <==> c !in s
    ensures forall j :: LastIndexOf(s, c) < j < |s| ==> s[j] != c
  {
    if s != [] && s[|s| - 1] != c {
      var init := s[..|s| - 1];
      LastIndexOfIsLast(init, c);
      assert s == init + [s[|s| - 1]];
    }
  }

  /** path::filename: everything after the last separator. */
  function FileName(p: string): string {
    p[LastIndexOf(p, '/') + 1..]
  }

  /** The file name is the part of the path after its last separator, and holds none. */
  lemma FileNameIsLastComponent(p: string)
    ensures var name := FileName(p);
      && |name| <= |p| && name == p[|p| - |name|..]
      && '/' !in name
      && (|name| < |p| ==> p[|p| - |name| - 1] == '/')
  {
    LastIndexOfIsLast(p, '/');
    var r := LastIndexOf(p, '/');
    var name := FileName(p);
    forall j | 0 <= j < |name|
      ensures name[j] != '/'
    {
      assert name[j] == p[r + 1 + j];
    }
  }

  /** path::extension: the last dot of the file name and what follows it, or nothing. */
  function Extension(p: string): string {
    var name := FileName(p);
    var dot := LastIndexOf(name, '.');
    if IsDotOrDotDot(name) || dot <= 0 then "" else name[dot..]
  }

  /**
   * An extension is a proper suffix of the file name that starts with its
   * only dot, or it is empty.
   */
  lemma ExtensionIsDotSuffix(p: string)
    ensures var name, ext := FileName(p), Extension(p);
      && |ext| <= |name| && ext == name[|name| - |ext|..]
      && (ext != [] ==> ext[0] == '.' && |ext| < |name| && '.' !in ext[1..])
  {
    var name := FileName(p);
    var dot := LastIndexOf(name, '.');
    var ext := Extension(p);
    if IsDotOrDotDot(name) || dot <= 0 {
      assert ext == [];
      assert name[|name|..] == [];
    } else {
      assert ext == name[dot..];
      assert |name| - |ext| == dot;
      assert ext == name[|name| - |ext|..];
      NoDotAfter(name, dot);
      assert ext[1..] == name[dot..][1..];
      assert ext[0] == name[dot] == '.';
    }
  }

  /** The special file names "." and "..". */
  predicate IsDotOrDotDot(name: string) {
    || (|name| == 1 && name[0] == '.')
    || (|name| == 2 && name[0] == '.' && name[1] == '.')
  }

  /** Past the last dot of a name there is no dot. */
  lemma NoDotAfter(name: string, dot: nat)
    requires dot < |name| && LastIndexOf(name, '.') == dot
    ensures '.' !in name[dot..][1..]
  {
    LastIndexOfIsLast(name, '.');
    var rest := name[dot..][1..];
    forall j | 0 <= j < |rest|
      ensures rest[j] != '.'
    {
      assert rest[j] == name[dot + 1 + j];
    }
  }

  /** Text free of `c` appended after `s` leaves the last `c` where it was. */
  lemma {:induction false} LastIndexOfAppend(s: string, t: string, c: char)
    requires c !in t
    ensures LastIndexOf(s + t, c) == LastIndexOf(s, c)
    decreases |t|
  {
    if t != [] {
      var t' := t[..|t| - 1];
      assert (s + t)[..|s + t| - 1] == s + t';
      LastIndexOfAppend(s, t', c);
    } else {
      assert s + t == s;
    }
  }

  /** Appending text without separators extends the file name by that text. */
  lemma FileNameAppend(stem: string, tail: string)
    requires '/' !in tail
    ensures FileName(stem + tail) == FileName(stem) + tail
  {
    LastIndexOfAppend(stem, tail, '/');
    var r := LastIndexOf(stem, '/');
    assert (stem + tail)[r + 1..] == stem[r + 1..] + tail;
  }

  /**
   * A path whose last component is a non-empty stem, a dot and a non-empty
   * suffix with neither dots nor separators has exactly that suffix, dot
   * included, as its extension.
   */
  lemma ExtensionOfStemAndSuffix(stem: string, suffix: string)
    requires stem != [] && stem[|stem| - 1] != '/'
    requires suffix != [] && '.' !in suffix && '/' !in suffix
    ensures Extension(stem + "." + suffix) == "." + suffix
  {
    var tail := "." + suffix;
    var p := stem + "." + suffix;
    var base := FileName(stem);
    var name := base + tail;
    assert FileName(p) == name by {
      assert p == stem + tail;
      assert '/' !in tail by {
        assert forall i :: 1 <= i < |tail| ==> tail[i] == suffix[i - 1];
      }
      FileNameAppend(stem, tail);
    }
    assert base != [] by {
      assert LastIndexOf(stem, '/') < |stem| - 1;
    }
    assert LastIndexOf(name, '.') == |base| by {
      var dotted := base + ".";
      assert name == dotted + suffix;
      assert LastIndexOf(dotted, '.') == |base| by {
        assert dotted[|dotted| - 1] == '.';
      }
      LastIndexOfAppend(dotted, suffix, '.');
    }
    assert !IsDotOrDotDot(name) by {
      assert |name| > 2;
    }
    assert name[|base|..] == tail;
  }
}
