/**
 * The POSIX path functions the application calls: `os.path.dirname`,
 * `os.path.basename`, `os.path.splitext` and `os.path.join`, with the
 * meaning of Python's `posixpath` module.
 */
module Paths {

  /** `s.rfind(c)`: the index of the last `c` in `s`, or -1. */
  function LastIndex(s: string, c: char): (r: int)
    ensures -1 <= r < |s|
    ensures r >= 0 ==> s[r] == c
    ensures forall i :: r < i < |s| ==> s[i] != c
  {
    if s == [] then -1
    else if s[|s| - 1] == c then |s| - 1
    else LastIndex(s[..|s| - 1], c)
  }

  /** Every character of `s` is `c`. */
  predicate AllChar(s: string, c: char) {
    s == [] || (s[0] == c && AllChar(s[1..], c))
  }

  lemma {:induction false} AllCharAt(s: string, c: char, i: nat)
    requires AllChar(s, c) && i < |s|
    ensures s[i] == c
  {
    if i > 0 { AllCharAt(s[1..], c, i - 1); }
  }

  /** A string that is not all `c` has a character other than `c`. */
  lemma {:induction false} NotAllCharWitness(s: string, c: char) returns (m: nat)
    requires !AllChar(s, c)
    ensures m < |s| && s[m] != c
  {
    if s[0] == c {
      m := NotAllCharWitness(s[1..], c);
      m := m + 1;
    } else {
      m := 0;
    }
  }

  /** `s.rstrip(c)` for a single character `c`. */
  function RStripChar(s: string, c: char): (r: string)
    ensures |r| <= |s| && r == s[..|r|]
    ensures forall i :: |r| <= i < |s| ==> s[i] == c
    ensures r == [] || r[|r| - 1] != c
  {
    if s == [] || s[|s| - 1] != c then s
    else
      var t := s[..|s| - 1];
      RStripChar(t, c)
  }

  /** `os.path.basename(p)`: everything after the last '/'. */
  function BaseName(p: string): (r: string)
    ensures '/' !in r
    ensures |r| <= |p| && p == p[..|p| - |r|] + r
    ensures |r| < |p| ==> p[|p| - |r| - 1] == '/'
  {
    var r := p[LastIndex(p, '/') + 1..];
    assert p == p[..|p| - |r|] + r;
    r
  }

  /**
   * `os.path.dirname(p)`: everything up to the last '/', with trailing
   * slashes removed unless the head consists of slashes only.
   */
  function DirName(p: string): (r: string)
    ensures '/' !in p ==> r == ""
    ensures |r| <= |p| && r == p[..|r|]
    ensures LastIndex(p, '/') >= 0 ==>
              && r != ""
              && |r| <= LastIndex(p, '/') + 1
              && forall i :: |r| <= i <= LastIndex(p, '/') ==> p[i] == '/'
    ensures r != "" && r[|r| - 1] == '/' ==> AllChar(r, '/') && |r| == LastIndex(p, '/') + 1
  {
    var head := p[..LastIndex(p, '/') + 1];
    if head != [] && !AllChar(head, '/') then
      NotAllCharHas(head, '/');
      RStripChar(head, '/')
    else head
  }

  /** A string that is not all `c` has some character other than `c`. */
  lemma NotAllCharHas(s: string, c: char)
    requires !AllChar(s, c)
    ensures exists m :: 0 <= m < |s| && s[m] != c
  {
    var m := NotAllCharWitness(s, c);
  }

  /** `os.path.join(a, b)` for two components. */
  function Join(a: string, b: string): (r: string)
    ensures |b| <= |r|
    ensures |b| > 0 && b[0] == '/' ==> r == b
    ensures !(|b| > 0 && b[0] == '/') ==> a <= r && |r| <= |a| + 1 + |b| && r[|r| - |b|..] == b
    ensures a != [] && a[|a| - 1] != '/' && !(|b| > 0 && b[0] == '/') ==> |a| < |r| && r[|a|] == '/'
    ensures !(|b| > 0 && b[0] == '/') ==> |r| == |a| + |b| + (if a != [] && a[|a| - 1] != '/' then 1 else 0)
  {
    if |b| > 0 && b[0] == '/' then b
    else if a == [] || a[|a| - 1] == '/' then a + b
    else a + "/" + b
  }

  /**
   * Joining a directory that does not end in '/' with a plain file name
   * and splitting the result again gives back both parts.
   */
  lemma JoinSplit(dir: string, name: string)
    requires dir != [] && dir[|dir| - 1] != '/'
    requires name != [] && '/' !in name
    ensures Join(dir, name) == dir + "/" + name
    ensures BaseName(Join(dir, name)) == name
    ensures DirName(Join(dir, name)) == dir
  {
    var p := Join(dir, name);
    assert p == dir + "/" + name;
    assert LastIndex(p, '/') == |dir| by {
      assert p[|dir|] == '/';
      assert forall i :: |dir| < i < |p| ==> p[i] == name[i - |dir| - 1];
    }
    var head := p[..|dir| + 1];
    assert head == dir + "/";
    assert !AllChar(head, '/') by {
      if AllChar(head, '/') { AllCharAt(head, '/', |dir| - 1); }
    }
    assert RStripChar(head, '/') == dir by {
      assert head[..|head| - 1] == dir;
    }
  }

  /** An extension as `splitext` returns it: empty, or one leading '.' and no other '.' or '/'. */
  predicate IsExtension(ext: string) {
    && (ext != "" ==> ext[0] == '.')
    && (forall i :: 0 <= i < |ext| ==> ext[i] != '/')
    && (forall i :: 1 <= i < |ext| ==> ext[i] != '.')
  }

  /** The tail from the last '.', when it follows the last '/', is an extension. */
  lemma TailIsExtension(p: string, d: nat)
    requires d < |p| && p[d] == '.'
    requires forall i :: d < i < |p| ==> p[i] != '.' && p[i] != '/'
    ensures p[..d] + p[d..] == p
    ensures IsExtension(p[d..])
  {
    var ext := p[d..];
    forall i | 0 <= i < |ext| ensures ext[i] == p[d + i] { }
  }

  /**
   * `os.path.splitext(p)`: the extension starts at the last '.' after the
   * last '/', unless only dots precede it in that last component (a name
   * such as ".bashrc"), in which case there is no extension.
   */
  function SplitExt(p: string): (parts: (string, string))
    ensures parts.0 + parts.1 == p
    ensures IsExtension(parts.1)
    ensures parts.1 != "" ==> |parts.0| == LastIndex(p, '.')
  {
    var sepIndex := LastIndex(p, '/');
    var dotIndex := LastIndex(p, '.');
    if dotIndex > sepIndex && !AllChar(p[sepIndex + 1..dotIndex], '.') then
      TailIsExtension(p, dotIndex);
      (p[..dotIndex], p[dotIndex..])
    else
      (p, "")
  }

  /** No '/' at or after index `i`: position `i` lies in the last path component. */
  predicate NoSlashFrom(p: string, i: nat) {
    forall k :: i <= k < |p| ==> p[k] != '/'
  }

  /** The last component has a '.' that some character other than '.' precedes. */
  predicate HasExtension(p: string) {
    exists i: nat, j: nat :: i < j < |p| && p[i] != '.' && p[j] == '.' && NoSlashFrom(p, i)
  }

  /** An extension that `splitext` returns has a witness in the last component. */
  lemma ExtensionHasWitness(p: string)
    requires SplitExt(p).1 != ""
    ensures HasExtension(p)
  {
    var sepIndex := LastIndex(p, '/');
    var dotIndex := LastIndex(p, '.');
    var m := NotAllCharWitness(p[sepIndex + 1..dotIndex], '.');
    var i: nat := sepIndex + 1 + m;
    assert p[i] != '.' && p[dotIndex] == '.';
    assert NoSlashFrom(p, i);
  }

  /** A '.' after a character other than '.', both in the last component, makes `splitext` find an extension. */
  lemma WitnessGivesExtension(p: string, i: nat, j: nat)
    requires i < j < |p| && p[i] != '.' && p[j] == '.' && NoSlashFrom(p, i)
    ensures SplitExt(p).1 != ""
  {
    var sepIndex := LastIndex(p, '/');
    var dotIndex := LastIndex(p, '.');
    assert j <= dotIndex;
    assert sepIndex < i;
    assert !AllChar(p[sepIndex + 1..dotIndex], '.') by {
      if AllChar(p[sepIndex + 1..dotIndex], '.') {
        AllCharAt(p[sepIndex + 1..dotIndex], '.', i - sepIndex - 1);
      }
    }
  }

  /**
   * `splitext` finds an extension exactly when the last component has a
   * '.' with a character other than '.' somewhere before it.
   */
  lemma SplitExtFindsExtension(p: string)
    ensures SplitExt(p).1 != "" <==> HasExtension(p)
  {
    if SplitExt(p).1 != "" {
      ExtensionHasWitness(p);
    } else if HasExtension(p) {
      var i: nat, j: nat :| i < j < |p| && p[i] != '.' && p[j] == '.' && NoSlashFrom(p, i);
      WitnessGivesExtension(p, i, j);
    }
  }
}
