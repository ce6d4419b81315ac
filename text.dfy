/** The parts of Unreal's `FString` and `FPaths` that the plugin's rules rely on.
    `Contains`, `StartsWith`, `EndsWith`, `RemoveFromStart` and `RemoveFromEnd`
    default to a case-insensitive comparison in the engine, which folds only
    the ASCII letters; `Equals` defaults to a case-sensitive comparison, which
    is plain `==` here. */
module Text {

  /** Upper-case an ASCII letter; every other character is left as it is. */
  function ToUpper(c: char): (u: char)
  {
    if 'a' <= c <= 'z' then (c as int - 32) as char else c
  }

  /** Equality up to ASCII case. */
  predicate EqualsIgnoreCase(a: string, b: string)
  {
    |a| == |b| && forall i :: 0 <= i < |a| ==> ToUpper(a[i]) == ToUpper(b[i])
  }

  /** `FString::StartsWith` with the default case-insensitive search; an
      empty prefix is never a match, as in the engine. */
  predicate StartsWith(s: string, prefix: string)
  {
    0 < |prefix| <= |s| && EqualsIgnoreCase(s[..|prefix|], prefix)
  }

  /** `FString::EndsWith` with the default case-insensitive search; an
      empty suffix is never a match, as in the engine. */
  predicate EndsWith(s: string, suffix: string)
  {
    0 < |suffix| <= |s| && EqualsIgnoreCase(s[|s| - |suffix|..], suffix)
  }

  /** `FString::Contains` with the default case-insensitive search:
      `sub` occurs in `s` at some position, up to ASCII case. */
  predicate Contains(s: string, sub: string)
  {
    exists i :: 0 <= i <= |s| - |sub| && OccursAt(s, sub, i)
  }

  /** `sub` appears in `s` at position `i`, up to ASCII case. */
  predicate OccursAt(s: string, sub: string, i: int)
  {
    0 <= i <= |s| - |sub| && EqualsIgnoreCase(s[i..i + |sub|], sub)
  }

  /** `FString::RemoveFromStart`: drop `prefix` when `s` starts with it. */
  function RemoveFromStart(s: string, prefix: string): (r: string)
  {
    if |prefix| > 0 && StartsWith(s, prefix) then s[|prefix|..] else s
  }

  /** `FString::RemoveFromEnd`: drop `suffix` when `s` ends with it. */
  function RemoveFromEnd(s: string, suffix: string): (r: string)
  {
    if |suffix| > 0 && EndsWith(s, suffix) then s[..|s| - |suffix|] else s
  }

  /** The decimal digit for `d < 10`. */
  function Digit(d: nat): (c: char)
    requires d < 10
  {
    ('0' as int + d) as char
  }

  /** `FString::FromInt` on a non-negative value: its decimal digits. */
  function FromInt(n: nat): (r: string)
    ensures |r| >= 1
    ensures forall i :: 0 <= i < |r| ==> '0' <= r[i] <= '9'
    ensures |r| > 1 <==> n >= 10
  {
    if n < 10 then [Digit(n)] else FromInt(n / 10) + [Digit(n % 10)]
  }

  predicate IsPathSeparator(c: char)
  {
    c == '/' || c == '\\'
  }

  /** `FPaths::Combine` of two parts: a `/` is inserted unless the first part
      is empty or already ends with a separator, or the second starts with `/`. */
  function CombinePath(dir: string, name: string): (path: string)
  {
    if |dir| > 0 && !IsPathSeparator(dir[|dir| - 1]) && !(|name| > 0 && name[0] == '/')
    then dir + "/" + name
    else dir + name
  }

  /** `FPaths::GetCleanFilename`: what follows the last path separator. */
  function CleanFilename(path: string): (r: string)
    ensures |r| <= |path| && r == path[|path| - |r|..]
    ensures forall i :: 0 <= i < |r| ==> !IsPathSeparator(r[i])
  {
    if |path| == 0 then []
    else if IsPathSeparator(path[|path| - 1]) then []
    else CleanFilename(path[..|path| - 1]) + [path[|path| - 1]]
  }

  /** Position of the last `c` in `s`, or -1 when there is none. */
  function LastIndexOf(s: string, c: char): (r: int)
    ensures -1 <= r < |s|
    ensures r >= 0 ==> s[r] == c
    ensures forall j :: r < j < |s| ==> s[j] != c
  {
    if |s| == 0 then -1
    else if s[|s| - 1] == c then |s| - 1
    else LastIndexOf(s[..|s| - 1], c)
  }

  /** `FPaths::GetBaseFilename`: the clean file name without its extension
      (everything from the last `.` on). */
  function BaseFilename(path: string): (r: string)
    ensures forall i :: 0 <= i < |r| ==> !IsPathSeparator(r[i])
    ensures r <= CleanFilename(path)
  {
    var leaf := CleanFilename(path);
    var dot := LastIndexOf(leaf, '.');
    if dot >= 0 then leaf[..dot] else leaf
  }

  // ---------------------------------------------------------------- lemmas

  /** Whatever follows the prefix, the name starts with it. */
  lemma StartsWithConcat(prefix: string, rest: string)
    requires |prefix| > 0
    ensures StartsWith(prefix + rest, prefix)
  {
    assert (prefix + rest)[..|prefix|] == prefix;
  }

  /** A needle found in `s` carries every one of its own prefixes with it:
      if `s` contains `b` and `b` starts with `a`, then `s` contains `a`. */
  lemma ContainsNeedlePrefix(s: string, a: string, b: string)
    requires Contains(s, b) && StartsWith(b, a)
    ensures Contains(s, a)
  {
    var i :| 0 <= i <= |s| - |b| && OccursAt(s, b, i);
    forall k | 0 <= k < |a|
      ensures ToUpper(s[i..i + |a|][k]) == ToUpper(a[k])
    {
      assert s[i..i + |a|][k] == s[i..i + |b|][k];
      assert b[..|a|][k] == b[k];
    }
    assert OccursAt(s, a, i);
  }

  /** The longer needle `a + ext` is subsumed by `a`. */
  lemma ContainsLonger(s: string, a: string, ext: string)
    requires |a| > 0 && Contains(s, a + ext)
    ensures Contains(s, a)
  {
    StartsWithConcat(a, ext);
    ContainsNeedlePrefix(s, a, a + ext);
  }

  /** Decimal strings are distinct for distinct numbers. */
  lemma {:induction false} FromIntInjective(a: nat, b: nat)
    requires FromInt(a) == FromInt(b)
    ensures a == b
  {
    var sa, sb := FromInt(a), FromInt(b);
    if a >= 10 && b >= 10 {
      assert sa[..|sa| - 1] == FromInt(a / 10);
      assert sb[..|sb| - 1] == FromInt(b / 10);
      FromIntInjective(a / 10, b / 10);
      assert sa[|sa| - 1] == Digit(a % 10);
      assert sb[|sb| - 1] == Digit(b % 10);
    }
  }

  /** A path whose last part holds no separator cleans to that part. */
  lemma {:induction false} CleanFilenameOfLeaf(dir: string, leaf: string)
    requires forall i :: 0 <= i < |leaf| ==> !IsPathSeparator(leaf[i])
    ensures CleanFilename(dir + "/" + leaf) == leaf
  {
    var p := dir + "/" + leaf;
    if |leaf| == 0 {
      assert p[|p| - 1] == '/';
    } else {
      var n := |leaf| - 1;
      assert p[..|p| - 1] == dir + "/" + leaf[..n];
      CleanFilenameOfLeaf(dir, leaf[..n]);
      assert leaf[..n] + [leaf[n]] == leaf;
    }
  }

  /** An asset object path `/Dir/Name.Name` has base file name `Name`. */
  lemma BaseFilenameOfObjectPath(dir: string, name: string)
    requires forall i :: 0 <= i < |name| ==> !IsPathSeparator(name[i]) && name[i] != '.'
    ensures BaseFilename(dir + "/" + name + "." + name) == name
  {
    var leaf := name + "." + name;
    assert dir + "/" + name + "." + name == dir + "/" + leaf;
    CleanFilenameOfLeaf(dir, leaf);
    var dot := LastIndexOf(leaf, '.');
    assert leaf[|name|] == '.';
    assert dot == |name|;
    assert leaf[..|name|] == name;
  }
}
