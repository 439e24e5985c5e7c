/** String functions of Go's standard library the core relies on: `path.Base`,
    `strings.Contains`, the byte-for-byte `string([]byte)` conversion and the
    ASCII part of `bytes.ToLower`. */
module Text {
  import opened Prelude

  /** The text after the last '/', or all of `p` when it has none. */
  function LastSegment(p: string): (r: string)
    ensures '/' !in r
    ensures |r| <= |p| && r == p[|p| - |r|..]
    ensures |r| < |p| ==> p[|p| - |r| - 1] == '/'
  {
    if |p| == 0 || p[|p| - 1] == '/' then ""
    else LastSegment(p[..|p| - 1]) + [p[|p| - 1]]
  }

  /** `p` without its trailing slashes. */
  function StripTrailingSlashes(p: string): (r: string)
    ensures |r| <= |p| && r == p[..|r|]
    ensures forall i | |r| <= i < |p| :: p[i] == '/'
    ensures |r| > 0 ==> r[|r| - 1] != '/'
  {
    if |p| > 0 && p[|p| - 1] == '/' then StripTrailingSlashes(p[..|p| - 1]) else p
  }

  /** Go's `path.Base`: the last element of a slash-separated path, ignoring
      trailing slashes; "." for the empty path and "/" for a path of slashes. */
  function PathBase(p: string): (r: string)
    ensures |r| > 0
    ensures p == "" ==> r == "."
    ensures r == "/" || r == "." || '/' !in r
    ensures r == "/" <==> p != "" && forall i | 0 <= i < |p| :: p[i] == '/'
    ensures StripTrailingSlashes(p) != "" ==> r == LastSegment(StripTrailingSlashes(p))
  {
    if p == "" then "."
    else
      var seg := LastSegment(StripTrailingSlashes(p));
      if seg == "" then "/" else seg
  }

  /** The base of a name joined under a directory is the name itself. */
  lemma PathBaseOfJoin(dir: string, name: string)
    requires name != "" && '/' !in name
    ensures PathBase(dir + "/" + name) == name
  {
    var p := dir + "/" + name;
    assert StripTrailingSlashes(p) == p by {
      assert p[|p| - 1] == name[|name| - 1];
    }
    var seg := LastSegment(p);
    assert |seg| >= |name|;
    assert p[|p| - |name| - 1] == '/';
    assert |seg| <= |name|;
    assert p[|p| - |name|..] == name;
  }

  /** A name without slashes is its own base. */
  lemma PathBaseOfName(name: string)
    requires name != "" && '/' !in name
    ensures PathBase(name) == name
  {
    assert StripTrailingSlashes(name) == name by {
      assert name[|name| - 1] in name;
    }
  }

  /** Trailing slashes never change the base. */
  lemma PathBaseIgnoresTrailingSlash(p: string)
    requires p != ""
    ensures PathBase(p + "/") == PathBase(p)
  {
    var q := p + "/";
    assert q[|q| - 1] == '/';
    assert q[..|q| - 1] == p;
    assert StripTrailingSlashes(q) == StripTrailingSlashes(p);
  }

  /** `strings.Contains(s, sub)`: `sub` occurs at some position of `s`. */
  predicate Contains(s: string, sub: string)
  {
    exists i | 0 <= i <= |s| - |sub| :: OccursAt(s, sub, i)
  }

  predicate OccursAt(s: string, sub: string, i: int)
    requires 0 <= i <= |s| - |sub|
  {
    s[i..i + |sub|] == sub
  }

  /** The search `strings.Contains` performs, left to right. */
  function Search(s: string, sub: string): (r: bool)
    ensures r <==> Contains(s, sub)
    decreases |s|
  {
    if |sub| <= |s| && s[..|sub|] == sub then
      assert s[0..0 + |sub|] == s[..|sub|];
      assert OccursAt(s, sub, 0);
      true
    else if |sub| >= |s| then
      assert !Contains(s, sub) by {
        if |sub| == |s| {
          assert s[0..|sub|] == s[..|sub|];
        }
      }
      false
    else
      ContainsShift(s, sub);
      Search(s[1..], sub)
  }

  /** When `sub` is not a prefix of a longer `s`, it occurs in `s` exactly
      when it occurs in `s` without its first character. */
  lemma ContainsShift(s: string, sub: string)
    requires |sub| < |s| && s[..|sub|] != sub
    ensures Contains(s, sub) <==> Contains(s[1..], sub)
  {
    if Contains(s[1..], sub) {
      var i :| 0 <= i <= |s| - 1 - |sub| && OccursAt(s[1..], sub, i);
      assert s[i + 1..i + 1 + |sub|] == s[1..][i..i + |sub|];
      assert OccursAt(s, sub, i + 1);
    }
    if Contains(s, sub) {
      var i :| 0 <= i <= |s| - |sub| && OccursAt(s, sub, i);
      assert i != 0 by {
        assert s[0..|sub|] == s[..|sub|];
      }
      assert s[1..][i - 1..i - 1 + |sub|] == s[i..i + |sub|];
      assert OccursAt(s[1..], sub, i - 1);
    }
  }

  /** The empty string occurs in every string. */
  lemma ContainsEmpty(s: string)
    ensures Contains(s, "")
  {
    assert OccursAt(s, "", 0);
  }

  /** Go's `string(b)` for a byte slice: the same bytes, read as text. */
  function OfBytes(b: seq<byte>): (r: string)
    ensures |r| == |b|
    ensures forall i | 0 <= i < |b| :: r[i] as int == b[i] as int
  {
    seq(|b|, i requires 0 <= i < |b| => b[i] as int as char)
  }

  /** The conversion keeps every byte: the text determines the bytes. */
  lemma OfBytesInjective(a: seq<byte>, b: seq<byte>)
    requires OfBytes(a) == OfBytes(b)
    ensures a == b
  {
    assert |a| == |b|;
    forall i | 0 <= i < |a| ensures a[i] == b[i] {
      assert OfBytes(a)[i] == OfBytes(b)[i];
    }
  }

  function LowerChar(c: char): char {
    if 'A' <= c <= 'Z' then (c as int + 32) as char else c
  }

  /** ASCII lower-casing, character by character. */
  function Lower(s: string): (r: string)
    ensures |r| == |s|
    ensures forall i | 0 <= i < |s| :: r[i] == LowerChar(s[i])
  {
    seq(|s|, i requires 0 <= i < |s| => LowerChar(s[i]))
  }
}
