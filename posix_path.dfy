/** Node's `path.basename` for POSIX paths, which the handler applies to the
    client's file name before building a storage path: trailing slashes are
    dropped, then whatever follows the last remaining slash is the name. */
module PosixPath {

  /** The path without its trailing run of slashes. */
  function StripTrailingSlashes(p: string): string {
    if p != [] && p[|p| - 1] == '/' then StripTrailingSlashes(p[..|p| - 1]) else p
  }

  /** The longest suffix of `p` that holds no slash. */
  function AfterLastSlash(p: string): string {
    if p == [] || p[|p| - 1] == '/' then [] else AfterLastSlash(p[..|p| - 1]) + [p[|p| - 1]]
  }

  /** `path.basename(p)`: a name without a slash, no longer than `p`. */
  function Basename(p: string): (b: string)
    ensures '/' !in b && |b| <= |p|
  {
    StripTrailingSlashesSpec(p);
    AfterLastSlashSpec(StripTrailingSlashes(p));
    AfterLastSlash(StripTrailingSlashes(p))
  }

  /** Stripping keeps a prefix that does not end in a slash, and drops only
      slashes. */
  lemma {:induction false} StripTrailingSlashesSpec(p: string)
    ensures var r := StripTrailingSlashes(p);
      && |r| <= |p| && r == p[..|r|]
      && (r == [] || r[|r| - 1] != '/')
      && forall i :: |r| <= i < |p| ==> p[i] == '/'
    decreases |p|
  {
    if p != [] && p[|p| - 1] == '/' {
      StripTrailingSlashesSpec(p[..|p| - 1]);
    }
  }

  /** The part after the last slash is a slash-free suffix, preceded in `p`
      by a slash unless it is all of `p`. */
  lemma {:induction false} AfterLastSlashSpec(p: string)
    ensures var r := AfterLastSlash(p);
      && |r| <= |p| && r == p[|p| - |r|..]
      && '/' !in r
      && (|r| < |p| ==> p[|p| - |r| - 1] == '/')
    decreases |p|
  {
    if p != [] && p[|p| - 1] != '/' {
      var init, c := p[..|p| - 1], p[|p| - 1];
      AfterLastSlashSpec(init);
      var r0 := AfterLastSlash(init);
      var r := r0 + [c];
      assert AfterLastSlash(p) == r;
      assert r == p[|p| - |r|..] by {
        assert r0 == p[|init| - |r0|..|init|];
      }
      assert '/' !in r;
    }
  }

  /** A name that holds no slash is its own basename. */
  lemma {:induction false} BasenameOfPlainName(p: string)
    requires '/' !in p
    ensures Basename(p) == p
    decreases |p|
  {
    if p != [] {
      var init := p[..|p| - 1];
      assert '/' !in init by {
        forall i | 0 <= i < |init| ensures init[i] != '/' {
          assert init[i] == p[i];
        }
      }
      BasenameOfPlainName(init);
      assert init == p[..|p| - 1];
    }
  }

  /** Whatever precedes the last slash, the part after it is recovered. */
  lemma {:induction false} AfterLastSlashOfJoin(dir: string, name: string)
    requires '/' !in name
    ensures AfterLastSlash(dir + "/" + name) == name
    decreases |name|
  {
    var p := dir + "/" + name;
    if name != [] {
      assert p[..|p| - 1] == dir + "/" + name[..|name| - 1];
      AfterLastSlashOfJoin(dir, name[..|name| - 1]);
      assert name == name[..|name| - 1] + [name[|name| - 1]];
    }
  }
}
