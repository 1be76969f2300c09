/** StringExt.ToPath and DoubleExt.ToRange: the file-name sanitiser used to build
    log-file names, and the clamp. Both copies of StringExt.ToPath in the
    repository have the same body, so it is modelled once. */
module Extensions {
  import opened Strings

  /** Path.GetInvalidFileNameChars() on Windows: the control characters
      U+0000 to U+001F and " < > | : * ? \ / */
  const InvalidFileNameChars: set<char> := {
    '\U{0}', '\U{1}', '\U{2}', '\U{3}', '\U{4}', '\U{5}', '\U{6}', '\U{7}',
    '\U{8}', '\U{9}', '\U{A}', '\U{B}', '\U{C}', '\U{D}', '\U{E}', '\U{F}',
    '\U{10}', '\U{11}', '\U{12}', '\U{13}', '\U{14}', '\U{15}', '\U{16}', '\U{17}',
    '\U{18}', '\U{19}', '\U{1A}', '\U{1B}', '\U{1C}', '\U{1D}', '\U{1E}', '\U{1F}',
    '"', '<', '>', '|', ':', '*', '?', '\\', '/'
  }

  /** No character of s is one that a file name may not hold. */
  predicate IsSafe(s: string) {
    Avoids(s, InvalidFileNameChars)
  }

  predicate Avoids(s: string, seps: set<char>) {
    forall k :: 0 <= k < |s| ==> s[k] !in seps
  }

  function RemoveEmpty(xs: seq<string>): (r: seq<string>)
    ensures |r| <= |xs|
    ensures forall k :: 0 <= k < |r| ==> r[k] != ""
  {
    if xs == [] then []
    else if xs[0] == "" then RemoveEmpty(xs[1..])
    else [xs[0]] + RemoveEmpty(xs[1..])
  }

  /** The pieces that s.Split(seps, StringSplitOptions.RemoveEmptyEntries) returns. */
  function PiecesOn(s: string, seps: set<char>): seq<string> {
    RemoveEmpty(SplitOn(s, seps))
  }

  function Pieces(s: string): seq<string> {
    PiecesOn(s, InvalidFileNameChars)
  }

  /** StringExt.ToPath: the pieces of s between invalid characters, joined with `replacement`. */
  function ToPath(s: string, replacement: string := "-"): string {
    Join(Pieces(s), replacement)
  }

  /** DoubleExt.ToRange: Math.Max(min, Math.Min(self, max)). */
  function ToRange(self: real, min: real, max: real): (r: real)
    ensures r >= min
    ensures min <= max ==> min <= r <= max
    ensures min <= self <= max ==> r == self
    ensures min > max ==> r == min
    ensures self < min ==> r == min
    ensures min <= max < self ==> r == max
  {
    var low := if self < max then self else max;
    if min > low then min else low
  }

  lemma ToRangeIdempotent(self: real, min: real, max: real)
    ensures ToRange(ToRange(self, min, max), min, max) == ToRange(self, min, max)
  {
  }

  // ---- what the pieces hold ----

  function Concat(xs: seq<string>): string {
    if xs == [] then "" else xs[0] + Concat(xs[1..])
  }

  /** The characters of s outside seps, in order. */
  function Kept(s: string, seps: set<char>): (r: string)
    ensures |r| <= |s|
  {
    if s == [] then ""
    else (if s[0] in seps then "" else [s[0]]) + Kept(s[1..], seps)
  }

  function CountIn(s: string, seps: set<char>): nat {
    if s == [] then 0
    else (if s[0] in seps then 1 else 0) + CountIn(s[1..], seps)
  }

  lemma {:induction false} KeptCount(s: string, seps: set<char>)
    ensures |Kept(s, seps)| + CountIn(s, seps) == |s|
  {
    if s != [] {
      KeptCount(s[1..], seps);
    }
  }

  lemma {:induction false} KeptEmpty(s: string, seps: set<char>)
    ensures Kept(s, seps) == "" <==> forall k :: 0 <= k < |s| ==> s[k] in seps
  {
    if s != [] {
      KeptEmpty(s[1..], seps);
      if s[0] in seps {
        forall k | 0 < k < |s| ensures (s[k] in seps) == (s[1..][k - 1] in seps) {
        }
      } else {
        assert Kept(s, seps)[0] == s[0];
      }
    }
  }

  lemma {:induction false} ConcatSplit(s: string, seps: set<char>)
    ensures Concat(SplitOn(s, seps)) == Kept(s, seps)
  {
    if s != [] {
      var rest := SplitOn(s[1..], seps);
      ConcatSplit(s[1..], seps);
      if s[0] in seps {
        assert ([""] + rest)[1..] == rest;
      } else {
        var r := [[s[0]] + rest[0]] + rest[1..];
        assert r[1..] == rest[1..];
        assert Concat(rest) == rest[0] + Concat(rest[1..]);
      }
    }
  }

  lemma {:induction false} SplitCount(s: string, seps: set<char>)
    ensures |SplitOn(s, seps)| == CountIn(s, seps) + 1
  {
    if s != [] {
      SplitCount(s[1..], seps);
    }
  }

  lemma {:induction false} ConcatRemoveEmpty(xs: seq<string>)
    ensures Concat(RemoveEmpty(xs)) == Concat(xs)
  {
    if xs != [] {
      ConcatRemoveEmpty(xs[1..]);
      if xs[0] != "" {
        assert ([xs[0]] + RemoveEmpty(xs[1..]))[1..] == RemoveEmpty(xs[1..]);
      }
    }
  }

  lemma {:induction false} RemoveEmptyAppend(a: seq<string>, b: seq<string>)
    ensures RemoveEmpty(a + b) == RemoveEmpty(a) + RemoveEmpty(b)
  {
    if a == [] {
      assert a + b == b;
    } else {
      assert (a + b)[0] == a[0];
      assert (a + b)[1..] == a[1..] + b;
      RemoveEmptyAppend(a[1..], b);
    }
  }

  lemma {:induction false} PieceIsField(xs: seq<string>, k: nat)
    requires k < |RemoveEmpty(xs)|
    ensures RemoveEmpty(xs)[k] in xs
  {
    if xs[0] == "" {
      PieceIsField(xs[1..], k);
    } else if k > 0 {
      PieceIsField(xs[1..], k - 1);
    }
  }

  /** The pieces hold exactly the characters of s outside seps, in order, and each is
      non-empty and free of seps. */
  lemma PiecesKeep(s: string, seps: set<char>)
    ensures Concat(PiecesOn(s, seps)) == Kept(s, seps)
    ensures forall k :: 0 <= k < |PiecesOn(s, seps)| ==>
      PiecesOn(s, seps)[k] != "" && Avoids(PiecesOn(s, seps)[k], seps)
  {
    ConcatSplit(s, seps);
    ConcatRemoveEmpty(SplitOn(s, seps));
    var p := PiecesOn(s, seps);
    forall k | 0 <= k < |p| ensures Avoids(p[k], seps) {
      PieceIsField(SplitOn(s, seps), k);
    }
  }

  lemma {:induction false} ConcatEmpty(xs: seq<string>)
    requires forall k :: 0 <= k < |xs| ==> xs[k] != ""
    ensures Concat(xs) == "" <==> xs == []
  {
    if xs != [] {
      assert |Concat(xs)| >= |xs[0]| > 0;
    }
  }

  lemma {:induction false} JoinEmpty(xs: seq<string>, sep: string)
    requires forall k :: 0 <= k < |xs| ==> xs[k] != ""
    ensures Join(xs, sep) == "" <==> xs == []
  {
    if |xs| > 1 {
      assert |Join(xs, sep)| >= |xs[0]|;
    }
  }

  lemma {:induction false} JoinAvoids(xs: seq<string>, sep: string, seps: set<char>)
    requires Avoids(sep, seps)
    requires forall k :: 0 <= k < |xs| ==> Avoids(xs[k], seps)
    ensures Avoids(Join(xs, sep), seps)
  {
    if |xs| > 1 {
      JoinAvoids(xs[1..], sep, seps);
      var j := Join(xs[1..], sep);
      var r := xs[0] + sep + j;
      forall k | 0 <= k < |r| ensures r[k] !in seps {
        if k < |xs[0]| {
          assert r[k] == xs[0][k];
        } else if k < |xs[0]| + |sep| {
          assert r[k] == sep[k - |xs[0]|];
        } else {
          assert r[k] == j[k - |xs[0]| - |sep|];
        }
      }
    }
  }

  lemma {:induction false} JoinLength(xs: seq<string>, sep: string)
    requires |xs| >= 1
    ensures |Join(xs, sep)| == |Concat(xs)| + (|xs| - 1) * |sep|
  {
    if |xs| > 1 {
      JoinLength(xs[1..], sep);
    }
  }

  /** A non-empty run of separators splits the pieces before it from those after it,
      and adds no piece of its own. */
  lemma {:induction false} PiecesAcrossRun(u: string, w: string, v: string, seps: set<char>)
    requires w != "" && forall k :: 0 <= k < |w| ==> w[k] in seps
    ensures PiecesOn(u + w + v, seps) == PiecesOn(u, seps) + PiecesOn(v, seps)
    decreases |w|
  {
    var rest := w[1..];
    assert u + w + v == u + [w[0]] + (rest + v);
    SplitOnConcat(u, w[0], rest + v, seps);
    RemoveEmptyAppend(SplitOn(u, seps), SplitOn(rest + v, seps));
    if rest == "" {
      assert rest + v == v;
    } else {
      PiecesAcrossRun("", rest, v, seps);
      assert "" + rest + v == rest + v;
      assert PiecesOn("", seps) == [];
    }
  }

  // ---- the properties of ToPath ----

  /** The default replacement is itself safe. */
  lemma DashIsSafe()
    ensures IsSafe("-")
  {
    assert "-"[0] == '-';
  }

  /** With a safe replacement, ToPath never produces a character a file name may not hold. */
  lemma ToPathIsSafe(s: string, replacement: string)
    requires IsSafe(replacement)
    ensures IsSafe(ToPath(s, replacement))
  {
    PiecesKeep(s, InvalidFileNameChars);
    JoinAvoids(Pieces(s), replacement, InvalidFileNameChars);
  }

  /** ToPath gives the empty string exactly when s holds no character a file name may hold. */
  lemma ToPathEmpty(s: string, replacement: string)
    ensures ToPath(s, replacement) == "" <==> forall k :: 0 <= k < |s| ==> s[k] in InvalidFileNameChars
  {
    PiecesKeep(s, InvalidFileNameChars);
    ConcatEmpty(Pieces(s));
    JoinEmpty(Pieces(s), replacement);
    KeptEmpty(s, InvalidFileNameChars);
  }

  /** A non-empty string that is already a valid file name is returned unchanged. */
  lemma ToPathKeepsSafe(s: string, replacement: string)
    requires s != "" && IsSafe(s)
    ensures ToPath(s, replacement) == s
  {
    SplitOnNoSeparator(s, InvalidFileNameChars);
    assert RemoveEmpty([s]) == [s];
  }

  /** Sanitising twice gives what sanitising once gave. */
  lemma ToPathIdempotent(s: string, replacement: string)
    requires IsSafe(replacement)
    ensures ToPath(ToPath(s, replacement), replacement) == ToPath(s, replacement)
  {
    var r := ToPath(s, replacement);
    ToPathIsSafe(s, replacement);
    if r == "" {
      assert Pieces("") == [];
    } else {
      ToPathKeepsSafe(r, replacement);
    }
  }

  /** With a one-character replacement (the default "-") the result is never longer than s. */
  lemma ToPathNoLonger(s: string, replacement: string)
    requires |replacement| == 1
    ensures |ToPath(s, replacement)| <= |s|
  {
    var p := Pieces(s);
    if p != [] {
      PiecesKeep(s, InvalidFileNameChars);
      JoinLength(p, replacement);
      SplitCount(s, InvalidFileNameChars);
      KeptCount(s, InvalidFileNameChars);
    }
  }

  /** Each run of invalid characters between valid text becomes exactly one replacement. */
  lemma ToPathRun(u: string, w: string, v: string, replacement: string)
    requires w != "" && forall k :: 0 <= k < |w| ==> w[k] in InvalidFileNameChars
    requires ToPath(u, replacement) != "" && ToPath(v, replacement) != ""
    ensures ToPath(u + w + v, replacement) == ToPath(u, replacement) + replacement + ToPath(v, replacement)
  {
    PiecesAcrossRun(u, w, v, InvalidFileNameChars);
    JoinAppend(Pieces(u), Pieces(v), replacement);
  }

  /** Leading and trailing runs of invalid characters are dropped. */
  lemma ToPathDropsEnds(w: string, s: string, replacement: string)
    requires forall k :: 0 <= k < |w| ==> w[k] in InvalidFileNameChars
    ensures ToPath(w + s, replacement) == ToPath(s, replacement)
    ensures ToPath(s + w, replacement) == ToPath(s, replacement)
  {
    if w != "" {
      assert Pieces("") == [];
      PiecesAcrossRun("", w, s, InvalidFileNameChars);
      assert "" + w + s == w + s;
      assert [] + Pieces(s) == Pieces(s);
      PiecesAcrossRun(s, w, "", InvalidFileNameChars);
      assert s + w + "" == s + w;
      assert Pieces(s) + [] == Pieces(s);
    } else {
      assert w + s == s && s + w == s;
    }
  }
}
