// Keys and paths of the backup object store. A path is a sequence of nonempty, slash-free
// segments; a key is a string relative to the configured prefix.
module ObjectKeys {
  import opened Wrappers

  predicate Segment(s: string) { s != "" && '/' !in s }

  ghost predicate IsPath(p: seq<string>) { forall s :: s in p ==> Segment(s) }

  function FirstSlash(s: string): (i: nat)
    ensures i <= |s| && '/' !in s[..i]
    ensures i < |s| ==> s[i] == '/'
  {
    if s == "" || s[0] == '/' then 0 else
      var i := 1 + FirstSlash(s[1..]);
      assert s[..i] == [s[0]] + s[1..][..i - 1];
      i
  }

  // `Path::from`: splits at slashes and drops empty segments.
  function Pieces(s: string): (p: seq<string>)
    ensures IsPath(p)
    decreases |s|
  {
    if s == "" then [] else
      var i := FirstSlash(s);
      (if i > 0 then [s[..i]] else []) + (if i < |s| then Pieces(s[i + 1..]) else [])
  }

  // `Path::as_ref`: the segments joined by slashes.
  function Show(p: seq<string>): string {
    if p == [] then "" else if |p| == 1 then p[0] else p[0] + "/" + Show(p[1..])
  }

  function TrimSlashStart(s: string): (r: string)
    ensures r == "" || r[0] != '/'
  {
    if s != "" && s[0] == '/' then TrimSlashStart(s[1..]) else s
  }

  function TrimSlashEnd(s: string): (r: string)
    ensures r == "" || r[|r| - 1] != '/'
    ensures r <= s
  {
    if s != "" && s[|s| - 1] == '/' then TrimSlashEnd(s[..|s| - 1]) else s
  }

  function NormalizeOptionalPrefix(prefix: Option<string>): Option<string> {
    match prefix
    case None => None
    case Some(p) =>
      var t := TrimSlashEnd(TrimSlashStart(p));
      if t == "" then None else Some(t)
  }

  function JoinKey(prefix: Option<string>, key: string): string {
    var k := TrimSlashStart(key);
    match prefix
    case Some(p) => if k == "" then p else p + "/" + k
    case None => k
  }

  function FullPath(prefix: Option<string>, key: string): seq<string> { Pieces(JoinKey(prefix, key)) }

  function StripPrefix(prefix: Option<string>, location: string): string {
    match prefix
    case Some(p) => if p + "/" <= location then location[|p| + 1..] else location
    case None => location
  }

  // No empty segment: the string is the text of a path.
  predicate Canonical(s: string) { Show(Pieces(s)) == s }

  // The segment before the first slash comes first.
  lemma PiecesAtSlash(before: string, after: string)
    requires '/' !in before
    ensures Pieces(before + "/" + after) == (if before == "" then [] else [before]) + Pieces(after)
  {
    var s, i := before + "/" + after, |before|;
    assert s[i] == '/' && s[..i] == before && s[i + 1..] == after;
    assert FirstSlash(s) == i;
  }

  lemma Regroup(before: string, after: string, b: string)
    ensures before + "/" + after + "/" + b == before + "/" + (after + "/" + b)
  {
  }

  lemma {:induction false} PiecesJoin(a: string, b: string)
    ensures Pieces(a + "/" + b) == Pieces(a) + Pieces(b)
    decreases |a|
  {
    var i := FirstSlash(a);
    if i < |a| {
      var before, after := a[..i], a[i + 1..];
      assert a == before + "/" + after;
      Regroup(before, after, b);
      PiecesAtSlash(before, after);
      PiecesAtSlash(before, after + "/" + b);
      PiecesJoin(after, b);
    } else {
      assert a[..i] == a;
      PiecesAtSlash(a, b);
    }
  }

  lemma PiecesOfSegment(s: string)
    requires Segment(s)
    ensures Pieces(s) == [s]
  {
    assert s[..|s|] == s;
  }

  lemma {:induction false} PiecesShow(p: seq<string>)
    requires IsPath(p)
    ensures Pieces(Show(p)) == p
  {
    if p != [] {
      PiecesOfSegment(p[0]);
      if |p| > 1 {
        PiecesShow(p[1..]);
        PiecesJoin(p[0], Show(p[1..]));
      }
    }
  }

  lemma {:induction false} ShowAppend(p: seq<string>, q: seq<string>)
    requires p != [] && q != []
    ensures Show(p + q) == Show(p) + "/" + Show(q)
  {
    if |p| == 1 {
      assert (p + q)[1..] == q;
    } else {
      assert (p + q)[1..] == p[1..] + q;
      ShowAppend(p[1..], q);
      assert p[0] + "/" + (Show(p[1..]) + "/" + Show(q)) == p[0] + "/" + Show(p[1..]) + "/" + Show(q);
    }
  }

  lemma {:induction false} ShowNonempty(p: seq<string>)
    requires IsPath(p) && p != []
    ensures Show(p) != "" && Show(p)[0] != '/' && Show(p)[|Show(p)| - 1] != '/'
  {
    assert p[0] in p && p[0][0] in p[0] && p[0][|p[0]| - 1] in p[0];
    if |p| > 1 { ShowNonempty(p[1..]); }
  }

  lemma {:induction false} ShowPiecesShrinks(s: string)
    ensures |Show(Pieces(s))| <= |s|
    decreases |s|
  {
    if s != "" {
      var i := FirstSlash(s);
      if i < |s| {
        ShowPiecesShrinks(s[i + 1..]);
        var rest := Pieces(s[i + 1..]);
        if i > 0 && rest != [] { ShowAppend([s[..i]], rest); }
        if i == 0 { assert Pieces(s) == rest; }
        if rest == [] && i > 0 { assert Pieces(s) == [s[..i]]; }
      }
    }
  }

  lemma {:induction false} PiecesTrimStart(s: string)
    ensures Pieces(TrimSlashStart(s)) == Pieces(s)
  {
    if s != "" && s[0] == '/' {
      PiecesTrimStart(s[1..]);
      assert FirstSlash(s) == 0;
    }
  }

  // The path of a key is the prefix's segments followed by the key's.
  lemma FullPathPieces(prefix: Option<string>, key: string)
    ensures FullPath(prefix, key) == Pieces(prefix.GetOr("")) + Pieces(key)
  {
    PiecesTrimStart(key);
    if prefix.Some? && TrimSlashStart(key) != "" { PiecesJoin(prefix.value, TrimSlashStart(key)); }
  }

  // Stripping a joined nonempty key gives it back without its leading slashes.
  lemma StripJoin(prefix: Option<string>, key: string)
    requires TrimSlashStart(key) != ""
    ensures StripPrefix(prefix, JoinKey(prefix, key)) == TrimSlashStart(key)
  {
  }

  predicate AllSlashes(s: string) { forall i :: 0 <= i < |s| ==> s[i] == '/' }

  // A prefix is kept without the slashes before and after it, if anything is left.
  lemma NormalizeExact(before: string, text: string, after: string)
    requires AllSlashes(before) && AllSlashes(after)
    requires text != "" ==> text[0] != '/' && text[|text| - 1] != '/'
    ensures NormalizeOptionalPrefix(Some(before + text + after)) == if text == "" then None else Some(text)
  {
    if text == "" {
      assert before + text + after == (before + after) + "";
      StartTrimmed(before + after, "");
    } else {
      assert before + text + after == before + (text + after);
      StartTrimmed(before, text + after);
      EndTrimmed(text, after);
    }
  }

  lemma {:induction false} StartTrimmed(before: string, rest: string)
    requires AllSlashes(before) && (rest != "" ==> rest[0] != '/')
    ensures TrimSlashStart(before + rest) == rest
  {
    if before == "" {
      assert before + rest == rest;
    } else {
      assert (before + rest)[1..] == before[1..] + rest;
      StartTrimmed(before[1..], rest);
    }
  }

  lemma {:induction false} EndTrimmed(text: string, after: string)
    requires AllSlashes(after) && (text != "" ==> text[|text| - 1] != '/')
    ensures TrimSlashEnd(text + after) == text
  {
    if after == "" {
      assert text + after == text;
    } else {
      assert (text + after)[..|text + after| - 1] == text + after[..|after| - 1];
      EndTrimmed(text, after[..|after| - 1]);
    }
  }

  lemma NormalizeIdempotent(prefix: Option<string>)
    ensures NormalizeOptionalPrefix(NormalizeOptionalPrefix(prefix)) == NormalizeOptionalPrefix(prefix)
    ensures var n := NormalizeOptionalPrefix(prefix);
            n.Some? ==> n.value != "" && n.value[0] != '/' && n.value[|n.value| - 1] != '/'
  {
  }

  // Listing shows the full path, stripping yields the key; for a canonical prefix the key is
  // the text of the remaining segments and leads back to the very path that was listed.
  lemma ListedKey(prefix: Option<string>, rest: seq<string>)
    requires IsPath(rest) && rest != [] && (prefix.Some? ==> prefix.value != "" && Canonical(prefix.value))
    ensures var location := Pieces(prefix.GetOr("")) + rest;
            && StripPrefix(prefix, Show(location)) == Show(rest)
            && FullPath(prefix, Show(rest)) == location
  {
    if prefix.Some? { ShowAppend(Pieces(prefix.value), rest); }
    PiecesShow(rest);
    FullPathPieces(prefix, Show(rest));
  }

  // Text of a path never has two slashes in a row, a slash in front or a slash at the end.
  lemma {:induction false} CanonicalPrefix(a: string, b: string)
    requires Canonical(a + "/" + b) && b != ""
    ensures Canonical(a) && a != ""
  {
    var s := a + "/" + b;
    PiecesJoin(a, b);
    ShowPiecesShrinks(a);
    ShowPiecesShrinks(b);
    assert Pieces(a) == [] ==> Pieces(s) == Pieces(b);
    assert Pieces(b) == [] ==> Pieces(s) == Pieces(a);
    if Pieces(a) != [] && Pieces(b) != [] {
      ShowAppend(Pieces(a), Pieces(b));
      assert |Show(Pieces(a))| == |a|;
      assert Show(Pieces(a)) == s[..|a|] == a;
    }
  }

  // Below a prefix with an empty segment no listed location starts with the prefix.
  lemma NotLocatedUnder(prefix: string, location: seq<string>)
    requires !Canonical(prefix) && IsPath(location) && location != []
    ensures !(prefix + "/" <= Show(location))
  {
    var text := Show(location);
    PiecesShow(location);
    ShowNonempty(location);
    if prefix + "/" <= text {
      var rest := text[|prefix| + 1..];
      assert text == prefix + "/" + rest;
      if rest != "" { CanonicalPrefix(prefix, rest); }
    }
  }

  // Exactly the prefixes without an empty segment support the round trip: otherwise no key
  // is recovered from the location its object is listed under.
  lemma KeyRoundTripIff(prefix: string, key: string)
    requires NormalizeOptionalPrefix(Some(prefix)) == Some(prefix)
    requires Canonical(key) && key != ""
    ensures StripPrefix(Some(prefix), Show(FullPath(Some(prefix), key))) == key <==> Canonical(prefix)
  {
    FullPathPieces(Some(prefix), key);
    if Canonical(prefix) {
      ListedKey(Some(prefix), Pieces(key));
    } else {
      var location := FullPath(Some(prefix), key);
      NormalizeIdempotent(Some(prefix));
      FirstPiece(prefix);
      NotLocatedUnder(prefix, location);
      PiecesShow(location);
      assert |Pieces(Show(location))| > |Pieces(key)|;
    }
  }

  lemma FirstPiece(s: string)
    requires s != "" && s[0] != '/'
    ensures Pieces(s) != []
  {
  }

  // Whether a key lies in the directory of a backup id (`key.starts_with(prefix)`).
  predicate KeyUnder(id: string, key: string) { Directory(id) <= key }

  function Directory(id: string): string { TrimSlashEnd(id) + "/" }

  // All but the slashes an id ends in.
  ghost predicate Stem(id: string, stem: string) {
    stem <= id && (stem == "" || stem[|stem| - 1] != '/') && forall i :: |stem| <= i < |id| ==> id[i] == '/'
  }

  lemma {:induction false} TrimmedIsStem(id: string)
    ensures Stem(id, TrimSlashEnd(id))
  {
    if id != "" && id[|id| - 1] == '/' { TrimmedIsStem(id[..|id| - 1]); }
  }

  lemma StemIsOne(id: string, a: string, b: string)
    requires Stem(id, a) && Stem(id, b)
    ensures a == b
  {
    assert a == id[..|a|] && b == id[..|b|];
  }

  // The directory of an id holds the keys that start with the id, its last slashes apart, and one
  // slash.
  lemma KeyUnderExact(id: string, key: string)
    ensures KeyUnder(id, key) <==> exists stem: string, rest: string :: Stem(id, stem) && key == stem + "/" + rest
  {
    var dir := TrimSlashEnd(id);
    TrimmedIsStem(id);
    if KeyUnder(id, key) { assert key == dir + "/" + key[|dir| + 1..]; }
    forall stem: string, rest: string | Stem(id, stem) && key == stem + "/" + rest ensures dir + "/" <= key {
      StemIsOne(id, stem, dir);
      assert (stem + "/" + rest)[..|stem| + 1] == stem + "/";
    }
  }

  // A key in an id's directory is listed when that directory is listed.
  lemma KeyUnderIsListed(id: string, rest: seq<string>)
    requires IsPath(rest) && rest != [] && KeyUnder(id, Show(rest))
    ensures Pieces(Directory(id)) < rest
  {
    var dir, key := TrimSlashEnd(id), Show(rest);
    var tail := key[|dir| + 1..];
    assert key == dir + "/" + tail;
    assert dir + "/" == dir + "/" + "";
    PiecesJoin(dir, tail);
    PiecesJoin(dir, "");
    PiecesShow(rest);
    if Pieces(tail) == [] {
      assert rest == Pieces(dir);
      ShowPiecesShrinks(dir);
      assert false;
    }
  }
}
