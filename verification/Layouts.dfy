// The two translations of a store between keys and paths, for every configured prefix.
module Layouts {
  import opened Wrappers
  import opened ObjectKeys

  type Path = seq<string>

  // `strip_prefix` of a listed path and `full_path` of a key, and where the store's keys begin.
  datatype Layout = Layout(root: Path, keyOf: Path -> string, pathOf: string -> Path)

  function LayoutOf(prefix: Option<string>): Layout {
    Layout(Pieces(prefix.GetOr("")),
           (p: Path) => StripPrefix(prefix, Show(p)),
           (key: string) => FullPath(prefix, key))
  }

  ghost predicate Below(layout: Layout, p: Path) { IsPath(p) && layout.root < p }

  // What holds for every prefix: listing starts at or below the root, different paths have
  // different keys, and what a key leads to is below the root.
  ghost predicate Sound(layout: Layout) {
    && layout.pathOf("") == layout.root
    && (forall arg :: layout.root <= layout.pathOf(arg))
    && (forall p :: Below(layout, p) ==> layout.root < layout.pathOf(layout.keyOf(p)))
    && (forall p, q :: Below(layout, p) && Below(layout, q) && layout.keyOf(p) == layout.keyOf(q) ==> p == q)
  }

  // The key of a listed path leads back to it, and listing an id's directory misses no key of
  // that directory.
  ghost predicate Faithful(layout: Layout) {
    && (forall p :: Below(layout, p) ==> layout.pathOf(layout.keyOf(p)) == p)
    && (forall id, p :: Below(layout, p) && KeyUnder(id, layout.keyOf(p)) ==> layout.pathOf(Directory(id)) < p)
  }

  predicate Normalized(prefix: Option<string>) { NormalizeOptionalPrefix(prefix) == prefix }

  lemma KeyLeadsBack(prefix: Option<string>, p: Path)
    requires prefix.Some? ==> prefix.value != "" && Canonical(prefix.value)
    requires IsPath(p) && Pieces(prefix.GetOr("")) < p
    ensures FullPath(prefix, StripPrefix(prefix, Show(p))) == p
    ensures StripPrefix(prefix, Show(p)) == Show(p[|Pieces(prefix.GetOr(""))|..])
  {
    var root := Pieces(prefix.GetOr(""));
    var rest := p[|root|..];
    assert p == root + rest;
    ListedKey(prefix, rest);
  }

  lemma KeyUnderLeadsBelow(prefix: Option<string>, p: Path, id: string)
    requires prefix.Some? ==> prefix.value != "" && Canonical(prefix.value)
    requires IsPath(p) && Pieces(prefix.GetOr("")) < p
    requires KeyUnder(id, StripPrefix(prefix, Show(p)))
    ensures Pieces(prefix.GetOr("")) + Pieces(Directory(id)) < p
  {
    var root := Pieces(prefix.GetOr(""));
    KeyLeadsBack(prefix, p);
    KeyUnderIsListed(id, p[|root|..]);
    assert p == root + p[|root|..];
  }

  // Below a prefix with an empty segment keys are whole locations, and lead elsewhere.
  lemma KeyIsLocation(prefix: string, p: Path)
    requires !Canonical(prefix) && IsPath(p) && p != []
    ensures StripPrefix(Some(prefix), Show(p)) == Show(p)
    ensures FullPath(Some(prefix), Show(p)) == Pieces(prefix) + p
  {
    NotLocatedUnder(prefix, p);
    FullPathPieces(Some(prefix), Show(p));
    PiecesShow(p);
  }

  // A prefix without empty segments gives a faithful layout.
  lemma CanonicalPrefixIsFaithful(prefix: Option<string>)
    requires prefix.Some? ==> prefix.value != "" && Canonical(prefix.value)
    ensures Faithful(LayoutOf(prefix))
  {
    var layout := LayoutOf(prefix);
    forall p | Below(layout, p)
      ensures layout.pathOf(layout.keyOf(p)) == p
      ensures forall id :: KeyUnder(id, layout.keyOf(p)) ==> layout.pathOf(Directory(id)) < p
    {
      KeyLeadsBack(prefix, p);
      forall id | KeyUnder(id, layout.keyOf(p)) ensures layout.pathOf(Directory(id)) < p {
        KeyUnderLeadsBelow(prefix, p, id);
        FullPathPieces(prefix, Directory(id));
      }
    }
  }

  lemma KeyOfListed(prefix: Option<string>, p: Path)
    requires prefix.Some? ==> prefix.value != ""
    requires Below(LayoutOf(prefix), p)
    ensures var layout := LayoutOf(prefix);
            if prefix.Some? && !Canonical(prefix.value)
            then layout.keyOf(p) == Show(p) && layout.pathOf(layout.keyOf(p)) == layout.root + p
            else layout.pathOf(layout.keyOf(p)) == p
  {
    if prefix.Some? && !Canonical(prefix.value) {
      KeyIsLocation(prefix.value, p);
    } else {
      KeyLeadsBack(prefix, p);
    }
  }

  // Every normalised prefix gives a sound layout.
  lemma EveryPrefixIsSound(prefix: Option<string>)
    requires Normalized(prefix)
    ensures Sound(LayoutOf(prefix))
  {
    var layout := LayoutOf(prefix);
    forall arg ensures layout.pathOf(arg) == layout.root + Pieces(arg) {
      FullPathPieces(prefix, arg);
    }
    assert Pieces("") == [];
    forall p | Below(layout, p) ensures layout.root < layout.pathOf(layout.keyOf(p)) {
      KeyOfListed(prefix, p);
    }
    forall p, q | Below(layout, p) && Below(layout, q) && layout.keyOf(p) == layout.keyOf(q) ensures p == q {
      KeyOfListed(prefix, p);
      KeyOfListed(prefix, q);
      PiecesShow(p);
      PiecesShow(q);
    }
  }

  // And a faithful one exactly if it has no empty segment.
  lemma FaithfulIff(prefix: Option<string>)
    requires Normalized(prefix)
    ensures Faithful(LayoutOf(prefix)) <==> prefix.None? || Canonical(prefix.value)
  {
    if prefix.None? || Canonical(prefix.value) {
      CanonicalPrefixIsFaithful(prefix);
    } else {
      var layout := LayoutOf(prefix);
      var p := layout.root + ["x"];
      NormalizeIdempotent(prefix);
      FirstPiece(prefix.value);
      KeyIsLocation(prefix.value, p);
      assert Below(layout, p) && |layout.pathOf(layout.keyOf(p))| > |p|;
    }
  }
}
