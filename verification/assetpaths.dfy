/** Choosing assets of one kind for new schedule entries, and an asset's length in GoPs. */
module AssetPaths {
  import opened Wrappers
  import opened Types
  import opened GoInt

  /** Go's `strings.Contains`: `sub` occurs in `s` (the empty string occurs in every string). */
  predicate Contains(s: string, sub: string)
    decreases |s|
  {
    sub <= s || (s != [] && Contains(s[1..], sub))
  }

  /** `sub` occurs in `s` starting at index `i`. */
  predicate OccursAt(s: string, sub: string, i: int)
  {
    0 <= i <= |s| - |sub| && s[i..i + |sub|] == sub
  }

  /** `Contains` agrees with "some slice of `s` equals `sub`". */
  lemma {:induction false} ContainsIffOccurs(s: string, sub: string)
    ensures Contains(s, sub) <==> exists i :: OccursAt(s, sub, i)
  {
    if s == [] {
      if sub == [] {
        assert OccursAt(s, sub, 0);
      }
    } else {
      ContainsIffOccurs(s[1..], sub);
      if sub <= s {
        assert OccursAt(s, sub, 0);
      }
      if Contains(s[1..], sub) {
        var i :| OccursAt(s[1..], sub, i);
        assert s[i + 1..i + 1 + |sub|] == s[1..][i..i + |sub|];
        assert OccursAt(s, sub, i + 1);
      }
      if exists i :: OccursAt(s, sub, i) {
        var i :| OccursAt(s, sub, i);
        if i > 0 {
          assert s[1..][i - 1..i - 1 + |sub|] == s[i..i + |sub|];
          assert OccursAt(s[1..], sub, i - 1);
        }
      }
    }
  }

  /** The directory name that marks an asset of `kind`: "/programs/", "/ads/", ... */
  function KindSubPath(kind: string): string
  {
    "/" + kind + "s/"
  }

  predicate IsOfKind(a: AssetPath, kind: string)
  {
    Contains(a.path, KindSubPath(kind))
  }

  /** The assets of `kind`, in the order they have in `assetPaths`. */
  function Candidates(assetPaths: seq<AssetPath>, kind: string): (c: seq<AssetPath>)
    ensures |c| <= |assetPaths|
  {
    if assetPaths == [] then []
    else
      var rest := Candidates(assetPaths[..|assetPaths| - 1], kind);
      var last := assetPaths[|assetPaths| - 1];
      if IsOfKind(last, kind) then rest + [last] else rest
  }

  /** An asset is a candidate exactly when it is in the list and has the kind. */
  lemma {:induction false} CandidatesMembers(assetPaths: seq<AssetPath>, kind: string)
    ensures forall a :: a in Candidates(assetPaths, kind) <==> a in assetPaths && IsOfKind(a, kind)
  {
    if assetPaths != [] {
      var init := assetPaths[..|assetPaths| - 1];
      CandidatesMembers(init, kind);
      assert assetPaths == init + [assetPaths[|assetPaths| - 1]];
    }
  }

  /**
   * Every occurrence of an asset of the kind is kept and no other one: an
   * asset listed twice is a candidate twice.
   */
  lemma {:induction false} CandidatesCounts(assetPaths: seq<AssetPath>, kind: string)
    ensures forall a :: multiset(Candidates(assetPaths, kind))[a] == if IsOfKind(a, kind) then multiset(assetPaths)[a] else 0
  {
    if assetPaths != [] {
      var init, last := assetPaths[..|assetPaths| - 1], assetPaths[|assetPaths| - 1];
      CandidatesCounts(init, kind);
      assert assetPaths == init + [last];
    }
  }

  /** `xs` is `ys` with some elements left out (order kept). */
  predicate IsSubsequence<T(==)>(xs: seq<T>, ys: seq<T>)
    decreases |ys|
  {
    xs == [] ||
    (ys != [] &&
     ((xs[|xs| - 1] == ys[|ys| - 1] && IsSubsequence(xs[..|xs| - 1], ys[..|ys| - 1])) ||
      IsSubsequence(xs, ys[..|ys| - 1])))
  }

  /** Filtering keeps the relative order of the asset list. */
  lemma {:induction false} CandidatesInOrder(assetPaths: seq<AssetPath>, kind: string)
    ensures IsSubsequence(Candidates(assetPaths, kind), assetPaths)
  {
    if assetPaths != [] {
      var init := assetPaths[..|assetPaths| - 1];
      var rest := Candidates(init, kind);
      CandidatesInOrder(init, kind);
      if IsOfKind(assetPaths[|assetPaths| - 1], kind) {
        assert (rest + [assetPaths[|assetPaths| - 1]])[..|rest|] == rest;
      }
    }
  }

  /**
   * The entry `randomEntry` builds: an asset of `kind` picked from the
   * candidates by `draw` (the source draws `rand.Intn(len(candidates))`;
   * `draw % len` ranges over the same indexes), with the requested offset,
   * length and SCTE event id. No candidate is an error.
   */
  function PickEntry(assetPaths: seq<AssetPath>, kind: string, offset: int, len: int, scteID: int, draw: nat)
    : (r: Result<Entry, Error>)
    ensures r.Err? <==> forall a :: a in assetPaths ==> !IsOfKind(a, kind)
    ensures r.Err? ==> r.error == NoSuchAssetKind(kind)
    ensures r.Ok? ==> exists a :: a in assetPaths && IsOfKind(a, kind) && r.value == Entry(a.id, a.id, offset, len, scteID)
  {
    var c := Candidates(assetPaths, kind);
    CandidatesMembers(assetPaths, kind);
    if |c| == 0 then
      assert forall a :: a in assetPaths ==> !IsOfKind(a, kind);
      Err(NoSuchAssetKind(kind))
    else
      var asset := c[draw % |c|];
      assert asset in c;
      Ok(Entry(asset.id, asset.id, offset, len, scteID))
  }

  /** Every candidate can be chosen: the draw that names its index picks it. */
  lemma {:induction false} EveryCandidatePickable(assetPaths: seq<AssetPath>, kind: string, k: nat,
                                                  offset: int, len: int, scteID: int)
    requires k < |Candidates(assetPaths, kind)|
    ensures var a := Candidates(assetPaths, kind)[k];
            PickEntry(assetPaths, kind, offset, len, scteID, k) == Ok(Entry(a.id, a.id, offset, len, scteID))
  {
    assert k % |Candidates(assetPaths, kind)| == k;
  }

  /** `randomEntry`: collects the candidates in a loop, then builds the entry. */
  method RandomEntry(assetPaths: seq<AssetPath>, kind: string, offset: int, len: int, scteID: int, draw: nat)
    returns (r: Result<Entry, Error>)
    ensures r == PickEntry(assetPaths, kind, offset, len, scteID, draw)
  {
    var selectedAssets: seq<AssetPath> := [];
    var subPath := "/" + kind + "s/";
    for i := 0 to |assetPaths|
      invariant selectedAssets == Candidates(assetPaths[..i], kind)
    {
      assert assetPaths[..i + 1][..i] == assetPaths[..i];
      if Contains(assetPaths[i].path, subPath) {
        selectedAssets := selectedAssets + [assetPaths[i]];
      }
    }
    assert assetPaths[..|assetPaths|] == assetPaths;
    if |selectedAssets| == 0 {
      return Err(NoSuchAssetKind(kind));
    }
    var asset := selectedAssets[draw % |selectedAssets|];
    return Ok(Entry(asset.id, asset.id, offset, len, scteID));
  }

  /**
   * The arithmetic of `getAssetLen`: the number of whole GoPs in the content,
   * with a zero content duration or GoP duration reported as an error.
   */
  function AssetLen(contentDurationMS: int, gopDurationMS: int): (r: Result<int, Error>)
    ensures r.Ok? <==> contentDurationMS != 0 && gopDurationMS != 0
    ensures r == Err(ContentDurationMissing) <==> contentDurationMS == 0
    ensures r == Err(GopDurationMissing) <==> contentDurationMS != 0 && gopDurationMS == 0
    ensures r.Ok? && contentDurationMS > 0 && gopDurationMS > 0 ==>
              0 <= r.value && r.value * gopDurationMS <= contentDurationMS < (r.value + 1) * gopDurationMS
  {
    if contentDurationMS == 0 then Err(ContentDurationMissing)
    else if gopDurationMS == 0 then Err(GopDurationMissing)
    else
      var q := Quo(contentDurationMS, gopDurationMS);
      assert contentDurationMS > 0 && gopDurationMS > 0 ==> 0 <= q && q * gopDurationMS <= contentDurationMS < (q + 1) * gopDurationMS by {
        if gopDurationMS > 0 { QuoBrackets(contentDurationMS, gopDurationMS); }
      }
      Ok(q)
  }
}
