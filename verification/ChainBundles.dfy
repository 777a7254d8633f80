/** Bundle freshness over whole runs of Regenerate on several trees that may share bundle files. */
module ChainBundles {
  import opened Pki
  import opened Tree
  import opened Layout
  import opened Renewal
  import opened Regeneration
  import opened Chains
  import opened BundleFiles
  import opened BundleFreshness

  /** What the tree claims once its root has been renewed: the renewed root goes by the signer's name, whatever
      name it was created with. */
  ghost function RenewedClaims(n: Node): set<Claim> {
    ClaimsAs(NodeShape(n), CN(n.name), CN(n.name))
  }

  ghost function AllClaims(n: Node): set<Claim> {
    NodeClaims(n) + RenewedClaims(n)
  }

  ghost predicate TreeClashFree(n: Node) {
    ClashFree(n) && NoClashAs(NodeShape(n), CN(n.name), CN(n.name))
  }

  /** No two signers, of one tree or of two, maintain the same (subject, issuer) entry of the same bundle. */
  ghost predicate NoClashes(cs: Chains) {
    && (forall k :: k in cs ==> TreeClashFree(cs[k]))
    && (forall k, l :: k in cs && l in cs && k != l ==> AllClaims(cs[k]) !! AllClaims(cs[l]))
  }

  ghost predicate AllBundlesFresh(cs: Chains, f: map<Path, File>) {
    forall k :: k in cs ==> BundlesFresh(cs[k], f)
  }

  lemma TreeReplaced(cs: Chains, k: string, n: Node, w: World, w': World)
    requires Intact(cs, w) && NoClashes(cs) && AllBundlesFresh(cs, w.files) && k in cs
    requires NodeShape(n) == NodeShape(cs[k]) && BundlesFresh(n, w'.files)
    requires KeepsOthers(w.files, w'.files, NodeShape(cs[k]), NodeClaims(n))
    requires n.ca == cs[k].ca || n.ca.cert.subject == n.ca.cert.issuerName == CN(n.name)
    ensures NoClashes(cs[k := n]) && AllBundlesFresh(cs[k := n], w'.files)
  {
    hide BundlesFresh, ClaimsAs, NodeShape, NoClashAs, Bundles, KeepsOthers, RootOnDisk, LaidOut, Nested;
    var cs' := cs[k := n];
    DirOf(n);
    DirOf(cs[k]);
    assert RootHealthy(cs, k, w);
    assert TreeClashFree(cs[k]);
    assert AllClaims(n) <= AllClaims(cs[k]);
    forall l | l in cs' ensures BundlesFresh(cs'[l], w'.files) {
      if l != k {
        assert RootHealthy(cs, l, w) && Separate(NodeShape(cs[k]), NodeShape(cs[l]));
        SoundNamed(cs[l], w.files, w.next);
        FreshKept(cs[l], w.files, w'.files, NodeShape(cs[k]), NodeClaims(n));
      }
    }
  }

  /** A successful Regenerate leaves every registered bundle holding its signer's current certificate. */
  lemma RegenerateKeepsFresh(cs: Chains, path: Path, ch: Choices, w: World)
    requires Intact(cs, w) && NoClashes(cs) && AllBundlesFresh(cs, w.files)
    requires ChainsPossible(cs, path, ch) && RegenerateChains(cs, path, ch, w).COk?
    ensures NoClashes(RegenerateChains(cs, path, ch, w).cs)
    ensures AllBundlesFresh(RegenerateChains(cs, path, ch, w).cs, RegenerateChains(cs, path, ch, w).w.files)
  {
    hide NoClashes, AllBundlesFresh, Sound, LaidOut, KeepsOthers, NodeShape, NoClashAs, ClaimsAs, Nested, RenewAll;
    var k := path[0];
    RegenerateExact(cs, path, ch, w);
    assert RootHealthy(cs, k, w);
    TreeFacts(cs, k, w);
    var n: Node, w': World;
    if |path| == 1 {
      assert path == [k] && path[1..] == [];
      n, w' := RenewAllBundles(cs[k], ch, w);
    } else {
      n, w' := RegenerateBundles(cs[k], path[1..], ch, w);
      var m, w1 := RegenerateSound(cs[k], path[1..], ch, w);
      assert m == n;
      SameClaims(cs[k], n);
    }
    assert NodeShape(n) == NodeShape(cs[k]) by {
      assert SameShapes(cs, cs[k := n]);
    }
    DirOf(n);
    DirOf(cs[k]);
    TreeReplaced(cs, k, n, w, w');
  }

  lemma SameClaims(n: Node, n': Node)
    requires n'.ca == n.ca && NodeShape(n') == NodeShape(n)
    ensures NodeClaims(n') == NodeClaims(n)
  {
  }

  lemma TreeFacts(cs: Chains, k: string, w: World)
    requires NoClashes(cs) && AllBundlesFresh(cs, w.files) && k in cs
    ensures BundlesFresh(cs[k], w.files) && ClashFree(cs[k])
    ensures NoClashAs(NodeShape(cs[k]), CN(cs[k].name), CN(cs[k].name))
  {
  }

  /** Bundle freshness over whole runs. */
  lemma {:induction false} RunKeepsFresh(cs: Chains, w: World, calls: seq<Call>, cs': Chains, w': World)
    requires Intact(cs, w) && NoClashes(cs) && AllBundlesFresh(cs, w.files) && Run(cs, w, calls, cs', w')
    ensures NoClashes(cs') && AllBundlesFresh(cs', w'.files)
    decreases |calls|
  {
    if calls != [] {
      hide Intact, NoClashes, AllBundlesFresh;
      hide RegenerateChains, ChainsPossible;
      var c, w0 := calls[0], w.(now := calls[0].now);
      var cs1, w1 := RunStep(cs, w, calls, cs', w');
      IntactAnyTime(cs, w, c.now);
      RegenerateExact(cs, c.path, c.choices, w0);
      RegenerateKeepsFresh(cs, c.path, c.choices, w0);
      RunKeepsFresh(cs1, w1, calls[1..], cs', w');
    }
  }
}
