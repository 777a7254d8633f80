/** What a start-up, completion followed by the renewal of everything due, makes of each certificate asked for. */
module StartUp {
  import opened Base
  import opened Pki
  import opened Tree
  import opened Rebuilding
  import opened Layout
  import opened Completion
  import opened Regeneration
  import opened Chains
  import opened ChainSetup
  import opened Walk
  import opened Rotation
  import opened Validity
  import opened Requests
  import opened Leftovers
  import opened Reusable
  import opened Provenance

  /** Completing the builder leads from `w` to trees on which `calls` are the renewals of the loop; they lead to `cs`
      and `w'`. */
  ghost predicate StartsUp(b: Builder, regs: seq<Registration>, w: World, calls: seq<Call>, cs: Chains, w': World)
    requires b.caInfo.Some?
  {
    var o := CompleteChains([b], regs, w);
    o.COk? && InitCalls(o.cs, w.now, calls) && Run(o.cs, o.w, calls, cs, w')
  }

  /** The validity asked for at a path: a root is created with its CAInfo's and renewed for its own. */
  ghost function CreationDays(b: Builder, q: Path): int
    requires b.caInfo.Some?
  {
    if q != [] then DaysAt(BuilderShape(b), q) else CADays(b.caInfo.value.days)
  }

  ghost function RenewalDays(s: Shape, q: Path): int {
    if q != [] then DaysAt(s, q) else CADays(s.days)
  }

  /** The disk holds a certificate for the request that is due; for a peer certificate nobody looks. */
  ghost predicate DueOnDisk(s: Shape, p: Path, w: World) {
    Resolves(s, p) && !PeerAt(s, p) && Held(s, p, w.files).Some? && Due(Held(s, p, w.files).value.cert, w.now)
  }

  /** The certificate of the request, or of some signer above it, is due. */
  ghost predicate ToRenew(s: Shape, q: Path, w: World) {
    exists p :: p <= q && DueOnDisk(s, p, w)
  }

  /** What the start-up does about the request at `q`: nothing due at or above it, the certificate on disk stays and a
      missing one is issued; otherwise it is issued anew, except that a peer certificate on disk is lost. */
  ghost predicate Outcome(b: Builder, q: Path, w: World, w': World)
    requires b.caInfo.Some?
  {
    var s := BuilderShape(b);
    var before, after := Held(s, q, w.files), Held(s, q, w'.files);
    if !ToRenew(s, q, w) then Kept(before, after, w.next, w.now, CreationDays(b, q))
    else if PeerAt(s, q) && before.Some? then after == None
    else after.Some? && Renewed(after.value.cert, w.next, w.now, RenewalDays(s, q))
  }

  /* ---- completion ---- */

  /** Everything is set for a start-up. */
  ghost predicate Prepared(b: Builder, regs: seq<Registration>, w: World) {
    && TopsReady([b], w) && TopsApart([b]) && RegistrationsFor([b], regs, w.files) && LongTops([b])
    && b.caInfo.Some? && CADays(b.caInfo.value.days) >= SAFE_DAYS
  }

  lemma CompletedHeld(b: Builder, regs: seq<Registration>, w: World, cs: Chains, w1: World, q: Path)
    requires Prepared(b, regs, w) && CompleteChains([b], regs, w) == COk(cs, w1) && Resolves(BuilderShape(b), q)
    ensures Kept(Held(BuilderShape(b), q, w.files), Held(BuilderShape(b), q, w1.files), w.next, w.now,
                 CreationDays(b, q))
  {
    hide TopsReady, RegistrationsFor, CompleteChains, BuilderShape, LongTops, AllKept, GetRoot, Resolves;
    CompleteChainsKept(b, regs, w, cs, w1);
    BuilderDir(b);
    if q != [] {
      KeptAt(BuilderShape(b), q, w.files, w1.files, w.next, w.now);
    }
  }

  /** The tree after completion: one root, recording what was asked for. */
  ghost predicate Completed(b: Builder, regs: seq<Registration>, w: World, cs: Chains) {
    && cs.Keys == {b.name}
    && NodeShape(cs[b.name]) == WithBundles(Recorded(BuilderShape(b), w.files), [b.name], Listing(regs))
  }

  lemma CompletedTree(b: Builder, regs: seq<Registration>, w: World) returns (cs: Chains, w1: World)
    requires Prepared(b, regs, w)
    ensures CompleteChains([b], regs, w) == COk(cs, w1) && Intact(cs, w1) && Completed(b, regs, w, cs)
    ensures w.next <= w1.next && w1.now == w.now && LaidOut(BuilderShape(b))
    ensures Covers(BuilderShape(b), NodeShape(cs[b.name]))
    ensures ValidityOk(cs)
  {
    hide TopsReady, RegistrationsFor, CompleteChains, BuilderShape, LongTops, NodeShape, WithBundles, Recorded, Intact;
    hide LaidOut, Covers;
    hide RootBuilder, Within, TreesCompleted, ValidityOk, OnlyRegistered, RootCompleted;
    SingleTop(b, w);
    var _, _, cs0, w0 := CompleteSingle(b, regs, w);
    cs, w1 := cs0, w0;
    TreeCovers(b, Listing(regs), cs, w.files);
    CompletedValidityOk([b], regs, w);
  }

  lemma SameCompleted(b: Builder, regs: seq<Registration>, w: World, cs: Chains, cs': Chains)
    requires Completed(b, regs, w, cs) && SameShapes(cs, cs')
    ensures Completed(b, regs, w, cs')
  {
  }

  /** In memory is what is on disk. */
  lemma RecordedHeld(b: Builder, regs: seq<Registration>, w: World, cs: Chains, w1: World, q: Path)
    requires Completed(b, regs, w, cs) && Intact(cs, w1) && LaidOut(BuilderShape(b))
    ensures var s := BuilderShape(b);
            && (ChainCertAt(cs, [b.name] + q).Some? <==>
                  Resolves(s, q) && !(PeerAt(s, q) && HeldBelow(s, q, w.files).Some?))
            && (ChainCertAt(cs, [b.name] + q).Some? ==>
                  && Held(s, q, w1.files).Some?
                  && Held(s, q, w1.files).value.cert == ChainCertAt(cs, [b.name] + q).value
                  && ChainDaysAt(cs, [b.name] + q) == RenewalDays(s, q))
  {
    hide BuilderShape, NodeShape, WithBundles, Recorded, LaidOut, Sound, Bundles, Within;
    var s, n := BuilderShape(b), cs[b.name];
    assert ([b.name] + q)[1..] == q;
    assert RootHealthy(cs, b.name, w1);
    RecordedAt(s, w.files, [b.name], Listing(regs), q);
    CertAtResolves(n, q);
    NodeDays(n);
    RootShape(s, w.files, [b.name], Listing(regs));
    if q != [] && CertAt(n, q).Some? {
      SoundHeld(n, q, w1.files, w1.next);
    }
  }

  lemma NodeDays(n: Node)
    ensures NodeShape(n).dir == n.dir && NodeShape(n).days == n.days
  {
  }

  lemma RootShape(s: Shape, f: map<Path, File>, at: Path, regs: set<Registration>)
    ensures var r := WithBundles(Recorded(s, f), at, regs); r.dir == s.dir && r.days == s.days
  {
  }

  /* ---- what is listed ---- */

  /** A fresh certificate is not due. */
  lemma KeptDue(before: Option<Tls>, after: Option<Tls>, lo: nat, now: int, days: int)
    requires Kept(before, after, lo, now, days) && days >= SAFE_DAYS
    ensures after.Some? && (Due(after.value.cert, now) <==> before.Some? && Due(before.value.cert, now))
  {
    if before == None {
      FreshDueIff(after.value.cert, lo, now, days);
    }
  }

  lemma LongEnough(b: Builder, regs: seq<Registration>, w: World, cs: Chains, w1: World, q: Path)
    requires Prepared(b, regs, w) && Completed(b, regs, w, cs) && Intact(cs, w1) && LaidOut(BuilderShape(b))
    requires ValidityOk(cs)
    requires ChainCertAt(cs, [b.name] + q).Some?
    ensures CreationDays(b, q) >= SAFE_DAYS
  {
    hide Completed, BuilderShape, LaidOut, Resolves, PeerAt, HeldBelow, Held, TopsReady, RegistrationsFor, LongTops;
    RecordedHeld(b, regs, w, cs, w1, q);
    assert ([b.name] + q)[0] == b.name;
  }

  /** The paths listed after completion are those due on the disk before. */
  lemma ListedIffDueOnDisk(b: Builder, regs: seq<Registration>, w: World, cs: Chains, w1: World, p: Path)
    requires Prepared(b, regs, w) && CompleteChains([b], regs, w) == COk(cs, w1)
    ensures [b.name] + p in CertsToRegenerate(AllVisits(cs), w.now) <==> DueOnDisk(BuilderShape(b), p, w)
  {
    hide TopsReady, RegistrationsFor, LongTops, Completed, CompleteChains, AllVisits, Resolves, PeerAt, HeldBelow;
    hide BuilderShape, Kept, LaidOut;
    hide Covers, ValidityOk, CreationDays, RenewalDays, ChainCertAt, Due, ChainDaysAt;
    var s := BuilderShape(b);
    var _, _ := CompletedTree(b, regs, w);
    ListedIffDue(cs, w.now, [b.name] + p);
    RecordedHeld(b, regs, w, cs, w1, p);
    if ChainCertAt(cs, [b.name] + p).Some? {
      CompletedHeld(b, regs, w, cs, w1, p);
      LongEnough(b, regs, w, cs, w1, p);
      KeptDue(Held(s, p, w.files), Held(s, p, w1.files), w.next, w.now, CreationDays(b, p));
      PeerHeld(s, p, w.files);
    } else {
      PeerHeld(s, p, w.files);
    }
  }

  lemma PeerHeld(s: Shape, p: Path, f: map<Path, File>)
    ensures PeerAt(s, p) ==> p != [] && Held(s, p, f) == HeldBelow(s, p, f)
  {
  }

  lemma CoveredIffToRenew(b: Builder, regs: seq<Registration>, w: World, cs: Chains, w1: World, calls: seq<Call>,
                          q: Path)
    requires Prepared(b, regs, w) && CompleteChains([b], regs, w) == COk(cs, w1) && InitCalls(cs, w.now, calls)
    ensures Covered([b.name] + q, calls) <==> ToRenew(BuilderShape(b), q, w)
  {
    hide TopsReady, RegistrationsFor, LongTops, CompleteChains, AllVisits, BuilderShape, DueOnDisk, InitCalls;
    hide CertsToRegenerate;
    var root, s, listed := b.name, BuilderShape(b), CertsToRegenerate(AllVisits(cs), w.now);
    var _, _ := CompletedTree(b, regs, w);
    CoveredIffListed(cs, w.now, calls, [root] + q);
    if BelowListed([root] + q, listed) {
      var i :| 0 <= i < |listed| && listed[i] <= [root] + q;
      ListedPaths(cs, w.now, listed[i]);
      var p := listed[i][1..];
      PrefixHead(listed[i], [root] + q);
      assert ([root] + q)[1..] == q && listed[i] == [root] + p;
      ListedIffDueOnDisk(b, regs, w, cs, w1, p);
      assert p <= q && DueOnDisk(s, p, w);
    }
    if p :| p <= q && DueOnDisk(s, p, w) {
      ListedIffDueOnDisk(b, regs, w, cs, w1, p);
      var i :| 0 <= i < |listed| && listed[i] == [root] + p;
      PrefixHead([root] + p, [root] + q);
      assert ([root] + p)[1..] == p && ([root] + q)[1..] == q;
    }
  }

  /* ---- the whole start-up ---- */

  /** Renewal of what is recorded. */
  lemma RecordedOutcome(b: Builder, regs: seq<Registration>, w: World, cs: Chains, w1: World, calls: seq<Call>,
                        cs': Chains, w': World, q: Path)
    requires Prepared(b, regs, w) && CompleteChains([b], regs, w) == COk(cs, w1)
    requires InitCalls(cs, w.now, calls) && Run(cs, w1, calls, cs', w')
    requires Resolves(BuilderShape(b), q) && Covered([b.name] + q, calls) && ChainCertAt(cs, [b.name] + q).Some?
    ensures var s := BuilderShape(b);
            Held(s, q, w'.files).Some? && Renewed(Held(s, q, w'.files).value.cert, w.next, w.now, RenewalDays(s, q))
  {
    hide TopsReady, RegistrationsFor, LongTops, Completed, CompleteChains, AllVisits, Resolves, PeerAt, HeldBelow, Held;
    hide BuilderShape, LaidOut;
    hide Covers, ValidityOk, RenewalDays, ChainCertAt, ChainDaysAt, Intact, SameShapes, Covered, Run, Renewed;
    hide InitCalls;
    var l := [b.name] + q;
    var _, _ := CompletedTree(b, regs, w);
    CallsNow(cs, w.now, calls);
    RunExact(cs, w1, calls, cs', w', l);
    SameCompleted(b, regs, w, cs, cs');
    RecordedHeld(b, regs, w, cs', w', q);
    RecordedHeld(b, regs, w, cs, w1, q);
    RenewedEarlier(ChainCertAt(cs', l).value, w1.next, w.next, w.now, ChainDaysAt(cs, l));
  }

  lemma CallsNow(cs: Chains, now: int, calls: seq<Call>)
    requires InitCalls(cs, now, calls)
    ensures forall i :: 0 <= i < |calls| ==> calls[i].now == now
  {
  }

  /** Every certificate asked for meets its outcome, whatever orders maps and registrations are visited in. */
  lemma StartUpOutcome(b: Builder, regs: seq<Registration>, w: World, calls: seq<Call>, cs': Chains, w': World, q: Path)
    requires Prepared(b, regs, w) && StartsUp(b, regs, w, calls, cs', w') && Resolves(BuilderShape(b), q)
    ensures Outcome(b, q, w, w')
  {
    hide TopsReady, RegistrationsFor, LongTops, Completed, CompleteChains, AllVisits, Resolves, PeerAt, HeldBelow, Held;
    hide BuilderShape, LaidOut;
    hide Covers, ValidityOk, RenewalDays, CreationDays, ChainCertAt, ChainDaysAt, Intact, Covered, Run, Renewed;
    hide InitCalls, ToRenew, NodeShape;
    var s, l := BuilderShape(b), [b.name] + q;
    var cs, w1 := CompletedTree(b, regs, w);
    CompletedHeld(b, regs, w, cs, w1, q);
    CoveredIffToRenew(b, regs, w, cs, w1, calls, q);
    RootOf(b, regs, w, cs);
    if !Covered(l, calls) {
      RunKeepsHeld(cs, s, b.name, w1, calls, cs', w', q);
    } else {
      RecordedHeld(b, regs, w, cs, w1, q);
      PeerHeld(s, q, w.files);
      if PeerAt(s, q) && Held(s, q, w.files).Some? {
        assert ChainCertAt(cs, l) == None;
        NotResolved(cs, b.name, q);
        LeftoverFate(cs, s, b.name, w1, calls, cs', w', q);
      } else {
        RecordedOutcome(b, regs, w, cs, w1, calls, cs', w', q);
      }
    }
  }

  /** A root CA that was not on disk is made in the name of its CAInfo. */
  lemma RootInName(b: Builder, regs: seq<Registration>, w: World, calls: seq<Call>, cs': Chains, w': World)
    requires Prepared(b, regs, w) && StartsUp(b, regs, w, calls, cs', w') && Held(BuilderShape(b), [], w.files) == None
    ensures Held(BuilderShape(b), [], w'.files).Some?
    ensures Held(BuilderShape(b), [], w'.files).value.cert.subject == Name(b.caInfo.value.name, "", [])
  {
    hide TopsReady, RegistrationsFor, LongTops, Completed, CompleteChains, AllVisits, GetRoot, AllKept, Kept;
    hide BuilderShape, LaidOut, Covers, ValidityOk, Intact, Covered, Run, InitCalls, NodeShape, Due;
    var s := BuilderShape(b);
    var cs, w1 := CompletedTree(b, regs, w);
    CompleteChainsKept(b, regs, w, cs, w1);
    BuilderDir(b);
    assert !ToRenew(s, [], w);
    CoveredIffToRenew(b, regs, w, cs, w1, calls, []);
    RootOf(b, regs, w, cs);
    assert Resolves(s, []);
    RunKeepsHeld(cs, s, b.name, w1, calls, cs', w', []);
  }

  lemma RootOf(b: Builder, regs: seq<Registration>, w: World, cs: Chains)
    requires Completed(b, regs, w, cs)
    ensures cs.Keys == {b.name}
  {
  }

  lemma NotResolved(cs: Chains, root: string, q: Path)
    requires root in cs && ChainCertAt(cs, [root] + q) == None
    ensures !Resolves(NodeShape(cs[root]), q)
  {
    assert ([root] + q)[1..] == q;
    CertAtResolves(cs[root], q);
  }

  /** After the start-up everything asked for is on disk, save the peer certificates that were there before and whose
      signer, or a signer above it, was due. */
  lemma OnDiskAfter(b: Builder, regs: seq<Registration>, w: World, calls: seq<Call>, cs': Chains, w': World, q: Path)
    requires Prepared(b, regs, w) && StartsUp(b, regs, w, calls, cs', w') && Resolves(BuilderShape(b), q)
    ensures var s := BuilderShape(b);
            Held(s, q, w'.files).Some? <==> !(PeerAt(s, q) && Held(s, q, w.files).Some? && ToRenew(s, q, w))
  {
    hide Prepared, StartsUp, Resolves, PeerAt, Held, BuilderShape, ToRenew;
    StartUpOutcome(b, regs, w, calls, cs', w', q);
  }

  /* ---- a start-up always goes through ---- */

  lemma {:induction false} ChoicesExist(n: Node, path: Path) returns (ch: Choices)
    requires Keyed(n)
    ensures Possible(n, path, ch)
    decreases |path|
  {
    hide Rebuilds;
    if path == [] {
      var bs := EachRebuilds(n, Sorted(n.subs.Keys));
      var order := EnumerationExists(n.bundles);
      ch := Choices(bs, order);
    } else if path[0] !in n.subs {
      ch := Choices([], []);
    } else if |path| == 1 {
      var b := BuilderExists(n.subs[path[0]]);
      ch := Choices([b], []);
    } else {
      ch := ChoicesExist(n.subs[path[0]], path[1..]);
    }
  }

  lemma ChainsChoicesExist(cs: Chains, path: Path, w: World) returns (ch: Choices)
    requires Intact(cs, w) && path != []
    ensures ChainsPossible(cs, path, ch)
  {
    hide NodeShape, Possible, Keyed;
    ch := Choices([], []);
    if path[0] in cs {
      assert RootHealthy(cs, path[0], w);
      LaidOutKeyed(cs[path[0]]);
      ch := ChoicesExist(cs[path[0]], path[1..]);
    }
  }

  /** The loop gets through the first `i` listed paths. */
  lemma {:induction false} CallsExist(cs: Chains, w: World, i: nat) returns (calls: seq<Call>, cs': Chains, w': World)
    requires Intact(cs, w) && i <= |CertsToRegenerate(AllVisits(cs), w.now)|
    ensures Run(cs, w, calls, cs', w') && CallsFor(calls, CertsToRegenerate(AllVisits(cs), w.now)[..i], w.now)
    ensures w'.now == w.now
  {
    hide Intact, AllVisits, CertsToRegenerate, ChainsPossible, RegenerateChains, Run, SameShapes;
    var listed := CertsToRegenerate(AllVisits(cs), w.now);
    if i == 0 {
      RunNothing(cs, w);
      calls, cs', w' := [], cs, w;
    } else {
      var calls1, cs1, w1 := CallsExist(cs, w, i - 1);
      var path := listed[i - 1];
      ListedPaths(cs, w.now, path);
      RunKeepsIntact(cs, w, calls1, cs1, w1);
      var ch := ChainsChoicesExist(cs1, path, w1);
      InitCertsNeverFails(cs, w, calls1, cs1, w1, path, ch);
      var o := RegenerateChains(cs1, path, ch, w1);
      RunOneMore(cs, w, calls1, cs1, w1, Call(path, ch, w.now), o.cs, o.w);
      calls, cs', w' := calls1 + [Call(path, ch, w.now)], o.cs, o.w;
    }
  }

  lemma StartUpExists(b: Builder, regs: seq<Registration>, w: World) returns (calls: seq<Call>, cs: Chains, w': World)
    requires Prepared(b, regs, w)
    ensures StartsUp(b, regs, w, calls, cs, w')
  {
    hide Intact, Completed, CompleteChains, AllVisits, CertsToRegenerate, Run, TopsReady, RegistrationsFor, LongTops;
    hide BuilderShape, Covers, LaidOut;
    var cs1, w1 := CompletedTree(b, regs, w);
    var listed := CertsToRegenerate(AllVisits(cs1), w1.now);
    calls, cs, w' := CallsExist(cs1, w1, |listed|);
    assert listed[..|listed|] == listed;
  }
}
